/** What a successful call has done, field by field, and who may change a published route. */
module Published {
  import opened Collections
  import opened Json
  import opened Order
  import opened Route
  import opened Registry
  import opened Handoff
  import opened Exactness
  import Runs

  /** The slot's file reads as this route. */
  predicate Serves(u: Setup, d: Disk, slot: Text, r: PreviewRoute) {
    slot in d.files && u.codec.parse(d.files[slot]) == Some(r)
  }

  // ---------------------------------------------------------------- publish

  /** A status from 200 to 399 came within twenty attempts, after connection failures and statuses
      below 500 only. */
  ghost predicate GatewayCame(replies: nat -> Reply) {
    exists k: nat :: k < 20 && CameAt(replies, k)
  }

  ghost predicate CameAt(replies: nat -> Reply, k: nat) {
    && replies(k).Status? && 200 <= replies(k).code <= 399
    && forall j: nat :: j < k ==> replies(j).Down? || (replies(j).Status? && replies(j).code < 500)
  }

  predicate DirectCame(reply: Reply) {
    reply.Status? && 200 <= reply.code <= 399
  }

  lemma GatewayCameIff(route: PreviewRoute, replies: nat -> Reply)
    requires Sendable(route.checkPath)
    ensures Accepts(GatewayFrom(route, replies, 0, 0), Successful) <==> GatewayCame(replies)
  {
    GatewayVerdict(route, replies, 0, 0);
    assert forall k: nat :: Ask(route, replies(k)) == replies(k);
    if k: nat :| ComesAt(route, replies, Successful, ServerError, 0, k) {
      assert forall j: nat :: j < k ==> Passed(Ask(route, replies(j)), ServerError);
      assert CameAt(replies, k);
    }
    if k: nat :| k < 20 && CameAt(replies, k) {
      assert ComesAt(route, replies, Successful, ServerError, 0, k);
    }
  }

  /** The route says what the call asked for, for the container that was found and the slot as it is
      configured. */
  predicate AsAsked(u: Setup, call: Call, env: Env, r: PreviewRoute) {
    && r.slot == call.slot && r.jobId == call.job && r.project == call.project && r.service == call.service
    && r.port == call.port && r.checkPath == call.checkPath && env.container == Some(r.containerId)
    && call.slot in u.slots && r.hostname == u.slots[call.slot].hostname && r.repository == u.slots[call.slot].repository
  }

  /** A path that starts with one slash and has no line break. */
  predicate OneSlash(path: Text) {
    path != [] && path[0] == 47 && (|path| == 1 || path[1] != 47) && 10 !in path && 13 !in path
  }

  lemma ExchangedAsAsked(u: Setup, d: Disk, bytes: Option<Text>, previous: Option<PreviewRoute>, cand: PreviewRoute, now: bool, env: Env)
    requires Faithful(u.codec) && u.codec.valid(cand) && Ascii(cand.publishedAt)
    requires Exchange(u, d, bytes, previous, cand, now, env).result.Success?
    ensures var e := Exchange(u, d, bytes, previous, cand, now, env);
            && e.result == Success(cand) && Serves(u, Final(d, e.trace), cand.slot, cand)
            && Sendable(cand.checkPath) && DirectCame(env.direct) && GatewayCame(env.gateway)
  {
    var direct := Ask(cand, env.direct);
    assert direct.Status? && Sendable(cand.checkPath);
    GatewayCameIff(cand, env.gateway);
    var w := Write(d, cand.slot, Some(u.codec.render(cand)));
    assert u.codec.parse(u.codec.render(cand)) == Some(cand);
    FinalThen(d, [], [w], Verify(u, w, bytes, previous, cand, now, env).trace);
    SettledServes(u, w, previous, cand, env);
  }

  lemma SettledServes(u: Setup, w: Disk, previous: Option<PreviewRoute>, cand: PreviewRoute, env: Env)
    requires Serves(u, w, cand.slot, cand)
    ensures Serves(u, Final(w, Settle(u, w, previous, cand, env).trace), cand.slot, cand)
  {
  }

  /** A successful publish publishes what was asked, in any environment: its result is the route that
      the slot's file then reads as, with every field as asked, found or configured; the job reserved
      the repository and owns the project. Either the file is unchanged and said so already, or the
      route carries the present time and both checks passed. */
  lemma PublishedAsAsked(u: Setup, d: Disk, call: Call, env: Env)
    requires Faithful(u.codec) && Ascii(env.now) && PublishEffect(u, d, call, env).result.Success?
    ensures var e := PublishEffect(u, d, call, env);
            var r := e.result.value;
            && AsAsked(u, call, env, r) && Serves(u, Final(d, e.trace), call.slot, r)
            && call.job in u.repositories && r.repository in u.repositories[call.job] && call.project in env.projects
            && 1 <= r.port <= 65535 && OneSlash(r.checkPath) && env.addressed && (r.containerId in d.attached || env.connects)
            && (Serves(u, d, call.slot, r) || (r.publishedAt == env.now && DirectCame(env.direct) && GatewayCame(env.gateway)))
  {
    var container := env.container.value;
    var (trace, link) := ConnectCandidate(d, call.slot, container, env);
    var e := Final(d, trace);
    assert e.files == d.files;
    var cand := Candidate(u, call, container, link.value.alias, env);
    var previous := Previous(u, e, call.slot);
    var p := Propose(u, e, call, container, link.value, env);
    FinalThen(d, [], trace, p.trace);
    if previous.Some? && SamePreview(previous.value, cand) {
      assert trace + [] == trace;
    } else {
      ExchangedAsAsked(u, e, Content(e, call.slot), previous, cand, link.value.now, env);
    }
  }

  /** The name under which a container can be published: it is not attached yet, or has a preview alias. */
  ghost predicate Linkable(d: Disk, container: Text) {
    container !in d.attached || exists a :: a in d.attached[container] && IsPreview(a)
  }

  lemma PreviewAliasPrefix(slot: Text, container: Text)
    requires |container| >= 12
    ensures IsPreview(AliasFor(slot, container))
  {
  }

  lemma LinkableLinks(u: Setup, d: Disk, slot: Text, container: Text, env: Env)
    requires |container| >= 12 && Linkable(d, container) && Reliable(u, env)
    ensures var l := ConnectCandidate(d, slot, container, env).1;
            l.Some? && (container !in d.attached ==> l.value.alias == AliasFor(slot, container))
            && (container in d.attached ==> l.value.alias in d.attached[container] && IsPreview(l.value.alias))
  {
    PreviewAliasPrefix(slot, container);
    if container in d.attached {
      LeastPreviewIsLeast(d.attached[container]);
    }
  }

  /** Preview aliases on the network can stand in a route. */
  ghost predicate AliasesFit(d: Disk, container: Text) {
    container in d.attached ==> forall a :: a in d.attached[container] && IsPreview(a) ==> Identifier(a)
  }

  /** Publishing works: a well-formed request of a job that reserved the slot's repository and owns the
      project, for a container that was found and can be attached under a name that fits, whose two
      checks pass, succeeds; nothing else is asked of it. */
  lemma PublishWorks(u: Setup, d: Disk, call: Call, env: Env)
    requires GoodSetup(u) && Backed(u, d) && Ready(u, d) && Reliable(u, env)
    requires Identifier(call.job) && Identifier(call.slot) && Identifier(call.project) && Identifier(call.service)
    requires 1 <= call.port <= 65535 && OneSlash(call.checkPath) && u.lib.plainPath(call.checkPath) && Sendable(call.checkPath)
    requires call.slot in u.slots && |call.slot| <= 42
    requires call.job in u.repositories && u.slots[call.slot].repository in u.repositories[call.job]
    requires call.project in env.projects && env.container.Some? && ContainerId(env.container.value)
    requires Linkable(d, env.container.value) && AliasesFit(d, env.container.value)
    requires DirectCame(env.direct) && GatewayCame(env.gateway)
    ensures PublishEffect(u, d, call, env).result.Success?
  {
    var container := env.container.value;
    assert call.slot in d.files ==> Requestable(u, d.files[call.slot]);
    LinkableLinks(u, d, call.slot, container, env);
    AliasIdentifier(call.slot, container);
    var (trace, link) := ConnectCandidate(d, call.slot, container, env);
    CandidateValid(u, d, call, link.value.alias, env);
    var cand := Candidate(u, call, container, link.value.alias, env);
    GatewayCameIff(cand, env.gateway);
    PublishOutcome(u, d, call, env);
    CheckedSucceeds(u, d, Final(d, trace), cand, link.value.now, env);
  }

  lemma CheckedSucceeds(u: Setup, d: Disk, e: Disk, cand: PreviewRoute, now: bool, env: Env)
    requires Faithful(u.codec) && u.codec.valid(cand) && Ascii(cand.publishedAt) && Reliable(u, env) && Sendable(cand.checkPath)
    requires cand.slot in u.slots && cand.hostname == u.slots[cand.slot].hostname && cand.repository == u.slots[cand.slot].repository
    requires Ready(u, d) && e.files == d.files
    requires DirectCame(env.direct) && GatewayCame(env.gateway)
    ensures Exchange(u, e, Content(e, cand.slot), Previous(u, e, cand.slot), cand, now, env).result == Success(cand)
  {
    GatewayCameIff(cand, env.gateway);
    WrittenGood(u, e, cand);
    SettleExact(u, e, Previous(u, e, cand.slot), cand, env);
  }

  // ---------------------------------------------------------------- unpublish

  /** A 404 came within twenty attempts, after connection failures and other statuses only. */
  ghost predicate GoneCame(replies: nat -> Reply) {
    exists k: nat :: k < 20 && GoneAt(replies, k)
  }

  ghost predicate GoneAt(replies: nat -> Reply, k: nat) {
    replies(k) == Status(404) && forall j: nat :: j < k ==> replies(j).Down? || replies(j).Status?
  }

  lemma GoneCameIff(route: PreviewRoute, replies: nat -> Reply)
    requires Sendable(route.checkPath)
    ensures Accepts(WaitFrom(route, replies, IsMissing, 0, 0), IsMissing) <==> GoneCame(replies)
  {
    WaitVerdict(route, replies, IsMissing, 0, 0);
    assert forall k: nat :: Ask(route, replies(k)) == replies(k);
    if k: nat :| ComesAt(route, replies, IsMissing, Nothing, 0, k) {
      assert forall j: nat :: j < k ==> Passed(Ask(route, replies(j)), Nothing);
      assert GoneAt(replies, k);
    }
    if k: nat :| k < 20 && GoneAt(replies, k) {
      assert ComesAt(route, replies, IsMissing, Nothing, 0, k);
    }
  }

  /** The slot's file reads as a route of this job. */
  predicate RouteOf(u: Setup, d: Disk, slot: Text, job: Text) {
    slot in d.files && u.codec.parse(d.files[slot]).Some? && u.codec.parse(d.files[slot]).value.jobId == job
  }

  /** Only the owner removes a route: for any other job, and where there is no route, a call fails and
      changes nothing, whatever the environment answers. */
  lemma OnlyOwnersUnpublish(u: Setup, d: Disk, job: Text, slot: Text, env: Env)
    requires !RouteOf(u, d, slot, job)
    ensures UnpublishEffect(u, d, job, slot, env).result.Failure? && UnpublishEffect(u, d, job, slot, env).trace == []
  {
  }

  /** In a reliable environment an unpublish succeeds exactly for a route of the calling job whose
      hostname answers 404 in time; it then returns that route, and the slot has none. */
  lemma UnpublishIff(u: Setup, d: Disk, job: Text, slot: Text, env: Env)
    requires Faithful(u.codec) && Ready(u, d) && Reliable(u, env) && Identifier(job) && Identifier(slot)
    ensures var e := UnpublishEffect(u, d, job, slot, env);
            && (e.result.Success? <==> RouteOf(u, d, slot, job) && GoneCame(env.watched))
            && (e.result.Success? ==> Serves(u, d, slot, e.result.value) && slot !in Final(d, e.trace).files)
            && forall s :: s != slot ==> Content(Final(d, e.trace), s) == Content(d, s)
  {
    if RouteOf(u, d, slot, job) {
      var route := u.codec.parse(d.files[slot]).value;
      assert Requestable(u, d.files[slot]) && u.codec.render(route) == d.files[slot];
      WaitAnswers(route, env.watched, IsMissing, 0, 0);
      GoneCameIff(route, env.watched);
      GoneReady(u, d, slot);
    }
  }

  // ---------------------------------------------------------------- when Docker or a check raises

  /** No attempt, up to the first expected status, raises anything but a connection failure. */
  ghost predicate NoneRaises(route: PreviewRoute, replies: nat -> Reply, expected: int -> bool, first: nat) {
    forall k: nat :: first <= k < 20 && StillWaiting(route, replies, expected, first, k) ==> Mild(Ask(route, replies(k)))
  }

  ghost predicate StillWaiting(route: PreviewRoute, replies: nat -> Reply, expected: int -> bool, first: nat, k: nat) {
    forall j: nat :: first <= j < k ==> !Brings(Ask(route, replies(j)), expected)
  }

  predicate Mild(r: Reply) {
    r.Status? || r.Down?
  }

  predicate Brings(r: Reply, expected: int -> bool) {
    r.Status? && expected(r.code)
  }

  lemma StillWaitingNext(route: PreviewRoute, replies: nat -> Reply, expected: int -> bool, first: nat, k: nat)
    requires first < k
    ensures StillWaiting(route, replies, expected, first, k) <==>
            !Brings(Ask(route, replies(first)), expected) && StillWaiting(route, replies, expected, first + 1, k)
  {
  }

  lemma {:induction false} WaitRaisesIff(route: PreviewRoute, replies: nat -> Reply, expected: int -> bool, first: nat, last: int)
    requires first <= 20
    ensures WaitFrom(route, replies, expected, first, last).Answer? <==> NoneRaises(route, replies, expected, first)
    decreases 20 - first
  {
    if first < 20 {
      var r := Ask(route, replies(first));
      assert StillWaiting(route, replies, expected, first, first);
      if Mild(r) && !Brings(r, expected) {
        WaitRaisesIff(route, replies, expected, first + 1, if r.Status? then r.code else last);
      }
      forall k: nat | first < k < 20
        ensures StillWaiting(route, replies, expected, first, k) <==>
                !Brings(r, expected) && StillWaiting(route, replies, expected, first + 1, k)
      {
        StillWaitingNext(route, replies, expected, first, k);
      }
    }
  }

  /** A failed check is reported as such only after the previous route, if there was one, was asked for
      without an exception; otherwise the exception takes its place. */
  lemma RollbackWaits(u: Setup, d: Disk, call: Call, env: Env)
    requires PublishEffect(u, d, call, env).result == Failure(CheckFailed)
    ensures var previous := Previous(u, d, call.slot);
            previous.Some? ==> NoneRaises(previous.value, env.watched, Successful, 0)
  {
    var previous := Previous(u, d, call.slot);
    if previous.Some? {
      WaitRaisesIff(previous.value, env.watched, Successful, 0, 0);
    }
  }

  /** The network changes only as Docker allows: without a working `connect` nothing is attached, without
      a working `disconnect` nothing is detached, at any change of any call. */
  lemma DockerDecides(u: Setup, d: Disk, a: Action, e: Disk)
    requires e in EffectOf(u, d, a).trace
    ensures !a.env.connects ==> e.attached.Keys <= d.attached.Keys
    ensures !a.env.disconnects ==> d.attached.Keys <= e.attached.Keys
  {
    match a
    case Publishing(call, env) =>
      var (trace, link) := ConnectCandidate(d, call.slot, env.container.value, env);
      if link.Some? {
        ProposalNetwork(u, Final(d, trace), call, env.container.value, link.value, env);
      }
    case Unpublishing(job, slot, env) =>
  }

  lemma ProposalNetwork(u: Setup, d: Disk, call: Call, container: Text, link: Link, env: Env)
    requires call.slot in u.slots
    ensures forall e :: e in Propose(u, d, call, container, link, env).trace ==>
              e.attached.Keys <= d.attached.Keys && (!env.disconnects ==> e.attached.Keys == d.attached.Keys)
  {
  }

  /** After a successful change the container that the slot had before is attached only if it still
      serves the slot or some other route names it. */
  lemma ReplacedIsDetached(u: Setup, d: Disk, a: Action, slot: Text)
    requires Faithful(u.codec) && Ascii(a.env.now) && EffectOf(u, d, a).result.Success?
    requires slot == if a.Publishing? then a.call.slot else a.slot
    requires slot in d.files && u.codec.parse(d.files[slot]).Some?
    ensures var old_, e := u.codec.parse(d.files[slot]).value, Final(d, EffectOf(u, d, a).trace);
            old_.containerId in e.attached ==> Named(u, e, old_.containerId) || (a.Publishing? && a.env.container == Some(old_.containerId))
  {
    match a
    case Publishing(call, env) =>
      var (trace, link) := ConnectCandidate(d, call.slot, env.container.value, env);
      var p := Propose(u, Final(d, trace), call, env.container.value, link.value, env);
      FinalThen(d, [], trace, p.trace);
      ProposalDetaches(u, Final(d, trace), call, env.container.value, link.value, env);
    case Unpublishing(job, s, env) =>
  }

  lemma ProposalDetaches(u: Setup, d: Disk, call: Call, container: Text, link: Link, env: Env)
    requires call.slot in u.slots && Propose(u, d, call, container, link, env).result.Success?
    requires Previous(u, d, call.slot).Some?
    ensures var old_, e := Previous(u, d, call.slot).value, Final(d, Propose(u, d, call, container, link, env).trace);
            old_.containerId in e.attached ==> Named(u, e, old_.containerId) || old_.containerId == container
  {
    var cand := Candidate(u, call, container, link.alias, env);
    var w := Write(d, cand.slot, Some(u.codec.render(cand)));
    if !SamePreview(Previous(u, d, call.slot).value, cand) {
      FinalThen(d, [], [w], Verify(u, w, Content(d, call.slot), Previous(u, d, call.slot), cand, link.now, env).trace);
    }
  }

  // ---------------------------------------------------------------- runs

  /** The call may change the route of the slot that belongs to the job: it publishes for the slot, or
      the owner unpublishes it. */
  predicate MayChange(a: Action, slot: Text, job: Text) {
    match a
    case Publishing(call, _) => call.slot == slot
    case Unpublishing(caller, s, _) => s == slot && caller == job
  }

  lemma ForeignCallKeeps(u: Setup, d: Disk, a: Action, e: Disk, slot: Text, job: Text)
    requires Faithful(u.codec) && RouteOf(u, d, slot, job) && Interrupted(u, d, a, e) && !MayChange(a, slot, job)
    ensures Content(e, slot) == Content(d, slot)
  {
    if e != d {
      var i :| 0 <= i < |EffectOf(u, d, a).trace| && EffectOf(u, d, a).trace[i] == e;
      match a
      case Publishing(call, env) => PublishWhole(u, d, call, env);
      case Unpublishing(caller, s, env) =>
        UnpublishWhole(u, d, caller, s, env);
        if s == slot {
          OnlyOwnersUnpublish(u, d, caller, s, env);
        }
    }
  }

  /** A route is safe from others: over any run of calls, each cut short anywhere, in which nobody publishes
      for its slot and its owner does not unpublish it, the slot's file stays exactly the same. */
  lemma RouteIsSafe(u: Setup, start: Disk, d: Disk, slot: Text, job: Text)
    requires Faithful(u.codec) && RouteOf(u, start, slot, job)
    requires Runs.Arises((x: Disk) => x == start,
                         (x: Disk, a: Action, y: Disk) => Interrupted(u, x, a, y) && !MayChange(a, slot, job), d)
    ensures Content(d, slot) == Content(start, slot)
  {
    var kept := (x: Disk) => Content(x, slot) == Content(start, slot);
    forall x, a, y | Interrupted(u, x, a, y) && !MayChange(a, slot, job) && kept(x)
      ensures kept(y)
    {
      ForeignCallKeeps(u, x, a, y, slot, job);
    }
    Runs.ArisesInvariant((x: Disk) => x == start,
                         (x: Disk, a: Action, y: Disk) => Interrupted(u, x, a, y) && !MayChange(a, slot, job), kept, d);
  }
}
