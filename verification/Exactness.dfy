/** What `publish` and `unpublish` leave behind when Docker obeys and HTTP only fails by bad
    statuses or `OSError`: exact rollback, no leaked attachment, no shared hostname or alias. */
module Exactness {
  import opened Collections
  import opened Json
  import opened Route
  import opened Registry
  import opened Handoff
  import Runs

  /** The slots are validated ones and the route format is the one of route files. */
  ghost predicate GoodSetup(u: Setup) {
    && Configuration(u.slots) && Faithful(u.codec)
    && (forall s :: s in u.slots ==> Identifier(s) && Hostname(u.slots[s].hostname) && Identifier(u.slots[s].repository))
    && (forall r :: u.codec.valid(r) <==> Valid(r, u.lib))
  }

  const SLOT_LIMIT := 42

  /** Docker commands succeed, an attached container has an address, and a request that was sent
      ends in a status or an `OSError`; the first one may also end in a `ValueError`. */
  ghost predicate Reliable(u: Setup, env: Env) {
    && env.connects && env.addressed && env.disconnects
    && Ascii(env.now) && u.lib.timestamp(env.now)
    && !env.direct.Escaped?
    && (forall k: nat :: env.gateway(k) != Escaped)
    && (forall k: nat :: env.watched(k).Status? || env.watched(k).Down?)
    && (forall a :: a in env.extra ==> !IsPreview(a))
  }

  /** A well-formed route directory whose check paths fit into a request line. */
  ghost predicate Ready(u: Setup, d: Disk) {
    GoodFiles(u, d) && forall s :: s in d.files ==> Requestable(u, d.files[s])
  }

  predicate Requestable(u: Setup, text: Text) {
    u.codec.parse(text).Some? && Sendable(u.codec.parse(text).value.checkPath)
  }

  lemma {:induction false} WaitAnswers(route: PreviewRoute, replies: nat -> Reply, expected: int -> bool, attempt: nat, last: int)
    requires Sendable(route.checkPath) && forall k: nat :: replies(k).Status? || replies(k).Down?
    ensures WaitFrom(route, replies, expected, attempt, last).Answer?
    decreases ATTEMPTS - attempt
  {
    if attempt < ATTEMPTS {
      var r := replies(attempt);
      WaitAnswers(route, replies, expected, attempt + 1, if r.Status? then r.code else last);
    }
  }

  lemma {:induction false} GatewayNeverEscapes(route: PreviewRoute, replies: nat -> Reply, attempt: nat, last: int)
    requires Sendable(route.checkPath) && forall k: nat :: replies(k) != Escaped
    ensures GatewayFrom(route, replies, attempt, last) != Raised(Escaped)
    decreases ATTEMPTS - attempt
  {
    if attempt < ATTEMPTS {
      var r := replies(attempt);
      GatewayNeverEscapes(route, replies, attempt + 1, if r.Status? then r.code else last);
    }
  }

  /** An alias the registry makes up is an identifier exactly for slots of at most 42 characters. */
  lemma AliasIdentifier(slot: Text, container: Text)
    requires Identifier(slot) && ContainerId(container)
    ensures Identifier(AliasFor(slot, container)) <==> |slot| <= SLOT_LIMIT
  {
    var mark := PreviewMark();
    var a := AliasFor(slot, container);
    assert |mark| == 8 && a[0] == mark[0] == 112;
    assert forall c :: c in mark ==> Hyphenated(c);
    assert forall c :: c in container[..12] ==> c in container;
    assert forall c :: c in a ==> c in mark || c in slot || c == HYPHEN || c in container[..12];
  }

  /** Only the alias of a candidate can be invalid. */
  lemma CandidateValid(u: Setup, d: Disk, call: Call, alias: Text, env: Env)
    requires GoodSetup(u) && Admissible(u, d, call, env) && u.lib.timestamp(env.now)
    ensures u.codec.valid(Candidate(u, call, env.container.value, alias, env)) <==> Identifier(alias)
  {
    assert u.slots[call.slot].slot == call.slot;
  }

  // ---------------------------------------------------------------- exact rollback

  lemma WriteBack(d: Disk, slot: Text, text: Text)
    ensures Write(Write(d, slot, Some(text)), slot, Content(d, slot)) == d
    ensures Write(d, slot, Content(d, slot)) == d
    ensures slot in d.files ==> Write(Write(d, slot, None), slot, Content(d, slot)) == d
  {
    assert slot in d.files ==> d.files[slot := text][slot := d.files[slot]] == d.files;
    assert slot !in d.files ==> d.files[slot := text] - {slot} == d.files;
    assert slot !in d.files ==> d.files - {slot} == d.files;
    assert slot in d.files ==> (d.files - {slot})[slot := d.files[slot]] == d.files;
  }

  lemma AttachBack(d: Disk, container: Text, aliases: seq<Text>)
    requires container !in d.attached
    ensures Detach(Attach(d, container, aliases), container) == d
  {
    assert d.attached[container := aliases] - {container} == d.attached;
  }

  /** Taking back what was written onto `e`, and the attachment if this call made it, gives `d`. */
  lemma RollbackExact(u: Setup, d: Disk, e: Disk, w: Disk, cand: PreviewRoute, now: bool, env: Env)
    requires Reliable(u, env) && Ready(u, d) && Backed(u, d) && e.files == d.files
    requires w == e || exists text :: w == Write(e, cand.slot, Some(text))
    requires if now then cand.containerId !in d.attached && exists a :: e == Attach(d, cand.containerId, a) else e == d
    ensures var r := Rollback(u, w, Content(d, cand.slot), Previous(u, d, cand.slot), cand, now, env);
            r.result == Failure(CheckFailed) && Final(w, r.trace) == d
  {
    var back := Write(w, cand.slot, Content(d, cand.slot));
    assert back == e by {
      if w == e {
        WriteBack(e, cand.slot, []);
      } else {
        var text :| w == Write(e, cand.slot, Some(text));
        WriteBack(e, cand.slot, text);
      }
    }
    var previous := Previous(u, d, cand.slot);
    if previous.Some? {
      assert Requestable(u, d.files[cand.slot]);
      WaitAnswers(previous.value, env.watched, Successful, 0, 0);
    }
    if now {
      CandidateUnreferenced(u, d, cand.containerId);
      assert !Named(u, e, cand.containerId);
      var a :| e == Attach(d, cand.containerId, a);
      AttachBack(d, cand.containerId, a);
    }
  }

  lemma WrittenGood(u: Setup, e: Disk, cand: PreviewRoute)
    requires Faithful(u.codec) && u.codec.valid(cand) && Sendable(cand.checkPath) && Ascii(cand.publishedAt)
    requires cand.slot in u.slots && cand.hostname == u.slots[cand.slot].hostname && cand.repository == u.slots[cand.slot].repository
    requires Ready(u, e)
    ensures u.codec.parse(u.codec.render(cand)) == Some(cand)
    ensures Ready(u, Write(e, cand.slot, Some(u.codec.render(cand))))
  {
    var text := u.codec.render(cand);
    assert u.codec.parse(text) == Some(cand);
    var w := Write(e, cand.slot, Some(text));
    forall s | s in w.files
      ensures GoodFile(u, s, w.files[s]) && Requestable(u, w.files[s])
    {
      if s != cand.slot {
        assert GoodFile(u, s, e.files[s]) && Requestable(u, e.files[s]);
      }
    }
  }

  /** The state a successful exchange ends in. */
  ghost function Settled(u: Setup, e: Disk, previous: Option<PreviewRoute>, cand: PreviewRoute): Disk {
    var w := Write(e, cand.slot, Some(u.codec.render(cand)));
    if previous.Some? && previous.value.containerId != cand.containerId && !Named(u, w, previous.value.containerId)
    then Detach(w, previous.value.containerId) else w
  }

  lemma SettleExact(u: Setup, e: Disk, previous: Option<PreviewRoute>, cand: PreviewRoute, env: Env)
    requires Reliable(u, env) && Ready(u, Write(e, cand.slot, Some(u.codec.render(cand))))
    ensures var w := Write(e, cand.slot, Some(u.codec.render(cand)));
            var r := Settle(u, w, previous, cand, env);
            r.result == Success(cand) && Final(w, r.trace) == Settled(u, e, previous, cand)
  {
  }

  /** An exchange whose path `http.client` accepts either takes everything back or settles. */
  lemma ExchangeOutcome(u: Setup, d: Disk, e: Disk, cand: PreviewRoute, now: bool, env: Env)
    requires Faithful(u.codec) && u.codec.valid(cand) && Ascii(cand.publishedAt) && Reliable(u, env)
    requires !Refused(cand.checkPath)
    requires cand.slot in u.slots && cand.hostname == u.slots[cand.slot].hostname && cand.repository == u.slots[cand.slot].repository
    requires Ready(u, d) && Backed(u, d) && e.files == d.files
    requires if now then cand.containerId !in d.attached && exists a :: e == Attach(d, cand.containerId, a) else e == d
    ensures var r := Exchange(u, e, Content(d, cand.slot), Previous(u, d, cand.slot), cand, now, env);
            && (r.result.Failure? ==> r.result.error == CheckFailed && Final(e, r.trace) == d)
            && (r.result.Success? ==> r.result.value == cand && Sendable(cand.checkPath)
                                      && Final(e, r.trace) == Settled(u, e, Previous(u, d, cand.slot), cand))
  {
    var direct := Ask(cand, env.direct);
    RollbackExact(u, d, e, e, cand, now, env);
    if direct.Status? && Successful(direct.code) {
      VerifyOutcome(u, d, e, cand, now, env);
      var w := Write(e, cand.slot, Some(u.codec.render(cand)));
      FinalThen(e, [], [w], Verify(u, w, Content(d, cand.slot), Previous(u, d, cand.slot), cand, now, env).trace);
    }
  }

  /** After the write, too, everything is taken back or settled. */
  lemma VerifyOutcome(u: Setup, d: Disk, e: Disk, cand: PreviewRoute, now: bool, env: Env)
    requires Faithful(u.codec) && u.codec.valid(cand) && Ascii(cand.publishedAt) && Reliable(u, env) && Sendable(cand.checkPath)
    requires cand.slot in u.slots && cand.hostname == u.slots[cand.slot].hostname && cand.repository == u.slots[cand.slot].repository
    requires Ready(u, d) && Backed(u, d) && e.files == d.files
    requires if now then cand.containerId !in d.attached && exists a :: e == Attach(d, cand.containerId, a) else e == d
    ensures var w := Write(e, cand.slot, Some(u.codec.render(cand)));
            var r := Verify(u, w, Content(d, cand.slot), Previous(u, d, cand.slot), cand, now, env);
            && (r.result.Failure? ==> r.result.error == CheckFailed && Final(w, r.trace) == d)
            && (r.result.Success? ==> r.result.value == cand && Final(w, r.trace) == Settled(u, e, Previous(u, d, cand.slot), cand))
  {
    WrittenGood(u, e, cand);
    RollbackExact(u, d, e, Write(e, cand.slot, Some(u.codec.render(cand))), cand, now, env);
    GatewayNeverEscapes(cand, env.gateway, 0, 0);
    SettleExact(u, e, Previous(u, d, cand.slot), cand, env);
  }

  /** The call attaches a container, and then either its alias is too long for a route or its check
      path is one that `http.client` refuses. */
  predicate Strands(u: Setup, d: Disk, call: Call, env: Env) {
    Admissible(u, d, call, env) && env.container.value !in d.attached && (|call.slot| > SLOT_LIMIT || Refused(call.checkPath))
  }

  lemma ConnectNow(u: Setup, d: Disk, slot: Text, container: Text, env: Env)
    requires Reliable(u, env) && |container| >= 12
    ensures var (trace, link) := ConnectCandidate(d, slot, container, env);
            if container in d.attached then Final(d, trace) == d && (link.Some? ==> !link.value.now)
            else link == Some(Link(AliasFor(slot, container), true))
                 && Final(d, trace) == Attach(d, container, [AliasFor(slot, container)] + env.extra)
                 && Final(d, trace) != d
  {
  }

  /** What a reliable publish does: nothing at all, or the change of one slot. */
  lemma PublishOutcome(u: Setup, d: Disk, call: Call, env: Env)
    requires GoodSetup(u) && Backed(u, d) && Ready(u, d) && Reliable(u, env) && Admissible(u, d, call, env)
    ensures var r := PublishEffect(u, d, call, env);
            var previous := Previous(u, d, call.slot);
            var (trace, link) := ConnectCandidate(d, call.slot, env.container.value, env);
            var e := Final(d, trace);
            && (r.result.Failure? ==> Final(d, r.trace) == if Strands(u, d, call, env) then e else d)
            && (r.result.Success? ==>
                  && link.Some? && !Strands(u, d, call, env)
                  && var cand := Candidate(u, call, env.container.value, link.value.alias, env);
                     && u.codec.valid(cand)
                     && if previous.Some? && SamePreview(previous.value, cand)
                        then r.result.value == previous.value && Final(d, r.trace) == d
                        else r.result.value == cand && Sendable(call.checkPath) && Final(d, r.trace) == Settled(u, e, previous, cand))
  {
    var container := env.container.value;
    ConnectNow(u, d, call.slot, container, env);
    AliasIdentifier(call.slot, container);
    var (trace, link) := ConnectCandidate(d, call.slot, container, env);
    if link.Some? {
      var e := Final(d, trace);
      var cand := Candidate(u, call, container, link.value.alias, env);
      CandidateValid(u, d, call, link.value.alias, env);
      var previous := Previous(u, d, call.slot);
      if u.codec.valid(cand) {
        if previous.Some? && SamePreview(previous.value, cand) {
          assert Supported(u, d, d.files[call.slot]);
          assert container in d.attached;
        } else if !Refused(call.checkPath) {
          ExchangeOutcome(u, d, e, cand, link.value.now, env);
          FinalThen(d, [], trace, Exchange(u, e, Content(e, call.slot), previous, cand, link.value.now, env).trace);
        }
      }
    }
  }

  /** A publish that fails leaves routes and attachments exactly as they were, if and only if it did
      not attach a container for a slot of more than 42 characters or a refused check path. */
  lemma ExactRollback(u: Setup, d: Disk, call: Call, env: Env)
    requires GoodSetup(u) && Backed(u, d) && Ready(u, d) && Reliable(u, env)
    requires PublishEffect(u, d, call, env).result.Failure?
    ensures Final(d, PublishEffect(u, d, call, env).trace) == d <==> !Strands(u, d, call, env)
  {
    if Admissible(u, d, call, env) {
      PublishOutcome(u, d, call, env);
      ConnectNow(u, d, call.slot, env.container.value, env);
    }
  }

  /** A publish that strands fails and leaves the container attached although no route names it:
      the alias of a long slot is refused, a refused path escapes the transaction. */
  lemma StrandedAttachment(u: Setup, d: Disk, call: Call, env: Env)
    requires GoodSetup(u) && Backed(u, d) && Ready(u, d) && Reliable(u, env) && Strands(u, d, call, env)
    ensures var r := PublishEffect(u, d, call, env);
            && r.result == Failure(if |call.slot| > SLOT_LIMIT then BadRoute else Broken)
            && env.container.value in Final(d, r.trace).attached
            && !Named(u, Final(d, r.trace), env.container.value)
  {
    var container := env.container.value;
    ConnectNow(u, d, call.slot, container, env);
    AliasIdentifier(call.slot, container);
    CandidateValid(u, d, call, AliasFor(call.slot, container), env);
    CandidateUnreferenced(u, d, container);
  }

  /** The state a successful unpublish ends in. */
  ghost function Removed(u: Setup, d: Disk, slot: Text): Disk
    requires slot in d.files && u.codec.parse(d.files[slot]).Some?
  {
    var gone, container := Write(d, slot, None), u.codec.parse(d.files[slot]).value.containerId;
    if Named(u, gone, container) then gone else Detach(gone, container)
  }

  lemma GoneReady(u: Setup, d: Disk, slot: Text)
    requires Ready(u, d)
    ensures Ready(u, Write(d, slot, None))
  {
    var gone := Write(d, slot, None);
    forall s | s in gone.files
      ensures GoodFile(u, s, gone.files[s]) && Requestable(u, gone.files[s])
    {
      assert GoodFile(u, s, d.files[s]) && Requestable(u, d.files[s]);
    }
  }

  /** An unpublish that fails leaves everything exactly as it was. */
  lemma UnpublishRestores(u: Setup, d: Disk, job: Text, slot: Text, env: Env)
    requires Faithful(u.codec) && Ready(u, d) && Reliable(u, env)
    ensures var r := UnpublishEffect(u, d, job, slot, env);
            && (r.result.Failure? ==> Final(d, r.trace) == d)
            && (r.result.Success? ==> Owned(u, d, job, slot) && Final(d, r.trace) == Removed(u, d, slot))
  {
    if Owned(u, d, job, slot) {
      var route := u.codec.parse(d.files[slot]).value;
      assert Requestable(u, d.files[slot]) && u.codec.render(route) == d.files[slot];
      WaitAnswers(route, env.watched, IsMissing, 0, 0);
      GoneReady(u, d, slot);
      if !IsMissing(WaitFrom(route, env.watched, IsMissing, 0, 0).code) {
        WriteBack(d, slot, []);
      }
    }
  }
}
