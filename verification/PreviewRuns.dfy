/** Whole runs of `publish` and `unpublish`: routes and attachments stay in step. */
module PreviewRuns {
  import opened Collections
  import opened Json
  import opened Route
  import opened Registry
  import opened Handoff
  import opened Exactness
  import Runs

  /** The attached containers are exactly those that some route names. */
  ghost predicate InStep(u: Setup, d: Disk) {
    forall c :: c in d.attached <==> Named(u, d, c)
  }

  ghost predicate MadeUp(container: Text, alias: Text)
    requires |container| >= 12
  {
    exists slot: Text :: alias == AliasFor(slot, container)
  }

  /** Every preview alias on the network was made up by the registry for its container. */
  ghost predicate Aliased(d: Disk) {
    forall c :: c in d.attached ==> |c| >= 12 && forall a :: a in d.attached[c] && IsPreview(a) ==> MadeUp(c, a)
  }

  predicate Reserved(u: Setup, text: Text) {
    u.codec.parse(text).Some? ==>
      var r := u.codec.parse(text).value; r.jobId in u.repositories && r.repository in u.repositories[r.jobId]
  }

  ghost predicate Owners(u: Setup, d: Disk) {
    forall s :: s in d.files ==> Reserved(u, d.files[s])
  }

  ghost predicate Consistent(u: Setup, d: Disk) {
    Backed(u, d) && Ready(u, d) && InStep(u, d) && Aliased(d) && Owners(u, d)
  }

  // ---------------------------------------------------------------- who names a container

  ghost predicate NamedElsewhere(u: Setup, d: Disk, slot: Text, container: Text) {
    exists s :: s in d.files && s != slot && u.codec.parse(d.files[s]).Some? && u.codec.parse(d.files[s]).value.containerId == container
  }

  predicate NamedAt(u: Setup, d: Disk, slot: Text, container: Text) {
    Previous(u, d, slot).Some? && Previous(u, d, slot).value.containerId == container
  }

  lemma NamedSplit(u: Setup, d: Disk, slot: Text, container: Text)
    ensures Named(u, d, container) <==> NamedElsewhere(u, d, slot, container) || NamedAt(u, d, slot, container)
  {
  }

  lemma NamedAfterWrite(u: Setup, d: Disk, slot: Text, content: Option<Text>, container: Text)
    ensures Named(u, Write(d, slot, content), container) <==>
            NamedElsewhere(u, d, slot, container) || NamedAt(u, Write(d, slot, content), slot, container)
  {
    var w := Write(d, slot, content);
    NamedSplit(u, w, slot, container);
    assert forall s :: s != slot ==> (s in w.files <==> s in d.files) && (s in d.files ==> w.files[s] == d.files[s]);
  }

  // ---------------------------------------------------------------- one change of a slot

  lemma SettledInStep(u: Setup, d: Disk, e: Disk, cand: PreviewRoute)
    requires InStep(u, d) && e.files == d.files && e.attached.Keys == d.attached.Keys + {cand.containerId}
    requires u.codec.parse(u.codec.render(cand)) == Some(cand)
    ensures InStep(u, Settled(u, e, Previous(u, d, cand.slot), cand))
  {
    var previous := Previous(u, d, cand.slot);
    var w := Write(e, cand.slot, Some(u.codec.render(cand)));
    var f := Settled(u, e, previous, cand);
    forall c
      ensures c in f.attached <==> Named(u, f, c)
    {
      NamedAfterWrite(u, e, cand.slot, Some(u.codec.render(cand)), c);
      NamedSplit(u, d, cand.slot, c);
      assert NamedElsewhere(u, e, cand.slot, c) <==> NamedElsewhere(u, d, cand.slot, c);
      assert Named(u, f, c) <==> Named(u, w, c);
    }
  }

  lemma RemovedInStep(u: Setup, d: Disk, slot: Text)
    requires InStep(u, d) && slot in d.files && u.codec.parse(d.files[slot]).Some?
    ensures InStep(u, Removed(u, d, slot))
  {
    var gone, f := Write(d, slot, None), Removed(u, d, slot);
    forall c
      ensures c in f.attached <==> Named(u, f, c)
    {
      NamedAfterWrite(u, d, slot, None, c);
      NamedSplit(u, d, slot, c);
      assert Named(u, f, c) <==> Named(u, gone, c);
    }
  }

  lemma DetachAliased(d: Disk, container: Text)
    requires Aliased(d)
    ensures Aliased(Detach(d, container))
  {
  }

  lemma WriteAliased(d: Disk, slot: Text, content: Option<Text>)
    requires Aliased(d)
    ensures Aliased(Write(d, slot, content))
  {
  }

  /** Detaching a container that no route names keeps everything but the count of attachments. */
  lemma DetachKeeps(u: Setup, d: Disk, container: Text)
    requires Backed(u, d) && Ready(u, d) && Aliased(d) && Owners(u, d) && !Named(u, d, container)
    ensures var e := Detach(d, container); Backed(u, e) && Ready(u, e) && Aliased(e) && Owners(u, e)
  {
    DetachBacked(u, d, container);
    DetachAliased(d, container);
  }

  lemma AttachAliased(d: Disk, slot: Text, container: Text, extra: seq<Text>)
    requires Aliased(d) && |container| >= 12 && forall a :: a in extra ==> !IsPreview(a)
    ensures Aliased(Attach(d, container, [AliasFor(slot, container)] + extra))
  {
    var e := Attach(d, container, [AliasFor(slot, container)] + extra);
    forall c, a | c in e.attached && a in e.attached[c] && IsPreview(a)
      ensures |c| >= 12 && MadeUp(c, a)
    {
      if c == container {
        assert a == AliasFor(slot, container);
      }
    }
  }

  lemma WriteOwners(u: Setup, d: Disk, slot: Text, content: Option<Text>)
    requires Owners(u, d) && (content.Some? ==> Reserved(u, content.value))
    ensures Owners(u, Write(d, slot, content))
  {
    var w := Write(d, slot, content);
    forall s | s in w.files
      ensures Reserved(u, w.files[s])
    {
      if s != slot {
        assert Reserved(u, d.files[s]);
      }
    }
  }

  lemma SettledConsistent(u: Setup, d: Disk, e: Disk, cand: PreviewRoute)
    requires Consistent(u, d) && e.files == d.files && e.attached.Keys == d.attached.Keys + {cand.containerId}
    requires Backed(u, e) && Aliased(e) && Held(e, cand)
    requires Faithful(u.codec) && u.codec.valid(cand) && Sendable(cand.checkPath) && Ascii(cand.publishedAt)
    requires cand.slot in u.slots && cand.hostname == u.slots[cand.slot].hostname && cand.repository == u.slots[cand.slot].repository
    requires cand.jobId in u.repositories && cand.repository in u.repositories[cand.jobId]
    ensures Consistent(u, Settled(u, e, Previous(u, d, cand.slot), cand))
  {
    var previous, text := Previous(u, d, cand.slot), u.codec.render(cand);
    var w := Write(e, cand.slot, Some(text));
    WrittenGood(u, e, cand);
    SettledInStep(u, d, e, cand);
    WriteBacked(u, e, cand.slot, Some(text));
    WriteOwners(u, e, cand.slot, Some(text));
    WriteAliased(e, cand.slot, Some(text));
    if previous.Some? && previous.value.containerId != cand.containerId && !Named(u, w, previous.value.containerId) {
      DetachKeeps(u, w, previous.value.containerId);
    }
  }

  lemma LinkedConsistent(u: Setup, d: Disk, slot: Text, container: Text, env: Env)
    requires Backed(u, d) && Aliased(d) && Reliable(u, env) && |container| >= 12
    ensures var (trace, link) := ConnectCandidate(d, slot, container, env);
            var e := Final(d, trace);
            && e.files == d.files && e.attached.Keys == d.attached.Keys + {container} && Backed(u, e) && Aliased(e)
            && (link.Some? ==> link.value.alias in e.attached[container])
  {
    ConnectBacked(u, d, slot, container, env);
    LinkedAliased(u, d, slot, container, env);
  }

  lemma LinkedAliased(u: Setup, d: Disk, slot: Text, container: Text, env: Env)
    requires Aliased(d) && Reliable(u, env) && |container| >= 12
    ensures var e := Final(d, ConnectCandidate(d, slot, container, env).0);
            e.attached.Keys == d.attached.Keys + {container} && Aliased(e)
  {
    ConnectNow(u, d, slot, container, env);
    AttachAliased(d, slot, container, env.extra);
  }

  lemma CandidateConsistent(u: Setup, d: Disk, e: Disk, call: Call, alias: Text, env: Env)
    requires GoodSetup(u) && Consistent(u, d) && Admissible(u, d, call, env) && Ascii(env.now) && Sendable(call.checkPath)
    requires e.files == d.files && e.attached.Keys == d.attached.Keys + {env.container.value}
    requires Backed(u, e) && Aliased(e) && alias in e.attached[env.container.value]
    ensures var cand := Candidate(u, call, env.container.value, alias, env);
            u.codec.valid(cand) ==> Consistent(u, Settled(u, e, Previous(u, d, call.slot), cand))
  {
    var cand := Candidate(u, call, env.container.value, alias, env);
    if u.codec.valid(cand) {
      SettledConsistent(u, d, e, cand);
    }
  }

  lemma PublishConsistent(u: Setup, d: Disk, call: Call, env: Env)
    requires GoodSetup(u) && Consistent(u, d) && Reliable(u, env) && !Strands(u, d, call, env)
    ensures Consistent(u, Final(d, PublishEffect(u, d, call, env).trace))
  {
    if Admissible(u, d, call, env) {
      PublishOutcome(u, d, call, env);
      LinkedConsistent(u, d, call.slot, env.container.value, env);
      var (trace, link) := ConnectCandidate(d, call.slot, env.container.value, env);
      if link.Some? && Sendable(call.checkPath) {
        CandidateConsistent(u, d, Final(d, trace), call, link.value.alias, env);
      }
    }
  }

  lemma UnpublishConsistent(u: Setup, d: Disk, job: Text, slot: Text, env: Env)
    requires GoodSetup(u) && Consistent(u, d) && Reliable(u, env)
    ensures Consistent(u, Final(d, UnpublishEffect(u, d, job, slot, env).trace))
  {
    UnpublishRestores(u, d, job, slot, env);
    if Owned(u, d, job, slot) {
      var gone, container := Write(d, slot, None), u.codec.parse(d.files[slot]).value.containerId;
      RemovedInStep(u, d, slot);
      GoneReady(u, d, slot);
      WriteBacked(u, d, slot, None);
      WriteOwners(u, d, slot, None);
      WriteAliased(d, slot, None);
      if !Named(u, gone, container) {
        DetachKeeps(u, gone, container);
      }
    }
  }

  // ---------------------------------------------------------------- every run

  /** One call in a reliable environment; a publish does not attach a container under a long slot
      or for a refused path. */
  ghost predicate Completed(u: Setup, d: Disk, a: Action, e: Disk) {
    && Reliable(u, a.env) && e == Final(d, EffectOf(u, d, a).trace)
    && (a.Publishing? ==> !Strands(u, d, a.call, a.env))
  }

  /** The condition is exact: from a consistent state, a reliable publish keeps routes and attachments
      in step if and only if it does not strand. */
  lemma LeaksExactly(u: Setup, d: Disk, call: Call, env: Env)
    requires GoodSetup(u) && Consistent(u, d) && Reliable(u, env)
    ensures InStep(u, Final(d, PublishEffect(u, d, call, env).trace)) <==> !Strands(u, d, call, env)
  {
    if Strands(u, d, call, env) {
      StrandedAttachment(u, d, call, env);
    } else {
      PublishConsistent(u, d, call, env);
    }
  }

  /** For example the check path `/a b`, or one with a control character in the middle: its validation
      asks `urlsplit` only, yet publishing a new container with it leaks the attachment, whatever the
      environment answers. */
  lemma SpacedPathLeaks(u: Setup, d: Disk, call: Call, env: Env, c: Code)
    requires (c <= 32 || c == 127) && c != 10 && c != 13
    requires GoodSetup(u) && Consistent(u, d) && Reliable(u, env) && call.checkPath == [SLASH, 97, c, 98]
    ensures CheckPath(call.checkPath, u.lib) <==> u.lib.plainPath(call.checkPath)
    ensures Admissible(u, d, call, env) && env.container.value !in d.attached ==>
              !InStep(u, Final(d, PublishEffect(u, d, call, env).trace))
  {
    assert call.checkPath[2] in call.checkPath;
    LeaksExactly(u, d, call, env);
  }

  ghost predicate Reached(u: Setup, d: Disk) {
    Runs.Arises((x: Disk) => x == EMPTY, (x: Disk, a: Action, y: Disk) => Completed(u, x, a, y), d)
  }

  lemma CompletedConsistent(u: Setup, d: Disk, a: Action, e: Disk)
    requires GoodSetup(u) && Consistent(u, d) && Completed(u, d, a, e)
    ensures Consistent(u, e)
  {
    match a
    case Publishing(call, env) =>
      if Admissible(u, d, call, env) {
        PublishConsistent(u, d, call, env);
      }
    case Unpublishing(job, slot, env) =>
      UnpublishConsistent(u, d, job, slot, env);
  }

  lemma ReachedConsistent(u: Setup, d: Disk)
    requires GoodSetup(u) && Reached(u, d)
    ensures Consistent(u, d)
  {
    forall x, a, y | Completed(u, x, a, y) && Consistent(u, x)
      ensures Consistent(u, y)
    {
      CompletedConsistent(u, x, a, y);
    }
    Runs.ArisesInvariant((x: Disk) => x == EMPTY, (x: Disk, a: Action, y: Disk) => Completed(u, x, a, y),
                         (x: Disk) => Consistent(u, x), d);
  }

  /** The hypotheses on the setup hold of the actual route format and a validated slot configuration. */
  lemma ActualSetup(u: Setup)
    requires u.codec == RouteCodec(u.lib) && Configuration(u.slots)
    requires forall s :: s in u.slots ==> Identifier(s) && Hostname(u.slots[s].hostname) && Identifier(u.slots[s].repository)
    ensures GoodSetup(u)
  {
    RouteCodecFaithful(u.lib);
  }

  /** Nothing leaks: in every run the attached containers are exactly those named by some active
      route, each under the alias in that route. */
  lemma NothingLeaks(u: Setup, d: Disk)
    requires GoodSetup(u) && Reached(u, d)
    ensures InStep(u, d) && Backed(u, d)
  {
    ReachedConsistent(u, d);
  }

  // ---------------------------------------------------------------- runs of acceptable calls

  /** One call in a reliable environment, whose check path `http.client` accepts. */
  ghost predicate Asked(u: Setup, d: Disk, a: Action, e: Disk) {
    && Reliable(u, a.env) && e == Final(d, EffectOf(u, d, a).trace)
    && (a.Publishing? ==> !Refused(a.call.checkPath))
  }

  ghost predicate Asking(u: Setup, d: Disk) {
    Runs.Arises((x: Disk) => x == EMPTY, (x: Disk, a: Action, y: Disk) => Asked(u, x, a, y), d)
  }

  /** Some such call can be made for the slot on an empty registry. */
  ghost predicate Servable(u: Setup, slot: Text) {
    exists call, env :: Serves(u, slot, call, env)
  }

  ghost predicate Serves(u: Setup, slot: Text, call: Call, env: Env) {
    call.slot == slot && Reliable(u, env) && Admissible(u, EMPTY, call, env) && !Refused(call.checkPath)
  }

  ghost predicate ServableAreShort(u: Setup) {
    forall s :: s in u.slots && Servable(u, s) ==> |s| <= SLOT_LIMIT
  }

  /** In no run of such calls a container stays attached that no route names. */
  ghost predicate NeverLeaks(u: Setup) {
    forall d :: Asking(u, d) ==> InStep(u, d)
  }

  lemma AskedCompletes(u: Setup, d: Disk, a: Action, e: Disk)
    requires ServableAreShort(u) && Asked(u, d, a, e)
    ensures Completed(u, d, a, e)
  {
    if a.Publishing? && Admissible(u, d, a.call, a.env) {
      assert Serves(u, a.call.slot, a.call, a.env);
    }
  }

  lemma AskingConsistent(u: Setup, d: Disk)
    requires GoodSetup(u) && ServableAreShort(u) && Asking(u, d)
    ensures Consistent(u, d)
  {
    forall x, a, y | Asked(u, x, a, y) && Consistent(u, x)
      ensures Consistent(u, y)
    {
      AskedCompletes(u, x, a, y);
      CompletedConsistent(u, x, a, y);
    }
    Runs.ArisesInvariant((x: Disk) => x == EMPTY, (x: Disk, a: Action, y: Disk) => Asked(u, x, a, y),
                         (x: Disk) => Consistent(u, x), d);
  }

  /** The first publish for a long slot already leaks. */
  lemma LongSlotLeaks(u: Setup, slot: Text, call: Call, env: Env)
    requires GoodSetup(u) && Serves(u, slot, call, env) && |slot| > SLOT_LIMIT
    ensures exists d :: Asking(u, d) && !InStep(u, d)
  {
    var start, next := (x: Disk) => x == EMPTY, (x: Disk, a: Action, y: Disk) => Asked(u, x, a, y);
    var e := Final(EMPTY, PublishEffect(u, EMPTY, call, env).trace);
    assert Runs.After(start, next, EMPTY, 0);
    assert Asked(u, EMPTY, Publishing(call, env), e);
    Runs.ArisesNext(start, next, EMPTY, Publishing(call, env), e);
    LeaksExactly(u, EMPTY, call, env);
  }

  /** The configuration decides: no run of calls with acceptable check paths leaks, whatever else they
      ask for, if and only if every slot that can be served has at most 42 characters. */
  lemma ShortSlotsNeverLeak(u: Setup)
    requires GoodSetup(u)
    ensures NeverLeaks(u) <==> forall s :: s in u.slots && Servable(u, s) ==> |s| <= SLOT_LIMIT
    ensures (forall s :: s in u.slots ==> |s| <= SLOT_LIMIT) ==> NeverLeaks(u)
  {
    if ServableAreShort(u) {
      forall d | Asking(u, d)
        ensures InStep(u, d)
      {
        AskingConsistent(u, d);
      }
    } else {
      var s :| s in u.slots && Servable(u, s) && |s| > SLOT_LIMIT;
      var call, env :| Serves(u, s, call, env);
      LongSlotLeaks(u, s, call, env);
    }
  }

  // ---------------------------------------------------------------- owners and aliases

  /** No two active routes share a hostname, and each serves the configured hostname and repository of
      its slot, which its job reserved. */
  lemma RoutesAreOwned(u: Setup, d: Disk, s: Text, t: Text)
    requires GoodSetup(u) && Reached(u, d) && s in d.files && t in d.files
    ensures var a, b := u.codec.parse(d.files[s]), u.codec.parse(d.files[t]);
            && a.Some? && b.Some? && (a.value.hostname == b.value.hostname ==> s == t)
            && a.value.slot == s && s in u.slots && a.value.hostname == u.slots[s].hostname
            && a.value.repository == u.slots[s].repository && a.value.jobId in u.repositories && a.value.repository in u.repositories[a.value.jobId]
  {
    ReachedConsistent(u, d);
    assert GoodFile(u, s, d.files[s]) && GoodFile(u, t, d.files[t]) && Reserved(u, d.files[s]);
  }

  /** `preview-{slot}-{prefix}` determines the slot and the prefix. */
  lemma AliasInjective(s: Text, c: Text, t: Text, e: Text)
    requires |c| >= 12 && |e| >= 12
    ensures AliasFor(s, c) == AliasFor(t, e) <==> s == t && c[..12] == e[..12]
  {
    var a, b := AliasFor(s, c), AliasFor(t, e);
    if a == b {
      assert |s| == |t|;
      assert a[8..8 + |s|] == s && b[8..8 + |t|] == t;
      assert a[|a| - 12..] == c[..12] && b[|b| - 12..] == e[..12];
    }
  }

  /** Attached containers whose identifiers differ in their first twelve characters share no
      preview alias. */
  lemma AliasesUnique(u: Setup, d: Disk, c: Text, e: Text, alias: Text)
    requires GoodSetup(u) && Reached(u, d)
    requires c in d.attached && e in d.attached && alias in d.attached[c] && alias in d.attached[e] && IsPreview(alias)
    ensures |c| >= 12 && |e| >= 12 && c[..12] == e[..12]
  {
    ReachedConsistent(u, d);
    assert MadeUp(c, alias) && MadeUp(e, alias);
    var s: Text :| alias == AliasFor(s, c);
    var t: Text :| alias == AliasFor(t, e);
    AliasInjective(s, c, t, e);
  }
}
