/** What the preview registry keeps: at every single change, after a failed call, and over whole runs. */
module Handoff {
  import opened Collections
  import opened Json
  import opened Route
  import opened Registry
  import Runs

  /** The route format reads back what it prints, and accepts nothing else. */
  ghost predicate Faithful(codec: Codec) {
    && (forall t :: codec.parse(t).Some? ==> codec.valid(codec.parse(t).value) && t == codec.render(codec.parse(t).value))
    && (forall r :: codec.valid(r) && Ascii(r.checkPath) && Ascii(r.publishedAt) ==> codec.parse(codec.render(r)) == Some(r))
  }

  function RouteCodec(lib: Library): Codec {
    Codec(t => Parse(t, lib), r => Render(r), r => Valid(r, lib))
  }

  lemma AsciiJoined(t: Text)
    requires Ascii(t)
    ensures !SplitPair(t)
  {
    assert forall i :: 0 <= i < |t| ==> t[i] in t;
  }

  /** The actual route files are such a format. */
  lemma RouteCodecFaithful(lib: Library)
    ensures Faithful(RouteCodec(lib))
  {
    var codec := RouteCodec(lib);
    forall t | codec.parse(t).Some?
      ensures codec.valid(codec.parse(t).value) && t == codec.render(codec.parse(t).value)
    {
      AcceptedTexts(t, codec.parse(t).value, lib);
    }
    forall r | codec.valid(r) && Ascii(r.checkPath) && Ascii(r.publishedAt)
      ensures codec.parse(codec.render(r)) == Some(r)
    {
      AsciiJoined(r.checkPath);
      AsciiJoined(r.publishedAt);
      RoundTrip(r, lib);
    }
  }

  // ---------------------------------------------------------------- routes are backed at every change

  predicate Held(d: Disk, r: PreviewRoute) {
    r.containerId in d.attached && r.networkAlias in d.attached[r.containerId]
  }

  /** The text is no route, or the container it names is attached under the alias it names. */
  predicate Supported(u: Setup, d: Disk, text: Text) {
    u.codec.parse(text).Some? ==> Held(d, u.codec.parse(text).value)
  }

  /** Every route on disk names a container that is attached under the alias in that route. */
  ghost predicate Backed(u: Setup, d: Disk) {
    forall s :: s in d.files ==> Supported(u, d, d.files[s])
  }

  ghost predicate AllBacked(u: Setup, trace: seq<Disk>) {
    forall i :: 0 <= i < |trace| ==> Backed(u, trace[i])
  }

  /** A container that is not attached is named by no route on disk. */
  lemma CandidateUnreferenced(u: Setup, d: Disk, container: Text)
    requires Backed(u, d) && container !in d.attached
    ensures !Named(u, d, container)
  {
    forall s | s in d.files && u.codec.parse(d.files[s]).Some?
      ensures u.codec.parse(d.files[s]).value.containerId != container
    {
      assert Supported(u, d, d.files[s]);
    }
  }

  lemma AttachBacked(u: Setup, d: Disk, container: Text, aliases: seq<Text>)
    requires Backed(u, d) && container !in d.attached
    ensures Backed(u, Attach(d, container, aliases))
  {
    forall s | s in d.files
      ensures Supported(u, Attach(d, container, aliases), d.files[s])
    {
      assert Supported(u, d, d.files[s]);
    }
  }

  lemma WriteBacked(u: Setup, d: Disk, slot: Text, content: Option<Text>)
    requires Backed(u, d) && (content.Some? ==> Supported(u, d, content.value))
    ensures Backed(u, Write(d, slot, content))
  {
    var e := Write(d, slot, content);
    forall s | s in e.files
      ensures Supported(u, e, e.files[s])
    {
      if s != slot {
        assert Supported(u, d, d.files[s]);
      }
    }
  }

  lemma DetachBacked(u: Setup, d: Disk, container: Text)
    requires Backed(u, d) && !Named(u, d, container)
    ensures Backed(u, Detach(d, container))
  {
    var e := Detach(d, container);
    forall s | s in d.files
      ensures Supported(u, e, d.files[s])
    {
      assert Supported(u, d, d.files[s]);
    }
  }

  lemma DisconnectBacked(u: Setup, d: Disk, container: Text, env: Env)
    requires Backed(u, d)
    ensures AllBacked(u, DisconnectEffect(u, d, container, env).0)
  {
    if !Named(u, d, container) {
      DetachBacked(u, d, container);
    }
  }

  lemma RollbackBacked(u: Setup, d: Disk, bytes: Option<Text>, previous: Option<PreviewRoute>, cand: PreviewRoute, now: bool, env: Env)
    requires Backed(u, d) && (bytes.Some? ==> Supported(u, d, bytes.value))
    ensures AllBacked(u, Rollback(u, d, bytes, previous, cand, now, env).trace)
  {
    WriteBacked(u, d, cand.slot, bytes);
    DisconnectBacked(u, Write(d, cand.slot, bytes), cand.containerId, env);
  }

  lemma ExchangeBacked(u: Setup, d: Disk, bytes: Option<Text>, previous: Option<PreviewRoute>, cand: PreviewRoute, now: bool, env: Env)
    requires Faithful(u.codec) && u.codec.valid(cand) && Ascii(cand.publishedAt)
    requires Backed(u, d) && Held(d, cand) && (bytes.Some? ==> Supported(u, d, bytes.value))
    ensures AllBacked(u, Exchange(u, d, bytes, previous, cand, now, env).trace)
  {
    RollbackBacked(u, d, bytes, previous, cand, now, env);
    if Ask(cand, env.direct).Status? {
      var text := u.codec.render(cand);
      assert u.codec.parse(text) == Some(cand);
      WriteBacked(u, d, cand.slot, Some(text));
      VerifyBacked(u, Write(d, cand.slot, Some(text)), bytes, previous, cand, now, env);
    }
  }

  lemma VerifyBacked(u: Setup, d: Disk, bytes: Option<Text>, previous: Option<PreviewRoute>, cand: PreviewRoute, now: bool, env: Env)
    requires Backed(u, d) && (bytes.Some? ==> Supported(u, d, bytes.value))
    ensures AllBacked(u, Verify(u, d, bytes, previous, cand, now, env).trace)
  {
    RollbackBacked(u, d, bytes, previous, cand, now, env);
    if previous.Some? {
      DisconnectBacked(u, d, previous.value.containerId, env);
    }
  }

  /** The candidate of a publish call, if it gets as far as building one. */
  function Proposed(u: Setup, d: Disk, call: Call, env: Env): Option<PreviewRoute> {
    if !Admissible(u, d, call, env) then None
    else
      var (_, link) := ConnectCandidate(d, call.slot, env.container.value, env);
      if link.None? then None else Some(Candidate(u, call, env.container.value, link.value.alias, env))
  }

  lemma ConnectBacked(u: Setup, d: Disk, slot: Text, container: Text, env: Env)
    requires Backed(u, d) && |container| >= 12
    ensures var (trace, link) := ConnectCandidate(d, slot, container, env);
            && AllBacked(u, trace) && Backed(u, Final(d, trace)) && Final(d, trace).files == d.files
            && (link.Some? ==> container in Final(d, trace).attached && link.value.alias in Final(d, trace).attached[container])
            && (forall c :: c in d.attached ==> c in Final(d, trace).attached && Final(d, trace).attached[c] == d.attached[c])
            && (forall i :: 0 <= i < |trace| ==> trace[i].files == d.files)
  {
    if container in d.attached {
      LeastPreviewIsLeast(d.attached[container]);
    } else {
      AttachBacked(u, d, container, [AliasFor(slot, container)] + env.extra);
    }
  }

  /** Abort safety of `publish`: whatever Docker and HTTP answer, and wherever it stops, every
      route on disk is backed. */
  lemma PublishBacked(u: Setup, d: Disk, call: Call, env: Env)
    requires Faithful(u.codec) && Backed(u, d) && Ascii(env.now)
    ensures AllBacked(u, PublishEffect(u, d, call, env).trace)
  {
    if Admissible(u, d, call, env) {
      var container := env.container.value;
      ConnectBacked(u, d, call.slot, container, env);
      var (trace, link) := ConnectCandidate(d, call.slot, container, env);
      if link.Some? {
        var e := Final(d, trace);
        var cand := Candidate(u, call, container, link.value.alias, env);
        if u.codec.valid(cand) {
          ExchangeBacked(u, e, Content(e, call.slot), Previous(u, e, call.slot), cand, link.value.now, env);
        }
      }
    }
  }

  /** Abort safety of `unpublish`. */
  lemma UnpublishBacked(u: Setup, d: Disk, job: Text, slot: Text, env: Env)
    requires Faithful(u.codec) && Backed(u, d)
    ensures AllBacked(u, UnpublishEffect(u, d, job, slot, env).trace)
  {
    if Owned(u, d, job, slot) {
      var gone := Write(d, slot, None);
      var route := u.codec.parse(d.files[slot]).value;
      WriteBacked(u, d, slot, None);
      assert Supported(u, d, d.files[slot]);
      assert u.codec.render(route) == d.files[slot];
      WriteBacked(u, gone, slot, Some(d.files[slot]));
      DisconnectBacked(u, gone, route.containerId, env);
    }
  }

  // ---------------------------------------------------------------- slot files are whole at every change

  /** Only the file of `slot` differs between the two states, and it has one of the two contents. */
  ghost predicate Whole(d: Disk, e: Disk, slot: Text, other: Option<Text>) {
    && (forall s :: s != slot ==> Content(e, s) == Content(d, s))
    && (Content(e, slot) == Content(d, slot) || Content(e, slot) == other)
  }

  ghost predicate AllWhole(d: Disk, trace: seq<Disk>, slot: Text, other: Option<Text>) {
    forall i :: 0 <= i < |trace| ==> Whole(d, trace[i], slot, other)
  }

  lemma DisconnectWhole(u: Setup, d: Disk, e: Disk, slot: Text, other: Option<Text>, container: Text, env: Env)
    requires Whole(d, e, slot, other)
    ensures AllWhole(d, DisconnectEffect(u, e, container, env).0, slot, other)
  {
  }

  lemma RollbackWhole(u: Setup, d: Disk, e: Disk, other: Option<Text>, previous: Option<PreviewRoute>, cand: PreviewRoute,
                      now: bool, env: Env)
    requires Whole(d, e, cand.slot, other)
    ensures AllWhole(d, Rollback(u, e, Content(d, cand.slot), previous, cand, now, env).trace, cand.slot, other)
  {
    var back := Write(e, cand.slot, Content(d, cand.slot));
    assert Whole(d, back, cand.slot, other);
    DisconnectWhole(u, d, back, cand.slot, other, cand.containerId, env);
  }

  lemma ExchangeWhole(u: Setup, d: Disk, previous: Option<PreviewRoute>, cand: PreviewRoute, now: bool, env: Env)
    ensures AllWhole(d, Exchange(u, d, Content(d, cand.slot), previous, cand, now, env).trace,
                     cand.slot, Some(u.codec.render(cand)))
  {
    var other := Some(u.codec.render(cand));
    var written := Write(d, cand.slot, other);
    assert Whole(d, written, cand.slot, other);
    RollbackWhole(u, d, d, other, previous, cand, now, env);
    RollbackWhole(u, d, written, other, previous, cand, now, env);
    if previous.Some? {
      DisconnectWhole(u, d, written, cand.slot, other, previous.value.containerId, env);
    }
  }

  /** During `publish` the slot's file is the old one or the candidate's, and no other file changes. */
  lemma PublishWhole(u: Setup, d: Disk, call: Call, env: Env)
    ensures var trace := PublishEffect(u, d, call, env).trace;
            match Proposed(u, d, call, env)
            case Some(cand) => cand.slot == call.slot && AllWhole(d, trace, call.slot, Some(u.codec.render(cand)))
            case None => AllWhole(d, trace, call.slot, Content(d, call.slot))
  {
    if Admissible(u, d, call, env) {
      var (trace, link) := ConnectCandidate(d, call.slot, env.container.value, env);
      if link.Some? {
        var e := Final(d, trace);
        assert e.files == d.files;
        ExchangeWhole(u, e, Previous(u, e, call.slot), Candidate(u, call, env.container.value, link.value.alias, env), link.value.now, env);
      }
    }
  }

  /** During `unpublish` the slot's file is the old one or absent: rendering the route again
      reproduces the removed text. */
  lemma UnpublishWhole(u: Setup, d: Disk, job: Text, slot: Text, env: Env)
    requires Faithful(u.codec)
    ensures AllWhole(d, UnpublishEffect(u, d, job, slot, env).trace, slot, None)
  {
    if Owned(u, d, job, slot) {
      var gone := Write(d, slot, None);
      assert Whole(d, gone, slot, None);
      DisconnectWhole(u, d, gone, slot, None, u.codec.parse(d.files[slot]).value.containerId, env);
    }
  }

  // ---------------------------------------------------------------- any number of interrupted calls

  datatype Action = Publishing(call: Call, env: Env) | Unpublishing(job: Text, slot: Text, env: Env)

  ghost function EffectOf(u: Setup, d: Disk, a: Action): Effect {
    match a
    case Publishing(call, env) => PublishEffect(u, d, call, env)
    case Unpublishing(job, slot, env) => UnpublishEffect(u, d, job, slot, env)
  }

  /** The call runs to its end or is cut short after any of its changes. */
  ghost predicate Interrupted(u: Setup, d: Disk, a: Action, e: Disk) {
    Ascii(a.env.now) && (e == d || e in EffectOf(u, d, a).trace)
  }

  lemma InterruptedBacked(u: Setup, d: Disk, a: Action, e: Disk)
    requires Faithful(u.codec) && Backed(u, d) && Interrupted(u, d, a, e)
    ensures Backed(u, e)
  {
    match a
    case Publishing(call, env) => PublishBacked(u, d, call, env);
    case Unpublishing(job, slot, env) => UnpublishBacked(u, d, job, slot, env);
  }

  /** Over any run of calls, each cut short anywhere, every route on disk stays backed. */
  lemma AbortSafety(u: Setup, start: Disk, d: Disk)
    requires Faithful(u.codec) && Backed(u, start)
    requires Runs.Arises((x: Disk) => x == start, (x: Disk, a: Action, y: Disk) => Interrupted(u, x, a, y), d)
    ensures Backed(u, d)
  {
    forall x, a, y | Interrupted(u, x, a, y) && Backed(u, x)
      ensures Backed(u, y)
    {
      InterruptedBacked(u, x, a, y);
    }
    Runs.ArisesInvariant((x: Disk) => x == start, (x: Disk, a: Action, y: Disk) => Interrupted(u, x, a, y),
                         (x: Disk) => Backed(u, x), d);
  }
}
