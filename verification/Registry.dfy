/** The preview registry: route files and edge-network attachments, changed together by
    `publish` and `unpublish` under arbitrary Docker and HTTP results. */
module Registry {
  import opened Collections
  import opened Json
  import opened Order
  import opened Route

  // ---------------------------------------------------------------- state and environment

  /** The route file of every slot that has one, and the network aliases of every attached container. */
  datatype Disk = Disk(files: map<Text, Text>, attached: map<Text, seq<Text>>)

  const EMPTY := Disk(map[], map[])

  /** The route format, as the registry uses it. */
  datatype Codec = Codec(parse: Text -> Option<PreviewRoute>, render: PreviewRoute -> Text, valid: PreviewRoute -> bool)

  /** What stays fixed: the slot configuration, the repositories each job reserved, the route format. */
  datatype Setup = Setup(slots: map<Text, PreviewSlot>, repositories: map<Text, set<Text>>, codec: Codec, lib: Library)

  /** One HTTP attempt: a status, an `OSError`, a `ValueError`, or any other exception. */
  datatype Reply = Status(code: int) | Down | Invalid | Escaped

  /** What the outside world answers during one call. */
  datatype Env = Env(
    projects: set<Text>, container: Option<Text>, now: Text,
    connects: bool, addressed: bool, extra: seq<Text>, disconnects: bool,
    direct: Reply, gateway: nat -> Reply, watched: nat -> Reply)

  datatype Call = Call(job: Text, slot: Text, project: Text, service: Text, port: nat, checkPath: Text)

  datatype Fault = BadRequest | NotConnected | BadRoute | CheckFailed | Broken

  /** The states a call passes through, one per change, and how it ends. */
  datatype Effect = Effect(trace: seq<Disk>, result: Result<PreviewRoute, Fault>)

  function Final(d: Disk, trace: seq<Disk>): Disk {
    if trace == [] then d else trace[|trace| - 1]
  }

  lemma FinalThen(d: Disk, before: seq<Disk>, first: seq<Disk>, more: seq<Disk>)
    ensures Final(d, first + more) == Final(Final(d, first), more)
    ensures (before + first) + more == before + (first + more)
  {
  }

  // ---------------------------------------------------------------- single changes

  function Write(d: Disk, slot: Text, content: Option<Text>): Disk {
    match content
    case Some(text) => d.(files := d.files[slot := text])
    case None => d.(files := d.files - {slot})
  }

  function Attach(d: Disk, container: Text, aliases: seq<Text>): Disk {
    d.(attached := d.attached[container := aliases])
  }

  function Detach(d: Disk, container: Text): Disk {
    d.(attached := d.attached - {container})
  }

  function Content(d: Disk, slot: Text): Option<Text> {
    if slot in d.files then Some(d.files[slot]) else None
  }

  // ---------------------------------------------------------------- HTTP checks

  predicate Successful(code: int) {
    200 <= code <= 399
  }

  /** `http.client` refuses a path with a space or a control character by an exception that is
      neither an `OSError` nor a `ValueError`. */
  predicate Refused(path: Text) {
    exists c :: c in path && (c <= 0x20 || c == 0x7f)
  }

  /** A path that fits into a request line. */
  predicate Sendable(path: Text) {
    forall c :: c in path ==> 0x21 <= c <= 0x7e
  }

  /** One request: refused paths raise before anything is sent, other paths outside ASCII cannot be
      encoded, which is a `ValueError`, and only then the environment answers. */
  function Ask(route: PreviewRoute, reply: Reply): Reply {
    if Refused(route.checkPath) then Escaped
    else if !Sendable(route.checkPath) then Invalid
    else reply
  }

  const ATTEMPTS := 20

  datatype Answer = Answer(code: int) | Raised(reply: Reply)

  predicate Decisive(code: int) {
    Successful(code) || code >= 500
  }

  /** `_gateway_status` from one attempt on. */
  function GatewayFrom(route: PreviewRoute, replies: nat -> Reply, attempt: nat, last: int): Answer
    decreases ATTEMPTS - attempt
  {
    if attempt >= ATTEMPTS then Answer(last)
    else match Ask(route, replies(attempt))
      case Status(code) => if Decisive(code) then Answer(code) else GatewayFrom(route, replies, attempt + 1, code)
      case Down => GatewayFrom(route, replies, attempt + 1, last)
      case other => Raised(other)
  }

  /** `_wait_for_status` from one attempt on. */
  function WaitFrom(route: PreviewRoute, replies: nat -> Reply, expected: int -> bool, attempt: nat, last: int): Answer
    decreases ATTEMPTS - attempt
  {
    if attempt >= ATTEMPTS then Answer(last)
    else match Ask(route, replies(attempt))
      case Status(code) => if expected(code) then Answer(code) else WaitFrom(route, replies, expected, attempt + 1, code)
      case Down => WaitFrom(route, replies, expected, attempt + 1, last)
      case other => Raised(other)
  }

  predicate Accepts(a: Answer, expected: int -> bool) {
    a.Answer? && expected(a.code)
  }

  /** Attempt `k` brings a status that `good` accepts, and nothing from attempt `first` on has
      raised or brought a status that `stop` accepts before it. */
  ghost predicate ComesAt(route: PreviewRoute, replies: nat -> Reply, good: int -> bool, stop: int -> bool, first: nat, k: nat) {
    && first <= k < ATTEMPTS && Ask(route, replies(k)).Status? && good(Ask(route, replies(k)).code)
    && forall j: nat :: first <= j < k ==> Passed(Ask(route, replies(j)), stop)
  }

  predicate Passed(r: Reply, stop: int -> bool) {
    r.Down? || (r.Status? && !stop(r.code))
  }

  lemma ComesLater(route: PreviewRoute, replies: nat -> Reply, good: int -> bool, stop: int -> bool, first: nat, k: nat)
    requires first < k
    ensures ComesAt(route, replies, good, stop, first, k) <==>
            Passed(Ask(route, replies(first)), stop) && ComesAt(route, replies, good, stop, first + 1, k)
  {
  }

  predicate ServerError(code: int) {
    code >= 500
  }

  predicate Nothing(code: int) {
    false
  }

  ghost predicate Comes(route: PreviewRoute, replies: nat -> Reply, good: int -> bool, stop: int -> bool, first: nat) {
    exists k: nat :: ComesAt(route, replies, good, stop, first, k)
  }

  lemma ComesStep(route: PreviewRoute, replies: nat -> Reply, good: int -> bool, stop: int -> bool, first: nat)
    requires first < ATTEMPTS
    ensures Comes(route, replies, good, stop, first) <==>
            || (Ask(route, replies(first)).Status? && good(Ask(route, replies(first)).code))
            || (Passed(Ask(route, replies(first)), stop) && Comes(route, replies, good, stop, first + 1))
  {
    var r := Ask(route, replies(first));
    if r.Status? && good(r.code) {
      assert ComesAt(route, replies, good, stop, first, first);
    }
    forall k: nat | ComesAt(route, replies, good, stop, first, k) && k != first
      ensures Passed(r, stop) && Comes(route, replies, good, stop, first + 1)
    {
      ComesLater(route, replies, good, stop, first, k);
    }
    if Passed(r, stop) && Comes(route, replies, good, stop, first + 1) {
      var k: nat :| ComesAt(route, replies, good, stop, first + 1, k);
      ComesLater(route, replies, good, stop, first, k);
    }
  }

  /** The gateway check passes exactly when a status from 200 to 399 arrives within the attempts,
      with nothing before it but connection failures and statuses below 500. */
  lemma {:induction false} GatewayVerdict(route: PreviewRoute, replies: nat -> Reply, attempt: nat, last: int)
    requires attempt <= ATTEMPTS && !Successful(last)
    ensures Accepts(GatewayFrom(route, replies, attempt, last), Successful) <==>
            Comes(route, replies, Successful, ServerError, attempt)
    decreases ATTEMPTS - attempt
  {
    if attempt < ATTEMPTS {
      ComesStep(route, replies, Successful, ServerError, attempt);
      var r := Ask(route, replies(attempt));
      if r.Down? || (r.Status? && !Decisive(r.code)) {
        GatewayVerdict(route, replies, attempt + 1, if r.Status? then r.code else last);
      }
    }
  }

  /** Waiting succeeds exactly when an expected status arrives within the attempts, before any
      exception other than a connection failure. */
  lemma {:induction false} WaitVerdict(route: PreviewRoute, replies: nat -> Reply, expected: int -> bool, attempt: nat, last: int)
    requires attempt <= ATTEMPTS && !expected(last)
    ensures Accepts(WaitFrom(route, replies, expected, attempt, last), expected) <==>
            Comes(route, replies, expected, Nothing, attempt)
    decreases ATTEMPTS - attempt
  {
    if attempt < ATTEMPTS {
      ComesStep(route, replies, expected, Nothing, attempt);
      var r := Ask(route, replies(attempt));
      if r.Down? || (r.Status? && !expected(r.code)) {
        WaitVerdict(route, replies, expected, attempt + 1, if r.Status? then r.code else last);
      }
    }
  }

  // ---------------------------------------------------------------- attaching a candidate

  function PreviewMark(): Text {
    Lit("preview-")
  }

  function AliasFor(slot: Text, container: Text): Text
    requires |container| >= 12
  {
    PreviewMark() + slot + [HYPHEN] + container[..12]
  }

  predicate IsPreview(alias: Text) {
    PreviewMark() <= alias
  }

  /** The first of the sorted preview aliases. */
  function LeastPreview(aliases: seq<Text>): Option<Text> {
    if aliases == [] then None
    else
      var rest := LeastPreview(aliases[1..]);
      if !IsPreview(aliases[0]) then rest
      else if rest.Some? && Before(rest.value, aliases[0]) then rest
      else Some(aliases[0])
  }

  /** The reused alias is the least preview alias the container has. */
  lemma {:induction false} LeastPreviewIsLeast(aliases: seq<Text>)
    ensures LeastPreview(aliases).None? <==> forall a :: a in aliases ==> !IsPreview(a)
    ensures var r := LeastPreview(aliases);
            r.Some? ==> r.value in aliases && IsPreview(r.value) && forall a :: a in aliases && IsPreview(a) ==> !Before(a, r.value)
  {
    if aliases != [] {
      var r, rest := LeastPreview(aliases), LeastPreview(aliases[1..]);
      LeastPreviewIsLeast(aliases[1..]);
      PrecedesIsTotal(CodeRank, aliases[0], aliases[0]);
      forall a | a in aliases && IsPreview(a)
        ensures r.Some? && !Before(a, r.value)
      {
        if a != aliases[0] {
          assert a in aliases[1..];
          if r != rest && Before(a, r.value) {
            PrecedesIsTotal(CodeRank, rest.value, aliases[0]);
            if Before(aliases[0], rest.value) {
              PrecedesIsTransitive(CodeRank, a, aliases[0], rest.value);
            }
          }
        } else if r == rest && Before(a, r.value) {
          PrecedesIsTransitive(CodeRank, a, r.value, a);
        }
      }
    }
  }

  /** How the candidate ends up on the network: its alias, and whether this call attached it. */
  datatype Link = Link(alias: Text, now: bool)

  function ConnectCandidate(d: Disk, slot: Text, container: Text, env: Env): (r: (seq<Disk>, Option<Link>))
    requires |container| >= 12
  {
    var alias := AliasFor(slot, container);
    if container in d.attached then
      var aliases := d.attached[container];
      var chosen := if alias in aliases then Some(alias) else LeastPreview(aliases);
      ([], if chosen.None? || !env.addressed then None else Some(Link(chosen.value, false)))
    else if !env.connects then ([], None)
    else ([Attach(d, container, [alias] + env.extra)], if env.addressed then Some(Link(alias, true)) else None)
  }

  // ---------------------------------------------------------------- routes on disk

  /** A route file that `_load_routes` accepts. */
  predicate GoodFile(u: Setup, slot: Text, content: Text) {
    var r := u.codec.parse(content);
    r.Some? && r.value.slot == slot && slot in u.slots
    && r.value.hostname == u.slots[slot].hostname && r.value.repository == u.slots[slot].repository
  }

  ghost predicate GoodFiles(u: Setup, d: Disk) {
    forall s :: s in d.files ==> GoodFile(u, s, d.files[s])
  }

  /** The order in which routes are listed. */
  predicate BySlot(routes: seq<PreviewRoute>) {
    forall i, j :: 0 <= i < j < |routes| ==> Before(routes[i].slot, routes[j].slot)
  }

  function InsertBySlot(routes: seq<PreviewRoute>, r: PreviewRoute): seq<PreviewRoute> {
    if routes == [] || Before(r.slot, routes[0].slot) then [r] + routes
    else [routes[0]] + InsertBySlot(routes[1..], r)
  }

  lemma {:induction false} InsertKeepsOrder(routes: seq<PreviewRoute>, r: PreviewRoute)
    requires BySlot(routes) && forall x :: x in routes ==> x.slot != r.slot
    ensures BySlot(InsertBySlot(routes, r))
    ensures forall x :: x in InsertBySlot(routes, r) <==> x == r || x in routes
  {
    if routes != [] {
      PrecedesIsTotal(CodeRank, r.slot, routes[0].slot);
      if Before(r.slot, routes[0].slot) {
        forall x | x in routes
          ensures Before(r.slot, x.slot)
        {
          if x != routes[0] {
            PrecedesIsTransitive(CodeRank, r.slot, routes[0].slot, x.slot);
          }
        }
      } else {
        InsertKeepsOrder(routes[1..], r);
        assert routes[0] in routes && forall x :: x in routes[1..] ==> Before(routes[0].slot, x.slot);
      }
    }
  }

  /** Some route on disk names the container. */
  ghost predicate Named(u: Setup, d: Disk, container: Text) {
    exists s :: s in d.files && u.codec.parse(d.files[s]).Some? && u.codec.parse(d.files[s]).value.containerId == container
  }

  /** `_disconnect_if_unused`: the change it makes, if any, and whether it returns normally. */
  ghost function DisconnectEffect(u: Setup, d: Disk, container: Text, env: Env): (seq<Disk>, bool) {
    if !GoodFiles(u, d) then ([], false)
    else if Named(u, d, container) then ([], true)
    else if env.disconnects then ([Detach(d, container)], true) else ([], false)
  }

  // ---------------------------------------------------------------- publish

  function Candidate(u: Setup, call: Call, container: Text, alias: Text, env: Env): PreviewRoute
    requires call.slot in u.slots
  {
    PreviewRoute(call.slot, u.slots[call.slot].hostname, u.slots[call.slot].repository, call.job, call.project,
                 call.service, container, alias, call.port, call.checkPath, env.now)
  }

  /** The request checks and look-ups made before anything changes. */
  predicate Admissible(u: Setup, d: Disk, call: Call, env: Env) {
    && Identifier(call.job) && Identifier(call.slot) && Identifier(call.project) && Identifier(call.service)
    && Port(call.port) && CheckPath(call.checkPath, u.lib)
    && call.slot in u.slots
    && call.job in u.repositories && u.slots[call.slot].repository in u.repositories[call.job]
    && call.project in env.projects
    && env.container.Some? && ContainerId(env.container.value)
    && (call.slot in d.files ==> u.codec.parse(d.files[call.slot]).Some?)
  }

  function Previous(u: Setup, d: Disk, slot: Text): Option<PreviewRoute> {
    if slot in d.files then u.codec.parse(d.files[slot]) else None
  }

  /** Every compared field agrees; the publication time is not compared. */
  predicate SamePreview(a: PreviewRoute, b: PreviewRoute) {
    a.(publishedAt := b.publishedAt) == b
  }

  /** The failure branch: the old bytes return, and a container attached by this call leaves again. */
  ghost function Rollback(u: Setup, d: Disk, bytes: Option<Text>, previous: Option<PreviewRoute>, cand: PreviewRoute,
                          now: bool, env: Env): Effect
  {
    var back := Write(d, cand.slot, bytes);
    if previous.Some? && WaitFrom(previous.value, env.watched, Successful, 0, 0).Raised? then Effect([back], Failure(Broken))
    else if !now then Effect([back], Failure(CheckFailed))
    else
      var (more, ok) := DisconnectEffect(u, back, cand.containerId, env);
      Effect([back] + more, Failure(if ok then CheckFailed else Broken))
  }

  /** The success branch: a replaced container leaves the network once no route names it. */
  ghost function Settle(u: Setup, d: Disk, previous: Option<PreviewRoute>, cand: PreviewRoute, env: Env): Effect {
    if previous.None? || previous.value.containerId == cand.containerId then Effect([], Success(cand))
    else
      var (more, ok) := DisconnectEffect(u, d, previous.value.containerId, env);
      Effect(more, if ok then Success(cand) else Failure(Broken))
  }

  function Then(first: seq<Disk>, e: Effect): Effect {
    Effect(first + e.trace, e.result)
  }

  /** The rest of the transaction once the candidate's route is written. */
  ghost function Verify(u: Setup, d: Disk, bytes: Option<Text>, previous: Option<PreviewRoute>, cand: PreviewRoute,
                        now: bool, env: Env): Effect
  {
    var gateway := GatewayFrom(cand, env.gateway, 0, 0);
    if gateway == Raised(Escaped) then Effect([], Failure(Broken))
    else if !Accepts(gateway, Successful) then Rollback(u, d, bytes, previous, cand, now, env)
    else Settle(u, d, previous, cand, env)
  }

  /** The transaction once the candidate is known: direct check, write, gateway check. */
  ghost function Exchange(u: Setup, d: Disk, bytes: Option<Text>, previous: Option<PreviewRoute>, cand: PreviewRoute,
                          now: bool, env: Env): Effect
  {
    var direct := Ask(cand, env.direct);
    if direct.Escaped? then Effect([], Failure(Broken))
    else if !(direct.Status? && Successful(direct.code)) then Rollback(u, d, bytes, previous, cand, now, env)
    else
      var written := Write(d, cand.slot, Some(u.codec.render(cand)));
      Then([written], Verify(u, written, bytes, previous, cand, now, env))
  }

  /** What follows once the container has an alias: the candidate is built and checked, an
      unchanged preview is returned as it is, any other one is exchanged. */
  ghost function Propose(u: Setup, d: Disk, call: Call, container: Text, link: Link, env: Env): Effect
    requires call.slot in u.slots
  {
    var cand := Candidate(u, call, container, link.alias, env);
    var previous := Previous(u, d, call.slot);
    if !u.codec.valid(cand) then Effect([], Failure(BadRoute))
    else if previous.Some? && SamePreview(previous.value, cand) then Effect([], Success(previous.value))
    else Exchange(u, d, Content(d, call.slot), previous, cand, link.now, env)
  }

  ghost function PublishEffect(u: Setup, d: Disk, call: Call, env: Env): Effect {
    if !Admissible(u, d, call, env) then Effect([], Failure(BadRequest))
    else
      var (trace, link) := ConnectCandidate(d, call.slot, env.container.value, env);
      if link.None? then Effect(trace, Failure(NotConnected))
      else Then(trace, Propose(u, Final(d, trace), call, env.container.value, link.value, env))
  }

  // ---------------------------------------------------------------- unpublish

  predicate IsMissing(code: int) {
    code == 404
  }

  predicate Owned(u: Setup, d: Disk, job: Text, slot: Text) {
    && Identifier(job) && Identifier(slot) && slot in d.files
    && u.codec.parse(d.files[slot]).Some? && u.codec.parse(d.files[slot]).value.jobId == job
  }

  ghost function UnpublishEffect(u: Setup, d: Disk, job: Text, slot: Text, env: Env): Effect {
    if !Owned(u, d, job, slot) then Effect([], Failure(BadRequest))
    else
      var route := u.codec.parse(d.files[slot]).value;
      var gone := Write(d, slot, None);
      var answer := WaitFrom(route, env.watched, IsMissing, 0, 0);
      if answer.Raised? then Effect([gone], Failure(Broken))
      else if !IsMissing(answer.code) then
        Effect([gone, Write(gone, slot, Some(u.codec.render(route)))], Failure(CheckFailed))
      else
        var (more, ok) := DisconnectEffect(u, gone, route.containerId, env);
        Effect([gone] + more, if ok then Success(route) else Failure(Broken))
  }

  // ---------------------------------------------------------------- the registry itself

  class PreviewRegistry {
    const u: Setup
    var files: map<Text, Text>
    var attached: map<Text, seq<Text>>
    /** Every state the registry has passed through, one per change. */
    ghost var trace: seq<Disk>

    constructor (u: Setup)
      ensures this.u == u && State() == EMPTY && trace == []
    {
      this.u := u;
      files, attached, trace := map[], map[], [];
    }

    ghost function State(): Disk
      reads this
    {
      Disk(files, attached)
    }

    /** Replaces or removes one route file; the replacement is a rename, so no other content is ever seen. */
    method WriteRoute(slot: Text, content: Option<Text>)
      modifies this
      ensures State() == Write(old(State()), slot, content) && trace == old(trace) + [State()]
    {
      files := match content case Some(text) => files[slot := text] case None => files - {slot};
      trace := trace + [State()];
    }

    method NetworkConnect(container: Text, aliases: seq<Text>)
      modifies this
      ensures State() == Attach(old(State()), container, aliases) && trace == old(trace) + [State()]
    {
      attached := attached[container := aliases];
      trace := trace + [State()];
    }

    method NetworkDisconnect(container: Text)
      modifies this
      ensures State() == Detach(old(State()), container) && trace == old(trace) + [State()]
    {
      attached := attached - {container};
      trace := trace + [State()];
    }

    /** All routes on disk in the order of their slots, or nothing as soon as one file is not
        acceptable. A route path that is a symbolic link counts as a file that cannot be parsed:
        every caller refuses both in the same way. */
    method LoadRoutes() returns (routes: Option<seq<PreviewRoute>>)
      ensures routes.Some? <==> GoodFiles(u, State())
      ensures routes.Some? ==> BySlot(routes.value)
      ensures routes.Some? ==> forall r :: r in routes.value <==> exists s :: s in files && u.codec.parse(files[s]) == Some(r)
    {
      var left := files.Keys;
      var found: seq<PreviewRoute> := [];
      while left != {}
        invariant left <= files.Keys
        invariant forall s :: s in files && s !in left ==> GoodFile(u, s, files[s])
        invariant BySlot(found) && forall r :: r in found ==> r.slot in files && r.slot !in left
        invariant forall r :: r in found <==> exists s :: s in files && s !in left && u.codec.parse(files[s]) == Some(r)
      {
        var slot :| slot in left;
        if !GoodFile(u, slot, files[slot]) {
          return None;
        }
        var route := u.codec.parse(files[slot]).value;
        InsertKeepsOrder(found, route);
        found := InsertBySlot(found, route);
        left := left - {slot};
      }
      routes := Some(found);
    }

    method DisconnectIfUnused(container: Text, env: Env) returns (ok: bool)
      modifies this
      ensures var (more, good) := DisconnectEffect(u, old(State()), container, env);
              ok == good && trace == old(trace) + more && State() == Final(old(State()), more)
    {
      var routes := LoadRoutes();
      if routes.None? {
        return false;
      }
      if exists r :: r in routes.value && r.containerId == container {
        return true;
      }
      if !env.disconnects {
        return false;
      }
      NetworkDisconnect(container);
      ok := true;
    }

    method GatewayStatus(route: PreviewRoute, replies: nat -> Reply) returns (answer: Answer)
      ensures answer == GatewayFrom(route, replies, 0, 0)
    {
      var last := 0;
      for attempt := 0 to ATTEMPTS
        invariant GatewayFrom(route, replies, attempt, last) == GatewayFrom(route, replies, 0, 0)
      {
        var reply := Ask(route, replies(attempt));
        match reply
        case Status(code) =>
          last := code;
          if Decisive(code) {
            return Answer(last);
          }
        case Down =>
        case other =>
          return Raised(other);
      }
      answer := Answer(last);
    }

    method WaitForStatus(route: PreviewRoute, replies: nat -> Reply, expected: int -> bool) returns (answer: Answer)
      ensures answer == WaitFrom(route, replies, expected, 0, 0)
    {
      var last := 0;
      for attempt := 0 to ATTEMPTS
        invariant WaitFrom(route, replies, expected, attempt, last) == WaitFrom(route, replies, expected, 0, 0)
      {
        var reply := Ask(route, replies(attempt));
        match reply
        case Status(code) =>
          last := code;
          if expected(code) {
            return Answer(last);
          }
        case Down =>
        case other =>
          return Raised(other);
      }
      answer := Answer(last);
    }

    method Connect(slot: Text, container: Text, env: Env) returns (link: Option<Link>)
      requires |container| >= 12
      modifies this
      ensures var (more, l) := ConnectCandidate(old(State()), slot, container, env);
              link == l && trace == old(trace) + more && State() == Final(old(State()), more)
    {
      var alias := AliasFor(slot, container);
      if container in attached {
        var aliases := attached[container];
        if alias !in aliases {
          var reusable := LeastPreview(aliases);
          if reusable.None? {
            return None;
          }
          alias := reusable.value;
        }
        return if env.addressed then Some(Link(alias, false)) else None;
      }
      if !env.connects {
        return None;
      }
      NetworkConnect(container, [alias] + env.extra);
      link := if env.addressed then Some(Link(alias, true)) else None;
    }

    ghost predicate Did(was: Disk, before: seq<Disk>, e: Effect)
      reads this
    {
      trace == before + e.trace && State() == Final(was, e.trace)
    }

    method Restore(bytes: Option<Text>, previous: Option<PreviewRoute>, cand: PreviewRoute, now: bool, env: Env)
      returns (fault: Fault)
      modifies this
      ensures var e := Rollback(u, old(State()), bytes, previous, cand, now, env);
              e.result == Failure(fault) && Did(old(State()), old(trace), e)
    {
      WriteRoute(cand.slot, bytes);
      if previous.Some? {
        var answer := WaitForStatus(previous.value, env.watched, Successful);
        if answer.Raised? {
          return Broken;
        }
      }
      if now {
        var ok := DisconnectIfUnused(cand.containerId, env);
        return if ok then CheckFailed else Broken;
      }
      fault := CheckFailed;
    }

    method Transact(bytes: Option<Text>, previous: Option<PreviewRoute>, cand: PreviewRoute, now: bool, env: Env)
      returns (result: Result<PreviewRoute, Fault>)
      modifies this
      ensures var e := Exchange(u, old(State()), bytes, previous, cand, now, env);
              result == e.result && Did(old(State()), old(trace), e)
    {
      var direct := Ask(cand, env.direct);
      if direct.Escaped? {
        return Failure(Broken);
      }
      if !(direct.Status? && Successful(direct.code)) {
        var fault := Restore(bytes, previous, cand, now, env);
        return Failure(fault);
      }
      ghost var was, before := State(), trace;
      WriteRoute(cand.slot, Some(u.codec.render(cand)));
      ghost var written := State();
      result := CheckGateway(bytes, previous, cand, now, env);
      FinalThen(was, before, [written], Verify(u, written, bytes, previous, cand, now, env).trace);
    }

    method CheckGateway(bytes: Option<Text>, previous: Option<PreviewRoute>, cand: PreviewRoute, now: bool, env: Env)
      returns (result: Result<PreviewRoute, Fault>)
      modifies this
      ensures var e := Verify(u, old(State()), bytes, previous, cand, now, env);
              result == e.result && Did(old(State()), old(trace), e)
    {
      var gateway := GatewayStatus(cand, env.gateway);
      if gateway == Raised(Escaped) {
        return Failure(Broken);
      }
      if Accepts(gateway, Successful) {
        result := Complete(previous, cand, env);
      } else {
        var fault := Restore(bytes, previous, cand, now, env);
        result := Failure(fault);
      }
    }

    /** After both checks: a replaced container leaves the network once no route names it. */
    method Complete(previous: Option<PreviewRoute>, cand: PreviewRoute, env: Env) returns (result: Result<PreviewRoute, Fault>)
      modifies this
      ensures var e := Settle(u, old(State()), previous, cand, env);
              result == e.result && Did(old(State()), old(trace), e)
    {
      if previous.Some? && previous.value.containerId != cand.containerId {
        var ok := DisconnectIfUnused(previous.value.containerId, env);
        return if ok then Success(cand) else Failure(Broken);
      }
      result := Success(cand);
    }

    /** Hands one slot to a service of a job, or takes every change back. */
    method Publish(call: Call, env: Env) returns (result: Result<PreviewRoute, Fault>)
      modifies this
      ensures var e := PublishEffect(u, old(State()), call, env);
              result == e.result && Did(old(State()), old(trace), e)
    {
      if !Admissible(u, Disk(files, attached), call, env) {
        return Failure(BadRequest);
      }
      var container := env.container.value;
      var bytes := if call.slot in files then Some(files[call.slot]) else None;
      var previous := if bytes.Some? then u.codec.parse(bytes.value) else None;
      ghost var (first, _) := ConnectCandidate(State(), call.slot, container, env);
      var link := Connect(call.slot, container, env);
      if link.None? {
        return Failure(NotConnected);
      }
      ghost var e := Propose(u, State(), call, container, link.value, env);
      FinalThen(old(State()), old(trace), first, e.trace);
      result := Offer(call, container, bytes, previous, link.value, env);
    }

    method Offer(call: Call, container: Text, bytes: Option<Text>, previous: Option<PreviewRoute>, link: Link, env: Env)
      returns (result: Result<PreviewRoute, Fault>)
      requires call.slot in u.slots && bytes == Content(State(), call.slot) && previous == Previous(u, State(), call.slot)
      modifies this
      ensures var e := Propose(u, old(State()), call, container, link, env);
              result == e.result && Did(old(State()), old(trace), e)
    {
      var cand := Candidate(u, call, container, link.alias, env);
      if !u.codec.valid(cand) {
        return Failure(BadRoute);
      }
      if previous.Some? && SamePreview(previous.value, cand) {
        return Success(previous.value);
      }
      result := Transact(bytes, previous, cand, link.now, env);
    }

    /** Removes a route that the job owns, or puts it back. */
    method Unpublish(job: Text, slot: Text, env: Env) returns (result: Result<PreviewRoute, Fault>)
      modifies this
      ensures var e := UnpublishEffect(u, old(State()), job, slot, env);
              result == e.result && Did(old(State()), old(trace), e)
    {
      if !Owned(u, Disk(files, attached), job, slot) {
        return Failure(BadRequest);
      }
      var route := u.codec.parse(files[slot]).value;
      WriteRoute(slot, None);
      var answer := WaitForStatus(route, env.watched, IsMissing);
      if answer.Raised? {
        return Failure(Broken);
      }
      if !IsMissing(answer.code) {
        WriteRoute(slot, Some(u.codec.render(route)));
        return Failure(CheckFailed);
      }
      var ok := DisconnectIfUnused(route.containerId, env);
      result := if ok then Success(route) else Failure(Broken);
    }

    ghost predicate Owns(job: Text)
      reads this
    {
      exists s :: s in files && u.codec.parse(files[s]).Some? && u.codec.parse(files[s]).value.jobId == job
    }

    /** With a gateway installed, cleanup is allowed exactly when the directory can be read and the
        job owns no route in it. */
    method AssertCleanupAllowed(job: Text, installed: bool) returns (allowed: bool)
      ensures allowed <==> Identifier(job) && (installed ==> GoodFiles(u, State()) && !Owns(job))
    {
      if !Identifier(job) {
        return false;
      }
      if !installed {
        return true;
      }
      var routes := LoadRoutes();
      allowed := routes.Some? && !exists r :: r in routes.value && r.jobId == job;
    }
  }
}
