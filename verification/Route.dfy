/** Preview routes: validation, the text of a route file, and its reader. */
module Route {
  import opened Collections
  import opened Json
  import opened Order
  import Paths

  /** What the standard library decides: `urlsplit` finds a bare path, and `fromisoformat`
      reads a timestamp with a timezone. */
  datatype Library = Library(plainPath: Text -> bool, timestamp: Text -> bool)

  const HYPHEN: Code := 45
  const DOT: Code := 46
  const SLASH: Code := 47
  const RETURN: Code := 13

  predicate Alphanumeric(c: Code) {
    48 <= c <= 57 || 97 <= c <= 122
  }

  predicate Hyphenated(c: Code) {
    Alphanumeric(c) || c == HYPHEN
  }

  const IDENTIFIER_LIMIT := 63

  predicate Identifier(t: Text) {
    1 <= |t| <= IDENTIFIER_LIMIT && Alphanumeric(t[0]) && forall c :: c in t ==> Hyphenated(c)
  }

  predicate Label(t: Text) {
    1 <= |t| <= 63 && Alphanumeric(t[0]) && Alphanumeric(t[|t| - 1]) && forall c :: c in t ==> Hyphenated(c)
  }

  predicate Hostname(t: Text) {
    var labels := Paths.SplitOn(t, DOT);
    |t| <= 253 && |labels| >= 2 && forall l :: l in labels ==> Label(l)
  }

  predicate ContainerId(t: Text) {
    |t| == 64 && forall c :: c in t ==> 48 <= c <= 57 || 97 <= c <= 102
  }

  predicate CheckPath(t: Text, lib: Library) {
    && RETURN !in t && NEWLINE !in t && lib.plainPath(t)
    && t != [] && t[0] == SLASH && (|t| == 1 || t[1] != SLASH)
  }

  predicate Port(n: nat) {
    1 <= n <= 65535
  }

  datatype PreviewRoute = PreviewRoute(
    slot: Text, hostname: Text, repository: Text, jobId: Text, project: Text, service: Text,
    containerId: Text, networkAlias: Text, port: nat, checkPath: Text, publishedAt: Text)

  predicate Valid(r: PreviewRoute, lib: Library) {
    && Identifier(r.slot) && Hostname(r.hostname) && Identifier(r.repository) && Identifier(r.jobId)
    && Identifier(r.project) && Identifier(r.service) && ContainerId(r.containerId) && Identifier(r.networkAlias)
    && Port(r.port) && CheckPath(r.checkPath, lib) && lib.timestamp(r.publishedAt)
  }

  // ---------------------------------------------------------------- the text of a route

  /** The field names in order; the sixth is the port. */
  const KEYS := [Lit("check_path"), Lit("container_id"), Lit("hostname"), Lit("job_id"), Lit("network_alias"), Lit("port"),
                 Lit("project"), Lit("published_at"), Lit("repository"), Lit("service"), Lit("slot")]

  const PORT_KEY := 5

  function Values(r: PreviewRoute): (vs: seq<Value>)
    ensures |vs| == 11
  {
    [Str(r.checkPath), Str(r.containerId), Str(r.hostname), Str(r.jobId), Str(r.networkAlias), Num(r.port),
     Str(r.project), Str(r.publishedAt), Str(r.repository), Str(r.service), Str(r.slot)]
  }

  /** The fields in the order of their names. */
  function ToMembers(r: PreviewRoute): (ms: seq<Member>)
    ensures |ms| == |KEYS| == 11 && forall i :: 0 <= i < 11 ==> ms[i] == Member(KEYS[i], Values(r)[i])
  {
    seq(11, i requires 0 <= i < 11 => Member(KEYS[i], Values(r)[i]))
  }

  function Prefix(): Text {
    Lit("# remote-worktree-runner-preview: ")
  }

  function Metadata(r: PreviewRoute): Text {
    Prefix() + PrintObject(ToMembers(r))
  }

  function Name(r: PreviewRoute): Text {
    Lit("preview-") + r.slot
  }

  function HostLine(r: PreviewRoute): Text {
    Lit("      rule: \"Host(`") + r.hostname + Lit("`)\"")
  }

  function UrlLine(r: PreviewRoute): Text {
    Lit("          - url: \"http://") + (r.networkAlias + [COLON] + Decimal(r.port)) + Lit("\"")
  }

  function BodyLines(r: PreviewRoute): (lines: seq<Text>)
    ensures |lines| == 12
  {
    [Lit("http:"),
     Lit("  routers:"),
     Lit("    ") + Name(r) + [COLON],
     Lit("      entryPoints:"),
     Lit("        - web"),
     HostLine(r),
     Lit("      service: ") + Name(r),
     Lit("  services:"),
     Lit("    ") + Name(r) + [COLON],
     Lit("      loadBalancer:"),
     Lit("        servers:"),
     UrlLine(r)]
  }

  /** The Traefik configuration below the metadata line. */
  function Body(r: PreviewRoute): Text {
    Paths.Terminate(BodyLines(r), NEWLINE)
  }

  function Render(r: PreviewRoute): Text {
    Metadata(r) + [NEWLINE] + Body(r)
  }

  // ---------------------------------------------------------------- the reader

  function FirstOf(t: Text, c: Code): (i: nat)
    ensures i <= |t|
  {
    if t == [] || t[0] == c then 0 else 1 + FirstOf(t[1..], c)
  }

  /** The value a key has in the object read: its last occurrence wins. */
  function Lookup(ms: seq<Member>, key: Text): Option<Value> {
    if ms == [] then None
    else if ms[|ms| - 1].key == key then Some(ms[|ms| - 1].value)
    else Lookup(ms[..|ms| - 1], key)
  }

  predicate HasText(ms: seq<Member>, key: Text) {
    Lookup(ms, key).Some? && Lookup(ms, key).value.Str?
  }

  function TextAt(ms: seq<Member>, key: Text): Text
    requires HasText(ms, key)
  {
    Lookup(ms, key).value.text
  }

  /** Exactly the expected fields, a number for the port and strings for the others. */
  predicate WellFormed(ms: seq<Member>) {
    && (forall i :: 0 <= i < |ms| ==> ms[i].key in KEYS)
    && (forall i :: 0 <= i < |KEYS| && i != PORT_KEY ==> HasText(ms, KEYS[i]))
    && Lookup(ms, KEYS[PORT_KEY]).Some? && Lookup(ms, KEYS[PORT_KEY]).value.Num?
  }

  function FromMembers(ms: seq<Member>): PreviewRoute
    requires WellFormed(ms)
  {
    PreviewRoute(
      TextAt(ms, KEYS[10]), TextAt(ms, KEYS[2]), TextAt(ms, KEYS[8]), TextAt(ms, KEYS[3]), TextAt(ms, KEYS[6]), TextAt(ms, KEYS[9]),
      TextAt(ms, KEYS[1]), TextAt(ms, KEYS[4]), Lookup(ms, KEYS[PORT_KEY]).value.n, TextAt(ms, KEYS[0]), TextAt(ms, KEYS[7]))
  }

  /** The route named by a metadata line, before validation. */
  function ReadMetadata(line: Text): Option<PreviewRoute> {
    var p := Prefix();
    if |line| < |p| || line[..|p|] != p then None
    else match ReadObject(line[|p|..])
      case None => None
      case Some((ms, rest)) => if Skip(rest) == [] && WellFormed(ms) then Some(FromMembers(ms)) else None
  }

  /** `parse_route`: the metadata must be valid and render to the whole content. */
  function Parse(content: Text, lib: Library): Option<PreviewRoute> {
    var i := FirstOf(content, NEWLINE);
    if i == |content| then None
    else match ReadMetadata(content[..i])
      case None => None
      case Some(r) => if Valid(r, lib) && Render(r) == content then Some(r) else None
  }

  // ---------------------------------------------------------------- the reader undoes the printer

  /** The route whose text fields have their split surrogate pairs joined. */
  function JoinRoute(r: PreviewRoute): PreviewRoute {
    PreviewRoute(Join(r.slot), Join(r.hostname), Join(r.repository), Join(r.jobId), Join(r.project), Join(r.service),
                 Join(r.containerId), Join(r.networkAlias), r.port, Join(r.checkPath), Join(r.publishedAt))
  }

  predicate DistinctKeys(ms: seq<Member>) {
    forall i, j :: 0 <= i < j < |ms| ==> ms[i].key != ms[j].key
  }

  lemma {:induction false} LookupAt(ms: seq<Member>, i: nat)
    requires DistinctKeys(ms) && i < |ms|
    ensures Lookup(ms, ms[i].key) == Some(ms[i].value)
  {
    var n := |ms| - 1;
    if i < n {
      assert ms[i].key != ms[n].key;
      LookupAt(ms[..n], i);
    }
  }

  /** The metadata is printed in the order of its keys. */
  lemma KeysSorted(i: nat, j: nat)
    requires i < j < |KEYS|
    ensures Before(KEYS[i], KEYS[j])
    decreases j - i
  {
    assert Before(KEYS[0], KEYS[1]) && Before(KEYS[1], KEYS[2]) && Before(KEYS[2], KEYS[3]) && Before(KEYS[3], KEYS[4]);
    assert Before(KEYS[4], KEYS[5]) && Before(KEYS[5], KEYS[6]) && Before(KEYS[6], KEYS[7]) && Before(KEYS[7], KEYS[8]);
    assert Before(KEYS[8], KEYS[9]) && Before(KEYS[9], KEYS[10]);
    if j > i + 1 {
      KeysSorted(i, j - 1);
      PrecedesIsTransitive(CodeRank, KEYS[i], KEYS[j - 1], KEYS[j]);
    }
  }

  lemma KeysDiffer()
    ensures forall i, j :: 0 <= i < j < |KEYS| ==> KEYS[i] != KEYS[j]
  {
    forall i, j | 0 <= i < j < |KEYS|
      ensures KEYS[i] != KEYS[j]
    {
      KeysSorted(i, j);
      PrecedesIsTotal(CodeRank, KEYS[i], KEYS[i]);
    }
  }

  /** The keys are plain ASCII, so reading gives them back unchanged. */
  lemma JoinKeys()
    ensures forall i :: 0 <= i < |KEYS| ==> Join(KEYS[i]) == KEYS[i]
  {
    forall i | 0 <= i < |KEYS|
      ensures Join(KEYS[i]) == KEYS[i]
    {
      JoinAscii(KEYS[i]);
    }
  }

  lemma JoinedValues(r: PreviewRoute)
    ensures forall i :: 0 <= i < 11 ==> JoinValue(Values(r)[i]) == Values(JoinRoute(r))[i]
  {
  }

  lemma JoinedMembers(r: PreviewRoute)
    ensures JoinMembers(ToMembers(r)) == ToMembers(JoinRoute(r))
  {
    JoinKeys();
    JoinedValues(r);
    var a, b := JoinMembers(ToMembers(r)), ToMembers(JoinRoute(r));
    forall i | 0 <= i < 11
      ensures a[i] == b[i]
    {
      assert a[i] == JoinMember(Member(KEYS[i], Values(r)[i]));
    }
  }

  lemma MembersLookup(r: PreviewRoute)
    ensures forall i :: 0 <= i < |KEYS| ==> Lookup(ToMembers(r), KEYS[i]) == Some(Values(r)[i])
  {
    KeysDiffer();
    forall i | 0 <= i < |KEYS|
      ensures Lookup(ToMembers(r), KEYS[i]) == Some(Values(r)[i])
    {
      LookupAt(ToMembers(r), i);
    }
  }

  lemma FromTo(r: PreviewRoute)
    ensures WellFormed(ToMembers(r)) && FromMembers(ToMembers(r)) == r
  {
    MembersLookup(r);
    assert forall i :: 0 <= i < |KEYS| && i != PORT_KEY ==> Values(r)[i].Str?;
  }

  lemma ReadMetadataOf(r: PreviewRoute)
    ensures ReadMetadata(Metadata(r)) == Some(JoinRoute(r))
  {
    var ms := ToMembers(r);
    assert Metadata(r)[..|Prefix()|] == Prefix() && Metadata(r)[|Prefix()|..] == PrintObject(ms);
    ReadPrintedObject(ms);
    JoinedMembers(r);
    FromTo(JoinRoute(r));
  }

  lemma {:induction false} FirstOfAt(a: Text, c: Code, b: Text)
    requires c !in a
    ensures var t := a + [c] + b; FirstOf(t, c) == |a| < |t| && t[..|a|] == a
  {
    var t := a + [c] + b;
    if a != [] {
      FirstOfAt(a[1..], c, b);
      assert t[1..] == a[1..] + [c] + b;
    }
  }

  lemma PrefixPrintable()
    ensures Printable(Prefix())
  {
    var s := "# remote-worktree-runner-preview: ";
    assert PlainString(s);
    LitPrintable(s);
  }

  lemma MetadataPrintable(r: PreviewRoute)
    ensures Printable(Metadata(r))
  {
    PrefixPrintable();
    var ms := ToMembers(r);
    ObjectPrintable(ms);
    var p, o := Prefix(), PrintObject(ms);
    assert Printable(p + o);
  }

  lemma RenderSplits(r: PreviewRoute)
    ensures FirstOf(Render(r), NEWLINE) == |Metadata(r)| < |Render(r)|
    ensures Render(r)[..|Metadata(r)|] == Metadata(r)
  {
    MetadataPrintable(r);
    FirstOfAt(Metadata(r), NEWLINE, Body(r));
  }

  // ---------------------------------------------------------------- which texts are routes

  predicate Ascii(t: Text) {
    forall c :: c in t ==> c == NEWLINE || 0x20 <= c <= 0x7e
  }

  lemma AsciiConcat(a: Text, b: Text)
    requires Ascii(a) && Ascii(b)
    ensures Ascii(a + b)
  {
  }

  lemma ExtendCovers(e: Code, sep: Code, parts: seq<Text>, l: Text)
    requires l in parts
    ensures exists m :: m in Paths.Extend(e, sep, parts) && forall c :: c in l ==> c in m
    ensures e == sep || exists m :: m in Paths.Extend(e, sep, parts) && e in m
  {
    var all := Paths.Extend(e, sep, parts);
    var i :| 0 <= i < |parts| && parts[i] == l;
    if e == sep {
      assert all[i + 1] == l && all[i + 1] in all;
    } else {
      assert all[0] == [e] + parts[0] && e in all[0] && all[0] in all;
      assert all[i] in all && forall c :: c in l ==> c in all[i];
    }
  }

  lemma {:induction false} SplitCovers(t: Text, sep: Code, c: Code)
    requires c in t && c != sep
    ensures exists l :: l in Paths.SplitOn(t, sep) && c in l
  {
    var parts := Paths.SplitOn(t[1..], sep);
    if c == t[0] {
      ExtendCovers(t[0], sep, parts, parts[0]);
    } else {
      SplitCovers(t[1..], sep, c);
      var l :| l in parts && c in l;
      ExtendCovers(t[0], sep, parts, l);
    }
  }

  lemma HostnamePrintable(t: Text)
    requires Hostname(t)
    ensures Printable(t)
  {
    forall c | c in t
      ensures 0x20 <= c <= 0x7e
    {
      if c != DOT {
        SplitCovers(t, DOT, c);
        var l :| l in Paths.SplitOn(t, DOT) && c in l;
        assert Label(l);
      }
    }
  }

  lemma FieldsPrintable(r: PreviewRoute, lib: Library)
    requires Valid(r, lib)
    ensures Printable(r.slot) && Printable(r.hostname) && Printable(r.repository) && Printable(r.jobId) && Printable(r.project)
    ensures Printable(r.service) && Printable(r.containerId) && Printable(r.networkAlias)
  {
    HostnamePrintable(r.hostname);
  }

  /** Reading joins at most the two free-form fields. */
  lemma JoinedRoute(r: PreviewRoute, lib: Library)
    requires Valid(r, lib)
    ensures JoinRoute(r) == r.(checkPath := Join(r.checkPath), publishedAt := Join(r.publishedAt))
  {
    FieldsPrintable(r, lib);
    JoinAscii(r.slot);
    JoinAscii(r.hostname);
    JoinAscii(r.repository);
    JoinAscii(r.jobId);
    JoinAscii(r.project);
    JoinAscii(r.service);
    JoinAscii(r.containerId);
    JoinAscii(r.networkAlias);
  }

  lemma RenderJoined(r: PreviewRoute, lib: Library)
    requires Valid(r, lib)
    ensures Render(JoinRoute(r)) == Render(r)
  {
    JoinedRoute(r, lib);
    assert Body(JoinRoute(r)) == Body(r);
    JoinedMembers(r);
    PrintJoined(ToMembers(r));
  }

  /** What reading a rendered route gives: the route with its split surrogate pairs joined. */
  lemma ParseRendered(r: PreviewRoute, lib: Library)
    requires Valid(r, lib)
    ensures Parse(Render(r), lib) == if Valid(JoinRoute(r), lib) then Some(JoinRoute(r)) else None
  {
    RenderSplits(r);
    ReadMetadataOf(r);
    RenderJoined(r, lib);
  }

  predicate Joined(r: PreviewRoute) {
    !SplitPair(r.checkPath) && !SplitPair(r.publishedAt)
  }

  lemma JoinedIff(r: PreviewRoute, lib: Library)
    requires Valid(r, lib)
    ensures JoinRoute(r) == r <==> Joined(r)
  {
    JoinedRoute(r, lib);
    JoinIdentity(r.checkPath);
    JoinIdentity(r.publishedAt);
  }

  /** A valid route round-trips exactly when neither free-form field holds a split surrogate pair. */
  lemma RoundTrip(r: PreviewRoute, lib: Library)
    requires Valid(r, lib)
    ensures Parse(Render(r), lib) == Some(r) <==> Joined(r)
  {
    ParseRendered(r, lib);
    JoinedIff(r, lib);
  }

  /** The accepted texts are exactly the rendered ones, so rendering a parsed route again
      reproduces the file it came from. */
  lemma AcceptedTexts(content: Text, r: PreviewRoute, lib: Library)
    ensures Parse(content, lib) == Some(r) <==> Valid(r, lib) && Joined(r) && content == Render(r)
  {
    if Valid(r, lib) && content == Render(r) {
      RoundTrip(r, lib);
    }
  }

  // ---------------------------------------------------------------- route files are ASCII

  predicate PlainString(s: string) {
    forall i :: 0 <= i < |s| ==> 0x20 <= s[i] as int <= 0x7e
  }

  lemma LitPrintable(s: string)
    requires PlainString(s)
    ensures Printable(Lit(s))
  {
  }

  lemma NamePrintable(r: PreviewRoute)
    requires Printable(r.slot)
    ensures Printable(Name(r)) && Printable(Lit("    ") + Name(r) + [COLON]) && Printable(Lit("      service: ") + Name(r))
  {
    var preview, indent, service := "preview-", "    ", "      service: ";
    assert PlainString(preview);
    assert PlainString(indent);
    assert PlainString(service);
    LitPrintable(preview);
    LitPrintable(indent);
    LitPrintable(service);
  }

  lemma HostPrintable(r: PreviewRoute)
    requires Printable(r.hostname)
    ensures Printable(HostLine(r))
  {
    var rule, end := "      rule: \"Host(`", "`)\"";
    assert PlainString(rule);
    assert PlainString(end);
    LitPrintable(rule);
    LitPrintable(end);
  }

  lemma UrlPrintable(r: PreviewRoute)
    requires Printable(r.networkAlias)
    ensures Printable(UrlLine(r))
  {
    var url, end := "          - url: \"http://", "\"";
    assert PlainString(url);
    assert PlainString(end);
    LitPrintable(url);
    LitPrintable(end);
    assert Printable(Decimal(r.port));
  }

  lemma FixedPrintable()
    ensures Printable(Lit("http:")) && Printable(Lit("  routers:")) && Printable(Lit("      entryPoints:"))
    ensures Printable(Lit("        - web")) && Printable(Lit("  services:")) && Printable(Lit("      loadBalancer:"))
    ensures Printable(Lit("        servers:"))
  {
    var http, routers, points, web := "http:", "  routers:", "      entryPoints:", "        - web";
    var services, balancer, servers := "  services:", "      loadBalancer:", "        servers:";
    assert PlainString(http) && PlainString(routers);
    assert PlainString(points) && PlainString(web);
    assert PlainString(services) && PlainString(balancer) && PlainString(servers);
    LitPrintable(http);
    LitPrintable(routers);
    LitPrintable(points);
    LitPrintable(web);
    LitPrintable(services);
    LitPrintable(balancer);
    LitPrintable(servers);
  }

  lemma LinesPrintable(r: PreviewRoute)
    requires Printable(r.slot) && Printable(r.hostname) && Printable(r.networkAlias)
    ensures forall l :: l in BodyLines(r) ==> Printable(l)
  {
    FixedPrintable();
    NamePrintable(r);
    HostPrintable(r);
    UrlPrintable(r);
  }

  lemma {:induction false} TerminateAscii(lines: seq<Text>)
    requires forall l :: l in lines ==> Printable(l)
    ensures Ascii(Paths.Terminate(lines, NEWLINE))
  {
    if lines != [] {
      TerminateAscii(lines[1..]);
      assert lines[0] in lines;
      AsciiConcat(lines[0], [NEWLINE]);
      AsciiConcat(lines[0] + [NEWLINE], Paths.Terminate(lines[1..], NEWLINE));
    }
  }

  lemma SplitOnce(a: Text, x: Text, b: Text, y: Text, c: Code)
    requires a + [c] + x == b + [c] + y && c !in a && c !in b
    ensures a == b && x == y
  {
    FirstOfAt(a, c, x);
    FirstOfAt(b, c, y);
    assert (a + [c] + x)[|a| + 1..] == x && (b + [c] + y)[|b| + 1..] == y;
  }

  lemma Inside(p: Text, a: Text, b: Text, q: Text)
    requires p + a + q == p + b + q
    ensures a == b
  {
    assert |a| == |b|;
    assert (p + a + q)[|p|..|p| + |a|] == a && (p + b + q)[|p|..|p| + |b|] == b;
  }

  lemma BodySplits(r: PreviewRoute, lib: Library)
    requires Valid(r, lib)
    ensures Paths.SplitOn(Body(r), NEWLINE) == BodyLines(r) + [[]]
  {
    FieldsPrintable(r, lib);
    LinesPrintable(r);
    Paths.SplitTerminated(BodyLines(r), NEWLINE);
  }

  lemma UrlDetermines(r: PreviewRoute, s: PreviewRoute)
    requires UrlLine(r) == UrlLine(s) && COLON !in r.networkAlias && COLON !in s.networkAlias
    ensures r.networkAlias == s.networkAlias && r.port == s.port
  {
    Inside(Lit("          - url: \"http://"), r.networkAlias + [COLON] + Decimal(r.port),
           s.networkAlias + [COLON] + Decimal(s.port), Lit("\""));
    SplitOnce(r.networkAlias, Decimal(r.port), s.networkAlias, Decimal(s.port), COLON);
    DecimalValue(r.port);
    DecimalValue(s.port);
  }

  /** Two routes have the same Traefik configuration exactly when slot, hostname, alias and port agree. */
  lemma BodyDetermines(r: PreviewRoute, s: PreviewRoute, lib: Library)
    requires Valid(r, lib) && Valid(s, lib)
    ensures Body(r) == Body(s) <==>
            r.slot == s.slot && r.hostname == s.hostname && r.networkAlias == s.networkAlias && r.port == s.port
  {
    if Body(r) == Body(s) {
      BodySplits(r, lib);
      BodySplits(s, lib);
      var a, b := BodyLines(r), BodyLines(s);
      assert (a + [[]])[..12] == a && (b + [[]])[..12] == b;
      assert a[6] == b[6] && a[5] == b[5] && a[11] == b[11];
      Inside(Lit("      service: "), Name(r), Name(s), []);
      Inside(Lit("preview-"), r.slot, s.slot, []);
      Inside(Lit("      rule: \"Host(`"), r.hostname, s.hostname, Lit("`)\""));
      UrlDetermines(r, s);
    }
  }

  /** A rendered route is ASCII, so writing it as UTF-8 and reading it back changes nothing. */
  lemma RenderAscii(r: PreviewRoute, lib: Library)
    requires Valid(r, lib)
    ensures Ascii(Render(r))
  {
    FieldsPrintable(r, lib);
    MetadataPrintable(r);
    LinesPrintable(r);
    TerminateAscii(BodyLines(r));
    AsciiConcat(Metadata(r), [NEWLINE]);
    AsciiConcat(Metadata(r) + [NEWLINE], Body(r));
  }

  // ---------------------------------------------------------------- configured slots

  datatype PreviewSlot = PreviewSlot(slot: Text, hostname: Text, repository: Text)

  /** Each slot is filed under its own name and owns its hostname alone. */
  ghost predicate Configuration(c: map<Text, PreviewSlot>) {
    && (forall k :: k in c ==> c[k].slot == k)
    && (forall k, l :: k in c && l in c && c[k].hostname == c[l].hostname ==> k == l)
  }

  ghost predicate Unambiguous(slots: seq<PreviewSlot>) {
    forall i, j :: 0 <= i < j < |slots| ==> slots[i].slot != slots[j].slot && slots[i].hostname != slots[j].hostname
  }

  /** The configuration of a list of slots, later entries over earlier ones. */
  ghost predicate Collected(found: map<Text, PreviewSlot>, slots: seq<PreviewSlot>) {
    && Configuration(found)
    && forall s :: s in slots <==> s.slot in found && found[s.slot] == s
  }

  lemma CollectMore(found: map<Text, PreviewSlot>, slots: seq<PreviewSlot>, s: PreviewSlot)
    requires Collected(found, slots) && s.slot !in found && forall k :: k in found ==> found[k].hostname != s.hostname
    ensures Collected(found[s.slot := s], slots + [s])
    ensures Unambiguous(slots) ==> Unambiguous(slots + [s])
  {
    assert forall i :: 0 <= i < |slots| ==> slots[i] in slots;
    var more := found[s.slot := s];
    forall x
      ensures x in slots + [s] <==> x.slot in more && more[x.slot] == x
    {
      assert x in slots <==> x.slot in found && found[x.slot] == x;
    }
  }

  lemma Clash(found: map<Text, PreviewSlot>, slots: seq<PreviewSlot>, s: PreviewSlot, rest: seq<PreviewSlot>)
    requires Collected(found, slots)
    requires s.slot in found || exists k :: k in found && found[k].hostname == s.hostname
    ensures !Unambiguous(slots + [s] + rest)
  {
    var k :| k in found && (k == s.slot || found[k].hostname == s.hostname);
    assert found[k] in slots;
    var i :| 0 <= i < |slots| && slots[i] == found[k];
    var all := slots + [s] + rest;
    var n := |slots|;
    assert 0 <= i < n < |all|;
    assert all[i].slot == all[n].slot || all[i].hostname == all[n].hostname;
  }

  function HostnamesOf(found: map<Text, PreviewSlot>): (r: set<Text>)
    ensures forall k :: k in found ==> found[k].hostname in r
  {
    set k | k in found :: found[k].hostname
  }

  lemma MoreHostnames(found: map<Text, PreviewSlot>, s: PreviewSlot)
    requires s.slot !in found
    ensures HostnamesOf(found[s.slot := s]) == HostnamesOf(found) + {s.hostname}
  {
    var more := found[s.slot := s];
    assert forall k :: k in more <==> k == s.slot || k in found;
    assert s.slot in more && forall k :: k in found ==> more[k] == found[k];
  }

  /** Either two slots share a name or a hostname, or the result is the configuration of exactly these slots. */
  method ValidatedSlots(slots: seq<PreviewSlot>) returns (result: Option<map<Text, PreviewSlot>>)
    ensures result.Some? <==> Unambiguous(slots)
    ensures result.Some? ==> Collected(result.value, slots)
  {
    var found: map<Text, PreviewSlot> := map[];
    var hostnames: set<Text> := {};
    var i := 0;
    while i < |slots|
      invariant 0 <= i <= |slots|
      invariant Collected(found, slots[..i]) && Unambiguous(slots[..i])
      invariant hostnames == HostnamesOf(found)
    {
      var s := slots[i];
      if s.slot in found || s.hostname in hostnames {
        SplitAt(slots, i);
        Clash(found, slots[..i], s, slots[i + 1..]);
        return None;
      }
      CollectMore(found, slots[..i], s);
      MoreHostnames(found, s);
      assert slots[..i + 1] == slots[..i] + [s];
      found := found[s.slot := s];
      hostnames := hostnames + {s.hostname};
      i := i + 1;
    }
    assert slots[..i] == slots;
    result := Some(found);
  }
}
