/** What a route file tells others: the Traefik configuration as the gateway reads it, the fields of
    the metadata under their names, and the escapes of JSON. */
module Gateway {
  import opened Collections
  import opened Json
  import opened Route
  import Paths

  // ---------------------------------------------------------------- the configuration

  /** A router sends the requests for a host, received at an entry point, to a service. */
  datatype Router = Router(name: Text, entry: Text, host: Text, service: Text)

  /** A service has one server here. */
  datatype Service = Service(name: Text, url: Text)

  /** What stands between two fixed texts on a line. */
  function Between(line: Text, before: Text, after: Text): Option<Text> {
    if |before| + |after| <= |line| && line[..|before|] == before && line[|line| - |after|..] == after
    then Some(line[|before|..|line| - |after|]) else None
  }

  lemma BetweenOf(before: Text, x: Text, after: Text)
    ensures Between(before + x + after, before, after) == Some(x)
  {
    var line := before + x + after;
    assert line[..|before|] == before && line[|line| - |after|..] == after && line[|before|..|line| - |after|] == x;
  }

  /** The five lines of a router. */
  function ReadRouter(lines: seq<Text>): Option<Router>
    requires |lines| == 5
  {
    match (Between(lines[0], Lit("    "), Lit(":")), Between(lines[2], Lit("        - "), []),
           Between(lines[3], Lit("      rule: \"Host(`"), Lit("`)\"")), Between(lines[4], Lit("      service: "), []))
    case (Some(name), Some(entry), Some(host), Some(service)) =>
      if lines[1] == Lit("      entryPoints:") then Some(Router(name, entry, host, service)) else None
    case _ => None
  }

  /** The four lines of a service. */
  function ReadService(lines: seq<Text>): Option<Service>
    requires |lines| == 4
  {
    match (Between(lines[0], Lit("    "), Lit(":")), Between(lines[3], Lit("          - url: \""), Lit("\"")))
    case (Some(name), Some(url)) =>
      if lines[1] == Lit("      loadBalancer:") && lines[2] == Lit("        servers:") then Some(Service(name, url)) else None
    case _ => None
  }

  /** The configuration below the metadata line: one router and one service. */
  function ReadConfiguration(body: Text): Option<(Router, Service)> {
    var lines := Paths.SplitOn(body, NEWLINE);
    if |lines| != 13 || lines[12] != [] then None
    else if lines[0] != Lit("http:") || lines[1] != Lit("  routers:") || lines[7] != Lit("  services:") then None
    else match (ReadRouter(lines[2..7]), ReadService(lines[8..12]))
      case (Some(router), Some(service)) => Some((router, service))
      case _ => None
  }

  /** Where the gateway sends a request that comes in at an entry point for a host. */
  function Forwards(body: Text, entry: Text, host: Text): Option<Text> {
    match ReadConfiguration(body)
    case None => None
    case Some((router, service)) =>
      if router.entry == entry && router.host == host && router.service == service.name then Some(service.url) else None
  }

  lemma RouterLines(r: PreviewRoute)
    ensures ReadRouter(BodyLines(r)[2..7]) == Some(Router(Name(r), Lit("web"), r.hostname, Name(r)))
  {
    var lines := BodyLines(r)[2..7];
    assert Lit(":") == [COLON];
    BetweenOf(Lit("    "), Name(r), Lit(":"));
    assert lines[2] == Lit("        - ") + Lit("web") + [];
    BetweenOf(Lit("        - "), Lit("web"), []);
    BetweenOf(Lit("      rule: \"Host(`"), r.hostname, Lit("`)\""));
    assert lines[4] == Lit("      service: ") + Name(r) + [];
    BetweenOf(Lit("      service: "), Name(r), []);
  }

  lemma ServiceLines(r: PreviewRoute)
    ensures ReadService(BodyLines(r)[8..12]) == Some(Service(Name(r), Lit("http://") + r.networkAlias + Lit(":") + Decimal(r.port)))
  {
    var lines := BodyLines(r)[8..12];
    var url := Lit("http://") + r.networkAlias + Lit(":") + Decimal(r.port);
    assert Lit(":") == [COLON];
    BetweenOf(Lit("    "), Name(r), Lit(":"));
    assert Lit("          - url: \"http://") == Lit("          - url: \"") + Lit("http://");
    assert lines[3] == Lit("          - url: \"") + url + Lit("\"");
    BetweenOf(Lit("          - url: \""), url, Lit("\""));
  }

  /** A route file makes the gateway send exactly the requests for the route's hostname to the route's
      port of the container, under the alias in the route. */
  lemma RoutesItsHost(r: PreviewRoute, lib: Library, entry: Text, host: Text)
    requires Valid(r, lib)
    ensures Forwards(Body(r), entry, host)
            == if entry == Lit("web") && host == r.hostname
               then Some(Lit("http://") + r.networkAlias + Lit(":") + Decimal(r.port)) else None
  {
    var lines := BodyLines(r) + [[]];
    BodySplits(r, lib);
    RouterLines(r);
    ServiceLines(r);
    assert lines[2..7] == BodyLines(r)[2..7] && lines[8..12] == BodyLines(r)[8..12];
  }

  // ---------------------------------------------------------------- the metadata

  /** The value that a key has in the metadata line. */
  function FieldOf(content: Text, key: Text): Option<Value> {
    var prefix := Lit("# remote-worktree-runner-preview: ");
    var end := FirstOf(content, NEWLINE);
    if end < |prefix| || content[..|prefix|] != prefix then None
    else match ReadObject(content[|prefix|..end])
      case None => None
      case Some((ms, _)) => Lookup(ms, key)
  }

  lemma FieldRead(r: PreviewRoute, i: nat)
    requires i < |KEYS|
    ensures FieldOf(Render(r), KEYS[i]) == Some(Values(JoinRoute(r))[i])
  {
    var o := PrintObject(ToMembers(r));
    RenderSplits(r);
    assert Render(r)[..|Prefix()|] == Prefix() && Render(r)[|Prefix()|..|Metadata(r)|] == o;
    ReadPrintedObject(ToMembers(r));
    JoinedMembers(r);
    MembersLookup(JoinRoute(r));
  }

  /** Every field stands in the metadata under its own name, as a JSON reader finds it. */
  lemma FieldsAreNamed(r: PreviewRoute, lib: Library)
    requires Valid(r, lib)
    ensures var field := (key: string) => FieldOf(Render(r), Lit(key));
            && field("slot") == Some(Str(r.slot)) && field("hostname") == Some(Str(r.hostname))
            && field("repository") == Some(Str(r.repository)) && field("job_id") == Some(Str(r.jobId))
            && field("project") == Some(Str(r.project)) && field("service") == Some(Str(r.service))
            && field("container_id") == Some(Str(r.containerId)) && field("network_alias") == Some(Str(r.networkAlias))
            && field("port") == Some(Num(r.port)) && field("check_path") == Some(Str(Join(r.checkPath)))
            && field("published_at") == Some(Str(Join(r.publishedAt)))
  {
    JoinedRoute(r, lib);
    forall i: nat | i < |KEYS|
      ensures FieldOf(Render(r), KEYS[i]) == Some(Values(JoinRoute(r))[i])
    {
      FieldRead(r, i);
    }
    var v := Values(JoinRoute(r));
    assert FieldOf(Render(r), KEYS[0]) == Some(v[0]) && FieldOf(Render(r), KEYS[1]) == Some(v[1]);
    assert FieldOf(Render(r), KEYS[2]) == Some(v[2]) && FieldOf(Render(r), KEYS[3]) == Some(v[3]);
    assert FieldOf(Render(r), KEYS[4]) == Some(v[4]) && FieldOf(Render(r), KEYS[5]) == Some(v[5]);
    assert FieldOf(Render(r), KEYS[6]) == Some(v[6]) && FieldOf(Render(r), KEYS[7]) == Some(v[7]);
    assert FieldOf(Render(r), KEYS[8]) == Some(v[8]) && FieldOf(Render(r), KEYS[9]) == Some(v[9]);
    assert FieldOf(Render(r), KEYS[10]) == Some(v[10]);
  }

  // ---------------------------------------------------------------- names

  /** An identifier is one component of a path, of a host name and of a container name at once: up to 63
      lower-case letters, digits and inner or final hyphens, nothing else. */
  lemma IdentifiersArePlain(t: Text)
    ensures Identifier(t) <==>
            && t != [] && |t| < 64 && t[0] != 45
            && forall c :: c in t ==> c == 45 || (c in Lit("0123456789")) || c in Lit("abcdefghijklmnopqrstuvwxyz")
    ensures Identifier(t) ==> |Paths.SplitOn(t, 47)| == 1 && |Paths.SplitOn(t, 46)| == 1
  {
    DigitsAndLetters();
    assert t != [] ==> t[0] in t;
    assert forall c: Code :: Hyphenated(c) <==> c == 45 || (c in Lit("0123456789")) || c in Lit("abcdefghijklmnopqrstuvwxyz");
    if Identifier(t) {
      Paths.SplitClean(t, 47);
      Paths.SplitClean(t, 46);
    }
  }

  lemma DigitsAndLetters()
    ensures forall c: Code :: c in Lit("0123456789") <==> 48 <= c <= 57
    ensures forall c: Code :: c in Lit("abcdefghijklmnopqrstuvwxyz") <==> 97 <= c <= 122
  {
    var d, l := Lit("0123456789"), Lit("abcdefghijklmnopqrstuvwxyz");
    assert forall i: nat :: i < 10 ==> d[i] == 48 + i;
    assert forall i: nat :: i < 26 ==> l[i] == 97 + i;
    forall c: Code | 48 <= c <= 57
      ensures c in d
    {
      assert d[c - 48] == c;
    }
    forall c: Code | 97 <= c <= 122
      ensures c in l
    {
      assert l[c - 97] == c;
    }
  }

  // ---------------------------------------------------------------- escapes

  /** The escapes are those of JSON: the seven short ones, four lower-case digits for another code unit,
      a surrogate pair beyond the first plane, and every other printable ASCII character as it is. */
  lemma StandardEscapes(c: Code)
    ensures Escape(8) == Lit("\\b") && Escape(9) == Lit("\\t") && Escape(10) == Lit("\\n") && Escape(12) == Lit("\\f")
    ensures Escape(13) == Lit("\\r") && Escape(34) == Lit("\\\"") && Escape(92) == Lit("\\\\")
    ensures Escape(0xe9) == Lit("\\u00e9") && Escape(0x1f6ab) == Lit("\\ud83d\\udeab")
    ensures 0x20 <= c <= 0x7e && c != 34 && c != 92 ==> Escape(c) == [c]
  {
    assert Escape(0xe9) == Unit(0xe9) == [92, 117, 48, 48, 101, 57];
    assert HighOf(0x1f6ab) == 0xd83d && LowOf(0x1f6ab) == 0xdeab;
    assert Unit(0xd83d) == [92, 117, 100, 56, 51, 100] && Unit(0xdeab) == [92, 117, 100, 101, 97, 98];
  }
}
