// Many inbounds behind a platform's one HTTP port: which of them can be served,
// what the core binds for each, and which one a request path belongs to.
module PaasPaths {
  import opened Numerals
  import opened IpKeys
  import opened InboundModel

  // `h3` says TLS offers HTTP/3 and nothing else.
  datatype Security = Plain | Secured(settings: string, h3: bool)

  datatype Node = Node(id: nat, protocol: Protocol, network: Network, path: string, brookMode: BrookMode,
                       brookPath: string, address: string, port: int, security: Security)

  datatype Platform = Platform(tcpPorts: seq<int>, udpPorts: seq<int>, cdnFronted: bool, fly: bool, udpBindHost: string)

  datatype Reason =
    | BrookOverCdn | BrookQuic | BrookPlain | UpgradeOverCdn | NoPath | NeedsHttp2 | NeedsUdp(fly: bool)
    | NeedsTcpPort(fly: bool) | PathTaken(owner: nat)

  datatype Serving = ByPath(path: string) | OwnPort | Not(why: Reason)

  const PAAS_PORT_BASE: int := 39000

  predicate IsUDPProtocol(p: Protocol) { p == Hysteria2 || p == TUIC || p == WireGuard || p == AmneziaWG }

  predicate NeedsUDP(n: Node) { IsUDPProtocol(n.protocol) || n.network == QUIC || n.network == MKCP }

  predicate RoutesOwnPort(pa: Platform, n: Node) {
    if NeedsUDP(n) then n.port in pa.udpPorts else n.port in pa.tcpPorts
  }

  function Rooted(p: string): (r: string)
    ensures r != "" && r[0] == '/'
  {
    if p != "" && p[0] == '/' then p else "/" + p
  }

  function BrookRoutable(n: Node): Serving {
    match n.brookMode
    case WsServer => ByPath(Rooted(if n.brookPath == "" then "/ws" else n.brookPath))
    case WssServer => ByPath(Rooted(if n.brookPath == "" then "/ws" else n.brookPath))
    case QuicServer => Not(BrookQuic)
    case OtherMode => Not(BrookPlain)
  }

  function PathOrNot(n: Node): Serving {
    var p := TrimSpace(n.path);
    if p == "" then Not(NoPath) else ByPath(Rooted(p))
  }

  function Routable(pa: Platform, n: Node): (r: Serving)
    ensures r.OwnPort? <==> RoutesOwnPort(pa, n)
    ensures r.ByPath? ==> r.path != "" && r.path[0] == '/'
    ensures r.Not? ==> !r.why.PathTaken?
  {
    if RoutesOwnPort(pa, n) then OwnPort
    else if n.protocol == Brook then
      (var r := BrookRoutable(n);
       if r.ByPath? && pa.cdnFronted then Not(BrookOverCdn) else r)
    else if pa.cdnFronted && n.network == HTTPUpgrade then Not(UpgradeOverCdn)
    else
      match n.network
      case WS => PathOrNot(n)
      case HTTPUpgrade => PathOrNot(n)
      case XHTTP => PathOrNot(n)
      case GRPC => Not(NeedsHttp2)
      case H2 => Not(NeedsHttp2)
      case QUIC => Not(NeedsUdp(pa.fly))
      case MKCP => Not(NeedsUdp(pa.fly))
      case Raw => if IsUDPProtocol(n.protocol) then Not(NeedsUdp(pa.fly)) else Not(NeedsTcpPort(pa.fly))
  }

  // What the core binds for a path-routed inbound.
  function EngineNode(n: Node, port: int): Node {
    n.(address := "127.0.0.1", port := port, security := Plain,
       brookMode := if n.protocol == Brook && n.brookMode == WssServer then WsServer else n.brookMode)
  }

  // What it binds where the platform routes the inbound's own port to it.
  function OwnNode(pa: Platform, n: Node): Node {
    if pa.udpBindHost != "" && NeedsUDP(n) then n.(address := pa.udpBindHost) else n
  }

  // The copy a core is given for a path-routed inbound answers on the path the
  // route leads to, on loopback, and never in TLS, which ended at the edge.
  lemma TheCoreServesTheRoutedPath(n: Node, port: int)
    ensures var m := EngineNode(n, port);
            && m.address == "127.0.0.1" && m.port == port && m.security.Plain?
            && (n.protocol == Brook ==> BrookRoutable(m) == BrookRoutable(n) && m.brookMode != WssServer)
            && PathOrNot(m) == PathOrNot(n)
            && m.(address := n.address, port := n.port, security := n.security, brookMode := n.brookMode) == n
  {
  }

  datatype Route = Route(prefix: string, port: int, id: nat)

  datatype Skipped = Skipped(id: nat, why: Reason)

  // An inbound handed to the cores, with or without its certificate.
  datatype Spec = Spec(node: Node, cert: bool)

  datatype Table = Table(specs: seq<Spec>, routes: seq<Route>, skipped: seq<Skipped>)

  predicate Claims(pa: Platform, n: Node, path: string) { Routable(pa, n) == ByPath(path) }

  // The first of the first k rows that is served on a path.
  function Taker(pa: Platform, all: seq<Node>, k: nat, path: string): (r: Option<nat>)
    requires k <= |all|
    ensures r.Some? ==> r.value < k && Claims(pa, all[r.value], path)
    ensures r.Some? ==> forall j :: 0 <= j < r.value ==> !Claims(pa, all[j], path)
    ensures r.None? ==> forall j :: 0 <= j < k ==> !Claims(pa, all[j], path)
  {
    if k == 0 then None
    else
      var earlier := Taker(pa, all, k - 1, path);
      if earlier.Some? then earlier
      else if Claims(pa, all[k - 1], path) then Some(k - 1) else None
  }

  // How the i-th row ends.
  function Fate(pa: Platform, all: seq<Node>, i: nat): Serving
    requires i < |all|
  {
    var r := Routable(pa, all[i]);
    if r.ByPath? && Taker(pa, all, i, r.path).Some? then
      Not(PathTaken(all[Taker(pa, all, i, r.path).value].id))
    else r
  }

  function Fates(pa: Platform, all: seq<Node>): (fs: seq<Serving>)
    ensures |fs| == |all| && forall i :: 0 <= i < |all| ==> fs[i] == Fate(pa, all, i)
  {
    seq(|all|, i requires 0 <= i < |all| => Fate(pa, all, i))
  }

  // What one row adds to each list.
  function SpecsAdded(pa: Platform, n: Node, i: nat, end: Serving): seq<Spec> {
    match end
    case OwnPort => [Spec(OwnNode(pa, n), true)]
    case ByPath(_) => [Spec(EngineNode(n, PAAS_PORT_BASE + i), false)]
    case Not(_) => []
  }

  function RoutesAdded(n: Node, i: nat, end: Serving): seq<Route> {
    if end.ByPath? then [Route(end.path, PAAS_PORT_BASE + i, n.id)] else []
  }

  function SkipsAdded(n: Node, end: Serving): seq<Skipped> {
    if end.Not? then [Skipped(n.id, end.why)] else []
  }

  function SpecsUpTo(pa: Platform, all: seq<Node>, fates: seq<Serving>, k: nat): seq<Spec>
    requires k <= |all| == |fates|
  {
    if k == 0 then [] else SpecsUpTo(pa, all, fates, k - 1) + SpecsAdded(pa, all[k - 1], k - 1, fates[k - 1])
  }

  function RoutesUpTo(all: seq<Node>, fates: seq<Serving>, k: nat): seq<Route>
    requires k <= |all| == |fates|
  {
    if k == 0 then [] else RoutesUpTo(all, fates, k - 1) + RoutesAdded(all[k - 1], k - 1, fates[k - 1])
  }

  function SkipsUpTo(all: seq<Node>, fates: seq<Serving>, k: nat): seq<Skipped>
    requires k <= |all| == |fates|
  {
    if k == 0 then [] else SkipsUpTo(all, fates, k - 1) + SkipsAdded(all[k - 1], fates[k - 1])
  }

  function Laid(pa: Platform, all: seq<Node>, fates: seq<Serving>): Table
    requires |all| == |fates|
  {
    Table(SpecsUpTo(pa, all, fates, |all|), RoutesUpTo(all, fates, |all|), SkipsUpTo(all, fates, |all|))
  }

  // The table before its routes are sorted.
  function TableOf(pa: Platform, all: seq<Node>): Table { Laid(pa, all, Fates(pa, all)) }

  predicate Longer(a: Route, b: Route) { |a.prefix| >= |b.prefix| }

  predicate LongestFirst(rs: seq<Route>) { forall i, j :: 0 <= i < j < |rs| ==> Longer(rs[i], rs[j]) }

  // Later routes go after earlier ones of the same length.
  function Inserted(rs: seq<Route>, r: Route): (xs: seq<Route>)
    ensures multiset(xs) == multiset(rs) + multiset{r}
  {
    if rs != [] && !Longer(rs[|rs| - 1], r) then
      (assert rs == rs[..|rs| - 1] + [rs[|rs| - 1]];
       Inserted(rs[..|rs| - 1], r) + [rs[|rs| - 1]])
    else rs + [r]
  }

  function ByLength(rs: seq<Route>): (xs: seq<Route>)
    ensures multiset(xs) == multiset(rs)
  {
    if rs == [] then []
    else
      assert rs == rs[..|rs| - 1] + [rs[|rs| - 1]];
      Inserted(ByLength(rs[..|rs| - 1]), rs[|rs| - 1])
  }

  lemma SameElements(xs: seq<Route>, ys: seq<Route>)
    requires multiset(xs) == multiset(ys)
    ensures forall r :: r in xs <==> r in ys
  {
    forall r
      ensures r in xs <==> r in ys
    {
      assert r in xs <==> r in multiset(xs);
      assert r in ys <==> r in multiset(ys);
    }
  }

  lemma {:induction false} InsertedSorts(rs: seq<Route>, r: Route)
    requires LongestFirst(rs)
    ensures LongestFirst(Inserted(rs, r))
  {
    if rs != [] && !Longer(rs[|rs| - 1], r) {
      var front, last := rs[..|rs| - 1], rs[|rs| - 1];
      InsertedSorts(front, r);
      var xs := Inserted(front, r);
      SameElements(xs, front + [r]);
      forall i | 0 <= i < |xs|
        ensures Longer(xs[i], last)
      {
        assert xs[i] in front + [r];
        var k :| 0 <= k < |front + [r]| && (front + [r])[k] == xs[i];
      }
    }
  }

  lemma {:induction false} ByLengthSorts(rs: seq<Route>)
    ensures LongestFirst(ByLength(rs))
  {
    if rs != [] {
      ByLengthSorts(rs[..|rs| - 1]);
      InsertedSorts(ByLength(rs[..|rs| - 1]), rs[|rs| - 1]);
    }
  }

  method SortByLength(rs: seq<Route>) returns (out: seq<Route>)
    ensures out == ByLength(rs)
    ensures LongestFirst(out) && multiset(out) == multiset(rs)
  {
    out := [];
    var i := 0;
    while i < |rs|
      invariant 0 <= i <= |rs| && out == ByLength(rs[..i])
    {
      assert rs[..i + 1][..i] == rs[..i];
      out := Inserted(out, rs[i]);
      i := i + 1;
    }
    assert rs[..|rs|] == rs;
    ByLengthSorts(rs);
  }

  // The table of paths already given out names the row that has each.
  ghost predicate Recorded(pa: Platform, all: seq<Node>, k: nat, taken: map<string, nat>)
    requires k <= |all|
  {
    && (forall p :: p in taken <==> Taker(pa, all, k, p).Some?)
    && (forall p :: p in taken ==> taken[p] == all[Taker(pa, all, k, p).value].id)
  }

  method Decide(pa: Platform, all: seq<Node>, i: nat, taken: map<string, nat>)
    returns (end: Serving, next: map<string, nat>)
    requires i < |all| && Recorded(pa, all, i, taken)
    ensures end == Fates(pa, all)[i] && Recorded(pa, all, i + 1, next)
  {
    end, next := Routable(pa, all[i]), taken;
    if end.ByPath? {
      if end.path in taken {
        end := Not(PathTaken(taken[end.path]));
      } else {
        next := taken[end.path := all[i].id];
      }
    }
  }

  lemma NothingRecorded(pa: Platform, all: seq<Node>)
    ensures Recorded(pa, all, 0, map[])
  {
  }

  method PaasSpecs(pa: Platform, all: seq<Node>) returns (t: Table)
    ensures t == TableOf(pa, all).(routes := ByLength(TableOf(pa, all).routes))
  {
    var specs: seq<Spec>, routes: seq<Route>, skipped: seq<Skipped> := [], [], [];
    var taken: map<string, nat> := map[];
    NothingRecorded(pa, all);
    ghost var fates := Fates(pa, all);
    var i := 0;
    while i < |all|
      invariant 0 <= i <= |all| == |fates|
      invariant Recorded(pa, all, i, taken)
      invariant specs == SpecsUpTo(pa, all, fates, i)
      invariant routes == RoutesUpTo(all, fates, i)
      invariant skipped == SkipsUpTo(all, fates, i)
    {
      var end;
      end, taken := Decide(pa, all, i, taken);
      specs := specs + SpecsAdded(pa, all[i], i, end);
      routes := routes + RoutesAdded(all[i], i, end);
      skipped := skipped + SkipsAdded(all[i], end);
      i := i + 1;
    }
    routes := SortByLength(routes);
    t := Table(specs, routes, skipped);
  }

  function TrimSlash(p: string): string { if p != "" && p[|p| - 1] == '/' then p[..|p| - 1] else p }

  predicate HasPrefix(s: string, p: string) { |p| <= |s| && s[..|p|] == p }

  // The prefix covers the path at a segment boundary.
  predicate Covers(prefix: string, path: string) { path == prefix || HasPrefix(path, TrimSlash(prefix) + "/") }

  method Match(routes: seq<Route>, path: string) returns (r: Option<Route>)
    ensures r == FirstCovering(routes, path)
  {
    var i := 0;
    while i < |routes|
      invariant 0 <= i <= |routes|
      invariant FirstCovering(routes, path) == FirstCovering(routes[i..], path)
    {
      if Covers(routes[i].prefix, path) { return Some(routes[i]); }
      assert routes[i..][1..] == routes[i + 1..];
      i := i + 1;
    }
    return None;
  }

  function FirstCovering(routes: seq<Route>, path: string): (r: Option<Route>)
    ensures r.Some? ==> r.value in routes && Covers(r.value.prefix, path)
    ensures r.None? ==> forall k :: 0 <= k < |routes| ==> !Covers(routes[k].prefix, path)
  {
    if routes == [] then None
    else if Covers(routes[0].prefix, path) then Some(routes[0])
    else FirstCovering(routes[1..], path)
  }

  // --- which inbound a path belongs to ---

  lemma CoversMeansPrefix(prefix: string, path: string)
    requires Covers(prefix, path)
    ensures HasPrefix(path, prefix)
  {
    if path != prefix && TrimSlash(prefix) == prefix {
      assert path[..|prefix|] == (prefix + "/")[..|prefix|] == prefix;
    }
  }

  predicate DistinctPrefixes(rs: seq<Route>) {
    forall i, j :: 0 <= i < j < |rs| ==> rs[i].prefix != rs[j].prefix
  }

  // The longest registered prefix that covers the path, if any does.
  predicate Longest(rs: seq<Route>, path: string, r: Option<Route>) {
    match r
    case None => forall q :: q in rs ==> !Covers(q.prefix, path)
    case Some(x) =>
      x in rs && Covers(x.prefix, path)
      && forall q :: q in rs && q != x && Covers(q.prefix, path) ==> |q.prefix| < |x.prefix|
  }

  lemma {:induction false} FirstIsLongest(rs: seq<Route>, path: string)
    requires LongestFirst(rs) && DistinctPrefixes(rs)
    ensures Longest(rs, path, FirstCovering(rs, path))
  {
    if rs != [] {
      if Covers(rs[0].prefix, path) {
        CoversMeansPrefix(rs[0].prefix, path);
        forall q | q in rs && q != rs[0] && Covers(q.prefix, path)
          ensures |q.prefix| < |rs[0].prefix|
        {
          var k :| 0 <= k < |rs| && rs[k] == q;
          CoversMeansPrefix(q.prefix, path);
          assert Longer(rs[0], rs[k]);
        }
      } else {
        FirstIsLongest(rs[1..], path);
        assert forall q :: q in rs <==> q == rs[0] || q in rs[1..];
      }
    }
  }

  lemma LongestIsOne(rs: seq<Route>, path: string, a: Option<Route>, b: Option<Route>)
    requires Longest(rs, path, a) && Longest(rs, path, b)
    ensures a == b
  {
  }

  lemma TwiceIsTwo(rs: seq<Route>, i: nat, j: nat)
    requires i < j < |rs| && rs[i] == rs[j]
    ensures multiset(rs)[rs[i]] >= 2
  {
    assert rs == rs[..j] + [rs[j]] + rs[j + 1..];
    assert rs[..j] == rs[..i] + [rs[i]] + rs[i + 1..j];
  }

  lemma OnceIsOne(rs: seq<Route>, r: Route)
    requires DistinctPrefixes(rs)
    ensures multiset(rs)[r] <= 1
  {
    if r in rs {
      var a :| 0 <= a < |rs| && rs[a] == r;
      assert rs == rs[..a] + [rs[a]] + rs[a + 1..];
      assert rs[a] !in rs[..a] && rs[a] !in rs[a + 1..];
    }
  }

  lemma SamePrefixes(rs: seq<Route>, qs: seq<Route>)
    requires multiset(rs) == multiset(qs) && DistinctPrefixes(rs)
    ensures DistinctPrefixes(qs)
  {
    SameElements(rs, qs);
    forall i, j | 0 <= i < j < |qs|
      ensures qs[i].prefix != qs[j].prefix
    {
      OnceIsOne(rs, qs[i]);
      if qs[i] == qs[j] {
        TwiceIsTwo(qs, i, j);
        assert false;
      }
      PrefixTellsRoutesApart(rs, qs[i], qs[j]);
    }
  }

  lemma PrefixTellsRoutesApart(rs: seq<Route>, a: Route, b: Route)
    requires DistinctPrefixes(rs) && a in rs && b in rs && a != b
    ensures a.prefix != b.prefix
  {
    var i :| 0 <= i < |rs| && rs[i] == a;
    var j :| 0 <= j < |rs| && rs[j] == b;
  }

  lemma LookupOne(rs: seq<Route>, qs: seq<Route>, path: string)
    requires DistinctPrefixes(rs) && multiset(rs) == multiset(qs)
    ensures Longest(rs, path, FirstCovering(ByLength(qs), path))
  {
    var xs := ByLength(qs);
    ByLengthSorts(qs);
    SamePrefixes(rs, xs);
    FirstIsLongest(xs, path);
    SameElements(rs, xs);
  }

  // A request goes to the longest registered prefix that covers its path,
  // whatever order the routes were registered in.
  lemma LookupIsLongestPrefix(rs: seq<Route>, qs: seq<Route>, path: string)
    requires DistinctPrefixes(rs) && multiset(rs) == multiset(qs)
    ensures Longest(rs, path, FirstCovering(ByLength(rs), path))
    ensures FirstCovering(ByLength(qs), path) == FirstCovering(ByLength(rs), path)
  {
    LookupOne(rs, rs, path);
    LookupOne(rs, qs, path);
    LongestIsOne(rs, path, FirstCovering(ByLength(rs), path), FirstCovering(ByLength(qs), path));
  }

  // Each route answers its own path, however its neighbours nest.
  lemma OwnPathReaches(rs: seq<Route>, r: Route)
    requires DistinctPrefixes(rs) && r in rs
    ensures FirstCovering(ByLength(rs), r.prefix) == Some(r)
  {
    LookupOne(rs, rs, r.prefix);
    forall q | q in rs && q != r && Covers(q.prefix, r.prefix)
      ensures |q.prefix| < |r.prefix|
    {
      CoversMeansPrefix(q.prefix, r.prefix);
      PrefixTellsRoutesApart(rs, q, r);
      assert r.prefix[..|r.prefix|] == r.prefix;
    }
    LongestIsOne(rs, r.prefix, FirstCovering(ByLength(rs), r.prefix), Some(r));
  }

  function Below(prefix: string): string { TrimSlash(prefix) + "/" }

  predicate Gets(rs: seq<Route>, r: Route, path: string) { FirstCovering(ByLength(rs), path) == Some(r) }

  lemma NothingNestedBelow(rs: seq<Route>, r: Route, rest: string)
    requires DistinctPrefixes(rs) && r in rs
    requires forall q :: q in rs && q != r ==> !HasPrefix(q.prefix, Below(r.prefix))
    ensures Gets(rs, r, Below(r.prefix) + rest)
  {
    var base := Below(r.prefix);
    var path := base + rest;
    assert path[..|base|] == base;
    assert Covers(r.prefix, path);
    forall q | q in rs && q != r && Covers(q.prefix, path)
      ensures |q.prefix| < |r.prefix|
    {
      NotNestedIsShorter(r.prefix, q.prefix, path);
      PrefixTellsRoutesApart(rs, q, r);
    }
    LookupOne(rs, rs, path);
    LongestIsOne(rs, path, FirstCovering(ByLength(rs), path), Some(r));
  }

  lemma PrefixesOfOne(q: string, base: string, path: string)
    requires HasPrefix(path, q) && HasPrefix(path, base)
    ensures |q| >= |base| ==> HasPrefix(q, base)
  {
    assert forall k :: 0 <= k < |q| ==> q[k] == path[k];
    assert forall k :: 0 <= k < |base| ==> base[k] == path[k];
  }

  lemma NotNestedIsShorter(p: string, q: string, path: string)
    requires HasPrefix(path, Below(p)) && Covers(p, path) && Covers(q, path) && !HasPrefix(q, Below(p))
    ensures |q| < |p| || q == p
  {
    CoversMeansPrefix(p, path);
    CoversMeansPrefix(q, path);
    PrefixesOfOne(q, Below(p), path);
    PrefixesOfOne(q, p, path);
    PrefixesOfOne(p, q, path);
    assert |p| <= |Below(p)| <= |p| + 1;
  }

  predicate Nested(q: Route, r: Route) { q != r && HasPrefix(q.prefix, Below(r.prefix)) }

  // Every path below its own reaches it exactly when no other route is
  // registered below it. Two paths that differ in a closing slash are both
  // accepted, and the one with the slash takes everything below the other.
  lemma SessionsReachIff(rs: seq<Route>, r: Route)
    requires DistinctPrefixes(rs) && r in rs
    ensures (forall rest :: Gets(rs, r, Below(r.prefix) + rest)) <==> forall q :: q in rs ==> !Nested(q, r)
  {
    if forall q :: q in rs ==> !Nested(q, r) {
      forall rest
        ensures Gets(rs, r, Below(r.prefix) + rest)
      {
        assert forall q :: q in rs && q != r ==> !HasPrefix(q.prefix, Below(r.prefix)) by {
          forall q | q in rs && q != r ensures !HasPrefix(q.prefix, Below(r.prefix)) { assert !Nested(q, r); }
        }
        NothingNestedBelow(rs, r, rest);
      }
    } else {
      var q :| q in rs && Nested(q, r);
      NestedTakes(rs, r, q);
    }
  }

  lemma NestedTakes(rs: seq<Route>, r: Route, q: Route)
    requires DistinctPrefixes(rs) && r in rs && q in rs && Nested(q, r)
    ensures exists rest :: !Gets(rs, r, Below(r.prefix) + rest)
  {
    var rest := q.prefix[|Below(r.prefix)|..];
    assert Below(r.prefix) + rest == q.prefix;
    OwnPathReaches(rs, q);
    assert !Gets(rs, r, Below(r.prefix) + rest);
  }

  lemma ASlashTakesWhatIsBelow(p: string, a: nat, b: nat, m: int, n: int)
    requires p != "" && p[|p| - 1] != '/'
    ensures Nested(Route(p + "/", m, a), Route(p, n, b))
  {
    assert (p + "/")[..|p + "/"|] == p + "/";
  }

  // --- where each inbound ends ---

  function RouteOf(all: seq<Node>, fates: seq<Serving>, i: nat): Route
    requires i < |all| == |fates| && fates[i].ByPath?
  {
    Route(fates[i].path, PAAS_PORT_BASE + i, all[i].id)
  }

  function SpecOf(pa: Platform, all: seq<Node>, fates: seq<Serving>, i: nat): Spec
    requires i < |all| == |fates| && !fates[i].Not?
  {
    if fates[i].OwnPort? then Spec(OwnNode(pa, all[i]), true) else Spec(EngineNode(all[i], PAAS_PORT_BASE + i), false)
  }

  function SkipOf(all: seq<Node>, fates: seq<Serving>, i: nat): Skipped
    requires i < |all| == |fates| && fates[i].Not?
  {
    Skipped(all[i].id, fates[i].why)
  }

  function Rising(r: seq<nat>, x: nat): (s: seq<nat>)
    requires forall m, n :: 0 <= m < n < |r| ==> r[m] < r[n]
    requires forall y :: y in r ==> y < x
    ensures s == r + [x] && forall m, n :: 0 <= m < n < |s| ==> s[m] < s[n]
  {
    assert forall m :: 0 <= m < |r| ==> r[m] in r;
    r + [x]
  }

  // The rows, in order, that end on a path, are served at all, or are refused.
  function Pathed(fates: seq<Serving>, k: nat): (r: seq<nat>)
    requires k <= |fates|
    ensures forall x: nat :: x in r <==> x < k && fates[x].ByPath?
    ensures forall m, n :: 0 <= m < n < |r| ==> r[m] < r[n]
  {
    if k == 0 then []
    else if fates[k - 1].ByPath? then Rising(Pathed(fates, k - 1), k - 1) else Pathed(fates, k - 1)
  }

  function Served(fates: seq<Serving>, k: nat): (r: seq<nat>)
    requires k <= |fates|
    ensures forall x: nat :: x in r <==> x < k && !fates[x].Not?
    ensures forall m, n :: 0 <= m < n < |r| ==> r[m] < r[n]
  {
    if k == 0 then []
    else if !fates[k - 1].Not? then Rising(Served(fates, k - 1), k - 1) else Served(fates, k - 1)
  }

  function Refused(fates: seq<Serving>, k: nat): (r: seq<nat>)
    requires k <= |fates|
    ensures forall x: nat :: x in r <==> x < k && fates[x].Not?
    ensures forall m, n :: 0 <= m < n < |r| ==> r[m] < r[n]
  {
    if k == 0 then []
    else if fates[k - 1].Not? then Rising(Refused(fates, k - 1), k - 1) else Refused(fates, k - 1)
  }

  predicate RoutesLaid(all: seq<Node>, fates: seq<Serving>, rows: seq<nat>, rs: seq<Route>)
    requires |all| == |fates| && forall x :: x in rows ==> x < |all| && fates[x].ByPath?
  {
    |rs| == |rows| && forall m :: 0 <= m < |rows| ==> rs[m] == (assert rows[m] in rows; RouteOf(all, fates, rows[m]))
  }

  predicate SpecsLaid(pa: Platform, all: seq<Node>, fates: seq<Serving>, rows: seq<nat>, specs: seq<Spec>)
    requires |all| == |fates| && forall x :: x in rows ==> x < |all| && !fates[x].Not?
  {
    |specs| == |rows| && forall m :: 0 <= m < |rows| ==>
        specs[m] == (assert rows[m] in rows; SpecOf(pa, all, fates, rows[m]))
  }

  predicate SkipsLaid(all: seq<Node>, fates: seq<Serving>, rows: seq<nat>, skips: seq<Skipped>)
    requires |all| == |fates| && forall x :: x in rows ==> x < |all| && fates[x].Not?
  {
    |skips| == |rows| && forall m :: 0 <= m < |rows| ==>
        skips[m] == (assert rows[m] in rows; SkipOf(all, fates, rows[m]))
  }

  lemma AppendRoutes(all: seq<Node>, fates: seq<Serving>, rows: seq<nat>, xs: seq<Route>, i: nat)
    requires i < |all| == |fates| && fates[i].ByPath?
    requires (forall x :: x in rows ==> x < |all| && fates[x].ByPath?) && RoutesLaid(all, fates, rows, xs)
    ensures RoutesLaid(all, fates, rows + [i], xs + [RouteOf(all, fates, i)])
  {
  }

  lemma {:induction false} RoutesAreLaid(all: seq<Node>, fates: seq<Serving>, k: nat)
    requires k <= |all| == |fates|
    ensures RoutesLaid(all, fates, Pathed(fates, k), RoutesUpTo(all, fates, k))
  {
    if k > 0 {
      RoutesAreLaid(all, fates, k - 1);
      if fates[k - 1].ByPath? {
        assert RoutesUpTo(all, fates, k) == RoutesUpTo(all, fates, k - 1) + [RouteOf(all, fates, k - 1)];
        AppendRoutes(all, fates, Pathed(fates, k - 1), RoutesUpTo(all, fates, k - 1), k - 1);
        assert Pathed(fates, k) == Pathed(fates, k - 1) + [k - 1];
      } else {
        assert RoutesUpTo(all, fates, k) == RoutesUpTo(all, fates, k - 1) && Pathed(fates, k) == Pathed(fates, k - 1);
      }
    }
  }

  lemma AppendSpecs(pa: Platform, all: seq<Node>, fates: seq<Serving>, rows: seq<nat>, xs: seq<Spec>, i: nat)
    requires i < |all| == |fates| && !fates[i].Not?
    requires (forall x :: x in rows ==> x < |all| && !fates[x].Not?) && SpecsLaid(pa, all, fates, rows, xs)
    ensures SpecsLaid(pa, all, fates, rows + [i], xs + [SpecOf(pa, all, fates, i)])
  {
  }

  lemma {:induction false} SpecsAreLaid(pa: Platform, all: seq<Node>, fates: seq<Serving>, k: nat)
    requires k <= |all| == |fates|
    ensures SpecsLaid(pa, all, fates, Served(fates, k), SpecsUpTo(pa, all, fates, k))
  {
    if k > 0 {
      SpecsAreLaid(pa, all, fates, k - 1);
      if !fates[k - 1].Not? {
        assert SpecsUpTo(pa, all, fates, k) == SpecsUpTo(pa, all, fates, k - 1) + [SpecOf(pa, all, fates, k - 1)];
        AppendSpecs(pa, all, fates, Served(fates, k - 1), SpecsUpTo(pa, all, fates, k - 1), k - 1);
        assert Served(fates, k) == Served(fates, k - 1) + [k - 1];
      } else {
        assert SpecsUpTo(pa, all, fates, k) == SpecsUpTo(pa, all, fates, k - 1)
            && Served(fates, k) == Served(fates, k - 1);
      }
    }
  }

  lemma AppendSkipped(all: seq<Node>, fates: seq<Serving>, rows: seq<nat>, xs: seq<Skipped>, i: nat)
    requires i < |all| == |fates| && fates[i].Not?
    requires (forall x :: x in rows ==> x < |all| && fates[x].Not?) && SkipsLaid(all, fates, rows, xs)
    ensures SkipsLaid(all, fates, rows + [i], xs + [SkipOf(all, fates, i)])
  {
  }

  lemma {:induction false} SkipsAreLaid(all: seq<Node>, fates: seq<Serving>, k: nat)
    requires k <= |all| == |fates|
    ensures SkipsLaid(all, fates, Refused(fates, k), SkipsUpTo(all, fates, k))
  {
    if k > 0 {
      SkipsAreLaid(all, fates, k - 1);
      if fates[k - 1].Not? {
        assert SkipsUpTo(all, fates, k) == SkipsUpTo(all, fates, k - 1) + [SkipOf(all, fates, k - 1)];
        AppendSkipped(all, fates, Refused(fates, k - 1), SkipsUpTo(all, fates, k - 1), k - 1);
        assert Refused(fates, k) == Refused(fates, k - 1) + [k - 1];
      } else {
        assert SkipsUpTo(all, fates, k) == SkipsUpTo(all, fates, k - 1) && Refused(fates, k) == Refused(fates, k - 1);
      }
    }
  }

  lemma {:induction false} ServedOrRefused(fates: seq<Serving>, k: nat)
    requires k <= |fates|
    ensures |Served(fates, k)| + |Refused(fates, k)| == k
  {
    if k > 0 { ServedOrRefused(fates, k - 1); }
  }

  // Every inbound ends in exactly one of three ways: a core binds it as it is,
  // a core binds it on a loopback port of its own that one route leads to, or
  // it is skipped with the reason why. Each list keeps the rows' order.
  lemma EveryRowEndsOnce(pa: Platform, all: seq<Node>, fates: seq<Serving>, t: Table)
    requires |fates| == |all| && t == Laid(pa, all, fates)
    ensures RoutesLaid(all, fates, Pathed(fates, |all|), t.routes)
    ensures SpecsLaid(pa, all, fates, Served(fates, |all|), t.specs)
    ensures SkipsLaid(all, fates, Refused(fates, |all|), t.skipped)
    ensures |t.specs| + |t.skipped| == |all|
  {
    RoutesAreLaid(all, fates, |all|);
    SpecsAreLaid(pa, all, fates, |all|);
    SkipsAreLaid(all, fates, |all|);
    ServedOrRefused(fates, |all|);
  }

  // No two path-routed rows have the same path, nor the same loopback port.
  lemma PathsDiffer(pa: Platform, all: seq<Node>, i: nat, j: nat)
    requires i < j < |all| && Fate(pa, all, i).ByPath? && Fate(pa, all, j).ByPath?
    ensures Fate(pa, all, i).path != Fate(pa, all, j).path
  {
    assert Claims(pa, all[i], Fate(pa, all, i).path);
  }

  lemma LaidPrefixesDiffer(pa: Platform, all: seq<Node>, fates: seq<Serving>, rs: seq<Route>)
    requires fates == Fates(pa, all) && RoutesLaid(all, fates, Pathed(fates, |all|), rs)
    ensures DistinctPrefixes(rs)
    ensures forall m, n :: 0 <= m < n < |rs| ==> rs[m].port != rs[n].port
  {
    var rows := Pathed(fates, |all|);
    forall m, n | 0 <= m < n < |rs|
      ensures rs[m].prefix != rs[n].prefix && rs[m].port != rs[n].port
    {
      assert rows[m] in rows && rows[n] in rows && rows[m] < rows[n];
      PathsDiffer(pa, all, rows[m], rows[n]);
    }
  }

  lemma RouteHasARow(all: seq<Node>, fates: seq<Serving>, rs: seq<Route>, r: Route)
    requires |all| == |fates| && RoutesLaid(all, fates, Pathed(fates, |all|), rs) && r in rs
    ensures exists i :: 0 <= i < |all| && fates[i] == ByPath(r.prefix) && r == RouteOf(all, fates, i)
  {
    var m :| 0 <= m < |rs| && rs[m] == r;
    var rows := Pathed(fates, |all|);
    var i := rows[m];
    assert i in rows;
    assert fates[i] == ByPath(r.prefix) && r == RouteOf(all, fates, i);
  }

  lemma RouteIsThere(all: seq<Node>, fates: seq<Serving>, rs: seq<Route>, i: nat)
    requires |all| == |fates| && RoutesLaid(all, fates, Pathed(fates, |all|), rs) && i < |all| && fates[i].ByPath?
    ensures RouteOf(all, fates, i) in rs
  {
    var rows := Pathed(fates, |all|);
    assert i in rows;
    var m :| 0 <= m < |rows| && rows[m] == i;
    assert rs[m] == RouteOf(all, fates, rows[m]);
  }

  lemma SpecIsThere(pa: Platform, all: seq<Node>, fates: seq<Serving>, specs: seq<Spec>, i: nat)
    requires |all| == |fates| && SpecsLaid(pa, all, fates, Served(fates, |all|), specs) && i < |all| && !fates[i].Not?
    ensures SpecOf(pa, all, fates, i) in specs
  {
    var rows := Served(fates, |all|);
    assert i in rows;
    var m :| 0 <= m < |rows| && rows[m] == i;
    assert specs[m] == SpecOf(pa, all, fates, rows[m]);
  }

  // The i-th inbound is the one behind the route.
  predicate Answers(pa: Platform, all: seq<Node>, t: Table, i: nat, r: Route)
    requires i < |all|
  {
    r.id == all[i].id && Claims(pa, all[i], r.prefix) && r.port == PAAS_PORT_BASE + i
    && Spec(EngineNode(all[i], r.port), false) in t.specs
  }

  lemma RouteAnswers(pa: Platform, all: seq<Node>, fates: seq<Serving>, t: Table, r: Route)
    requires fates == Fates(pa, all) && t == Laid(pa, all, fates) && r in t.routes
    ensures exists i :: 0 <= i < |all| && Answers(pa, all, t, i, r)
  {
    EveryRowEndsOnce(pa, all, fates, t);
    RouteHasARow(all, fates, t.routes, r);
    var i :| 0 <= i < |all| && fates[i] == ByPath(r.prefix) && r == RouteOf(all, fates, i);
    SpecIsThere(pa, all, fates, t.specs, i);
    assert Answers(pa, all, t, i, r);
  }

  lemma LookupInTable(pa: Platform, all: seq<Node>, fates: seq<Serving>, t: Table, path: string)
    requires fates == Fates(pa, all) && t == Laid(pa, all, fates)
    ensures Longest(t.routes, path, FirstCovering(ByLength(t.routes), path))
  {
    EveryRowEndsOnce(pa, all, fates, t);
    LaidPrefixesDiffer(pa, all, fates, t.routes);
    LookupOne(t.routes, t.routes, path);
  }

  // The whole of it: a request is answered by the path-routed inbound with the
  // longest path covering it, on the loopback port that inbound's core binds;
  // one that no path covers is the panel's own.
  lemma RequestsReachTheirInbound(pa: Platform, all: seq<Node>, t: Table, path: string, r: Option<Route>)
    requires t == TableOf(pa, all) && r == FirstCovering(ByLength(t.routes), path)
    ensures r.Some? ==> Covers(r.value.prefix, path) && exists i :: 0 <= i < |all| && Answers(pa, all, t, i, r.value)
    ensures forall j :: 0 <= j < |all| && Fates(pa, all)[j].ByPath? && Covers(Fates(pa, all)[j].path, path) ==>
              r.Some? && |Fates(pa, all)[j].path| <= |r.value.prefix|
  {
    var fates := Fates(pa, all);
    LookupInTable(pa, all, fates, t, path);
    if r.Some? { RouteAnswers(pa, all, fates, t, r.value); }
    EveryRowEndsOnce(pa, all, fates, t);
    forall j | 0 <= j < |all| && fates[j].ByPath? && Covers(fates[j].path, path)
      ensures r.Some? && |fates[j].path| <= |r.value.prefix|
    {
      RouteIsThere(all, fates, t.routes, j);
      assert RouteOf(all, fates, j) in t.routes;
    }
  }

  // The row is served on a path, and no earlier row on the same one.
  predicate PathRouted(pa: Platform, all: seq<Node>, j: nat)
    requires j < |all|
  {
    Routable(pa, all[j]).ByPath? && forall k :: 0 <= k < j ==> Routable(pa, all[k]) != Routable(pa, all[j])
  }

  lemma PathRoutedIff(pa: Platform, all: seq<Node>, j: nat)
    requires j < |all|
    ensures Fates(pa, all)[j].ByPath? <==> PathRouted(pa, all, j)
  {
    var r := Routable(pa, all[j]);
    if r.ByPath? {
      var taker := Taker(pa, all, j, r.path);
      if taker.Some? { assert Claims(pa, all[taker.value], r.path); }
      forall k | 0 <= k < j && taker.None? ensures Routable(pa, all[k]) != r { assert !Claims(pa, all[k], r.path); }
    }
  }

  // ---- The ports the cores are told to open ----------------------------------------

  predicate NodeOpens(n: Node, l4: L4) {
    Opens(n.protocol, n.network, n.security.Secured? && n.security.h3, n.brookMode, l4)
  }

  // The loopback listener a ShadowTLS inbound hands its traffic on to.
  function InnerOf(n: Node): Option<int> { if n.protocol == ShadowTLS then Some(InnerPort(n.port)) else None }

  predicate SpecOpens(s: Spec, port: int, l4: L4) {
    (port == s.node.port && NodeOpens(s.node, l4)) || InnerOf(s.node) == Some(port)
  }

  predicate OnLoopback(s: Spec, port: int) { (port == s.node.port && !s.cert) || InnerOf(s.node) == Some(port) }

  predicate MeetAt(s: Spec, t: Spec, port: int, l4: L4) {
    SpecOpens(s, port, l4) && SpecOpens(t, port, l4) && (OnLoopback(s, port) || OnLoopback(t, port))
  }

  // Two inbounds the cores are given open one port, at least one of them on loopback.
  ghost predicate Meet(specs: seq<Spec>, m: nat, n: nat)
    requires m < |specs| && n < |specs|
  {
    m != n && exists port, l4 :: MeetAt(specs[m], specs[n], port, l4)
  }

  // The port the row's core is given, if it is served.
  function Given(pa: Platform, all: seq<Node>, i: nat): Option<int>
    requires i < |all|
  {
    if RoutesOwnPort(pa, all[i]) then Some(all[i].port)
    else if PathRouted(pa, all, i) then Some(PAAS_PORT_BASE + i)
    else None
  }

  function GivenInner(pa: Platform, all: seq<Node>, i: nat): Option<int>
    requires i < |all|
  {
    var given := Given(pa, all, i);
    if given.Some? && all[i].protocol == ShadowTLS then Some(InnerPort(given.value)) else None
  }

  // What the row's core listens with there; TLS is gone from a path-routed row.
  predicate RowOpens(pa: Platform, all: seq<Node>, i: nat, l4: L4)
    requires i < |all|
  {
    var n := all[i];
    Opens(n.protocol, n.network, RoutesOwnPort(pa, n) && n.security.Secured? && n.security.h3, n.brookMode, l4)
  }

  // One row takes a port of another: a row on a port of its own that the base gives
  // to a path-routed one, or a ShadowTLS row whose inner port is the other's port
  // or the other's inner port.
  predicate Takes(pa: Platform, all: seq<Node>, i: nat, j: nat)
    requires i < |all| && j < |all|
  {
    i != j &&
    (|| (&& RoutesOwnPort(pa, all[i]) && !RoutesOwnPort(pa, all[j]) && PathRouted(pa, all, j)
         && all[i].port == PAAS_PORT_BASE + j
         && ((RowOpens(pa, all, i, TCP) && RowOpens(pa, all, j, TCP))
             || (RowOpens(pa, all, i, UDP) && RowOpens(pa, all, j, UDP))))
     || (&& GivenInner(pa, all, i).Some? && GivenInner(pa, all, i) == Given(pa, all, j)
         && (RowOpens(pa, all, j, TCP) || RowOpens(pa, all, j, UDP)))
     || (GivenInner(pa, all, i).Some? && GivenInner(pa, all, i) == GivenInner(pa, all, j)))
  }

  // The spec of a served row, in the row's own terms.
  lemma RowsSpec(pa: Platform, all: seq<Node>, fates: seq<Serving>, i: nat, s: Spec, port: int, l4: L4)
    requires fates == Fates(pa, all) && i < |all| && !fates[i].Not? && s == SpecOf(pa, all, fates, i)
    ensures Given(pa, all, i) == Some(s.node.port) && GivenInner(pa, all, i) == InnerOf(s.node)
    ensures s.cert == RoutesOwnPort(pa, all[i]) && (!s.cert ==> PathRouted(pa, all, i))
    ensures SpecOpens(s, port, l4)
            <==> || (Given(pa, all, i) == Some(port) && RowOpens(pa, all, i, l4))
                 || GivenInner(pa, all, i) == Some(port)
    ensures OnLoopback(s, port)
            <==> || (Given(pa, all, i) == Some(port) && !RoutesOwnPort(pa, all[i]))
                 || GivenInner(pa, all, i) == Some(port)
  {
    PathRoutedIff(pa, all, i);
  }

  lemma UnservedRow(pa: Platform, all: seq<Node>, i: nat)
    requires i < |all| && Fates(pa, all)[i].Not?
    ensures Given(pa, all, i).None?
  {
    PathRoutedIff(pa, all, i);
  }

  lemma {:induction false} MeetingTakesAPort(pa: Platform, all: seq<Node>, fates: seq<Serving>, i: nat, j: nat,
                                             s: Spec, t: Spec, port: int, l4: L4)
    requires fates == Fates(pa, all) && i < |all| && j < |all| && i != j && !fates[i].Not? && !fates[j].Not?
    requires s == SpecOf(pa, all, fates, i) && t == SpecOf(pa, all, fates, j)
    requires MeetAt(s, t, port, l4)
    ensures Takes(pa, all, i, j) || Takes(pa, all, j, i)
  {
    RowsSpec(pa, all, fates, i, s, port, l4);
    RowsSpec(pa, all, fates, j, t, port, l4);
  }

  lemma TakingAPortMeets(pa: Platform, all: seq<Node>, fates: seq<Serving>, i: nat, j: nat, s: Spec, t: Spec)
    returns (port: int, l4: L4)
    requires fates == Fates(pa, all) && i < |all| && j < |all| && !fates[i].Not? && !fates[j].Not?
    requires s == SpecOf(pa, all, fates, i) && t == SpecOf(pa, all, fates, j)
    requires Takes(pa, all, i, j)
    ensures MeetAt(s, t, port, l4)
  {
    var inner := GivenInner(pa, all, i);
    port := if inner.Some? && (inner == Given(pa, all, j) || inner == GivenInner(pa, all, j)) then inner.value
            else all[i].port;
    l4 := TCP;
    if inner == Some(port) && inner == Given(pa, all, j) && !RowOpens(pa, all, j, TCP) { l4 := UDP; }
    if inner != Some(port) && !(RowOpens(pa, all, i, TCP) && RowOpens(pa, all, j, TCP)) { l4 := UDP; }
    RowsSpec(pa, all, fates, i, s, port, l4);
    RowsSpec(pa, all, fates, j, t, port, l4);
  }

  lemma TakersAreServed(pa: Platform, all: seq<Node>, i: nat, j: nat)
    requires i < |all| && j < |all| && Takes(pa, all, i, j)
    ensures !Fates(pa, all)[i].Not? && !Fates(pa, all)[j].Not?
  {
    if Fates(pa, all)[i].Not? { UnservedRow(pa, all, i); }
    if Fates(pa, all)[j].Not? { UnservedRow(pa, all, j); }
  }

  lemma RowHasASpec(pa: Platform, all: seq<Node>, fates: seq<Serving>, specs: seq<Spec>, i: nat) returns (m: nat)
    requires |all| == |fates| && SpecsLaid(pa, all, fates, Served(fates, |all|), specs) && i < |all| && !fates[i].Not?
    ensures m < |specs| && Served(fates, |all|)[m] == i && specs[m] == SpecOf(pa, all, fates, i)
  {
    var rows := Served(fates, |all|);
    assert i in rows;
    m :| 0 <= m < |rows| && rows[m] == i;
    assert specs[m] == SpecOf(pa, all, fates, rows[m]);
  }

  lemma SpecHasARow(pa: Platform, all: seq<Node>, fates: seq<Serving>, specs: seq<Spec>, m: nat) returns (i: nat)
    requires |all| == |fates| && SpecsLaid(pa, all, fates, Served(fates, |all|), specs) && m < |specs|
    ensures i < |all| && !fates[i].Not? && i == Served(fates, |all|)[m] && specs[m] == SpecOf(pa, all, fates, i)
  {
    i := Served(fates, |all|)[m];
    assert i in Served(fates, |all|);
  }

  ghost predicate SomeMeet(specs: seq<Spec>) {
    exists m, n :: 0 <= m < |specs| && 0 <= n < |specs| && Meet(specs, m, n)
  }

  predicate SomeTake(pa: Platform, all: seq<Node>) {
    exists i, j :: 0 <= i < |all| && 0 <= j < |all| && Takes(pa, all, i, j)
  }

  lemma MeetMeansTake(pa: Platform, all: seq<Node>, fates: seq<Serving>, specs: seq<Spec>)
    requires fates == Fates(pa, all) && SpecsLaid(pa, all, fates, Served(fates, |all|), specs) && SomeMeet(specs)
    ensures SomeTake(pa, all)
  {
    var m, n :| 0 <= m < |specs| && 0 <= n < |specs| && Meet(specs, m, n);
    var port, l4 :| MeetAt(specs[m], specs[n], port, l4);
    var i := SpecHasARow(pa, all, fates, specs, m);
    var j := SpecHasARow(pa, all, fates, specs, n);
    MeetingTakesAPort(pa, all, fates, i, j, specs[m], specs[n], port, l4);
  }

  lemma TakeMeansMeet(pa: Platform, all: seq<Node>, fates: seq<Serving>, specs: seq<Spec>)
    requires fates == Fates(pa, all) && SpecsLaid(pa, all, fates, Served(fates, |all|), specs) && SomeTake(pa, all)
    ensures SomeMeet(specs)
  {
    var i, j :| 0 <= i < |all| && 0 <= j < |all| && Takes(pa, all, i, j);
    TakersAreServed(pa, all, i, j);
    var m := RowHasASpec(pa, all, fates, specs, i);
    var n := RowHasASpec(pa, all, fates, specs, j);
    var port, l4 := TakingAPortMeets(pa, all, fates, i, j, specs[m], specs[n]);
    assert Meet(specs, m, n);
  }

  // The loopback ports are meant never to meet a port the platform routes here.
  // Among the inbounds handed to the cores two meet exactly when one row takes a
  // port of another.
  lemma LoopbackPortsAreTheirOwnIff(pa: Platform, all: seq<Node>, t: Table)
    requires t == TableOf(pa, all)
    ensures SomeMeet(t.specs) <==> SomeTake(pa, all)
  {
    var fates := Fates(pa, all);
    EveryRowEndsOnce(pa, all, fates, t);
    if SomeMeet(t.specs) { MeetMeansTake(pa, all, fates, t.specs); }
    if SomeTake(pa, all) { TakeMeansMeet(pa, all, fates, t.specs); }
  }

  function OnAPath(): Node { Node(2, VLESS, WS, "/a", OtherMode, "", "", 443, Plain) }

  lemma OnAPathIsRouted(pa: Platform, first: Node)
    requires pa.tcpPorts == [first.port] && first.port != 443 && !pa.cdnFronted
    requires RoutesOwnPort(pa, first)
    ensures Given(pa, [first, OnAPath()], 0) == Some(first.port)
    ensures !RoutesOwnPort(pa, OnAPath()) && PathRouted(pa, [first, OnAPath()], 1)
    ensures Given(pa, [first, OnAPath()], 1) == Some(PAAS_PORT_BASE + 1)
  {
    assert TrimSpace("/a") == "/a";
    assert Routable(pa, OnAPath()) == ByPath("/a");
    assert Routable(pa, first) == OwnPort;
  }

  // The platform routes port 39001 to a TCP inbound, and the second row is served
  // on a path: the cores are told to bind 39001 twice.
  lemma TwoInboundsOnOnePort(pa: Platform, own: Node)
    requires pa == Platform([39001], [], false, false, "")
    requires own == Node(1, VLESS, Raw, "", OtherMode, "", "", 39001, Plain)
    ensures SomeMeet(TableOf(pa, [own, OnAPath()]).specs)
  {
    OnAPathIsRouted(pa, own);
    assert Takes(pa, [own, OnAPath()], 0, 1);
    LoopbackPortsAreTheirOwnIff(pa, [own, OnAPath()], TableOf(pa, [own, OnAPath()]));
  }

  // It routes 19001 to a ShadowTLS inbound, whose inner listener is then on 39001.
  lemma AnInnerPortOnTheBase(pa: Platform, shadow: Node)
    requires pa == Platform([19001], [], false, false, "")
    requires shadow == Node(1, ShadowTLS, Raw, "", OtherMode, "", "", 19001, Plain)
    ensures SomeMeet(TableOf(pa, [shadow, OnAPath()]).specs)
  {
    OnAPathIsRouted(pa, shadow);
    assert GivenInner(pa, [shadow, OnAPath()], 0) == Some(39001);
    assert Takes(pa, [shadow, OnAPath()], 0, 1);
    LoopbackPortsAreTheirOwnIff(pa, [shadow, OnAPath()], TableOf(pa, [shadow, OnAPath()]));
  }
}
