// The ports an inbound binds, the guard that refuses a second owner, and the
// port it suggests instead. Off a platform edge, on inbounds already in
// canonical form.
module PortGuard {
  import opened Numerals
  import opened HopSpec
  import opened InboundModel

  // `h3` says the inbound's TLS offers HTTP/3 and nothing else.
  datatype Inbound = Inbound(id: nat, protocol: Protocol, port: int, network: Network, brookMode: BrookMode,
                             hop: string, h3: bool)

  // A socket some process holds on the host; `ours` says the panel's own
  // engines run it.
  datatype Listener = Listener(port: int, l4: L4, ours: bool)

  // Ports the panel itself is configured to bind; `dns` says whether the
  // ForgeDNS listener exists.
  datatype PanelPorts = PanelPorts(web: int, api: int, dnsPort: int, dns: bool)

  datatype Host = Host(rows: seq<Inbound>, panel: PanelPorts, live: seq<Listener>)

  predicate Overlaps(a: Claim, b: Claim) { a.l4 == b.l4 && a.lo <= b.hi && b.lo <= a.hi }

  predicate Covers(c: Claim, port: int, l4: L4) { c.l4 == l4 && c.lo <= port <= c.hi }

  // Two claims clash exactly when they share a port.
  lemma OverlapsIffSharesAPort(a: Claim, b: Claim)
    requires a.lo <= a.hi && b.lo <= b.hi
    ensures Overlaps(a, b) <==> exists port, l4 :: Covers(a, port, l4) && Covers(b, port, l4)
  {
    if Overlaps(a, b) {
      var port := if a.lo > b.lo then a.lo else b.lo;
      assert Covers(a, port, a.l4) && Covers(b, port, a.l4);
    }
  }

  // The listeners a protocol needs on its own port.
  function RequiredPorts(n: Inbound): seq<L4> {
    match n.protocol
    case Hysteria2 => [UDP]
    case TUIC => [UDP]
    case WireGuard => [UDP]
    case ForgeDNS => [UDP, TCP]
    case Shadowsocks => [TCP, UDP]
    case SOCKS => [TCP, UDP]
    case Brook =>
      (match n.brookMode
       case QuicServer => [UDP]
       case WsServer => [TCP]
       case WssServer => [TCP]
       case OtherMode => [TCP, UDP])
    case _ => [TCP]
  }

  predicate BindsNothing(n: Inbound) {
    n.port <= 0 || n.port > MAX_PORT || n.protocol == ForgeDNS || n.protocol == Unknown
  }

  predicate RidesUDP(n: Inbound) { UsesTransport(n.protocol) && (n.network == QUIC || n.network == MKCP) }

  predicate Needs(n: Inbound, l4: L4) {
    if RidesUDP(n) then l4 == UDP else l4 in RequiredPorts(n)
  }

  function Hops(n: Inbound): seq<Claim> {
    if BindsNothing(n) || n.protocol != Hysteria2 || n.hop == "" then [] else HopClaims(n.hop)
  }

  function Point(port: int, l4: L4, id: nat): Claim { Claim(port, port, l4, id) }

  function PointClaims(n: Inbound): seq<Claim> {
    if BindsNothing(n) then []
    else
      (if Needs(n, TCP) then [Point(n.port, TCP, n.id)] else [])
      + (if Needs(n, UDP) then [Point(n.port, UDP, n.id)] else [])
  }

  function Stamped(cs: seq<Claim>, id: nat): (r: seq<Claim>)
    ensures |r| == |cs| && forall i :: 0 <= i < |cs| ==> r[i] == cs[i].(id := id)
  {
    seq(|cs|, i requires 0 <= i < |cs| => cs[i].(id := id))
  }

  function Claims(n: Inbound): seq<Claim> { PointClaims(n) + Stamped(Hops(n), n.id) }

  method Transports(n: Inbound) returns (tcp: bool, udp: bool)
    ensures tcp == Needs(n, TCP) && udp == Needs(n, UDP)
  {
    tcp, udp := false, false;
    var required := RequiredPorts(n);
    var i := 0;
    while i < |required|
      invariant 0 <= i <= |required|
      invariant tcp == (TCP in required[..i]) && udp == (UDP in required[..i])
    {
      match required[i] {
        case TCP => tcp := true;
        case UDP => udp := true;
      }
      i := i + 1;
    }
    assert required[..|required|] == required;
    if UsesTransport(n.protocol) && (n.network == QUIC || n.network == MKCP) { tcp, udp := false, true; }
  }

  // The claims an inbound makes, under its own id.
  method InboundClaims(n: Inbound) returns (out: seq<Claim>)
    ensures out == Claims(n)
  {
    if BindsNothing(n) {
      assert Hops(n) == [];
      return [];
    }
    var tcp, udp := Transports(n);
    var ranges: seq<Claim> := [];
    if n.protocol == Hysteria2 && n.hop != "" { ranges := HopRanges(n.hop); }
    assert ranges == Hops(n);
    out := [];
    if tcp { out := out + [Point(n.port, TCP, n.id)]; }
    if udp { out := out + [Point(n.port, UDP, n.id)]; }
    assert out == PointClaims(n);
    out := out + Stamped(ranges, n.id);
  }

  function PanelClaim(port: int, l4: L4): seq<Claim> {
    if 0 < port <= MAX_PORT then [Point(port, l4, 0)] else []
  }

  function PanelClaims(p: PanelPorts): seq<Claim> {
    PanelClaim(p.web, TCP) + (if p.api > 0 then PanelClaim(p.api + 1, TCP) else [])
    + (if p.dns then PanelClaim(p.dnsPort, UDP) else [])
  }

  function ClaimsOf(rows: seq<Inbound>, keep: Inbound -> bool): seq<Claim> {
    if rows == [] then []
    else
      ClaimsOf(rows[..|rows| - 1], keep) + if keep(rows[|rows| - 1]) then Claims(rows[|rows| - 1]) else []
  }

  function NotId(id: nat): Inbound -> bool { (r: Inbound) => r.id != id }

  function HasId(id: nat): Inbound -> bool { (r: Inbound) => r.id == id }

  function Taken(h: Host, exclude: nat): seq<Claim> { ClaimsOf(h.rows, NotId(exclude)) + PanelClaims(h.panel) }

  function Own(h: Host, exclude: nat): seq<Claim> { ClaimsOf(h.rows, HasId(exclude)) }

  predicate CoveredBy(cs: seq<Claim>, port: int, l4: L4) { exists i :: 0 <= i < |cs| && Covers(cs[i], port, l4) }

  predicate Held(live: seq<Listener>, port: int, l4: L4) {
    exists i :: 0 <= i < |live| && live[i].port == port && live[i].l4 == l4
  }

  predicate Busy(h: Host, exclude: nat, port: int, l4: L4) {
    Held(h.live, port, l4) || CoveredBy(Taken(h, exclude), port, l4) || CoveredBy(Own(h, exclude), port, l4)
  }

  predicate Clashes(cs: seq<Claim>, ds: seq<Claim>) {
    exists i, j :: 0 <= i < |cs| && 0 <= j < |ds| && Overlaps(cs[i], ds[j])
  }

  // A listener that is not the panel's own stands in the way of the claims.
  predicate Foreign(h: Host, exclude: nat, l: Listener) {
    !l.ours && !CoveredBy(Own(h, exclude), l.port, l.l4)
  }

  predicate Squatted(h: Host, exclude: nat, cs: seq<Claim>) {
    exists k :: 0 <= k < |h.live| && CoveredBy(cs, h.live[k].port, h.live[k].l4) && Foreign(h, exclude, h.live[k])
  }

  predicate Refuses(h: Host, exclude: nat, cs: seq<Claim>) {
    Clashes(cs, Taken(h, exclude)) || Squatted(h, exclude, cs)
  }

  datatype Kind = ByInbound | ByPanel | BySystem

  datatype Conflict = Conflict(port: int, l4: L4, kind: Kind, inboundID: nat, suggested: int)

  type BusyCheck = (int, L4) -> bool

  function BusyChecker(h: Host, exclude: nat): BusyCheck { (port: int, l4: L4) => Busy(h, exclude, port, l4) }

  predicate FreeForAll(busy: BusyCheck, port: int, need: seq<L4>) {
    forall i :: 0 <= i < |need| ==> !busy(port, need[i])
  }

  method Any(cs: seq<Claim>, port: int, l4: L4) returns (r: bool)
    ensures r == CoveredBy(cs, port, l4)
  {
    var i := 0;
    while i < |cs|
      invariant 0 <= i <= |cs| && forall k :: 0 <= k < i ==> !Covers(cs[k], port, l4)
    {
      if Covers(cs[i], port, l4) { return true; }
      i := i + 1;
    }
    return false;
  }

  // The lowest port from `start`, and from 1024, free on every transport.
  predicate LowestFree(busy: BusyCheck, start: int, need: seq<L4>, p: int) {
    if need == [] then p == 0
    else if p == 0 then forall q :: start <= q <= MAX_PORT && 1024 <= q ==> !FreeForAll(busy, q, need)
    else
      start <= p && 1024 <= p <= MAX_PORT && FreeForAll(busy, p, need)
      && forall q :: start <= q < p && 1024 <= q ==> !FreeForAll(busy, q, need)
  }

  method SuggestPort(start: int, need: seq<L4>, busy: BusyCheck) returns (p: int)
    ensures LowestFree(busy, start, need, p)
  {
    if need == [] { return 0; }
    var low := if start < 1024 then 1024 else start;
    p := low;
    while p <= MAX_PORT
      invariant low <= p
      invariant forall q :: low <= q < p ==> !FreeForAll(busy, q, need)
    {
      var isFree, i := true, 0;
      while i < |need| && isFree
        invariant 0 <= i <= |need|
        invariant isFree ==> forall k :: 0 <= k < i ==> !busy(p, need[k])
        invariant !isFree ==> !FreeForAll(busy, p, need)
      {
        if busy(p, need[i]) { isFree := false; }
        i := i + 1;
      }
      if isFree { return p; }
      p := p + 1;
    }
    return 0;
  }

  function NeedOf(n: Inbound, cs: seq<Claim>): seq<L4> {
    if cs == [] then []
    else
      var before, c := NeedOf(n, cs[..|cs| - 1]), cs[|cs| - 1];
      if c.lo == c.hi == n.port then before + [c.l4] else before
  }

  predicate IsAdvice(h: Host, exclude: nat, n: Inbound, p: int) {
    LowestFree(BusyChecker(h, exclude), n.port + 1, NeedOf(n, Claims(n)), p)
  }

  method NeedAt(n: Inbound, cs: seq<Claim>) returns (need: seq<L4>)
    ensures need == NeedOf(n, cs)
  {
    need := [];
    var i := 0;
    while i < |cs|
      invariant 0 <= i <= |cs| && need == NeedOf(n, cs[..i])
    {
      assert cs[..i + 1][..i] == cs[..i];
      if cs[i].lo == cs[i].hi && cs[i].lo == n.port { need := need + [cs[i].l4]; }
      i := i + 1;
    }
    assert cs[..|cs|] == cs;
  }

  method Finish(h: Host, exclude: nat, n: Inbound, cf: Conflict) returns (r: Conflict)
    ensures r == cf.(suggested := r.suggested) && IsAdvice(h, exclude, n, r.suggested)
  {
    var cs := InboundClaims(n);
    var need := NeedAt(n, cs);
    var p := SuggestPort(n.port + 1, need, BusyChecker(h, exclude));
    r := cf.(suggested := p);
  }

  // What a refusal names: a port two claims share, and whose the other is; or,
  // where no claim clashes, a listener the panel did not start.
  predicate Names(h: Host, exclude: nat, n: Inbound, cf: Conflict) {
    var want, taken := Claims(n), Taken(h, exclude);
    if cf.kind == BySystem then
      !Clashes(want, taken) && CoveredBy(want, cf.port, cf.l4)
      && exists k :: 0 <= k < |h.live| && h.live[k].port == cf.port && h.live[k].l4 == cf.l4
          && Foreign(h, exclude, h.live[k])
    else
      exists i, j :: 0 <= i < |want| && 0 <= j < |taken|
        && Covers(want[i], cf.port, cf.l4) && Covers(taken[j], cf.port, cf.l4)
        && cf.inboundID == taken[j].id && (cf.kind == ByPanel <==> taken[j].id == 0)
  }

  lemma OneMoreRow(rows: seq<Inbound>, i: nat, keep: Inbound -> bool)
    requires i < |rows|
    ensures ClaimsOf(rows[..i + 1], keep) == ClaimsOf(rows[..i], keep) + if keep(rows[i]) then Claims(rows[i]) else []
  {
    assert rows[..i + 1][..i] == rows[..i];
  }

  method Claimed(h: Host, exclude: nat) returns (taken: seq<Claim>, own: seq<Claim>)
    ensures taken == Taken(h, exclude) && own == Own(h, exclude)
  {
    taken, own := [], [];
    ghost var others, mine := NotId(exclude), HasId(exclude);
    var i := 0;
    while i < |h.rows|
      invariant 0 <= i <= |h.rows|
      invariant taken == ClaimsOf(h.rows[..i], others) && own == ClaimsOf(h.rows[..i], mine)
    {
      OneMoreRow(h.rows, i, others);
      OneMoreRow(h.rows, i, mine);
      var cs := InboundClaims(h.rows[i]);
      if h.rows[i].id == exclude { own := own + cs; } else { taken := taken + cs; }
      i := i + 1;
    }
    assert h.rows[..|h.rows|] == h.rows;
    taken := taken + PanelClaims(h.panel);
  }

  method FirstClash(want: seq<Claim>, taken: seq<Claim>) returns (r: Option<(nat, nat)>)
    ensures r.Some? <==> Clashes(want, taken)
    ensures r.Some? ==> r.value.0 < |want| && r.value.1 < |taken| && Overlaps(want[r.value.0], taken[r.value.1])
    ensures r.Some? ==> forall i, j :: 0 <= i < r.value.0 && 0 <= j < |taken| ==> !Overlaps(want[i], taken[j])
    ensures r.Some? ==> forall j :: 0 <= j < r.value.1 ==> !Overlaps(want[r.value.0], taken[j])
  {
    var i := 0;
    while i < |want|
      invariant 0 <= i <= |want|
      invariant forall k, j :: 0 <= k < i && 0 <= j < |taken| ==> !Overlaps(want[k], taken[j])
    {
      var j := 0;
      while j < |taken|
        invariant 0 <= j <= |taken| && forall k :: 0 <= k < j ==> !Overlaps(want[i], taken[k])
      {
        if Overlaps(want[i], taken[j]) { return Some((i, j)); }
        j := j + 1;
      }
      i := i + 1;
    }
    return None;
  }

  lemma ClaimsAreRanges(n: Inbound)
    ensures forall c :: c in Claims(n) ==> 1 <= c.lo <= c.hi <= MAX_PORT && c.id == n.id
  {
  }

  lemma {:induction false} ClaimsOfAreRanges(rows: seq<Inbound>, keep: Inbound -> bool)
    ensures forall c :: c in ClaimsOf(rows, keep) ==> 1 <= c.lo <= c.hi <= MAX_PORT
  {
    if rows != [] {
      ClaimsOfAreRanges(rows[..|rows| - 1], keep);
      ClaimsAreRanges(rows[|rows| - 1]);
    }
  }

  lemma TakenAreRanges(h: Host, exclude: nat, j: nat)
    requires j < |Taken(h, exclude)|
    ensures Taken(h, exclude)[j].lo <= Taken(h, exclude)[j].hi
  {
    ClaimsOfAreRanges(h.rows, NotId(exclude));
    assert Taken(h, exclude)[j] in ClaimsOf(h.rows, NotId(exclude)) || Taken(h, exclude)[j] in PanelClaims(h.panel);
  }

  method FirstForeign(h: Host, exclude: nat, want: seq<Claim>, own: seq<Claim>) returns (r: Option<nat>)
    requires own == Own(h, exclude)
    ensures r.Some? <==> Squatted(h, exclude, want)
    ensures r.Some? ==> r.value < |h.live| && Foreign(h, exclude, h.live[r.value])
    ensures r.Some? ==> CoveredBy(want, h.live[r.value].port, h.live[r.value].l4)
  {
    var k := 0;
    while k < |h.live|
      invariant 0 <= k <= |h.live|
      invariant forall m :: 0 <= m < k && CoveredBy(want, h.live[m].port, h.live[m].l4) ==>
                  !Foreign(h, exclude, h.live[m])
    {
      var l := h.live[k];
      var hit := Any(want, l.port, l.l4);
      var mine := Any(own, l.port, l.l4);
      if hit && !mine && !l.ours { return Some(k); }
      k := k + 1;
    }
    return None;
  }

  function ClashAt(w: Claim, t: Claim): Conflict {
    Conflict(if t.lo > w.lo then t.lo else w.lo, w.l4, if t.id != 0 then ByInbound else ByPanel, t.id, 0)
  }

  lemma ClashIsNamed(h: Host, exclude: nat, n: Inbound, i: nat, j: nat, cf: Conflict)
    requires i < |Claims(n)| && j < |Taken(h, exclude)| && Overlaps(Claims(n)[i], Taken(h, exclude)[j])
    requires cf == ClashAt(Claims(n)[i], Taken(h, exclude)[j]).(suggested := cf.suggested)
    ensures Names(h, exclude, n, cf)
  {
    ClaimsAreRanges(n);
    TakenAreRanges(h, exclude, j);
    assert Claims(n)[i] in Claims(n);
    assert Covers(Claims(n)[i], cf.port, cf.l4) && Covers(Taken(h, exclude)[j], cf.port, cf.l4);
  }

  // The row being updated never conflicts with itself, nor with the panel's
  // own listener on its port.
  method PortConflictFor(h: Host, n: Inbound, exclude: nat) returns (r: Option<Conflict>)
    ensures r.Some? <==> Refuses(h, exclude, Claims(n))
    ensures r.Some? ==> Names(h, exclude, n, r.value) && IsAdvice(h, exclude, n, r.value.suggested)
  {
    var want := InboundClaims(n);
    if |want| == 0 { return None; }
    var taken, own := Claimed(h, exclude);
    var clash := FirstClash(want, taken);
    if clash.Some? {
      var (i, j) := clash.value;
      var cf := Finish(h, exclude, n, ClashAt(want[i], taken[j]));
      ClashIsNamed(h, exclude, n, i, j, cf);
      return Some(cf);
    }
    var foreign := FirstForeign(h, exclude, want, own);
    if foreign.Some? {
      var l := h.live[foreign.value];
      var cf := Finish(h, exclude, n, Conflict(l.port, l.l4, BySystem, 0, 0));
      return Some(cf);
    }
    return None;
  }

  lemma {:induction false} ClashesWithRow(cs: seq<Claim>, rows: seq<Inbound>, keep: Inbound -> bool, k: nat)
    requires k < |rows| && keep(rows[k]) && Clashes(cs, Claims(rows[k]))
    ensures Clashes(cs, ClaimsOf(rows, keep))
  {
    var front := rows[..|rows| - 1];
    if k < |front| {
      ClashesWithRow(cs, front, keep, k);
      ClashesWithMore(cs, ClaimsOf(front, keep), if keep(rows[|rows| - 1]) then Claims(rows[|rows| - 1]) else []);
    } else {
      ClashesWithMore(cs, ClaimsOf(front, keep), Claims(rows[k]));
    }
  }

  lemma ClashesWithMore(cs: seq<Claim>, ds: seq<Claim>, es: seq<Claim>)
    ensures Clashes(cs, ds + es) <==> Clashes(cs, ds) || Clashes(cs, es)
  {
    if Clashes(cs, ds) {
      var i, j :| 0 <= i < |cs| && 0 <= j < |ds| && Overlaps(cs[i], ds[j]);
      assert (ds + es)[j] == ds[j];
    }
    if Clashes(cs, es) {
      var i, j :| 0 <= i < |cs| && 0 <= j < |es| && Overlaps(cs[i], es[j]);
      assert (ds + es)[|ds| + j] == es[j];
    }
  }

  lemma ClashIsMutual(cs: seq<Claim>, ds: seq<Claim>)
    ensures Clashes(cs, ds) <==> Clashes(ds, cs)
  {
    if Clashes(cs, ds) {
      var i, j :| 0 <= i < |cs| && 0 <= j < |ds| && Overlaps(cs[i], ds[j]);
      assert Overlaps(ds[j], cs[i]);
    }
    if Clashes(ds, cs) {
      var i, j :| 0 <= i < |ds| && 0 <= j < |cs| && Overlaps(ds[i], cs[j]);
      assert Overlaps(cs[j], ds[i]);
    }
  }

  // Two lists of the same ranges, whoever holds them.
  predicate SameSpans(cs: seq<Claim>, ds: seq<Claim>) {
    |cs| == |ds| && forall i :: 0 <= i < |cs| ==> cs[i] == ds[i].(id := cs[i].id)
  }

  lemma SameSpansClash(cs: seq<Claim>, ds: seq<Claim>, es: seq<Claim>)
    requires SameSpans(cs, ds)
    ensures Clashes(cs, es) <==> Clashes(ds, es)
  {
    if Clashes(cs, es) {
      var i, j :| 0 <= i < |cs| && 0 <= j < |es| && Overlaps(cs[i], es[j]);
      assert Overlaps(ds[i], es[j]);
    }
    if Clashes(ds, es) {
      var i, j :| 0 <= i < |ds| && 0 <= j < |es| && Overlaps(ds[i], es[j]);
      assert Overlaps(cs[i], es[j]);
    }
  }

  lemma SpansConcat(a: seq<Claim>, b: seq<Claim>, c: seq<Claim>, d: seq<Claim>)
    requires SameSpans(a, b) && SameSpans(c, d)
    ensures SameSpans(a + c, b + d)
  {
  }

  lemma StampedSpans(cs: seq<Claim>, i: nat, j: nat)
    ensures SameSpans(Stamped(cs, i), Stamped(cs, j))
  {
  }

  lemma PointSpans(n: Inbound, id: nat)
    ensures SameSpans(PointClaims(n.(id := id)), PointClaims(n))
  {
    var m := n.(id := id);
    assert BindsNothing(m) == BindsNothing(n) && Needs(m, TCP) == Needs(n, TCP) && Needs(m, UDP) == Needs(n, UDP);
  }

  lemma RestampedSpans(n: Inbound, id: nat)
    ensures SameSpans(Claims(n.(id := id)), Claims(n))
  {
    var m := n.(id := id);
    assert Hops(m) == Hops(n);
    PointSpans(n, id);
    StampedSpans(Hops(n), id, n.id);
    SpansConcat(PointClaims(m), PointClaims(n), Stamped(Hops(m), id), Stamped(Hops(n), n.id));
  }

  predicate Apart(a: Inbound, b: Inbound) { !Clashes(Claims(a), Claims(b)) }

  predicate OffPanel(a: Inbound, panel: PanelPorts) { !Clashes(Claims(a), PanelClaims(panel)) }

  predicate Pairwise<T>(xs: seq<T>, rel: (T, T) -> bool) {
    forall i, j :: 0 <= i < |xs| && 0 <= j < |xs| && i != j ==> rel(xs[i], xs[j])
  }

  predicate Each<T>(xs: seq<T>, p: T -> bool) { forall i :: 0 <= i < |xs| ==> p(xs[i]) }

  function Separate(): (Inbound, Inbound) -> bool { (a: Inbound, b: Inbound) => a.id != b.id && Apart(a, b) }

  function Off(panel: PanelPorts): Inbound -> bool { (a: Inbound) => a.id != 0 && OffPanel(a, panel) }

  // No two inbounds, and no inbound and the panel, ever claim one port.
  predicate Disjoint(rows: seq<Inbound>, panel: PanelPorts) { Pairwise(rows, Separate()) && Each(rows, Off(panel)) }

  lemma AppendPairwise<T>(xs: seq<T>, x: T, rel: (T, T) -> bool)
    requires Pairwise(xs, rel) && forall k :: 0 <= k < |xs| ==> rel(x, xs[k]) && rel(xs[k], x)
    ensures Pairwise(xs + [x], rel)
  {
  }

  lemma {:induction false} WithoutKeeps(rows: seq<Inbound>, id: nat, rel: (Inbound, Inbound) -> bool,
                                        p: Inbound -> bool)
    requires Pairwise(rows, rel) && Each(rows, p)
    ensures Pairwise(Without(rows, id), rel) && Each(Without(rows, id), p)
  {
    if rows != [] {
      var rest := Without(rows[1..], id);
      WithoutKeeps(rows[1..], id, rel, p);
      forall k | 0 <= k < |rest|
        ensures rel(rows[0], rest[k]) && rel(rest[k], rows[0])
      {
        assert rest[k] in rows[1..];
      }
    }
  }

  lemma LetThroughIsApart(h: Host, n: Inbound, exclude: nat, id: nat, k: nat)
    requires !Refuses(h, exclude, Claims(n)) && k < |h.rows| && h.rows[k].id != exclude
    ensures Apart(n.(id := id), h.rows[k]) && Apart(h.rows[k], n.(id := id))
  {
    var cs := Claims(n.(id := id));
    RestampedSpans(n, id);
    SameSpansClash(cs, Claims(n), Claims(h.rows[k]));
    ClashIsMutual(cs, Claims(h.rows[k]));
    ClashesWithMore(Claims(n), ClaimsOf(h.rows, NotId(exclude)), PanelClaims(h.panel));
    if Clashes(Claims(n), Claims(h.rows[k])) {
      ClashesWithRow(Claims(n), h.rows, NotId(exclude), k);
    }
  }

  lemma LetThroughIsOffPanel(h: Host, n: Inbound, exclude: nat, id: nat)
    requires !Refuses(h, exclude, Claims(n))
    ensures OffPanel(n.(id := id), h.panel)
  {
    RestampedSpans(n, id);
    SameSpansClash(Claims(n.(id := id)), Claims(n), PanelClaims(h.panel));
    ClashesWithMore(Claims(n), ClaimsOf(h.rows, NotId(exclude)), PanelClaims(h.panel));
  }

  // What an operator asks for; the sockets on the host are as they are then.
  datatype Op =
    | Create(n: Inbound, id: nat, live: seq<Listener>)
    | Update(n: Inbound, id: nat, live: seq<Listener>)
    | Delete(id: nat)

  predicate HasRow(rows: seq<Inbound>, id: nat) { exists i :: 0 <= i < |rows| && rows[i].id == id }

  function Replaced(rows: seq<Inbound>, n: Inbound, id: nat): (r: seq<Inbound>)
    ensures |r| == |rows| && forall i :: 0 <= i < |rows| ==> r[i] == if rows[i].id == id then n.(id := id) else rows[i]
  {
    seq(|rows|, i requires 0 <= i < |rows| => if rows[i].id == id then n.(id := id) else rows[i])
  }

  function Without(rows: seq<Inbound>, id: nat): (r: seq<Inbound>)
    ensures forall x :: x in r ==> x in rows && x.id != id
  {
    if rows == [] then []
    else if rows[0].id == id then Without(rows[1..], id)
    else [rows[0]] + Without(rows[1..], id)
  }

  // What validation asks of an inbound, as far as ports go.
  predicate Valid(n: Inbound) {
    n.protocol != Unknown && 1 <= n.port <= MAX_PORT && !Removed(n.protocol, n.network)
  }

  // A create and an update go through only where the guard finds nothing and the
  // inbound is valid; a create, only for a protocol some core serves.
  function After(rows: seq<Inbound>, panel: PanelPorts, op: Op): seq<Inbound> {
    match op
    case Create(n, id, live) =>
      if HasRow(rows, id) || !Valid(n) || n.protocol == SSH || Refuses(Host(rows, panel, live), 0, Claims(n)) then rows
      else rows + [n.(id := id)]
    case Update(n, id, live) =>
      if !Valid(n) || Refuses(Host(rows, panel, live), id, Claims(n)) then rows else Replaced(rows, n, id)
    case Delete(id) => Without(rows, id)
  }

  function Run(rows: seq<Inbound>, panel: PanelPorts, ops: seq<Op>): seq<Inbound> {
    if ops == [] then rows else After(Run(rows, panel, ops[..|ops| - 1]), panel, ops[|ops| - 1])
  }

  lemma CreateKeepsDisjoint(rows: seq<Inbound>, panel: PanelPorts, n: Inbound, id: nat, live: seq<Listener>)
    requires Disjoint(rows, panel) && !HasRow(rows, id) && id != 0
    requires !Refuses(Host(rows, panel, live), 0, Claims(n))
    ensures Disjoint(rows + [n.(id := id)], panel)
  {
    var h := Host(rows, panel, live);
    var m := n.(id := id);
    forall k | 0 <= k < |rows|
      ensures Separate()(m, rows[k]) && Separate()(rows[k], m)
    {
      assert Off(panel)(rows[k]);
      LetThroughIsApart(h, n, 0, id, k);
    }
    AppendPairwise(rows, m, Separate());
    LetThroughIsOffPanel(h, n, 0, id);
  }

  lemma ReplacedKeeps(rows: seq<Inbound>, n: Inbound, id: nat, rel: (Inbound, Inbound) -> bool, p: Inbound -> bool)
    requires Pairwise(rows, rel) && Each(rows, p) && p(n.(id := id))
    requires forall i, j :: 0 <= i < j < |rows| ==> rows[i].id != rows[j].id
    requires forall k :: 0 <= k < |rows| && rows[k].id != id ==>
               rel(n.(id := id), rows[k]) && rel(rows[k], n.(id := id))
    ensures Pairwise(Replaced(rows, n, id), rel) && Each(Replaced(rows, n, id), p)
  {
    var now := Replaced(rows, n, id);
    forall i, j | 0 <= i < |now| && 0 <= j < |now| && i != j ensures rel(now[i], now[j]) { }
  }

  lemma UpdateKeepsDisjoint(rows: seq<Inbound>, panel: PanelPorts, n: Inbound, id: nat, live: seq<Listener>)
    requires Disjoint(rows, panel) && !Refuses(Host(rows, panel, live), id, Claims(n)) && id != 0
    ensures Disjoint(Replaced(rows, n, id), panel)
  {
    var h := Host(rows, panel, live);
    var m := n.(id := id);
    forall k | 0 <= k < |rows| && rows[k].id != id
      ensures Separate()(m, rows[k]) && Separate()(rows[k], m)
    {
      LetThroughIsApart(h, n, id, id, k);
    }
    LetThroughIsOffPanel(h, n, id, id);
    forall i, j | 0 <= i < j < |rows| ensures rows[i].id != rows[j].id { assert Separate()(rows[i], rows[j]); }
    ReplacedKeeps(rows, n, id, Separate(), Off(panel));
  }

  lemma NothingToReplace(rows: seq<Inbound>, n: Inbound, panel: PanelPorts)
    requires Each(rows, Off(panel))
    ensures Replaced(rows, n, 0) == rows
  {
    forall i | 0 <= i < |rows| ensures rows[i].id != 0 { assert Off(panel)(rows[i]); }
  }

  // Whatever is asked for, in whatever order and whatever else listens on the
  // host: no two inbounds, and no inbound and the panel, come to claim one port.
  lemma {:induction false} EveryRunStaysDisjoint(rows: seq<Inbound>, panel: PanelPorts, ops: seq<Op>)
    requires Disjoint(rows, panel)
    requires forall k :: 0 <= k < |ops| && ops[k].Create? ==> ops[k].id != 0
    ensures Disjoint(Run(rows, panel, ops), panel)
  {
    if ops != [] {
      var was, op := Run(rows, panel, ops[..|ops| - 1]), ops[|ops| - 1];
      EveryRunStaysDisjoint(rows, panel, ops[..|ops| - 1]);
      match op {
        case Create(n, id, live) =>
          if After(was, panel, op) != was { CreateKeepsDisjoint(was, panel, n, id, live); }
        case Update(n, id, live) =>
          if id == 0 {
            NothingToReplace(was, n, panel);
          } else if Valid(n) && !Refuses(Host(was, panel, live), id, Claims(n)) {
            UpdateKeepsDisjoint(was, panel, n, id, live);
          }
        case Delete(id) => WithoutKeeps(was, id, Separate(), Off(panel));
      }
    }
  }

  // --- the advice ---

  lemma {:induction false} NeedHolds(n: Inbound, cs: seq<Claim>, k: nat)
    requires k < |cs| && cs[k].lo == cs[k].hi == n.port
    ensures cs[k].l4 in NeedOf(n, cs)
  {
    if k < |cs| - 1 { NeedHolds(n, cs[..|cs| - 1], k); }
  }

  lemma PointsAreNeeded(n: Inbound, l4: L4)
    requires !BindsNothing(n) && Needs(n, l4)
    ensures l4 in NeedOf(n, Claims(n))
  {
    var cs := Claims(n);
    var c := Point(n.port, l4, n.id);
    assert c in PointClaims(n);
    var k :| 0 <= k < |PointClaims(n)| && PointClaims(n)[k] == c;
    assert cs[k] == c;
    NeedHolds(n, cs, k);
  }

  // A point on a port nobody holds is refused by nothing.
  lemma FreePointIsAllowed(h: Host, exclude: nat, cs: seq<Claim>)
    requires forall i :: 0 <= i < |cs| ==> cs[i].lo == cs[i].hi && !Busy(h, exclude, cs[i].lo, cs[i].l4)
    ensures !Refuses(h, exclude, cs)
  {
    var taken := Taken(h, exclude);
    forall i, j | 0 <= i < |cs| && 0 <= j < |taken|
      ensures !Overlaps(cs[i], taken[j])
    {
      assert Overlaps(cs[i], taken[j]) ==> Covers(taken[j], cs[i].lo, cs[i].l4);
    }
    forall k | 0 <= k < |h.live|
      ensures !CoveredBy(cs, h.live[k].port, h.live[k].l4)
    {
      forall i | 0 <= i < |cs|
        ensures !Covers(cs[i], h.live[k].port, h.live[k].l4)
      {
        assert Covers(cs[i], h.live[k].port, h.live[k].l4) ==> Held(h.live, cs[i].lo, cs[i].l4);
      }
    }
  }

  lemma RefusesEither(h: Host, exclude: nat, cs: seq<Claim>, ds: seq<Claim>)
    ensures Refuses(h, exclude, cs + ds) <==> Refuses(h, exclude, cs) || Refuses(h, exclude, ds)
  {
    var taken := Taken(h, exclude);
    ClashIsMutual(cs + ds, taken);
    ClashesWithMore(taken, cs, ds);
    ClashIsMutual(cs, taken);
    ClashIsMutual(ds, taken);
    forall port, l4
      ensures CoveredBy(cs + ds, port, l4) <==> CoveredBy(cs, port, l4) || CoveredBy(ds, port, l4)
    {
      CoveredByEither(cs, ds, port, l4);
    }
  }

  lemma CoveredByEither(cs: seq<Claim>, ds: seq<Claim>, port: int, l4: L4)
    ensures CoveredBy(cs + ds, port, l4) <==> CoveredBy(cs, port, l4) || CoveredBy(ds, port, l4)
  {
    if CoveredBy(cs, port, l4) {
      var i :| 0 <= i < |cs| && Covers(cs[i], port, l4);
      assert Covers((cs + ds)[i], port, l4);
    }
    if CoveredBy(ds, port, l4) {
      var i :| 0 <= i < |ds| && Covers(ds[i], port, l4);
      assert Covers((cs + ds)[|cs| + i], port, l4);
    }
  }

  // The inbound moved to the port the guard advises is let through exactly
  // when its hop range, which moves nowhere, is in nobody's way; without a hop
  // range the advice is always good.
  lemma AdviceIsSoundIff(h: Host, exclude: nat, n: Inbound, p: int)
    requires !BindsNothing(n) && p != 0 && IsAdvice(h, exclude, n, p)
    ensures !Refuses(h, exclude, Claims(n.(port := p))) <==> !Refuses(h, exclude, Stamped(Hops(n), n.id))
    ensures Hops(n) == [] ==> !Refuses(h, exclude, Claims(n.(port := p)))
  {
    var m := n.(port := p);
    assert NeedOf(n, Claims(n)) != [];
    var need := NeedOf(n, Claims(n));
    forall i | 0 <= i < |PointClaims(m)|
      ensures PointClaims(m)[i].lo == PointClaims(m)[i].hi
              && !Busy(h, exclude, PointClaims(m)[i].lo, PointClaims(m)[i].l4)
    {
      var l4 := PointClaims(m)[i].l4;
      PointsAreNeeded(n, l4);
      var k :| 0 <= k < |need| && need[k] == l4;
      assert !BusyChecker(h, exclude)(p, need[k]);
    }
    FreePointIsAllowed(h, exclude, PointClaims(m));
    RefusesEither(h, exclude, PointClaims(m), Stamped(Hops(m), m.id));
    assert Hops(m) == Hops(n);
    if Hops(n) == [] { FreePointIsAllowed(h, exclude, Stamped(Hops(n), n.id)); }
  }

  lemma HopOverARowIsRefused(h: Host, exclude: nat, n: Inbound, p: int, k: nat, i: nat, j: nat)
    requires !BindsNothing(n) && p != 0 && IsAdvice(h, exclude, n, p)
    requires k < |h.rows| && h.rows[k].id != exclude && i < |Hops(n)| && j < |Claims(h.rows[k])|
    requires Overlaps(Hops(n)[i], Claims(h.rows[k])[j])
    ensures Refuses(h, exclude, Claims(n.(port := p)))
  {
    AdviceIsSoundIff(h, exclude, n, p);
    var cs := Stamped(Hops(n), n.id);
    assert Overlaps(cs[i], Claims(h.rows[k])[j]);
    ClashesWithRow(cs, h.rows, NotId(exclude), k);
    ClashesWithMore(cs, ClaimsOf(h.rows, NotId(exclude)), PanelClaims(h.panel));
  }

  lemma TuicClaimsItsPort(n: Inbound)
    requires n.protocol == TUIC && 1 <= n.port <= MAX_PORT
    ensures Claims(n) == [Point(n.port, UDP, n.id)]
  {
    assert RequiredPorts(n) == [UDP];
  }

  // Hopping over a port another inbound holds: the port advised is called
  // free, and asking for it is refused again.
  lemma AdviceCanBeRefused(h: Host, n: Inbound, p: int)
    requires |h.rows| == 1 && h.rows[0].id == 1 && h.rows[0].protocol == TUIC && h.rows[0].port == 20005
    requires n.protocol == Hysteria2 && n.port == 5000 && Hops(n) == [Claim(20000, 20010, UDP, 0)]
    requires IsAdvice(h, 0, n, p) && p != 0
    ensures Refuses(h, 0, Claims(n.(port := p)))
  {
    TuicClaimsItsPort(h.rows[0]);
    HopOverARowIsRefused(h, 0, n, p, 0, 0, 0);
  }

  // --- what is really used ---

  predicate Listens(n: Inbound, l4: L4) {
    !BindsNothing(n) && Opens(n.protocol, n.network, n.h3, n.brookMode, l4)
  }

  // The loopback port a ShadowTLS inbound hands its traffic on to.
  function Inner(n: Inbound): Option<int> {
    if !BindsNothing(n) && n.protocol == ShadowTLS then Some(InnerPort(n.port)) else None
  }

  // The ranges the firewall redirects to the inbound.
  function Redirected(n: Inbound): seq<Claim> {
    if BindsNothing(n) || n.protocol != Hysteria2 || n.hop == "" then [] else Redirects(n.hop)
  }

  // The ports an inbound uses: its own, the inner one, and those it hops over.
  predicate Binds(n: Inbound, port: int, l4: L4) {
    || (port == n.port && Listens(n, l4))
    || Inner(n) == Some(port)
    || CoveredBy(Redirected(n), port, l4)
  }

  ghost predicate ShareAPort(a: Inbound, b: Inbound) { exists port, l4 :: Binds(a, port, l4) && Binds(b, port, l4) }

  // A hop text the guard may read something in and the firewall refuses.
  predicate HopRefused(n: Inbound) { n.protocol == Hysteria2 && n.hop != "" && ParseSpec(n.hop).None? }

  function Points(n: Inbound, port: int, tcp: bool, udp: bool): seq<Claim> {
    (if tcp then [Point(port, TCP, n.id)] else []) + (if udp then [Point(port, UDP, n.id)] else [])
  }

  // Claims and uses, in three parts: claimed and used, claimed only, used only.
  function Backed(n: Inbound): seq<Claim> {
    if BindsNothing(n) then []
    else
      Points(n, n.port, Needs(n, TCP) && Listens(n, TCP), Needs(n, UDP) && Listens(n, UDP))
      + (if HopRefused(n) then [] else Stamped(Hops(n), n.id))
  }

  function Idle(n: Inbound): seq<Claim> {
    if BindsNothing(n) then []
    else
      Points(n, n.port, Needs(n, TCP) && !Listens(n, TCP), Needs(n, UDP) && !Listens(n, UDP))
      + (if HopRefused(n) then Stamped(Hops(n), n.id) else [])
  }

  function Unclaimed(n: Inbound): seq<Claim> {
    if BindsNothing(n) then []
    else
      Points(n, n.port, !Needs(n, TCP) && Listens(n, TCP), !Needs(n, UDP) && Listens(n, UDP))
      + (if Inner(n).Some? then Points(n, Inner(n).value, true, true) else [])
  }

  function Used(n: Inbound): seq<Claim> { Backed(n) + Unclaimed(n) }

  lemma PointsCover(n: Inbound, at: int, tcp: bool, udp: bool, port: int, l4: L4)
    ensures CoveredBy(Points(n, at, tcp, udp), port, l4) <==> port == at && if l4 == TCP then tcp else udp
  {
    var cs := Points(n, at, tcp, udp);
    if port == at && if l4 == TCP then tcp else udp {
      var k := if l4 == UDP && tcp then 1 else 0;
      assert Covers(cs[k], port, l4);
    }
  }

  lemma StampsCover(cs: seq<Claim>, id: nat, port: int, l4: L4)
    ensures CoveredBy(Stamped(cs, id), port, l4) <==> CoveredBy(cs, port, l4)
  {
    if CoveredBy(cs, port, l4) {
      var i :| 0 <= i < |cs| && Covers(cs[i], port, l4);
      assert Covers(Stamped(cs, id)[i], port, l4);
    }
  }

  lemma ClaimsInParts(n: Inbound, port: int, l4: L4)
    ensures CoveredBy(Claims(n), port, l4) <==> CoveredBy(Backed(n), port, l4) || CoveredBy(Idle(n), port, l4)
  {
    var hops := Stamped(Hops(n), n.id);
    CoveredByEither(PointClaims(n), hops, port, l4);
    if !BindsNothing(n) {
      var t, u := Needs(n, TCP), Needs(n, UDP);
      var backed := Points(n, n.port, t && Listens(n, TCP), u && Listens(n, UDP));
      var idle := Points(n, n.port, t && !Listens(n, TCP), u && !Listens(n, UDP));
      assert PointClaims(n) == Points(n, n.port, t, u);
      PointsCover(n, n.port, t, u, port, l4);
      PointsCover(n, n.port, t && Listens(n, TCP), u && Listens(n, UDP), port, l4);
      PointsCover(n, n.port, t && !Listens(n, TCP), u && !Listens(n, UDP), port, l4);
      CoveredByEither(backed, if HopRefused(n) then [] else hops, port, l4);
      CoveredByEither(idle, if HopRefused(n) then hops else [], port, l4);
    }
  }

  lemma RedirectsCover(n: Inbound, port: int, l4: L4)
    ensures CoveredBy(Redirected(n), port, l4)
            <==> CoveredBy(if BindsNothing(n) || HopRefused(n) then [] else Stamped(Hops(n), n.id), port, l4)
  {
    StampsCover(Hops(n), n.id, port, l4);
    AcceptedIsReserved(n.hop);
  }

  lemma UsesInParts(n: Inbound, port: int, l4: L4)
    ensures Binds(n, port, l4) <==> CoveredBy(Used(n), port, l4)
  {
    CoveredByEither(Backed(n), Unclaimed(n), port, l4);
    RedirectsCover(n, port, l4);
    if !BindsNothing(n) {
      var t, u := Listens(n, TCP), Listens(n, UDP);
      var hops := if HopRefused(n) then [] else Stamped(Hops(n), n.id);
      var inner := if Inner(n).Some? then Points(n, Inner(n).value, true, true) else [];
      PointsCover(n, n.port, Needs(n, TCP) && t, Needs(n, UDP) && u, port, l4);
      PointsCover(n, n.port, !Needs(n, TCP) && t, !Needs(n, UDP) && u, port, l4);
      if Inner(n).Some? { PointsCover(n, Inner(n).value, true, true, port, l4); }
      CoveredByEither(Points(n, n.port, Needs(n, TCP) && t, Needs(n, UDP) && u), hops, port, l4);
      CoveredByEither(Points(n, n.port, !Needs(n, TCP) && t, !Needs(n, UDP) && u), inner, port, l4);
    }
  }

  // The inbounds the guard takes for something else: AmneziaWG uses UDP where TCP
  // is claimed; ShadowTLS has a second listener; nothing serves SSH, nor a
  // transport the core no longer has; XHTTP over HTTP/3 alone listens on UDP; and
  // a hop text the firewall refuses is reserved wherever it can be read.
  predicate Misread(n: Inbound) {
    !BindsNothing(n) &&
    (|| n.protocol == AmneziaWG || n.protocol == ShadowTLS || n.protocol == SSH
     || Removed(n.protocol, n.network) || OverQuic(n.protocol, n.network, n.h3)
     || (HopRefused(n) && exists i :: 0 <= i < |Hops(n)| && !(Hops(n)[i].lo == Hops(n)[i].hi == n.port)))
  }

  lemma NeedsAreListens(n: Inbound, l4: L4)
    requires !BindsNothing(n) && !Misread(n)
    ensures Needs(n, l4) <==> Listens(n, l4)
  {
  }

  lemma ReadAlike(n: Inbound, port: int, l4: L4)
    requires !Misread(n)
    ensures CoveredBy(Claims(n), port, l4) <==> Binds(n, port, l4)
  {
    ClaimsInParts(n, port, l4);
    UsesInParts(n, port, l4);
    CoveredByEither(Backed(n), Unclaimed(n), port, l4);
    if !BindsNothing(n) {
      NeedsAreListens(n, TCP);
      NeedsAreListens(n, UDP);
      assert Unclaimed(n) == [];
      if CoveredBy(Idle(n), port, l4) {
        assert Idle(n) == if HopRefused(n) then Stamped(Hops(n), n.id) else [];
        var i :| 0 <= i < |Idle(n)| && Covers(Idle(n)[i], port, l4);
        HopsAreUDP(n, i);
        assert Binds(n, port, l4);
      }
    }
  }

  lemma HopsAreUDP(n: Inbound, i: nat)
    requires i < |Hops(n)|
    ensures Hops(n)[i].l4 == UDP && 1 <= Hops(n)[i].lo <= Hops(n)[i].hi <= MAX_PORT
    ensures Needs(n, UDP) && Listens(n, UDP)
  {
    assert Hops(n)[i] in HopClaims(n.hop);
  }

  // Apart from hop ranges an inbound claims its own port only.
  lemma OwnPoints(n: Inbound, port: int, l4: L4)
    requires !BindsNothing(n) && n.protocol != Hysteria2
    ensures CoveredBy(Claims(n), port, l4) <==> port == n.port && Needs(n, l4)
  {
    assert Claims(n) == Points(n, n.port, Needs(n, TCP), Needs(n, UDP));
    PointsCover(n, n.port, Needs(n, TCP), Needs(n, UDP), port, l4);
  }

  lemma OneTransportIsNeeded(n: Inbound)
    ensures Needs(n, TCP) || Needs(n, UDP)
    ensures Removed(n.protocol, n.network) || OverQuic(n.protocol, n.network, n.h3) ==>
              Needs(n, if n.network == MKCP || n.network == QUIC then UDP else TCP)
  {
  }

  lemma OwnPortMisread(n: Inbound) returns (port: int, l4: L4)
    requires Misread(n) && n.protocol != Hysteria2
    ensures CoveredBy(Claims(n), port, l4) != Binds(n, port, l4)
  {
    port, l4 := n.port, TCP;
    if n.protocol == ShadowTLS { port := InnerPort(n.port); }
    if n.network == MKCP || n.network == QUIC { l4 := if UsesTransport(n.protocol) then UDP else TCP; }
    OneTransportIsNeeded(n);
    OwnPoints(n, port, l4);
  }

  lemma HopMisread(n: Inbound) returns (port: int)
    requires Misread(n) && n.protocol == Hysteria2
    ensures CoveredBy(Claims(n), port, UDP) && !Binds(n, port, UDP)
  {
    var i :| 0 <= i < |Hops(n)| && !(Hops(n)[i].lo == Hops(n)[i].hi == n.port);
    var c := Hops(n)[i];
    HopsAreUDP(n, i);
    port := if c.lo != n.port then c.lo else c.hi;
    assert Covers(Stamped(Hops(n), n.id)[i], port, UDP);
    CoveredByEither(PointClaims(n), Stamped(Hops(n), n.id), port, UDP);
  }

  // A port and a transport on which claim and use part.
  lemma MisreadSomewhere(n: Inbound) returns (port: int, l4: L4)
    requires Misread(n)
    ensures CoveredBy(Claims(n), port, l4) != Binds(n, port, l4)
  {
    if n.protocol == Hysteria2 {
      port := HopMisread(n);
      l4 := UDP;
    } else {
      port, l4 := OwnPortMisread(n);
    }
  }

  // An inbound's claims are what it uses exactly when it is not misread.
  lemma ClaimsAreBindsIff(n: Inbound)
    ensures (forall port, l4 :: CoveredBy(Claims(n), port, l4) <==> Binds(n, port, l4)) <==> !Misread(n)
  {
    if Misread(n) {
      var port, l4 := MisreadSomewhere(n);
    } else {
      forall port, l4
        ensures CoveredBy(Claims(n), port, l4) <==> Binds(n, port, l4)
      {
        ReadAlike(n, port, l4);
      }
    }
  }

  // --- two inbounds ---

  ghost predicate Ranges(cs: seq<Claim>) { forall c :: c in cs ==> c.lo <= c.hi }

  ghost predicate SameCover(cs: seq<Claim>, ds: seq<Claim>) {
    forall port, l4 :: CoveredBy(cs, port, l4) <==> CoveredBy(ds, port, l4)
  }

  ghost predicate SharedPoint(cs: seq<Claim>, ds: seq<Claim>) {
    exists port, l4 :: CoveredBy(cs, port, l4) && CoveredBy(ds, port, l4)
  }

  lemma ClashesIffCovered(cs: seq<Claim>, ds: seq<Claim>)
    requires Ranges(cs) && Ranges(ds)
    ensures Clashes(cs, ds) <==> SharedPoint(cs, ds)
  {
    if Clashes(cs, ds) {
      var i, j :| 0 <= i < |cs| && 0 <= j < |ds| && Overlaps(cs[i], ds[j]);
      assert cs[i] in cs && ds[j] in ds;
      OverlapsIffSharesAPort(cs[i], ds[j]);
      var port, l4 :| Covers(cs[i], port, l4) && Covers(ds[j], port, l4);
      assert CoveredBy(cs, port, l4) && CoveredBy(ds, port, l4);
    }
    if port, l4 :| CoveredBy(cs, port, l4) && CoveredBy(ds, port, l4) {
      var i, j :| 0 <= i < |cs| && Covers(cs[i], port, l4) && 0 <= j < |ds| && Covers(ds[j], port, l4);
      assert Overlaps(cs[i], ds[j]);
    }
  }

  lemma SameCoverClashes(cs: seq<Claim>, cs': seq<Claim>, ds: seq<Claim>, ds': seq<Claim>)
    requires Ranges(cs) && Ranges(cs') && Ranges(ds) && Ranges(ds') && SameCover(cs, cs') && SameCover(ds, ds')
    ensures Clashes(cs, ds) <==> Clashes(cs', ds')
  {
    ClashesIffCovered(cs, ds);
    ClashesIffCovered(cs', ds');
    assert SharedPoint(cs, ds) <==> SharedPoint(cs', ds');
  }

  lemma StampsAreRanges(cs: seq<Claim>, id: nat)
    requires Ranges(cs)
    ensures Ranges(Stamped(cs, id))
  {
    forall c | c in Stamped(cs, id)
      ensures c.lo <= c.hi
    {
      var i :| 0 <= i < |cs| && Stamped(cs, id)[i] == c;
      assert cs[i] in cs;
    }
  }

  lemma PointsAreRanges(n: Inbound, port: int, tcp: bool, udp: bool)
    ensures Ranges(Points(n, port, tcp, udp))
  {
  }

  lemma RangesJoin(cs: seq<Claim>, ds: seq<Claim>)
    requires Ranges(cs) && Ranges(ds)
    ensures Ranges(cs + ds)
  {
  }

  lemma HopsAreRanges(n: Inbound)
    ensures Ranges(Stamped(Hops(n), n.id))
  {
    StampsAreRanges(Hops(n), n.id);
  }

  lemma PartsAreRanges(n: Inbound)
    ensures Ranges(Claims(n)) && Ranges(Backed(n)) && Ranges(Idle(n)) && Ranges(Unclaimed(n)) && Ranges(Used(n))
    ensures Ranges(Backed(n) + Idle(n))
  {
    ClaimsAreRanges(n);
    HopsAreRanges(n);
    if !BindsNothing(n) {
      var hops, t, u := Stamped(Hops(n), n.id), Needs(n, TCP), Needs(n, UDP);
      var inner := if Inner(n).Some? then Points(n, Inner(n).value, true, true) else [];
      RangesJoin(Points(n, n.port, t && Listens(n, TCP), u && Listens(n, UDP)), if HopRefused(n) then [] else hops);
      RangesJoin(Points(n, n.port, t && !Listens(n, TCP), u && !Listens(n, UDP)), if HopRefused(n) then hops else []);
      RangesJoin(Points(n, n.port, !t && Listens(n, TCP), !u && Listens(n, UDP)), inner);
    }
    RangesJoin(Backed(n), Idle(n));
    RangesJoin(Backed(n), Unclaimed(n));
  }

  lemma ClaimsCoverParts(n: Inbound)
    ensures SameCover(Claims(n), Backed(n) + Idle(n))
  {
    forall port, l4
      ensures CoveredBy(Claims(n), port, l4) <==> CoveredBy(Backed(n) + Idle(n), port, l4)
    {
      ClaimsInParts(n, port, l4);
      CoveredByEither(Backed(n), Idle(n), port, l4);
    }
  }

  lemma FourWays(a: seq<Claim>, b: seq<Claim>, c: seq<Claim>, d: seq<Claim>)
    ensures Clashes(a + b, c + d) <==> Clashes(a, c) || Clashes(b, c + d) || Clashes(d, a + b)
  {
    ClashIsMutual(a + b, c + d);
    ClashesWithMore(c + d, a, b);
    ClashIsMutual(c + d, a);
    ClashIsMutual(c + d, b);
    ClashesWithMore(a, c, d);
    ClashIsMutual(a, d);
    ClashesWithMore(d, a, b);
    ClashesWithMore(b, c, d);
    ClashIsMutual(d, b);
  }

  // What one of them only claims meets what the other claims.
  predicate IdleClash(a: Inbound, b: Inbound) {
    Clashes(Idle(a), Backed(b) + Idle(b)) || Clashes(Idle(b), Backed(a) + Idle(a))
  }

  // What one of them uses without a claim meets what the other uses.
  predicate UnclaimedMeet(a: Inbound, b: Inbound) {
    Clashes(Unclaimed(a), Used(b)) || Clashes(Unclaimed(b), Used(a))
  }

  lemma ClashInParts(a: Inbound, b: Inbound)
    ensures Clashes(Claims(a), Claims(b)) <==> Clashes(Backed(a), Backed(b)) || IdleClash(a, b)
  {
    PartsAreRanges(a);
    PartsAreRanges(b);
    ClaimsCoverParts(a);
    ClaimsCoverParts(b);
    SameCoverClashes(Claims(a), Backed(a) + Idle(a), Claims(b), Backed(b) + Idle(b));
    FourWays(Backed(a), Idle(a), Backed(b), Idle(b));
  }

  lemma ShareInParts(a: Inbound, b: Inbound)
    ensures ShareAPort(a, b) <==> Clashes(Backed(a), Backed(b)) || UnclaimedMeet(a, b)
  {
    PartsAreRanges(a);
    PartsAreRanges(b);
    forall port, l4
      ensures Binds(a, port, l4) <==> CoveredBy(Used(a), port, l4)
      ensures Binds(b, port, l4) <==> CoveredBy(Used(b), port, l4)
    {
      UsesInParts(a, port, l4);
      UsesInParts(b, port, l4);
    }
    ClashesIffCovered(Used(a), Used(b));
    assert ShareAPort(a, b) <==> SharedPoint(Used(a), Used(b));
    FourWays(Backed(a), Unclaimed(a), Backed(b), Unclaimed(b));
  }

  // For any two inbounds the guard is right, its claims clash exactly when the two
  // use a port in common, exactly where ports both claimed and used clash, or an
  // idle claim clashes just when an unclaimed use meets the other. Two inbounds
  // that are not misread are always judged right.
  lemma GuardIsRightIff(a: Inbound, b: Inbound)
    ensures (Clashes(Claims(a), Claims(b)) <==> ShareAPort(a, b))
            <==> Clashes(Backed(a), Backed(b)) || (IdleClash(a, b) <==> UnclaimedMeet(a, b))
    ensures !Misread(a) && !Misread(b) ==> (Clashes(Claims(a), Claims(b)) <==> ShareAPort(a, b))
  {
    ClashInParts(a, b);
    ShareInParts(a, b);
    if !Misread(a) && !Misread(b) {
      NothingUnclaimed(a);
      NothingUnclaimed(b);
      PartsAreRanges(a);
      PartsAreRanges(b);
      ClashesIffCovered(Claims(a), Claims(b));
      ClaimsAreBindsIff(a);
      ClaimsAreBindsIff(b);
    }
  }

  lemma NothingUnclaimed(n: Inbound)
    requires !Misread(n)
    ensures Unclaimed(n) == []
  {
    if !BindsNothing(n) {
      NeedsAreListens(n, TCP);
      NeedsAreListens(n, UDP);
    }
  }

  // What is used unclaimed, in full: the tunnel's UDP port, the port of XHTTP over
  // HTTP/3 where UDP is not claimed anyway, and both sides of the inner port.
  lemma UnclaimedIs(n: Inbound)
    requires !BindsNothing(n)
    ensures Unclaimed(n)
         == if n.protocol == ShadowTLS then
              [Point(InnerPort(n.port), TCP, n.id), Point(InnerPort(n.port), UDP, n.id)]
            else if n.protocol == AmneziaWG
                    || (OverQuic(n.protocol, n.network, n.h3) && n.protocol != Shadowsocks && n.protocol != SOCKS) then
              [Point(n.port, UDP, n.id)]
            else []
  {
  }

  // Over every guarded run: two inbounds come to use one port exactly when what one
  // of them uses unclaimed meets what the other uses.
  lemma SharedPortsAreUnclaimedIff(rows: seq<Inbound>, panel: PanelPorts, ops: seq<Op>, end: seq<Inbound>, i: nat,
                                   j: nat)
    requires Disjoint(rows, panel) && end == Run(rows, panel, ops) && i < |end| && j < |end| && i != j
    requires forall k :: 0 <= k < |ops| && ops[k].Create? ==> ops[k].id != 0
    ensures ShareAPort(end[i], end[j]) <==> UnclaimedMeet(end[i], end[j])
    ensures ShareAPort(end[i], end[j]) ==> Misread(end[i]) || Misread(end[j])
  {
    EveryRunStaysDisjoint(rows, panel, ops);
    var a, b := end[i], end[j];
    assert Separate()(a, b);
    ClashInParts(a, b);
    ShareInParts(a, b);
    GuardIsRightIff(a, b);
  }

  // --- where it goes wrong ---

  const QUIET := PanelPorts(0, 0, 0, false)

  predicate AllOurs(live: seq<Listener>) { forall k :: 0 <= k < |live| ==> live[k].ours }

  lemma QuietHost(rows: seq<Inbound>, cs: seq<Claim>, live: seq<Listener>)
    requires |rows| <= 1 && forall k :: 0 <= k < |rows| ==> rows[k].id != 0 && !Clashes(cs, Claims(rows[k]))
    requires AllOurs(live)
    ensures !Refuses(Host(rows, QUIET, live), 0, cs)
  {
    assert PanelClaims(QUIET) == [];
    if |rows| == 1 {
      OneMoreRow(rows, 0, NotId(0));
      assert rows[..1] == rows && rows[..0] == [];
      assert Taken(Host(rows, QUIET, live), 0) == Claims(rows[0]);
    }
  }

  lemma QuietCreate(rows: seq<Inbound>, n: Inbound, id: nat, live: seq<Listener>)
    requires |rows| <= 1 && !HasRow(rows, id) && Valid(n) && n.protocol != SSH && AllOurs(live)
    requires forall k :: 0 <= k < |rows| ==> rows[k].id != 0 && !Clashes(Claims(n), Claims(rows[k]))
    ensures After(rows, QUIET, Create(n, id, live)) == rows + [n.(id := id)]
  {
    QuietHost(rows, Claims(n), live);
  }

  lemma TwoCreates(first: Op, second: Op)
    ensures Run([], QUIET, [first, second]) == After(After([], QUIET, first), QUIET, second)
  {
    assert [first, second][..1] == [first] && [first][..0] == [];
    assert Run([], QUIET, [first]) == After(Run([], QUIET, []), QUIET, first);
  }

  // Two creates the guard sees no clash between both go through, whatever sockets
  // of the panel's own cores are open by then.
  lemma BothGoThrough(a: Inbound, b: Inbound, live: seq<Listener>)
    requires Valid(a) && Valid(b) && a.protocol != SSH && b.protocol != SSH && AllOurs(live)
    requires !Clashes(Claims(b), Claims(a.(id := 1)))
    ensures Run([], QUIET, [Create(a, 1, []), Create(b, 2, live)]) == [a.(id := 1), b.(id := 2)]
  {
    QuietCreate([], a, 1, []);
    QuietCreate([a.(id := 1)], b, 2, live);
    TwoCreates(Create(a, 1, []), Create(b, 2, live));
    assert [] + [a.(id := 1)] == [a.(id := 1)] && [a.(id := 1)] + [b.(id := 2)] == [a.(id := 1), b.(id := 2)];
  }

  lemma OnePoint(n: Inbound, l4: L4)
    requires !BindsNothing(n) && n.protocol != Hysteria2 && Needs(n, l4) && !Needs(n, if l4 == TCP then UDP else TCP)
    ensures Claims(n) == [Point(n.port, l4, n.id)]
  {
  }

  // AmneziaWG is WireGuard's wire protocol, and is claimed for TCP all the same:
  // on any port, two creates both go through, and both inbounds use it.
  lemma TwoTunnelsOnOnePort(w: Inbound, t: Inbound)
    requires w.protocol == WireGuard && t.protocol == AmneziaWG && 1 <= w.port == t.port <= MAX_PORT
    ensures var rows := Run([], QUIET, [Create(w, 1, []), Create(t, 2, [])]);
            && rows == [w.(id := 1), t.(id := 2)]
            && Binds(rows[0], w.port, UDP) && Binds(rows[1], w.port, UDP)
  {
    OnePoint(w.(id := 1), UDP);
    OnePoint(t, TCP);
    BothGoThrough(w, t, []);
  }

  predicate OnItsInnerPort(v: Inbound, s: Inbound) {
    && v.protocol == VLESS && v.network == Raw && s.protocol == ShadowTLS
    && 1 <= s.port <= MAX_PORT && v.port == InnerPort(s.port)
  }

  lemma InnerIsUnclaimed(v: Inbound, s: Inbound)
    requires OnItsInnerPort(v, s)
    ensures !Clashes(Claims(v), Claims(s)) && !Clashes(Claims(s), Claims(v))
    ensures Binds(v, v.port, TCP) && Binds(s, v.port, TCP)
  {
    OnePoint(v, TCP);
    OnePoint(s, TCP);
  }

  // VLESS on the port where ShadowTLS will put its inner listener, in either order,
  // even with the first one's sockets open: both go through and both use it.
  lemma AnInnerListenerIsNotSeen(v: Inbound, s: Inbound, live: seq<Listener>)
    requires OnItsInnerPort(v, s) && AllOurs(live)
    ensures Run([], QUIET, [Create(v, 1, []), Create(s, 2, live)]) == [v.(id := 1), s.(id := 2)]
    ensures Run([], QUIET, [Create(s, 1, []), Create(v, 2, live)]) == [s.(id := 1), v.(id := 2)]
    ensures Binds(v.(id := 1), v.port, TCP) && Binds(s.(id := 2), v.port, TCP)
    ensures Binds(s.(id := 1), v.port, TCP) && Binds(v.(id := 2), v.port, TCP)
  {
    InnerIsUnclaimed(v.(id := 1), s);
    InnerIsUnclaimed(v, s.(id := 1));
    InnerIsUnclaimed(v.(id := 2), s.(id := 2));
    BothGoThrough(v, s, live);
    BothGoThrough(s, v, live);
  }

  lemma DownwardClaims(n: Inbound, lo: nat, hi: nat, port: int)
    requires n.protocol == Hysteria2 && 1 <= n.port <= MAX_PORT && 1 <= lo < hi <= MAX_PORT
    requires n.hop == Itoa(hi) + "-" + Itoa(lo) && lo <= port <= hi && port != n.port
    ensures CoveredBy(Claims(n), port, UDP) && !Binds(n, port, UDP)
  {
    DownwardsIsRefused(lo, hi);
    assert Covers(Stamped(Hops(n), n.id)[0], port, UDP);
    CoveredByEither(PointClaims(n), Stamped(Hops(n), n.id), port, UDP);
  }

  lemma TuicUses(t: Inbound, port: int, l4: L4)
    requires t.protocol == TUIC && 1 <= t.port <= MAX_PORT
    ensures Binds(t, port, l4) <==> port == t.port && l4 == UDP
    ensures CoveredBy(Claims(t), t.port, UDP)
  {
    OnePoint(t, UDP);
    assert Covers(Claims(t)[0], t.port, UDP);
  }

  // A hop range written downwards is stored, reserves every port in it, and is
  // redirected nowhere: a TUIC inbound on one of those ports is refused for nothing.
  lemma ADownwardRangeReservesForNothing(n: Inbound, t: Inbound, lo: nat, hi: nat)
    requires n.protocol == Hysteria2 && 1 <= n.port <= MAX_PORT && 1 <= lo < hi <= MAX_PORT
    requires n.hop == Itoa(hi) + "-" + Itoa(lo)
    requires t.protocol == TUIC && lo <= t.port <= hi && t.port != n.port
    ensures Valid(n) && Clashes(Claims(t), Claims(n)) && !ShareAPort(t, n)
  {
    DownwardClaims(n, lo, hi, t.port);
    TuicUses(t, t.port, UDP);
    MeetAt(Claims(t), Claims(n), t.port, UDP);
    if ShareAPort(t, n) {
      var port, l4 :| Binds(t, port, l4) && Binds(n, port, l4);
      TuicUses(t, port, l4);
    }
  }

  lemma MeetAt(cs: seq<Claim>, ds: seq<Claim>, port: int, l4: L4)
    requires CoveredBy(cs, port, l4) && CoveredBy(ds, port, l4)
    ensures Clashes(cs, ds)
  {
    var i, j :| 0 <= i < |cs| && Covers(cs[i], port, l4) && 0 <= j < |ds| && Covers(ds[j], port, l4);
    assert Overlaps(cs[i], ds[j]);
  }

  // And a port that TCP and UDP could share is refused: a tunnel beside AnyTLS.
  lemma ATunnelIsRefusedForNothing(a: Inbound, b: Inbound)
    requires a.protocol == AmneziaWG && b.protocol == AnyTLS && 1 <= a.port == b.port <= MAX_PORT
    ensures Valid(a) && Valid(b) && Clashes(Claims(a), Claims(b)) && !ShareAPort(a, b)
  {
    OnePoint(a, TCP);
    OnePoint(b, TCP);
    assert Overlaps(Claims(a)[0], Claims(b)[0]);
  }
}
