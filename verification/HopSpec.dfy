// The port-hopping text of a Hysteria2 inbound, read as port ranges twice: by the
// port guard, entry by entry, and by the firewall, all or nothing.
module HopSpec {
  import opened Numerals
  import opened IpKeys
  import opened InboundModel

  // A contiguous port range held on one transport; id 0 is the panel itself.
  datatype Claim = Claim(lo: int, hi: int, l4: L4, id: nat)

  function Replace(s: string, from: char, to: char): (r: string)
    ensures |r| == |s| && forall k :: 0 <= k < |s| ==> r[k] == if s[k] == from then to else s[k]
  {
    seq(|s|, i requires 0 <= i < |s| => if s[i] == from then to else s[i])
  }

  function Split(s: string, sep: char): (parts: seq<string>)
    ensures parts != []
    decreases |s|
  {
    var i := IndexOf(s, sep);
    if i == |s| then [s] else [s[..i]] + Split(s[i + 1..], sep)
  }

  function Atoi(s: string): Option<nat> {
    if s != "" && s[0] == '+' then ParseDecimal(s[1..]) else ParseDecimal(s)
  }

  // One entry: "lo-hi", "lo:hi" in either order, or a single port.
  function HopPart(part: string): (r: Option<Claim>)
    ensures r.Some? ==> 1 <= r.value.lo <= r.value.hi <= MAX_PORT && r.value.l4 == UDP
  {
    var s := Replace(TrimSpace(part), '-', ':');
    var i := IndexOf(s, ':');
    Span(s[..i], if i == |s| then s else s[i + 1..])
  }

  function Span(loS: string, hiS: string): (r: Option<Claim>)
    ensures r.Some? ==> 1 <= r.value.lo <= r.value.hi <= MAX_PORT && r.value.l4 == UDP
  {
    var lo, hi := Atoi(TrimSpace(loS)), Atoi(TrimSpace(hiS));
    if lo.None? || hi.None? then None
    else
      var a := if lo.value <= hi.value then lo.value else hi.value;
      var b := if lo.value <= hi.value then hi.value else lo.value;
      if a < 1 || b > MAX_PORT then None else Some(Claim(a, b, UDP, 0))
  }

  function HopParts(parts: seq<string>): (r: seq<Claim>)
    ensures forall c :: c in r ==> 1 <= c.lo <= c.hi <= MAX_PORT && c.l4 == UDP
  {
    if parts == [] then []
    else
      var before := HopParts(parts[..|parts| - 1]);
      match HopPart(parts[|parts| - 1])
      case None => before
      case Some(c) => before + [c]
  }

  function HopClaims(spec: string): seq<Claim> { HopParts(Split(spec, ',')) }

  method ParseSpan(text: string) returns (r: Option<Claim>)
    ensures r == var i := IndexOf(text, ':'); Span(text[..i], if i == |text| then text else text[i + 1..])
  {
    var i := IndexOf(text, ':');
    var loS, hiS := text[..i], text;
    if i < |text| { hiS := text[i + 1..]; }
    var lo, hi := Atoi(TrimSpace(loS)), Atoi(TrimSpace(hiS));
    if lo.None? || hi.None? { return None; }
    var a, b := lo.value, hi.value;
    if a > b { a, b := b, a; }
    if a < 1 || b > MAX_PORT { return None; }
    return Some(Claim(a, b, UDP, 0));
  }

  // One entry, already trimmed and not blank.
  method ReadEntry(part: string, ghost raw: string) returns (c: Option<Claim>)
    requires part == TrimSpace(raw)
    ensures c == HopPart(raw)
  {
    c := ParseSpan(Replace(part, '-', ':'));
  }

  lemma OneMorePart(parts: seq<string>, i: nat)
    requires i < |parts|
    ensures HopParts(parts[..i + 1])
         == HopParts(parts[..i]) + match HopPart(parts[i]) case None => [] case Some(c) => [c]
  {
    assert parts[..i + 1][..i] == parts[..i];
  }

  method HopRanges(spec: string) returns (out: seq<Claim>)
    ensures out == HopClaims(spec)
  {
    var parts := Split(spec, ',');
    out := [];
    var i := 0;
    while i < |parts|
      invariant 0 <= i <= |parts|
      invariant out == HopParts(parts[..i])
    {
      OneMorePart(parts, i);
      var part := TrimSpace(parts[i]);
      i := i + 1;
      if part == "" {
        BlankPart(parts[i - 1]);
        continue;
      }
      var c := ReadEntry(part, parts[i - 1]);
      if c.Some? { out := out + [c.value]; }
    }
    assert parts[..|parts|] == parts;
  }

  lemma BlankPart(part: string)
    requires TrimSpace(part) == ""
    ensures HopPart(part).None?
  {
    assert Replace("", '-', ':') == "";
    assert TrimSpace("") == "";
  }

  // A malformed entry reserves nothing, and costs the others nothing.
  lemma {:induction false} HopPartsConcat(a: seq<string>, b: seq<string>)
    ensures HopParts(a + b) == HopParts(a) + HopParts(b)
  {
    if b == [] {
      assert a + b == a;
    } else {
      assert (a + b)[..|a + b| - 1] == a + b[..|b| - 1];
      HopPartsConcat(a, b[..|b| - 1]);
    }
  }

  // A text that is `a`, one separator, and `b`.
  predicate Joins(s: string, a: string, c: char, b: string) {
    |s| == |a| + 1 + |b| && s[..|a|] == a && s[|a|] == c && s[|a| + 1..] == b
  }

  lemma JoinedElements(s: string, a: string, c: char, b: string)
    requires Joins(s, a, c, b)
    ensures forall k :: 0 <= k < |a| ==> s[k] == a[k]
    ensures s[|a|] == c
    ensures forall k :: 0 <= k < |b| ==> s[|a| + 1 + k] == b[k]
  {
    forall k | 0 <= k < |a| ensures s[k] == a[k] { assert s[..|a|][k] == s[k]; }
    forall k | 0 <= k < |b| ensures s[|a| + 1 + k] == b[k] { assert s[|a| + 1..][k] == s[|a| + 1 + k]; }
  }

  lemma JoinFrom(s: string, a: string, c: char, b: string)
    requires |s| == |a| + 1 + |b| && s[|a|] == c
    requires (forall k :: 0 <= k < |a| ==> s[k] == a[k]) && (forall k :: 0 <= k < |b| ==> s[|a| + 1 + k] == b[k])
    ensures Joins(s, a, c, b)
  {
    assert s[..|a|] == a;
    assert s[|a| + 1..] == b;
  }

  // The first separator of the whole is that of the first text, or the one between.
  lemma FirstOfJoin(s: string, a: string, b: string, sep: char, i: nat)
    requires Joins(s, a, sep, b) && i == IndexOf(a, sep)
    ensures IndexOf(s, sep) == i && s[..i] == a[..i]
  {
    JoinedElements(s, a, sep, b);
    assert s[..i] == a[..i];
    IndexOfIs(s, sep, i);
  }

  lemma RestOfJoin(s: string, a: string, b: string, sep: char, i: nat)
    requires Joins(s, a, sep, b) && i < |a|
    ensures Joins(s[i + 1..], a[i + 1..], sep, b)
  {
    JoinedElements(s, a, sep, b);
    JoinFrom(s[i + 1..], a[i + 1..], sep, b);
  }

  lemma Regroup(x: seq<string>, y: seq<string>, z: seq<string>)
    ensures x + (y + z) == (x + y) + z
  {
  }

  lemma SplitOnce(s: string, sep: char, first: string, rest: string)
    requires IndexOf(s, sep) < |s| && first == s[..IndexOf(s, sep)] && rest == s[IndexOf(s, sep) + 1..]
    ensures Split(s, sep) == [first] + Split(rest, sep)
  {
  }

  lemma SplitBetween(s: string, a: string, b: string, sep: char)
    requires Joins(s, a, sep, b) && IndexOf(a, sep) == |a|
    ensures Split(s, sep) == Split(a, sep) + Split(b, sep)
  {
    FirstOfJoin(s, a, b, sep, |a|);
    assert a[..|a|] == a;
    SplitOnce(s, sep, a, b);
  }

  lemma {:induction false} SplitJoin(s: string, a: string, b: string, sep: char)
    requires Joins(s, a, sep, b)
    ensures Split(s, sep) == Split(a, sep) + Split(b, sep)
    decreases |a|
  {
    var i := IndexOf(a, sep);
    if i < |a| {
      var first, rest, tail := a[..i], a[i + 1..], s[i + 1..];
      FirstOfJoin(s, a, b, sep, i);
      RestOfJoin(s, a, b, sep, i);
      SplitJoin(tail, rest, b, sep);
      SplitOnce(s, sep, first, tail);
      SplitOnce(a, sep, first, rest);
      Regroup([first], Split(rest, sep), Split(b, sep));
    } else {
      SplitBetween(s, a, b, sep);
    }
  }

  lemma {:induction false} IndexOfIs(s: string, c: char, i: nat)
    requires i <= |s| && c !in s[..i] && (i < |s| ==> s[i] == c)
    ensures IndexOf(s, c) == i
  {
    var j := IndexOf(s, c);
    assert forall k :: 0 <= k < i ==> s[..i][k] == s[k];
    assert forall k :: 0 <= k < j ==> s[..j][k] == s[k];
  }

  lemma ListIsItsEntries(a: string, b: string)
    ensures HopClaims(a + "," + b) == HopClaims(a) + HopClaims(b)
  {
    assert Joins(a + "," + b, a, ',', b);
    SplitJoin(a + "," + b, a, b, ',');
    HopPartsConcat(Split(a, ','), Split(b, ','));
  }

  predicate Digits(s: string) { forall k :: 0 <= k < |s| ==> '0' <= s[k] <= '9' }

  lemma {:induction false} ItoaIsDigits(n: nat)
    ensures Digits(Itoa(n))
  {
    if n >= 10 { ItoaIsDigits(n / 10); }
  }

  lemma TrimStays(s: string)
    requires s != "" && !IsSpace(s[0]) && !IsSpace(s[|s| - 1])
    ensures TrimSpace(s) == s
  {
  }

  lemma DigitsAtoi(n: nat)
    ensures Digits(Itoa(n)) && TrimSpace(Itoa(n)) == Itoa(n) && Atoi(Itoa(n)) == Some(n)
  {
    ItoaIsDigits(n);
    ParseUndoesItoa(n);
    TrimStays(Itoa(n));
  }

  predicate Reads(text: string, n: nat) {
    text != "" && Digits(text) && TrimSpace(text) == text && Atoi(text) == Some(n)
  }

  lemma DashOrColon(s: string, a: string, b: string)
    requires Joins(s, a, '-', b) && Digits(a) && Digits(b)
    ensures Joins(Replace(s, '-', ':'), a, ':', b) && IndexOf(Replace(s, '-', ':'), ':') == |a|
  {
    var t := Replace(s, '-', ':');
    forall k | 0 <= k < |s| && k != |a|
      ensures t[k] == s[k] != '-'
    {
      assert s[k] == if k < |a| then a[k] else b[k - |a| - 1];
    }
    assert t[..|a|] == a && t[|a| + 1..] == b;
    IndexOfIs(t, ':', |a|);
  }

  lemma PartIsRead(s: string, a: string, b: string, lo: nat, hi: nat)
    requires Joins(s, a, '-', b) && Reads(a, lo) && Reads(b, hi)
    ensures HopPart(s) == Span(a, b)
  {
    assert s[0] == a[0] && s[|s| - 1] == b[|b| - 1];
    TrimStays(s);
    DashOrColon(s, a, b);
  }

  lemma SpanIsRead(a: string, b: string, lo: nat, hi: nat)
    requires Reads(a, lo) && Reads(b, hi)
    ensures 1 <= lo <= hi <= MAX_PORT ==> Span(a, b) == Some(Claim(lo, hi, UDP, 0))
    ensures 1 <= hi <= lo <= MAX_PORT ==> Span(a, b) == Some(Claim(hi, lo, UDP, 0))
  {
  }

  lemma OneEntry(part: string, c: Claim)
    requires ',' !in part && HopPart(part) == Some(c)
    ensures HopClaims(part) == [c]
  {
    IndexOfIs(part, ',', |part|);
    assert Split(part, ',') == [part];
    assert [part][..0] == [];
    assert HopParts([]) == [];
  }

  lemma EntryIsRead(a: string, b: string, lo: nat, hi: nat, c: Claim)
    requires Reads(a, lo) && Reads(b, hi) && Span(a, b) == Some(c)
    ensures HopClaims(a + "-" + b) == [c]
  {
    var s := a + "-" + b;
    assert Joins(s, a, '-', b);
    PartIsRead(s, a, b, lo, hi);
    OneEntry(s, c);
  }

  // What an operator writes is what is reserved, either way round.
  lemma WrittenRangeIsRead(lo: nat, hi: nat)
    requires 1 <= lo <= hi <= MAX_PORT
    ensures HopClaims(Itoa(lo) + "-" + Itoa(hi)) == [Claim(lo, hi, UDP, 0)]
    ensures HopClaims(Itoa(hi) + "-" + Itoa(lo)) == [Claim(lo, hi, UDP, 0)]
  {
    var a, b := Itoa(lo), Itoa(hi);
    DigitsAtoi(lo);
    DigitsAtoi(hi);
    SpanIsRead(a, b, lo, hi);
    SpanIsRead(b, a, hi, lo);
    EntryIsRead(a, b, lo, hi, Claim(lo, hi, UDP, 0));
    EntryIsRead(b, a, hi, lo, Claim(lo, hi, UDP, 0));
  }

  // --- the firewall's reading ---

  // The first dash or colon, or the length.
  function MarkAt(s: string): (i: nat)
    ensures i <= |s| && '-' !in s[..i] && ':' !in s[..i]
    ensures i < |s| ==> s[i] == '-' || s[i] == ':'
  {
    var dash, colon := IndexOf(s, '-'), IndexOf(s, ':');
    if dash < colon then
      (assert forall k :: 0 <= k < dash ==> s[..colon][k] == s[k];
       dash)
    else
      (assert forall k :: 0 <= k < colon ==> s[..dash][k] == s[k];
       colon)
  }

  // One entry, which must run upwards.
  function StrictPart(part: string): (r: Option<Claim>)
    ensures r.Some? ==> 1 <= r.value.lo <= r.value.hi <= MAX_PORT
  {
    var i := MarkAt(part);
    var lo := Atoi(TrimSpace(part[..i]));
    var hi := if i == |part| then lo else Atoi(TrimSpace(part[i + 1..]));
    if lo.None? || hi.None? || lo.value < 1 || hi.value > MAX_PORT || lo.value > hi.value then None
    else Some(Claim(lo.value, hi.value, UDP, 0))
  }

  // Blank entries are skipped; any other that cannot be read fails the whole list.
  function StrictParts(parts: seq<string>): Option<seq<Claim>> {
    if parts == [] then Some([])
    else
      var before, part := StrictParts(parts[..|parts| - 1]), TrimSpace(parts[|parts| - 1]);
      if before.None? || part == "" then before
      else
        match StrictPart(part)
        case None => None
        case Some(c) => Some(before.value + [c])
  }

  function ParseSpec(spec: string): Option<seq<Claim>> {
    var r := StrictParts(Split(TrimSpace(spec), ','));
    if r == Some([]) then None else r
  }

  // The ranges that are redirected, if any are.
  function Redirects(spec: string): seq<Claim> {
    var r := ParseSpec(spec);
    if r.Some? then r.value else []
  }

  lemma {:induction false} OneBadPart(parts: seq<string>, k: nat)
    requires k <= |parts| && StrictParts(parts[..k]).None?
    ensures StrictParts(parts).None?
    decreases |parts|
  {
    if k == |parts| {
      assert parts[..k] == parts;
    } else {
      assert parts[..|parts| - 1][..k] == parts[..k];
      OneBadPart(parts[..|parts| - 1], k);
    }
  }

  method ParseEntry(part: string) returns (r: Option<Claim>)
    ensures r == StrictPart(part)
  {
    var m := MarkAt(part);
    var lo := Atoi(TrimSpace(part[..m]));
    var hi := lo;
    if m < |part| { hi := Atoi(TrimSpace(part[m + 1..])); }
    if lo.None? || hi.None? { return None; }
    if lo.value < 1 || hi.value > MAX_PORT { return None; }
    if lo.value > hi.value { return None; }
    return Some(Claim(lo.value, hi.value, UDP, 0));
  }

  method ParseHops(spec: string) returns (r: Option<seq<Claim>>)
    ensures r == ParseSpec(spec)
  {
    var text := TrimSpace(spec);
    var parts := Split(text, ',');
    if text == "" {
      NothingToSplit();
      return None;
    }
    var out: seq<Claim> := [];
    var i := 0;
    while i < |parts|
      invariant 0 <= i <= |parts|
      invariant StrictParts(parts[..i]) == Some(out)
    {
      assert parts[..i + 1][..i] == parts[..i];
      var part := TrimSpace(parts[i]);
      i := i + 1;
      if part == "" { continue; }
      var c := ParseEntry(part);
      if c.None? {
        OneBadPart(parts, i);
        return None;
      }
      out := out + [c.value];
    }
    assert parts[..|parts|] == parts;
    if out == [] { return None; }
    return Some(out);
  }

  lemma NothingToSplit()
    ensures StrictParts(Split("", ',')) == Some([])
  {
    assert Split("", ',') == [""] && [""][..0] == [];
    assert TrimSpace("") == "";
  }

  // --- the two readings ---

  lemma {:induction false} NumeralsHoldDigits(s: string)
    requires ParseDecimal(s).Some?
    ensures Digits(s)
  {
    if |s| > 1 { NumeralsHoldDigits(s[..|s| - 1]); }
  }

  lemma {:induction false} TrimmedOff(s: string, c: char)
    requires c in s && !IsSpace(c)
    ensures c in TrimSpace(s)
  {
    TrimLeftLeaves(s, c);
    TrimRightLeaves(TrimLeft(s, IsSpace), c);
  }

  lemma {:induction false} TrimLeftLeaves(s: string, c: char)
    requires c in s && !IsSpace(c)
    ensures c in TrimLeft(s, IsSpace)
  {
    if s != "" && IsSpace(s[0]) {
      assert s == [s[0]] + s[1..];
      TrimLeftLeaves(s[1..], c);
    }
  }

  lemma {:induction false} TrimRightLeaves(s: string, c: char)
    requires c in s && !IsSpace(c)
    ensures c in TrimRight(s, IsSpace)
  {
    if s != "" && IsSpace(s[|s| - 1]) {
      assert s == s[..|s| - 1] + [s[|s| - 1]];
      TrimRightLeaves(s[..|s| - 1], c);
    }
  }

  lemma NoDashInNumber(t: string)
    requires Atoi(t).Some?
    ensures '-' !in t
  {
    var digits := if t != "" && t[0] == '+' then t[1..] else t;
    NumeralsHoldDigits(digits);
    forall k | 0 <= k < |t|
      ensures t[k] != '-'
    {
      if t[0] != '+' || k > 0 { assert t[k] == digits[if t[0] == '+' then k - 1 else k]; }
    }
  }

  lemma NumbersHoldNoDash(s: string)
    requires Atoi(TrimSpace(s)).Some?
    ensures Replace(s, '-', ':') == s
  {
    NoDashInNumber(TrimSpace(s));
    if '-' in s { TrimmedOff(s, '-'); }
    assert Replace(s, '-', ':') == s;
  }

  lemma MarkBecomesColon(s: string, i: nat)
    requires i == MarkAt(s)
    ensures IndexOf(Replace(s, '-', ':'), ':') == i && Replace(s, '-', ':')[..i] == s[..i]
    ensures i < |s| ==> Replace(s, '-', ':')[i + 1..] == Replace(s[i + 1..], '-', ':')
  {
    var t := Replace(s, '-', ':');
    assert forall k :: 0 <= k < i ==> s[..i][k] == s[k];
    assert t[..i] == s[..i];
    IndexOfIs(t, ':', i);
  }

  // An entry the firewall takes, the guard reads alike.
  lemma StrictIsRead(part: string)
    requires StrictPart(TrimSpace(part)).Some?
    ensures HopPart(part) == StrictPart(TrimSpace(part))
  {
    var s := TrimSpace(part);
    var i := MarkAt(s);
    MarkBecomesColon(s, i);
    if i < |s| {
      NumbersHoldNoDash(s[i + 1..]);
    } else {
      assert s[..i] == s;
      NumbersHoldNoDash(s);
    }
  }

  lemma {:induction false} StrictListIsRead(parts: seq<string>)
    requires StrictParts(parts).Some?
    ensures HopParts(parts) == StrictParts(parts).value
  {
    if parts != [] {
      var last := parts[|parts| - 1];
      StrictListIsRead(parts[..|parts| - 1]);
      if TrimSpace(last) == "" { BlankPart(last); } else { StrictIsRead(last); }
    }
  }

  lemma {:induction false} TrimRightOneMore(s: string, c: char)
    requires IsSpace(c)
    ensures TrimRight(s + [c], IsSpace) == TrimRight(s, IsSpace)
  {
    assert (s + [c])[..|s|] == s;
  }

  lemma {:induction false} TrimLeftOneMore(s: string, c: char)
    requires IsSpace(c)
    ensures TrimRight(TrimLeft(s + [c], IsSpace), IsSpace) == TrimRight(TrimLeft(s, IsSpace), IsSpace)
  {
    if s == "" {
      assert (s + [c])[1..] == "";
    } else if IsSpace(s[0]) {
      assert (s + [c])[1..] == s[1..] + [c];
      TrimLeftOneMore(s[1..], c);
    } else {
      TrimRightOneMore(s, c);
    }
  }

  // A space before or after an entry is no part of it.
  lemma SpacedPart(x: string, c: char)
    requires IsSpace(c)
    ensures HopPart([c] + x) == HopPart(x) && HopPart(x + [c]) == HopPart(x)
  {
    assert ([c] + x)[1..] == x;
    TrimLeftOneMore(x, c);
  }

  lemma SplitSpaceBefore(s: string, c: char)
    requires c != ','
    ensures Split([c] + s, ',') == [[c] + Split(s, ',')[0]] + Split(s, ',')[1..]
  {
    var i := IndexOf(s, ',');
    var t := [c] + s;
    assert forall k :: 0 <= k < |s| ==> t[k + 1] == s[k];
    assert t[..i + 1] == [c] + s[..i];
    IndexOfIs(t, ',', i + 1);
    if i < |s| {
      assert t[i + 2..] == s[i + 1..];
    } else {
      assert s[..i] == s;
    }
  }

  lemma HeadReadsAlike(x: string, y: string, rest: seq<string>)
    requires HopPart(x) == HopPart(y)
    ensures HopParts([x] + rest) == HopParts([y] + rest)
  {
    HopPartsConcat([x], rest);
    HopPartsConcat([y], rest);
    assert [x][..0] == [] && [y][..0] == [];
    assert HopParts([x]) == HopParts([y]);
  }

  lemma SpaceBefore(s: string, c: char)
    requires IsSpace(c)
    ensures HopClaims([c] + s) == HopClaims(s)
  {
    var parts := Split(s, ',');
    SplitSpaceBefore(s, c);
    SpacedPart(parts[0], c);
    HeadReadsAlike([c] + parts[0], parts[0], parts[1..]);
    assert [parts[0]] + parts[1..] == parts;
  }

  lemma {:induction false} SpaceAfter(s: string, c: char)
    requires IsSpace(c)
    ensures HopClaims(s + [c]) == HopClaims(s)
    decreases |s|
  {
    var i := IndexOf(s, ',');
    var t := s + [c];
    assert t[..i] == s[..i];
    if i == |s| {
      assert s[..i] == s && c != ',';
      IndexOfIs(t, ',', |t|);
      SpacedPart(s, c);
      HeadReadsAlike(s, t, []);
      assert [s] + [] == [s] && [t] + [] == [t];
    } else {
      IndexOfIs(t, ',', i);
      var rest := s[i + 1..];
      assert t[i + 1..] == rest + [c];
      SpaceAfter(rest, c);
      HopPartsConcat([s[..i]], Split(rest, ','));
      HopPartsConcat([s[..i]], Split(rest + [c], ','));
    }
  }

  lemma {:induction false} LeftTrimmedReadsAlike(s: string)
    ensures HopClaims(TrimLeft(s, IsSpace)) == HopClaims(s)
  {
    if s != "" && IsSpace(s[0]) {
      LeftTrimmedReadsAlike(s[1..]);
      assert s == [s[0]] + s[1..];
      SpaceBefore(s[1..], s[0]);
    }
  }

  lemma Rejoin(s: string, front: string, c: char)
    requires s != "" && front == s[..|s| - 1] && c == s[|s| - 1]
    ensures front + [c] == s
  {
  }

  lemma {:induction false} RightTrimmedReadsAlike(s: string)
    ensures HopClaims(TrimRight(s, IsSpace)) == HopClaims(s)
  {
    if s != "" && IsSpace(s[|s| - 1]) {
      var front, c := s[..|s| - 1], s[|s| - 1];
      RightTrimmedReadsAlike(front);
      SpaceAfter(front, c);
      Rejoin(s, front, c);
    }
  }

  // A text the firewall takes is redirected as the guard reserves it; one it
  // refuses is redirected nowhere, whatever the guard reads in it.
  lemma AcceptedIsReserved(spec: string)
    ensures ParseSpec(spec).Some? ==> Redirects(spec) == HopClaims(spec)
    ensures ParseSpec(spec).None? ==> Redirects(spec) == []
  {
    var text := TrimSpace(spec);
    LeftTrimmedReadsAlike(spec);
    RightTrimmedReadsAlike(TrimLeft(spec, IsSpace));
    if ParseSpec(spec).Some? { StrictListIsRead(Split(text, ',')); }
  }

  lemma DownwardsPart(s: string, a: string, b: string, lo: nat, hi: nat)
    requires Joins(s, a, '-', b) && Reads(a, hi) && Reads(b, lo) && lo < hi
    ensures TrimSpace(s) == s && StrictPart(s).None?
  {
    assert s[0] == a[0] && s[|s| - 1] == b[|b| - 1];
    TrimStays(s);
    MarkIs(s, |a|);
  }

  lemma SoleEntryRefused(s: string)
    requires ',' !in s && TrimSpace(s) == s != "" && StrictPart(s).None?
    ensures ParseSpec(s).None?
  {
    IndexOfIs(s, ',', |s|);
    assert s[..|s|] == s;
    assert Split(s, ',') == [s] && [s][..0] == [];
    assert StrictParts([]) == Some([]);
    assert StrictParts([s]).None?;
  }

  // A range written downwards is reserved as if it ran upwards, and refused.
  lemma DownwardsIsRefused(lo: nat, hi: nat)
    requires 1 <= lo < hi <= MAX_PORT
    ensures HopClaims(Itoa(hi) + "-" + Itoa(lo)) == [Claim(lo, hi, UDP, 0)]
    ensures ParseSpec(Itoa(hi) + "-" + Itoa(lo)).None?
  {
    WrittenRangeIsRead(lo, hi);
    DigitsAtoi(lo);
    DigitsAtoi(hi);
    DownwardsText(Itoa(hi) + "-" + Itoa(lo), Itoa(hi), Itoa(lo), lo, hi);
  }

  lemma DownwardsText(s: string, a: string, b: string, lo: nat, hi: nat)
    requires s == a + "-" + b && Reads(a, hi) && Reads(b, lo) && lo < hi
    ensures ParseSpec(s).None?
  {
    JoinFrom(s, a, '-', b);
    DownwardsPart(s, a, b, lo, hi);
    NoComma(s, a, b);
    SoleEntryRefused(s);
  }

  lemma MarkIs(s: string, i: nat)
    requires i < |s| && s[i] == '-' && Digits(s[..i])
    ensures MarkAt(s) == i
  {
    var j := MarkAt(s);
    assert forall k :: 0 <= k < i ==> s[..i][k] == s[k];
    assert forall k :: 0 <= k < j ==> s[..j][k] == s[k];
  }

  lemma NoComma(s: string, a: string, b: string)
    requires Joins(s, a, '-', b) && Digits(a) && Digits(b)
    ensures ',' !in s
  {
    forall k | 0 <= k < |s|
      ensures s[k] != ','
    {
      assert k < |a| ==> s[k] == s[..|a|][k];
      assert k > |a| ==> s[k] == s[|a| + 1..][k - |a| - 1];
    }
  }
}
