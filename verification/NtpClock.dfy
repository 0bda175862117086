// NTP timestamps and the clock offset they give (RFC 4330, sections 3 and 5).
//
// An instant is nanoseconds since the Unix epoch, held as Go holds it: whole
// seconds and 0 to 999999999 nanoseconds. 64-bit wrap-around and saturation
// are written out.
module NtpClock {
  import opened Numerals

  const SECOND: int := 1_000_000_000
  const MILLISECOND: int := 1_000_000
  const NTP_EPOCH_OFFSET: int := 2208988800
  const TWO_32: int := 0x1_0000_0000
  const TWO_63: int := 0x8000_0000_0000_0000
  const TWO_64: int := 0x1_0000_0000_0000_0000

  datatype Instant = Instant(sec: int, nsec: int)

  predicate Normal(t: Instant) { 0 <= t.nsec < SECOND && -TWO_63 <= t.sec < TWO_63 }

  function Nanos(t: Instant): int { t.sec * SECOND + t.nsec }

  // Go's unsigned and signed 64-bit views of an integer.
  function U64(x: int): int { x % TWO_64 }

  function I64(x: int): (r: int)
    ensures -TWO_63 <= r < TWO_63
    ensures -TWO_63 <= x < TWO_63 ==> r == x
  {
    var u := x % TWO_64;
    if u < TWO_63 then u else u - TWO_64
  }

  function TimeToNtp(t: Instant): (v: int)
    requires Normal(t)
  {
    var sec := U64(I64(t.sec + NTP_EPOCH_OFFSET));
    var frac := U64(t.nsec * TWO_32) / SECOND;
    // The fraction fits below the seconds, so the bitwise "or" is a sum.
    U64(sec * TWO_32) + frac
  }

  // None is Go's zero time.
  function NtpToTime(v: int): (r: Option<Instant>)
    requires 0 <= v < TWO_64
  {
    if v == 0 then None
    else
      var sec := v / TWO_32 - NTP_EPOCH_OFFSET;
      var nsec := I64((v % TWO_32) * SECOND) / TWO_32;
      Some(Instant(sec, nsec))
  }

  // The instants one era of 32-bit seconds can name.
  predicate InEra0(t: Instant) { 0 <= t.sec + NTP_EPOCH_OFFSET < TWO_32 }

  predicate IsEpoch(t: Instant) { t.sec == -NTP_EPOCH_OFFSET && t.nsec == 0 }

  function Frac(nsec: int): (f: int)
    requires 0 <= nsec < SECOND
    ensures 0 <= f < TWO_32 && f * SECOND <= nsec * TWO_32 < (f + 1) * SECOND
  {
    nsec * TWO_32 / SECOND
  }

  function FracNanos(f: int): (n: int)
    requires 0 <= f < TWO_32
    ensures 0 <= n < SECOND && n * TWO_32 <= f * SECOND < (n + 1) * TWO_32
  {
    f * SECOND / TWO_32
  }

  // No product or shift on the way overflows its 64 bits.
  lemma NothingOverflows(t: Instant, v: int)
    requires Normal(t) && 0 <= v < TWO_64
    ensures 0 <= t.nsec * TWO_32 < TWO_64
    ensures 0 <= (v % TWO_32) * SECOND < TWO_63
    ensures U64(t.nsec * TWO_32) / SECOND == Frac(t.nsec)
    ensures I64((v % TWO_32) * SECOND) / TWO_32 == FracNanos(v % TWO_32)
  {
  }

  lemma NtpOf(t: Instant)
    requires Normal(t) && InEra0(t)
    ensures TimeToNtp(t) == (t.sec + NTP_EPOCH_OFFSET) * TWO_32 + Frac(t.nsec)
    ensures 0 <= TimeToNtp(t) < TWO_64
  {
    NothingOverflows(t, 0);
  }

  lemma TimeOf(v: int)
    requires 0 < v < TWO_64
    ensures NtpToTime(v) == Some(Instant(v / TWO_32 - NTP_EPOCH_OFFSET, FracNanos(v % TWO_32)))
  {
    NothingOverflows(Instant(0, 0), v);
  }

  // There and back loses less than a nanosecond and a bit: never ahead, and at
  // most one nanosecond behind.
  lemma RoundTrip(t: Instant)
    requires Normal(t) && InEra0(t) && !IsEpoch(t)
    ensures 0 < TimeToNtp(t) < TWO_64 && NtpToTime(TimeToNtp(t)).Some?
    ensures Nanos(t) - 1 <= Nanos(NtpToTime(TimeToNtp(t)).value) <= Nanos(t)
  {
    NtpOf(t);
    var v := TimeToNtp(t);
    assert Frac(t.nsec) > 0 || t.nsec == 0;
    assert v / TWO_32 == t.sec + NTP_EPOCH_OFFSET && v % TWO_32 == Frac(t.nsec);
    TimeOf(v);
  }

  lemma NtpIsMonotone(s: Instant, t: Instant)
    requires Normal(s) && Normal(t) && InEra0(s) && InEra0(t) && Nanos(s) <= Nanos(t)
    ensures TimeToNtp(s) <= TimeToNtp(t)
  {
    NtpOf(s);
    NtpOf(t);
  }

  lemma LowHalf(x: int)
    ensures U64(I64(x)) % TWO_32 == x % TWO_32
  {
    var q := x / TWO_64;
    assert U64(I64(x)) == U64(x) == x - q * TWO_64;
    assert x - q * TWO_64 == x - q * TWO_32 * TWO_32;
  }

  lemma ShiftDropsTheHighHalf(sec: int)
    requires 0 <= sec < TWO_64
    ensures U64(sec * TWO_32) == sec % TWO_32 * TWO_32
  {
    var q, r := sec / TWO_32, sec % TWO_32;
    assert sec * TWO_32 == q * TWO_64 + r * TWO_32;
  }

  lemma WrappedSeconds(t: Instant)
    requires Normal(t)
    ensures TimeToNtp(t) == (t.sec + NTP_EPOCH_OFFSET) % TWO_32 * TWO_32 + Frac(t.nsec)
    ensures 0 <= TimeToNtp(t) < TWO_64
  {
    NothingOverflows(t, 0);
    var x := t.sec + NTP_EPOCH_OFFSET;
    LowHalf(x);
    ShiftDropsTheHighHalf(U64(I64(x)));
  }

  predicate ComesBack(t: Instant)
    requires Normal(t) && 0 <= TimeToNtp(t) < TWO_64
  {
    var back := NtpToTime(TimeToNtp(t));
    back.Some? && Nanos(t) - 1 <= Nanos(back.value) <= Nanos(t)
  }

  // Outside the era a timestamp names another time, and at its very start it
  // means no time at all.
  lemma ComesBackIff(t: Instant)
    requires Normal(t)
    ensures 0 <= TimeToNtp(t) < TWO_64
    ensures ComesBack(t) <==> InEra0(t) && !IsEpoch(t)
  {
    WrappedSeconds(t);
    if InEra0(t) {
      if IsEpoch(t) { NtpOf(t); } else { RoundTrip(t); }
    } else if TimeToNtp(t) != 0 {
      TimeOf(TimeToNtp(t));
      var x := t.sec + NTP_EPOCH_OFFSET;
      var back := NtpToTime(TimeToNtp(t)).value;
      assert back.sec + NTP_EPOCH_OFFSET == x % TWO_32;
      assert x == x / TWO_32 * TWO_32 + x % TWO_32 && x / TWO_32 != 0;
    }
  }

  // --- the offset ---

  // Go's division, toward zero.
  function Half(d: int): (r: int)
    ensures d - 1 <= 2 * r <= d + 1
    ensures d % 2 == 0 ==> 2 * r == d
  {
    if d >= 0 then d / 2 else -(-d / 2)
  }

  // Durations saturate; their sum wraps.
  function Sub(a: int, b: int): int {
    if a - b >= TWO_63 then TWO_63 - 1 else if a - b < -TWO_63 then -TWO_63 else a - b
  }

  function Offset(t1: int, t2: int, t3: int, t4: int): int { Half(I64(Sub(t2, t1) + Sub(t3, t4))) }

  datatype Reply = Reply(length: nat, leap: nat, mode: nat, stratum: nat, received: int, transmitted: int)

  predicate Wire(r: Reply) { 0 <= r.received < TWO_64 && 0 <= r.transmitted < TWO_64 }

  // Only a well-formed answer from a synchronised server counts.
  predicate Usable(r: Reply) {
    r.length >= 48 && r.leap != 3 && (r.mode == 4 || r.mode == 5) && r.stratum != 0
    && r.received != 0 && r.transmitted != 0
  }

  method NtpOffset(t1: int, t4: int, r: Reply) returns (off: Option<int>)
    requires Wire(r)
    ensures off.Some? <==> Usable(r)
    ensures off.Some? ==>
              off.value == Offset(t1, Nanos(NtpToTime(r.received).value), Nanos(NtpToTime(r.transmitted).value), t4)
  {
    if r.length < 48 { return None; }
    if r.leap == 3 { return None; }
    if r.mode != 4 && r.mode != 5 { return None; }
    if r.stratum == 0 { return None; }
    var t2, t3 := NtpToTime(r.received), NtpToTime(r.transmitted);
    if t2.None? || t3.None? { return None; }
    var sum := I64(Sub(Nanos(t2.value), t1) + Sub(Nanos(t3.value), t4));
    return Some(Half(sum));
  }

  // One exchange, on the server's clock: sent, received, answered, answer
  // received. The local clock shows each instant `skew` earlier.
  datatype Exchange = Exchange(sent: int, received: int, answered: int, back: int, skew: int)

  predicate Causal(x: Exchange) { x.sent <= x.received <= x.answered <= x.back }

  // The time the network took, both ways.
  function RoundTripDelay(x: Exchange): int { (x.back - x.sent) - (x.answered - x.received) }

  // The server's own timestamps, each less than a nanosecond and a bit early.
  predicate Stamped(x: Exchange, t2: int, t3: int) {
    x.received - 1 <= t2 <= x.received && x.answered - 1 <= t3 <= x.answered
  }

  const LEG_LIMIT: int := 0x4000_0000_0000_0000

  predicate InRange(x: Exchange, t2: int, t3: int) {
    -LEG_LIMIT <= t2 - (x.sent - x.skew) < LEG_LIMIT && -LEG_LIMIT <= t3 - (x.back - x.skew) < LEG_LIMIT
  }

  function Measured(x: Exchange, t2: int, t3: int): int { Offset(x.sent - x.skew, t2, t3, x.back - x.skew) }

  function Abs(d: int): int { if d < 0 then -d else d }

  // The measured offset is the true skew, give or take half the round trip
  // and the rounding of two timestamps and one halving.
  lemma OffsetErrorBound(x: Exchange, t2: int, t3: int)
    requires Causal(x) && Stamped(x, t2, t3) && InRange(x, t2, t3)
    ensures 2 * Abs(Measured(x, t2, t3) - x.skew) <= RoundTripDelay(x) + 3
  {
    var sum := (t2 - (x.sent - x.skew)) + (t3 - (x.back - x.skew));
    assert I64(sum) == sum;
    assert Measured(x, t2, t3) == Half(sum);
  }

  // Halving keeps the result clear of the one duration with no opposite.
  lemma AbsDoesNotOverflow(t1: int, t2: int, t3: int, t4: int)
    ensures Abs(Offset(t1, t2, t3, t4)) <= LEG_LIMIT < TWO_63
  {
  }

  const CLOCK_SKEW_TOLERANCE: int := 5 * SECOND
  const NTP_QUERY_TIMEOUT: int := 1200 * MILLISECOND

  predicate Reported(off: int) { Abs(off) > CLOCK_SKEW_TOLERANCE }

  // The two legs together, before the sum wraps.
  function Legs(x: Exchange, t2: int, t3: int): int {
    Sub(t2, x.sent - x.skew) + Sub(t3, x.back - x.skew)
  }

  // Whatever the clock and the answer: the offset is reported exactly when the two
  // legs come to more than ten seconds and stay that far from a full wrap.
  lemma ReportedIff(x: Exchange, t2: int, t3: int)
    ensures Reported(Measured(x, t2, t3))
            <==> 2 * CLOCK_SKEW_TOLERANCE + 2 <= Abs(Legs(x, t2, t3)) <= TWO_64 - 2 * CLOCK_SKEW_TOLERANCE - 2
  {
    var sum := Legs(x, t2, t3);
    assert -TWO_64 <= sum <= TWO_64 - 2;
    if sum >= TWO_63 {
      assert sum == (sum - TWO_64) + TWO_64 && I64(sum) == sum - TWO_64;
    } else if sum < -TWO_63 {
      assert I64(sum) == sum + TWO_64;
    }
  }

  // With an answer inside the query's deadline, for a clock behind or ahead by any
  // amount: more than 5.6 seconds off is always reported and less than 4.4 never
  // is, until the clock comes as near to 292 years off, where both legs saturate
  // and the clock passes for right; to within two nanoseconds.
  lemma SkewIsJudgedRight(x: Exchange, t2: int, t3: int)
    requires Causal(x) && Stamped(x, t2, t3) && x.back - x.sent <= NTP_QUERY_TIMEOUT
    ensures 5600 * MILLISECOND + 2 <= Abs(x.skew) <= TWO_63 - 5600 * MILLISECOND - 2 ==> Reported(Measured(x, t2, t3))
    ensures Abs(x.skew) <= 4400 * MILLISECOND - 2 ==> !Reported(Measured(x, t2, t3))
    ensures Abs(x.skew) >= TWO_63 - 4400 * MILLISECOND + 2 ==> !Reported(Measured(x, t2, t3))
  {
    ReportedIff(x, t2, t3);
  }

  predicate InEra1(t: Instant) { TWO_32 <= t.sec + NTP_EPOCH_OFFSET < 2 * TWO_32 }

  function OneEraEarlier(t: Instant): Instant { t.(sec := t.sec - TWO_32) }

  lemma DropsOneEra(x: int)
    requires TWO_32 <= x < 2 * TWO_32
    ensures x % TWO_32 == x - TWO_32
  {
  }

  lemma SameTimestamp(t: Instant)
    requires Normal(t) && InEra1(t)
    ensures Normal(OneEraEarlier(t)) && InEra0(OneEraEarlier(t)) && TimeToNtp(t) == TimeToNtp(OneEraEarlier(t))
  {
    WrappedSeconds(t);
    DropsOneEra(t.sec + NTP_EPOCH_OFFSET);
    NtpOf(OneEraEarlier(t));
  }

  // From 7 February 2036 a server's time reads as 136 years before, but for the
  // era's first instant, which reads as no time.
  lemma EraOneIsMisread(t: Instant)
    requires Normal(t) && InEra1(t) && TimeToNtp(t) != 0
    ensures 0 < TimeToNtp(t) < TWO_64 && NtpToTime(TimeToNtp(t)).Some?
    ensures var back := Nanos(t) - TWO_32 * SECOND; back - 1 <= Nanos(NtpToTime(TimeToNtp(t)).value) <= back
  {
    SameTimestamp(t);
    var earlier := OneEraEarlier(t);
    if IsEpoch(earlier) { NtpOf(earlier); } else { RoundTrip(earlier); }
  }

  // So a clock that is right to the nanosecond is then reported, whatever the server.
  lemma RightClockIsReportedInEraOne(x: Exchange, t2: Instant, t3: Instant)
    requires Causal(x) && x.skew == 0 && x.back - x.sent <= NTP_QUERY_TIMEOUT
    requires Normal(t2) && InEra1(t2) && Nanos(t2) == x.received && TimeToNtp(t2) != 0
    requires Normal(t3) && InEra1(t3) && Nanos(t3) == x.answered && TimeToNtp(t3) != 0
    ensures 0 < TimeToNtp(t2) < TWO_64 && 0 < TimeToNtp(t3) < TWO_64
    ensures var r2, r3 := NtpToTime(TimeToNtp(t2)), NtpToTime(TimeToNtp(t3));
            r2.Some? && r3.Some? && Reported(Measured(x, Nanos(r2.value), Nanos(r3.value)))
  {
    EraOneIsMisread(t2);
    EraOneIsMisread(t3);
    ReportedIff(x, Nanos(NtpToTime(TimeToNtp(t2)).value), Nanos(NtpToTime(TimeToNtp(t3)).value));
  }

  // --- the finding ---

  datatype Probe = Answer(off: int, server: string) | Failed(why: string)

  datatype ClockState = ClockState(measured: bool, skew: int, source: string, syncKnown: bool, synced: bool,
                                   detail: string)

  datatype Finding = Skewed(skew: int, source: string) | NotSynchronised | Unknown(detail: string)

  // The probes in the order their results arrive.
  method CheckClock(syncKnown: bool, synced: bool, probes: seq<Probe>) returns (st: ClockState)
    ensures st.syncKnown == syncKnown && st.synced == synced
    ensures st.measured <==> exists k :: 0 <= k < |probes| && probes[k].Answer?
    ensures st.measured ==> exists k :: 0 <= k < |probes| && probes[k] == Answer(st.skew, st.source)
                                    && forall j :: 0 <= j < k ==> probes[j].Failed?
  {
    st := ClockState(false, 0, "", syncKnown, synced, "");
    var i := 0;
    while i < |probes|
      invariant 0 <= i <= |probes|
      invariant !st.measured && st.syncKnown == syncKnown && st.synced == synced
      invariant forall j :: 0 <= j < i ==> probes[j].Failed?
    {
      match probes[i] {
        case Answer(off, server) =>
          st := st.(measured := true, skew := off, source := server);
          return;
        case Failed(why) =>
          st := st.(detail := why);
      }
      i := i + 1;
    }
  }

  method ClockFindings(syncKnown: bool, synced: bool, probes: seq<Probe>) returns (out: seq<Finding>)
    ensures (exists f :: f in out && f.Skewed?)
            <==> exists k :: 0 <= k < |probes| && probes[k].Answer? && Reported(probes[k].off)
                          && forall j :: 0 <= j < k ==> probes[j].Failed?
    ensures (exists f :: f in out && f.Unknown?) <==> !syncKnown && forall j :: 0 <= j < |probes| ==> probes[j].Failed?
    ensures NotSynchronised in out <==> syncKnown && !synced
  {
    var st := CheckClock(syncKnown, synced, probes);
    out := [];
    if st.measured && Abs(st.skew) > CLOCK_SKEW_TOLERANCE {
      out := [Skewed(st.skew, st.source)];
      assert out[0] in out;
    } else if !st.measured && !st.syncKnown {
      out := [Unknown(if st.detail == "" then "no NTP server configured" else st.detail)];
      assert out[0] in out;
    }
    ghost var first := out;
    if st.syncKnown && !st.synced {
      out := out + [NotSynchronised];
      assert forall f :: f in out <==> f in first || f == NotSynchronised;
    }
  }
}
