// The bounded login limiter: an entry per key, swept and evicted inline.
//
// Times are nanoseconds since the zero time, so 0 is "never" and every clock
// reading is positive. One call reads the clock once.
module LoginLimiter {
  import opened IpKeys
  import opened Numerals

  const SECOND: int := 1_000_000_000
  const LIMITER_MAX_ENTRIES: nat := 50000
  const LIMITER_ENTRY_TTL: int := 3600 * SECOND
  const LIMITER_SWEEP_EVERY: int := 60 * SECOND
  const USERNAME_LOCKOUT: int := 60 * SECOND
  const FREE_FAILS: nat := 4
  const MAX_BACKOFF: int := 320 * SECOND

  datatype Entry = Entry(fails: nat, lockedTill: int, lastSeen: int)

  type Entries = map<string, Entry>

  datatype Table = Table(entries: Entries, lastSweep: int, maxEntries: nat, ttl: int)

  function Min(a: int, b: int): int { if a < b then a else b }

  function Pow2(n: nat): nat { if n == 0 then 1 else 2 * Pow2(n - 1) }

  // The lock an address earns with its f-th failure.
  function Backoff(f: nat): int {
    if f <= FREE_FAILS then 0 else Pow2(Min(f - FREE_FAILS, 6)) * 5 * SECOND
  }

  lemma BackoffIsBoundedAndGrows(f: nat)
    ensures 0 <= Backoff(f) <= Backoff(f + 1) <= MAX_BACKOFF
  {
    assert Pow2(1) == 2 && Pow2(2) == 4 && Pow2(3) == 8 && Pow2(4) == 16 && Pow2(5) == 32 && Pow2(6) == 64;
    if f > FREE_FAILS {
      var n := Min(f - FREE_FAILS, 6);
      assert n == 1 || n == 2 || n == 3 || n == 4 || n == 5 || n == 6;
    }
  }

  lemma {:induction false} BackoffMonotone(f: nat, g: nat)
    requires f <= g
    ensures Backoff(f) <= Backoff(g)
  {
    if f < g {
      BackoffMonotone(f, g - 1);
      BackoffIsBoundedAndGrows(g - 1);
    }
  }

  predicate Expired(e: Entry, now: int, ttl: int) {
    now > e.lockedTill && now - e.lastSeen >= ttl
  }

  function Unexpired(m: Entries, now: int, ttl: int): Entries {
    map k | k in m && !Expired(m[k], now, ttl) :: m[k]
  }

  predicate SweepDue(t: Table, now: int) {
    t.lastSweep == 0 || now - t.lastSweep >= LIMITER_SWEEP_EVERY
  }

  function Swept(t: Table, now: int): Table {
    if SweepDue(t, now) then t.(lastSweep := now, entries := Unexpired(t.entries, now, t.ttl)) else t
  }

  // A key no other entry was seen before; the empty string is also how the code
  // says "no victim".
  predicate LeastRecent(m: Entries, victim: string) {
    if m == map[] then victim == ""
    else victim in m && forall k :: k in m ==> m[victim].lastSeen <= m[k].lastSeen
  }

  predicate NeedsVictim(t: Table, now: int) {
    |t.entries| >= t.maxEntries && |Unexpired(t.entries, now, t.ttl)| >= t.maxEntries
  }

  // Making room for one more entry; `victim` is the one the scan settled on.
  function WithRoom(t: Table, now: int, victim: string): Table {
    if |t.entries| < t.maxEntries then t
    else
      var left := Unexpired(t.entries, now, t.ttl);
      t.(entries := if |left| < t.maxEntries || victim == "" then left else left - {victim})
  }

  // The entry a failure on `key` starts from, and the table it is put back into.
  function Opened(t: Table, key: string, now: int, victim: string): (Table, Entry) {
    var s := Swept(t, now);
    if key in s.entries then (s, s.entries[key]) else (WithRoom(s, now, victim), Entry(0, 0, 0))
  }

  // The scan for a victim is needed and may settle on this one.
  predicate VictimOk(t: Table, key: string, now: int, victim: string) {
    var s := Swept(t, now);
    key !in s.entries && NeedsVictim(s, now) ==> LeastRecent(Unexpired(s.entries, now, s.ttl), victim)
  }

  function AllowedNext(t: Table, key: string, now: int): (Table, bool) {
    var s := Swept(t, now);
    if key !in s.entries then (s, true)
    else
      var e := s.entries[key];
      (s.(entries := s.entries[key := e.(lastSeen := now)]), !(now < e.lockedTill))
  }

  function AllowedKeyNext(t: Table, key: string, budget: nat, now: int): (Table, bool) {
    var s := Swept(t, now);
    if key !in s.entries then (s, true)
    else
      var e := s.entries[key];
      (s.(entries := s.entries[key := e.(lastSeen := now)]), e.fails < budget || !(now < e.lockedTill))
  }

  function Failed(e: Entry, now: int): Entry {
    var f := e.fails + 1;
    Entry(f, if f <= FREE_FAILS then e.lockedTill else now + Backoff(f), now)
  }

  function FailNext(t: Table, key: string, now: int, victim: string): (Table, int) {
    var (s, e) := Opened(t, key, now, victim);
    (s.(entries := s.entries[key := Failed(e, now)]), Backoff(e.fails + 1))
  }

  function FailedKey(e: Entry, now: int): Entry {
    Entry(e.fails + 1, now + USERNAME_LOCKOUT, now)
  }

  function FailKeyNext(t: Table, key: string, now: int, victim: string): Table {
    var (s, e) := Opened(t, key, now, victim);
    s.(entries := s.entries[key := FailedKey(e, now)])
  }

  function SuccessNext(t: Table, key: string): Table {
    t.(entries := t.entries - {key})
  }

  // ---- The limiter itself -------------------------------------------------

  class Limiter {
    var entries: Entries
    var lastSweep: int
    const maxEntries: nat
    const entryTTL: int
    // The canonical text of an address, for text that is one.
    const parseIP: string -> Option<string>

    ghost function State(): Table
      reads this
    {
      Table(entries, lastSweep, maxEntries, entryTTL)
    }

    constructor (parseIP: string -> Option<string>)
      ensures State() == Table(map[], 0, LIMITER_MAX_ENTRIES, LIMITER_ENTRY_TTL)
      ensures this.parseIP == parseIP
    {
      this.parseIP := parseIP;
      entries, lastSweep, maxEntries, entryTTL := map[], 0, LIMITER_MAX_ENTRIES, LIMITER_ENTRY_TTL;
    }

    method Allowed(ip: string, now: int) returns (ok: bool)
      modifies this
      ensures (State(), ok) == AllowedNext(old(State()), NormalizeIP(parseIP, ip), now)
    {
      var key := NormalizeIP(parseIP, ip);
      MaybeSweep(now);
      if key !in entries { return true; }
      var e := entries[key];
      entries := entries[key := e.(lastSeen := now)];
      ok := !(now < e.lockedTill);
    }

    method AllowedKey(key: string, budget: nat, now: int) returns (ok: bool)
      modifies this
      ensures (State(), ok) == AllowedKeyNext(old(State()), key, budget, now)
    {
      MaybeSweep(now);
      if key !in entries { return true; }
      var e := entries[key];
      entries := entries[key := e.(lastSeen := now)];
      ok := e.fails < budget || !(now < e.lockedTill);
    }

    method Fail(ip: string, now: int) returns (backoff: int, ghost victim: string)
      modifies this
      ensures VictimOk(old(State()), NormalizeIP(parseIP, ip), now, victim)
      ensures (State(), backoff) == FailNext(old(State()), NormalizeIP(parseIP, ip), now, victim)
    {
      var key := NormalizeIP(parseIP, ip);
      backoff, victim := FailAt(key, now);
    }

    method FailAt(key: string, now: int) returns (backoff: int, ghost victim: string)
      modifies this
      ensures VictimOk(old(State()), key, now, victim)
      ensures (State(), backoff) == FailNext(old(State()), key, now, victim)
    {
      var e;
      e, victim := Open(key, now);
      e := e.(lastSeen := now, fails := e.fails + 1);
      backoff := Backoff(e.fails);
      if e.fails > FREE_FAILS {
        e := e.(lockedTill := now + backoff);
      }
      entries := entries[key := e];
    }

    method FailKey(key: string, now: int) returns (ghost victim: string)
      modifies this
      ensures VictimOk(old(State()), key, now, victim)
      ensures State() == FailKeyNext(old(State()), key, now, victim)
    {
      var e;
      e, victim := Open(key, now);
      entries := entries[key := Entry(e.fails + 1, now + USERNAME_LOCKOUT, now)];
    }

    method Success(ip: string)
      modifies this`entries
      ensures State() == SuccessNext(old(State()), NormalizeIP(parseIP, ip))
    {
      entries := entries - {NormalizeIP(parseIP, ip)};
    }

    method Open(key: string, now: int) returns (e: Entry, ghost victim: string)
      modifies this
      ensures VictimOk(old(State()), key, now, victim)
      ensures (State(), e) == Opened(old(State()), key, now, victim)
    {
      MaybeSweep(now);
      victim := "";
      if key in entries {
        e := entries[key];
      } else {
        victim := EvictIfFull(now);
        e := Entry(0, 0, 0);
      }
    }

    method MaybeSweep(now: int)
      modifies this
      ensures State() == Swept(old(State()), now)
    {
      if lastSweep != 0 && now - lastSweep < LIMITER_SWEEP_EVERY { return; }
      lastSweep := now;
      DropExpired(now);
    }

    method DropExpired(now: int)
      modifies this`entries
      ensures entries == Unexpired(old(entries), now, entryTTL)
    {
      var todo := entries.Keys;
      while todo != {}
        invariant todo <= entries.Keys
        invariant forall k :: k in entries ==> k in old(entries) && entries[k] == old(entries)[k]
        invariant forall k :: k in old(entries) && k !in todo ==>
                    (k in entries <==> !Expired(old(entries)[k], now, entryTTL))
      {
        var k :| k in todo;
        if now > entries[k].lockedTill && now - entries[k].lastSeen >= entryTTL {
          entries := entries - {k};
        }
        todo := todo - {k};
      }
    }

    // Expired entries go first, then the least recently seen.
    method EvictIfFull(now: int) returns (ghost victim: string)
      modifies this`entries
      ensures NeedsVictim(old(State()), now) ==> LeastRecent(Unexpired(old(entries), now, entryTTL), victim)
      ensures State() == WithRoom(old(State()), now, victim)
    {
      victim := "";
      if |entries| < maxEntries { return; }
      DropExpired(now);
      if |entries| < maxEntries { return; }
      var oldestKey, oldest, first := "", 0, true;
      var todo := entries.Keys;
      while todo != {}
        invariant todo <= entries.Keys
        invariant first <==> todo == entries.Keys
        invariant first ==> oldestKey == ""
        invariant !first ==> oldestKey in entries && entries[oldestKey].lastSeen == oldest
        invariant forall k :: k in entries && k !in todo ==> oldest <= entries[k].lastSeen
      {
        var k :| k in todo;
        if first || entries[k].lastSeen < oldest {
          oldestKey, oldest, first := k, entries[k].lastSeen, false;
        }
        todo := todo - {k};
      }
      if oldestKey != "" {
        entries := entries - {oldestKey};
      }
      victim := oldestKey;
    }
  }
}
