// Guarding a login on its source and on its target.
//
// The address guard escalates; the username guard is forgiving and flat, because
// anyone can drive it on somebody else's behalf.
module LoginGuard {
  import opened IpKeys
  import opened Numerals
  import opened LoginLimiter

  const USERNAME_FAIL_BUDGET: nat := 50

  // The address is checked first; a request that names nobody has no second check.
  function AllowedKeys(t: Table, ipKey: string, named: bool, name: string, now: int): (Table, bool) {
    var (t1, ok) := AllowedNext(t, ipKey, now);
    if !ok then (t1, false)
    else if !named then (t1, true)
    else AllowedKeyNext(t1, name, USERNAME_FAIL_BUDGET, now)
  }

  function FailedKeys(t: Table, ipKey: string, named: bool, name: string, now: int, victims: (string, string)): Table {
    var t1 := FailNext(t, ipKey, now, victims.0).0;
    if !named then t1 else FailKeyNext(t1, name, now, victims.1)
  }

  function AllowedBoth(t: Table, ipKey: string, username: string, now: int): (Table, bool) {
    AllowedKeys(t, ipKey, username != "", UsernameKey(username), now)
  }

  function FailedBoth(t: Table, ipKey: string, username: string, now: int, victims: (string, string)): Table {
    FailedKeys(t, ipKey, username != "", UsernameKey(username), now, victims)
  }

  predicate VictimsOk(t: Table, ipKey: string, username: string, now: int, victims: (string, string)) {
    && VictimOk(t, ipKey, now, victims.0)
    && VictimOk(FailNext(t, ipKey, now, victims.0).0, UsernameKey(username), now, victims.1)
  }

  class Guard {
    // Absent on a panel that runs without a limiter.
    const login: Limiter?

    constructor (login: Limiter?)
      ensures this.login == login
    {
      this.login := login;
    }

    method LoginAllowed(ip: string, username: string, now: int) returns (ok: bool)
      modifies login
      ensures login == null ==> ok
      ensures login != null ==>
                (login.State(), ok) == AllowedBoth(old(login.State()), NormalizeIP(login.parseIP, ip), username, now)
    {
      if login == null { return true; }
      ok := login.Allowed(ip, now);
      if ok && username != "" {
        ok := login.AllowedKey(UsernameKey(username), USERNAME_FAIL_BUDGET, now);
      }
    }

    // Records a failure against both; the lock the address earned is announced.
    method LoginFailed(ip: string, username: string, now: int)
      returns (announced: int, ghost victims: (string, string))
      modifies login
      ensures login == null ==> announced == 0
      ensures login != null ==>
                var before, ipKey := old(login.State()), NormalizeIP(login.parseIP, ip);
                && login.State() == FailedBoth(before, ipKey, username, now, victims)
                && announced == FailNext(before, ipKey, now, victims.0).1
                && (username != "" ==> VictimsOk(before, ipKey, username, now, victims))
                && VictimOk(before, ipKey, now, victims.0)
    {
      announced, victims := 0, ("", "");
      if login == null { return; }
      ghost var v0, v1 := "", "";
      announced, v0 := login.Fail(ip, now);
      if username != "" {
        v1 := login.FailKey(UsernameKey(username), now);
      }
      victims := (v0, v1);
    }

    method LoginSucceeded(ip: string, username: string)
      modifies login
      ensures login != null ==> login.State() == SucceededBoth(old(login.State()), login.parseIP, ip, username)
    {
      if login == null { return; }
      login.Success(ip);
      if username != "" {
        login.Success(UsernameKey(username));
      }
    }
  }

  // Both clears go through the address form of the key.
  function SucceededBoth(t: Table, parseIP: string -> Option<string>, ip: string, username: string): Table {
    var t1 := SuccessNext(t, NormalizeIP(parseIP, ip));
    if username == "" then t1 else SuccessNext(t1, NormalizeIP(parseIP, UsernameKey(username)))
  }

  // ---- Whole runs of login attempts ----------------------------------------

  datatype Outcome = Good | Bad | Unfinished

  // One attempt from a canonical address, decided at one instant.
  datatype Attempt = Attempt(ip: string, username: string, outcome: Outcome, now: int, victims: (string, string))

  datatype Config = Config(parseIP: string -> Option<string>)

  function Checked(t: Table, a: Attempt): (Table, bool) { AllowedBoth(t, a.ip, a.username, a.now) }

  function Login(c: Config, t: Table, a: Attempt): Table {
    var (t1, ok) := Checked(t, a);
    if !ok then t1
    else
      match a.outcome
      case Good => SucceededBoth(t1, c.parseIP, a.ip, a.username)
      case Bad => FailedBoth(t1, a.ip, a.username, a.now, a.victims)
      case Unfinished => t1
  }

  // The attempt adds a failure to this username's count.
  predicate Counts(t: Table, a: Attempt, key: string) {
    Checked(t, a).1 && a.outcome == Bad && a.username != "" && UsernameKey(a.username) == key
  }

  function Run(c: Config, t: Table, attempts: seq<Attempt>): Table {
    if attempts == [] then t else Login(c, Run(c, t, attempts[..|attempts| - 1]), attempts[|attempts| - 1])
  }

  function Counted(c: Config, t: Table, attempts: seq<Attempt>, key: string): nat {
    if attempts == [] then 0
    else
      var init := attempts[..|attempts| - 1];
      Counted(c, t, init, key) + if Counts(Run(c, t, init), attempts[|attempts| - 1], key) then 1 else 0
  }

  function Clock(start: int, attempts: seq<Attempt>): int {
    if attempts == [] then start else attempts[|attempts| - 1].now
  }

  // Attempts in time order, from addresses, with scans that pick a real victim.
  predicate Runs(c: Config, t: Table, start: int, attempts: seq<Attempt>) {
    attempts == [] ||
    var init, a := attempts[..|attempts| - 1], attempts[|attempts| - 1];
    && Runs(c, t, start, init)
    && 0 < start <= Clock(start, init) <= a.now
    && !IsUserKey(a.ip) && !IsUserKey(NormalizeIP(c.parseIP, a.ip))
    && (a.outcome == Bad && a.username != "" ==>
          VictimsOk(Checked(Run(c, t, init), a).0, a.ip, a.username, a.now, a.victims))
  }

  // The attempt neither clears the key by a success nor pushes it out of a full
  // table.
  predicate Spares(c: Config, a: Attempt, key: string) {
    && a.victims.0 != key && a.victims.1 != key
    && (a.outcome == Good ==> NormalizeIP(c.parseIP, UsernameKey(a.username)) != key)
  }

  // The attempts among these that may clear the key or push it out.
  function Losses(c: Config, attempts: seq<Attempt>, key: string): nat {
    if attempts == [] then 0
    else
      Losses(c, attempts[..|attempts| - 1], key) + if Spares(c, attempts[|attempts| - 1], key) then 0 else 1
  }

  // The attempt's source is not this key.
  predicate Elsewhere(c: Config, a: Attempt, key: string) {
    a.ip != key && NormalizeIP(c.parseIP, a.ip) != key
  }

  // The last failure counted against a username is exactly one lockout before the
  // end of its lock.
  function LastFailure(e: Entry): int { e.lockedTill - USERNAME_LOCKOUT }

  ghost predicate EntryOk(t: Table, key: string, clock: int) {
    key in t.entries ==> LastFailure(t.entries[key]) <= t.entries[key].lastSeen <= clock
  }

  function Max(a: int, b: int): int { if a < b then b else a }

  // c failures are to be paid for since `from`, the budget's fifty for every loss
  // taken off already: the budget buys the first fifty, and every further one had
  // to wait out a lock.
  ghost predicate Paid(t: Table, key: string, c: int, from: int, clock: int) {
    if key in t.entries then
      var e := t.entries[key];
      && USERNAME_LOCKOUT * (c - Min(e.fails, USERNAME_FAIL_BUDGET)) <= Max(LastFailure(e), from) - from
      && (c > 0 ==> from <= LastFailure(e))
    else USERNAME_LOCKOUT * c <= clock - from
  }

  // The check just passed: the budget is not spent, or the lock has run out.
  predicate Ready(t: Table, key: string, now: int) {
    key in t.entries ==> t.entries[key].fails < USERNAME_FAIL_BUDGET || t.entries[key].lockedTill <= now
  }

  // An hour idle pays for the fifty fresh failures forgetting gives back.
  const FORGETTING_PAYS: int := USERNAME_LOCKOUT * USERNAME_FAIL_BUDGET

  ghost predicate Sound(t: Table, key: string, c: int, from: int, now: int) {
    FORGETTING_PAYS <= t.ttl && from <= now && EntryOk(t, key, now) && Paid(t, key, c, from, now)
  }

  lemma LaterStaysSound(t: Table, key: string, c: int, from: int, before: int, now: int)
    requires Sound(t, key, c, from, before) && before <= now
    ensures Sound(t, key, c, from, now)
  {
  }

  // Dropping expired entries, or evicting another key, keeps the account.
  lemma DroppingStaysSound(t: Table, t': Table, key: string, c: int, from: int, now: int)
    requires Sound(t, key, c, from, now) && t'.ttl == t.ttl
    requires key in t'.entries ==> key in t.entries && t'.entries[key] == t.entries[key]
    requires key in t.entries && key !in t'.entries ==> Expired(t.entries[key], now, t.ttl)
    ensures Sound(t', key, c, from, now)
    ensures Ready(t, key, now) ==> Ready(t', key, now)
  {
  }

  lemma AllowedStaysSound(t: Table, key: string, c: int, from: int, ip: string, now: int)
    requires Sound(t, key, c, from, now) && ip != key
    ensures Sound(AllowedNext(t, ip, now).0, key, c, from, now)
  {
    DroppingStaysSound(t, Swept(t, now), key, c, from, now);
  }

  lemma AllowedKeyStaysSound(t: Table, key: string, c: int, from: int, name: string, now: int)
    requires Sound(t, key, c, from, now)
    ensures var (t', ok) := AllowedKeyNext(t, name, USERNAME_FAIL_BUDGET, now);
            Sound(t', key, c, from, now) && (ok && name == key ==> Ready(t', key, now))
  {
    DroppingStaysSound(t, Swept(t, now), key, c, from, now);
  }

  // A key dropped for whatever reason gives its fifty back.
  lemma LosingCostsFifty(t: Table, t': Table, key: string, c: int, from: int, now: int)
    requires Sound(t, key, c, from, now) && t'.ttl == t.ttl
    requires key in t'.entries ==> key in t.entries && t'.entries[key] == t.entries[key]
    ensures Sound(t', key, c - USERNAME_FAIL_BUDGET, from, now)
    ensures Ready(t, key, now) ==> Ready(t', key, now)
  {
  }

  // What is still due after a step that may have pushed the key out.
  function Left(t: Table, t': Table, key: string, victim: string, c: int): int {
    if victim == key && key in t.entries && key !in t'.entries then c - USERNAME_FAIL_BUDGET else c
  }

  lemma OpeningStaysSound(t: Table, key: string, c: int, from: int, other: string, now: int, victim: string)
    requires Sound(t, key, c, from, now)
    ensures var t' := Opened(t, other, now, victim).0;
            Sound(t', key, Left(t, t', key, victim, c), from, now) && (Ready(t, key, now) ==> Ready(t', key, now))
  {
    var s := Swept(t, now);
    var t' := Opened(t, other, now, victim).0;
    DroppingStaysSound(t, s, key, c, from, now);
    if victim == key && key in s.entries && key !in t'.entries {
      LosingCostsFifty(s, t', key, c, from, now);
    } else {
      DroppingStaysSound(s, t', key, c, from, now);
      FewerIsSound(t', key, c, Left(t, t', key, victim, c), from, now);
    }
  }

  lemma AddressFails(t: Table, key: string, c: int, from: int, ip: string, now: int, victim: string)
    requires Sound(t, key, c, from, now) && ip != key
    ensures var t' := FailNext(t, ip, now, victim).0;
            Sound(t', key, Left(t, t', key, victim, c), from, now) && (Ready(t, key, now) ==> Ready(t', key, now))
  {
    OpeningStaysSound(t, key, c, from, ip, now, victim);
  }

  lemma OtherNameFails(t: Table, key: string, c: int, from: int, name: string, now: int, victim: string)
    requires Sound(t, key, c, from, now) && name != key
    ensures var t' := FailKeyNext(t, name, now, victim); Sound(t', key, Left(t, t', key, victim, c), from, now)
  {
    OpeningStaysSound(t, key, c, from, name, now, victim);
  }

  lemma CountingStaysSound(t: Table, key: string, c: int, from: int, now: int, victim: string)
    requires Sound(t, key, c, from, now) && Ready(t, key, now)
    ensures Sound(FailKeyNext(t, key, now, victim), key, c + 1, from, now)
  {
    var s := Swept(t, now);
    DroppingStaysSound(t, s, key, c, from, now);
    DroppingStaysSound(s, Opened(t, key, now, victim).0, key, c, from, now);
  }

  function Due(c: int, counted: bool, lost: bool): int {
    c + (if counted then 1 else 0) - if lost then USERNAME_FAIL_BUDGET else 0
  }

  lemma BadStaysSound(t: Table, key: string, c: int, from: int, ip: string, named: bool, name: string,
                      now: int, victims: (string, string))
    requires Sound(t, key, c, from, now) && ip != key
    requires named && name == key ==> Ready(t, key, now)
    ensures Sound(FailedKeys(t, ip, named, name, now, victims), key,
                  Due(c, named && name == key, victims.0 == key || victims.1 == key), from, now)
  {
    var t1 := FailNext(t, ip, now, victims.0).0;
    var c1 := Left(t, t1, key, victims.0, c);
    AddressFails(t, key, c, from, ip, now, victims.0);
    var t2 := FailedKeys(t, ip, named, name, now, victims);
    var due := Due(c, named && name == key, victims.0 == key || victims.1 == key);
    if named && name == key {
      CountingStaysSound(t1, key, c1, from, now, victims.1);
      FewerIsSound(t2, key, c1 + 1, due, from, now);
    } else if named {
      OtherNameFails(t1, key, c1, from, name, now, victims.1);
      FewerIsSound(t2, key, Left(t1, t2, key, victims.1, c1), due, from, now);
    } else {
      FewerIsSound(t2, key, c1, due, from, now);
    }
  }

  lemma FewerIsSound(t: Table, key: string, c: int, d: int, from: int, now: int)
    requires Sound(t, key, c, from, now) && d <= c
    ensures Sound(t, key, d, from, now)
  {
  }

  lemma CheckStaysSound(t: Table, key: string, c: int, from: int, ip: string, named: bool, name: string, now: int)
    requires Sound(t, key, c, from, now) && ip != key
    ensures var (t', ok) := AllowedKeys(t, ip, named, name, now);
            Sound(t', key, c, from, now) && (ok && named && name == key ==> Ready(t', key, now))
  {
    AllowedStaysSound(t, key, c, from, ip, now);
    AllowedKeyStaysSound(AllowedNext(t, ip, now).0, key, c, from, name, now);
  }

  lemma GoodStaysSound(t: Table, key: string, c: int, from: int, now: int, parseIP: string -> Option<string>,
                       ip: string, username: string)
    requires Sound(t, key, c, from, now) && NormalizeIP(parseIP, ip) != key
    ensures Sound(SucceededBoth(t, parseIP, ip, username), key,
                  Due(c, false, NormalizeIP(parseIP, UsernameKey(username)) == key), from, now)
  {
    var cleared := NormalizeIP(parseIP, UsernameKey(username));
    var t' := SucceededBoth(t, parseIP, ip, username);
    if cleared == key {
      LosingCostsFifty(t, t', key, c, from, now);
    } else {
      DroppingStaysSound(t, t', key, c, from, now);
    }
  }

  lemma AttemptStaysSound(cfg: Config, t: Table, key: string, c: int, from: int, a: Attempt)
    requires Sound(t, key, c, from, a.now) && Elsewhere(cfg, a, key)
    ensures Sound(Login(cfg, t, a), key, Due(c, Counts(t, a, key), !Spares(cfg, a, key)), from, a.now)
  {
    var name := UsernameKey(a.username);
    CheckStaysSound(t, key, c, from, a.ip, a.username != "", name, a.now);
    var (t2, ok) := Checked(t, a);
    var n, due := Login(cfg, t, a), Due(c, Counts(t, a, key), !Spares(cfg, a, key));
    if ok && a.outcome == Bad {
      BadStaysSound(t2, key, c, from, a.ip, a.username != "", name, a.now, a.victims);
    } else if ok && a.outcome == Good {
      GoodStaysSound(t2, key, c, from, a.now, cfg.parseIP, a.ip, a.username);
      FewerIsSound(n, key, Due(c, false, NormalizeIP(cfg.parseIP, name) == key), due, from, a.now);
    } else {
      FewerIsSound(n, key, c, due, from, a.now);
    }
  }

  // What the attempts so far leave due.
  function DueAfter(c: Config, t: Table, attempts: seq<Attempt>, key: string): int {
    Counted(c, t, attempts, key) - USERNAME_FAIL_BUDGET * Losses(c, attempts, key)
  }

  // A run in its last attempt and what came before it.
  lemma LastAttempt(c: Config, t: Table, start: int, attempts: seq<Attempt>, init: seq<Attempt>, a: Attempt,
                    key: string)
    requires attempts != [] && Runs(c, t, start, attempts)
    requires init == attempts[..|attempts| - 1] && a == attempts[|attempts| - 1]
    ensures Runs(c, t, start, init) && Clock(start, init) <= a.now == Clock(start, attempts)
    ensures !IsUserKey(a.ip) && !IsUserKey(NormalizeIP(c.parseIP, a.ip))
    ensures Run(c, t, attempts) == Login(c, Run(c, t, init), a)
    ensures DueAfter(c, t, attempts, key)
         == Due(DueAfter(c, t, init, key), Counts(Run(c, t, init), a, key), !Spares(c, a, key))
  {
  }

  lemma RunStepStaysSound(cfg: Config, t: Table, key: string, c: int, from: int, clock: int, a: Attempt)
    requires Sound(t, key, c, from, clock) && clock <= a.now && IsUserKey(key)
    requires !IsUserKey(a.ip) && !IsUserKey(NormalizeIP(cfg.parseIP, a.ip))
    ensures Sound(Login(cfg, t, a), key, Due(c, Counts(t, a, key), !Spares(cfg, a, key)), from, a.now)
  {
    LaterStaysSound(t, key, c, from, clock, a.now);
    AttemptStaysSound(cfg, t, key, c, from, a);
  }

  lemma {:induction false} RunStaysSound(cfg: Config, t: Table, key: string, from: int, attempts: seq<Attempt>,
                                         end: Table, due: int)
    requires Sound(t, key, 0, from, from) && IsUserKey(key) && Runs(cfg, t, from, attempts)
    requires end == Run(cfg, t, attempts) && due == DueAfter(cfg, t, attempts, key)
    ensures Sound(end, key, due, from, Clock(from, attempts))
  {
    if attempts != [] {
      var init, a := attempts[..|attempts| - 1], attempts[|attempts| - 1];
      var mid, c := Run(cfg, t, init), DueAfter(cfg, t, init, key);
      LastAttempt(cfg, t, from, attempts, init, a, key);
      RunStaysSound(cfg, t, key, from, init, mid, c);
      RunStepStaysSound(cfg, mid, key, c, from, Clock(from, init), a);
    }
  }

  lemma AttemptEntryOk(cfg: Config, t: Table, key: string, clock: int, a: Attempt)
    requires EntryOk(t, key, clock) && clock <= a.now && a.ip != key
    ensures EntryOk(Login(cfg, t, a), key, a.now) && Login(cfg, t, a).ttl == t.ttl
  {
    var name := UsernameKey(a.username);
    CheckEntryOk(t, key, clock, a.ip, a.username != "", name, a.now);
    var (t2, ok) := Checked(t, a);
    if ok && a.outcome == Bad {
      BadEntryOk(t2, key, a.ip, a.username != "", name, a.now, a.victims);
    }
  }

  lemma CheckEntryOk(t: Table, key: string, clock: int, ip: string, named: bool, name: string, now: int)
    requires EntryOk(t, key, clock) && clock <= now
    ensures var t' := AllowedKeys(t, ip, named, name, now).0; EntryOk(t', key, now) && t'.ttl == t.ttl
  {
    var t1 := AllowedNext(t, ip, now).0;
    assert EntryOk(t1, key, now) && t1.ttl == t.ttl;
  }

  lemma BadEntryOk(t: Table, key: string, ip: string, named: bool, name: string, now: int, victims: (string, string))
    requires EntryOk(t, key, now) && ip != key
    ensures var t' := FailedKeys(t, ip, named, name, now, victims); EntryOk(t', key, now) && t'.ttl == t.ttl
  {
    var t1 := FailNext(t, ip, now, victims.0).0;
    assert EntryOk(t1, key, now) && t1.ttl == t.ttl;
  }

  // Every reachable table is sound for a count that starts now.
  lemma {:induction false} ReachableEntryOk(cfg: Config, t: Table, key: string, start: int, attempts: seq<Attempt>)
    requires EntryOk(t, key, start) && IsUserKey(key) && Runs(cfg, t, start, attempts)
    ensures EntryOk(Run(cfg, t, attempts), key, Clock(start, attempts))
    ensures Run(cfg, t, attempts).ttl == t.ttl
  {
    if attempts != [] {
      var init, a := attempts[..|attempts| - 1], attempts[|attempts| - 1];
      ReachableEntryOk(cfg, t, key, start, init);
      AttemptEntryOk(cfg, Run(cfg, t, init), key, Clock(start, init), a);
    }
  }

  // In any window of attempts at most fifty failures, another fifty for each time
  // the username is cleared or pushed out of a full table, and one per full minute
  // are counted against it, whoever makes them and whatever came before.
  lemma WindowBound(cfg: Config, empty: Table, key: string, start: int, before: seq<Attempt>,
                    from: int, window: seq<Attempt>, length: nat)
    requires empty.entries == map[] && FORGETTING_PAYS <= empty.ttl && IsUserKey(key)
    requires Runs(cfg, empty, start, before) && Clock(start, before) <= from
    requires Runs(cfg, Run(cfg, empty, before), from, window) && Clock(from, window) <= from + length
    ensures Counted(cfg, Run(cfg, empty, before), window, key)
            <= USERNAME_FAIL_BUDGET * (1 + Losses(cfg, window, key)) + length / USERNAME_LOCKOUT
  {
    ReachableEntryOk(cfg, empty, key, start, before);
    var t := Run(cfg, empty, before);
    FreshCountIsSound(t, key, Clock(start, before), from);
    var t', c := Run(cfg, t, window), DueAfter(cfg, t, window, key);
    RunStaysSound(cfg, t, key, from, window, t', c);
    SoundCountIsBounded(t', key, c, from, Clock(from, window), length);
  }

  lemma FreshCountIsSound(t: Table, key: string, clock: int, from: int)
    requires EntryOk(t, key, clock) && clock <= from && FORGETTING_PAYS <= t.ttl
    ensures Sound(t, key, 0, from, from)
  {
  }

  lemma SoundCountIsBounded(t: Table, key: string, c: int, from: int, now: int, length: nat)
    requires Sound(t, key, c, from, now) && now <= from + length
    ensures c <= USERNAME_FAIL_BUDGET + length / USERNAME_LOCKOUT
  {
    assert USERNAME_LOCKOUT * (c - USERNAME_FAIL_BUDGET) <= length;
  }

  // Blocked attempts, and attempts on other names, never lengthen a lock: a
  // username is let in again one lockout after its last counted failure.
  lemma {:induction false} AllowedAgainAfterLockout(cfg: Config, t: Table, key: string, start: int,
                                                    attempts: seq<Attempt>, last: int, now: int)
    requires IsUserKey(key) && Runs(cfg, t, start, attempts) && Counted(cfg, t, attempts, key) == 0
    requires key in t.entries ==> LastFailure(t.entries[key]) <= last
    requires last + USERNAME_LOCKOUT <= now
    ensures AllowedKeyNext(Run(cfg, t, attempts), key, USERNAME_FAIL_BUDGET, now).1
    ensures var t' := Run(cfg, t, attempts); key in t'.entries ==> LastFailure(t'.entries[key]) <= last
  {
    if attempts != [] {
      var init, a := attempts[..|attempts| - 1], attempts[|attempts| - 1];
      AllowedAgainAfterLockout(cfg, t, key, start, init, last, now);
      UncountedKeepsLock(cfg, Run(cfg, t, init), key, a);
    }
  }

  // The key's lock in the later table is one it already had.
  predicate NoLonger(t: Table, t': Table, key: string) {
    key in t'.entries ==> key in t.entries && t'.entries[key].lockedTill == t.entries[key].lockedTill
  }

  lemma UncountedKeepsLock(cfg: Config, t: Table, key: string, a: Attempt)
    requires a.ip != key && !Counts(t, a, key)
    ensures NoLonger(t, Login(cfg, t, a), key)
  {
    var name := UsernameKey(a.username);
    CheckKeepsLock(t, key, a.ip, a.username != "", name, a.now);
    var (t2, ok) := Checked(t, a);
    if ok && a.outcome == Bad {
      BadKeepsLock(t2, key, a.ip, a.username != "", name, a.now, a.victims);
    }
  }

  lemma CheckKeepsLock(t: Table, key: string, ip: string, named: bool, name: string, now: int)
    ensures NoLonger(t, AllowedKeys(t, ip, named, name, now).0, key)
  {
    assert NoLonger(t, AllowedNext(t, ip, now).0, key);
  }

  lemma BadKeepsLock(t: Table, key: string, ip: string, named: bool, name: string, now: int, victims: (string, string))
    requires ip != key && !(named && name == key)
    ensures NoLonger(t, FailedKeys(t, ip, named, name, now, victims), key)
  {
    assert NoLonger(t, FailNext(t, ip, now, victims.0).0, key);
  }

  // A successful login ends the username's lock exactly when the name does not
  // read as a host and a port: the clear is looked up under the address form.
  lemma SuccessClearsIff(t: Table, parseIP: string -> Option<string>, ip: string, username: string)
    requires ParsesAddresses(parseIP) && username != ""
    requires UsernameKey(username) in t.entries && !IsUserKey(NormalizeIP(parseIP, ip))
    ensures UsernameKey(username) !in SucceededBoth(t, parseIP, ip, username).entries
            <==> !LooksLikeHostPort(ToLower(TrimSpace(username)))
  {
    ClearedKeyIsCountedKeyIff(parseIP, username);
  }

  lemma FirstFailure(t: Table, ip: string, username: string, now: int)
    requires t.entries == map[] && t.maxEntries >= 2 && username != "" && !IsUserKey(ip) && 0 < now
    ensures var (t1, ok) := AllowedBoth(t, ip, username, now);
            && ok
            && FailedBoth(t1, ip, username, now, ("", "")).entries
               == map[ip := Entry(1, 0, now), UsernameKey(username) := Entry(1, now + USERNAME_LOCKOUT, now)]
  {
    var t1 := AllowedBoth(t, ip, username, now).0;
    assert t1.entries == map[];
    assert UsernameKey(username) != ip;
    assert FailNext(t1, ip, now, "").0.entries == map[ip := Entry(1, 0, now)];
  }

  lemma StillAllowed(t: Table, ip: string, username: string, seen: int, now: int)
    requires username != "" && !IsUserKey(ip) && t.ttl == LIMITER_ENTRY_TTL && 0 < seen <= now < seen + USERNAME_LOCKOUT
    requires t.entries == map[ip := Entry(1, 0, seen), UsernameKey(username) := Entry(1, seen + USERNAME_LOCKOUT, seen)]
    ensures var (t1, ok) := AllowedBoth(t, ip, username, now);
            ok && UsernameKey(username) in t1.entries && t1.entries[UsernameKey(username)].fails == 1
  {
  }

  lemma RunOfTwo(c: Config, t: Table, a: Attempt, b: Attempt)
    ensures Run(c, t, [a, b]) == Login(c, Login(c, t, a), b)
  {
    assert [a, b][..1] == [a] && [a][..0] == [];
    assert Run(c, t, [a]) == Login(c, Run(c, t, []), a);
  }

  lemma GoodAfterOne(cfg: Config, t: Table, good: Attempt, seen: int)
    requires ParsesAddresses(cfg.parseIP) && good.username != "" && good.outcome == Good
    requires !IsUserKey(good.ip) && !IsUserKey(NormalizeIP(cfg.parseIP, good.ip))
    requires t.ttl == LIMITER_ENTRY_TTL && 0 < seen <= good.now < seen + USERNAME_LOCKOUT
    requires t.entries == map[good.ip := Entry(1, 0, seen),
                              UsernameKey(good.username) := Entry(1, seen + USERNAME_LOCKOUT, seen)]
    ensures var key, end := UsernameKey(good.username), Login(cfg, t, good);
            key in end.entries && end.entries[key].fails == 1 <==> LooksLikeHostPort(ToLower(TrimSpace(good.username)))
  {
    StillAllowed(t, good.ip, good.username, seen, good.now);
    SuccessClearsIff(Checked(t, good).0, cfg.parseIP, good.ip, good.username);
  }

  lemma BadFirst(cfg: Config, t: Table, bad: Attempt)
    requires bad.username != "" && bad.outcome == Bad && bad.victims == ("", "") && !IsUserKey(bad.ip) && 0 < bad.now
    requires t.entries == map[] && t.maxEntries >= 2
    ensures var mid := Login(cfg, t, bad);
            && mid.ttl == t.ttl
            && mid.entries == map[bad.ip := Entry(1, 0, bad.now),
                                  UsernameKey(bad.username) := Entry(1, bad.now + USERNAME_LOCKOUT, bad.now)]
  {
    FirstFailure(t, bad.ip, bad.username, bad.now);
  }

  // From the empty table, one wrong password and the right one after it: the
  // failure stays on the username's count exactly when the name reads as a host and
  // a port.
  lemma OneBadOneGood(cfg: Config, bad: Attempt, good: Attempt, end: Table)
    requires ParsesAddresses(cfg.parseIP) && bad.username != "" && bad.outcome == Bad && bad.victims == ("", "")
    requires good == bad.(outcome := Good, now := good.now) && 0 < bad.now <= good.now < bad.now + USERNAME_LOCKOUT
    requires !IsUserKey(bad.ip) && !IsUserKey(NormalizeIP(cfg.parseIP, bad.ip))
    requires end == Run(cfg, Table(map[], 0, LIMITER_MAX_ENTRIES, LIMITER_ENTRY_TTL), [bad, good])
    ensures var key := UsernameKey(bad.username);
            key in end.entries && end.entries[key].fails == 1 <==> LooksLikeHostPort(ToLower(TrimSpace(bad.username)))
  {
    var t := Table(map[], 0, LIMITER_MAX_ENTRIES, LIMITER_ENTRY_TTL);
    BadFirst(cfg, t, bad);
    RunOfTwo(cfg, t, bad, good);
    GoodAfterOne(cfg, Login(cfg, t, bad), good, bad.now);
  }

  // An administrator may be called that.
  lemma ANameWithAColon()
    ensures LooksLikeHostPort(ToLower(TrimSpace("ops:1")))
  {
    var name := "ops:1";
    assert TrimLeft(name, IsSpace) == name && TrimRight(name, IsSpace) == name;
    assert ToLower(name) == name;
    LastIndexAt(name, 3, ':');
  }

  lemma {:induction false} LastIndexAt(s: string, i: nat, c: char)
    requires i < |s| && s[i] == c && forall k :: i < k < |s| ==> s[k] != c
    ensures LastIndexOf(s, c) == i
  {
  }
}
