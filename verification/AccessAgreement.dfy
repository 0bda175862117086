// Who may connect, worked out twice: the client lists the cores are served,
// and the inbounds a subscription offers.
module AccessAgreement {
  import opened Numerals
  import opened InboundModel

  datatype Status = Active | OnHold | Disabled | Limited | Expired

  // heldUntil and disconnectedUntil are times, 0 for none.
  datatype User = User(id: nat, status: Status, heldUntil: int, disconnectedUntil: int, subRevoked: bool, groupID: nat,
                       username: string, uuid: string, password: string)

  // `readable` says the stored config parses; `username`, `uuid` and `password` are
  // the inbound's own credential, `camouflage` the password of a ShadowTLS block.
  datatype Inbound = Inbound(id: nat, enabled: bool, readable: bool, hidden: bool, protocol: Protocol,
                             username: string, uuid: string, password: string, camouflage: string)

  datatype Store = Store(inbounds: seq<Inbound>, groups: map<nat, seq<nat>>, users: seq<User>,
                         direct: map<nat, seq<nat>>)

  datatype Client =
    | Own(username: string, uuid: string, password: string)
    | Of(user: nat, username: string, uuid: string, password: string)

  datatype Spec = Spec(inbound: nat, clients: seq<Client>)

  function ListOf(m: map<nat, seq<nat>>, id: nat): seq<nat> { if id in m then m[id] else [] }

  predicate Served(u: User, now: int) {
    u.status != Disabled && u.status != Expired && u.status != Limited
    && !(u.heldUntil != 0 && u.heldUntil > now) && !(u.disconnectedUntil != 0 && u.disconnectedUntil > now)
  }

  predicate Subscribes(u: User) { !u.subRevoked && u.status != Disabled && u.status != Expired }

  // The union of what the user's group and the user are assigned.
  predicate HasAccess(st: Store, u: User, id: nat) {
    id in ListOf(st.groups, u.groupID) || id in ListOf(st.direct, u.id)
  }

  // --- what the cores serve ---

  // The users, in order, whose credentials go into one inbound.
  function Holders(st: Store, users: seq<User>, now: int, id: nat): (r: seq<User>)
    ensures forall u :: u in r <==> u in users && Served(u, now) && HasAccess(st, u, id)
  {
    if users == [] then []
    else
      var before, u := Holders(st, users[..|users| - 1], now, id), users[|users| - 1];
      assert forall x :: x in users <==> x in users[..|users| - 1] || x == u;
      if Served(u, now) && HasAccess(st, u, id) then before + [u] else before
  }

  function ClientOf(u: User): Client { Of(u.id, u.username, u.uuid, u.password) }

  function ClientsOf(users: seq<User>): (r: seq<Client>)
    ensures |r| == |users| && forall i :: 0 <= i < |users| ==> r[i] == ClientOf(users[i])
  {
    seq(|users|, i requires 0 <= i < |users| => ClientOf(users[i]))
  }

  function OwnClient(n: Inbound): seq<Client> {
    if n.uuid != "" || n.password != "" then [Own(n.username, n.uuid, n.password)] else []
  }

  function SpecsUpTo(st: Store, now: int, k: nat): seq<Spec>
    requires k <= |st.inbounds|
  {
    if k == 0 then []
    else
      var before, n := SpecsUpTo(st, now, k - 1), st.inbounds[k - 1];
      if !n.enabled || !n.readable then before
      else before + [Spec(n.id, OwnClient(n) + ClientsOf(Holders(st, st.users, now, n.id)))]
  }

  type ByInbound = map<nat, seq<User>>

  function At(m: ByInbound, id: nat): seq<User> { if id in m then m[id] else [] }

  function SetOf(ids: seq<nat>): set<nat> { set x | x in ids }

  // The user is added, once, to each of the inbounds and to no other.
  ghost predicate Granted(m: ByInbound, m2: ByInbound, ids: set<nat>, u: User) {
    forall id :: At(m2, id) == At(m, id) + if id in ids then [u] else []
  }

  // Partway through a list of ids.
  ghost predicate Stage(m: ByInbound, m2: ByInbound, seen: set<nat>, seen2: set<nat>, done: seq<nat>, u: User) {
    seen2 == seen + SetOf(done) && Granted(m, m2, seen2 - seen, u)
  }

  lemma StageNext(m: ByInbound, m2: ByInbound, seen: set<nat>, seen2: set<nat>, done: seq<nat>, id: nat, u: User)
    requires Stage(m, m2, seen, seen2, done, u)
    ensures id in seen2 ==> Stage(m, m2, seen, seen2, done + [id], u)
    ensures id !in seen2 ==> Stage(m, m2[id := At(m2, id) + [u]], seen, seen2 + {id}, done + [id], u)
  {
    assert SetOf(done + [id]) == SetOf(done) + {id};
    if id !in seen2 {
      assert (seen2 + {id}) - seen == (seen2 - seen) + {id};
      GrantedOne(m, m2, m2[id := At(m2, id) + [u]], seen2 - seen, id, u);
    }
  }

  lemma GrantedOne(m: ByInbound, was: ByInbound, now: ByInbound, a: set<nat>, id: nat, u: User)
    requires Granted(m, was, a, u) && id !in a && now == was[id := At(was, id) + [u]]
    ensures Granted(m, now, a + {id}, u)
  {
  }

  lemma StageStarts(m: ByInbound, seen: set<nat>, u: User)
    ensures Stage(m, m, seen, seen, [], u)
  {
  }

  method Grant(m: ByInbound, seen: set<nat>, ids: seq<nat>, u: User) returns (m2: ByInbound, seen2: set<nat>)
    ensures seen2 == seen + SetOf(ids)
    ensures Granted(m, m2, SetOf(ids) - seen, u)
  {
    m2, seen2 := m, seen;
    StageStarts(m, seen, u);
    var i := 0;
    while i < |ids|
      invariant 0 <= i <= |ids|
      invariant Stage(m, m2, seen, seen2, ids[..i], u)
    {
      var id := ids[i];
      StageNext(m, m2, seen, seen2, ids[..i], id, u);
      assert ids[..i] + [id] == ids[..i + 1];
      if id !in seen2 {
        seen2 := seen2 + {id};
        m2 := m2[id := At(m2, id) + [u]];
      }
      i := i + 1;
    }
    assert ids[..|ids|] == ids;
    assert seen2 - seen == SetOf(ids) - seen;
  }

  ghost predicate Filed(st: Store, users: seq<User>, now: int, m: ByInbound) {
    forall id :: At(m, id) == Holders(st, users, now, id)
  }

  // One user's turn: nothing for a user kept out, else one place in each
  // inbound of the group's or their own, however often it is named.
  method GrantUser(st: Store, ghost before: seq<User>, u: User, now: int, m: ByInbound) returns (m2: ByInbound)
    requires Filed(st, before, now, m)
    ensures Filed(st, before + [u], now, m2)
  {
    m2 := m;
    if Served(u, now) {
      var once, seen := Grant(m, {}, ListOf(st.groups, u.groupID), u);
      m2, seen := Grant(once, seen, ListOf(st.direct, u.id), u);
      GrantedTwice(m, once, m2, SetOf(ListOf(st.groups, u.groupID)), SetOf(ListOf(st.direct, u.id)), u);
    }
    OneMoreHolder(st, before, u, now, m, m2);
  }

  lemma GrantedTwice(m: ByInbound, m1: ByInbound, m2: ByInbound, a: set<nat>, b: set<nat>, u: User)
    requires Granted(m, m1, a - {}, u) && Granted(m1, m2, b - ({} + a), u)
    ensures Granted(m, m2, a + b, u)
  {
  }

  lemma OneMoreHolder(st: Store, before: seq<User>, u: User, now: int, m: ByInbound, m2: ByInbound)
    requires Filed(st, before, now, m)
    requires if Served(u, now) then
               Granted(m, m2, SetOf(ListOf(st.groups, u.groupID)) + SetOf(ListOf(st.direct, u.id)), u)
             else m2 == m
    ensures Filed(st, before + [u], now, m2)
  {
    assert (before + [u])[..|before|] == before;
    forall id
      ensures At(m2, id) == Holders(st, before + [u], now, id)
    {
      assert At(m, id) == Holders(st, before, now, id);
    }
  }

  method EnabledInboundSpecs(st: Store, now: int) returns (specs: seq<Spec>)
    ensures specs == SpecsUpTo(st, now, |st.inbounds|)
  {
    var byInbound: ByInbound := map[];
    var k := 0;
    while k < |st.users|
      invariant 0 <= k <= |st.users|
      invariant Filed(st, st.users[..k], now, byInbound)
    {
      byInbound := GrantUser(st, st.users[..k], st.users[k], now, byInbound);
      assert st.users[..k + 1] == st.users[..k] + [st.users[k]];
      k := k + 1;
    }
    assert st.users[..|st.users|] == st.users;
    specs := BuildSpecs(st, now, byInbound);
  }

  method BuildSpecs(st: Store, now: int, byInbound: ByInbound) returns (specs: seq<Spec>)
    requires Filed(st, st.users, now, byInbound)
    ensures specs == SpecsUpTo(st, now, |st.inbounds|)
  {
    specs := [];
    var i := 0;
    while i < |st.inbounds|
      invariant 0 <= i <= |st.inbounds| && specs == SpecsUpTo(st, now, i)
    {
      var n := st.inbounds[i];
      i := i + 1;
      if !n.enabled || !n.readable { continue; }
      var clients: seq<Client> := [];
      if n.uuid != "" || n.password != "" { clients := [Own(n.username, n.uuid, n.password)]; }
      specs := specs + [Spec(n.id, clients + ClientsOf(At(byInbound, n.id)))];
    }
  }

  // --- what a subscription offers ---

  // The ids of a list not seen before it, once each.
  function NewOnes(seen: set<nat>, ids: seq<nat>): (r: seq<nat>)
    ensures forall x :: x in r <==> x in ids && x !in seen
    ensures forall i, j :: 0 <= i < j < |r| ==> r[i] != r[j]
  {
    if ids == [] then []
    else
      var before, x := NewOnes(seen, ids[..|ids| - 1]), ids[|ids| - 1];
      assert forall y :: y in ids <==> y in ids[..|ids| - 1] || y == x;
      if x in seen || x in ids[..|ids| - 1] then before else before + [x]
  }

  // No group has the id that means "no group"; rows have ids of their own.
  predicate Keyed(st: Store) {
    && 0 !in st.groups
    && (forall i, j :: 0 <= i < j < |st.inbounds| ==> st.inbounds[i].id != st.inbounds[j].id)
    && (forall i, j :: 0 <= i < j < |st.users| ==> st.users[i].id != st.users[j].id)
  }

  function Effective(st: Store, u: User): seq<nat> {
    NewOnes({}, ListOf(st.direct, u.id))
    + NewOnes(SetOf(ListOf(st.direct, u.id)), if u.groupID == 0 then [] else ListOf(st.groups, u.groupID))
  }

  lemma EffectiveIsTheUnion(st: Store, u: User)
    requires 0 !in st.groups
    ensures forall x :: x in Effective(st, u) <==> HasAccess(st, u, x)
    ensures forall i, j :: 0 <= i < j < |Effective(st, u)| ==> Effective(st, u)[i] != Effective(st, u)[j]
  {
    var own := NewOnes({}, ListOf(st.direct, u.id));
    var rest := NewOnes(SetOf(ListOf(st.direct, u.id)), if u.groupID == 0 then [] else ListOf(st.groups, u.groupID));
    assert Effective(st, u) == own + rest;
    forall i, j | 0 <= i < j < |own + rest|
      ensures (own + rest)[i] != (own + rest)[j]
    {
      if i < |own| <= j {
        assert own[i] in own && rest[j - |own|] in rest;
      }
    }
  }

  method CollectNew(seen: set<nat>, ids: seq<nat>, out: seq<nat>) returns (seen2: set<nat>, out2: seq<nat>)
    ensures seen2 == seen + SetOf(ids) && out2 == out + NewOnes(seen, ids)
  {
    seen2, out2 := seen, out;
    var i := 0;
    while i < |ids|
      invariant 0 <= i <= |ids|
      invariant seen2 == seen + SetOf(ids[..i]) && out2 == out + NewOnes(seen, ids[..i])
    {
      assert ids[..i + 1][..i] == ids[..i];
      assert forall x :: x in ids[..i + 1] <==> x in ids[..i] || x == ids[i];
      if ids[i] !in seen2 {
        seen2 := seen2 + {ids[i]};
        out2 := out2 + [ids[i]];
      }
      i := i + 1;
    }
    assert ids[..|ids|] == ids;
  }

  method InboundsForUser(st: Store, u: User) returns (out: seq<nat>)
    ensures out == Effective(st, u)
  {
    var seen: set<nat>;
    seen, out := CollectNew({}, ListOf(st.direct, u.id), []);
    assert seen == SetOf(ListOf(st.direct, u.id));
    if u.groupID != 0 { seen, out := CollectNew(seen, ListOf(st.groups, u.groupID), out); }
  }

  function RowOf(rows: seq<Inbound>, id: nat): (r: Option<Inbound>)
    ensures r.Some? ==> r.value in rows && r.value.id == id
    ensures r.None? ==> forall n :: n in rows ==> n.id != id
  {
    if rows == [] then None
    else if rows[0].id == id then Some(rows[0])
    else RowOf(rows[1..], id)
  }

  predicate Visible(n: Inbound) { n.enabled && n.readable && !n.hidden }

  predicate Lists(st: Store, id: nat) {
    var n := RowOf(st.inbounds, id);
    n.Some? && Visible(n.value)
  }

  function OfferedUpTo(st: Store, ids: seq<nat>): (r: seq<nat>)
    ensures forall x :: x in r <==> x in ids && Lists(st, x)
  {
    if ids == [] then []
    else
      var before, x := OfferedUpTo(st, ids[..|ids| - 1]), ids[|ids| - 1];
      assert forall y :: y in ids <==> y in ids[..|ids| - 1] || y == x;
      if Lists(st, x) then before + [x] else before
  }

  // The inbounds of a subscription, in order.
  function Offered(st: Store, u: User): seq<nat> {
    if Subscribes(u) then OfferedUpTo(st, Effective(st, u)) else []
  }

  method IsListed(st: Store, id: nat) returns (r: bool)
    ensures r == Lists(st, id)
  {
    var n := RowOf(st.inbounds, id);
    if n.None? || !n.value.enabled { return false; }
    return n.value.readable && !n.value.hidden;
  }

  method KeepListed(st: Store, ids: seq<nat>) returns (out: seq<nat>)
    ensures out == OfferedUpTo(st, ids)
  {
    out := [];
    var i := 0;
    while i < |ids|
      invariant 0 <= i <= |ids| && out == OfferedUpTo(st, ids[..i])
    {
      var listed := IsListed(st, ids[i]);
      assert ids[..i + 1][..i] == ids[..i];
      if listed { out := out + [ids[i]]; }
      i := i + 1;
    }
    assert ids[..|ids|] == ids;
  }

  method SubscriptionInbounds(st: Store, u: User) returns (out: seq<nat>)
    ensures out == Offered(st, u)
  {
    if u.subRevoked || u.status == Disabled || u.status == Expired { return []; }
    var ids := InboundsForUser(st, u);
    out := KeepListed(st, ids);
  }

  // --- the two agree ---

  function SpecsOf(st: Store, now: int): seq<Spec> { SpecsUpTo(st, now, |st.inbounds|) }

  // The number of places a user has in the client list served for an inbound.
  function Places(specs: seq<Spec>, id: nat, user: nat): nat {
    if specs == [] then 0
    else
      Places(specs[..|specs| - 1], id, user)
      + if specs[|specs| - 1].inbound == id then Occurs(specs[|specs| - 1].clients, user) else 0
  }

  function Occurs(cs: seq<Client>, user: nat): nat {
    if cs == [] then 0
    else Occurs(cs[..|cs| - 1], user) + if cs[|cs| - 1].Of? && cs[|cs| - 1].user == user then 1 else 0
  }

  function Times(ids: seq<nat>, id: nat): nat {
    if ids == [] then 0 else Times(ids[..|ids| - 1], id) + if ids[|ids| - 1] == id then 1 else 0
  }

  lemma {:induction false} OccursConcat(cs: seq<Client>, ds: seq<Client>, user: nat)
    ensures Occurs(cs + ds, user) == Occurs(cs, user) + Occurs(ds, user)
  {
    if ds == [] {
      assert cs + ds == cs;
    } else {
      assert (cs + ds)[..|cs + ds| - 1] == cs + ds[..|ds| - 1];
      OccursConcat(cs, ds[..|ds| - 1], user);
    }
  }

  predicate DistinctUsers(users: seq<User>) {
    forall i, j :: 0 <= i < j < |users| ==> users[i].id != users[j].id
  }

  lemma {:induction false} HolderOccursOnce(st: Store, users: seq<User>, now: int, id: nat, u: User)
    requires DistinctUsers(users) && u in users
    ensures Occurs(ClientsOf(Holders(st, users, now, id)), u.id)
         == if Served(u, now) && HasAccess(st, u, id) then 1 else 0
  {
    var front, last := users[..|users| - 1], users[|users| - 1];
    var before, all := Holders(st, front, now, id), Holders(st, users, now, id);
    if all != before {
      assert ClientsOf(all)[..|all| - 1] == ClientsOf(before);
    }
    if u == last {
      NobodyOccurs(st, front, now, id, u.id);
    } else {
      var k :| 0 <= k < |users| && users[k] == u;
      assert front[k] == u;
      HolderOccursOnce(st, front, now, id, u);
    }
  }

  lemma {:induction false} NobodyOccurs(st: Store, users: seq<User>, now: int, id: nat, user: nat)
    requires forall i :: 0 <= i < |users| ==> users[i].id != user
    ensures Occurs(ClientsOf(Holders(st, users, now, id)), user) == 0
  {
    if users != [] {
      var before, all := Holders(st, users[..|users| - 1], now, id), Holders(st, users, now, id);
      NobodyOccurs(st, users[..|users| - 1], now, id, user);
      if all != before { assert ClientsOf(all)[..|all| - 1] == ClientsOf(before); }
    }
  }

  lemma OwnIsNobody(n: Inbound, user: nat)
    ensures Occurs(OwnClient(n), user) == 0
  {
    if n.uuid != "" || n.password != "" {
      assert OwnClient(n)[..0] == [];
    }
  }

  function Clients(st: Store, now: int, n: Inbound): seq<Client> {
    OwnClient(n) + ClientsOf(Holders(st, st.users, now, n.id))
  }

  lemma OneListNamesOnce(st: Store, now: int, n: Inbound, u: User)
    requires DistinctUsers(st.users) && u in st.users
    ensures Occurs(Clients(st, now, n), u.id) == if Served(u, now) && HasAccess(st, u, n.id) then 1 else 0
  {
    OccursConcat(OwnClient(n), ClientsOf(Holders(st, st.users, now, n.id)), u.id);
    OwnIsNobody(n, u.id);
    HolderOccursOnce(st, st.users, now, n.id, u);
  }

  lemma OneSpecMore(specs: seq<Spec>, s: Spec, id: nat, user: nat)
    ensures Places(specs + [s], id, user)
         == Places(specs, id, user) + if s.inbound == id then Occurs(s.clients, user) else 0
  {
    assert (specs + [s])[..|specs|] == specs;
  }

  lemma {:induction false} PlacesUpTo(st: Store, now: int, k: nat, n: Inbound, u: User)
    requires k <= |st.inbounds| && Keyed(st) && u in st.users && n in st.inbounds
    ensures Places(SpecsUpTo(st, now, k), n.id, u.id)
         == if n in st.inbounds[..k] && n.enabled && n.readable && Served(u, now) && HasAccess(st, u, n.id)
            then 1 else 0
  {
    if k > 0 {
      PlacesUpTo(st, now, k - 1, n, u);
      var m := st.inbounds[k - 1];
      assert st.inbounds[..k] == st.inbounds[..k - 1] + [m];
      NotSeenBefore(st, k - 1);
      SameIdSameRow(st, m, n);
      if m.enabled && m.readable {
        OneSpecMore(SpecsUpTo(st, now, k - 1), Spec(m.id, Clients(st, now, m)), n.id, u.id);
        OneListNamesOnce(st, now, m, u);
      }
    }
  }

  lemma NotSeenBefore(st: Store, i: nat)
    requires Keyed(st) && i < |st.inbounds|
    ensures st.inbounds[i] !in st.inbounds[..i]
  {
  }

  lemma SameIdSameRow(st: Store, m: Inbound, n: Inbound)
    requires Keyed(st) && m in st.inbounds && n in st.inbounds
    ensures m.id == n.id <==> m == n
  {
    var i :| 0 <= i < |st.inbounds| && st.inbounds[i] == m;
    var j :| 0 <= j < |st.inbounds| && st.inbounds[j] == n;
  }

  lemma {:induction false} TimesIsOne(ids: seq<nat>, id: nat)
    requires forall i, j :: 0 <= i < j < |ids| ==> ids[i] != ids[j]
    ensures Times(ids, id) == if id in ids then 1 else 0
  {
    if ids != [] {
      TimesIsOne(ids[..|ids| - 1], id);
      assert ids == ids[..|ids| - 1] + [ids[|ids| - 1]];
    }
  }

  lemma {:induction false} OfferedTimes(st: Store, ids: seq<nat>, id: nat)
    ensures Times(OfferedUpTo(st, ids), id) == if Lists(st, id) then Times(ids, id) else 0
  {
    if ids != [] {
      var before, all := OfferedUpTo(st, ids[..|ids| - 1]), OfferedUpTo(st, ids);
      OfferedTimes(st, ids[..|ids| - 1], id);
      if all != before { assert all[..|all| - 1] == before; }
    }
  }

  // How often an inbound is offered, and how often its client list names the
  // user: once or never, by group, by assignment or by both.
  lemma ServedAndOffered(st: Store, now: int, u: User, n: Inbound)
    requires Keyed(st) && u in st.users && n in st.inbounds
    ensures Places(SpecsOf(st, now), n.id, u.id)
         == if n.enabled && n.readable && Served(u, now) && HasAccess(st, u, n.id) then 1 else 0
    ensures Times(Offered(st, u), n.id) == if Subscribes(u) && Visible(n) && HasAccess(st, u, n.id) then 1 else 0
  {
    assert st.inbounds[..|st.inbounds|] == st.inbounds;
    PlacesUpTo(st, now, |st.inbounds|, n, u);
    if Subscribes(u) {
      EffectiveIsTheUnion(st, u);
      TimesIsOne(Effective(st, u), n.id);
      OfferedTimes(st, Effective(st, u), n.id);
      ListsIsVisible(st, n);
    }
  }

  lemma ListsIsVisible(st: Store, n: Inbound)
    requires Keyed(st) && n in st.inbounds
    ensures Lists(st, n.id) <==> Visible(n)
  {
    SameIdSameRow(st, RowOf(st.inbounds, n.id).value, n);
  }

  // For a user both sides let in, an inbound is offered exactly as often as
  // the user can connect through it, once, but for inbounds kept out of view.
  lemma OfferedIsServed(st: Store, now: int, u: User, n: Inbound)
    requires Keyed(st) && u in st.users && n in st.inbounds && Served(u, now) && Subscribes(u) && !n.hidden
    ensures Times(Offered(st, u), n.id) == Places(SpecsOf(st, now), n.id, u.id) <= 1
  {
    ServedAndOffered(st, now, u, n);
  }

  // The promise is that nothing is offered that cannot be used.
  predicate NothingUnusable(st: Store, now: int, u: User) {
    forall n :: n in st.inbounds && n.id in Offered(st, u) ==> Places(SpecsOf(st, now), n.id, u.id) > 0
  }

  // The user is assigned an inbound that is in view.
  predicate SeesOne(st: Store, u: User) {
    exists n :: n in st.inbounds && Visible(n) && HasAccess(st, u, n.id)
  }

  // It holds for a user exactly when the cores let the user in, the subscription
  // does not, or no assigned inbound is in view: a user over quota, or held out for
  // a while, is still offered everything.
  lemma OfferIsUsableIff(st: Store, now: int, u: User)
    requires Keyed(st) && u in st.users
    ensures NothingUnusable(st, now, u) <==> Served(u, now) || !Subscribes(u) || !SeesOne(st, u)
  {
    forall n | n in st.inbounds
      ensures n.id in Offered(st, u) <==> Subscribes(u) && Visible(n) && HasAccess(st, u, n.id)
      ensures Places(SpecsOf(st, now), n.id, u.id) > 0
              <==> n.enabled && n.readable && Served(u, now) && HasAccess(st, u, n.id)
    {
      ServedAndOffered(st, now, u, n);
      OfferedTimesIn(Offered(st, u), n.id);
    }
  }

  lemma {:induction false} OfferedTimesIn(ids: seq<nat>, id: nat)
    ensures Times(ids, id) > 0 <==> id in ids
  {
    if ids != [] {
      OfferedTimesIn(ids[..|ids| - 1], id);
      assert ids == ids[..|ids| - 1] + [ids[|ids| - 1]];
    }
  }

  lemma OverQuotaIsStillOffered(now: int)
    ensures var u := User(1, Limited, 0, 0, false, 0, "ann", "uuid", "secret");
            var st := Store([Inbound(7, true, true, false, VLESS, "", "", "", "")], map[], [u], map[1 := [7]]);
            7 in Offered(st, u) && !NothingUnusable(st, now, u)
  {
    var u := User(1, Limited, 0, 0, false, 0, "ann", "uuid", "secret");
    var n := Inbound(7, true, true, false, VLESS, "", "", "", "");
    var st := Store([n], map[], [u], map[1 := [7]]);
    ServedAndOffered(st, now, u, n);
    OfferedTimesIn(Offered(st, u), 7);
    OfferIsUsableIff(st, now, u);
  }

  // --- the credential ---

  function Either(a: string, b: string): string { if a != "" then a else b }

  datatype Handed = Handed(username: string, uuid: string, password: string)

  // The credential stamped into an offered link, the inbound's own standing in
  // for what the user has none of.
  function Stamped(n: Inbound, u: User): Handed {
    match n.protocol
    case VLESS => Handed(n.username, Either(u.uuid, n.uuid), n.password)
    case VMess => Handed(n.username, Either(u.uuid, n.uuid), n.password)
    case TUIC => Handed(n.username, Either(u.uuid, n.uuid), Either(u.password, n.password))
    case Trojan => Handed(n.username, n.uuid, Either(u.password, n.password))
    case Hysteria2 => Handed(n.username, n.uuid, Either(u.password, n.password))
    case AnyTLS => Handed(n.username, n.uuid, Either(u.password, n.password))
    case ShadowTLS => Handed(n.username, n.uuid, Either(u.password, n.camouflage))
    case SOCKS => Handed(Either(u.username, n.username), n.uuid, Either(u.password, n.password))
    case HTTP => Handed(Either(u.username, n.username), n.uuid, Either(u.password, n.password))
    case _ => Handed(n.username, n.uuid, n.password)
  }

  predicate ByLogin(p: Protocol) { p == SOCKS || p == HTTP }

  predicate ByClient(p: Protocol) {
    p == VLESS || p == VMess || p == TUIC || p == Trojan || p == Hysteria2 || p == AnyTLS || p == ShadowTLS
  }

  // What the core is given for a client, set against what is presented.
  predicate Matches(n: Inbound, c: Client, h: Handed) {
    match n.protocol
    case VLESS => c.uuid == h.uuid
    case VMess => c.uuid == h.uuid
    case TUIC => c.uuid == h.uuid && c.password == h.password
    case AnyTLS => Either(c.password, n.password) == h.password
    case ShadowTLS => Either(c.password, n.camouflage) == h.password
    case _ => c.password == h.password
  }

  // The account of SOCKS and HTTP: a name and a password, the first of each name.
  datatype Account = Account(name: string, password: string)

  predicate HasLogin(c: Client) { c.username != "" && c.password != "" }

  function FirstOf(cs: seq<Client>, name: string): (r: Option<string>)
    ensures r.None? <==> forall k :: 0 <= k < |cs| ==> !(HasLogin(cs[k]) && cs[k].username == name)
  {
    if cs == [] then None
    else
      var before := FirstOf(cs[..|cs| - 1], name);
      assert cs == cs[..|cs| - 1] + [cs[|cs| - 1]];
      if before.Some? then before
      else if HasLogin(cs[|cs| - 1]) && cs[|cs| - 1].username == name then Some(cs[|cs| - 1].password)
      else None
  }

  method XrayAccounts(clients: seq<Client>) returns (accts: seq<Account>)
    ensures forall a :: a in accts <==> FirstOf(clients, a.name) == Some(a.password)
    ensures accts == [] <==> forall k :: 0 <= k < |clients| ==> !HasLogin(clients[k])
  {
    accts := [];
    var seen: set<string> := {};
    var i := 0;
    while i < |clients|
      invariant 0 <= i <= |clients|
      invariant forall name :: name in seen <==> FirstOf(clients[..i], name).Some?
      invariant forall a :: a in accts <==> FirstOf(clients[..i], a.name) == Some(a.password)
      invariant accts == [] <==> forall k :: 0 <= k < i ==> !HasLogin(clients[k])
    {
      assert clients[..i + 1][..i] == clients[..i];
      var c := clients[i];
      i := i + 1;
      if c.username == "" || c.password == "" || c.username in seen { continue; }
      seen := seen + {c.username};
      accts := accts + [Account(c.username, c.password)];
    }
    assert clients[..|clients|] == clients;
  }

  ghost predicate NoLogins(cs: seq<Client>) { forall k :: 0 <= k < |cs| ==> !HasLogin(cs[k]) }

  // The inbound lets the credential in: by an account, or, where no client has one,
  // by the login of the inbound itself, if it asks for one; by the entry made for
  // the user or for the inbound itself.
  ghost predicate Admits(n: Inbound, cs: seq<Client>, user: nat, h: Handed) {
    if ByLogin(n.protocol) then
      if NoLogins(cs) then n.username == "" || (h.username == n.username && h.password == n.password)
      else FirstOf(cs, h.username) == Some(h.password)
    else exists c :: c in cs && (c.Own? || c.user == user) && Matches(n, c, h)
  }

  // Names are distinct, as their index has them, and not empty, as the handlers do.
  predicate Named(st: Store) {
    && (forall u :: u in st.users ==> u.username != "")
    && (forall i, j :: 0 <= i < j < |st.users| ==> st.users[i].username != st.users[j].username)
  }

  // No other user has a login, and the inbound has none of its own.
  predicate NobodyHasALogin(st: Store, now: int, n: Inbound) {
    (n.username == "" || n.password == "") && forall v :: v in Holders(st, st.users, now, n.id) ==> v.password == ""
  }

  // A login is kept whole: the user's own name and password, unless the inbound's
  // login goes by that name with another password; with no password of the user's,
  // the inbound's, under that name; or nobody has one and the inbound asks for none.
  predicate LoginIsServed(st: Store, now: int, n: Inbound, u: User) {
    if u.password != "" then n.username != u.username || n.password == "" || n.password == u.password
    else if n.username == u.username then n.password != "" || NobodyHasALogin(st, now, n)
    else n.username == "" && NobodyHasALogin(st, now, n)
  }

  // TUIC asks for both halves, and they are both the user's or both the inbound's.
  predicate HalvesMatch(n: Inbound, u: User) {
    || (u.uuid == "" <==> u.password == "")
    || (if u.uuid == "" then n.uuid == "" || n.password == u.password else n.password == "" || n.uuid == u.uuid)
  }

  lemma {:induction false} HolderHasAPlace(st: Store, users: seq<User>, now: int, id: nat, u: User) returns (k: nat)
    requires u in users && Served(u, now) && HasAccess(st, u, id)
    ensures k < |Holders(st, users, now, id)| && Holders(st, users, now, id)[k] == u
  {
    assert u in Holders(st, users, now, id);
    k :| 0 <= k < |Holders(st, users, now, id)| && Holders(st, users, now, id)[k] == u;
  }

  predicate DistinctNames(users: seq<User>) {
    forall i, j :: 0 <= i < j < |users| ==> users[i].username != users[j].username
  }

  lemma {:induction false} HoldersKeepNames(st: Store, users: seq<User>, now: int, id: nat)
    requires DistinctNames(users)
    ensures DistinctNames(Holders(st, users, now, id))
  {
    if users != [] {
      var front, last := users[..|users| - 1], users[|users| - 1];
      var before := Holders(st, front, now, id);
      HoldersKeepNames(st, front, now, id);
      forall i | 0 <= i < |before|
        ensures before[i].username != last.username
      {
        assert before[i] in front;
        var k :| 0 <= k < |front| && front[k] == before[i];
        assert users[k].username != users[|users| - 1].username;
      }
    }
  }

  lemma {:induction false} FirstAfterOwn(own: seq<Client>, cs: seq<Client>, name: string)
    requires |own| <= 1
    ensures FirstOf(own + cs, name)
         == if own != [] && HasLogin(own[0]) && own[0].username == name then Some(own[0].password)
             else FirstOf(cs, name)
  {
    var all := own + cs;
    if cs == [] {
      assert all == own;
      if own != [] { assert own[..0] == []; }
    } else {
      assert all[..|all| - 1] == own + cs[..|cs| - 1];
      FirstAfterOwn(own, cs[..|cs| - 1], name);
    }
  }

  lemma {:induction false} FirstOfUser(us: seq<User>, k: nat)
    requires k < |us| && DistinctNames(us) && us[k].username != ""
    ensures FirstOf(ClientsOf(us), us[k].username) == if us[k].password != "" then Some(us[k].password) else None
  {
    var cs := ClientsOf(us);
    assert cs[..|us| - 1] == ClientsOf(us[..|us| - 1]);
    if k < |us| - 1 {
      FirstOfUser(us[..|us| - 1], k);
      assert us[k].username != us[|us| - 1].username;
    } else {
      forall i | 0 <= i < k ensures cs[i].username != us[k].username { assert us[i].username != us[k].username; }
    }
  }

  lemma NoLoginsIff(st: Store, now: int, n: Inbound)
    requires Named(st)
    ensures NoLogins(Clients(st, now, n)) <==> NobodyHasALogin(st, now, n)
  {
    var hs := Holders(st, st.users, now, n.id);
    var own, cs := OwnClient(n), Clients(st, now, n);
    forall k | 0 <= k < |hs|
      ensures cs[|own| + k] == ClientOf(hs[k]) && (HasLogin(cs[|own| + k]) <==> hs[k].password != "")
    {
      assert hs[k] in hs;
    }
    if NoLogins(cs) {
      if own != [] { assert cs[0] == own[0]; }
      forall v | v in hs
        ensures v.password == ""
      {
        var k :| 0 <= k < |hs| && hs[k] == v;
        assert !HasLogin(cs[|own| + k]);
      }
    }
    if NobodyHasALogin(st, now, n) {
      forall k | 0 <= k < |cs|
        ensures !HasLogin(cs[k])
      {
        if k < |own| { assert cs[k] == own[k]; } else { assert cs[k] == ClientOf(hs[k - |own|])
            && hs[k - |own|] in hs; }
      }
    }
  }

  lemma NoOwnLogin(n: Inbound, name: string)
    ensures var own := OwnClient(n);
            (own != [] && HasLogin(own[0]) && own[0].username == name)
            <==> n.username == name != "" && n.password != ""
  {
  }

  lemma FirstIs(st: Store, now: int, n: Inbound, u: User)
    requires Named(st) && u in st.users && Served(u, now) && HasAccess(st, u, n.id)
    ensures FirstOf(Clients(st, now, n), u.username)
         == if n.username == u.username && n.password != "" then Some(n.password)
            else if u.password != "" then Some(u.password) else None
  {
    var hs := Holders(st, st.users, now, n.id);
    var k := HolderHasAPlace(st, st.users, now, n.id, u);
    HoldersKeepNames(st, st.users, now, n.id);
    FirstOfUser(hs, k);
    FirstAfterOwn(OwnClient(n), ClientsOf(hs), u.username);
    NoOwnLogin(n, u.username);
  }

  lemma LoginIsServedIff(st: Store, now: int, n: Inbound, u: User)
    requires Named(st) && u in st.users && Served(u, now) && HasAccess(st, u, n.id) && ByLogin(n.protocol)
    ensures Admits(n, Clients(st, now, n), u.id, Stamped(n, u)) <==> LoginIsServed(st, now, n, u)
  {
    FirstIs(st, now, n, u);
    NoLoginsIff(st, now, n);
    assert u in Holders(st, st.users, now, n.id);
  }

  lemma ClientIsServedIff(st: Store, now: int, n: Inbound, u: User)
    requires DistinctUsers(st.users) && u in st.users && Served(u, now) && HasAccess(st, u, n.id)
             && ByClient(n.protocol)
    ensures Admits(n, Clients(st, now, n), u.id, Stamped(n, u)) <==> (n.protocol == TUIC ==> HalvesMatch(n, u))
  {
    var cs, h := Clients(st, now, n), Stamped(n, u);
    TheTwoEntries(st, now, n, u);
    if OwnClient(n) != [] { assert OwnClient(n)[0] in cs; }
    assert Admits(n, cs, u.id, h)
           <==> Matches(n, ClientOf(u), h) || (OwnClient(n) != [] && Matches(n, OwnClient(n)[0], h));
  }

  // Of a client list, the entries that are the user's or the inbound's own.
  lemma TheTwoEntries(st: Store, now: int, n: Inbound, u: User)
    requires DistinctUsers(st.users) && u in st.users && Served(u, now) && HasAccess(st, u, n.id)
    ensures ClientOf(u) in Clients(st, now, n)
    ensures forall c :: c in Clients(st, now, n) && (c.Own? || c.user == u.id) ==>
              c == ClientOf(u) || (OwnClient(n) != [] && c == OwnClient(n)[0])
  {
    var hs := Holders(st, st.users, now, n.id);
    var own, cs := OwnClient(n), Clients(st, now, n);
    var k := HolderHasAPlace(st, st.users, now, n.id, u);
    assert cs[|own| + k] == ClientOf(u);
    forall c | c in cs && (c.Own? || c.user == u.id)
      ensures c == ClientOf(u) || (own != [] && c == own[0])
    {
      var i :| 0 <= i < |cs| && cs[i] == c;
      if i >= |own| {
        var v := hs[i - |own|];
        assert c == ClientOf(v) && v in hs;
        SameIdSameUser(st.users, u, v);
      }
    }
  }

  lemma SameIdSameUser(users: seq<User>, u: User, v: User)
    requires DistinctUsers(users) && u in users && v in users && u.id == v.id
    ensures u == v
  {
    var i :| 0 <= i < |users| && users[i] == u;
    var j :| 0 <= j < |users| && users[j] == v;
  }

  // The credential a user is handed for an inbound that serves them is one it lets
  // in, for every protocol that is handed the user's, but where TUIC is handed half
  // of each, or SOCKS and HTTP are handed a name and a password that do not belong
  // together, or a name that is taken.
  lemma HandedCredentialIsServedIff(st: Store, now: int, n: Inbound, u: User)
    requires Keyed(st) && Named(st) && u in st.users && Served(u, now) && HasAccess(st, u, n.id)
    requires ByClient(n.protocol) || ByLogin(n.protocol)
    ensures Admits(n, Clients(st, now, n), u.id, Stamped(n, u))
            <==> if n.protocol == TUIC then HalvesMatch(n, u)
                 else ByLogin(n.protocol) ==> LoginIsServed(st, now, n, u)
  {
    if ByLogin(n.protocol) { LoginIsServedIff(st, now, n, u); } else { ClientIsServedIff(st, now, n, u); }
  }

  // --- two users it fails for ---

  lemma OneUser(st: Store, n: Inbound, u: User, now: int)
    requires st == Store([n], map[], [u], map[1 := [7]]) && n.id == 7 && u.id == 1
    requires u.username != "" && u.status == Active && u.heldUntil == 0 && u.disconnectedUntil == 0
    ensures Keyed(st) && Named(st) && u in st.users && Served(u, now) && HasAccess(st, u, 7)
  {
    assert st.direct[1] == [7];
  }

  // A user brought over from another panel with an id and no password, on a TUIC
  // inbound with credentials of its own.
  lemma HalfAndHalf(st: Store, n: Inbound, u: User, now: int)
    requires n == Inbound(7, true, true, false, TUIC, "", "inbound-id", "inbound-secret", "")
    requires u == User(1, Active, 0, 0, false, 0, "ann", "user-id", "")
    requires st == Store([n], map[], [u], map[1 := [7]])
    ensures Stamped(n, u) == Handed("", "user-id", "inbound-secret")
    ensures !Admits(n, Clients(st, now, n), 1, Stamped(n, u))
  {
    OneUser(st, n, u, now);
    HandedCredentialIsServedIff(st, now, n, u);
    assert "inbound-id"[0] != "user-id"[0];
  }

  // The same user on a SOCKS inbound with a login of its own: a name with another's
  // password, which no account has.
  lemma ALoginNobodyHas(st: Store, n: Inbound, u: User, now: int)
    requires n == Inbound(7, true, true, false, SOCKS, "proxy", "", "inbound-secret", "")
    requires u == User(1, Active, 0, 0, false, 0, "ann", "user-id", "")
    requires st == Store([n], map[], [u], map[1 := [7]])
    ensures Stamped(n, u) == Handed("ann", "", "inbound-secret")
    ensures !Admits(n, Clients(st, now, n), 1, Stamped(n, u))
  {
    OneUser(st, n, u, now);
    HandedCredentialIsServedIff(st, now, n, u);
    assert "proxy"[0] != "ann"[0];
  }

  // And a user who has a password, but the name of the inbound's own login.
  lemma ANameTaken(st: Store, n: Inbound, u: User, now: int)
    requires n == Inbound(7, true, true, false, HTTP, "proxy", "", "inbound-secret", "")
    requires u == User(1, Active, 0, 0, false, 0, "proxy", "user-id", "user-secret")
    requires st == Store([n], map[], [u], map[1 := [7]])
    ensures Stamped(n, u) == Handed("proxy", "", "user-secret")
    ensures !Admits(n, Clients(st, now, n), 1, Stamped(n, u))
  {
    OneUser(st, n, u, now);
    HandedCredentialIsServedIff(st, now, n, u);
    assert "inbound-secret"[0] != "user-secret"[0];
  }
}
