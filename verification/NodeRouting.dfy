// Narrowing the operator's routing table to what can apply on one node.
//
// Rules match in order and the first match decides. A rule's conditions other
// than its inbound scope are left abstract: they are numbered, and a connection
// is known by its inbound and by the conditions it satisfies.
module NodeRouting {
  import opened Numerals

  datatype Rule = Rule(name: string, scope: seq<string>, condition: nat, target: string)

  datatype Group = Group(tag: string, members: seq<string>, fallback: string)

  // An outbound carries credentials; `secret` stands for them.
  datatype Outbound = Outbound(tag: string, secret: nat)

  datatype Inbound = Inbound(tag: string, port: nat)

  datatype Connection = Connection(inbound: string, satisfied: set<nat>)

  datatype Routing = Routing(outs: seq<Outbound>, rules: seq<Rule>, groups: seq<Group>)

  // ---- What the code computes ------------------------------------------------

  function TagOf(n: Inbound): string { if n.tag != "" then n.tag else "in-" + Itoa(n.port) }

  function TagsOf(specs: seq<Option<Inbound>>): set<string> {
    set i | 0 <= i < |specs| && specs[i].Some? :: TagOf(specs[i].value)
  }

  function Filter<T(!new)>(s: seq<T>, keep: T -> bool): (kept: seq<T>)
    ensures forall x :: x in kept <==> x in s && keep(x)
    ensures |kept| <= |s|
  {
    if s == [] then []
    else
      var front := Filter(s[..|s| - 1], keep);
      if keep(s[|s| - 1]) then front + [s[|s| - 1]] else front
  }

  function In(tags: set<string>): string -> bool { (t: string) => t in tags }

  function TagIn(tags: set<string>): Outbound -> bool { (o: Outbound) => o.tag in tags }

  function GroupIn(tags: set<string>): Group -> bool { (g: Group) => g.tag in tags }

  function PrefixOf(g: Group): Outbound -> bool { (o: Outbound) => SelectsByPrefix(g, o) }

  function Scoped(scope: seq<string>, here: set<string>): seq<string> { Filter(scope, In(here)) }

  // The rule as the node sees it, or nothing when it cannot apply there.
  function Narrow(r: Rule, here: set<string>): seq<Rule> {
    if r.scope == [] then [r]
    else
      var scope := Scoped(r.scope, here);
      if scope == [] then [] else [r.(scope := scope)]
  }

  function NarrowAll(rules: seq<Rule>, here: set<string>): seq<Rule> {
    if rules == [] then [] else NarrowAll(rules[..|rules| - 1], here) + Narrow(rules[|rules| - 1], here)
  }

  function Targets(rules: seq<Rule>): set<string> {
    set i | 0 <= i < |rules| && rules[i].target != "" :: rules[i].target
  }

  function GroupTags(groups: seq<Group>): set<string> {
    set i, t | 0 <= i < |groups| && t in ReferredBy(groups[i]) :: t
  }

  // The outbounds a group cannot do without: its members and its all-down exit.
  function ReferredBy(g: Group): set<string> {
    (set t | t in g.members) + if g.fallback != "" then {g.fallback} else {}
  }

  function KeptGroups(groups: seq<Group>, rules: seq<Rule>): seq<Group> {
    Filter(groups, GroupIn(Targets(rules)))
  }

  function Needed(rules: seq<Rule>, groups: seq<Group>): set<string> { Targets(rules) + GroupTags(groups) }

  function KeptOutbounds(outs: seq<Outbound>, rules: seq<Rule>, groups: seq<Group>): seq<Outbound> {
    Filter(outs, TagIn(Needed(rules, groups)))
  }

  function ForNode(full: Routing, here: set<string>): Routing {
    var rules := NarrowAll(full.rules, here);
    if rules == [] then Routing([], [], [])
    else
      var groups := KeptGroups(full.groups, rules);
      Routing(KeptOutbounds(full.outs, rules, groups), rules, groups)
  }

  // ---- The code ----------------------------------------------------------------

  method NodeRoutingSpecs(full: Routing, specs: seq<Option<Inbound>>) returns (r: Routing)
    ensures r == ForNode(full, TagsOf(specs))
  {
    if |full.rules| == 0 { return Routing([], [], []); }
    var onNode: set<string> := {};
    var i := 0;
    while i < |specs|
      invariant 0 <= i <= |specs|
      invariant onNode == TagsOf(specs[..i])
    {
      assert specs[..i + 1] == specs[..i] + [specs[i]];
      if specs[i].Some? {
        var n := specs[i].value;
        onNode := onNode + {if n.tag != "" then n.tag else "in-" + Itoa(n.port)};
        assert TagsOf(specs[..i + 1]) == TagsOf(specs[..i]) + {TagOf(n)} by { TagsGrow(specs, i); }
      } else {
        TagsGrow(specs, i);
      }
      i := i + 1;
    }
    assert specs[..i] == specs;
    var kept := NarrowRules(full.rules, onNode);
    if |kept| == 0 { return Routing([], [], []); }
    var groups := KeepReferencedGroups(full.groups, kept);
    var outs := KeepReferencedOutbounds(full.outs, kept, groups);
    r := Routing(outs, kept, groups);
  }

  lemma TagsGrow(specs: seq<Option<Inbound>>, i: nat)
    requires i < |specs|
    ensures TagsOf(specs[..i + 1]) == TagsOf(specs[..i]) + if specs[i].Some? then {TagOf(specs[i].value)} else {}
  {
    var a, b := specs[..i], specs[..i + 1];
    forall t | t in TagsOf(b) ensures t in TagsOf(a) || (specs[i].Some? && t == TagOf(specs[i].value)) {
      var k :| 0 <= k < |b| && b[k].Some? && TagOf(b[k].value) == t;
      if k < i { assert a[k] == b[k]; }
    }
    forall t | t in TagsOf(a) ensures t in TagsOf(b) {
      var k :| 0 <= k < |a| && a[k].Some? && TagOf(a[k].value) == t;
      assert b[k] == a[k];
    }
    if specs[i].Some? { assert b[i] == specs[i]; }
  }

  method NarrowRules(rules: seq<Rule>, onNode: set<string>) returns (kept: seq<Rule>)
    ensures kept == NarrowAll(rules, onNode)
  {
    kept := [];
    var i := 0;
    while i < |rules|
      invariant 0 <= i <= |rules|
      invariant kept == NarrowAll(rules[..i], onNode)
    {
      var r := rules[i];
      assert rules[..i + 1][..i] == rules[..i];
      i := i + 1;
      if |r.scope| == 0 {
        kept := kept + [r];
        continue;
      }
      var scoped := ScopeHere(r.scope, onNode);
      if |scoped| > 0 {
        kept := kept + [r.(scope := scoped)];
      }
    }
    assert rules[..i] == rules;
  }

  method ScopeHere(scope: seq<string>, onNode: set<string>) returns (scoped: seq<string>)
    ensures scoped == Scoped(scope, onNode)
  {
    scoped := [];
    var i := 0;
    while i < |scope|
      invariant 0 <= i <= |scope|
      invariant scoped == Scoped(scope[..i], onNode)
    {
      assert scope[..i + 1][..i] == scope[..i];
      if scope[i] in onNode { scoped := scoped + [scope[i]]; }
      i := i + 1;
    }
    assert scope[..i] == scope;
  }

  method KeepReferencedGroups(groups: seq<Group>, rules: seq<Rule>) returns (kept: seq<Group>)
    ensures kept == KeptGroups(groups, rules)
  {
    var need := RuleTargets(rules);
    kept := [];
    var i := 0;
    while i < |groups|
      invariant 0 <= i <= |groups|
      invariant kept == KeptGroups(groups[..i], rules)
    {
      assert groups[..i + 1][..i] == groups[..i];
      if groups[i].tag in need { kept := kept + [groups[i]]; }
      i := i + 1;
    }
    assert groups[..i] == groups;
  }

  method RuleTargets(rules: seq<Rule>) returns (need: set<string>)
    ensures need == Targets(rules)
  {
    need := {};
    var i := 0;
    while i < |rules|
      invariant 0 <= i <= |rules|
      invariant need == set k | 0 <= k < i && rules[k].target != "" :: rules[k].target
    {
      if rules[i].target != "" { need := need + {rules[i].target}; }
      i := i + 1;
    }
  }

  method KeepReferencedOutbounds(outs: seq<Outbound>, rules: seq<Rule>, groups: seq<Group>)
    returns (kept: seq<Outbound>)
    ensures kept == KeptOutbounds(outs, rules, groups)
  {
    var need := RuleTargets(rules);
    var behind := GroupReferences(groups);
    need := need + behind;
    kept := [];
    if |need| == 0 {
      FilterNone(outs, TagIn(Needed(rules, groups)));
      return;
    }
    var i := 0;
    while i < |outs|
      invariant 0 <= i <= |outs|
      invariant kept == KeptOutbounds(outs[..i], rules, groups)
    {
      assert outs[..i + 1][..i] == outs[..i];
      if outs[i].tag in need { kept := kept + [outs[i]]; }
      i := i + 1;
    }
    assert outs[..i] == outs;
  }

  method GroupReferences(groups: seq<Group>) returns (need: set<string>)
    ensures need == GroupTags(groups)
  {
    need := {};
    var i := 0;
    while i < |groups|
      invariant 0 <= i <= |groups|
      invariant need == set k, t | 0 <= k < i && t in ReferredBy(groups[k]) :: t
    {
      var g := groups[i];
      ghost var before := need;
      var j := 0;
      while j < |g.members|
        invariant 0 <= j <= |g.members|
        invariant need == before + set k | 0 <= k < j :: g.members[k]
      {
        need := need + {g.members[j]};
        j := j + 1;
      }
      if g.fallback != "" { need := need + {g.fallback}; }
      assert need == before + ReferredBy(g);
      i := i + 1;
    }
  }

  lemma {:induction false} FilterNone<T(!new)>(s: seq<T>, p: T -> bool)
    requires forall x :: x in s ==> !p(x)
    ensures Filter(s, p) == []
  {
    if s != [] { FilterNone(s[..|s| - 1], p); }
  }

  // ---- What the table means ------------------------------------------------------

  predicate Matches(r: Rule, c: Connection) {
    (r.scope == [] || c.inbound in r.scope) && r.condition in c.satisfied
  }

  // The target of the first rule that matches, if any does.
  function FirstMatch(rules: seq<Rule>, c: Connection): Option<string> {
    if rules == [] then None
    else if Matches(rules[0], c) then Some(rules[0].target)
    else FirstMatch(rules[1..], c)
  }

  lemma {:induction false} FirstMatchAppend(a: seq<Rule>, b: seq<Rule>, c: Connection)
    ensures FirstMatch(a + b, c) == if FirstMatch(a, c).Some? then FirstMatch(a, c) else FirstMatch(b, c)
  {
    if a == [] {
      assert a + b == b;
    } else {
      assert (a + b)[1..] == a[1..] + b;
      FirstMatchAppend(a[1..], b, c);
    }
  }

  lemma NarrowedRuleMatchesAlike(r: Rule, here: set<string>, c: Connection)
    requires c.inbound in here
    ensures FirstMatch(Narrow(r, here), c) == FirstMatch([r], c)
  {
    assert [r][1..] == [];
    var scoped := Scoped(r.scope, here);
    assert c.inbound in r.scope <==> c.inbound in scoped;
    if r.scope != [] && scoped != [] {
      assert [r.(scope := scoped)][1..] == [];
    }
  }

  // First-match over the narrowed rules picks what it picks over the full table,
  // for every connection arriving on an inbound of the node.
  lemma {:induction false} NarrowingKeepsFirstMatch(rules: seq<Rule>, here: set<string>, c: Connection)
    requires c.inbound in here
    ensures FirstMatch(NarrowAll(rules, here), c) == FirstMatch(rules, c)
  {
    if rules != [] {
      var init, last := rules[..|rules| - 1], rules[|rules| - 1];
      NarrowingKeepsFirstMatch(init, here, c);
      NarrowedRuleMatchesAlike(last, here, c);
      FirstMatchAppend(NarrowAll(init, here), Narrow(last, here), c);
      FirstMatchAppend(init, [last], c);
      assert init + [last] == rules;
    }
  }

  lemma {:induction false} FirstMatchIsATarget(rules: seq<Rule>, c: Connection)
    requires FirstMatch(rules, c).Some? && FirstMatch(rules, c).value != ""
    ensures FirstMatch(rules, c).value in Targets(rules)
  {
    if Matches(rules[0], c) {
      assert rules[0].target in Targets(rules);
    } else {
      FirstMatchIsATarget(rules[1..], c);
      var i :| 0 <= i < |rules| - 1 && rules[1..][i].target != "" && rules[1..][i].target == FirstMatch(rules, c).value;
      assert rules[i + 1].target == FirstMatch(rules, c).value;
    }
  }

  function Tagged(outs: seq<Outbound>, tag: string): seq<Outbound> { Filter(outs, TagIn({tag})) }

  function GroupsTagged(groups: seq<Group>, tag: string): seq<Group> { Filter(groups, GroupIn({tag})) }

  // Where a target leads: a group with the outbounds its members and its fallback
  // name, or else the outbounds of that tag.
  datatype Exit =
    | Balancer(group: Group, members: seq<seq<Outbound>>, fallback: seq<Outbound>)
    | Plain(outs: seq<Outbound>)

  function Resolve(r: Routing, tag: string): Exit {
    var gs := GroupsTagged(r.groups, tag);
    if tag == "" then Plain([])
    else if gs != [] then
      var g := gs[0];
      Balancer(g, seq(|g.members|, i requires 0 <= i < |g.members| => Tagged(r.outs, g.members[i])),
               if g.fallback == "" then [] else Tagged(r.outs, g.fallback))
    else Plain(Tagged(r.outs, tag))
  }

  function Route(r: Routing, c: Connection): Option<Exit> {
    var target := FirstMatch(r.rules, c);
    if target.None? then None else Some(Resolve(r, target.value))
  }

  lemma {:induction false} FilterTwice<T(!new)>(s: seq<T>, p: T -> bool, q: T -> bool)
    requires forall x :: x in s && q(x) ==> p(x)
    ensures Filter(Filter(s, p), q) == Filter(s, q)
  {
    if s != [] {
      var init, last := s[..|s| - 1], s[|s| - 1];
      FilterTwice(init, p, q);
      if p(last) {
        var kept := Filter(init, p) + [last];
        assert kept[..|kept| - 1] == Filter(init, p);
      }
    }
  }

  lemma NeededTagsResolveAsBefore(full: Routing, rules: seq<Rule>, groups: seq<Group>, tag: string)
    requires tag in Needed(rules, groups)
    ensures Tagged(KeptOutbounds(full.outs, rules, groups), tag) == Tagged(full.outs, tag)
  {
    FilterTwice(full.outs, TagIn(Needed(rules, groups)), TagIn({tag}));
  }

  ghost predicate SameBehind(r: Routing, full: Routing, t: string) { Tagged(r.outs, t) == Tagged(full.outs, t) }

  lemma SamePartsResolveAlike(r: Routing, full: Routing, tag: string)
    requires GroupsTagged(r.groups, tag) == GroupsTagged(full.groups, tag) && SameBehind(r, full, tag)
    requires forall g :: g in GroupsTagged(full.groups, tag) ==>
               (forall i :: 0 <= i < |g.members| ==> SameBehind(r, full, g.members[i]))
               && (g.fallback != "" ==> SameBehind(r, full, g.fallback))
    ensures Resolve(r, tag) == Resolve(full, tag)
  {
  }

  lemma TargetResolvesAsBefore(full: Routing, here: set<string>, tag: string)
    requires tag == "" || tag in Targets(NarrowAll(full.rules, here))
    ensures Resolve(ForNode(full, here), tag) == Resolve(full, tag)
  {
    if tag != "" {
      var rules := NarrowAll(full.rules, here);
      var groups := KeptGroups(full.groups, rules);
      FilterTwice(full.groups, GroupIn(Targets(rules)), GroupIn({tag}));
      NeededTagsResolveAsBefore(full, rules, groups, tag);
      forall g | g in GroupsTagged(groups, tag)
        ensures (forall i :: 0 <= i < |g.members| ==> SameBehind(ForNode(full, here), full, g.members[i]))
                && (g.fallback != "" ==> SameBehind(ForNode(full, here), full, g.fallback))
      {
        GroupResolvesAsBefore(full, rules, groups, g);
      }
      SamePartsResolveAlike(ForNode(full, here), full, tag);
    }
  }

  lemma GroupResolvesAsBefore(full: Routing, rules: seq<Rule>, groups: seq<Group>, g: Group)
    requires g in groups
    ensures forall i :: 0 <= i < |g.members| ==>
              Tagged(KeptOutbounds(full.outs, rules, groups), g.members[i]) == Tagged(full.outs, g.members[i])
    ensures g.fallback != "" ==>
              Tagged(KeptOutbounds(full.outs, rules, groups), g.fallback) == Tagged(full.outs, g.fallback)
  {
    var k :| 0 <= k < |groups| && groups[k] == g;
    forall t | t in ReferredBy(g)
      ensures Tagged(KeptOutbounds(full.outs, rules, groups), t) == Tagged(full.outs, t)
    {
      assert t in ReferredBy(groups[k]);
      assert t in GroupTags(groups);
      NeededTagsResolveAsBefore(full, rules, groups, t);
    }
    assert forall i :: 0 <= i < |g.members| ==> g.members[i] in ReferredBy(g);
  }

  // Every connection arriving on the node leaves by the same exit as under the
  // full table: same rule target, same group, same outbounds behind every tag.
  lemma NodeRoutesAsThePanelWould(full: Routing, here: set<string>, c: Connection)
    requires c.inbound in here
    ensures Route(ForNode(full, here), c) == Route(full, c)
  {
    var rules := NarrowAll(full.rules, here);
    NarrowingKeepsFirstMatch(full.rules, here, c);
    var target := FirstMatch(full.rules, c);
    if target.Some? {
      if target.value != "" { FirstMatchIsATarget(rules, c); }
      TargetResolvesAsBefore(full, here, target.value);
    }
  }

  // ---- Nothing more than needed ---------------------------------------------------

  // An outbound reaches the node exactly when a surviving rule names it, or a group
  // a surviving rule names lists it.
  lemma OutboundIsShippedIff(full: Routing, here: set<string>, o: Outbound)
    requires o in full.outs
    ensures var r := ForNode(full, here);
            o in r.outs <==>
              || o.tag in Targets(r.rules)
              || exists g :: g in full.groups && g.tag in Targets(r.rules) && o.tag in ReferredBy(g)
  {
    var rules := NarrowAll(full.rules, here);
    var groups := KeptGroups(full.groups, rules);
    if g :| g in full.groups && g.tag in Targets(rules) && o.tag in ReferredBy(g) {
      assert g in groups;
      var k :| 0 <= k < |groups| && groups[k] == g;
      assert o.tag in ReferredBy(groups[k]);
      assert o.tag in GroupTags(groups);
    }
    if o.tag in GroupTags(groups) {
      var k :| 0 <= k < |groups| && o.tag in ReferredBy(groups[k]);
      assert groups[k] in groups;
    }
  }

  // No rule of the node names an inbound of another machine.
  lemma {:induction false} NoForeignInboundNames(rules: seq<Rule>, here: set<string>, r: Rule, t: string)
    requires r in NarrowAll(rules, here) && t in r.scope
    ensures t in here
  {
    var init := rules[..|rules| - 1];
    if r in NarrowAll(init, here) {
      NoForeignInboundNames(init, here, r, t);
    }
  }

  // ---- How the core reads a group's members -----------------------------------------

  // The core takes a member for a prefix: "relay" selects "relay-eu" too.
  predicate SelectsByPrefix(g: Group, o: Outbound) {
    exists i :: 0 <= i < |g.members| && g.members[i] <= o.tag
  }

  function Selection(outs: seq<Outbound>, g: Group): seq<Outbound> { Filter(outs, PrefixOf(g)) }

  lemma {:induction false} FilterDropsNothingIff<T(!new)>(s: seq<T>, p: T -> bool, q: T -> bool)
    ensures Filter(Filter(s, p), q) == Filter(s, q) <==> forall x :: x in s && q(x) ==> p(x)
  {
    if forall x :: x in s && q(x) ==> p(x) {
      FilterTwice(s, p, q);
    } else {
      var x :| x in s && q(x) && !p(x);
      assert x in Filter(s, q);
      assert x !in Filter(Filter(s, p), q);
    }
  }

  // A shipped group balances over the same exits as on the panel exactly when
  // every outbound its members select by prefix is one the narrowing keeps by name.
  lemma GroupBalancesAsBeforeIff(full: Routing, here: set<string>, g: Group)
    requires NarrowAll(full.rules, here) != []
    ensures var r := ForNode(full, here);
            Selection(r.outs, g) == Selection(full.outs, g)
            <==> forall o :: o in full.outs && SelectsByPrefix(g, o) ==> o.tag in Needed(r.rules, r.groups)
  {
    var r := ForNode(full, here);
    FilterDropsNothingIff(full.outs, TagIn(Needed(r.rules, r.groups)), PrefixOf(g));
  }

  // It can differ: with members ["relay"], the exit "relay-eu" is lost. Any
  // member that is a proper prefix of a tag nothing else names will do.
  lemma PrefixMemberLosesAnExit(group: string, member: string, longer: string, fallback: string, here: set<string>)
    requires member <= longer && longer !in {group, member, fallback}
    ensures var g := Group(group, [member], fallback);
            var full := Routing([Outbound(member, 1), Outbound(longer, 2)], [Rule("r", [], 0, group)], [g]);
            Selection(ForNode(full, here).outs, g) != Selection(full.outs, g)
  {
    var g := Group(group, [member], fallback);
    var eu := Outbound(longer, 2);
    var full := Routing([Outbound(member, 1), eu], [Rule("r", [], 0, group)], [g]);
    OneRuleForAll(full.rules[0], here);
    var r := ForNode(full, here);
    assert g.members[0] <= eu.tag && SelectsByPrefix(g, eu);
    assert eu in full.outs;
    NothingElseNeeded(r, g);
    GroupBalancesAsBeforeIff(full, here, g);
  }

  lemma OneRuleForAll(rule: Rule, here: set<string>)
    requires rule.scope == []
    ensures NarrowAll([rule], here) == [rule]
  {
    assert [rule][..0] == [];
    assert NarrowAll([], here) == [];
  }

  lemma NothingElseNeeded(r: Routing, g: Group)
    requires r.rules == [Rule("r", [], 0, g.tag)] && (forall x :: x in r.groups ==> x == g) && |g.members| == 1
    ensures forall t :: t in Needed(r.rules, r.groups) ==> t in {g.tag, g.members[0], g.fallback}
  {
    forall t | t in Needed(r.rules, r.groups) ensures t in {g.tag, g.members[0], g.fallback} {
      if t in GroupTags(r.groups) {
        var k :| 0 <= k < |r.groups| && t in ReferredBy(r.groups[k]);
        assert r.groups[k] in r.groups;
      }
    }
  }
}
