// What an audit entry says about a change: two documents walked together, one
// line a changed leaf, and the values of secret fields never among them.
//
// `render` is how an array is written out; a number is its rendered text.
module AuditDiff {
  import opened Numerals
  import opened IpKeys

  datatype Json =
    | Null
    | Str(text: string)
    | Bool(on: bool)
    | Num(digits: string)
    | Arr(items: seq<Json>)
    | Obj(fields: map<string, Json>)

  type Render = seq<Json> -> string

  type IsSecret = string -> bool

  const MAX_DIFF_LEN: nat := 2000
  const MAX_VALUE_LEN: nat := 80

  predicate Contains(s: string, part: string) {
    part <= s || (s != "" && Contains(s[1..], part))
  }

  const SECRET_HINTS: seq<string> :=
    ["password", "secret", "key", "token", "uuid", "credential", "seed", "psk", "auth", "cert", "pem"]

  predicate IsSecretField(name: string) {
    exists i :: 0 <= i < |SECRET_HINTS| && Contains(ToLower(name), SECRET_HINTS[i])
  }

  predicate Lower(s: string) { forall i :: 0 <= i < |s| ==> !('A' <= s[i] <= 'Z') }

  lemma {:induction false} ContainedInTheMiddle(front: string, part: string, back: string)
    ensures Contains(front + part + back, part)
  {
    if front == "" {
      assert front + part + back == part + back;
    } else {
      ContainedInTheMiddle(front[1..], part, back);
      assert (front + part + back)[1..] == front[1..] + part + back;
    }
  }

  // Any field with a hint anywhere in its name is kept secret.
  lemma HintAnywhereHides(front: string, i: nat, back: string)
    requires i < |SECRET_HINTS|
    ensures IsSecretField(front + SECRET_HINTS[i] + back)
  {
    var h := SECRET_HINTS[i];
    HintsAreLower();
    assert ToLower(front + h + back) == ToLower(front) + h + ToLower(back);
    ContainedInTheMiddle(ToLower(front), h, ToLower(back));
  }

  lemma HintsAreLower()
    ensures forall i :: 0 <= i < |SECRET_HINTS| ==> Lower(SECRET_HINTS[i])
  {
  }

  function Fields(j: Json): map<string, Json> { if j.Obj? then j.fields else map[] }

  function Get(j: Json, k: string): Json { if k in Fields(j) then Fields(j)[k] else Null }

  function ScalarString(j: Json, render: Render): string {
    match j
    case Null => ""
    case Str(s) => s
    case Bool(b) => if b then "true" else "false"
    case Num(s) => s
    case Arr(items) => render(items)
    case Obj(_) => ""
  }

  function Clip(s: string): (r: string)
    ensures r != "" && |r| <= MAX_VALUE_LEN + 1
    ensures 0 < |s| <= MAX_VALUE_LEN ==> r == s
  {
    if |s| <= MAX_VALUE_LEN then (if s == "" then "(empty)" else s) else s[..MAX_VALUE_LEN] + "…"
  }

  function Join(prefix: string, k: string): string { if prefix == "" then k else prefix + "." + k }

  // The line for one leaf, if it has one.
  function LeafLine(path: string, hidden: bool, hadB: bool, hadA: bool, bs: string, as_: string): Option<string> {
    if (hadB && hadA && bs == as_) || (!hadB && !hadA) then None
    else if hidden then (if bs != as_ then Some(path + ": changed") else None)
    else if !hadB then Some(path + ": set to " + Clip(as_))
    else if !hadA then Some(path + ": removed")
    else Some(path + ": " + Clip(bs) + " → " + Clip(as_))
  }

  ghost function Height(j: Json): nat
    decreases j, 1, 0
  {
    if j.Obj? then 1 + Tallest(j, j.fields.Keys) else 0
  }

  ghost function Tallest(j: Json, keys: set<string>): (h: nat)
    requires j.Obj? && keys <= j.fields.Keys
    ensures forall k :: k in keys ==> Height(j.fields[k]) <= h
    decreases j, 0, |keys|
  {
    if keys == {} then 0
    else
      var k :| k in keys;
      var rest := Tallest(j, keys - {k});
      assert forall x :: x in keys && x != k ==> x in keys - {k};
      if Height(j.fields[k]) > rest then Height(j.fields[k]) else rest
  }

  // Walking into a pair where either is an object goes down.
  lemma ChildIsLower(b: Json, a: Json, k: string)
    requires k in Fields(b).Keys + Fields(a).Keys
    ensures Height(Get(b, k)) + Height(Get(a, k)) < Height(b) + Height(a)
  {
    if k in Fields(b) { assert Height(b.fields[k]) <= Tallest(b, b.fields.Keys); }
    if k in Fields(a) { assert Height(a.fields[k]) <= Tallest(a, a.fields.Keys); }
  }

  predicate Before(s: string, t: string) {
    if s == "" then true
    else if t == "" then false
    else if s[0] != t[0] then s[0] < t[0]
    else Before(s[1..], t[1..])
  }

  lemma {:induction false} BeforeIsTotal(s: string, t: string)
    ensures Before(s, t) || Before(t, s)
    ensures Before(s, t) && Before(t, s) ==> s == t
  {
    if s != "" && t != "" && s[0] == t[0] {
      BeforeIsTotal(s[1..], t[1..]);
      assert s == [s[0]] + s[1..] && t == [t[0]] + t[1..];
    }
  }

  lemma {:induction false} BeforeIsTransitive(s: string, t: string, u: string)
    requires Before(s, t) && Before(t, u)
    ensures Before(s, u)
  {
    if s != "" && t != "" && u != "" && s[0] == t[0] == u[0] { BeforeIsTransitive(s[1..], t[1..], u[1..]); }
  }

  // The least key, as iterating the sorted names finds it.
  ghost function First(keys: set<string>): (k: string)
    requires keys != {}
    ensures k in keys && forall x :: x in keys ==> Before(k, x)
  {
    var x :| x in keys;
    if keys == {x} then (BeforeIsTotal(x, x); x)
    else
      var y := First(keys - {x});
      assert forall z :: z in keys && z != x ==> z in keys - {x};
      BeforeIsTotal(x, y);
      BeforeIsTotal(x, x);
      assert Before(x, y) ==> forall z :: z in keys && z != x ==> Before(x, z) by {
        forall z | z in keys && z != x && Before(x, y) ensures Before(x, z) { BeforeIsTransitive(x, y, z); }
      }
      if Before(x, y) then x else y
  }

  ghost function Walk(prefix: string, b: Json, a: Json, secret: IsSecret, render: Render): seq<string>
    decreases Height(b) + Height(a), 1, 0
  {
    WalkKeys(prefix, b, a, Fields(b).Keys + Fields(a).Keys, secret, render)
  }

  ghost function WalkKeys(prefix: string, b: Json, a: Json, keys: set<string>, secret: IsSecret,
                          render: Render): seq<string>
    requires keys <= Fields(b).Keys + Fields(a).Keys
    decreases Height(b) + Height(a), 0, |keys|
  {
    if keys == {} then []
    else
      var k := First(keys);
      WalkOne(prefix, b, a, k, secret, render) + WalkKeys(prefix, b, a, keys - {k}, secret, render)
  }

  ghost function WalkOne(prefix: string, b: Json, a: Json, k: string, secret: IsSecret, render: Render): seq<string>
    requires k in Fields(b).Keys + Fields(a).Keys
    decreases Height(b) + Height(a), 0, 0
  {
    ChildIsLower(b, a, k);
    if Get(b, k).Obj? || Get(a, k).Obj? then Walk(Join(prefix, k), Get(b, k), Get(a, k), secret, render)
    else
      match LeafLine(Join(prefix, k), secret(k), k in Fields(b), k in Fields(a),
                     ScalarString(Get(b, k), render), ScalarString(Get(a, k), render))
      case None => []
      case Some(line) => [line]
  }

  method LeastKey(keys: set<string>) returns (k: string)
    requires keys != {}
    ensures k == First(keys)
  {
    ghost var least := First(keys);
    k :| k in keys && forall x :: x in keys ==> Before(k, x);
    BeforeIsTotal(k, least);
  }

  class Lines {
    var items: seq<string>

    constructor ()
      ensures items == []
    {
      items := [];
    }

    method Append(line: string)
      modifies this
      ensures items == old(items) + [line]
    {
      items := items + [line];
    }
  }

  method WalkKey(prefix: string, b: Json, a: Json, k: string, secret: IsSecret, render: Render, out: Lines)
    requires k in Fields(b).Keys + Fields(a).Keys
    modifies out
    ensures out.items == old(out.items) + WalkOne(prefix, b, a, k, secret, render)
    decreases Height(b) + Height(a), 0
  {
    var path := Join(prefix, k);
    var bv, av := Get(b, k), Get(a, k);
    ChildIsLower(b, a, k);
    if bv.Obj? || av.Obj? {
      WalkDiff(path, bv, av, secret, render, out);
    } else {
      var line := LeafLine(path, secret(k), k in Fields(b), k in Fields(a),
                           ScalarString(bv, render), ScalarString(av, render));
      if line.Some? { out.Append(line.value); }
    }
  }

  lemma Regroup(x: seq<string>, y: seq<string>, z: seq<string>)
    ensures (x + y) + z == x + (y + z)
  {
  }

  lemma OneKeyMore(said: seq<string>, prefix: string, b: Json, a: Json, keys: set<string>, secret: IsSecret,
                   render: Render)
    requires keys <= Fields(b).Keys + Fields(a).Keys && keys != {}
    ensures said + WalkKeys(prefix, b, a, keys, secret, render)
         == (said + WalkOne(prefix, b, a, First(keys), secret, render))
            + WalkKeys(prefix, b, a, keys - {First(keys)}, secret, render)
  {
    Regroup(said, WalkOne(prefix, b, a, First(keys), secret, render),
            WalkKeys(prefix, b, a, keys - {First(keys)}, secret, render));
  }

  method WalkDiff(prefix: string, b: Json, a: Json, secret: IsSecret, render: Render, out: Lines)
    modifies out
    ensures out.items == old(out.items) + Walk(prefix, b, a, secret, render)
    decreases Height(b) + Height(a), 1
  {
    var keys := Fields(b).Keys + Fields(a).Keys;
    ghost var said: seq<string> := [];
    while keys != {}
      invariant keys <= Fields(b).Keys + Fields(a).Keys
      invariant out.items == old(out.items) + said
      invariant said + WalkKeys(prefix, b, a, keys, secret, render) == Walk(prefix, b, a, secret, render)
      decreases |keys|
    {
      var k := LeastKey(keys);
      OneKeyMore(said, prefix, b, a, keys, secret, render);
      WalkKey(prefix, b, a, k, secret, render, out);
      Regroup(old(out.items), said, WalkOne(prefix, b, a, k, secret, render));
      said := said + WalkOne(prefix, b, a, k, secret, render);
      keys := keys - {k};
    }
  }

  // --- what the text says, path by path ---

  function At(j: Json, path: seq<string>): Option<Json> {
    if path == [] then Some(j)
    else if path[0] in Fields(j) then At(Fields(j)[path[0]], path[1..])
    else None
  }

  function Dotted(prefix: string, path: seq<string>): string
    decreases |path|
  {
    if path == [] then prefix else Dotted(Join(prefix, path[0]), path[1..])
  }

  function ValueAt(v: Option<Json>, render: Render): string {
    if v.Some? then ScalarString(v.value, render) else ""
  }

  predicate IsObj(v: Option<Json>) { v.Some? && v.value.Obj? }

  // What there is to say of one path: nothing where either document has an
  // object there, else what became of the leaf, hidden when its own key is secret.
  function PathLine(prefix: string, b: Json, a: Json, path: seq<string>, secret: IsSecret,
                    render: Render): Option<string>
    requires path != []
  {
    var bv, av := At(b, path), At(a, path);
    if IsObj(bv) || IsObj(av) then None
    else LeafLine(Dotted(prefix, path), secret(path[|path| - 1]), bv.Some?, av.Some?,
                  ValueAt(bv, render), ValueAt(av, render))
  }

  lemma PathLineStep(prefix: string, b: Json, a: Json, k: string, path: seq<string>, secret: IsSecret, render: Render)
    requires path != []
    ensures PathLine(prefix, b, a, [k] + path, secret, render)
         == PathLine(Join(prefix, k), Get(b, k), Get(a, k), path, secret, render)
  {
    assert ([k] + path)[1..] == path;
    assert ([k] + path)[|path|] == path[|path| - 1];
  }

  lemma AtOne(j: Json, k: string)
    ensures At(j, [k]) == if k in Fields(j) then Some(Fields(j)[k]) else None
  {
    assert [k][1..] == [];
  }

  lemma PathLineOne(prefix: string, b: Json, a: Json, k: string, secret: IsSecret, render: Render)
    requires k in Fields(b).Keys + Fields(a).Keys
    ensures var r := PathLine(prefix, b, a, [k], secret, render);
            if Get(b, k).Obj? || Get(a, k).Obj? then r == None
            else WalkOne(prefix, b, a, k, secret, render) == if r.Some? then [r.value] else []
  {
    AtOne(b, k);
    AtOne(a, k);
    assert [k][1..] == [];
    assert Dotted(prefix, [k]) == Join(prefix, k);
  }

  ghost predicate Said(prefix: string, b: Json, a: Json, line: string, secret: IsSecret, render: Render) {
    exists path :: path != [] && PathLine(prefix, b, a, path, secret, render) == Some(line)
  }

  // The lines of a diff are exactly what there is to say of each path.
  lemma LinesAreThePaths(prefix: string, b: Json, a: Json, line: string, secret: IsSecret, render: Render)
    ensures line in Walk(prefix, b, a, secret, render) <==> Said(prefix, b, a, line, secret, render)
  {
    if line in Walk(prefix, b, a, secret, render) { var path := PathOf(prefix, b, a, line, secret, render); }
    if Said(prefix, b, a, line, secret, render) {
      var path :| path != [] && PathLine(prefix, b, a, path, secret, render) == Some(line);
      SaidIsALine(prefix, b, a, path, line, secret, render);
    }
  }

  lemma {:induction false} PathOf(prefix: string, b: Json, a: Json, line: string, secret: IsSecret, render: Render)
    returns (path: seq<string>)
    requires line in Walk(prefix, b, a, secret, render)
    ensures path != [] && PathLine(prefix, b, a, path, secret, render) == Some(line)
    decreases Height(b) + Height(a)
  {
    var k := KeyOf(prefix, b, a, Fields(b).Keys + Fields(a).Keys, line, secret, render);
    ChildIsLower(b, a, k);
    if Get(b, k).Obj? || Get(a, k).Obj? {
      var rest := PathOf(Join(prefix, k), Get(b, k), Get(a, k), line, secret, render);
      PathLineStep(prefix, b, a, k, rest, secret, render);
      path := [k] + rest;
    } else {
      PathLineOne(prefix, b, a, k, secret, render);
      path := [k];
    }
  }

  lemma {:induction false} KeyOf(prefix: string, b: Json, a: Json, keys: set<string>, line: string, secret: IsSecret,
                                 render: Render) returns (k: string)
    requires keys <= Fields(b).Keys + Fields(a).Keys && line in WalkKeys(prefix, b, a, keys, secret, render)
    ensures k in keys && line in WalkOne(prefix, b, a, k, secret, render)
    decreases |keys|
  {
    k := First(keys);
    if line !in WalkOne(prefix, b, a, k, secret, render) {
      k := KeyOf(prefix, b, a, keys - {k}, line, secret, render);
    }
  }

  lemma {:induction false} SaidIsALine(prefix: string, b: Json, a: Json, path: seq<string>, line: string,
                                       secret: IsSecret, render: Render)
    requires path != [] && PathLine(prefix, b, a, path, secret, render) == Some(line)
    ensures line in Walk(prefix, b, a, secret, render)
    decreases |path|
  {
    var k, rest := path[0], path[1..];
    assert path == [k] + rest;
    ChildIsLowerOrNone(b, a, path);
    if rest == [] {
      assert path == [k];
      PathLineOne(prefix, b, a, k, secret, render);
    } else {
      ChildIsLower(b, a, k);
      PathLineStep(prefix, b, a, k, rest, secret, render);
      SaidIsALine(Join(prefix, k), Get(b, k), Get(a, k), rest, line, secret, render);
    }
    KeyIsWalked(prefix, b, a, Fields(b).Keys + Fields(a).Keys, k, line, secret, render);
  }

  lemma ChildIsLowerOrNone(b: Json, a: Json, path: seq<string>)
    requires path != [] && (At(b, path).Some? || At(a, path).Some?)
    ensures path[0] in Fields(b).Keys + Fields(a).Keys
    ensures |path| > 1 ==> Get(b, path[0]).Obj? || Get(a, path[0]).Obj?
  {
  }

  lemma {:induction false} KeyIsWalked(prefix: string, b: Json, a: Json, keys: set<string>, k: string, line: string,
                                       secret: IsSecret, render: Render)
    requires keys <= Fields(b).Keys + Fields(a).Keys && k in keys && line in WalkOne(prefix, b, a, k, secret, render)
    ensures line in WalkKeys(prefix, b, a, keys, secret, render)
    decreases |keys|
  {
    if k != First(keys) { KeyIsWalked(prefix, b, a, keys - {First(keys)}, k, line, secret, render); }
  }

  // --- the entry ---

  function Sorted(lines: seq<string>): seq<string> {
    if lines == [] then [] else Placed(Sorted(lines[..|lines| - 1]), lines[|lines| - 1])
  }

  function Placed(lines: seq<string>, line: string): seq<string> {
    if lines == [] || Before(lines[|lines| - 1], line) then lines + [line]
    else Placed(lines[..|lines| - 1], line) + [lines[|lines| - 1]]
  }

  function Joined(lines: seq<string>): string {
    if lines == [] then "" else if |lines| == 1 then lines[0] else lines[0] + "; " + Joined(lines[1..])
  }

  const TRUNCATED: string := " …(truncated)"

  // A document that is no object leaves the entry without a diff.
  ghost function DiffText(b: Json, a: Json, secret: IsSecret, render: Render): string {
    if !(b.Null? || b.Obj?) || !(a.Null? || a.Obj?) then ""
    else
      var s := Joined(Sorted(Walk("", b, a, secret, render)));
      if |s| > MAX_DIFF_LEN then s[..MAX_DIFF_LEN] + TRUNCATED else s
  }

  method DiffJson(b: Json, a: Json, secret: IsSecret, render: Render) returns (text: string)
    ensures text == DiffText(b, a, secret, render)
    ensures |text| <= MAX_DIFF_LEN + |TRUNCATED|
  {
    if !(b.Null? || b.Obj?) || !(a.Null? || a.Obj?) { return ""; }
    var out := new Lines();
    WalkDiff("", b, a, secret, render, out);
    assert out.items == Walk("", b, a, secret, render);
    if |out.items| == 0 { return ""; }
    var s := Joined(Sorted(out.items));
    if |s| > MAX_DIFF_LEN { return s[..MAX_DIFF_LEN] + TRUNCATED; }
    return s;
  }

  // The same two documents but for the values under secret leaf keys, which
  // are equal in the one pair where they are in the other.
  ghost predicate SameButSecrets(b: Json, a: Json, c: Json, d: Json, secret: IsSecret, render: Render)
    decreases Height(b) + Height(a), 1
  {
    Fields(b).Keys == Fields(c).Keys && Fields(a).Keys == Fields(d).Keys
    && forall k :: k in Fields(b).Keys + Fields(a).Keys ==> SameAt(b, a, c, d, k, secret, render)
  }

  ghost predicate SameAt(b: Json, a: Json, c: Json, d: Json, k: string, secret: IsSecret, render: Render)
    requires k in Fields(b).Keys + Fields(a).Keys
    decreases Height(b) + Height(a), 0
  {
    ChildIsLower(b, a, k);
    var (bv, av, cv, dv) := (Get(b, k), Get(a, k), Get(c, k), Get(d, k));
    && bv.Obj? == cv.Obj? && av.Obj? == dv.Obj?
    && if bv.Obj? || av.Obj? then SameButSecrets(bv, av, cv, dv, secret, render)
       else if secret(k) then
         (ScalarString(bv, render) == ScalarString(av, render))
             == (ScalarString(cv, render) == ScalarString(dv, render))
       else bv == cv && av == dv
  }

  // Whoever reads the entry learns nothing about a secret leaf but whether it
  // changed.
  lemma SecretsDoNotShow(b: Json, a: Json, c: Json, d: Json, secret: IsSecret, render: Render)
    requires SameButSecrets(b, a, c, d, secret, render) && b.Obj? == c.Obj? && a.Obj? == d.Obj?
    requires (b.Obj? || b.Null?) && (a.Obj? || a.Null?) && (c.Obj? || c.Null?) && (d.Obj? || d.Null?)
    ensures DiffText(b, a, secret, render) == DiffText(c, d, secret, render)
  {
    WalkIsBlind("", b, a, c, d, secret, render);
  }

  lemma {:induction false} WalkIsBlind(prefix: string, b: Json, a: Json, c: Json, d: Json, secret: IsSecret,
                                       render: Render)
    requires SameButSecrets(b, a, c, d, secret, render)
    ensures Walk(prefix, b, a, secret, render) == Walk(prefix, c, d, secret, render)
    decreases Height(b) + Height(a), 1, 0
  {
    KeysAreBlind(prefix, b, a, c, d, Fields(b).Keys + Fields(a).Keys, secret, render);
  }

  lemma {:induction false} KeysAreBlind(prefix: string, b: Json, a: Json, c: Json, d: Json, keys: set<string>,
                                        secret: IsSecret, render: Render)
    requires SameButSecrets(b, a, c, d, secret, render) && keys <= Fields(b).Keys + Fields(a).Keys
    ensures WalkKeys(prefix, b, a, keys, secret, render) == WalkKeys(prefix, c, d, keys, secret, render)
    decreases Height(b) + Height(a), 0, |keys|
  {
    if keys != {} {
      OneIsBlind(prefix, b, a, c, d, First(keys), secret, render);
      KeysAreBlind(prefix, b, a, c, d, keys - {First(keys)}, secret, render);
    }
  }

  lemma {:induction false} OneIsBlind(prefix: string, b: Json, a: Json, c: Json, d: Json, k: string, secret: IsSecret,
                                      render: Render)
    requires SameButSecrets(b, a, c, d, secret, render) && k in Fields(b).Keys + Fields(a).Keys
    ensures WalkOne(prefix, b, a, k, secret, render) == WalkOne(prefix, c, d, k, secret, render)
    decreases Height(b) + Height(a), 0, 0
  {
    assert SameAt(b, a, c, d, k, secret, render);
    ChildIsLower(b, a, k);
    if Get(b, k).Obj? || Get(a, k).Obj? {
      WalkIsBlind(Join(prefix, k), Get(b, k), Get(a, k), Get(c, k), Get(d, k), secret, render);
    }
  }

  lemma PathAgainstItself(b: Json, path: seq<string>, secret: IsSecret, render: Render)
    requires path != []
    ensures PathLine("", b, b, path, secret, render).None?
  {
  }

  // A document against itself.
  lemma NothingChangedSaysNothing(b: Json, secret: IsSecret, render: Render)
    ensures DiffText(b, b, secret, render) == ""
  {
    var lines := Walk("", b, b, secret, render);
    if lines != [] {
      var path := PathOf("", b, b, lines[0], secret, render);
      PathAgainstItself(b, path, secret, render);
    }
  }

  // --- where the promise that a secret is never written ends ---

  // The document with another value at a path it has.
  function Put(j: Json, path: seq<string>, v: Json): Json
    requires At(j, path).Some?
  {
    if path == [] then v else Obj(j.fields[path[0] := Put(j.fields[path[0]], path[1..], v)])
  }

  lemma {:induction false} PutIsThere(j: Json, path: seq<string>, v: Json)
    requires At(j, path).Some?
    ensures At(Put(j, path, v), path) == Some(v)
  {
    if path != [] { PutIsThere(j.fields[path[0]], path[1..], v); }
  }

  // Two later documents that differ under one key at most.
  ghost predicate AlikeBut(a: Json, c: Json, k: string) {
    Fields(a).Keys == Fields(c).Keys && forall x :: x in Fields(a) && x != k ==> Fields(a)[x] == Fields(c)[x]
  }

  lemma Cancels(x: seq<string>, y: seq<string>, rest: seq<string>)
    ensures x + rest == y + rest <==> x == y
    ensures rest + x == rest + y <==> x == y
  {
    if x + rest == y + rest { assert |x| == |y| && x == (x + rest)[..|x|] && y == (y + rest)[..|y|]; }
    if rest + x == rest + y { assert x == (rest + x)[|rest|..] && y == (rest + y)[|rest|..]; }
  }

  lemma OtherKeysAlike(prefix: string, b: Json, a: Json, c: Json, x: string, k: string, secret: IsSecret,
                       render: Render)
    requires AlikeBut(a, c, k) && x != k && x in Fields(b).Keys + Fields(a).Keys
    ensures WalkOne(prefix, b, a, x, secret, render) == WalkOne(prefix, b, c, x, secret, render)
  {
    assert Get(a, x) == Get(c, x) && (x in Fields(a) <==> x in Fields(c));
  }

  lemma FirstKeyWalk(prefix: string, b: Json, a: Json, keys: set<string>, first: string, secret: IsSecret,
                     render: Render)
    requires keys <= Fields(b).Keys + Fields(a).Keys && keys != {} && first == First(keys)
    ensures WalkKeys(prefix, b, a, keys, secret, render)
         == WalkOne(prefix, b, a, first, secret, render) + WalkKeys(prefix, b, a, keys - {first}, secret, render)
  {
  }

  lemma {:induction false} KeysDifferIff(prefix: string, b: Json, a: Json, c: Json, keys: set<string>, k: string,
                                         secret: IsSecret, render: Render)
    requires AlikeBut(a, c, k) && keys <= Fields(b).Keys + Fields(a).Keys && k in Fields(b).Keys + Fields(a).Keys
    ensures WalkKeys(prefix, b, a, keys, secret, render) == WalkKeys(prefix, b, c, keys, secret, render)
            <==> k !in keys || WalkOne(prefix, b, a, k, secret, render) == WalkOne(prefix, b, c, k, secret, render)
    decreases |keys|
  {
    if keys != {} {
      var first := First(keys);
      var rest := keys - {first};
      var left, right := WalkKeys(prefix, b, a, rest, secret, render), WalkKeys(prefix, b, c, rest, secret, render);
      KeysDifferIff(prefix, b, a, c, rest, k, secret, render);
      FirstKeyWalk(prefix, b, a, keys, first, secret, render);
      FirstKeyWalk(prefix, b, c, keys, first, secret, render);
      if first == k {
        Cancels(WalkOne(prefix, b, a, k, secret, render), WalkOne(prefix, b, c, k, secret, render), left);
      } else {
        OtherKeysAlike(prefix, b, a, c, first, k, secret, render);
        Cancels(left, right, WalkOne(prefix, b, a, first, secret, render));
      }
    }
  }

  lemma PutUnderOneKey(a: Json, k: string, rest: seq<string>, v: Json)
    requires At(a, [k] + rest).Some?
    ensures var c := Put(a, [k] + rest, v);
            && k in Fields(a) && At(Get(a, k), rest).Some?
            && AlikeBut(c, a, k) && Get(c, k) == Put(Get(a, k), rest, v)
  {
    assert ([k] + rest)[1..] == rest;
  }

  lemma PutAtKeyDiffersIff(prefix: string, b: Json, a: Json, k: string, v: Json, w: Json, secret: IsSecret,
                           render: Render)
    requires At(a, [k]).Some? && !IsObj(At(b, [k])) && !v.Obj? && !w.Obj?
    ensures var c, d := Put(a, [k], v), Put(a, [k], w);
            && k in Fields(c) && k in Fields(d)
            && (WalkOne(prefix, b, c, k, secret, render) == WalkOne(prefix, b, d, k, secret, render)
                <==> PathLine(prefix, b, c, [k], secret, render) == PathLine(prefix, b, d, [k], secret, render))
  {
    assert [k] + [] == [k];
    PutUnderOneKey(a, k, [], v);
    PutUnderOneKey(a, k, [], w);
    AtOne(b, k);
    PathLineOne(prefix, b, Put(a, [k], v), k, secret, render);
    PathLineOne(prefix, b, Put(a, [k], w), k, secret, render);
  }

  // Two values put at one path leave the same lines exactly when the path's own
  // line is the same.
  lemma {:induction false} PutDiffersIff(prefix: string, b: Json, a: Json, k: string, rest: seq<string>, v: Json,
                                         w: Json, secret: IsSecret, render: Render)
    requires At(a, [k] + rest).Some? && !IsObj(At(b, [k] + rest)) && !v.Obj? && !w.Obj?
    ensures var c, d := Put(a, [k] + rest, v), Put(a, [k] + rest, w);
            Walk(prefix, b, c, secret, render) == Walk(prefix, b, d, secret, render)
            <==> (PathLine(prefix, b, c, [k] + rest, secret, render)
                  == PathLine(prefix, b, d, [k] + rest, secret, render))
    decreases |rest|
  {
    var c, d := Put(a, [k] + rest, v), Put(a, [k] + rest, w);
    PutUnderOneKey(a, k, rest, v);
    PutUnderOneKey(a, k, rest, w);
    KeysDifferIff(prefix, b, c, d, Fields(b).Keys + Fields(c).Keys, k, secret, render);
    if rest == [] {
      assert [k] + rest == [k];
      PutAtKeyDiffersIff(prefix, b, a, k, v, w, secret, render);
    } else {
      assert rest == [rest[0]] + rest[1..];
      PathLineStep(prefix, b, c, k, rest, secret, render);
      PathLineStep(prefix, b, d, k, rest, secret, render);
      AtUnder(b, k, rest);
      PutDiffersIff(Join(prefix, k), Get(b, k), Get(a, k), rest[0], rest[1..], v, w, secret, render);
      WalkUnder(prefix, b, c, k, secret, render);
      WalkUnder(prefix, b, d, k, secret, render);
    }
  }

  lemma WalkUnder(prefix: string, b: Json, c: Json, k: string, secret: IsSecret, render: Render)
    requires k in Fields(c) && Get(c, k).Obj?
    ensures WalkOne(prefix, b, c, k, secret, render) == Walk(Join(prefix, k), Get(b, k), Get(c, k), secret, render)
  {
  }

  lemma AtUnder(b: Json, k: string, rest: seq<string>)
    requires rest != []
    ensures At(Get(b, k), rest) == At(b, [k] + rest)
  {
    assert ([k] + rest)[1..] == rest;
  }

  function TextOf(was: Option<string>): string { if was.Some? then was.value else "" }

  // What two values have in common for the reader of an entry about a leaf that
  // was `was`, if it was there: under a secret key, whether they are the old one;
  // elsewhere, what is written of them.
  predicate ReadsAlike(was: Option<string>, v: string, w: string, hidden: bool) {
    if hidden then (v == TextOf(was)) == (w == TextOf(was))
    else if was.Some? && (v == was.value || w == was.value) then v == w
    else Clip(v) == Clip(w)
  }

  lemma Follows(x: string, y: string, front: string)
    ensures front + x == front + y <==> x == y
  {
    if front + x == front + y { assert x == (front + x)[|front|..] && y == (front + y)[|front|..]; }
  }

  lemma LeafLinesAlikeIff(path: string, hidden: bool, was: Option<string>, v: string, w: string)
    ensures LeafLine(path, hidden, was.Some?, true, TextOf(was), v)
            == LeafLine(path, hidden, was.Some?, true, TextOf(was), w)
            <==> ReadsAlike(was, v, w, hidden)
  {
    if was.Some? {
      Follows(Clip(v), Clip(w), path + ": " + Clip(was.value) + " → ");
    } else {
      Follows(Clip(v), Clip(w), path + ": set to ");
    }
  }

  // In any two documents, at any path: two values written there leave the same
  // lines exactly when the key right above them is secret and they are both the
  // old one or neither is, or that key is not and they are written alike; the
  // entry, sorted and cut, is then the same too. A secret key further up hides
  // nothing below it.
  lemma HiddenIffItsOwnKeyIsSecret(b: Json, a: Json, path: seq<string>, v: Json, w: Json, secret: IsSecret,
                                   render: Render)
    requires path != [] && At(a, path).Some? && !IsObj(At(b, path)) && !v.Obj? && !w.Obj?
    ensures Walk("", b, Put(a, path, v), secret, render) == Walk("", b, Put(a, path, w), secret, render)
            <==> ReadsAlike(Written(At(b, path), render), ScalarString(v, render), ScalarString(w, render),
                            secret(path[|path| - 1]))
    ensures ReadsAlike(Written(At(b, path), render), ScalarString(v, render), ScalarString(w, render),
                       secret(path[|path| - 1])) ==>
              DiffText(b, Put(a, path, v), secret, render) == DiffText(b, Put(a, path, w), secret, render)
  {
    assert path == [path[0]] + path[1..];
    PutDiffersIff("", b, a, path[0], path[1..], v, w, secret, render);
    PutIsThere(a, path, v);
    PutIsThere(a, path, w);
    LeafLinesAlikeIff(Dotted("", path), secret(path[|path| - 1]), Written(At(b, path), render),
                      ScalarString(v, render), ScalarString(w, render));
  }

  function Written(v: Option<Json>, render: Render): Option<string> {
    if v.Some? then Some(ScalarString(v.value, render)) else None
  }

  // An array is one value of its own key: whatever secrets its items hold, two
  // new arrays that fit leave the same lines exactly when that key is secret or
  // they are written alike.
  lemma ArrayIsHiddenIff(b: Json, a: Json, path: seq<string>, xs: seq<Json>, ys: seq<Json>, secret: IsSecret,
                         render: Render)
    requires path != [] && At(a, path).Some? && At(b, path).None?
    requires 0 < |render(xs)| <= MAX_VALUE_LEN && 0 < |render(ys)| <= MAX_VALUE_LEN
    ensures Walk("", b, Put(a, path, Arr(xs)), secret, render) == Walk("", b, Put(a, path, Arr(ys)), secret, render)
            <==> secret(path[|path| - 1]) || render(xs) == render(ys)
  {
    HiddenIffItsOwnKeyIsSecret(b, a, path, Arr(xs), Arr(ys), secret, render);
  }

  lemma OneKeyWalk(prefix: string, b: Json, a: Json, k: string, secret: IsSecret, render: Render)
    requires Fields(b).Keys + Fields(a).Keys == {k}
    ensures Walk(prefix, b, a, secret, render) == WalkOne(prefix, b, a, k, secret, render)
  {
    assert First({k}) == k;
    assert {k} - {k} == {};
    assert WalkKeys(prefix, b, a, {}, secret, render) == [];
    assert WalkKeys(prefix, b, a, {k}, secret, render) == WalkOne(prefix, b, a, k, secret, render) + [];
  }

  lemma {:induction false} ContainedIsShorter(s: string, part: string)
    requires Contains(s, part)
    ensures |part| <= |s|
  {
    if !(part <= s) { ContainedIsShorter(s[1..], part); }
  }

  lemma ShortNamesAreNoSecrets(name: string)
    requires |name| < 3
    ensures !IsSecretField(name)
  {
    forall i | 0 <= i < |SECRET_HINTS|
      ensures !Contains(ToLower(name), SECRET_HINTS[i])
    {
      if Contains(ToLower(name), SECRET_HINTS[i]) { ContainedIsShorter(ToLower(name), SECRET_HINTS[i]); }
    }
  }

  // A new object with one value under a secret key: the value is written out.
  lemma AnObjectUnderASecretKeyShows(outer: string, v: string, render: Render)
    requires IsSecretField(outer) && outer != "" && 0 < |v| <= MAX_VALUE_LEN
    ensures outer + ".id: set to " + v
            in Walk("", Null, Obj(map[outer := Obj(map["id" := Str(v)])]), IsSecretField, render)
  {
    var inner := Obj(map["id" := Str(v)]);
    ShortNamesAreNoSecrets("id");
    PathLineOne(outer, Null, inner, "id", IsSecretField, render);
    PathLineStep("", Null, Obj(map[outer := inner]), outer, ["id"], IsSecretField, render);
    AtOne(inner, "id");
    assert Dotted(outer, ["id"]) == Join(outer, "id") by { assert ["id"][1..] == []; }
    assert Join(outer, "id") + ": set to " + v == outer + ".id: set to " + v;
    SaidIsALine("", Null, Obj(map[outer := inner]), [outer] + ["id"], outer + ".id: set to "
        + v, IsSecretField, render);
  }

  // And so is a whole array, whatever keys its items have.
  lemma AnArrayShows(xs: seq<Json>, render: Render)
    requires 0 < |render(xs)| <= MAX_VALUE_LEN
    ensures "id: set to " + render(xs) in Walk("", Null, Obj(map["id" := Arr(xs)]), IsSecretField, render)
  {
    ShortNamesAreNoSecrets("id");
    assert Fields(Null).Keys + Fields(Obj(map["id" := Arr(xs)])).Keys == {"id"};
    OneKeyWalk("", Null, Obj(map["id" := Arr(xs)]), "id", IsSecretField, render);
    var line := "id" + ": set to " + render(xs);
    assert WalkOne("", Null, Obj(map["id" := Arr(xs)]), "id", IsSecretField, render) == [line];
    assert line == "id: set to " + render(xs);
  }

  // A value that becomes an empty object goes unsaid.
  lemma AnEmptiedValueIsNotSaid(k: string, v: string, secret: IsSecret, render: Render)
    ensures Walk("", Obj(map[k := Str(v)]), Obj(map[k := Obj(map[])]), secret, render) == []
  {
    var b, a := Obj(map[k := Str(v)]), Obj(map[k := Obj(map[])]);
    assert Fields(b).Keys + Fields(a).Keys == {k};
    OneKeyWalk("", b, a, k, secret, render);
    assert Fields(Str(v)).Keys + Fields(Obj(map[])).Keys == {};
    assert Walk(Join("", k), Str(v), Obj(map[]), secret, render) == [];
  }
}
