/** Schema registration: a depth-first walk of a possibly cyclic graph of types that uses
    the map it fills as its set of visited names. */
module Schemas {
  import opened Wire

  /** A type as written in a signature or a field. */
  datatype RustTy = Primitive(kind: string) | VecOf(elem: RustTy) | OptionOf(inner: RustTy) | Struct(id: nat)

  datatype Field = Field(json: string, ty: RustTy)
  datatype TypeDef = TypeDef(name: string, fields: seq<Field>)

  /** All structs of the program. Identity is the key; names need not be distinct. */
  type Env = map<nat, TypeDef>

  datatype Schema =
    | Prim(kind: string)
    | ArrayOf(items: Schema)
    | RefTo(name: string)
    | Object(required: seq<string>, props: map<string, Schema>)

  /** Strip one Option, and say whether there was one. */
  function UnwrapOption(ty: RustTy): (RustTy, bool) {
    match ty case OptionOf(inner) => (inner, true) case _ => (ty, false)
  }

  function FieldTy(f: Field): RustTy {
    UnwrapOption(f.ty).0
  }

  /** The type has a schema: what the trait bounds demand. */
  predicate Known(env: Env, ty: RustTy) {
    match ty
    case Primitive(_) => true
    case VecOf(t) => Known(env, t)
    case OptionOf(_) => false
    case Struct(id) => id in env
  }

  predicate AllKnown(env: Env, tys: seq<RustTy>) {
    forall i :: 0 <= i < |tys| ==> Known(env, tys[i])
  }

  function FieldTys(fields: seq<Field>): (tys: seq<RustTy>)
    ensures |tys| == |fields| && forall i :: 0 <= i < |fields| ==> tys[i] == FieldTy(fields[i])
  {
    seq(|fields|, i requires 0 <= i < |fields| => FieldTy(fields[i]))
  }

  predicate WellTyped(env: Env) {
    forall id :: id in env ==> AllKnown(env, FieldTys(env[id].fields))
  }

  function SchemaOf(env: Env, ty: RustTy): Schema
    requires Known(env, ty)
  {
    match ty
    case Primitive(kind) => Prim(kind)
    case VecOf(t) => ArrayOf(SchemaOf(env, t))
    case Struct(id) => RefTo(env[id].name)
  }

  function Props(env: Env, fields: seq<Field>): map<string, Schema>
    requires AllKnown(env, FieldTys(fields))
  {
    if fields == [] then map[]
    else
      var front, last := fields[..|fields| - 1], fields[|fields| - 1];
      assert forall i :: 0 <= i < |front| ==> FieldTys(front)[i] == FieldTys(fields)[i];
      assert FieldTys(fields)[|fields| - 1] == FieldTy(last);
      Props(env, front)[last.json := SchemaOf(env, FieldTy(last))]
  }

  function Required(fields: seq<Field>): seq<string> {
    if fields == [] then []
    else
      var last := fields[|fields| - 1];
      Required(fields[..|fields| - 1]) + (if UnwrapOption(last.ty).1 then [] else [last.json])
  }

  function ObjectOf(env: Env, id: nat): Schema
    requires WellTyped(env) && id in env
  {
    Object(Required(env[id].fields), Props(env, env[id].fields))
  }

  // ---- the walk ----

  function Names(env: Env): set<string> {
    set id | id in env :: env[id].name
  }

  function Unseen(env: Env, out: map<string, Schema>): nat {
    |Names(env) - out.Keys|
  }

  lemma UnseenShrinks(env: Env, out: map<string, Schema>, out': map<string, Schema>)
    requires out.Keys <= out'.Keys
    ensures Unseen(env, out') <= Unseen(env, out)
    ensures (exists n :: n in Names(env) && n !in out && n in out') ==> Unseen(env, out') < Unseen(env, out)
  {
    var a, b := Names(env) - out.Keys, Names(env) - out'.Keys;
    SubsetSize(b, a);
    if n :| n in Names(env) && n !in out && n in out' {
      assert n in a && n !in b;
      SubsetSize(b, a - {n});
    }
  }

  lemma {:induction false} SubsetSize(a: set<string>, b: set<string>)
    requires a <= b
    ensures |a| <= |b|
  {
    if x :| x in a {
      SubsetSize(a - {x}, b - {x});
    } else {
      assert a == {};
    }
  }

  function Walk(env: Env, out: map<string, Schema>, ty: RustTy): (r: map<string, Schema>)
    requires WellTyped(env) && Known(env, ty)
    ensures out.Keys <= r.Keys && forall n :: n in out ==> r[n] == out[n]
    decreases Unseen(env, out), ty
  {
    match ty
    case Primitive(_) => out
    case VecOf(t) => Walk(env, out, t)
    case Struct(id) =>
      var name := env[id].name;
      if name in out then out
      else
        var out1 := out[name := ObjectOf(env, id)];
        assert name in Names(env);
        UnseenShrinks(env, out, out1);
        WalkAll(env, out1, FieldTys(env[id].fields))
  }

  function WalkAll(env: Env, out: map<string, Schema>, tys: seq<RustTy>): (r: map<string, Schema>)
    requires WellTyped(env) && AllKnown(env, tys)
    ensures out.Keys <= r.Keys && forall n :: n in out ==> r[n] == out[n]
    decreases Unseen(env, out), tys
  {
    if tys == [] then out
    else
      var out1 := Walk(env, out, tys[0]);
      UnseenShrinks(env, out, out1);
      WalkAll(env, out1, tys[1..])
  }

  // ---- reachability, without the walk ----

  function IdOf(ty: RustTy): Option<nat> {
    match ty
    case Struct(id) => Some(id)
    case VecOf(t) => IdOf(t)
    case _ => None
  }

  predicate Heads(tys: seq<RustTy>, id: nat) {
    exists i :: 0 <= i < |tys| && IdOf(tys[i]) == Some(id)
  }

  predicate Edge(env: Env, i: nat, j: nat) {
    i in env && Heads(FieldTys(env[i].fields), j)
  }

  predicate IsPath(env: Env, p: seq<nat>) {
    && (forall i :: 0 <= i < |p| ==> p[i] in env)
    && forall i :: 0 <= i < |p| - 1 ==> Edge(env, p[i], p[i + 1])
  }

  ghost predicate Reaches(env: Env, tys: seq<RustTy>, id: nat) {
    exists p: seq<nat> :: p != [] && Heads(tys, p[0]) && p[|p| - 1] == id && IsPath(env, p)
  }

  lemma ReachSelf(env: Env, tys: seq<RustTy>, id: nat)
    requires Heads(tys, id) && id in env
    ensures Reaches(env, tys, id)
  {
    assert IsPath(env, [id]) && [id][0] == id;
  }

  /** What a struct's fields reach, the struct reaches. */
  lemma ReachThrough(env: Env, tys: seq<RustTy>, i: nat, id: nat)
    requires Heads(tys, i) && i in env && Reaches(env, FieldTys(env[i].fields), id)
    ensures Reaches(env, tys, id)
  {
    var p: seq<nat> :| p != [] && Heads(FieldTys(env[i].fields), p[0]) && p[|p| - 1] == id && IsPath(env, p);
    var q := [i] + p;
    forall n | 0 <= n < |q| - 1
      ensures Edge(env, q[n], q[n + 1])
    {
      if n > 0 { assert q[n] == p[n - 1] && q[n + 1] == p[n]; }
    }
    assert q[0] == i && q[|q| - 1] == id && IsPath(env, q);
  }

  lemma ReachMore(env: Env, tys: seq<RustTy>, more: seq<RustTy>, id: nat)
    requires Reaches(env, tys, id) && forall i: nat :: Heads(tys, i) ==> Heads(more, i)
    ensures Reaches(env, more, id)
  {
    var p: seq<nat> :| p != [] && Heads(tys, p[0]) && p[|p| - 1] == id && IsPath(env, p);
    assert Heads(more, p[0]);
  }

  lemma ReachSnoc(env: Env, tys: seq<RustTy>, i: nat, j: nat)
    requires Reaches(env, tys, i) && Edge(env, i, j) && j in env
    ensures Reaches(env, tys, j)
  {
    var p: seq<nat> :| p != [] && Heads(tys, p[0]) && p[|p| - 1] == i && IsPath(env, p);
    var q := p + [j];
    assert forall n :: 0 <= n < |q| - 1 ==> Edge(env, q[n], q[n + 1]);
    assert q[0] == p[0] && q[|q| - 1] == j && IsPath(env, q);
  }

  // ---- what the walk adds ----

  predicate FieldsSeen(env: Env, id: nat, out: map<string, Schema>) {
    id in env && forall j :: Edge(env, id, j) && j in env ==> env[j].name in out
  }

  /** Struct `id`, which the walk could reach, is in the map under name `n` with its own
      schema and with all its fields' names beside it. */
  ghost predicate Witness(env: Env, tys: seq<RustTy>, out: map<string, Schema>, n: string, id: nat)
    requires WellTyped(env)
  {
    && id in env && env[id].name == n && n in out && out[n] == ObjectOf(env, id)
    && FieldsSeen(env, id, out) && Reaches(env, tys, id)
  }

  ghost predicate Justified(env: Env, tys: seq<RustTy>, before: map<string, Schema>, after: map<string, Schema>)
    requires WellTyped(env)
  {
    forall n :: n in after && n !in before ==> exists id :: Witness(env, tys, after, n, id)
  }

  ghost predicate HeadsSeen(env: Env, tys: seq<RustTy>, out: map<string, Schema>) {
    forall id :: Heads(tys, id) && id in env ==> env[id].name in out
  }

  predicate Extends(out: map<string, Schema>, more: map<string, Schema>) {
    out.Keys <= more.Keys && forall n :: n in out ==> more[n] == out[n]
  }

  lemma HeadOne(ty: RustTy)
    ensures forall i: nat :: Heads([ty], i) <==> IdOf(ty) == Some(i)
  {
    assert IdOf([ty][0]) == IdOf(ty);
  }

  lemma HeadsSplit(tys: seq<RustTy>)
    requires tys != []
    ensures forall i: nat :: Heads(tys, i) <==> Heads([tys[0]], i) || Heads(tys[1..], i)
  {
    HeadOne(tys[0]);
    forall i: nat
      ensures Heads(tys, i) <==> Heads([tys[0]], i) || Heads(tys[1..], i)
    {
      if Heads(tys, i) {
        var n :| 0 <= n < |tys| && IdOf(tys[n]) == Some(i);
        if n > 0 { assert IdOf(tys[1..][n - 1]) == Some(i); }
      }
      if Heads(tys[1..], i) {
        var n :| 0 <= n < |tys| - 1 && IdOf(tys[1..][n]) == Some(i);
        assert IdOf(tys[n + 1]) == Some(i);
      }
      if Heads([tys[0]], i) {
        assert IdOf(tys[0]) == Some(i);
      }
    }
  }

  lemma WitnessLater(env: Env, tys: seq<RustTy>, more: seq<RustTy>, out: map<string, Schema>,
                     later: map<string, Schema>, n: string, id: nat)
    requires WellTyped(env) && Witness(env, tys, out, n, id) && Extends(out, later)
    requires forall i: nat :: Heads(tys, i) ==> Heads(more, i)
    ensures Witness(env, more, later, n, id)
  {
    ReachMore(env, tys, more, id);
  }

  lemma JustifiedMore(env: Env, tys: seq<RustTy>, more: seq<RustTy>, before: map<string, Schema>,
                      after: map<string, Schema>, later: map<string, Schema>)
    requires WellTyped(env) && Justified(env, tys, before, after) && Extends(after, later)
    requires forall i: nat :: Heads(tys, i) ==> Heads(more, i)
    ensures forall n :: n in after && n !in before ==> exists id :: Witness(env, more, later, n, id)
  {
    forall n | n in after && n !in before
      ensures exists id :: Witness(env, more, later, n, id)
    {
      var id :| Witness(env, tys, after, n, id);
      WitnessLater(env, tys, more, after, later, n, id);
    }
  }

  /** Two walks, one after the other. */
  lemma JustifiedJoin(env: Env, tys: seq<RustTy>, before: map<string, Schema>, middle: map<string, Schema>,
                      after: map<string, Schema>)
    requires WellTyped(env) && tys != [] && Extends(before, middle) && Extends(middle, after)
    requires Justified(env, [tys[0]], before, middle) && HeadsSeen(env, [tys[0]], middle)
    requires Justified(env, tys[1..], middle, after) && HeadsSeen(env, tys[1..], after)
    ensures Justified(env, tys, before, after) && HeadsSeen(env, tys, after)
  {
    HeadsSplit(tys);
    JustifiedMore(env, [tys[0]], tys, before, middle, after);
    JustifiedMore(env, tys[1..], tys, middle, after, after);
  }

  /** A struct entered for the first time, then the walk over its fields. */
  lemma JustifiedStruct(env: Env, id: nat, before: map<string, Schema>, after: map<string, Schema>)
    requires WellTyped(env) && id in env && env[id].name !in before
    requires Extends(before[env[id].name := ObjectOf(env, id)], after)
    requires Justified(env, FieldTys(env[id].fields), before[env[id].name := ObjectOf(env, id)], after)
    requires HeadsSeen(env, FieldTys(env[id].fields), after)
    ensures Justified(env, [Struct(id)], before, after)
  {
    var name, tys := env[id].name, FieldTys(env[id].fields);
    HeadOne(Struct(id));
    forall n | n in after && n !in before
      ensures exists i :: Witness(env, [Struct(id)], after, n, i)
    {
      if n == name {
        ReachSelf(env, [Struct(id)], id);
        assert n in before[name := ObjectOf(env, id)];
        assert Witness(env, [Struct(id)], after, n, id);
      } else {
        var i :| Witness(env, tys, after, n, i);
        ReachThrough(env, [Struct(id)], id, i);
        assert Witness(env, [Struct(id)], after, n, i);
      }
    }
  }

  lemma {:induction false} WalkSpec(env: Env, out: map<string, Schema>, ty: RustTy)
    requires WellTyped(env) && Known(env, ty)
    ensures var r := Walk(env, out, ty); HeadsSeen(env, [ty], r) && Justified(env, [ty], out, r)
    decreases Unseen(env, out), ty
  {
    HeadOne(ty);
    match ty
    case Primitive(_) =>
    case VecOf(t) =>
      WalkSpec(env, out, t);
      HeadOne(t);
      var r := Walk(env, out, t);
      JustifiedMore(env, [t], [ty], out, r, r);
    case Struct(id) =>
      var name := env[id].name;
      if name !in out {
        var out1 := out[name := ObjectOf(env, id)];
        assert name in Names(env);
        UnseenShrinks(env, out, out1);
        WalkAllSpec(env, out1, FieldTys(env[id].fields));
        JustifiedStruct(env, id, out, Walk(env, out, ty));
      }
  }

  lemma {:induction false} WalkAllSpec(env: Env, out: map<string, Schema>, tys: seq<RustTy>)
    requires WellTyped(env) && AllKnown(env, tys)
    ensures var r := WalkAll(env, out, tys); HeadsSeen(env, tys, r) && Justified(env, tys, out, r)
    decreases Unseen(env, out), tys
  {
    if tys != [] {
      var out1 := Walk(env, out, tys[0]);
      WalkSpec(env, out, tys[0]);
      UnseenShrinks(env, out, out1);
      WalkAllSpec(env, out1, tys[1..]);
      JustifiedJoin(env, tys, out, out1, WalkAll(env, out, tys));
    }
  }

  // ---- results ----

  /** The component map of a whole contract. */
  function Components(env: Env, roots: seq<RustTy>): map<string, Schema>
    requires WellTyped(env) && AllKnown(env, roots)
  {
    WalkAll(env, map[], roots)
  }

  function RefOf(s: Schema): Option<string> {
    match s case RefTo(n) => Some(n) case ArrayOf(items) => RefOf(items) case _ => None
  }

  lemma {:induction false} SchemaRef(env: Env, ty: RustTy)
    requires Known(env, ty)
    ensures IdOf(ty).Some? ==> IdOf(ty).value in env
    ensures RefOf(SchemaOf(env, ty)) == if IdOf(ty).Some? then Some(env[IdOf(ty).value].name) else None
  {
    if ty.VecOf? {
      SchemaRef(env, ty.elem);
    }
  }

  lemma {:induction false} PropRefs(env: Env, fields: seq<Field>, key: string)
    requires AllKnown(env, FieldTys(fields)) && key in Props(env, fields)
    ensures exists i :: 0 <= i < |fields| && fields[i].json == key
                        && Props(env, fields)[key] == SchemaOf(env, FieldTy(fields[i]))
  {
    var front, last := fields[..|fields| - 1], fields[|fields| - 1];
    assert forall i :: 0 <= i < |front| ==> FieldTys(front)[i] == FieldTys(fields)[i];
    assert FieldTys(fields)[|fields| - 1] == FieldTy(last);
    if key != last.json {
      PropRefs(env, front, key);
      var i :| 0 <= i < |front| && front[i].json == key
               && Props(env, front)[key] == SchemaOf(env, FieldTy(front[i]));
      assert fields[i] == front[i];
    } else {
      assert fields[|fields| - 1].json == key;
    }
  }

  /** Every reference in the document resolves, whatever the graph and whatever the names:
      those of parameters and returns, and those inside the registered schemas. */
  lemma EveryRefResolves(env: Env, roots: seq<RustTy>)
    requires WellTyped(env) && AllKnown(env, roots)
    ensures var out := Components(env, roots);
      && (forall i :: 0 <= i < |roots| && RefOf(SchemaOf(env, roots[i])).Some? ==>
            RefOf(SchemaOf(env, roots[i])).value in out)
      && (forall n, key :: n in out && out[n].Object? && key in out[n].props && RefOf(out[n].props[key]).Some? ==>
            RefOf(out[n].props[key]).value in out)
      && (forall n :: n in out ==> out[n].Object?)
  {
    var out := Components(env, roots);
    WalkAllSpec(env, map[], roots);
    forall i | 0 <= i < |roots| && RefOf(SchemaOf(env, roots[i])).Some?
      ensures RefOf(SchemaOf(env, roots[i])).value in out
    {
      SchemaRef(env, roots[i]);
      assert Heads(roots, IdOf(roots[i]).value);
    }
    forall n, key | n in out && out[n].Object? && key in out[n].props && RefOf(out[n].props[key]).Some?
      ensures RefOf(out[n].props[key]).value in out
    {
      var id :| Witness(env, roots, out, n, id);
      FieldRefSeen(env, id, key, out);
    }
  }

  lemma FieldRefSeen(env: Env, id: nat, key: string, out: map<string, Schema>)
    requires WellTyped(env) && FieldsSeen(env, id, out)
    requires key in ObjectOf(env, id).props && RefOf(ObjectOf(env, id).props[key]).Some?
    ensures RefOf(ObjectOf(env, id).props[key]).value in out
  {
    var fields := env[id].fields;
    PropRefs(env, fields, key);
    var i :| 0 <= i < |fields| && fields[i].json == key
             && Props(env, fields)[key] == SchemaOf(env, FieldTy(fields[i]));
    var ty := FieldTys(fields)[i];
    SchemaRef(env, ty);
    assert Heads(FieldTys(fields), IdOf(ty).value);
    assert Edge(env, id, IdOf(ty).value);
  }

  predicate Named(env: Env, n: string, id: nat) {
    id in env && env[id].name == n
  }

  /** Distinct structs within reach have distinct names. */
  ghost predicate DistinctNames(env: Env, roots: seq<RustTy>) {
    forall i, j | Reaches(env, roots, i) && Reaches(env, roots, j) && i in env && j in env
                  && env[i].name == env[j].name :: i == j
  }

  /** A struct within reach is in the map under its name with its own schema. */
  ghost predicate Faithful(env: Env, out: map<string, Schema>, id: nat)
    requires WellTyped(env) && id in env
  {
    env[id].name in out && out[env[id].name] == ObjectOf(env, id)
  }

  /** The struct found under a reachable struct's name. */
  lemma NameWitness(env: Env, roots: seq<RustTy>, n: string) returns (id: nat)
    requires WellTyped(env) && AllKnown(env, roots) && n in Components(env, roots)
    ensures Witness(env, roots, Components(env, roots), n, id)
  {
    WalkAllSpec(env, map[], roots);
    id :| Witness(env, roots, Components(env, roots), n, id);
  }

  lemma PathFront(env: Env, roots: seq<RustTy>, p: seq<nat>)
    requires |p| > 1 && Heads(roots, p[0]) && IsPath(env, p)
    ensures IsPath(env, p[..|p| - 1]) && Edge(env, p[|p| - 2], p[|p| - 1])
    ensures Reaches(env, roots, p[|p| - 2]) && Reaches(env, roots, p[|p| - 1])
  {
    var q := p[..|p| - 1];
    assert q[0] == p[0] && q[|q| - 1] == p[|p| - 2];
    assert forall i :: 0 <= i < |q| - 1 ==> Edge(env, q[i], q[i + 1]);
  }

  lemma HeadName(env: Env, roots: seq<RustTy>, id: nat)
    requires WellTyped(env) && AllKnown(env, roots) && Heads(roots, id) && id in env
    ensures env[id].name in Components(env, roots)
  {
    WalkAllSpec(env, map[], roots);
  }

  lemma {:induction false} PathSeen(env: Env, roots: seq<RustTy>, p: seq<nat>)
    requires WellTyped(env) && AllKnown(env, roots) && DistinctNames(env, roots)
    requires p != [] && Heads(roots, p[0]) && IsPath(env, p)
    ensures Faithful(env, Components(env, roots), p[|p| - 1])
    decreases |p|
  {
    var last := p[|p| - 1];
    assert Reaches(env, roots, last);
    if |p| == 1 {
      HeadName(env, roots, last);
    } else {
      var prev := p[|p| - 2];
      PathFront(env, roots, p);
      PathSeen(env, roots, p[..|p| - 1]);
      var id := NameWitness(env, roots, env[prev].name);
      assert id == prev;
    }
    var id := NameWitness(env, roots, env[last].name);
    assert id == last;
  }

  /** With distinct names, the map holds exactly the structs within reach of the
      transactions' parameters and returns, each under its name with its own schema. */
  lemma ComponentsAreReachable(env: Env, roots: seq<RustTy>)
    requires WellTyped(env) && AllKnown(env, roots) && DistinctNames(env, roots)
    ensures forall n :: n in Components(env, roots) <==>
                        exists id :: Reaches(env, roots, id) && Named(env, n, id)
    ensures forall id :: Reaches(env, roots, id) ==> id in env && Faithful(env, Components(env, roots), id)
  {
    var out := Components(env, roots);
    WalkAllSpec(env, map[], roots);
    forall id | Reaches(env, roots, id)
      ensures id in env && Faithful(env, out, id)
    {
      var p: seq<nat> :| p != [] && Heads(roots, p[0]) && p[|p| - 1] == id && IsPath(env, p);
      PathSeen(env, roots, p);
    }
    forall n | n in out
      ensures exists id :: Reaches(env, roots, id) && Named(env, n, id)
    {
      var id :| Witness(env, roots, out, n, id);
      assert Named(env, n, id);
    }
  }

  // ---- what a schema says about its type ----

  /** How many lists a type, or arrays a schema, consists of, from the outside in. */
  function Lists(ty: RustTy): nat {
    match ty case VecOf(t) => 1 + Lists(t) case _ => 0
  }

  function Arrays(s: Schema): nat {
    match s case ArrayOf(items) => 1 + Arrays(items) case _ => 0
  }

  /** What stands inside all the lists, or arrays. */
  function Innermost(ty: RustTy): RustTy {
    match ty case VecOf(t) => Innermost(t) case _ => ty
  }

  function InnermostItems(s: Schema): Schema {
    match s case ArrayOf(items) => InnermostItems(items) case _ => s
  }

  /** The schema has an array for each list, and inside them the primitive's kind or a
      reference to the struct's name. */
  predicate Portrays(env: Env, s: Schema, ty: RustTy) {
    && Arrays(s) == Lists(ty)
    && match Innermost(ty)
       case Primitive(kind) => InnermostItems(s) == Prim(kind)
       case Struct(id) => id in env && InnermostItems(s) == RefTo(env[id].name)
       case _ => false
  }

  lemma {:induction false} SchemaPortrays(env: Env, ty: RustTy)
    requires Known(env, ty)
    ensures Portrays(env, SchemaOf(env, ty), ty)
  {
    if ty.VecOf? {
      SchemaPortrays(env, ty.elem);
    }
  }

  /** There is only one such schema. */
  lemma {:induction false} PortraitIsUnique(env: Env, a: Schema, b: Schema, ty: RustTy)
    requires Portrays(env, a, ty) && Portrays(env, b, ty)
    ensures a == b
    decreases a
  {
    if ty.VecOf? {
      PortraitIsUnique(env, a.items, b.items, ty.elem);
    }
  }

  /** The type whose schema a field has: an optional field has that of what it may hold. */
  function HeldTy(f: Field): RustTy {
    match f.ty case OptionOf(inner) => inner case _ => f.ty
  }

  /** How many of the fields must be present. */
  function Mandatory(fields: seq<Field>): nat {
    if fields == [] then 0
    else Mandatory(fields[..|fields| - 1]) + if fields[|fields| - 1].ty.OptionOf? then 0 else 1
  }

  lemma {:induction false} RequiredIffMandatory(fields: seq<Field>, json: string)
    ensures json in Required(fields) <==>
      exists i :: 0 <= i < |fields| && fields[i].json == json && !fields[i].ty.OptionOf?
    ensures |Required(fields)| == Mandatory(fields)
  {
    if fields != [] {
      var n := |fields| - 1;
      RequiredIffMandatory(fields[..n], json);
      assert fields == fields[..n] + [fields[n]];
      if i :| 0 <= i < n && fields[i].json == json && !fields[i].ty.OptionOf? {
        assert fields[..n][i] == fields[i];
      }
    }
  }

  /** The schema of a struct: a property for each JSON name and no others, portraying the last
      field of that name; and required are exactly the names of fields that are not optional. */
  lemma ObjectPortraysFields(env: Env, id: nat, json: string)
    requires WellTyped(env) && id in env
    ensures var fields, s := env[id].fields, ObjectOf(env, id);
      && s.Object?
      && (json in s.props <==> exists i :: 0 <= i < |fields| && fields[i].json == json)
      && (forall i: nat :: i < |fields| && fields[i].json == json && !Hidden(fields, i) ==>
            json in s.props && Portrays(env, s.props[json], HeldTy(fields[i])))
      && (json in s.required <==> exists i :: 0 <= i < |fields| && fields[i].json == json && !fields[i].ty.OptionOf?)
      && |s.required| == Mandatory(fields)
  {
    var fields := env[id].fields;
    RequiredIffMandatory(fields, json);
    if json in Props(env, fields) {
      PropRefs(env, fields, json);
    } else if i: nat :| i < |fields| && fields[i].json == json {
      LastOfName(fields, i);
      var n: nat :| n < |fields| && fields[n].json == json && !Hidden(fields, n);
      PropAt(env, fields, n);
    }
    forall i: nat | i < |fields| && fields[i].json == json && !Hidden(fields, i)
      ensures json in Props(env, fields) && Portrays(env, Props(env, fields)[json], HeldTy(fields[i]))
    {
      PropAt(env, fields, i);
      assert FieldTys(fields)[i] == FieldTy(fields[i]) == HeldTy(fields[i]);
      SchemaPortrays(env, FieldTys(fields)[i]);
    }
  }

  lemma {:induction false} LastOfName(fields: seq<Field>, i: nat)
    requires i < |fields|
    ensures exists n: nat :: n < |fields| && fields[n].json == fields[i].json && !Hidden(fields, n)
    decreases |fields| - i
  {
    if Hidden(fields, i) {
      var n :| i < n < |fields| && fields[n].json == fields[i].json;
      LastOfName(fields, n);
    }
  }

  // ---- when names collide ----

  ghost predicate SameSchemas(env: Env, roots: seq<RustTy>)
    requires WellTyped(env)
  {
    forall i, j | Reaches(env, roots, i) && Reaches(env, roots, j) && i in env && j in env
                  && env[i].name == env[j].name :: ObjectOf(env, i) == ObjectOf(env, j)
  }

  ghost predicate AllFaithful(env: Env, roots: seq<RustTy>)
    requires WellTyped(env) && AllKnown(env, roots)
  {
    forall id :: Reaches(env, roots, id) && id in env ==> Faithful(env, Components(env, roots), id)
  }

  /** A later field of the same JSON name replaces the property of field `i`. */
  predicate Hidden(fields: seq<Field>, i: nat) {
    i < |fields| && exists n :: i < n < |fields| && fields[n].json == fields[i].json
  }

  /** The structs that only a hidden field mentions are registered all the same. */
  ghost predicate HiddenCovered(env: Env, roots: seq<RustTy>)
    requires WellTyped(env) && AllKnown(env, roots)
  {
    forall id, i: nat | Reaches(env, roots, id) && id in env && Hidden(env[id].fields, i) ::
      CoveredTy(env, roots, FieldTy(env[id].fields[i]))
  }

  ghost predicate CoveredTy(env: Env, roots: seq<RustTy>, ty: RustTy)
    requires WellTyped(env) && AllKnown(env, roots)
  {
    match IdOf(ty) case Some(j) => j in env ==> env[j].name in Components(env, roots) case None => true
  }

  /** No two fields of one struct share a JSON name: nothing is hidden. */
  predicate DistinctJson(env: Env) {
    forall id :: id in env ==>
      forall i, j :: 0 <= i < j < |env[id].fields| ==> env[id].fields[i].json != env[id].fields[j].json
  }

  lemma DistinctJsonHidesNothing(env: Env, roots: seq<RustTy>)
    requires WellTyped(env) && AllKnown(env, roots) && DistinctJson(env)
    ensures HiddenCovered(env, roots)
  {
  }

  /** A field that is not hidden is the property of its name. */
  lemma {:induction false} PropAt(env: Env, fields: seq<Field>, i: nat)
    requires AllKnown(env, FieldTys(fields)) && i < |fields| && !Hidden(fields, i)
    ensures fields[i].json in Props(env, fields)
    ensures Props(env, fields)[fields[i].json] == SchemaOf(env, FieldTys(fields)[i])
  {
    var front, last := fields[..|fields| - 1], fields[|fields| - 1];
    assert forall m :: 0 <= m < |front| ==> FieldTys(front)[m] == FieldTys(fields)[m];
    if i < |front| {
      assert !Hidden(front, i) by {
        assert forall n :: 0 <= n < |front| ==> front[n] == fields[n];
      }
      PropAt(env, front, i);
      assert front[i].json != last.json;
    }
  }

  /** Structs with equal schemas refer to the same names. */
  lemma SameSchemaSameRefs(env: Env, i: nat, j: nat, m: nat, out: map<string, Schema>)
    requires WellTyped(env) && i in env && j in env && ObjectOf(env, i) == ObjectOf(env, j)
    requires FieldsSeen(env, j, out) && m < |env[i].fields| && !Hidden(env[i].fields, m)
    requires IdOf(FieldTy(env[i].fields[m])).Some? && IdOf(FieldTy(env[i].fields[m])).value in env
    ensures env[IdOf(FieldTy(env[i].fields[m])).value].name in out
  {
    var fields := env[i].fields;
    PropAt(env, fields, m);
    SchemaRef(env, FieldTys(fields)[m]);
    FieldRefSeen(env, j, fields[m].json, out);
  }

  lemma {:induction false} PathFaithful(env: Env, roots: seq<RustTy>, p: seq<nat>)
    requires WellTyped(env) && AllKnown(env, roots) && SameSchemas(env, roots) && HiddenCovered(env, roots)
    requires p != [] && Heads(roots, p[0]) && IsPath(env, p)
    ensures Faithful(env, Components(env, roots), p[|p| - 1])
    decreases |p|
  {
    var out, last := Components(env, roots), p[|p| - 1];
    assert Reaches(env, roots, last);
    if |p| == 1 {
      HeadName(env, roots, last);
    } else {
      var prev := p[|p| - 2];
      PathFront(env, roots, p);
      PathFaithful(env, roots, p[..|p| - 1]);
      var fields := env[prev].fields;
      var m :| 0 <= m < |FieldTys(fields)| && IdOf(FieldTys(fields)[m]) == Some(last);
      if Hidden(fields, m) {
        assert CoveredTy(env, roots, FieldTy(fields[m]));
      } else {
        var id := NameWitness(env, roots, env[prev].name);
        SameSchemaSameRefs(env, prev, id, m, out);
      }
    }
    var id := NameWitness(env, roots, env[last].name);
    assert ObjectOf(env, id) == ObjectOf(env, last);
  }

  lemma FaithfulCoversHidden(env: Env, roots: seq<RustTy>)
    requires WellTyped(env) && AllKnown(env, roots) && AllFaithful(env, roots)
    ensures HiddenCovered(env, roots)
  {
    forall id, i: nat | Reaches(env, roots, id) && id in env && Hidden(env[id].fields, i)
      ensures CoveredTy(env, roots, FieldTy(env[id].fields[i]))
    {
      var fields := env[id].fields;
      var ty := FieldTys(fields)[i];
      if IdOf(ty).Some? && IdOf(ty).value in env {
        assert Edge(env, id, IdOf(ty).value);
        ReachSnoc(env, roots, id, IdOf(ty).value);
      }
    }
  }

  /** Two structs of the same name silently share one entry. Each struct within reach still
      finds its own schema if and only if same-named structs within reach have equal schemas
      and whatever a hidden field mentions is registered through some other one. */
  lemma FaithfulIffHiddenCovered(env: Env, roots: seq<RustTy>)
    requires WellTyped(env) && AllKnown(env, roots)
    ensures AllFaithful(env, roots) <==> SameSchemas(env, roots) && HiddenCovered(env, roots)
  {
    if AllFaithful(env, roots) {
      FaithfulCoversHidden(env, roots);
    } else if SameSchemas(env, roots) && HiddenCovered(env, roots) {
      forall id | Reaches(env, roots, id) && id in env
        ensures Faithful(env, Components(env, roots), id)
      {
        var p: seq<nat> :| p != [] && Heads(roots, p[0]) && p[|p| - 1] == id && IsPath(env, p);
        PathFaithful(env, roots, p);
      }
    }
  }

  /** In a program in which no struct repeats a JSON name: every struct within reach finds its
      own schema if and only if same-named structs within reach have equal ones. */
  lemma FaithfulIffSameSchemas(env: Env, roots: seq<RustTy>)
    requires WellTyped(env) && AllKnown(env, roots) && DistinctJson(env)
    ensures AllFaithful(env, roots) <==> SameSchemas(env, roots)
  {
    DistinctJsonHidesNothing(env, roots);
    FaithfulIffHiddenCovered(env, roots);
  }

  // ---- the same for programs that repeat JSON names, read off the program alone ----

  predicate Mentions(env: Env, i: nat, n: string) {
    exists v :: v in env && Edge(env, i, v) && env[v].name == n
  }

  /** Whichever struct of its name the walk enters, it finds a mention of `j`'s name. */
  ghost predicate SolidEdge(env: Env, roots: seq<RustTy>, i: nat, j: nat) {
    && i in env && j in env && Edge(env, i, j)
    && forall x | Reaches(env, roots, x) && x in env && env[x].name == env[i].name :: Mentions(env, x, env[j].name)
  }

  ghost predicate IsSolidPath(env: Env, roots: seq<RustTy>, p: seq<nat>) {
    && p != [] && Heads(roots, p[0]) && IsPath(env, p)
    && forall i :: 0 <= i < |p| - 1 ==> SolidEdge(env, roots, p[i], p[i + 1])
  }

  /** Every name within reach is reached by mentions that do not depend on which of several
      same-named structs is met first. */
  ghost predicate NamesSolid(env: Env, roots: seq<RustTy>) {
    forall id | Reaches(env, roots, id) && id in env :: SolidlyNamed(env, roots, env[id].name)
  }

  ghost predicate SolidlyNamed(env: Env, roots: seq<RustTy>, n: string) {
    exists p :: IsSolidPath(env, roots, p) && env[p[|p| - 1]].name == n
  }

  lemma SolidFront(env: Env, roots: seq<RustTy>, p: seq<nat>)
    requires IsSolidPath(env, roots, p) && |p| > 1
    ensures IsSolidPath(env, roots, p[..|p| - 1]) && SolidEdge(env, roots, p[|p| - 2], p[|p| - 1])
  {
    PathFront(env, roots, p);
    var q := p[..|p| - 1];
    assert forall i :: 0 <= i < |q| ==> q[i] == p[i];
  }

  lemma {:induction false} SolidPathSeen(env: Env, roots: seq<RustTy>, p: seq<nat>)
    requires WellTyped(env) && AllKnown(env, roots) && IsSolidPath(env, roots, p)
    ensures env[p[|p| - 1]].name in Components(env, roots)
    decreases |p|
  {
    var last := p[|p| - 1];
    if |p| == 1 {
      HeadName(env, roots, last);
    } else {
      var prev := p[|p| - 2];
      SolidFront(env, roots, p);
      SolidPathSeen(env, roots, p[..|p| - 1]);
      var x := NameWitness(env, roots, env[prev].name);
      assert Mentions(env, x, env[last].name);
      var v :| v in env && Edge(env, x, v) && env[v].name == env[last].name;
    }
  }

  /** A name that is registered finds the schema of any of its structs, if they agree. */
  lemma AgreeingNames(env: Env, roots: seq<RustTy>, id: nat)
    requires WellTyped(env) && AllKnown(env, roots) && SameSchemas(env, roots)
    requires Reaches(env, roots, id) && id in env && env[id].name in Components(env, roots)
    ensures Faithful(env, Components(env, roots), id)
  {
    var x := NameWitness(env, roots, env[id].name);
    assert ObjectOf(env, x) == ObjectOf(env, id);
  }

  /** Whatever is repeated or hidden: when every name is reached by solid mentions, every
      struct within reach finds its own schema if and only if same-named ones have equal ones. */
  lemma FaithfulWhenNamesSolid(env: Env, roots: seq<RustTy>)
    requires WellTyped(env) && AllKnown(env, roots) && NamesSolid(env, roots)
    ensures forall id :: Reaches(env, roots, id) && id in env ==> env[id].name in Components(env, roots)
    ensures AllFaithful(env, roots) <==> SameSchemas(env, roots)
  {
    forall id | Reaches(env, roots, id) && id in env
      ensures env[id].name in Components(env, roots)
      ensures SameSchemas(env, roots) ==> Faithful(env, Components(env, roots), id)
    {
      assert SolidlyNamed(env, roots, env[id].name);
      var p :| IsSolidPath(env, roots, p) && env[p[|p| - 1]].name == env[id].name;
      SolidPathSeen(env, roots, p);
      if SameSchemas(env, roots) {
        AgreeingNames(env, roots, id);
      }
    }
    FaithfulIffHiddenCovered(env, roots);
  }

  /** Structs with equal schemas mention the same names in the fields that are not hidden. */
  lemma SharedMention(env: Env, i: nat, x: nat, m: nat)
    requires WellTyped(env) && i in env && x in env && ObjectOf(env, i) == ObjectOf(env, x)
    requires m < |env[i].fields| && !Hidden(env[i].fields, m)
    requires IdOf(FieldTy(env[i].fields[m])).Some? && IdOf(FieldTy(env[i].fields[m])).value in env
    ensures Mentions(env, x, env[IdOf(FieldTy(env[i].fields[m])).value].name)
  {
    var fields, others := env[i].fields, env[x].fields;
    var json := fields[m].json;
    PropAt(env, fields, m);
    SchemaRef(env, FieldTys(fields)[m]);
    PropRefs(env, others, json);
    var n :| 0 <= n < |others| && others[n].json == json
             && Props(env, others)[json] == SchemaOf(env, FieldTy(others[n]));
    var ty := FieldTys(others)[n];
    SchemaRef(env, ty);
    assert Heads(FieldTys(others), IdOf(ty).value);
    assert Edge(env, x, IdOf(ty).value);
  }

  /** What a hidden field mentions is reached by solid mentions all the same. */
  ghost predicate HiddenSolid(env: Env, roots: seq<RustTy>) {
    forall id, i: nat, j | Reaches(env, roots, id) && id in env && Hidden(env[id].fields, i)
                           && IdOf(FieldTy(env[id].fields[i])) == Some(j) && j in env ::
      SolidlyNamed(env, roots, env[j].name)
  }

  lemma SolidSnoc(env: Env, roots: seq<RustTy>, q: seq<nat>, v: nat)
    requires IsSolidPath(env, roots, q) && SolidEdge(env, roots, q[|q| - 1], v)
    ensures IsSolidPath(env, roots, q + [v])
  {
    var r := q + [v];
    forall i | 0 <= i < |r| - 1
      ensures SolidEdge(env, roots, r[i], r[i + 1])
    {
      if i < |q| - 1 { assert SolidEdge(env, roots, q[i], q[i + 1]); }
    }
    assert forall i :: 0 <= i < |r| - 1 ==> Edge(env, r[i], r[i + 1]);
  }

  /** A visible mention can be followed from any struct of the same name. */
  lemma VisibleStep(env: Env, roots: seq<RustTy>, q: seq<nat>, i: nat, m: nat, j: nat)
    requires WellTyped(env) && SameSchemas(env, roots) && IsSolidPath(env, roots, q)
    requires Reaches(env, roots, i) && i in env && j in env && env[q[|q| - 1]].name == env[i].name
    requires m < |env[i].fields| && !Hidden(env[i].fields, m) && IdOf(FieldTy(env[i].fields[m])) == Some(j)
    ensures SolidlyNamed(env, roots, env[j].name)
  {
    var u := q[|q| - 1];
    assert Reaches(env, roots, u);
    SharedMention(env, i, u, m);
    var v :| v in env && Edge(env, u, v) && env[v].name == env[j].name;
    forall x | Reaches(env, roots, x) && x in env && env[x].name == env[u].name
      ensures Mentions(env, x, env[v].name)
    {
      SharedMention(env, i, x, m);
    }
    SolidSnoc(env, roots, q, v);
    assert (q + [v])[|q + [v]| - 1] == v;
  }

  lemma EdgeSolid(env: Env, roots: seq<RustTy>, i: nat, j: nat)
    requires WellTyped(env) && SameSchemas(env, roots) && HiddenSolid(env, roots)
    requires Reaches(env, roots, i) && i in env && j in env && Edge(env, i, j)
    requires SolidlyNamed(env, roots, env[i].name)
    ensures SolidlyNamed(env, roots, env[j].name)
  {
    var fields := env[i].fields;
    var m :| 0 <= m < |FieldTys(fields)| && IdOf(FieldTys(fields)[m]) == Some(j);
    if !Hidden(fields, m) {
      var q :| IsSolidPath(env, roots, q) && env[q[|q| - 1]].name == env[i].name;
      VisibleStep(env, roots, q, i, m, j);
    }
  }

  lemma {:induction false} PathSolid(env: Env, roots: seq<RustTy>, p: seq<nat>)
    requires WellTyped(env) && AllKnown(env, roots) && SameSchemas(env, roots) && HiddenSolid(env, roots)
    requires p != [] && Heads(roots, p[0]) && IsPath(env, p)
    ensures SolidlyNamed(env, roots, env[p[|p| - 1]].name)
    decreases |p|
  {
    if |p| == 1 {
      assert IsSolidPath(env, roots, p);
    } else {
      PathFront(env, roots, p);
      PathSolid(env, roots, p[..|p| - 1]);
      EdgeSolid(env, roots, p[|p| - 2], p[|p| - 1]);
    }
  }

  /** For programs that repeat JSON names, on the program alone: if what hidden fields mention
      is reached by other mentions too, equal schemas for equal names are enough. */
  lemma FaithfulWhenHiddenSolid(env: Env, roots: seq<RustTy>)
    requires WellTyped(env) && AllKnown(env, roots) && HiddenSolid(env, roots)
    ensures AllFaithful(env, roots) <==> SameSchemas(env, roots)
  {
    if SameSchemas(env, roots) {
      forall id | Reaches(env, roots, id) && id in env
        ensures SolidlyNamed(env, roots, env[id].name)
      {
        var p: seq<nat> :| p != [] && Heads(roots, p[0]) && p[|p| - 1] == id && IsPath(env, p);
        PathSolid(env, roots, p);
      }
      FaithfulWhenNamesSolid(env, roots);
    } else {
      FaithfulIffHiddenCovered(env, roots);
    }
  }

  lemma TwoRoots(env: Env, i: nat, j: nat)
    requires i in env && j in env
    ensures Reaches(env, [Struct(i), Struct(j)], i) && Reaches(env, [Struct(i), Struct(j)], j)
  {
    var roots := [Struct(i), Struct(j)];
    assert IdOf(roots[0]) == Some(i) && IdOf(roots[1]) == Some(j);
    ReachSelf(env, roots, i);
    ReachSelf(env, roots, j);
  }

  /** Any two same-named structs with different schemas lose one of them when a contract
      mentions both. */
  lemma CollisionLosesSchema(env: Env, i: nat, j: nat)
    requires WellTyped(env) && i in env && j in env
    requires env[i].name == env[j].name && ObjectOf(env, i) != ObjectOf(env, j)
    ensures !AllFaithful(env, [Struct(i), Struct(j)])
  {
    TwoRoots(env, i, j);
    FaithfulIffHiddenCovered(env, [Struct(i), Struct(j)]);
  }

  /** For instance two structs called "Item", one with a string and one with an integer. */
  lemma CollisionExample(env: Env)
    requires env == map[0 := TypeDef("Item", [Field("a", Primitive("string"))])]
                    [1 := TypeDef("Item", [Field("b", Primitive("integer"))])]
    ensures WellTyped(env) && !AllFaithful(env, [Struct(0), Struct(1)])
  {
    OneRequired("a", Primitive("string"));
    OneRequired("b", Primitive("integer"));
    assert ObjectOf(env, 0).required[0] != ObjectOf(env, 1).required[0];
    CollisionLosesSchema(env, 0, 1);
  }

  /** Of two structs with the same name the second is skipped, with everything below it. */
  lemma SecondIsSkipped(env: Env, i: nat, j: nat)
    requires WellTyped(env) && i in env && j in env && env[i].name == env[j].name
    requires forall m :: 0 <= m < |FieldTys(env[i].fields)| ==> FieldTys(env[i].fields)[m].Primitive?
    ensures Components(env, [Struct(i), Struct(j)]) == map[env[i].name := ObjectOf(env, i)]
  {
    var once: map<string, Schema> := map[env[i].name := ObjectOf(env, i)];
    var roots := [Struct(i), Struct(j)];
    PrimitivesAddNothing(env, once, FieldTys(env[i].fields));
    WalkAllStep(env, map[], roots, 0);
    WalkAllStep(env, once, roots, 1);
    assert map[][env[i].name := ObjectOf(env, i)] == once;
    assert roots[0..] == roots && roots[2..] == [];
  }

  lemma UnregisteredIsNotSolid(env: Env, roots: seq<RustTy>, b: nat)
    requires WellTyped(env) && AllKnown(env, roots) && Reaches(env, roots, b) && b in env
    requires env[b].name !in Components(env, roots)
    ensures !NamesSolid(env, roots)
  {
    if NamesSolid(env, roots) {
      FaithfulWhenNamesSolid(env, roots);
    }
  }

  /** So a struct that only a replaced field of the second one mentions goes unregistered,
      even if both have the same schema. */
  lemma HiddenFieldLosesStruct(env: Env, i: nat, j: nat, m: nat, b: nat)
    requires WellTyped(env) && i in env && j in env && env[i].name == env[j].name
    requires forall n :: 0 <= n < |FieldTys(env[i].fields)| ==> FieldTys(env[i].fields)[n].Primitive?
    requires Hidden(env[j].fields, m) && IdOf(FieldTy(env[j].fields[m])) == Some(b)
    requires b in env && env[b].name != env[i].name
    ensures Reaches(env, [Struct(i), Struct(j)], b) && env[b].name !in Components(env, [Struct(i), Struct(j)])
    ensures !HiddenCovered(env, [Struct(i), Struct(j)]) && !NamesSolid(env, [Struct(i), Struct(j)])
  {
    var roots := [Struct(i), Struct(j)];
    SecondIsSkipped(env, i, j);
    assert IdOf(roots[1]) == Some(j) && IdOf(FieldTys(env[j].fields)[m]) == Some(b);
    ReachSelf(env, roots, j);
    assert Edge(env, j, b);
    ReachSnoc(env, roots, j, b);
    assert !CoveredTy(env, roots, FieldTy(env[j].fields[m]));
    UnregisteredIsNotSolid(env, roots, b);
  }

  lemma {:induction false} PrimitivesAddNothing(env: Env, out: map<string, Schema>, tys: seq<RustTy>)
    requires WellTyped(env) && AllKnown(env, tys) && forall i :: 0 <= i < |tys| ==> tys[i].Primitive?
    ensures WalkAll(env, out, tys) == out
    decreases |tys|
  {
    if tys != [] {
      PrimitivesAddNothing(env, out, tys[1..]);
    }
  }

  lemma OneRequired(json: string, ty: RustTy)
    requires !ty.OptionOf?
    ensures Required([Field(json, ty)]) == [json]
  {
    assert [Field(json, ty)][..0] == [];
  }

  // ---- the generated code ----

  /** The object schema of a struct, built field by field. */
  method BuildObject(env: Env, fields: seq<Field>) returns (r: Schema)
    requires AllKnown(env, FieldTys(fields))
    ensures r == Object(Required(fields), Props(env, fields))
  {
    var props: map<string, Schema>, required: seq<string> := map[], [];
    for i := 0 to |fields|
      invariant AllKnown(env, FieldTys(fields[..i]))
      invariant props == Props(env, fields[..i]) && required == Required(fields[..i])
    {
      assert fields[..i + 1][..i] == fields[..i] && fields[..i + 1][i] == fields[i];
      assert FieldTys(fields)[i] == FieldTy(fields[i]);
      assert forall n :: 0 <= n <= i ==> FieldTys(fields[..i + 1])[n] == FieldTys(fields)[n];
      var (fieldTy, optional) := UnwrapOption(fields[i].ty);
      props := props[fields[i].json := SchemaOf(env, fieldTy)];
      if !optional {
        required := required + [fields[i].json];
      }
    }
    assert fields[..|fields|] == fields;
    r := Object(required, props);
  }

  lemma WalkAllStep(env: Env, out: map<string, Schema>, tys: seq<RustTy>, i: nat)
    requires WellTyped(env) && AllKnown(env, tys) && i < |tys|
    ensures WalkAll(env, out, tys[i..]) == WalkAll(env, Walk(env, out, tys[i]), tys[i + 1..])
  {
    assert tys[i..][0] == tys[i] && tys[i..][1..] == tys[i + 1..];
  }

  class ComponentMap {
    var out: map<string, Schema>

    constructor ()
      ensures out == map[]
    {
      out := map[];
    }

    /** Generated for each struct; lists forward to their element, primitives do nothing. */
    method Components(env: Env, ty: RustTy)
      requires WellTyped(env) && Known(env, ty)
      modifies this
      ensures out == Walk(env, old(out), ty)
      decreases Unseen(env, out), ty
    {
      match ty
      case Primitive(_) =>
      case VecOf(t) =>
        Components(env, t);
      case Struct(id) =>
        var name := env[id].name;
        if name in out {
          return;
        }
        var schema := BuildObject(env, env[id].fields);
        ghost var before := out;
        out := out[name := schema];
        assert name in Names(env);
        UnseenShrinks(env, before, out);
        NestedComponents(env, env[id].fields);
    }

    /** The tail of the generated function: one call per field. */
    method NestedComponents(env: Env, fields: seq<Field>)
      requires WellTyped(env) && AllKnown(env, FieldTys(fields))
      modifies this
      ensures out == WalkAll(env, old(out), FieldTys(fields))
      decreases Unseen(env, out)
    {
      ghost var tys := FieldTys(fields);
      ghost var first := out;
      for i := 0 to |fields|
        invariant first.Keys <= out.Keys
        invariant WalkAll(env, out, tys[i..]) == WalkAll(env, first, tys)
      {
        WalkAllStep(env, out, tys, i);
        UnseenShrinks(env, first, out);
        assert tys[i] == FieldTy(fields[i]) && Known(env, tys[i]);
        Components(env, FieldTy(fields[i]));
      }
    }
  }
}
