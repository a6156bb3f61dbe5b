/** The code generated for a contract: routing of calls, and the metadata document that
    describes it. */
module Dispatch {
  import opened Wire
  import opened Schemas
  import opened Utf8
  import opened Protocol

  datatype Param = Param(name: string, ty: RustTy)

  /** One annotated method. `result` is absent for a unit result. */
  datatype TxMethod = TxMethod(wire: string, evaluate: bool, params: seq<Param>, result: Option<RustTy>)

  type Contract = seq<TxMethod>

  /** Lossy text decoding and argument parsing are library behaviour. */
  datatype Codec = Codec(text: Bytes -> string, parse: (RustTy, Bytes) -> Option<Bytes>)

  // ---- routing ----

  /** What follows the last colon; the whole text if there is none. */
  function LastSegment(s: string): string {
    if ':' !in s then s
    else if s[0] == ':' && ':' !in s[1..] then s[1..]
    else LastSegment(s[1..])
  }

  function ArmFrom(c: Contract, name: string, i: nat): (r: Option<nat>)
    requires i <= |c|
    ensures r.Some? ==> i <= r.value < |c|
    decreases |c| - i
  {
    if i == |c| then None else if c[i].wire == name then Some(i) else ArmFrom(c, name, i + 1)
  }

  /** What a call amounts to: user code runs only in the last case. */
  datatype Invocation =
    | NoFunction
    | Unknown(name: string)
    | WrongCount(arm: nat)
    | BadArgument(arm: nat, index: nat)
    | Runs(arm: nat, values: seq<Bytes>)

  function ParseFrom(k: Codec, m: TxMethod, arm: nat, args: seq<Bytes>, i: nat, values: seq<Bytes>): Invocation
    requires i <= |m.params| && |args| == |m.params| + 1
    decreases |m.params| - i
  {
    if i == |m.params| then Runs(arm, values)
    else
      match k.parse(m.params[i].ty, args[i + 1])
      case Some(v) => ParseFrom(k, m, arm, args, i + 1, values + [v])
      case None => BadArgument(arm, i)
  }

  function Invoke(c: Contract, k: Codec, args: seq<Bytes>): Invocation {
    if args == [] then NoFunction
    else
      var name := LastSegment(k.text(args[0]));
      match ArmFrom(c, name, 0)
      case None => Unknown(name)
      case Some(i) =>
        if |args| != |c[i].params| + 1 then WrongCount(i) else ParseFrom(k, c[i], i, args, 0, [])
  }

  lemma {:induction false} ArmSpec(c: Contract, name: string, i: nat)
    requires i <= |c|
    ensures match ArmFrom(c, name, i)
            case Some(j) => i <= j < |c| && c[j].wire == name && forall n :: i <= n < j ==> c[n].wire != name
            case None => forall n :: i <= n < |c| ==> c[n].wire != name
    decreases |c| - i
  {
    if i < |c| && c[i].wire != name {
      ArmSpec(c, name, i + 1);
    }
  }

  predicate AllParse(k: Codec, ps: seq<Param>, args: seq<Bytes>)
    requires |args| == |ps| + 1
  {
    forall i :: 0 <= i < |ps| ==> k.parse(ps[i].ty, args[i + 1]).Some?
  }

  lemma {:induction false} ParseSpec(k: Codec, m: TxMethod, arm: nat, args: seq<Bytes>, i: nat, values: seq<Bytes>)
    requires i <= |m.params| && |args| == |m.params| + 1 && |values| == i
    requires forall j :: 0 <= j < i ==> k.parse(m.params[j].ty, args[j + 1]) == Some(values[j])
    ensures var r := ParseFrom(k, m, arm, args, i, values);
      match r
      case Runs(n, vs) =>
        && n == arm && |vs| == |m.params|
        && forall j :: 0 <= j < |vs| ==> k.parse(m.params[j].ty, args[j + 1]) == Some(vs[j])
      case BadArgument(n, bad) =>
        && n == arm && bad < |m.params| && k.parse(m.params[bad].ty, args[bad + 1]).None?
        && forall j :: 0 <= j < bad ==> k.parse(m.params[j].ty, args[j + 1]).Some?
      case _ => false
    decreases |m.params| - i
  {
    if i < |m.params| {
      match k.parse(m.params[i].ty, args[i + 1])
      case Some(v) => ParseSpec(k, m, arm, args, i + 1, values + [v]);
      case None =>
    }
  }

  // ---- the document ----

  datatype MetaTx = MetaTx(name: string, tag: string, parameters: seq<(string, Schema)>, result: Option<Schema>)
  datatype Metadata = Metadata(transactions: seq<MetaTx>, components: map<string, Schema>)

  /** Types a contract mentions, in the order their components are registered. */
  function TypesOfTx(t: TxMethod): seq<RustTy> {
    seq(|t.params|, i requires 0 <= i < |t.params| => t.params[i].ty)
    + match t.result case Some(ty) => [ty] case None => []
  }

  function TypesOf(c: Contract): seq<RustTy> {
    if c == [] then [] else TypesOfTx(c[0]) + TypesOf(c[1..])
  }

  predicate TxKnown(env: Env, t: TxMethod) {
    AllKnown(env, TypesOfTx(t))
  }

  lemma ParamKnown(env: Env, t: TxMethod, i: nat)
    requires TxKnown(env, t) && i < |t.params|
    ensures Known(env, t.params[i].ty)
  {
    assert TypesOfTx(t)[i] == t.params[i].ty;
  }

  lemma ReturnKnown(env: Env, t: TxMethod)
    requires TxKnown(env, t) && t.result.Some?
    ensures Known(env, t.result.value)
  {
    assert TypesOfTx(t)[|t.params|] == t.result.value;
  }

  predicate DescribesParam(env: Env, entry: (string, Schema), p: Param) {
    entry.0 == p.name && Known(env, p.ty) && entry.1 == SchemaOf(env, p.ty)
  }

  /** What the document says about one transaction. */
  predicate Describes(env: Env, m: MetaTx, t: TxMethod)
    requires TxKnown(env, t)
  {
    && m.name == t.wire && m.tag == (if t.evaluate then "evaluate" else "submit")
    && |m.parameters| == |t.params|
    && (forall i | 0 <= i < |t.params| :: DescribesParam(env, m.parameters[i], t.params[i]))
    && match t.result
       case None => m.result == None
       case Some(ty) => Known(env, ty) && m.result == Some(SchemaOf(env, ty))
  }

  method BuildTx(env: Env, t: TxMethod) returns (m: MetaTx)
    requires TxKnown(env, t)
    ensures Describes(env, m, t)
  {
    var parameters: seq<(string, Schema)> := [];
    for i := 0 to |t.params|
      invariant |parameters| == i
      invariant forall j | 0 <= j < i :: DescribesParam(env, parameters[j], t.params[j])
    {
      ParamKnown(env, t, i);
      parameters := parameters + [(t.params[i].name, SchemaOf(env, t.params[i].ty))];
    }
    var result: Option<Schema> := None;
    if t.result.Some? {
      ReturnKnown(env, t);
      result := Some(SchemaOf(env, t.result.value));
    }
    m := MetaTx(t.wire, if t.evaluate then "evaluate" else "submit", parameters, result);
  }

  lemma {:induction false} TypesSplit(c: Contract, i: nat)
    requires i < |c|
    ensures TypesOf(c[..i + 1]) == TypesOf(c[..i]) + TypesOfTx(c[i])
  {
    if i == 0 {
      assert c[..1] == [c[0]] && c[..0] == [] && [c[0]][1..] == [];
    } else {
      TypesSplit(c[1..], i - 1);
      assert c[..i + 1][1..] == c[1..][..i] && c[..i][1..] == c[1..][..i - 1];
      assert TypesOfTx(c[0]) + TypesOf(c[1..][..i]) == TypesOfTx(c[0]) + TypesOf(c[1..][..i - 1]) + TypesOfTx(c[i]);
    }
  }

  lemma {:induction false} WalkAppend(env: Env, out: map<string, Schema>, a: seq<RustTy>, b: seq<RustTy>)
    requires WellTyped(env) && AllKnown(env, a) && AllKnown(env, b)
    ensures AllKnown(env, a + b)
    ensures WalkAll(env, out, a + b) == WalkAll(env, WalkAll(env, out, a), b)
    decreases |a|
  {
    if a == [] {
      assert a + b == b;
    } else {
      WalkAppend(env, Walk(env, out, a[0]), a[1..], b);
      assert (a + b)[0] == a[0] && (a + b)[1..] == a[1..] + b;
    }
  }

  lemma WalkOneMore(env: Env, out: map<string, Schema>, tys: seq<RustTy>, j: nat)
    requires WellTyped(env) && AllKnown(env, tys) && j < |tys|
    ensures WalkAll(env, out, tys[..j + 1]) == Walk(env, WalkAll(env, out, tys[..j]), tys[j])
  {
    assert tys[..j + 1] == tys[..j] + [tys[j]];
    WalkAppend(env, out, tys[..j], [tys[j]]);
    assert [tys[j]][1..] == [];
  }

  method RegisterTypes(env: Env, components: ComponentMap, tys: seq<RustTy>)
    requires WellTyped(env) && AllKnown(env, tys)
    modifies components
    ensures components.out == WalkAll(env, old(components.out), tys)
  {
    for j := 0 to |tys|
      invariant components.out == WalkAll(env, old(components.out), tys[..j])
    {
      WalkOneMore(env, old(components.out), tys, j);
      components.Components(env, tys[j]);
    }
    assert tys[..|tys|] == tys;
  }

  lemma {:induction false} TypesKnown(env: Env, c: Contract)
    requires forall i :: 0 <= i < |c| ==> TxKnown(env, c[i])
    ensures AllKnown(env, TypesOf(c))
  {
    if c != [] {
      assert TxKnown(env, c[0]);
      TypesKnown(env, c[1..]);
    }
  }

  /** Component registrations come first, transaction by transaction. */
  method BuildComponents(env: Env, c: Contract) returns (out: map<string, Schema>)
    requires WellTyped(env) && forall i :: 0 <= i < |c| ==> TxKnown(env, c[i])
    ensures AllKnown(env, TypesOf(c)) && out == Components(env, TypesOf(c))
  {
    var components := new ComponentMap();
    TypesKnown(env, c);
    for i := 0 to |c|
      invariant AllKnown(env, TypesOf(c[..i]))
      invariant components.out == Components(env, TypesOf(c[..i]))
    {
      assert TxKnown(env, c[i]);
      TypesSplit(c, i);
      WalkAppend(env, map[], TypesOf(c[..i]), TypesOfTx(c[i]));
      RegisterTypes(env, components, TypesOfTx(c[i]));
    }
    assert c[..|c|] == c;
    out := components.out;
  }

  /** The generated metadata function. */
  method BuildMetadata(env: Env, c: Contract) returns (d: Metadata)
    requires WellTyped(env) && forall i :: 0 <= i < |c| ==> TxKnown(env, c[i])
    ensures Listed(env, c, d)
    ensures AllKnown(env, TypesOf(c)) && d.components == Components(env, TypesOf(c))
  {
    var components := BuildComponents(env, c);
    var transactions: seq<MetaTx> := [];
    for i := 0 to |c|
      invariant |transactions| == i
      invariant forall j :: 0 <= j < i ==> TxKnown(env, c[j]) && Describes(env, transactions[j], c[j])
    {
      assert TxKnown(env, c[i]);
      var m := BuildTx(env, c[i]);
      transactions := transactions + [m];
    }
    d := Metadata(transactions, components);
  }

  /** The document portrays the types of every transaction: each parameter's, in order and
      under its name, and the result's. */
  lemma DocumentPortraysTypes(env: Env, c: Contract, d: Metadata, i: nat)
    requires Listed(env, c, d) && i < |c|
    ensures var m, t := d.transactions[i], c[i];
      && m.name == t.wire && m.tag == (if t.evaluate then "evaluate" else "submit")
      && |m.parameters| == |t.params|
      && (forall n :: 0 <= n < |t.params| ==>
            m.parameters[n].0 == t.params[n].name && Portrays(env, m.parameters[n].1, t.params[n].ty))
      && match t.result
         case None => m.result == None
         case Some(ty) => m.result.Some? && Portrays(env, m.result.value, ty)
  {
    var m, t := d.transactions[i], c[i];
    assert TxKnown(env, t) && Describes(env, m, t);
    forall n | 0 <= n < |t.params|
      ensures m.parameters[n].0 == t.params[n].name && Portrays(env, m.parameters[n].1, t.params[n].ty)
    {
      assert DescribesParam(env, m.parameters[n], t.params[n]);
      SchemaPortrays(env, t.params[n].ty);
    }
    if t.result.Some? {
      SchemaPortrays(env, t.result.value);
    }
  }

  /** The types of a contract are those of its parameters and results. */
  lemma {:induction false} TypesOfContract(c: Contract, ty: RustTy)
    ensures ty in TypesOf(c) <==>
      exists i :: 0 <= i < |c| && Mentioned(c[i], ty)
  {
    if c != [] {
      TypesOfContract(c[1..], ty);
      TypesOfOne(c[0], ty);
      assert c == [c[0]] + c[1..];
      if i :| 0 <= i < |c| - 1 && Mentioned(c[1..][i], ty) {
        assert Mentioned(c[i + 1], ty);
      }
      if i :| 0 <= i < |c| && Mentioned(c[i], ty) {
        if i > 0 { assert Mentioned(c[1..][i - 1], ty); }
      }
    }
  }

  predicate Mentioned(t: TxMethod, ty: RustTy) {
    (exists n :: 0 <= n < |t.params| && t.params[n].ty == ty) || t.result == Some(ty)
  }

  lemma TypesOfOne(t: TxMethod, ty: RustTy)
    ensures ty in TypesOfTx(t) <==> Mentioned(t, ty)
  {
    var front := seq(|t.params|, i requires 0 <= i < |t.params| => t.params[i].ty);
    assert ty in front <==> exists n :: 0 <= n < |t.params| && t.params[n].ty == ty by {
      if n :| 0 <= n < |t.params| && t.params[n].ty == ty {
        assert front[n] == ty;
      }
    }
  }

  /** Every reference in the whole document resolves in it. */
  lemma DocumentIsClosed(env: Env, c: Contract, d: Metadata)
    requires WellTyped(env) && Listed(env, c, d) && AllKnown(env, TypesOf(c))
    requires d.components == Components(env, TypesOf(c))
    ensures forall i, n :: 0 <= i < |c| && 0 <= n < |c[i].params| ==> Resolves(d, d.transactions[i].parameters[n].1)
    ensures forall i :: 0 <= i < |c| && c[i].result.Some? ==>
      d.transactions[i].result.Some? && Resolves(d, d.transactions[i].result.value)
    ensures forall name, key | name in d.components && d.components[name].Object?
                               && key in d.components[name].props :: Resolves(d, d.components[name].props[key])
  {
    EveryRefResolves(env, TypesOf(c));
    forall i, n | 0 <= i < |c| && 0 <= n < |c[i].params|
      ensures Resolves(d, d.transactions[i].parameters[n].1)
    {
      assert DescribesParam(env, d.transactions[i].parameters[n], c[i].params[n]);
      TypeResolves(env, c, d, c[i].params[n].ty);
    }
    forall i | 0 <= i < |c| && c[i].result.Some?
      ensures d.transactions[i].result.Some? && Resolves(d, d.transactions[i].result.value)
    {
      assert Describes(env, d.transactions[i], c[i]);
      TypeResolves(env, c, d, c[i].result.value);
    }
  }

  predicate Resolves(d: Metadata, s: Schema) {
    RefOf(s).Some? ==> RefOf(s).value in d.components
  }

  lemma TypeResolves(env: Env, c: Contract, d: Metadata, ty: RustTy)
    requires WellTyped(env) && AllKnown(env, TypesOf(c)) && d.components == Components(env, TypesOf(c))
    requires Known(env, ty) && exists i :: 0 <= i < |c| && Mentioned(c[i], ty)
    ensures Resolves(d, SchemaOf(env, ty))
  {
    TypesOfContract(c, ty);
    var i :| 0 <= i < |TypesOf(c)| && TypesOf(c)[i] == ty;
    EveryRefResolves(env, TypesOf(c));
  }

  // ---- routing agrees with the document ----

  predicate Listed(env: Env, c: Contract, d: Metadata) {
    && (forall i :: 0 <= i < |c| ==> TxKnown(env, c[i]))
    && |d.transactions| == |c| && forall i :: 0 <= i < |c| ==> Describes(env, d.transactions[i], c[i])
  }

  /** The call names method `i` as listed: the last segment of the first argument is its listed
      name and no earlier listed name, there are as many further arguments as listed
      parameters, and all of them parse as the method's types. */
  predicate Names(c: Contract, d: Metadata, k: Codec, args: seq<Bytes>, i: nat)
    requires i < |c| == |d.transactions| && |d.transactions[i].parameters| == |c[i].params|
  {
    && args != [] && LastSegment(k.text(args[0])) == d.transactions[i].name
    && (forall j :: 0 <= j < i ==> d.transactions[j].name != d.transactions[i].name)
    && |args| == |d.transactions[i].parameters| + 1 && AllParse(k, c[i].params, args)
  }

  /** The generated code runs method `i` exactly when the call names it as listed. The values
      handed over are the parsed arguments in order. */
  lemma RunsIffListed(env: Env, c: Contract, d: Metadata, k: Codec, args: seq<Bytes>, i: nat)
    requires Listed(env, c, d) && i < |c|
    ensures Describes(env, d.transactions[i], c[i])
    ensures (Invoke(c, k, args).Runs? && Invoke(c, k, args).arm == i)
       <==> Names(c, d, k, args, i)
    ensures Invoke(c, k, args).Runs? ==>
      var r := Invoke(c, k, args);
      && r.arm < |c| && |r.values| == |c[r.arm].params| == |args| - 1
      && forall j :: 0 <= j < |r.values| ==> k.parse(c[r.arm].params[j].ty, args[j + 1]) == Some(r.values[j])
  {
    if args != [] {
      var name := LastSegment(k.text(args[0]));
      ArmSpec(c, name, 0);
      var arm := ArmFrom(c, name, 0);
      if arm.Some? && |args| == |c[arm.value].params| + 1 {
        ParseSpec(k, c[arm.value], arm.value, args, 0, []);
      }
    }
  }

  /** A call that runs nothing is refused for the first thing that is wrong with it: no
      argument at all, a name no method has, a count that is not the method's, or the first
      argument that does not parse; and the refusal says which. */
  lemma RefusalsAreExact(c: Contract, k: Codec, args: seq<Bytes>)
    ensures match Invoke(c, k, args)
            case NoFunction => args == []
            case Unknown(name) =>
              && args != [] && name == LastSegment(k.text(args[0]))
              && forall i :: 0 <= i < |c| ==> c[i].wire != name
            case WrongCount(i) => FirstNamed(c, k, args, i) && |args| != |c[i].params| + 1
            case BadArgument(i, n) =>
              && FirstNamed(c, k, args, i) && |args| == |c[i].params| + 1 && n < |c[i].params|
              && k.parse(c[i].params[n].ty, args[n + 1]).None?
              && forall j :: 0 <= j < n ==> k.parse(c[i].params[j].ty, args[j + 1]).Some?
            case Runs(i, values) =>
              && FirstNamed(c, k, args, i) && |args| == |c[i].params| + 1 && |values| == |c[i].params|
              && forall j :: 0 <= j < |values| ==> k.parse(c[i].params[j].ty, args[j + 1]) == Some(values[j])
  {
    if args != [] {
      var name := LastSegment(k.text(args[0]));
      ArmSpec(c, name, 0);
      var arm := ArmFrom(c, name, 0);
      if arm.Some? && |args| == |c[arm.value].params| + 1 {
        ParseSpec(k, c[arm.value], arm.value, args, 0, []);
      }
    }
  }

  /** Method `i` is the first whose name is the last segment of the first argument. */
  predicate FirstNamed(c: Contract, k: Codec, args: seq<Bytes>, i: nat) {
    && i < |c| && args != [] && c[i].wire == LastSegment(k.text(args[0]))
    && forall j :: 0 <= j < i ==> c[j].wire != c[i].wire
  }

  lemma {:induction false} LastSegmentFree(s: string)
    ensures ':' !in LastSegment(s)
    ensures ':' in s ==> exists p: string :: s == p + [':'] + LastSegment(s)
  {
    if ':' in s {
      if s[0] == ':' && ':' !in s[1..] {
        assert s == [] + [':'] + s[1..];
      } else {
        assert ':' in s[1..] by { assert s == [s[0]] + s[1..]; }
        LastSegmentFree(s[1..]);
        var p: string :| s[1..] == p + [':'] + LastSegment(s[1..]);
        assert s == ([s[0]] + p) + [':'] + LastSegment(s);
      }
    }
  }

  lemma {:induction false} NamespaceDropped(p: string, f: string)
    requires ':' !in f
    ensures LastSegment(p + [':'] + f) == f && LastSegment(f) == f
  {
    var s := p + [':'] + f;
    assert s[|p|] == ':';
    if p == [] {
      assert s[1..] == f;
    } else {
      NamespaceDropped(p[1..], f);
      assert s[1..] == p[1..] + [':'] + f && s[1..][|p| - 1] == ':';
    }
  }

  /** Any namespace before a colon-free name is irrelevant to the generated routing. */
  lemma NamespaceIsIrrelevant(c: Contract, k: Codec, args: seq<Bytes>, others: seq<Bytes>, p: string, f: string)
    requires ':' !in f && args != [] && others != [] && args[1..] == others[1..]
    requires k.text(args[0]) == f && k.text(others[0]) == p + [':'] + f
    ensures Invoke(c, k, args) == Invoke(c, k, others)
  {
    NamespaceDropped(p, f);
    assert args == [args[0]] + args[1..] && others == [others[0]] + others[1..];
    ArmSpec(c, f, 0);
    if ArmFrom(c, f, 0).Some? && |args| == |c[ArmFrom(c, f, 0).value].params| + 1 {
      ParseSame(k, c[ArmFrom(c, f, 0).value], ArmFrom(c, f, 0).value, args, others, 0, []);
    }
  }

  lemma {:induction false} ParseSame(k: Codec, m: TxMethod, arm: nat, args: seq<Bytes>, others: seq<Bytes>,
                                     i: nat, values: seq<Bytes>)
    requires i <= |m.params| && |args| == |m.params| + 1 == |others| && args[1..] == others[1..]
    ensures ParseFrom(k, m, arm, args, i, values) == ParseFrom(k, m, arm, others, i, values)
    decreases |m.params| - i
  {
    if i < |m.params| {
      assert args[1..][i] == others[1..][i];
      match k.parse(m.params[i].ty, args[i + 1])
      case Some(v) => ParseSame(k, m, arm, args, others, i + 1, values + [v]);
      case None =>
    }
  }

  ghost predicate Callable(c: Contract, k: Codec, i: nat) {
    exists args :: Invoke(c, k, args).Runs? && Invoke(c, k, args).arm == i
  }

  /** Arguments exist for every parameter of the method. */
  ghost predicate Suppliable(k: Codec, m: TxMethod, values: seq<Bytes>) {
    |values| == |m.params| && forall i :: 0 <= i < |m.params| ==> k.parse(m.params[i].ty, values[i]).Some?
  }

  /** A listed transaction can be called at all if and only if its wire name is free of
      colons and no earlier method has the same name; the document lists it regardless. */
  lemma ListedIsCallableIff(env: Env, c: Contract, d: Metadata, k: Codec, i: nat, name: Bytes, values: seq<Bytes>)
    requires Listed(env, c, d) && i < |c|
    requires k.text(name) == c[i].wire && Suppliable(k, c[i], values)
    ensures Callable(c, k, i)
       <==> ':' !in d.transactions[i].name
            && forall j :: 0 <= j < i ==> d.transactions[j].name != d.transactions[i].name
  {
    if Callable(c, k, i) {
      var args :| Invoke(c, k, args).Runs? && Invoke(c, k, args).arm == i;
      RunsIffListed(env, c, d, k, args, i);
      LastSegmentFree(k.text(args[0]));
    } else if ':' !in c[i].wire {
      var args := [name] + values;
      NamespaceDropped("", c[i].wire);
      RunsIffListed(env, c, d, k, args, i);
    }
  }

  /** A contract whose only method is called "asset:read": the document lists it, and no call
      reaches it, whatever the arguments. */
  lemma ColonNameIsNeverReached(env: Env, d: Metadata, k: Codec, args: seq<Bytes>)
    requires Listed(env, [TxMethod("asset:read", true, [], None)], d)
    ensures d.transactions[0].name == "asset:read"
    ensures !Invoke([TxMethod("asset:read", true, [], None)], k, args).Runs?
  {
    var c := [TxMethod("asset:read", true, [], None)];
    assert Describes(env, d.transactions[0], c[0]);
    RunsIffListed(env, c, d, k, args, 0);
    assert "asset:read"[5] == ':';
    if args != [] {
      LastSegmentFree(k.text(args[0]));
    }
  }

  // ---- the shim around the generated code ----

  /** What becomes of a TRANSACTION message, or of an INIT message, which generated contracts
      treat alike: an error, the document, or a call. */
  datatype Served = NotServed | Document(response: TxResponse) | Called(invocation: Invocation)

  /** The shim decodes, serves the document if it is asked for, builds the stub, and only then
      calls the contract. */
  function Serve(cfg: Config, c: Contract, k: Codec, input: TxInput): Served {
    match RoutingOf(cfg, input)
    case ServeMetadata(response) => Document(response)
    case RunHandler => Called(Invoke(c, k, input.args.value))
    case _ => NotServed
  }

  predicate UserCodeRuns(s: Served, i: nat) {
    s.Called? && s.invocation.Runs? && s.invocation.arm == i
  }

  /** User code runs exactly when the input and the proposal decode, the shim does not answer
      with the document itself, and the call names the method as listed. */
  lemma UserCodeRunsIff(env: Env, cfg: Config, c: Contract, d: Metadata, k: Codec, input: TxInput, i: nat)
    requires Listed(env, c, d) && i < |c|
    ensures Describes(env, d.transactions[i], c[i])
    ensures UserCodeRuns(Serve(cfg, c, k, input), i)
       <==> (&& input.args.Some? && input.proposalOk
             && !(cfg.metadata.Some? && input.args.value != [] && input.args.value[0] == Encode(METADATA_FUNCTION))
             && Names(c, d, k, input.args.value, i))
  {
    if input.args.Some? {
      RunsIffListed(env, c, d, k, input.args.value, i);
    }
  }

  /** Text that is valid UTF-8 is decoded faithfully. */
  ghost predicate Lossless(k: Codec) {
    forall s: string :: k.text(Encode(s)) == s
  }

  lemma SuffixCancels(p: string, q: string, t: string)
    requires p + t == q + t
    ensures p == q
  {
    assert |p| == |q|;
    assert p == (p + t)[..|p|] && q == (q + t)[..|q|];
  }

  /** The shim compares the whole first argument with the full name, byte for byte. */
  lemma InterceptionIsByFullName(cfg: Config, name: string, rest: seq<Bytes>, proposalOk: bool, work: nat)
    ensures var r := RoutingOf(cfg, TxInput(Some([Encode(name)] + rest), proposalOk, work));
      if cfg.metadata.Some? && name == METADATA_FUNCTION
      then r == ServeMetadata(cfg.metadata.value) else r == if proposalOk then RunHandler else BadProposal
  {
    if Encode(name) == Encode(METADATA_FUNCTION) {
      EncodeIsInjective(name, METADATA_FUNCTION);
    }
  }

  lemma SystemName(p: string, f: string)
    requires ':' !in f
    ensures p + [':'] + f == METADATA_FUNCTION <==> p == METADATA_NAMESPACE && f == METADATA_NAME
    ensures f != METADATA_FUNCTION
  {
    NamespaceDropped(p, f);
    NamespaceDropped(METADATA_NAMESPACE, METADATA_NAME);
    if p + [':'] + f == METADATA_FUNCTION {
      assert f == METADATA_NAME;
      assert p + [':'] + f == p + ([':'] + f) && METADATA_FUNCTION == METADATA_NAMESPACE + ([':'] + f);
      SuffixCancels(p, METADATA_NAMESPACE, [':'] + f);
    }
    assert METADATA_FUNCTION[|METADATA_NAMESPACE|] == ':';
  }

  lemma ServedByName(cfg: Config, c: Contract, k: Codec, name: string, rest: seq<Bytes>, proposalOk: bool, work: nat)
    ensures Serve(cfg, c, k, TxInput(Some([Encode(name)] + rest), proposalOk, work)) ==
      if cfg.metadata.Some? && name == METADATA_FUNCTION then Document(cfg.metadata.value)
      else if proposalOk then Called(Invoke(c, k, [Encode(name)] + rest)) else NotServed
  {
    InterceptionIsByFullName(cfg, name, rest, proposalOk, work);
  }

  lemma NamespaceDroppedOnce(c: Contract, k: Codec, rest: seq<Bytes>, p: string, f: string)
    requires ':' !in f && Lossless(k)
    ensures Invoke(c, k, [Encode(f)] + rest) == Invoke(c, k, [Encode(p + [':'] + f)] + rest)
  {
    var name := p + [':'] + f;
    var args, others := [Encode(f)] + rest, [Encode(name)] + rest;
    assert args[1..] == rest == others[1..];
    assert k.text(args[0]) == f && k.text(others[0]) == name;
    NamespaceIsIrrelevant(c, k, args, others, p, f);
  }

  /** A namespace in front of a colon-free name makes no difference to what the shim does,
      with exactly one exception: the system function's own, when there is a document. */
  lemma NamespaceMattersOnlyForMetadata(cfg: Config, c: Contract, k: Codec, rest: seq<Bytes>, p: string, f: string,
                                        proposalOk: bool, work: nat)
    requires ':' !in f && Lossless(k)
    ensures var plain := TxInput(Some([Encode(f)] + rest), proposalOk, work);
      var prefixed := TxInput(Some([Encode(p + [':'] + f)] + rest), proposalOk, work);
      Serve(cfg, c, k, plain) == Serve(cfg, c, k, prefixed)
      <==> !(cfg.metadata.Some? && p == METADATA_NAMESPACE && f == METADATA_NAME)
  {
    SystemName(p, f);
    ServedByName(cfg, c, k, f, rest, proposalOk, work);
    ServedByName(cfg, c, k, p + [':'] + f, rest, proposalOk, work);
    NamespaceDroppedOnce(c, k, rest, p, f);
  }
}
