/** Composite keys: printer, parser, and the range query over a partial key. */
module CompositeKeys {
  import opened Wire
  import opened Utf8

  const NUL: char := '\U{0000}'
  const MAX: char := '\U{10FFFF}'

  predicate ValidComponent(s: string) {
    s != "" && NUL !in s && MAX !in s
  }

  predicate AllValid(ps: seq<string>) {
    forall i :: 0 <= i < |ps| ==> ValidComponent(ps[i])
  }

  /** Each component followed by the delimiter. */
  function Join(ps: seq<string>): string {
    if ps == [] then "" else ps[0] + [NUL] + Join(ps[1..])
  }

  function Create(objectType: string, attributes: seq<string>): Result<string> {
    if AllValid([objectType] + attributes) then Ok([NUL] + Join([objectType] + attributes))
    else Err(InvalidArgument)
  }

  lemma {:induction false} JoinSnoc(ps: seq<string>, p: string)
    ensures Join(ps + [p]) == Join(ps) + p + [NUL]
  {
    if ps == [] {
      assert ps + [p] == [p] && [p][1..] == [];
    } else {
      JoinSnoc(ps[1..], p);
      assert (ps + [p])[0] == ps[0] && (ps + [p])[1..] == ps[1..] + [p];
    }
  }

  /** The loop of the printer: components are checked as they are appended. */
  method CreateCompositeKey(objectType: string, attributes: seq<string>) returns (r: Result<string>)
    ensures r == Create(objectType, attributes)
  {
    var all := [objectType] + attributes;
    if !ValidComponent(objectType) {
      assert all[0] == objectType;
      return Err(InvalidArgument);
    }
    var key := [NUL];
    key := key + objectType;
    key := key + [NUL];
    assert all[..1] == [] + [objectType];
    JoinSnoc([], objectType);
    for i := 0 to |attributes|
      invariant key == [NUL] + Join(all[..i + 1])
      invariant AllValid(all[..i + 1])
    {
      var attr := attributes[i];
      assert all[i + 1] == attr;
      if !ValidComponent(attr) {
        return Err(InvalidArgument);
      }
      JoinSnoc(all[..i + 1], attr);
      assert all[..i + 2] == all[..i + 1] + [attr];
      key := key + attr;
      key := key + [NUL];
    }
    assert all[..|attributes| + 1] == all;
    r := Ok(key);
  }

  // ---- the parser ----

  /** Pieces between delimiters; always at least one. */
  function Pieces(s: string): (ps: seq<string>)
    ensures ps != []
  {
    if s == "" then [""]
    else
      var ps := Pieces(s[1..]);
      if s[0] == NUL then [""] + ps else [[s[0]] + ps[0]] + ps[1..]
  }

  function NonEmpty(ps: seq<string>): seq<string> {
    if ps == [] then [] else (if ps[0] == "" then [] else [ps[0]]) + NonEmpty(ps[1..])
  }

  function Split(key: string): Result<(string, seq<string>)> {
    if key == "" || key[0] != NUL then Err(InvalidArgument)
    else
      var parts := NonEmpty(Pieces(key[1..]));
      if parts == [] then Err(InvalidArgument) else Ok((parts[0], parts[1..]))
  }

  lemma {:induction false} PiecesOfComponent(p: string, rest: string)
    requires NUL !in p
    ensures Pieces(p + [NUL] + rest) == [p] + Pieces(rest)
  {
    var s := p + [NUL] + rest;
    if p == "" {
      assert s == [NUL] + rest && s[1..] == rest;
    } else {
      PiecesOfComponent(p[1..], rest);
      assert s[0] == p[0] && s[1..] == p[1..] + [NUL] + rest;
      assert p[0] in p;
      assert p == [p[0]] + p[1..];
    }
  }

  lemma {:induction false} PiecesOfJoin(ps: seq<string>)
    requires forall i :: 0 <= i < |ps| ==> NUL !in ps[i]
    ensures Pieces(Join(ps)) == ps + [""]
  {
    if ps != [] {
      PiecesOfJoin(ps[1..]);
      PiecesOfComponent(ps[0], Join(ps[1..]));
    }
  }

  lemma {:induction false} NonEmptyKeeps(ps: seq<string>)
    requires forall i :: 0 <= i < |ps| ==> ps[i] != ""
    ensures NonEmpty(ps + [""]) == ps
  {
    if ps == [] {
      assert ps + [""] == [""] && [""][1..] == [];
    } else {
      NonEmptyKeeps(ps[1..]);
      assert (ps + [""])[0] == ps[0] && (ps + [""])[1..] == ps[1..] + [""];
    }
  }

  /** Whatever the printer accepts, the parser gives back. */
  lemma CreateThenSplit(objectType: string, attributes: seq<string>)
    requires Create(objectType, attributes).Ok?
    ensures Split(Create(objectType, attributes).value) == Ok((objectType, attributes))
  {
    var all := [objectType] + attributes;
    PiecesOfJoin(all);
    NonEmptyKeeps(all);
    var key := [NUL] + Join(all);
    assert key[1..] == Join(all);
  }

  lemma CreateIsInjective(t: string, attrs: seq<string>, u: string, brs: seq<string>)
    requires Create(t, attrs).Ok? && Create(u, brs) == Create(t, attrs)
    ensures t == u && attrs == brs
  {
    CreateThenSplit(t, attrs);
    CreateThenSplit(u, brs);
  }

  lemma {:induction false} PiecesAreFree(s: string)
    ensures forall i :: 0 <= i < |Pieces(s)| ==> NUL !in Pieces(s)[i]
    ensures MAX in s <==> exists i :: 0 <= i < |Pieces(s)| && MAX in Pieces(s)[i]
  {
    if s != "" {
      PiecesAreFree(s[1..]);
      var ps, qs := Pieces(s[1..]), Pieces(s);
      assert MAX in s <==> s[0] == MAX || MAX in s[1..];
      if s[0] == NUL {
        assert forall i :: 0 <= i < |ps| ==> qs[i + 1] == ps[i];
        assert MAX in s <==> MAX in s[1..];
      } else {
        assert forall i :: 1 <= i < |ps| ==> qs[i] == ps[i];
        assert MAX in qs[0] <==> s[0] == MAX || MAX in ps[0];
      }
    }
  }

  lemma {:induction false} NonEmptyMembers(ps: seq<string>)
    ensures forall p :: p in NonEmpty(ps) <==> p in ps && p != ""
  {
    if ps != [] {
      NonEmptyMembers(ps[1..]);
      assert ps == [ps[0]] + ps[1..];
    }
  }

  /** Re-printing what the parser found succeeds exactly when the key is free of U+10FFFF,
      and reaches a canonical form in one pass: the same parts come back. */
  lemma SplitThenCreate(key: string)
    requires Split(key).Ok?
    ensures var (t, attrs) := Split(key).value;
      && (Create(t, attrs).Ok? <==> MAX !in key)
      && (Create(t, attrs).Ok? ==> Split(Create(t, attrs).value) == Split(key))
  {
    var (t, attrs) := Split(key).value;
    var ps := Pieces(key[1..]);
    var parts := NonEmpty(ps);
    assert [t] + attrs == parts;
    PiecesAreFree(key[1..]);
    NonEmptyMembers(ps);
    assert MAX in key <==> MAX in key[1..] by {
      assert key == [key[0]] + key[1..];
    }
    if Create(t, attrs).Ok? {
      CreateThenSplit(t, attrs);
      forall i | 0 <= i < |ps|
        ensures MAX !in ps[i]
      {
        if ps[i] != "" {
          assert ps[i] in parts;
        }
      }
    } else {
      var i :| 0 <= i < |parts| && !ValidComponent(parts[i]);
      assert parts[i] in parts && parts[i] in ps;
      assert MAX in parts[i];
    }
  }

  // ---- which keys the parser takes, and what it finds ----

  /** `parts` are the stretches of `s` between delimiters, however many delimiters there are. */
  predicate Stretches(s: string, parts: seq<string>)
    decreases |s|
  {
    if s == "" then parts == []
    else if s[0] == NUL then Stretches(s[1..], parts)
    else
      && parts != [] && parts[0] != "" && parts[0] <= s && NUL !in parts[0]
      && (|parts[0]| < |s| ==> s[|parts[0]|] == NUL)
      && Stretches(s[|parts[0]|..], parts[1..])
  }

  lemma NulFree(p: string)
    requires NUL !in p
    ensures forall i :: 0 <= i < |p| ==> p[i] != NUL
  {
  }

  /** There is only one way to cut a string into stretches. */
  lemma {:induction false} OneWay(s: string, a: seq<string>, b: seq<string>)
    requires Stretches(s, a) && Stretches(s, b)
    ensures a == b
    decreases |s|
  {
    if s != "" {
      if s[0] == NUL {
        OneWay(s[1..], a, b);
      } else {
        SameStretch(s, a[0], b[0]);
        OneWay(s[|a[0]|..], a[1..], b[1..]);
        assert a == [a[0]] + a[1..] && b == [b[0]] + b[1..];
      }
    }
  }

  lemma SameStretch(s: string, p: string, q: string)
    requires p <= s && q <= s && NUL !in p && NUL !in q
    requires |p| < |s| ==> s[|p|] == NUL
    requires |q| < |s| ==> s[|q|] == NUL
    ensures p == q
  {
    NulFree(p);
    NulFree(q);
    assert |p| == |q|;
  }

  /** Up to the first delimiter, and what the parser makes of the rest. */
  lemma {:induction false} FirstPiece(s: string)
    ensures var p := Pieces(s)[0];
      && p <= s && NUL !in p && (|p| < |s| ==> s[|p|] == NUL)
      && Pieces(s)[1..] == if |p| < |s| then Pieces(s[|p| + 1..]) else []
  {
    if s != "" && s[0] != NUL {
      FirstPiece(s[1..]);
      LongerPiece(s, Pieces(s[1..])[0]);
      assert Pieces(s)[0] == [s[0]] + Pieces(s[1..])[0] && Pieces(s)[1..] == Pieces(s[1..])[1..];
    }
  }

  lemma LongerPiece(s: string, p: string)
    requires s != "" && s[0] != NUL && p <= s[1..] && NUL !in p && (|p| < |s| - 1 ==> s[1..][|p|] == NUL)
    ensures var q := [s[0]] + p;
      && q <= s && NUL !in q && (|q| < |s| ==> s[|q|] == NUL && s[|q| + 1..] == s[1..][|p| + 1..])
  {
    assert s == [s[0]] + s[1..];
  }

  lemma {:induction false} PiecesAreStretches(s: string)
    ensures Stretches(s, NonEmpty(Pieces(s)))
    decreases |s|
  {
    if s != "" {
      FirstPiece(s);
      var ps := Pieces(s);
      var p := ps[0];
      if s[0] == NUL {
        assert ps == [""] + Pieces(s[1..]) && ps[1..] == Pieces(s[1..]);
        PiecesAreStretches(s[1..]);
        assert NonEmpty(ps) == NonEmpty(ps[1..]);
      } else {
        assert p != "";
        if |p| < |s| {
          assert s[|p|..][1..] == s[|p| + 1..] && s[|p|..][0] == NUL;
          PiecesAreStretches(s[|p| + 1..]);
          assert Stretches(s[|p|..], NonEmpty(ps[1..]));
        } else {
          assert s[|p|..] == "" && NonEmpty(ps[1..]) == [];
        }
        assert NonEmpty(ps) == [p] + NonEmpty(ps[1..]) && NonEmpty(ps)[1..] == NonEmpty(ps[1..]);
      }
    }
  }

  predicate OnlyDelimiters(s: string) {
    forall i :: 0 <= i < |s| ==> s[i] == NUL
  }

  lemma {:induction false} NoStretches(s: string)
    ensures Stretches(s, []) <==> OnlyDelimiters(s)
    decreases |s|
  {
    if s != "" && s[0] == NUL {
      NoStretches(s[1..]);
      assert s == [NUL] + s[1..];
    }
  }

  /** The parser takes exactly the strings that start with the delimiter and hold something
      else as well, refusing all others as invalid; and what it finds in them are the
      stretches between the delimiters, the first as the object type. */
  lemma {:induction false} SplitFindsStretches(key: string)
    ensures Split(key).Ok? <==> key != "" && key[0] == '\U{0000}' && exists i :: 0 <= i < |key| && key[i] != '\U{0000}'
    ensures Split(key).Err? ==> Split(key) == Err(InvalidArgument)
    ensures Split(key).Ok? ==> Stretches(key, [Split(key).value.0] + Split(key).value.1)
  {
    if key != "" && key[0] == NUL {
      var parts := NonEmpty(Pieces(key[1..]));
      PiecesAreStretches(key[1..]);
      NoStretches(key[1..]);
      assert key == [NUL] + key[1..];
      if parts != [] {
        assert [parts[0]] + parts[1..] == parts;
        if OnlyDelimiters(key) {
          OneWay(key[1..], parts, []);
        }
      }
    }
  }

  /** The printer refuses, as invalid, exactly the lists with an empty component or one that
      holds U+0000 or U+10FFFF. */
  lemma CreateRefuses(t: string, attrs: seq<string>)
    ensures Create(t, attrs).Ok? || Create(t, attrs) == Err(InvalidArgument)
    ensures Create(t, attrs).Err? <==> Unprintable(t) || exists i :: 0 <= i < |attrs| && Unprintable(attrs[i])
  {
    var all := [t] + attrs;
    assert forall i :: 0 <= i < |attrs| ==> all[i + 1] == attrs[i];
    assert forall i :: 0 <= i < |all| ==> (ValidComponent(all[i]) <==> !Unprintable(all[i]));
    assert all[0] == t;
    if Create(t, attrs).Err? && !Unprintable(t) {
      var i :| 0 <= i < |all| && !ValidComponent(all[i]);
      assert Unprintable(attrs[i - 1]);
    }
  }

  predicate Unprintable(p: string) {
    p == "" || exists i :: 0 <= i < |p| && (p[i] == '\U{0000}' || p[i] == '\U{10FFFF}')
  }

  /** No two delimiters side by side. */
  predicate Single(s: string) {
    forall i :: 0 <= i < |s| - 1 ==> s[i] != NUL || s[i + 1] != NUL
  }

  lemma JoinOne(p: string, rest: string)
    requires p != "" && NUL !in p && Single(rest) && (rest != "" ==> rest[0] != NUL)
    ensures Single(p + [NUL] + rest) && (p + [NUL] + rest)[0] != NUL
  {
    var s := p + [NUL] + rest;
    assert s[0] == p[0] && p[0] in p;
    forall i | 0 <= i < |s| - 1
      ensures s[i] != NUL || s[i + 1] != NUL
    {
      if i < |p| {
        assert s[i] == p[i] && p[i] in p;
      } else if i == |p| {
        assert s[i + 1] == rest[0];
      } else {
        var n := i - |p| - 1;
        assert s[i] == rest[n] && s[i + 1] == rest[n + 1];
      }
    }
  }

  lemma {:induction false} JoinLayout(ps: seq<string>)
    requires AllValid(ps)
    ensures Single(Join(ps)) && Stretches(Join(ps), ps)
    ensures ps != [] ==> Join(ps) != "" && Join(ps)[0] != NUL && Join(ps)[|Join(ps)| - 1] == NUL
  {
    if ps != [] {
      var p, rest := ps[0], Join(ps[1..]);
      var s := p + [NUL] + rest;
      JoinLayout(ps[1..]);
      JoinOne(p, rest);
      assert s == Join(ps);
      assert s[|p|..] == [NUL] + rest && ([NUL] + rest)[1..] == rest;
      assert Stretches(s[|p|..], ps[1..]);
    }
  }

  /** A printed key starts and ends with the delimiter, has none side by side, and between
      them stand the parts. */
  lemma CreateLayout(t: string, attrs: seq<string>)
    requires Create(t, attrs).Ok?
    ensures Printed(Create(t, attrs).value, [t] + attrs)
  {
    var s := Join([t] + attrs);
    JoinLayout([t] + attrs);
    var key := [NUL] + s;
    assert key[1..] == s && key[|key| - 1] == s[|s| - 1];
    assert forall i :: 1 <= i <= |s| ==> key[i] == s[i - 1];
  }

  predicate Printed(key: string, parts: seq<string>) {
    key != "" && key[0] == NUL && key[|key| - 1] == NUL && Single(key) && Stretches(key, parts)
  }

  lemma LastOfStretch(a: string, p: string)
    requires a != "" && p <= a && NUL !in p && a[|a| - 1] == NUL
    ensures |p| < |a|
  {
    NulFree(p);
  }

  lemma {:induction false} SameShape(a: string, b: string, ps: seq<string>)
    requires Stretches(a, ps) && Stretches(b, ps) && Single(a) && Single(b) && a != "" && b != ""
    requires (a[0] == NUL <==> b[0] == NUL) && a[|a| - 1] == NUL && b[|b| - 1] == NUL
    ensures a == b
    decreases |a|
  {
    if a[0] == NUL {
      assert a == [NUL] + a[1..] && b == [NUL] + b[1..];
      assert |a| > 1 ==> a[1] != NUL;
      assert |b| > 1 ==> b[1] != NUL;
      if |a| > 1 && |b| > 1 {
        SameShape(a[1..], b[1..], ps);
      }
    } else {
      var p := ps[0];
      LastOfStretch(a, p);
      LastOfStretch(b, p);
      SameShape(a[|p|..], b[|p|..], ps[1..]);
      assert a == p + a[|p|..] && b == p + b[|p|..];
    }
  }

  /** And it is the only string of that shape with these parts. */
  lemma PrintedIsUnique(t: string, attrs: seq<string>, key: string)
    requires Create(t, attrs).Ok? && Printed(key, [t] + attrs)
    ensures key == Create(t, attrs).value
  {
    CreateLayout(t, attrs);
    SameShape(key, Create(t, attrs).value, [t] + attrs);
  }

  // ---- partial keys ----

  /** The bounds of a partial composite key query. */
  function PartialRange(objectType: string, attributes: seq<string>): Result<(string, string)> {
    match Create(objectType, attributes)
    case Ok(prefix) => Ok((prefix, prefix + [MAX]))
    case Err(e) => Err(e)
  }

  /** In scalar order, the strings from `p` up to `p` with the largest scalar appended are
      those that start with `p` and do not go on with that scalar. */
  lemma {:induction false} PrefixInterval(k: string, p: string)
    ensures !TextLess(k, p) && TextLess(k, p + [MAX])
       <==> p <= k && (|k| == |p| || k[|p|] < MAX)
  {
    if p == "" {
      assert p + [MAX] == [MAX];
      assert k != "" ==> !TextLess(k[1..], []);
      assert [MAX][1..] == [];
    } else {
      assert (p + [MAX])[0] == p[0] && (p + [MAX])[1..] == p[1..] + [MAX];
      if k != "" && k[0] == p[0] {
        PrefixInterval(k[1..], p[1..]);
        assert p <= k <==> p[1..] <= k[1..] by {
          assert p == [p[0]] + p[1..] && k == [k[0]] + k[1..];
        }
      }
    }
  }

  /** A delimiter-free component is determined by what comes before the first delimiter. */
  lemma {:induction false} SameHead(p: string, u: string, q: string, v: string)
    requires NUL !in p && NUL !in q && p + [NUL] + u <= q + [NUL] + v
    ensures p == q && u <= v
  {
    var x, y := p + [NUL] + u, q + [NUL] + v;
    assert x[0] == y[0];
    assert (p == "" || p[0] in p) && (q == "" || q[0] in q);
    if p == "" || q == "" {
      assert p == "" && q == "";
      assert x[1..] == u && y[1..] == v;
      assert x[1..] <= y[1..];
    } else {
      assert x[1..] == p[1..] + [NUL] + u && y[1..] == q[1..] + [NUL] + v;
      assert x[1..] <= y[1..];
      SameHead(p[1..], u, q[1..], v);
      assert p == [p[0]] + p[1..] && q == [q[0]] + q[1..];
    }
  }

  /** Printed component lists are prefixes of each other exactly when the lists are, and
      what follows is never the largest scalar. */
  lemma {:induction false} JoinPrefix(ps: seq<string>, qs: seq<string>)
    requires AllValid(ps) && AllValid(qs)
    ensures Join(ps) <= Join(qs) <==> ps <= qs
    ensures ps <= qs && |Join(ps)| < |Join(qs)| ==> Join(qs)[|Join(ps)|] < MAX
  {
    if ps == [] {
      if qs != [] {
        assert Join(qs)[0] == qs[0][0] && qs[0][0] in qs[0];
      }
    } else if qs == [] {
    } else {
      var u, v := Join(ps[1..]), Join(qs[1..]);
      JoinPrefix(ps[1..], qs[1..]);
      if Join(ps) <= Join(qs) {
        SameHead(ps[0], u, qs[0], v);
        assert ps[1..] <= qs[1..];
        assert ps == [ps[0]] + ps[1..] && qs == [qs[0]] + qs[1..];
      }
      if ps <= qs {
        assert ps[0] == qs[0] && ps[1..] <= qs[1..];
        assert Join(ps) == ps[0] + [NUL] + u && Join(qs) == ps[0] + [NUL] + v;
      }
    }
  }

  /** A partial query is exact: among the keys the printer builds, those in its byte range
      are those with the same object type whose attributes extend the given ones. */
  lemma PartialQueryIsExact(t: string, attrs: seq<string>, u: string, brs: seq<string>)
    requires Create(t, attrs).Ok? && Create(u, brs).Ok?
    ensures var (from, to) := PartialRange(t, attrs).value;
      InRange(Create(u, brs).value, from, to) <==> u == t && attrs <= brs
  {
    var p, k := Create(t, attrs).value, Create(u, brs).value;
    var ps, qs := [t] + attrs, [u] + brs;
    ByteOrderIsTextOrder(k, p);
    ByteOrderIsTextOrder(k, p + [MAX]);
    PrefixInterval(k, p);
    JoinPrefix(ps, qs);
    assert p <= k <==> Join(ps) <= Join(qs) by {
      assert p[1..] == Join(ps) && k[1..] == Join(qs);
      assert p <= k ==> p[1..] <= k[1..];
    }
    assert ps <= qs <==> t == u && attrs <= brs by {
      assert ps[1..] == attrs && qs[1..] == brs;
      assert ps <= qs ==> ps[1..] <= qs[1..] && ps[0] == qs[0];
    }
    if p <= k && |p| < |k| {
      assert k[|p|] == Join(qs)[|Join(ps)|];
    }
  }
}
