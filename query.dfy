/**
 * The request's query parameters as URLSearchParams holds them: an ordered list of
 * name/value pairs with repeats allowed. `SetParam` is URLSearchParams.set and
 * `FromEntries` is Object.fromEntries over its entries.
 */
module Query {

  type Params = seq<(string, string)>

  predicate HasName(ps: Params, name: string)
  {
    exists i :: 0 <= i < |ps| && ps[i].0 == name
  }

  /** The values of the pairs named `name`, in order. */
  function ValuesOf(ps: Params, name: string): seq<string>
  {
    if ps == [] then []
    else (if ps[0].0 == name then [ps[0].1] else []) + ValuesOf(ps[1..], name)
  }

  /** The pairs not named `name`, in order. */
  function Without(ps: Params, name: string): (r: Params)
    ensures !HasName(r, name)
  {
    if ps == [] then []
    else if ps[0].0 == name then Without(ps[1..], name)
    else [ps[0]] + Without(ps[1..], name)
  }

  /** The first pair named `name` gets `value`; the later ones are removed. */
  function SetFirst(ps: Params, name: string, value: string): Params
  {
    if ps == [] then []
    else if ps[0].0 == name then [(name, value)] + Without(ps[1..], name)
    else [ps[0]] + SetFirst(ps[1..], name, value)
  }

  /** URLSearchParams.set(name, value). */
  function SetParam(ps: Params, name: string, value: string): Params
  {
    if HasName(ps, name) then SetFirst(ps, name, value) else ps + [(name, value)]
  }

  /** Every value under `name` replaced by `value`: what a client could vary. */
  function Revalue(ps: Params, name: string, value: string): Params
  {
    if ps == [] then []
    else [if ps[0].0 == name then (name, value) else ps[0]] + Revalue(ps[1..], name, value)
  }

  /** Object.fromEntries: later pairs overwrite earlier ones. */
  function FromEntries(ps: Params): map<string, string>
    decreases |ps|
  {
    if ps == [] then map[]
    else FromEntries(ps[..|ps| - 1])[ps[|ps| - 1].0 := ps[|ps| - 1].1]
  }

  lemma HasNameCons(p: (string, string), ps: Params, name: string)
    ensures HasName([p] + ps, name) <==> p.0 == name || HasName(ps, name)
  {
    var q := [p] + ps;
    if HasName(ps, name) {
      var i :| 0 <= i < |ps| && ps[i].0 == name;
      assert q[i + 1] == ps[i];
    }
    assert q[0] == p;
    if HasName(q, name) && p.0 != name {
      var i :| 0 <= i < |q| && q[i].0 == name;
      assert i > 0 && ps[i - 1] == q[i];
    }
  }

  lemma {:induction false} WithoutAbsent(ps: Params, name: string)
    requires !HasName(ps, name)
    ensures Without(ps, name) == ps && ValuesOf(ps, name) == []
  {
    if ps != [] {
      HasNameCons(ps[0], ps[1..], name);
      assert [ps[0]] + ps[1..] == ps;
      WithoutAbsent(ps[1..], name);
    }
  }

  lemma {:induction false} WithoutAppend(ps: Params, p: (string, string), name: string)
    ensures Without(ps + [p], name) == Without(ps, name) + (if p.0 == name then [] else [p])
    ensures ValuesOf(ps + [p], name) == ValuesOf(ps, name) + (if p.0 == name then [p.1] else [])
  {
    if ps == [] {
      assert [] + [p] == [p];
      assert [p][1..] == [];
    } else {
      assert (ps + [p])[0] == ps[0] && (ps + [p])[1..] == ps[1..] + [p];
      WithoutAppend(ps[1..], p, name);
    }
  }

  /** Under `name`, SetFirst leaves exactly the one new value and keeps every other pair. */
  lemma {:induction false} SetFirstShape(ps: Params, name: string, value: string)
    requires HasName(ps, name)
    ensures ValuesOf(SetFirst(ps, name, value), name) == [value]
    ensures Without(SetFirst(ps, name, value), name) == Without(ps, name)
  {
    var rest := ps[1..];
    HasNameCons(ps[0], rest, name);
    assert [ps[0]] + rest == ps;
    var w := Without(rest, name);
    if ps[0].0 == name {
      var r := [(name, value)] + w;
      assert r[0] == (name, value) && r[1..] == w;
      WithoutAbsent(w, name);
      WithoutIdempotent(rest, name);
    } else {
      SetFirstShape(rest, name, value);
      var r := [ps[0]] + SetFirst(rest, name, value);
      assert r[0] == ps[0] && r[1..] == SetFirst(rest, name, value);
    }
  }

  lemma WithoutIdempotent(ps: Params, name: string)
    ensures Without(Without(ps, name), name) == Without(ps, name)
  {
    WithoutAbsent(Without(ps, name), name);
  }

  /**
   * The proxy's credential replaces whatever the client sent under that name: the
   * result holds exactly one pair with that name, carrying `value`, and every
   * other pair of the request, in the request's order.
   */
  lemma SetParamReplaces(ps: Params, name: string, value: string)
    ensures ValuesOf(SetParam(ps, name, value), name) == [value]
    ensures Without(SetParam(ps, name, value), name) == Without(ps, name)
  {
    if HasName(ps, name) {
      SetFirstShape(ps, name, value);
    } else {
      WithoutAbsent(ps, name);
      WithoutAppend(ps, (name, value), name);
    }
  }

  lemma {:induction false} SetFirstAt(ps: Params, name: string, value: string, i: nat)
    requires i < |ps| && ps[i].0 == name
    requires forall j :: 0 <= j < i ==> ps[j].0 != name
    ensures SetFirst(ps, name, value) == ps[..i] + [(name, value)] + Without(ps[i + 1..], name)
  {
    if i > 0 {
      SetFirstAt(ps[1..], name, value, i - 1);
      assert ps[1..][i..] == ps[i + 1..];
      assert [ps[0]] + ps[1..][..i - 1] == ps[..i];
    }
  }

  /**
   * Where the credential goes: in place of the first pair the client sent with
   * that name (index i), the later ones dropped; or appended when there is none.
   * The serialised URL, and so the cache key, lists the pairs in this order.
   */
  lemma SetParamPosition(ps: Params, name: string, value: string, i: nat)
    requires i <= |ps|
    requires forall j :: 0 <= j < i ==> ps[j].0 != name
    requires i == |ps| || ps[i].0 == name
    ensures SetParam(ps, name, value)
      == if i == |ps| then ps + [(name, value)] else ps[..i] + [(name, value)] + Without(ps[i + 1..], name)
  {
    if i < |ps| {
      SetFirstAt(ps, name, value, i);
    }
  }

  lemma {:induction false} RevalueKeepsShape(ps: Params, name: string, w: string)
    ensures HasName(Revalue(ps, name, w), name) == HasName(ps, name)
    ensures Without(Revalue(ps, name, w), name) == Without(ps, name)
  {
    if ps != [] {
      var r := Revalue(ps, name, w);
      var h := if ps[0].0 == name then (name, w) else ps[0];
      assert r == [h] + Revalue(ps[1..], name, w);
      assert r[0] == h && r[1..] == Revalue(ps[1..], name, w);
      RevalueKeepsShape(ps[1..], name, w);
      HasNameCons(h, Revalue(ps[1..], name, w), name);
      HasNameCons(ps[0], ps[1..], name);
      assert [ps[0]] + ps[1..] == ps;
    }
  }

  lemma {:induction false} SetFirstIgnoresValues(ps: Params, name: string, w: string, v: string)
    ensures SetFirst(Revalue(ps, name, w), name, v) == SetFirst(ps, name, v)
  {
    if ps != [] {
      var h := if ps[0].0 == name then (name, w) else ps[0];
      var r := Revalue(ps, name, w);
      assert r[0] == h && r[1..] == Revalue(ps[1..], name, w);
      if ps[0].0 == name {
        RevalueKeepsShape(ps[1..], name, w);
      } else {
        SetFirstIgnoresValues(ps[1..], name, w, v);
      }
    }
  }

  /**
   * The cache key does not depend on the credential a client sent: replacing the
   * values under `name` before the proxy sets it gives the same parameter list.
   */
  lemma SetParamIgnoresClientValue(ps: Params, name: string, w: string, v: string)
    ensures SetParam(Revalue(ps, name, w), name, v) == SetParam(ps, name, v)
  {
    RevalueKeepsShape(ps, name, w);
    if HasName(ps, name) {
      SetFirstIgnoresValues(ps, name, w, v);
    } else {
      RevalueAbsent(ps, name, w);
    }
  }

  lemma {:induction false} RevalueAbsent(ps: Params, name: string, w: string)
    requires !HasName(ps, name)
    ensures Revalue(ps, name, w) == ps
  {
    if ps != [] {
      HasNameCons(ps[0], ps[1..], name);
      assert [ps[0]] + ps[1..] == ps;
      RevalueAbsent(ps[1..], name, w);
    }
  }

  /** Setting twice is setting once. */
  lemma SetParamIdempotent(ps: Params, name: string, value: string)
    ensures SetParam(SetParam(ps, name, value), name, value) == SetParam(ps, name, value)
  {
    var once := SetParam(ps, name, value);
    SetParamReplaces(ps, name, value);
    assert HasName(once, name) by {
      assert ValuesOf(once, name) == [value];
      ValuesHasName(once, name);
    }
    SetFirstOnSingle(once, name, value);
  }

  lemma {:induction false} ValuesHasName(ps: Params, name: string)
    requires ValuesOf(ps, name) != []
    ensures HasName(ps, name)
  {
    HasNameCons(ps[0], ps[1..], name);
    assert [ps[0]] + ps[1..] == ps;
    if ps[0].0 != name {
      ValuesHasName(ps[1..], name);
    }
  }

  /** A list whose only pair under `name` already has `value` is unchanged by SetFirst. */
  lemma {:induction false} SetFirstOnSingle(ps: Params, name: string, value: string)
    requires ValuesOf(ps, name) == [value]
    ensures SetFirst(ps, name, value) == ps
  {
    assert ValuesOf(ps, name) == (if ps[0].0 == name then [ps[0].1] else []) + ValuesOf(ps[1..], name);
    if ps[0].0 == name {
      var vs := [ps[0].1] + ValuesOf(ps[1..], name);
      assert vs[0] == ps[0].1 && |vs| == 1 + |ValuesOf(ps[1..], name)|;
      assert ValuesOf(ps[1..], name) == [];
      ValuesEmpty(ps[1..], name);
      assert ps[0] == (name, value);
      assert [ps[0]] + ps[1..] == ps;
    } else {
      SetFirstOnSingle(ps[1..], name, value);
      assert [ps[0]] + ps[1..] == ps;
    }
  }

  lemma {:induction false} ValuesEmpty(ps: Params, name: string)
    requires ValuesOf(ps, name) == []
    ensures Without(ps, name) == ps
  {
    if ps != [] {
      ValuesEmpty(ps[1..], name);
      assert [ps[0]] + ps[1..] == ps;
    }
  }

  function Last(s: seq<string>): string
    requires s != []
  {
    s[|s| - 1]
  }

  /** A name is in Object.fromEntries(ps) iff some pair has it, and maps to the last such value. */
  lemma {:induction false} FromEntriesValues(ps: Params, m: string)
    ensures m in FromEntries(ps) <==> ValuesOf(ps, m) != []
    ensures m in FromEntries(ps) ==> FromEntries(ps)[m] == Last(ValuesOf(ps, m))
    decreases |ps|
  {
    if ps != [] {
      var init, p := ps[..|ps| - 1], ps[|ps| - 1];
      assert init + [p] == ps;
      WithoutAppend(init, p, m);
      FromEntriesValues(init, m);
    }
  }

  lemma {:induction false} ValuesOfWithout(ps: Params, n: string, m: string)
    requires m != n
    ensures ValuesOf(Without(ps, n), m) == ValuesOf(ps, m)
  {
    if ps != [] {
      ValuesOfWithout(ps[1..], n, m);
      if ps[0].0 != n {
        var r := [ps[0]] + Without(ps[1..], n);
        assert r[0] == ps[0] && r[1..] == Without(ps[1..], n);
      }
    }
  }

  /**
   * The query map the cache-validity predicates see: the client's parameters, by
   * last occurrence, with the credential under `name` overriding anything sent.
   */
  lemma FromEntriesSetParam(ps: Params, name: string, value: string)
    ensures FromEntries(SetParam(ps, name, value)) == FromEntries(ps)[name := value]
  {
    var withToken := SetParam(ps, name, value);
    var a, b := FromEntries(withToken), FromEntries(ps)[name := value];
    SetParamReplaces(ps, name, value);
    FromEntriesValues(withToken, name);
    forall m | m != name
      ensures (m in a <==> m in b) && (m in a ==> a[m] == b[m])
    {
      ValuesOfWithout(withToken, name, m);
      ValuesOfWithout(ps, name, m);
      FromEntriesValues(withToken, m);
      FromEntriesValues(ps, m);
    }
    assert a.Keys == b.Keys;
  }
}
