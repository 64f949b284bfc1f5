/**
  The ordered multimap of query parameters that the handler works on
  (the URLSearchParams list): a sequence of name/value entries in which
  a name may occur any number of times.
*/
module Params {

  datatype Option<T> = None | Some(value: T)

  /** One name/value entry of the list. */
  datatype Param = Param(name: string, value: string)

  /**
    JavaScript truthiness of a value that is either a string or null/undefined:
    null, undefined and the empty string are falsy, every other string is truthy.
  */
  predicate Truthy(o: Option<string>) {
    o.Some? && o.value != ""
  }

  /** Position of the first entry called `name`, or |ps| when there is none. */
  function FindIndex(ps: seq<Param>, name: string): (k: nat)
    ensures k <= |ps|
    ensures k < |ps| ==> ps[k].name == name
    ensures forall j :: 0 <= j < k ==> ps[j].name != name
  {
    if ps == [] then 0
    else if ps[0].name == name then 0
    else 1 + FindIndex(ps[1..], name)
  }

  /** `get(name)`: the value of the first entry called `name`, if any. */
  function Get(ps: seq<Param>, name: string): (r: Option<string>)
    ensures r.None? <==> forall p :: p in ps ==> p.name != name
    ensures r.Some? ==> Param(name, r.value) in ps
  {
    var k := FindIndex(ps, name);
    if k < |ps| then Some(ps[k].value) else None
  }

  /** `get` finds nothing exactly when no entry has the name, and otherwise the first one's value. */
  lemma GetIsFirst(ps: seq<Param>, name: string)
    ensures Get(ps, name).None? <==> forall j :: 0 <= j < |ps| ==> ps[j].name != name
    ensures Get(ps, name).Some? ==>
      exists k :: 0 <= k < |ps| && ps[k] == Param(name, Get(ps, name).value) &&
        forall j :: 0 <= j < k ==> ps[j].name != name
  {
    var k := FindIndex(ps, name);
    if k < |ps| {
      assert ps[k] == Param(name, Get(ps, name).value);
    }
  }

  /** Number of entries called `name`. */
  function Count(ps: seq<Param>, name: string): nat {
    if ps == [] then 0
    else (if ps[0].name == name then 1 else 0) + Count(ps[1..], name)
  }

  /** `delete(name)`: the list with every entry called `name` removed, the rest in order. */
  function Without(ps: seq<Param>, name: string): (r: seq<Param>)
    ensures |r| <= |ps|
    ensures forall p {:trigger p in r} :: p in r ==> p in ps && p.name != name
  {
    if ps == [] then []
    else (if ps[0].name == name then [] else [ps[0]]) + Without(ps[1..], name)
  }

  /** No entry has the name exactly when the count is zero. */
  lemma {:induction false} CountZero(ps: seq<Param>, name: string)
    ensures Count(ps, name) == 0 <==> forall j :: 0 <= j < |ps| ==> ps[j].name != name
  {
    if ps != [] {
      CountZero(ps[1..], name);
      assert forall j :: 1 <= j < |ps| ==> ps[j] == ps[1..][j - 1];
    }
  }

  /**
    `delete` leaves |ps| - Count entries, none of them called `name`; it keeps
    every entry with another name and adds none.
  */
  lemma {:induction false} WithoutSpec(ps: seq<Param>, name: string)
    ensures |Without(ps, name)| == |ps| - Count(ps, name)
    ensures forall j :: 0 <= j < |Without(ps, name)| ==> Without(ps, name)[j].name != name
    ensures forall p :: p in Without(ps, name) <==> p in ps && p.name != name
  {
    if ps != [] {
      WithoutSpec(ps[1..], name);
      assert forall p :: p in ps <==> p == ps[0] || p in ps[1..];
    }
  }

  /**
    `set(name, value)`: when an entry called `name` exists, the first one takes
    the new value and the later ones are removed; otherwise the entry is appended.
  */
  function SetValue(ps: seq<Param>, name: string, value: string): (r: seq<Param>)
    ensures Param(name, value) in r
    ensures forall p {:trigger p in r} :: p in r && p.name == name ==> p.value == value
    ensures forall p {:trigger p in r} :: p in r && p.name != name ==> p in ps
  {
    var k := FindIndex(ps, name);
    if k == |ps| then ps + [Param(name, value)]
    else ps[..k] + [Param(name, value)] + Without(ps[k + 1..], name)
  }

  lemma {:induction false} CountAppend(a: seq<Param>, b: seq<Param>, name: string)
    ensures Count(a + b, name) == Count(a, name) + Count(b, name)
  {
    if a == [] {
      assert a + b == b;
    } else {
      assert (a + b)[1..] == a[1..] + b;
      CountAppend(a[1..], b, name);
    }
  }

  lemma {:induction false} WithoutAppend(a: seq<Param>, b: seq<Param>, name: string)
    ensures Without(a + b, name) == Without(a, name) + Without(b, name)
  {
    if a == [] {
      assert a + b == b;
    } else {
      assert (a + b)[1..] == a[1..] + b;
      WithoutAppend(a[1..], b, name);
    }
  }

  /** Removing a name twice removes nothing more. */
  lemma {:induction false} WithoutIdempotent(ps: seq<Param>, name: string)
    ensures Without(Without(ps, name), name) == Without(ps, name)
  {
    if ps != [] {
      WithoutIdempotent(ps[1..], name);
      WithoutAppend(if ps[0].name == name then [] else [ps[0]], Without(ps[1..], name), name);
    }
  }

  /** A list with no entry called `name` is left as it is by removing `name`. */
  lemma {:induction false} WithoutAbsent(ps: seq<Param>, name: string)
    requires Count(ps, name) == 0
    ensures Without(ps, name) == ps
  {
    if ps != [] {
      assert ps[0].name != name;
      WithoutAbsent(ps[1..], name);
    }
  }

  /** Removing one name does not change what `get` returns for any other name. */
  lemma {:induction false} GetWithout(ps: seq<Param>, name: string, other: string)
    requires other != name
    ensures Get(Without(ps, name), other) == Get(ps, other)
  {
    if ps != [] {
      GetWithout(ps[1..], name, other);
      if ps[0].name == name {
        assert Without(ps, name) == Without(ps[1..], name);
      } else {
        assert Without(ps, name) == [ps[0]] + Without(ps[1..], name);
        GetCons(ps[0], Without(ps[1..], name), other);
      }
      GetCons(ps[0], ps[1..], other);
      assert [ps[0]] + ps[1..] == ps;
    }
  }

  /** `get` on a list with a known first entry. */
  lemma GetCons(p: Param, ps: seq<Param>, name: string)
    ensures Get([p] + ps, name) == if p.name == name then Some(p.value) else Get(ps, name)
  {
    assert ([p] + ps)[1..] == ps;
  }

  /** An entry appended at the end is seen by `get` only when no earlier entry has its name. */
  lemma {:induction false} GetAppend(ps: seq<Param>, p: Param, name: string)
    ensures Get(ps + [p], name) ==
      if Get(ps, name).Some? then Get(ps, name)
      else if p.name == name then Some(p.value)
      else None
  {
    if ps == [] {
      assert ps + [p] == [p];
    } else {
      assert ps + [p] == [ps[0]] + (ps[1..] + [p]);
      GetCons(ps[0], ps[1..] + [p], name);
      GetCons(ps[0], ps[1..], name);
      assert [ps[0]] + ps[1..] == ps;
      GetAppend(ps[1..], p, name);
    }
  }

  /** After `set`, exactly one entry carries the name. */
  lemma SetValueCount(ps: seq<Param>, name: string, value: string)
    ensures Count(SetValue(ps, name, value), name) == 1
  {
    var k := FindIndex(ps, name);
    var p := Param(name, value);
    assert [p][1..] == [];
    if k == |ps| {
      CountZero(ps, name);
      CountAppend(ps, [p], name);
    } else {
      var rest := Without(ps[k + 1..], name);
      CountZero(ps[..k], name);
      WithoutSpec(ps[k + 1..], name);
      CountZero(rest, name);
      CountAppend(ps[..k] + [p], rest, name);
      CountAppend(ps[..k], [p], name);
    }
  }

  /** After `set`, `get` returns the value just set. */
  lemma SetValueGet(ps: seq<Param>, name: string, value: string)
    ensures Get(SetValue(ps, name, value), name) == Some(value)
  {
    var k := FindIndex(ps, name);
    var p := Param(name, value);
    if k == |ps| {
      GetAppend(ps, p, name);
    } else {
      GetAppend(ps[..k], p, name);
      GetPrefix(ps[..k] + [p], Without(ps[k + 1..], name), name);
    }
  }

  /**
    `set` changes nothing but the entries carrying the name: removing the name
    afterwards gives what removing it gave before, so every other entry is kept
    with its value and in its order.
  */
  lemma SetValueOthers(ps: seq<Param>, name: string, value: string)
    ensures Without(SetValue(ps, name, value), name) == Without(ps, name)
  {
    var k := FindIndex(ps, name);
    var p := Param(name, value);
    assert [p][1..] == [];
    if k == |ps| {
      WithoutAppend(ps, [p], name);
    } else {
      var rest := Without(ps[k + 1..], name);
      CountZero(ps[..k], name);
      WithoutAbsent(ps[..k], name);
      WithoutAppend(ps[..k] + [p], rest, name);
      WithoutAppend(ps[..k], [p], name);
      WithoutIdempotent(ps[k + 1..], name);
      assert ps == ps[..k] + [ps[k]] + ps[k + 1..];
      WithoutAppend(ps[..k] + [ps[k]], ps[k + 1..], name);
      WithoutAppend(ps[..k], [ps[k]], name);
      assert [ps[k]][1..] == [];
    }
  }

  /** Once a prefix has an entry called `name`, what follows does not change `get`. */
  lemma {:induction false} GetPrefix(a: seq<Param>, b: seq<Param>, name: string)
    requires Get(a, name).Some?
    ensures Get(a + b, name) == Get(a, name)
  {
    assert a != [];
    assert a + b == [a[0]] + (a[1..] + b);
    GetCons(a[0], a[1..] + b, name);
    GetCons(a[0], a[1..], name);
    assert [a[0]] + a[1..] == a;
    if a[0].name != name {
      GetPrefix(a[1..], b, name);
    }
  }

  /** Setting a name that is absent appends exactly one entry at the end. */
  lemma SetValueAbsent(ps: seq<Param>, name: string, value: string)
    requires Count(ps, name) == 0
    ensures SetValue(ps, name, value) == ps + [Param(name, value)]
  {
    CountZero(ps, name);
  }

  /** The entries of `ps` not called `name`, collected in order by one pass over the list. */
  method RemoveAll(ps: seq<Param>, name: string) returns (kept: seq<Param>)
    ensures kept == Without(ps, name)
  {
    kept := [];
    var i := 0;
    while i < |ps|
      invariant 0 <= i <= |ps|
      invariant kept == Without(ps[..i], name)
    {
      assert ps[..i + 1] == ps[..i] + [ps[i]];
      WithoutAppend(ps[..i], [ps[i]], name);
      assert [ps[i]][1..] == [];
      if ps[i].name != name {
        kept := kept + [ps[i]];
      }
      i := i + 1;
    }
    assert ps[..i] == ps;
  }

  /**
    A URLSearchParams object: its entry list is updated in place by
    `delete` and `set`.
  */
  class SearchParams {
    var entries: seq<Param>

    constructor (init: seq<Param>)
      ensures entries == init
    {
      entries := init;
    }

    /** `params.delete(name)`. */
    method Delete(name: string)
      modifies this
      ensures entries == Without(old(entries), name)
    {
      entries := RemoveAll(entries, name);
    }

    /** `params.set(name, value)`. */
    method Set(name: string, value: string)
      modifies this
      ensures entries == SetValue(old(entries), name, value)
    {
      var es := entries;
      var i := 0;
      while i < |es| && es[i].name != name
        invariant 0 <= i <= |es|
        invariant forall j :: 0 <= j < i ==> es[j].name != name
      {
        i := i + 1;
      }
      assert i == FindIndex(es, name);
      if i == |es| {
        entries := es + [Param(name, value)];
      } else {
        var rest := RemoveAll(es[i + 1..], name);
        entries := es[..i] + [Param(name, value)] + rest;
      }
    }
  }
}
