/**
 * A Python `dict` from strings to strings: a map together with the order in
 * which its keys were first inserted. Assigning to a present key changes its
 * value and keeps its place; a new key goes to the end.
 */
module OrderedDict {

  datatype Dict = Dict(keys: seq<string>, vals: map<string, string>)

  /** Keys are listed once each, and exactly the keys of the map are listed. */
  ghost predicate Valid(d: Dict)
  {
    && (forall i, j :: 0 <= i < j < |d.keys| ==> d.keys[i] != d.keys[j])
    && (forall k :: k in d.vals <==> k in d.keys)
  }

  const Empty := Dict([], map[])

  /** `d[k] = v`. */
  function Set(d: Dict, k: string, v: string): (r: Dict)
    requires Valid(d)
    ensures Valid(r)
    ensures r.vals == d.vals[k := v]
    ensures r.keys == if k in d.vals then d.keys else d.keys + [k]
  {
    if k in d.vals then Dict(d.keys, d.vals[k := v]) else Dict(d.keys + [k], d.vals[k := v])
  }

  /** `d[k] += s` for a key that is present. */
  function Append(d: Dict, k: string, s: string): (r: Dict)
    requires Valid(d) && k in d.vals
    ensures Valid(r) && r.keys == d.keys
    ensures r.vals == d.vals[k := d.vals[k] + s]
  {
    Set(d, k, d.vals[k] + s)
  }

  /** `d.get(k, "")`. */
  function Get(d: Dict, k: string): (r: string)
    ensures k in d.vals ==> r == d.vals[k]
    ensures k !in d.vals ==> r == ""
  {
    if k in d.vals then d.vals[k] else ""
  }

  /** The entries of `vals` whose keys are listed in `ks`. */
  function Restrict(vals: map<string, string>, ks: seq<string>): map<string, string>
  {
    map k | k in ks && k in vals :: vals[k]
  }

  /** `d[k] = vals[k]` for each `k` of `ks` in turn: the keys of `d` stay first, in order. */
  function UpdateWith(d: Dict, ks: seq<string>, vals: map<string, string>): (r: Dict)
    requires Valid(d) && forall k :: k in ks ==> k in vals
    ensures Valid(r)
    ensures |d.keys| <= |r.keys| && r.keys[..|d.keys|] == d.keys
    decreases |ks|
  {
    if ks == [] then d
    else
      var d' := Set(d, ks[0], vals[ks[0]]);
      var r := UpdateWith(d', ks[1..], vals);
      PrefixOfPrefix(r.keys, d'.keys, d.keys);
      r
  }

  /** A prefix of a prefix is a prefix. */
  lemma PrefixOfPrefix(a: seq<string>, b: seq<string>, c: seq<string>)
    requires |b| <= |a| && a[..|b|] == b
    requires |c| <= |b| && b[..|c|] == c
    ensures a[..|c|] == c
  {
    assert a[..|c|] == a[..|b|][..|c|];
  }

  /** The values after the assignments: those of `vals` for the keys of `ks`, the old ones elsewhere. */
  lemma {:induction false} UpdateWithVals(d: Dict, ks: seq<string>, vals: map<string, string>)
    requires Valid(d) && forall k :: k in ks ==> k in vals
    ensures UpdateWith(d, ks, vals).vals == d.vals + Restrict(vals, ks)
    decreases |ks|
  {
    if ks == [] {
      assert Restrict(vals, ks) == map[];
    } else {
      var d' := Set(d, ks[0], vals[ks[0]]);
      UpdateWithVals(d', ks[1..], vals);
      RestrictCons(d.vals, vals, ks);
    }
  }

  /** Assigning the first key and then the rest is assigning them all. */
  lemma RestrictCons(m: map<string, string>, vals: map<string, string>, ks: seq<string>)
    requires ks != [] && ks[0] in vals
    ensures m[ks[0] := vals[ks[0]]] + Restrict(vals, ks[1..]) == m + Restrict(vals, ks)
  {
    var lhs := m[ks[0] := vals[ks[0]]] + Restrict(vals, ks[1..]);
    var rhs := m + Restrict(vals, ks);
    forall k | k in lhs
      ensures k in rhs && lhs[k] == rhs[k]
    {
      assert k in ks[1..] ==> k in ks;
    }
    forall k | k in rhs
      ensures k in lhs
    {
      if k in ks && k != ks[0] {
        assert k in ks[1..] by {
          var i :| 0 <= i < |ks| && ks[i] == k;
          assert ks[1..][i - 1] == k;
        }
      }
    }
  }

  /** The keys of `ks` that `m` does not hold, in the order of `ks`. */
  function Missing(ks: seq<string>, m: map<string, string>): (r: seq<string>)
    ensures forall k :: k in r <==> k in ks && k !in m
  {
    if ks == [] then [] else (if ks[0] in m then [] else [ks[0]]) + Missing(ks[1..], m)
  }

  /** Setting a key that `ks` does not list does not change which keys of `ks` are missing. */
  lemma {:induction false} MissingUpdate(ks: seq<string>, m: map<string, string>, k: string, v: string)
    requires k !in ks
    ensures Missing(ks, m[k := v]) == Missing(ks, m)
  {
    if ks != [] {
      MissingUpdate(ks[1..], m, k, v);
    }
  }

  /**
   * Assigning distinct keys in turn: the keys already there keep their order,
   * and the new ones follow them in the order they were assigned.
   */
  lemma {:induction false} UpdateWithKeys(d: Dict, ks: seq<string>, vals: map<string, string>)
    requires Valid(d) && forall k :: k in ks ==> k in vals
    requires forall i, j :: 0 <= i < j < |ks| ==> ks[i] != ks[j]
    ensures UpdateWith(d, ks, vals).keys == d.keys + Missing(ks, d.vals)
    decreases |ks|
  {
    if ks != [] {
      DistinctTail(ks);
      UpdateWithKeys(Set(d, ks[0], vals[ks[0]]), ks[1..], vals);
      SetMissing(d.keys, d.vals, ks, vals[ks[0]]);
    }
  }

  /** Assigning the first key moves it, if new, from the missing keys to the end of the keys. */
  lemma SetMissing(keys: seq<string>, vals: map<string, string>, ks: seq<string>, v: string)
    requires ks != [] && ks[0] !in ks[1..]
    ensures (if ks[0] in vals then keys else keys + [ks[0]]) + Missing(ks[1..], vals[ks[0] := v])
         == keys + Missing(ks, vals)
  {
    var k, rest := ks[0], ks[1..];
    MissingUpdate(rest, vals, k, v);
    MissingCons(ks, vals);
    var m := Missing(rest, vals);
    if k in vals {
      assert [] + m == m;
    } else {
      assert (keys + [k]) + m == keys + ([k] + m);
    }
  }

  /** `Missing` on a non-empty list: the first key, unless present, then the missing keys of the rest. */
  lemma MissingCons(ks: seq<string>, m: map<string, string>)
    requires ks != []
    ensures Missing(ks, m) == (if ks[0] in m then [] else [ks[0]]) + Missing(ks[1..], m)
  {
  }

  /** The rest of a list of distinct keys is distinct and does not hold the first key. */
  lemma DistinctTail(ks: seq<string>)
    requires ks != [] && forall i, j :: 0 <= i < j < |ks| ==> ks[i] != ks[j]
    ensures forall i, j :: 0 <= i < j < |ks[1..]| ==> ks[1..][i] != ks[1..][j]
    ensures ks[0] !in ks[1..]
  {
    var rest := ks[1..];
    forall i, j | 0 <= i < j < |rest|
      ensures rest[i] != rest[j]
    {
      assert rest[i] == ks[i + 1] && rest[j] == ks[j + 1];
    }
    forall i | 0 <= i < |rest|
      ensures rest[i] != ks[0]
    {
      assert rest[i] == ks[i + 1];
    }
  }

  /**
   * `d.update(e)`: the entries of `e` overwrite those of `d` with the same key;
   * the keys of `d` keep their order, and the keys only `e` has follow them.
   */
  function Update(d: Dict, e: Dict): (r: Dict)
    requires Valid(d) && Valid(e)
    ensures Valid(r)
    ensures forall k :: k in r.vals <==> k in d.vals || k in e.vals
    ensures forall k :: k in e.vals ==> r.vals[k] == e.vals[k]
    ensures forall k :: k in d.vals && k !in e.vals ==> r.vals[k] == d.vals[k]
    ensures |d.keys| <= |r.keys| && r.keys[..|d.keys|] == d.keys
    ensures r.keys == d.keys + Missing(e.keys, d.vals)
  {
    var r := UpdateWith(d, e.keys, e.vals);
    UpdateWithKeys(d, e.keys, e.vals);
    UpdateWithVals(d, e.keys, e.vals);
    RestrictAll(e);
    r
  }

  /** The entries of an update are the map union, the second map winning. */
  lemma UpdateVals(d: Dict, e: Dict)
    requires Valid(d) && Valid(e)
    ensures Update(d, e).vals == d.vals + e.vals
  {
    UpdateWithVals(d, e.keys, e.vals);
    RestrictAll(e);
  }

  /** Restricting a well-formed dictionary's map to its own keys changes nothing. */
  lemma RestrictAll(e: Dict)
    requires Valid(e)
    ensures Restrict(e.vals, e.keys) == e.vals
  {
  }

  /** A new key is read back with the value it was given, and nothing else changes. */
  lemma SetGet(d: Dict, k: string, v: string, k': string)
    requires Valid(d)
    ensures Get(Set(d, k, v), k') == if k' == k then v else Get(d, k')
  {
  }
}
