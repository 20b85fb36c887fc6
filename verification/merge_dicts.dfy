/**
 The recursive dictionary merge used to assemble configuration objects.

 A configuration value is a tree: an atom, a list, or a string-keyed map of
 further values. Merging two maps keeps every key of both sides; where both
 sides hold a map under the same key the two are merged recursively, and in
 every other case the right-hand value wins. Lists count as atoms: the
 right-hand list replaces the left-hand one. Merging any number of maps folds
 this two-way merge from left to right, starting from the empty map.
 */
module MergeDicts {

  /** Scalar leaves of a configuration tree. */
  datatype Atom = Str(s: string) | Int(i: int)

  /** A configuration value: an atom, a list of values, or a map of values. */
  datatype Value = Leaf(atom: Atom) | List(items: seq<Value>) | Dict(entries: map<string, Value>)

  type Entries = map<string, Value>

  /** The value stored under `k` when merging `left` and `right`. */
  function MergeValues(left: Value, right: Value): Value
    decreases left, 1
  {
    if left.Dict? && right.Dict? then Dict(Merge(left.entries, right.entries))
    else right
  }

  /** Two-way merge of `left` and `right`; the right-hand side has the last word. */
  function Merge(left: Entries, right: Entries): (r: Entries)
    decreases Dict(left), 0
    ensures r.Keys == left.Keys + right.Keys
    ensures forall k :: k in left && k !in right ==> r[k] == left[k]
    ensures forall k :: k !in left && k in right ==> r[k] == right[k]
    ensures forall k :: k in left && k in right && !(left[k].Dict? && right[k].Dict?) ==> r[k] == right[k]
    ensures forall k :: k in left && k in right && left[k].Dict? && right[k].Dict? ==>
              r[k] == Dict(Merge(left[k].entries, right[k].entries))
  {
    map k | k in left.Keys + right.Keys ::
      if k in left && k in right then MergeValues(left[k], right[k])
      else if k in right then right[k]
      else left[k]
  }

  /** Merge of a sequence of maps, folded from the left, starting from `{}`. */
  function MergeAll(ds: seq<Entries>): (r: Entries)
    ensures |ds| == 0 ==> r == map[]
    ensures forall j :: 0 <= j < |ds| ==> ds[j].Keys <= r.Keys
    ensures 0 < |ds| ==> forall k :: k in ds[|ds| - 1] && !ds[|ds| - 1][k].Dict? ==> r[k] == ds[|ds| - 1][k]
  {
    if |ds| == 0 then map[]
    else
      var init := ds[..|ds| - 1];
      assert forall j :: 0 <= j < |ds| - 1 ==> init[j] == ds[j];
      Merge(MergeAll(init), ds[|ds| - 1])
  }

  /** Every key held by at least one of `ds`. */
  function KeysOf(ds: seq<Entries>): set<string>
  {
    if |ds| == 0 then {} else KeysOf(ds[..|ds| - 1]) + ds[|ds| - 1].Keys
  }

  /** `i` is the last position of `ds` whose map holds `k`. */
  predicate LastHolder(ds: seq<Entries>, k: string, i: int)
  {
    0 <= i < |ds| && k in ds[i] && forall j :: i < j < |ds| ==> k !in ds[j]
  }

  /** Merging a single map gives back that map. */
  lemma MergeSingle(d: Entries)
    ensures MergeAll([d]) == d
  {
  }

  /** When the right-hand map holds no nested maps, merging is plain map
      update: the right-hand entries replace the left-hand ones. */
  lemma MergeFlat(left: Entries, right: Entries)
    requires forall k :: k in right ==> !right[k].Dict?
    ensures Merge(left, right) == left + right
  {
  }

  /** Merging in a one-key map whose value and the left-hand value under that key
      are both maps replaces the left-hand value by their recursive merge and
      leaves every other key alone. */
  lemma MergeSharedDict(left: Entries, k: string, inner: Entries)
    requires k in left && left[k].Dict?
    ensures Merge(left, map[k := Dict(inner)]) == left[k := Dict(Merge(left[k].entries, inner))]
  {
  }

  /** Merging a map with itself changes nothing, at any depth. */
  lemma {:induction false} MergeIdempotent(d: Entries)
    decreases Dict(d)
    ensures Merge(d, d) == d
  {
    forall k | k in d
      ensures Merge(d, d)[k] == d[k]
    {
      if d[k].Dict? {
        MergeIdempotent(d[k].entries);
      }
    }
  }

  /** Merging the right-hand map in a second time changes nothing. */
  lemma {:induction false} MergeRightAbsorbs(a: Entries, b: Entries)
    decreases Dict(b)
    ensures Merge(Merge(a, b), b) == Merge(a, b)
  {
    var ab := Merge(a, b);
    forall k | k in ab
      ensures Merge(ab, b)[k] == ab[k]
    {
      if k in b && b[k].Dict? {
        if k in a && a[k].Dict? {
          MergeRightAbsorbs(a[k].entries, b[k].entries);
        } else {
          MergeIdempotent(b[k].entries);
        }
      }
    }
  }

  /** The keys of a merge are the keys of all the merged maps. */
  lemma {:induction false} MergeAllKeys(ds: seq<Entries>)
    ensures MergeAll(ds).Keys == KeysOf(ds)
  {
    if |ds| > 0 {
      MergeAllKeys(ds[..|ds| - 1]);
    }
  }

  /** Under a key whose last holder stores a non-map value, the merge of all maps
      has exactly that value: later maps override earlier ones. */
  lemma {:induction false} MergeAllLastWins(ds: seq<Entries>, k: string, i: int)
    requires LastHolder(ds, k, i)
    requires !ds[i][k].Dict?
    ensures k in MergeAll(ds) && MergeAll(ds)[k] == ds[i][k]
  {
    var n := |ds| - 1;
    var init := ds[..n];
    MergeAllKeys(init);
    if i < n {
      assert LastHolder(init, k, i);
      MergeAllLastWins(init, k, i);
    }
  }

  /** A key that none of `ds` holds is absent from their merge. */
  lemma MergeAllAbsent(ds: seq<Entries>, k: string)
    requires forall j :: 0 <= j < |ds| ==> k !in ds[j]
    ensures k !in MergeAll(ds)
  {
    MergeAllKeys(ds);
    KeysOfMembers(ds, k);
  }

  /** A key belongs to `KeysOf(ds)` exactly when some map of `ds` holds it. */
  lemma {:induction false} KeysOfMembers(ds: seq<Entries>, k: string)
    ensures k in KeysOf(ds) <==> exists j :: 0 <= j < |ds| && k in ds[j]
  {
    if |ds| > 0 {
      var n := |ds| - 1;
      KeysOfMembers(ds[..n], k);
      if k in KeysOf(ds[..n]) {
        var j :| 0 <= j < n && k in ds[..n][j];
        assert k in ds[j];
      }
      if exists j :: 0 <= j < |ds| && k in ds[j] {
        var j :| 0 <= j < |ds| && k in ds[j];
        if j < n {
          assert k in ds[..n][j];
        }
      }
    }
  }

  /** The fold order matters: the two-way merge is not associative, so the
      left-to-right fold cannot be replaced by a right-to-left one. */
  lemma MergeNotAssociative()
    ensures var a := map["k" := Dict(map["x" := Leaf(Int(1))])];
            var b := map["k" := Leaf(Int(5))];
            var c := map["k" := Dict(map["y" := Leaf(Int(2))])];
            Merge(Merge(a, b), c) != Merge(a, Merge(b, c))
  {
    var a := map["k" := Dict(map["x" := Leaf(Int(1))])];
    var b := map["k" := Leaf(Int(5))];
    var c := map["k" := Dict(map["y" := Leaf(Int(2))])];
    assert Merge(Merge(a, b), c)["k"] == Dict(map["y" := Leaf(Int(2))]);
    assert "x" in Merge(a, Merge(b, c))["k"].entries;
  }
}
