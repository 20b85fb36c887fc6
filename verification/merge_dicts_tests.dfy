/**
 The unit-test scenarios of the dictionary merge, each stated as a lemma about
 `MergeDicts.MergeAll` on the same maps the scenarios use. Each scenario is
 proved in two steps: the fold is first reduced to map updates, then the
 updates are evaluated.
 */
module MergeDictsTests {
  import opened MergeDicts

  function S(s: string): Value { Leaf(Str(s)) }
  function N(i: int): Value { Leaf(Int(i)) }

  /** Folding two maps is one two-way merge. */
  lemma MergeAllTwo(a: Entries, b: Entries)
    ensures MergeAll([a, b]) == Merge(a, b)
  {
    assert [a, b][..1] == [a];
    MergeSingle(a);
  }

  /** Folding three maps merges the first two, then the third. */
  lemma MergeAllThree(a: Entries, b: Entries, c: Entries)
    ensures MergeAll([a, b, c]) == Merge(Merge(a, b), c)
  {
    assert [a, b, c][..2] == [a, b];
    MergeAllTwo(a, b);
  }

  /** Two maps, the right one without nested maps, fold like a map update. */
  lemma FlatTwo(a: Entries, b: Entries)
    requires forall k :: k in b ==> !b[k].Dict?
    ensures MergeAll([a, b]) == a + b
  {
    MergeAllTwo(a, b);
    MergeFlat(a, b);
  }

  /** Three maps without nested maps fold like successive map updates. */
  lemma FlatThree(a: Entries, b: Entries, c: Entries)
    requires forall k :: k in b ==> !b[k].Dict?
    requires forall k :: k in c ==> !c[k].Dict?
    ensures MergeAll([a, b, c]) == a + b + c
  {
    MergeAllThree(a, b, c);
    MergeFlat(a, b);
    MergeFlat(a + b, c);
  }

  /** A single map merges to itself. */
  lemma SingleDict()
    ensures var d := map["foo" := S("bar"), "baz" := S("bacon"), "spam" := N(42)];
            MergeAll([d]) == d
  {
    MergeSingle(map["foo" := S("bar"), "baz" := S("bacon"), "spam" := N(42)]);
  }

  /** The two-map scenario, first step: the fold is a plain map update. */
  lemma TwoDictsFold()
    ensures var left := map["foo" := S("bar"), "baz" := S("bacon"), "spam" := N(42)];
            var right := map["foo" := N(3), "baz" := S("bar")];
            MergeAll([left, right]) == left + right
  {
    FlatTwo(map["foo" := S("bar"), "baz" := S("bacon"), "spam" := N(42)], map["foo" := N(3), "baz" := S("bar")]);
  }

  /** The two-map scenario, second step: evaluating the map update. */
  lemma TwoDictsUpdate()
    ensures var left := map["foo" := S("bar"), "baz" := S("bacon"), "spam" := N(42)];
            var right := map["foo" := N(3), "baz" := S("bar")];
            left + right == map["baz" := S("bar"), "foo" := N(3), "spam" := N(42)]
  {
  }

  /** Atoms of the right-hand map override, keys only on the left survive. */
  lemma TwoDictsPrimitives()
    ensures var left := map["foo" := S("bar"), "baz" := S("bacon"), "spam" := N(42)];
            var right := map["foo" := N(3), "baz" := S("bar")];
            MergeAll([left, right]) == map["baz" := S("bar"), "foo" := N(3), "spam" := N(42)]
  {
    TwoDictsFold();
    TwoDictsUpdate();
  }

  /** The three-map scenario, first step: the fold is two successive map updates. */
  lemma ThreeDictsFold()
    ensures var left := map["foo" := S("bar"), "time" := N(1335020400)];
            var middle := map["baz" := S("bacon"), "spam" := N(42)];
            var right := map["foo" := S("blah"), "something" := S("else"), "spam" := S("eggs")];
            MergeAll([left, middle, right]) == left + middle + right
  {
    FlatThree(map["foo" := S("bar"), "time" := N(1335020400)],
              map["baz" := S("bacon"), "spam" := N(42)],
              map["foo" := S("blah"), "something" := S("else"), "spam" := S("eggs")]);
  }

  /** The three-map scenario, second step: evaluating the two map updates. */
  lemma ThreeDictsUpdate()
    ensures var left := map["foo" := S("bar"), "time" := N(1335020400)];
            var middle := map["baz" := S("bacon"), "spam" := N(42)];
            var right := map["foo" := S("blah"), "something" := S("else"), "spam" := S("eggs")];
            left + middle + right ==
              map["baz" := S("bacon"), "foo" := S("blah"), "something" := S("else"),
                  "spam" := S("eggs"), "time" := N(1335020400)]
  {
  }

  /** With three maps the last map holding a key wins. */
  lemma ThreeDictsPrimitives()
    ensures var left := map["foo" := S("bar"), "time" := N(1335020400)];
            var middle := map["baz" := S("bacon"), "spam" := N(42)];
            var right := map["foo" := S("blah"), "something" := S("else"), "spam" := S("eggs")];
            MergeAll([left, middle, right]) ==
              map["baz" := S("bacon"), "foo" := S("blah"), "something" := S("else"),
                  "spam" := S("eggs"), "time" := N(1335020400)]
  {
    ThreeDictsFold();
    ThreeDictsUpdate();
  }

  /** The list scenario, first step: the fold is a plain map update, lists being atoms. */
  lemma ListsFold()
    ensures var left := map["foo" := List([S("bar"), S("baz")]), "baz" := S("bacon")];
            var right := map["foo" := List([S("spam"), S("eggs")])];
            MergeAll([left, right]) == left + right
  {
    FlatTwo(map["foo" := List([S("bar"), S("baz")]), "baz" := S("bacon")], map["foo" := List([S("spam"), S("eggs")])]);
  }

  /** The list scenario, second step: evaluating the map update. */
  lemma ListsUpdate()
    ensures var left := map["foo" := List([S("bar"), S("baz")]), "baz" := S("bacon")];
            var right := map["foo" := List([S("spam"), S("eggs")])];
            left + right == map["baz" := S("bacon"), "foo" := List([S("spam"), S("eggs")])]
  {
  }

  /** Lists are atoms: the right-hand list replaces the left-hand one. */
  lemma ListsAreAtoms()
    ensures var left := map["foo" := List([S("bar"), S("baz")]), "baz" := S("bacon")];
            var right := map["foo" := List([S("spam"), S("eggs")])];
            MergeAll([left, right]) == map["baz" := S("bacon"), "foo" := List([S("spam"), S("eggs")])]
  {
    ListsFold();
    ListsUpdate();
  }

  /** The innermost level of the nested scenario, under `foo` and then `bar`. */
  lemma NestedInner()
    ensures Merge(map["spam" := S("eggs")], map["nom" := S("nom")]) == map["spam" := S("eggs"), "nom" := S("nom")]
  {
    MergeFlat(map["spam" := S("eggs")], map["nom" := S("nom")]);
  }

  /** The level under `foo`: the maps under `bar` merge recursively. */
  lemma NestedMiddle()
    ensures var fooL := map["baz" := S("bacon"), "bar" := Dict(map["spam" := S("eggs")])];
            Merge(fooL, map["bar" := Dict(map["nom" := S("nom")])]) ==
              fooL["bar" := Dict(map["spam" := S("eggs"), "nom" := S("nom")])]
  {
    MergeSharedDict(map["baz" := S("bacon"), "bar" := Dict(map["spam" := S("eggs")])], "bar", map["nom" := S("nom")]);
    NestedInner();
  }

  /** The outer level: the maps under `foo` merge recursively. */
  lemma NestedOuter()
    ensures var fooL := map["baz" := S("bacon"), "bar" := Dict(map["spam" := S("eggs")])];
            var fooR := map["bar" := Dict(map["nom" := S("nom")])];
            MergeAll([map["foo" := Dict(fooL)], map["foo" := Dict(fooR)]]) ==
              map["foo" := Dict(fooL["bar" := Dict(map["spam" := S("eggs"), "nom" := S("nom")])])]
  {
    var fooL := map["baz" := S("bacon"), "bar" := Dict(map["spam" := S("eggs")])];
    var fooR := map["bar" := Dict(map["nom" := S("nom")])];
    MergeAllTwo(map["foo" := Dict(fooL)], map["foo" := Dict(fooR)]);
    MergeSharedDict(map["foo" := Dict(fooL)], "foo", fooR);
    NestedMiddle();
  }

  /** The nested scenario, last step: evaluating the update of `bar` under `foo`. */
  lemma NestedUpdate()
    ensures var fooL := map["baz" := S("bacon"), "bar" := Dict(map["spam" := S("eggs")])];
            fooL["bar" := Dict(map["spam" := S("eggs"), "nom" := S("nom")])] ==
              map["bar" := Dict(map["spam" := S("eggs"), "nom" := S("nom")]), "baz" := S("bacon")]
  {
  }

  /** Maps under the same key merge recursively, at every depth. */
  lemma NestedDicts()
    ensures var left := map["foo" := Dict(map["baz" := S("bacon"), "bar" := Dict(map["spam" := S("eggs")])])];
            var right := map["foo" := Dict(map["bar" := Dict(map["nom" := S("nom")])])];
            MergeAll([left, right]) ==
              map["foo" := Dict(map["bar" := Dict(map["spam" := S("eggs"), "nom" := S("nom")]),
                                    "baz" := S("bacon")])]
  {
    NestedOuter();
    NestedUpdate();
  }
}
