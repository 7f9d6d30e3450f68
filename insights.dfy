/**
 * ui/InsightsActivity.kt: `calculateTopCategories` groups the recipes by
 * exact category, sums and averages each group's ratings, and keeps the
 * three categories with the greatest total rating.
 */
module Insights {
  import opened Entities
  import opened Seqs
  import opened Sorting
  import opened Grouping

  const TopCount := 3

  datatype CategoryRating = CategoryRating(category: string, count: int, totalRating: real, avgRating: real)

  /** `groupBy { it.category }`: case-sensitive. */
  function CategoryOf(r: Recipe): string { r.category }

  function Summary(g: Group<string, Recipe>): CategoryRating {
    CategoryRating(g.key, |g.members|, SumOf(g.members, Rating), Average(g.members))
  }

  /** `categoryMap.map { (category, recipesInCategory) -> … }`. */
  function Summaries(gs: seq<Group<string, Recipe>>): seq<CategoryRating> {
    seq(|gs|, i requires 0 <= i < |gs| => Summary(gs[i]))
  }

  /** `sortedByDescending { it.totalRating }`, as "comes strictly before". */
  function HigherTotal(a: CategoryRating, b: CategoryRating): bool {
    a.totalRating > b.totalRating
  }

  function CategoryOfEntry(c: CategoryRating): string { c.category }

  function TopCategories(recipes: seq<Recipe>): seq<CategoryRating> {
    Take(SortBy(Summaries(GroupBy(recipes, CategoryOf)), HigherTotal), TopCount)
  }

  /** The recipes of category `c`, exactly as spelled. */
  function InCategory(recipes: seq<Recipe>, c: string): seq<Recipe> {
    Filter(recipes, HasKey(CategoryOf, c))
  }

  /** `e` describes a category that occurs in `recipes`: its size and the sum of its ratings. */
  ghost predicate EntryOf(recipes: seq<Recipe>, e: CategoryRating) {
    && 1 <= e.count == |InCategory(recipes, e.category)|
    && e.totalRating == SumOf(InCategory(recipes, e.category), Rating)
    && exists k :: 0 <= k < |recipes| && recipes[k].category == e.category
  }

  function Categories(es: seq<CategoryRating>): set<string> {
    set e | e in es :: e.category
  }

  lemma HigherTotalIsStrictWeakOrder()
    ensures StrictWeakOrder(HigherTotal)
  {
  }

  /** The grouping's entries, one per category of the input, before sorting. */
  lemma SummariesSpec(recipes: seq<Recipe>, gs: seq<Group<string, Recipe>>)
    requires IsGrouping(gs, recipes, CategoryOf)
    ensures var s := Summaries(gs);
      && |s| == |gs|
      && DistinctBy(s, CategoryOfEntry)
      && (forall e :: e in s ==> EntryOf(recipes, e))
  {
    var s := Summaries(gs);
    assert forall i :: 0 <= i < |s| ==> s[i].category == gs[i].key;
    forall x | x in s ensures EntryOf(recipes, x) {
      var i :| 0 <= i < |s| && s[i] == x;
      SummaryIsEntry(recipes, gs, i);
    }
  }

  lemma SummaryIsEntry(recipes: seq<Recipe>, gs: seq<Group<string, Recipe>>, i: int)
    requires IsGrouping(gs, recipes, CategoryOf) && 0 <= i < |gs|
    ensures EntryOf(recipes, Summary(gs[i]))
  {
    var m := gs[i].members;
    assert m == InCategory(recipes, gs[i].key);
    assert m[0] in m;
    FilterMultiplicity(recipes, HasKey(CategoryOf, gs[i].key), m[0]);
    assert m[0] in multiset(recipes);
    var k :| 0 <= k < |recipes| && recipes[k] == m[0];
    assert recipes[k].category == gs[i].key;
  }

  /** Every category of the input has an entry among the grouping's. */
  lemma SummariesCover(recipes: seq<Recipe>, gs: seq<Group<string, Recipe>>, k: int)
    requires IsGrouping(gs, recipes, CategoryOf) && 0 <= k < |recipes|
    ensures exists p :: 0 <= p < |Summaries(gs)| && Summaries(gs)[p].category == recipes[k].category
  {
    assert recipes[k] in recipes;
    assert CategoryOf(recipes[k]) in Keys(gs);
    var p :| 0 <= p < |gs| && Keys(gs)[p] == recipes[k].category;
    assert Summaries(gs)[p].category == recipes[k].category;
  }

  /**
   * At most three entries, for distinct categories of the input, each with
   * its recipe count and total rating, ordered by total from highest down.
   */
  lemma {:induction false} TopCategoriesSpec(recipes: seq<Recipe>)
    ensures var r := TopCategories(recipes);
      && |r| <= TopCount
      && DistinctBy(r, CategoryOfEntry)
      && (forall e :: e in r ==> EntryOf(recipes, e))
      && (forall i, j :: 0 <= i < j < |r| ==> r[i].totalRating >= r[j].totalRating)
  {
    var gs := GroupBy(recipes, CategoryOf);
    var s := Summaries(gs);
    var sorted := SortBy(s, HigherTotal);
    var r := TopCategories(recipes);
    GroupByIsGrouping(recipes, CategoryOf);
    SummariesSpec(recipes, gs);
    HigherTotalIsStrictWeakOrder();
    TakeSorted(s, HigherTotal, TopCount);
    SortPermutation(s, HigherTotal);
    PermutationDistinctBy(s, sorted, CategoryOfEntry);
    assert r == sorted[..|r|];
    KeptEntries(recipes, s, r);
  }

  lemma KeptEntries(recipes: seq<Recipe>, s: seq<CategoryRating>, r: seq<CategoryRating>)
    requires multiset(r) <= multiset(s) && forall e :: e in s ==> EntryOf(recipes, e)
    ensures forall e :: e in r ==> EntryOf(recipes, e)
  {
    forall e | e in r ensures EntryOf(recipes, e) {
      assert e in multiset(s);
    }
  }

  /** Either three categories are shown, or every category of the input is. */
  lemma {:induction false} TopCategoriesCount(recipes: seq<Recipe>)
    ensures var r := TopCategories(recipes);
      |r| == TopCount || forall k :: 0 <= k < |recipes| ==> recipes[k].category in Categories(r)
  {
    var gs := GroupBy(recipes, CategoryOf);
    var s := Summaries(gs);
    var r := TopCategories(recipes);
    GroupByIsGrouping(recipes, CategoryOf);
    HigherTotalIsStrictWeakOrder();
    TakeSorted(s, HigherTotal, TopCount);
    if |r| < TopCount {
      SortPermutation(s, HigherTotal);
      assert r == SortBy(s, HigherTotal);
      forall k | 0 <= k < |recipes| ensures recipes[k].category in Categories(r) {
        SummariesCover(recipes, gs, k);
        var p :| 0 <= p < |s| && s[p].category == recipes[k].category;
        assert s[p] in multiset(s);
        assert s[p] in r;
      }
    }
  }

  /** No category left out has a total rating above any category kept. */
  lemma {:induction false} NoBetterCategoryOmitted(recipes: seq<Recipe>, k: int, i: int)
    requires 0 <= k < |recipes| && recipes[k].category !in Categories(TopCategories(recipes))
    requires 0 <= i < |TopCategories(recipes)|
    ensures SumOf(InCategory(recipes, recipes[k].category), Rating) <= TopCategories(recipes)[i].totalRating
  {
    var gs := GroupBy(recipes, CategoryOf);
    var s := Summaries(gs);
    var r := TopCategories(recipes);
    GroupByIsGrouping(recipes, CategoryOf);
    SummariesSpec(recipes, gs);
    SummariesCover(recipes, gs, k);
    var p :| 0 <= p < |s| && s[p].category == recipes[k].category;
    assert s[p] in s;
    assert s[p] !in r;
    assert s[p] !in multiset(r);
    HigherTotalIsStrictWeakOrder();
    TakeSorted(s, HigherTotal, TopCount);
    assert s[p] in multiset(s) - multiset(r);
  }

  /** Nothing is shown exactly when there is no recipe. */
  lemma {:induction false} TopCategoriesEmpty(recipes: seq<Recipe>)
    ensures TopCategories(recipes) == [] <==> recipes == []
  {
    var gs := GroupBy(recipes, CategoryOf);
    var s := Summaries(gs);
    GroupByIsGrouping(recipes, CategoryOf);
    HigherTotalIsStrictWeakOrder();
    TakeSorted(s, HigherTotal, TopCount);
    if recipes != [] {
      SummariesCover(recipes, gs, 0);
    } else {
      assert TotalSize(gs) == 0;
    }
  }
}
