/**
 * ui/ExploreActivity.kt: `calculateMonthlyRatings` groups the recipes by
 * the "YYYY-MM" prefix of their date and lists one entry per month, the
 * best average rating first; `formatMonth` and the count label print an
 * entry.
 */
module Explore {
  import opened Wrappers
  import opened Entities
  import opened Text
  import opened Numbers
  import opened Seqs
  import opened Sorting
  import opened Grouping
  import RecipeForm

  datatype MonthlyRating = MonthlyRating(month: string, count: int, rating: real)

  /** `recipe.date.substring(0, 7)`, where the date is long enough. */
  function MonthOf(r: Recipe): string {
    Take(r.date, 7)
  }

  /** `substring(0, 7)` throws on a shorter date, and the whole calculation with it. */
  predicate AllDated(recipes: seq<Recipe>) {
    forall i :: 0 <= i < |recipes| ==> |recipes[i].date| >= 7
  }

  function Summary(g: Group<string, Recipe>): MonthlyRating {
    MonthlyRating(g.key, |g.members|, Average(g.members))
  }

  /** `monthlyMap.map { (month, recipesInMonth) -> … }`. */
  function Summaries(gs: seq<Group<string, Recipe>>): seq<MonthlyRating> {
    seq(|gs|, i requires 0 <= i < |gs| => Summary(gs[i]))
  }

  /** `sortedByDescending { it.rating }`, as "comes strictly before". */
  function HigherRating(a: MonthlyRating, b: MonthlyRating): bool {
    a.rating > b.rating
  }

  function MonthOfEntry(m: MonthlyRating): string { m.month }

  function CountOf(m: MonthlyRating): real { m.count as real }

  /** `calculateMonthlyRatings`; `None` where `substring` throws. */
  function MonthlyRatings(recipes: seq<Recipe>): Option<seq<MonthlyRating>> {
    if !AllDated(recipes) then None
    else Some(SortBy(Summaries(GroupBy(recipes, MonthOf)), HigherRating))
  }

  // ---------------------------------------------------------------- the calculation

  lemma HigherRatingIsStrictWeakOrder()
    ensures StrictWeakOrder(HigherRating)
  {
  }

  /** Any recipe with a date shorter than seven characters makes the calculation fail. */
  lemma ShortDateFails(recipes: seq<Recipe>, i: int)
    requires 0 <= i < |recipes| && |recipes[i].date| < 7
    ensures MonthlyRatings(recipes) == None
  {
  }

  /** `m` is the entry of a month that occurs in `recipes`, counting that month's recipes. */
  ghost predicate EntryOf(recipes: seq<Recipe>, m: MonthlyRating) {
    && 1 <= m.count == |Filter(recipes, HasKey(MonthOf, m.month))|
    && exists k :: 0 <= k < |recipes| && MonthOf(recipes[k]) == m.month
  }

  /** Every recipe's month has an entry. */
  ghost predicate Covers(recipes: seq<Recipe>, ms: seq<MonthlyRating>) {
    forall k :: 0 <= k < |recipes| ==> MonthOf(recipes[k]) in Months(ms)
  }

  function Months(ms: seq<MonthlyRating>): set<string> {
    set m | m in ms :: m.month
  }

  /** The grouping's entries, before they are sorted. */
  lemma {:induction false} SummariesSpec(recipes: seq<Recipe>)
    ensures var s := Summaries(GroupBy(recipes, MonthOf));
      && DistinctBy(s, MonthOfEntry)
      && (forall m :: m in s ==> EntryOf(recipes, m))
      && Covers(recipes, s)
      && SumOf(s, CountOf) == |recipes| as real
  {
    var gs := GroupBy(recipes, MonthOf);
    GroupByIsGrouping(recipes, MonthOf);
    SummariesAreEntries(recipes, gs);
    SummariesCover(recipes, gs);
    CountsAreSizes(gs);
  }

  lemma SummariesAreEntries(recipes: seq<Recipe>, gs: seq<Group<string, Recipe>>)
    requires IsGrouping(gs, recipes, MonthOf)
    ensures var s := Summaries(gs);
      DistinctBy(s, MonthOfEntry) && forall m :: m in s ==> EntryOf(recipes, m)
  {
    var s := Summaries(gs);
    forall x | x in s ensures EntryOf(recipes, x) {
      var i :| 0 <= i < |s| && s[i] == x;
      var m := gs[i].members;
      assert m[0] in m;
      FilterMultiplicity(recipes, HasKey(MonthOf, gs[i].key), m[0]);
      assert m[0] in multiset(recipes);
      var k :| 0 <= k < |recipes| && recipes[k] == m[0];
      assert MonthOf(recipes[k]) == s[i].month;
    }
  }

  lemma SummariesCover(recipes: seq<Recipe>, gs: seq<Group<string, Recipe>>)
    requires IsGrouping(gs, recipes, MonthOf)
    ensures Covers(recipes, Summaries(gs))
  {
    var s := Summaries(gs);
    forall k | 0 <= k < |recipes| ensures MonthOf(recipes[k]) in Months(s) {
      assert recipes[k] in recipes;
      assert MonthOf(recipes[k]) in Keys(gs);
      var i :| 0 <= i < |gs| && Keys(gs)[i] == MonthOf(recipes[k]);
      assert s[i] in s;
    }
  }

  lemma {:induction false} CountsAreSizes(gs: seq<Group<string, Recipe>>)
    ensures SumOf(Summaries(gs), CountOf) == TotalSize(gs) as real
  {
    if gs != [] {
      assert Summaries(gs)[1..] == Summaries(gs[1..]);
      CountsAreSizes(gs[1..]);
    }
  }

  /**
   * The entries: one per month that occurs in the input and no other, each
   * counting that month's recipes, the counts adding up to the input's
   * length, ordered by rating from best to worst; they are the grouping's
   * entries reordered.
   */
  lemma {:induction false} MonthlyRatingsSpec(recipes: seq<Recipe>)
    requires AllDated(recipes)
    ensures MonthlyRatings(recipes).Some?
    ensures var r := MonthlyRatings(recipes).value;
      && DistinctBy(r, MonthOfEntry)
      && (forall m :: m in r ==> EntryOf(recipes, m))
      && Covers(recipes, r)
      && SumOf(r, CountOf) == |recipes| as real
      && (forall i, j :: 0 <= i < j < |r| ==> r[i].rating >= r[j].rating)
      && multiset(r) == multiset(Summaries(GroupBy(recipes, MonthOf)))
  {
    var s := Summaries(GroupBy(recipes, MonthOf));
    var r := SortBy(s, HigherRating);
    SummariesSpec(recipes);
    SortPermutation(s, HigherRating);
    HigherRatingIsStrictWeakOrder();
    SortSorted(s, HigherRating);
    PermutationDistinctBy(s, r, MonthOfEntry);
    SumOfPermutation(s, r, CountOf);
    ReorderedEntries(recipes, s, r);
  }

  lemma ReorderedEntries(recipes: seq<Recipe>, s: seq<MonthlyRating>, r: seq<MonthlyRating>)
    requires multiset(s) == multiset(r)
    requires (forall m :: m in s ==> EntryOf(recipes, m)) && Covers(recipes, s)
    ensures (forall m :: m in r ==> EntryOf(recipes, m)) && Covers(recipes, r)
  {
    assert forall m :: m in r <==> m in multiset(s);
    assert Months(r) == Months(s);
  }

  /** With every date long enough, the month is the "YYYY-MM" prefix. */
  lemma MonthIsPrefix(r: Recipe)
    requires |r.date| >= 7
    ensures MonthOf(r) == r.date[..7]
  {
  }

  // ---------------------------------------------------------------- the labels

  const MonthNames := ["January", "February", "March", "April", "May", "June", "July",
                       "August", "September", "October", "November", "December"]

  /** The `when (parts[1])` of `formatMonth`: a known two-digit month by name, anything else as it is. */
  function FullMonthName(mm: string): string {
    if mm == "01" then "January" else if mm == "02" then "February" else if mm == "03" then "March"
    else if mm == "04" then "April" else if mm == "05" then "May" else if mm == "06" then "June"
    else if mm == "07" then "July" else if mm == "08" then "August" else if mm == "09" then "September"
    else if mm == "10" then "October" else if mm == "11" then "November" else if mm == "12" then "December"
    else mm
  }

  /** `formatMonth`: "YYYY-MM" becomes "<month> YYYY"; without exactly two pieces the text is kept. */
  function FormatMonth(monthStr: string): string {
    var parts := Split(monthStr, '-');
    if |parts| != 2 then monthStr
    else FullMonthName(parts[1]) + " " + parts[0]
  }

  /** The count label, singular only for exactly one. */
  function CountLabel(count: int): string {
    IntToString(count) + " recipe" + (if count != 1 then "s" else "")
  }

  /** The two-digit month `m` ("01" to "12"). */
  function TwoDigits(m: nat): string
    requires m < 100
  {
    [DigitChar(m / 10), DigitChar(m % 10)]
  }

  /** Month `m`, written with two digits, is named by the `m`th name. */
  lemma FullMonthNameOfNumber(m: int)
    requires 1 <= m <= 12
    ensures FullMonthName(TwoDigits(m)) == MonthNames[m - 1]
  {
    if m <= 4 {
      JanuaryToApril(m);
    } else if m <= 8 {
      MayToAugust(m);
    } else {
      SeptemberToDecember(m);
    }
  }

  lemma JanuaryToApril(m: int)
    requires 1 <= m <= 4
    ensures FullMonthName(TwoDigits(m)) == MonthNames[m - 1]
  {
  }

  lemma MayToAugust(m: int)
    requires 5 <= m <= 8
    ensures FullMonthName(TwoDigits(m)) == MonthNames[m - 1]
  {
  }

  lemma SeptemberToDecember(m: int)
    requires 9 <= m <= 12
    ensures FullMonthName(TwoDigits(m)) == MonthNames[m - 1]
  {
  }

  /** Any text that is not a two-digit month is kept verbatim. */
  lemma FullMonthNameOther(mm: string)
    requires forall k :: 1 <= k <= 12 ==> mm != TwoDigits(k)
    ensures FullMonthName(mm) == mm
  {
    assert mm != TwoDigits(1) && mm != TwoDigits(2) && mm != TwoDigits(3) && mm != TwoDigits(4);
    assert mm != TwoDigits(5) && mm != TwoDigits(6) && mm != TwoDigits(7) && mm != TwoDigits(8);
    assert mm != TwoDigits(9) && mm != TwoDigits(10) && mm != TwoDigits(11) && mm != TwoDigits(12);
  }

  /** Two pieces: the month's name, then the year as it is. */
  lemma {:induction false} FormatMonthOfPieces(year: string, mm: string)
    requires '-' !in year && '-' !in mm
    ensures FormatMonth(year + "-" + mm) == FullMonthName(mm) + " " + year
  {
    SplitAfterFirst(year, '-', mm);
    SplitFree(mm, '-');
  }

  /** Without exactly two pieces the text is shown unchanged. */
  lemma FormatMonthWrongShape(monthStr: string)
    requires |Split(monthStr, '-')| != 2
    ensures FormatMonth(monthStr) == monthStr
  {
  }

  /** The month of a date the recipe form accepts prints as the month's name and the year. */
  lemma {:induction false} FormatAcceptedMonth(r: Recipe)
    requires RecipeForm.IsDateShape(r.date)
    ensures FormatMonth(MonthOf(r)) == FullMonthName(r.date[5..7]) + " " + r.date[..4]
  {
    var d := r.date;
    assert MonthOf(r) == d[..4] + "-" + d[5..7];
    assert forall k :: 0 <= k < 4 ==> d[..4][k] == d[k];
    assert '-' !in d[..4] by {
      assert forall k :: 0 <= k < 4 ==> IsDigit(d[..4][k]);
    }
    assert '-' !in d[5..7] by {
      assert forall k :: 0 <= k < 2 ==> IsDigit(d[5..7][k]);
    }
    FormatMonthOfPieces(d[..4], d[5..7]);
  }

  /** The label is singular exactly for one recipe, and starts with the count as `toInt` reads it. */
  lemma {:induction false} CountLabelSpec(count: int)
    requires IsInt32(count)
    ensures var t := CountLabel(count);
      && (t == "1 recipe" <==> count == 1)
      && (count != 1 ==> t[|t| - 8..] == " recipes")
      && ParseInt(t[..|IntToString(count)|]) == Some(count)
  {
    var n := IntToString(count);
    var t := CountLabel(count);
    assert t[..|n|] == n;
    ParseIntToString(count);
    if t == "1 recipe" {
      assert n + " recipe" + (if count != 1 then "s" else "") == "1 recipe";
      assert count != 1 ==> |t| == |n| + 8;
      assert |n| == 1;
      assert ParseInt(n) == ParseInt("1");
    }
  }
}
