/**
 * adapter/RecipeAdapter.kt: the list adapter's data and its own copies of
 * the date and month formatting, plus the short category label of a card.
 */
module RecipeAdapter {
  import opened Wrappers
  import opened Entities
  import opened Text
  import opened Numbers
  import RecipeDetail
  import RecipeForm

  /** The adapter's `getMonthName`. */
  function MonthName(month: int): string {
    if month == 1 then "Jan" else if month == 2 then "Feb" else if month == 3 then "Mar"
    else if month == 4 then "Apr" else if month == 5 then "May" else if month == 6 then "Jun"
    else if month == 7 then "Jul" else if month == 8 then "Aug" else if month == 9 then "Sep"
    else if month == 10 then "Oct" else if month == 11 then "Nov" else if month == 12 then "Dec"
    else IntToString(month)
  }

  /** The adapter's `formatDate`. */
  function FormatDate(date: string): string {
    var parts := Split(date, '-');
    if |parts| == 3 then
      var month := ParseInt(parts[1]);
      var day := ParseInt(parts[2]);
      if month.Some? && day.Some? then MonthName(month.value) + " " + IntToString(day.value) + ", " + parts[0]
      else date
    else date
  }

  const MainCourseLabel := "MAIN"
  const DessertLabel := "DESSERT"
  const AppetizerLabel := "APPETIZER"
  const BeverageLabel := "DRINK"

  /** The labels the cards give the recipe form's categories, in the form's order. */
  const FormLabels := [MainCourseLabel, DessertLabel, AppetizerLabel, BeverageLabel]

  /** `getCategoryShortName`. */
  function CategoryShortName(category: string): string {
    var key := Lowercase(category);
    if key == RecipeDetail.MainCourseKey then MainCourseLabel
    else if key == RecipeDetail.DessertKey then DessertLabel
    else if key == RecipeDetail.AppetizerKey then AppetizerLabel
    else if key == RecipeDetail.BeverageKey then BeverageLabel
    else Uppercase(category)
  }

  /** The card and the detail screen name months alike. */
  lemma MonthNameAgrees(month: int)
    ensures MonthName(month) == RecipeDetail.MonthName(month)
  {
  }

  /** The card and the detail screen print every date alike. */
  lemma FormatDateAgrees(date: string)
    ensures FormatDate(date) == RecipeDetail.FormatDate(date)
  {
    var parts := Split(date, '-');
    if |parts| == 3 && ParseInt(parts[1]).Some? {
      MonthNameAgrees(ParseInt(parts[1]).value);
    }
  }

  /** Only the ASCII-lowercased category matters: the label ignores case. */
  lemma {:induction false} ShortNameIgnoresCase(a: string, b: string)
    requires Lowercase(a) == Lowercase(b)
    ensures CategoryShortName(a) == CategoryShortName(b)
  {
    UppercaseRespectsCaseFolding(a, b);
  }

  /** A category with none of the four keys is labelled by its upper-case form. */
  lemma UnknownCategoryUppercased(category: string)
    requires Lowercase(category) !in [RecipeDetail.MainCourseKey, RecipeDetail.DessertKey, RecipeDetail.AppetizerKey, RecipeDetail.BeverageKey]
    ensures CategoryShortName(category) == Uppercase(category)
  {
  }

  /** The labels of the recipe form's four categories. */
  lemma {:induction false} FormCategoryLabels(i: int, c: string)
    requires 0 <= i < |RecipeForm.Categories| && c == RecipeForm.Categories[i]
    ensures CategoryShortName(c) == FormLabels[i]
  {
    if i == 0 {
      MainCourseLabelled(c);
    } else if i == 1 {
      DessertLabelled(c);
    } else if i == 2 {
      AppetizerLabelled(c);
    } else {
      BeverageLabelled(c);
    }
  }

  lemma MainCourseLabelled(c: string)
    requires c == RecipeForm.Categories[0]
    ensures CategoryShortName(c) == MainCourseLabel
  {
    LowercaseIs(c, RecipeDetail.MainCourseKey);
  }

  lemma DessertLabelled(c: string)
    requires c == RecipeForm.Categories[1]
    ensures CategoryShortName(c) == DessertLabel
  {
    LowercaseIs(c, RecipeDetail.DessertKey);
  }

  lemma AppetizerLabelled(c: string)
    requires c == RecipeForm.Categories[2]
    ensures CategoryShortName(c) == AppetizerLabel
  {
    LowercaseIs(c, RecipeDetail.AppetizerKey);
  }

  lemma BeverageLabelled(c: string)
    requires c == RecipeForm.Categories[3]
    ensures CategoryShortName(c) == BeverageLabel
  {
    LowercaseIs(c, RecipeDetail.BeverageKey);
  }

  /** The adapter's list; `notifyDataSetChanged` is display only. */
  class Adapter {
    var recipes: seq<Recipe>

    constructor (recipes: seq<Recipe>)
      ensures this.recipes == recipes
    {
      this.recipes := recipes;
    }

    method GetItemCount() returns (n: int)
      ensures n == |recipes|
    {
      n := |recipes|;
    }

    /** `updateRecipes`: the list is replaced, so the count becomes the new list's length. */
    method UpdateRecipes(newRecipes: seq<Recipe>)
      modifies this`recipes
      ensures recipes == newRecipes
    {
      recipes := newRecipes;
    }
  }
}
