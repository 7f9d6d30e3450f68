/**
 * ui/AddEditRecipeActivity.kt: `saveRecipe`'s checks, tried in order with
 * the first failure ending the save, the `Recipe` it passes to
 * `createRecipe`, and the test that decides whether an error message also
 * opens the connection-error dialog.
 */
module RecipeForm {
  import opened Wrappers
  import opened Entities
  import opened Text
  import opened Numbers
  import Failures
  import Recipes

  /** The spinner's items; the selected position indexes this list. */
  const Categories := ["Main Course", "Dessert", "Appetizer", "Beverage"]

  /** The text of the four edit fields and the spinner position when Save is pressed. */
  datatype Fields = Fields(title: string, ingredients: string, selectedCategory: int,
                           rating: string, date: string)

  /**
   * A Kotlin `Double`: a real number or one of IEEE 754's special values.
   * `String.toDouble()` is a parameter of type `string -> Option<Double>`,
   * `None` where it throws.
   */
  datatype Double = Finite(value: real) | NaN | PositiveInfinity | NegativeInfinity

  /** `d < x` on a `Double` and a number, as IEEE 754 compares: false whenever `d` is NaN. */
  predicate Below(d: Double, x: real) {
    match d
    case Finite(v) => v < x
    case NaN => false
    case PositiveInfinity => false
    case NegativeInfinity => true
  }

  /** `d > x`, false whenever `d` is NaN. */
  predicate Above(d: Double, x: real) {
    match d
    case Finite(v) => v > x
    case NaN => false
    case PositiveInfinity => true
    case NegativeInfinity => false
  }

  /** Why a save stops; each is shown as a toast. */
  datatype Problem = NoTitle | NoIngredients | NoRating | BadRatingFormat | RatingOutOfRange | BadDate

  function ProblemText(p: Problem): string {
    match p
    case NoTitle => "Please enter a title"
    case NoIngredients => "Please enter ingredients"
    case NoRating => "Please enter a rating"
    case BadRatingFormat => "Invalid rating format"
    case RatingOutOfRange => "Rating must be between 0 and 5"
    case BadDate => "Invalid date format. Use YYYY-MM-DD"
  }

  datatype Outcome = Rejected(problem: Problem) | Saved(recipe: Recipe)

  /** `Regex("\\d{4}-\\d{2}-\\d{2}")` matched against the whole string; `\d` is an ASCII digit. */
  predicate IsDateShape(s: string) {
    && |s| == 10
    && AllDigits(s[..4]) && s[4] == '-'
    && AllDigits(s[5..7]) && s[7] == '-'
    && AllDigits(s[8..])
  }

  /** `rating < 0 || rating > 5` as written: a NaN rating passes. */
  predicate OutOfRangeAsWritten(d: Double) {
    Below(d, 0.0) || Above(d, 5.0)
  }

  /** The intended range check: only a number from 0 to 5 is a rating. */
  predicate OutOfRange(d: Double) {
    !(d.Finite? && 0.0 <= d.value <= 5.0)
  }

  /** What the guard chain decides: the check that stops the save, or the parsed rating it goes on with. */
  datatype Verdict = Stop(problem: Problem) | Go(rating: Double)

  /**
   * The guard chain of `saveRecipe` on the trimmed texts, tried in order,
   * with `outOfRange` as the test of the rating's range.
   */
  function Guards(title: string, ingredients: string, ratingStr: string, date: string,
                  toDouble: string -> Option<Double>, outOfRange: Double -> bool): (v: Verdict)
    ensures v.Go? ==> toDouble(ratingStr) == Some(v.rating) && !outOfRange(v.rating)
  {
    if title == [] then Stop(NoTitle)
    else if ingredients == [] then Stop(NoIngredients)
    else if ratingStr == [] then Stop(NoRating)
    else if toDouble(ratingStr).None? then Stop(BadRatingFormat)
    else if outOfRange(toDouble(ratingStr).value) then Stop(RatingOutOfRange)
    else if date == [] || !IsDateShape(date) then Stop(BadDate)
    else Go(toDouble(ratingStr).value)
  }

  /**
   * `saveRecipe`, with the intended range check; `toDouble` is
   * `String.toDouble()`. The fields are trimmed before any check, and the
   * recipe gets id 0 so that the server assigns one.
   */
  function SaveRecipe(f: Fields, toDouble: string -> Option<Double>): Outcome
    requires 0 <= f.selectedCategory < |Categories|
  {
    Check(Trim(f.title), Trim(f.ingredients), Categories[f.selectedCategory], Trim(f.rating), Trim(f.date), toDouble)
  }

  /** The guard chain with the intended range check, and the recipe it builds. */
  function Check(title: string, ingredients: string, category: string, ratingStr: string, date: string,
                 toDouble: string -> Option<Double>): Outcome
  {
    match Guards(title, ingredients, ratingStr, date, toDouble, OutOfRange)
    case Stop(p) => Rejected(p)
    case Go(rating) => Saved(Recipe(0, date, title, ingredients, category, rating.value))
  }

  /** `saveRecipe` as written: the chain with `rating < 0 || rating > 5`, which a NaN rating passes. */
  function SaveRecipeAsWritten(f: Fields, toDouble: string -> Option<Double>): Verdict {
    Guards(Trim(f.title), Trim(f.ingredients), Trim(f.rating), Trim(f.date), toDouble, OutOfRangeAsWritten)
  }

  // ---------------------------------------------------------------- the checks

  /** The first check that fails decides the outcome; a blank field is an empty one once trimmed. */
  lemma {:induction false} ChecksInOrder(f: Fields, toDouble: string -> Option<Double>)
    requires 0 <= f.selectedCategory < |Categories|
    ensures var o := SaveRecipe(f, toDouble);
      var rating := toDouble(Trim(f.rating));
      && (IsBlank(f.title) <==> o == Rejected(NoTitle))
      && (o == Rejected(NoIngredients) <==> !IsBlank(f.title) && IsBlank(f.ingredients))
      && (o == Rejected(NoRating) <==> !IsBlank(f.title) && !IsBlank(f.ingredients) && IsBlank(f.rating))
      && (o == Rejected(BadRatingFormat) <==>
            !IsBlank(f.title) && !IsBlank(f.ingredients) && !IsBlank(f.rating) && rating.None?)
      && (o == Rejected(RatingOutOfRange) <==>
            !IsBlank(f.title) && !IsBlank(f.ingredients) && !IsBlank(f.rating) && rating.Some?
            && OutOfRange(rating.value))
      && (o == Rejected(BadDate) <==>
            !IsBlank(f.title) && !IsBlank(f.ingredients) && !IsBlank(f.rating) && rating.Some?
            && !OutOfRange(rating.value) && !IsDateShape(Trim(f.date)))
      && (o.Saved? <==>
            !IsBlank(f.title) && !IsBlank(f.ingredients) && !IsBlank(f.rating) && rating.Some?
            && !OutOfRange(rating.value) && IsDateShape(Trim(f.date)))
  {
    TrimEmptyIffBlank(f.title);
    TrimEmptyIffBlank(f.ingredients);
    TrimEmptyIffBlank(f.rating);
    GuardsInOrder(Trim(f.title), Trim(f.ingredients), Trim(f.rating), Trim(f.date), toDouble, OutOfRange);
  }

  /** The guards on the trimmed texts, one if-and-only-if per outcome. */
  lemma GuardsInOrder(title: string, ingredients: string, ratingStr: string, date: string,
                      toDouble: string -> Option<Double>, outOfRange: Double -> bool)
    ensures var v := Guards(title, ingredients, ratingStr, date, toDouble, outOfRange);
      var rating := toDouble(ratingStr);
      && (title == [] <==> v == Stop(NoTitle))
      && (v == Stop(NoIngredients) <==> title != [] && ingredients == [])
      && (v == Stop(NoRating) <==> title != [] && ingredients != [] && ratingStr == [])
      && (v == Stop(BadRatingFormat) <==> title != [] && ingredients != [] && ratingStr != [] && rating.None?)
      && (v == Stop(RatingOutOfRange) <==>
            title != [] && ingredients != [] && ratingStr != [] && rating.Some? && outOfRange(rating.value))
      && (v == Stop(BadDate) <==>
            title != [] && ingredients != [] && ratingStr != [] && rating.Some? && !outOfRange(rating.value)
            && !IsDateShape(date))
      && (v.Go? <==>
            title != [] && ingredients != [] && ratingStr != [] && rating.Some? && !outOfRange(rating.value)
            && IsDateShape(date))
  {
    if date == [] {
      EmptyDateNeverMatches();
    }
  }

  /** Once the rating is a number in range, the date decides: it must have the exact shape. */
  lemma DateDecides(f: Fields, toDouble: string -> Option<Double>)
    requires 0 <= f.selectedCategory < |Categories|
    requires Trim(f.title) != [] && Trim(f.ingredients) != [] && Trim(f.rating) != []
    requires toDouble(Trim(f.rating)).Some? && !OutOfRange(toDouble(Trim(f.rating)).value)
    ensures SaveRecipe(f, toDouble).Saved? <==> IsDateShape(Trim(f.date))
  {
    CheckDate(Trim(f.title), Trim(f.ingredients), Categories[f.selectedCategory], Trim(f.rating), Trim(f.date), toDouble);
  }

  lemma CheckDate(title: string, ingredients: string, category: string, ratingStr: string, date: string,
                  toDouble: string -> Option<Double>)
    requires title != [] && ingredients != [] && ratingStr != []
    requires toDouble(ratingStr).Some? && !OutOfRange(toDouble(ratingStr).value)
    ensures Check(title, ingredients, category, ratingStr, date, toDouble).Saved? <==> IsDateShape(date)
  {
  }

  /** A saved recipe is new, holds the trimmed texts, a well-formed date, a rating from 0 to 5 and the selected category. */
  lemma SavedRecipe(f: Fields, toDouble: string -> Option<Double>)
    requires 0 <= f.selectedCategory < |Categories|
    requires SaveRecipe(f, toDouble).Saved?
    ensures var r := SaveRecipe(f, toDouble).recipe;
      && r.id == 0
      && r.title == Trim(f.title) && r.title != []
      && r.ingredients == Trim(f.ingredients) && r.ingredients != []
      && r.date == Trim(f.date) && IsDateShape(r.date)
      && toDouble(Trim(f.rating)) == Some(Finite(r.rating)) && 0.0 <= r.rating <= 5.0
      && r.category == Categories[f.selectedCategory]
  {
    CheckSaved(Trim(f.title), Trim(f.ingredients), Categories[f.selectedCategory], Trim(f.rating), Trim(f.date), toDouble);
  }

  lemma CheckSaved(title: string, ingredients: string, category: string, ratingStr: string, date: string,
                   toDouble: string -> Option<Double>)
    requires Check(title, ingredients, category, ratingStr, date, toDouble).Saved?
    ensures var r := Check(title, ingredients, category, ratingStr, date, toDouble).recipe;
      && r == Recipe(0, date, title, ingredients, category, r.rating)
      && title != [] && ingredients != [] && IsDateShape(date)
      && toDouble(ratingStr) == Some(Finite(r.rating)) && 0.0 <= r.rating <= 5.0
  {
  }

  /** The emptiness test on the date adds nothing: an empty string never has the shape. */
  lemma EmptyDateNeverMatches()
    ensures !IsDateShape("")
  {
  }

  /** The date rule read as pieces: three `-`-separated runs of 4, 2 and 2 digits. */
  lemma {:induction false} DateShapePieces(s: string)
    ensures IsDateShape(s) <==>
      var p := Split(s, '-');
      && |p| == 3 && |p[0]| == 4 && |p[1]| == 2 && |p[2]| == 2
      && AllDigits(p[0]) && AllDigits(p[1]) && AllDigits(p[2])
  {
    var p := Split(s, '-');
    if IsDateShape(s) {
      var parts := [s[..4], s[5..7], s[8..]];
      JoinThree(s[..4], s[5..7], s[8..], '-');
      assert s == s[..4] + "-" + s[5..7] + "-" + s[8..];
      forall k | 0 <= k < 3 ensures '-' !in parts[k] {
        assert AllDigits(parts[k]);
      }
      SplitJoin(parts, '-');
    }
    if |p| == 3 && |p[0]| == 4 && |p[1]| == 2 && |p[2]| == 2 && AllDigits(p[0]) && AllDigits(p[1]) && AllDigits(p[2]) {
      JoinSplit(s, '-');
      JoinThree(p[0], p[1], p[2], '-');
      assert p == [p[0], p[1], p[2]];
      assert s == p[0] + "-" + p[1] + "-" + p[2];
      assert s[..4] == p[0] && s[5..7] == p[1] && s[8..] == p[2];
    }
  }

  lemma JoinThree(a: string, b: string, c: string, sep: char)
    ensures Join([a, b, c], sep) == a + [sep] + b + [sep] + c
  {
    assert [a, b, c][1..] == [b, c];
    assert [b, c][1..] == [c];
    assert Join([b, c], sep) == b + [sep] + c;
    assert Join([a, b, c], sep) == a + [sep] + (b + [sep] + c);
  }

  lemma DateExamples()
    ensures IsDateShape("2024-01-05")
    ensures !IsDateShape("2024-1-05") && !IsDateShape("2024/01/05") && !IsDateShape("2024-01-05 ")
  {
  }

  // ---------------------------------------------------------------- the rating range

  /** Both ends of the range are ratings; anything outside it, infinities included, is not. */
  lemma RatingRange(d: Double)
    ensures !OutOfRange(Finite(0.0)) && !OutOfRange(Finite(5.0))
    ensures d.Finite? && (d.value < 0.0 || d.value > 5.0) ==> OutOfRange(d)
    ensures !OutOfRange(d) ==> d.Finite? && 0.0 <= d.value <= 5.0
  {
  }

  /** The written check rejects exactly what the intended one rejects, except that it lets NaN through. */
  lemma AsWrittenDiffersOnlyAtNaN(d: Double)
    ensures OutOfRangeAsWritten(d) <==> OutOfRange(d) && d != NaN
  {
  }

  /** "NaN" is read by `toDouble`, so a form with the rating "NaN" passes the written range check. */
  lemma NaNRatingAccepted()
    ensures !OutOfRangeAsWritten(NaN) && OutOfRange(NaN)
  {
  }

  /**
   * A form with a title, ingredients, a well-formed date and the rating
   * "NaN" goes through the written chain to `createRecipe` with a NaN
   * rating, while the intended chain stops it at the range check.
   */
  lemma NaNRatingSavedAsWritten(f: Fields, toDouble: string -> Option<Double>)
    requires 0 <= f.selectedCategory < |Categories|
    requires !IsBlank(f.title) && !IsBlank(f.ingredients) && !IsBlank(f.rating)
    requires toDouble(Trim(f.rating)) == Some(NaN) && IsDateShape(Trim(f.date))
    ensures SaveRecipeAsWritten(f, toDouble) == Go(NaN)
    ensures SaveRecipe(f, toDouble) == Rejected(RatingOutOfRange)
  {
    TrimEmptyIffBlank(f.title);
    TrimEmptyIffBlank(f.ingredients);
    TrimEmptyIffBlank(f.rating);
    GuardsAtNaN(Trim(f.title), Trim(f.ingredients), Trim(f.rating), Trim(f.date), toDouble);
  }

  lemma GuardsAtNaN(title: string, ingredients: string, ratingStr: string, date: string,
                    toDouble: string -> Option<Double>)
    requires title != [] && ingredients != [] && ratingStr != []
    requires toDouble(ratingStr) == Some(NaN) && IsDateShape(date)
    ensures Guards(title, ingredients, ratingStr, date, toDouble, OutOfRangeAsWritten) == Go(NaN)
    ensures Guards(title, ingredients, ratingStr, date, toDouble, OutOfRange) == Stop(RatingOutOfRange)
  {
    NaNRatingAccepted();
  }

  /** Wherever the rating is not NaN, the written chain and the intended one decide alike. */
  lemma AsWrittenAgreesOffNaN(f: Fields, toDouble: string -> Option<Double>)
    requires 0 <= f.selectedCategory < |Categories|
    requires toDouble(Trim(f.rating)) != Some(NaN)
    ensures var v := SaveRecipeAsWritten(f, toDouble);
      var o := SaveRecipe(f, toDouble);
      && (v.Stop? <==> o.Rejected?)
      && (v.Stop? ==> o.problem == v.problem)
      && (v.Go? ==> v.rating == Finite(o.recipe.rating))
  {
    GuardsAgreeOffNaN(Trim(f.title), Trim(f.ingredients), Trim(f.rating), Trim(f.date), toDouble);
  }

  lemma GuardsAgreeOffNaN(title: string, ingredients: string, ratingStr: string, date: string,
                          toDouble: string -> Option<Double>)
    requires toDouble(ratingStr) != Some(NaN)
    ensures Guards(title, ingredients, ratingStr, date, toDouble, OutOfRangeAsWritten)
         == Guards(title, ingredients, ratingStr, date, toDouble, OutOfRange)
  {
    if toDouble(ratingStr).Some? {
      AsWrittenDiffersOnlyAtNaN(toDouble(ratingStr).value);
    }
  }

  // ---------------------------------------------------------------- the dialog

  /** The error observer's test for showing the connection dialog. */
  predicate ShowsConnectionDialog(m: string) {
    || Contains(m, Recipes.ServerIsOffline)
    || Contains(m, "Cannot connect")
    || Contains(m, Recipes.NetworkError)
    || Contains(m, Recipes.Timeout)
  }

  /** Every `createRecipe` failure except the unexpected kind opens the dialog. */
  lemma {:induction false} ConnectionFailuresShowDialog(cause: Failures.Cause, message: Option<string>)
    requires cause != Failures.Unexpected
    ensures ShowsConnectionDialog(Recipes.CreateMessage(cause, message))
  {
    var text := Recipes.CreateText(cause, message);
    match cause
    case Offline =>
      ContainsStart(Recipes.ServerIsOffline, Recipes.OfflineCreateAdvice);
      ContainsInSuffix(Recipes.Sign(cause) + " ", text, Recipes.ServerIsOffline);
    case TimedOut =>
      ContainsMiddle("Server ", Recipes.Timeout, Recipes.TimeoutCreateAdvice);
      ContainsInSuffix(Recipes.Sign(cause) + " ", text, Recipes.Timeout);
    case NoNetwork =>
      ContainsStart(Recipes.NetworkError, Recipes.NoNetworkCreateAdvice);
      ContainsInSuffix(Recipes.Sign(cause) + " ", text, Recipes.NetworkError);
  }
}
