/**
 * ui/RecipeDetailActivity.kt: how the detail screen prints a recipe's
 * date and category.
 */
module RecipeDetail {
  import opened Wrappers
  import opened Text
  import opened Numbers
  import RecipeForm

  /** The month abbreviations, January first. */
  const Abbreviations := ["Jan", "Feb", "Mar", "Apr", "May", "Jun", "Jul", "Aug", "Sep", "Oct", "Nov", "Dec"]

  /** `getMonthName`. */
  function MonthName(month: int): string {
    match month
    case 1 => "Jan" case 2 => "Feb" case 3 => "Mar" case 4 => "Apr"
    case 5 => "May" case 6 => "Jun" case 7 => "Jul" case 8 => "Aug"
    case 9 => "Sep" case 10 => "Oct" case 11 => "Nov" case 12 => "Dec"
    case _ => IntToString(month)
  }

  /**
   * `formatDate`: "Y-M-D" with numeric M and D becomes "Mon D, Y"; a date
   * without exactly three pieces, or whose month or day `toInt` rejects,
   * is shown as it is.
   */
  function FormatDate(date: string): string {
    var parts := Split(date, '-');
    if |parts| != 3 then date
    else
      var month := ParseInt(parts[1]);
      var day := ParseInt(parts[2]);
      if month.None? || day.None? then date
      else MonthName(month.value) + " " + IntToString(day.value) + ", " + parts[0]
  }

  /** The lower-case keys the category `when`s of the detail screen and the card test. */
  const MainCourseKey := "main course"
  const DessertKey := "dessert"
  const AppetizerKey := "appetizer"
  const BeverageKey := "beverage"

  const MainCourseName := "MAIN COURSE"
  const DessertName := "DESSERT"
  const AppetizerName := "APPETIZER"
  const BeverageName := "BEVERAGE"

  /** `getCategoryDisplayName`. */
  function CategoryDisplayName(category: string): string {
    var key := Lowercase(category);
    if key == MainCourseKey then MainCourseName
    else if key == DessertKey then DessertName
    else if key == AppetizerKey then AppetizerName
    else if key == BeverageKey then BeverageName
    else Uppercase(category)
  }

  // ---------------------------------------------------------------- months

  /** Months 1 to 12 get their abbreviation; any other number is printed as a number. */
  lemma MonthNameSpec(month: int)
    ensures 1 <= month <= 12 ==> MonthName(month) == Abbreviations[month - 1]
    ensures !(1 <= month <= 12) ==> MonthName(month) == IntToString(month)
  {
  }

  /** An out-of-range month still reads back as its number. */
  lemma OtherMonthReadsBack(month: int)
    requires !(1 <= month <= 12) && IsInt32(month)
    ensures ParseInt(MonthName(month)) == Some(month)
  {
    ParseIntToString(month);
  }

  // ---------------------------------------------------------------- dates

  /** Three pieces with a numeric month and day: the month by name, the day as a number, the year verbatim. */
  lemma {:induction false} FormatDateOfPieces(year: string, month: string, day: string)
    requires '-' !in year && '-' !in month && '-' !in day
    requires ParseInt(month).Some? && ParseInt(day).Some?
    ensures FormatDate(year + "-" + month + "-" + day)
         == MonthName(ParseInt(month).value) + " " + IntToString(ParseInt(day).value) + ", " + year
  {
    var parts := [year, month, day];
    RecipeForm.JoinThree(year, month, day, '-');
    forall k | 0 <= k < 3 ensures '-' !in parts[k] { }
    SplitJoin(parts, '-');
  }

  /** Without exactly three pieces the date is shown unchanged. */
  lemma FormatDateWrongShape(date: string)
    requires |Split(date, '-')| != 3
    ensures FormatDate(date) == date
  {
  }

  /** A month or day that `toInt` rejects leaves the date unchanged. */
  lemma FormatDateUnparsable(date: string)
    requires |Split(date, '-')| == 3
    requires ParseInt(Split(date, '-')[1]).None? || ParseInt(Split(date, '-')[2]).None?
    ensures FormatDate(date) == date
  {
  }

  /**
   * Every date the recipe form accepts is formatted: leading zeros of the
   * month and day go, the year stays as typed.
   */
  lemma {:induction false} FormatAcceptedDate(date: string)
    requires RecipeForm.IsDateShape(date)
    ensures FormatDate(date)
         == MonthName(DigitsValue(date[5..7])) + " " + IntToString(DigitsValue(date[8..])) + ", " + date[..4]
  {
    RecipeForm.DateShapePieces(date);
    var parts := Split(date, '-');
    JoinSplit(date, '-');
    RecipeForm.JoinThree(parts[0], parts[1], parts[2], '-');
    assert parts == [parts[0], parts[1], parts[2]];
    assert date == parts[0] + "-" + parts[1] + "-" + parts[2];
    assert parts[0] == date[..4] && parts[1] == date[5..7] && parts[2] == date[8..];
    TwoDigitsValue(parts[1]);
    TwoDigitsValue(parts[2]);
    ParseDigits(parts[1]);
    ParseDigits(parts[2]);
  }

  /** The day "05" is shown as "5". */
  lemma DayLeadingZeroDropped()
    ensures ParseInt("05") == Some(5) && IntToString(5) == "5"
  {
    TwoDigitsValue("05");
    ParseDigits("05");
  }

  lemma FormatDateExample(date: string)
    requires date == "2024-01-05"
    ensures FormatDate(date) == "Jan 5, 2024"
  {
    assert date == "2024" + "-" + "01" + "-" + "05";
    assert ParseInt("01") == Some(1) by {
      TwoDigitsValue("01");
      ParseDigits("01");
    }
    DayLeadingZeroDropped();
    FormatDateOfPieces("2024", "01", "05");
  }

  // ---------------------------------------------------------------- categories

  /** Every branch of the `when` is the upper-case form, so the name is always `category.uppercase()`. */
  lemma {:induction false} CategoryDisplayNameIsUppercase(category: string)
    ensures CategoryDisplayName(category) == Uppercase(category)
  {
    var key := Lowercase(category);
    if key == MainCourseKey {
      MainCourseBranch(category);
    } else if key == DessertKey {
      DessertBranch(category);
    } else if key == AppetizerKey {
      AppetizerBranch(category);
    } else if key == BeverageKey {
      BeverageBranch(category);
    }
  }

  lemma MainCourseBranch(category: string)
    requires Lowercase(category) == MainCourseKey
    ensures Uppercase(category) == MainCourseName
  {
    UppercaseIs(MainCourseKey, MainCourseName);
    UppercaseOfLowercase(category);
  }

  lemma DessertBranch(category: string)
    requires Lowercase(category) == DessertKey
    ensures Uppercase(category) == DessertName
  {
    UppercaseIs(DessertKey, DessertName);
    UppercaseOfLowercase(category);
  }

  lemma AppetizerBranch(category: string)
    requires Lowercase(category) == AppetizerKey
    ensures Uppercase(category) == AppetizerName
  {
    UppercaseIs(AppetizerKey, AppetizerName);
    UppercaseOfLowercase(category);
  }

  lemma BeverageBranch(category: string)
    requires Lowercase(category) == BeverageKey
    ensures Uppercase(category) == BeverageName
  {
    UppercaseIs(BeverageKey, BeverageName);
    UppercaseOfLowercase(category);
  }
}
