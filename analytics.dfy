/**
 * The top-five ranking of ui/AnalyticsActivity.kt: `allCourses` sorted by
 * status (string order) and then by students descending, the first five
 * kept, each shown with its rank text.
 */
module Analytics {
  import opened Wrappers
  import opened Entities
  import opened Order
  import opened Seqs
  import opened Sorting
  import opened Numbers

  const TopCount := 5

  /** `compareBy { it.status }.thenByDescending { it.students }`, as "comes strictly before". */
  function CourseBefore(a: Course, b: Course): bool {
    StrLess(a.status, b.status) || (a.status == b.status && a.students > b.students)
  }

  function Top5(allCourses: seq<Course>): seq<Course> {
    Take(SortBy(allCourses, CourseBefore), TopCount)
  }

  /** What the screen shows: a spinner, the "No courses found" panel or the ranking. */
  datatype View = Spinner | NoCourses | Ranking(top: seq<Course>)

  function Screen(allCourses: seq<Course>): View {
    if allCourses == [] then Spinner
    else if Top5(allCourses) == [] then NoCourses
    else Ranking(Top5(allCourses))
  }

  /** `rankText` in `TopCourseItem`. */
  function RankText(rank: int): string {
    match rank
    case 1 => "1st"
    case 2 => "2nd"
    case 3 => "3rd"
    case 4 => "4th"
    case 5 => "5th"
    case _ => IntToString(rank) + "th"
  }

  /** The comparator is a strict weak order, so the sort is well defined. */
  lemma CourseBeforeIsStrictWeakOrder()
    ensures StrictWeakOrder(CourseBefore)
  {
    forall a: Course, b: Course | CourseBefore(a, b) ensures !CourseBefore(b, a) {
      if StrLess(a.status, b.status) {
        StrLessAsymmetric(a.status, b.status);
        if b.status == a.status { StrLessIrreflexive(a.status); }
      }
    }
    forall a: Course, b: Course, c: Course | CourseBefore(a, c) ensures CourseBefore(a, b) || CourseBefore(b, c) {
      if a.status != b.status { StrLessTotal(a.status, b.status); }
      if b.status != c.status { StrLessTotal(b.status, c.status); }
      if StrLess(b.status, a.status) && StrLess(c.status, b.status) {
        StrLessTransitive(c.status, b.status, a.status);
        StrLessAsymmetric(c.status, a.status);
      }
      if StrLess(b.status, a.status) && c.status == b.status {
        StrLessAsymmetric(b.status, a.status);
      }
      if a.status == b.status && StrLess(c.status, b.status) {
        StrLessAsymmetric(c.status, b.status);
      }
      if a.status == c.status && a.status != b.status {
        StrLessIrreflexive(a.status);
      }
    }
  }

  /**
   * The ranking holds `min(5, |allCourses|)` courses drawn from the input
   * (none more often than there), in order, and no course left out comes
   * strictly before a course kept.
   */
  lemma Top5Selects(allCourses: seq<Course>)
    ensures var top := Top5(allCourses);
      && |top| == (if |allCourses| < TopCount then |allCourses| else TopCount)
      && multiset(top) <= multiset(allCourses)
      && SortedBy(top, CourseBefore)
      && forall y, i :: y in multiset(allCourses) - multiset(top) && 0 <= i < |top| ==> !CourseBefore(y, top[i])
  {
    CourseBeforeIsStrictWeakOrder();
    TakeSorted(allCourses, CourseBefore, TopCount);
  }

  /** In the ranking, statuses ascend, and within one status the students descend. */
  lemma {:induction false} Top5Ordered(allCourses: seq<Course>)
    ensures var top := Top5(allCourses);
      forall i, j :: 0 <= i < j < |top| ==>
        && !StrLess(top[j].status, top[i].status)
        && (top[i].status == top[j].status ==> top[i].students >= top[j].students)
  {
    Top5Selects(allCourses);
  }

  /** Stability: courses tied on status and students appear in their input order. */
  lemma {:induction false} Top5Stable(allCourses: seq<Course>, k: Course)
    ensures Filter(Top5(allCourses), SameRank(CourseBefore, k)) <= Filter(allCourses, SameRank(CourseBefore, k))
  {
    var sorted := SortBy(allCourses, CourseBefore);
    CourseBeforeIsStrictWeakOrder();
    SortStable(allCourses, CourseBefore, k);
    SortPermutation(allCourses, CourseBefore);
    var n := if TopCount < |sorted| then TopCount else |sorted|;
    assert Top5(allCourses) == sorted[..n];
    FilterPrefix(sorted, n, SameRank(CourseBefore, k));
  }

  /** The ranking is empty only when there is no course, so the "No courses found" panel never shows. */
  lemma NoCoursesUnreachable(allCourses: seq<Course>)
    ensures Top5(allCourses) == [] <==> allCourses == []
    ensures Screen(allCourses) != NoCourses
  {
    Top5Selects(allCourses);
  }

  /** The ranks shown are 1 to 5, so only the five fixed texts appear. */
  lemma RankTextsShown(allCourses: seq<Course>, i: int)
    requires 0 <= i < |Top5(allCourses)|
    ensures RankText(i + 1) == ["1st", "2nd", "3rd", "4th", "5th"][i]
  {
    Top5Selects(allCourses);
  }

  /** Any other rank reads as its decimal form, which reads back as the rank, followed by "th". */
  lemma {:induction false} RankTextOther(rank: int)
    requires !(1 <= rank <= 5) && IsInt32(rank)
    ensures var t := RankText(rank);
      && |t| >= 3 && t[|t| - 2..] == "th"
      && ParseInt(t[..|t| - 2]) == Some(rank)
  {
    var digits := IntToString(rank);
    assert |digits| >= 1;
    assert RankText(rank)[..|RankText(rank)| - 2] == digits;
    ParseIntToString(rank);
  }
}
