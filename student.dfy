/** The ongoing-course list of ui/StudentActivity.kt. */
module Student {
  import opened Entities
  import opened Text
  import opened Seqs

  const Ongoing := "ongoing"

  /** `{ it.status.lowercase() == "ongoing" }`. */
  function IsOngoing(c: Course): bool {
    Lowercase(c.status) == Ongoing
  }

  function OngoingCourses(allCourses: seq<Course>): seq<Course> {
    Filter(allCourses, IsOngoing)
  }

  /**
   * The list holds exactly the ongoing courses of the input, each as often
   * as in the input and in input order, and filtering it again changes
   * nothing.
   */
  lemma OngoingCoursesSpec(allCourses: seq<Course>)
    ensures var r := OngoingCourses(allCourses);
      && |r| <= |allCourses|
      && (forall i :: 0 <= i < |r| ==> Lowercase(r[i].status) == Ongoing)
      && IsSubsequence(r, allCourses)
      && (forall c :: multiset(r)[c] == if IsOngoing(c) then multiset(allCourses)[c] else 0)
      && OngoingCourses(r) == r
  {
    FilterIsSubsequence(allCourses, IsOngoing);
    forall c ensures multiset(OngoingCourses(allCourses))[c] == if IsOngoing(c) then multiset(allCourses)[c] else 0 {
      FilterMultiplicity(allCourses, IsOngoing, c);
    }
    FilterIdempotent(allCourses, IsOngoing);
  }

  /** The status test ignores ASCII case. */
  lemma OngoingIgnoresCase(c: Course, d: Course)
    requires Lowercase(c.status) == Lowercase(d.status)
    ensures IsOngoing(c) == IsOngoing(d)
  {
  }
}
