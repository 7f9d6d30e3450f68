/**
 * ui/AddEditCourseActivity.kt: the form state of `AddEditCourseScreen`, the
 * Save button's checks and the `Course` it builds, the message test of the
 * error observer, and `String.capitalize`.
 */
module CourseForm {
  import opened Wrappers
  import opened Entities
  import opened Text
  import opened Numbers
  import Failures
  import Courses

  /** The dropdown's choices; `selectedStatus` indexes this list. */
  const Statuses := ["ongoing", "upcoming", "completed"]

  /** The six `mutableStateOf` fields of the screen. */
  datatype Form = Form(name: string, instructor: string, description: string,
                       selectedStatus: int, students: string, duration: string)

  /** What the form holds when the screen opens. */
  const Initial := Form("Mobile App Development", "Dr. John Smith",
                        "Learn to build Android and iOS applications", 0, "25", "40")

  /** The Save button's guard chain: the course it passes to `createCourse`, or `None` for an early return. */
  function Validate(f: Form): Option<Course>
    requires 0 <= f.selectedStatus < |Statuses|
  {
    if IsBlank(f.name) then None
    else if IsBlank(f.instructor) then None
    else if IsBlank(f.description) then None
    else
      var studentsInt := ParseInt(f.students);
      if studentsInt.None? || studentsInt.value < 0 then None
      else
        var durationInt := ParseInt(f.duration);
        if durationInt.None? || durationInt.value <= 0 then None
        else Some(Course(0, Trim(f.name), Trim(f.instructor), Trim(f.description),
                         Statuses[f.selectedStatus], studentsInt.value, durationInt.value))
  }

  /** A course is built exactly when no text field is blank and both counts parse in range. */
  lemma ValidateAccepts(f: Form)
    requires 0 <= f.selectedStatus < |Statuses|
    ensures Validate(f).Some? <==>
      && !IsBlank(f.name) && !IsBlank(f.instructor) && !IsBlank(f.description)
      && ParseInt(f.students).Some? && ParseInt(f.students).value >= 0
      && ParseInt(f.duration).Some? && ParseInt(f.duration).value > 0
  {
  }

  /**
   * A built course is a new one (id 0) whose texts are the trimmed fields
   * and are not empty, whose status is one of the three, and whose counts
   * are the parsed ones.
   */
  lemma {:induction false} ValidatedCourse(f: Form)
    requires 0 <= f.selectedStatus < |Statuses|
    requires Validate(f).Some?
    ensures var c := Validate(f).value;
      && c.id == 0
      && c.name == Trim(f.name) && c.instructor == Trim(f.instructor) && c.description == Trim(f.description)
      && c.name != [] && c.instructor != [] && c.description != []
      && c.status == Statuses[f.selectedStatus] && c.status in Statuses
      && Some(c.students) == ParseInt(f.students) && c.students >= 0
      && Some(c.duration) == ParseInt(f.duration) && c.duration > 0
  {
    TrimEmptyIffBlank(f.name);
    TrimEmptyIffBlank(f.instructor);
    TrimEmptyIffBlank(f.description);
  }

  /** Saving the form as it opens creates an ongoing course with 25 students and 40 hours. */
  lemma InitialFormIsValid()
    ensures Validate(Initial).Some?
    ensures Validate(Initial).value.status == "ongoing"
    ensures Validate(Initial).value.students == 25 && Validate(Initial).value.duration == 40
  {
    TwoDigitsValue("25");
    ParseDigits("25");
    TwoDigitsValue("40");
    ParseDigits("40");
    assert !IsWhitespace(Initial.name[0]) && !IsWhitespace(Initial.instructor[0]) && !IsWhitespace(Initial.description[0]);
  }

  // ---------------------------------------------------------------- observer

  /** The observer's test for a message that still ends the screen with `RESULT_OK`. */
  predicate FinishesScreen(m: string) {
    Contains(m, Courses.SavedLocally) || Contains(m, "Will sync")
  }

  /** Whatever exception `createCourse` catches, its message ends the screen. */
  lemma OfflineCreateFinishes(e: Failures.Exn)
    ensures FinishesScreen(Courses.OfflineCreateMessage(e))
  {
    Courses.OfflineMessageSaysSaved(Failures.Classify(e), e.message);
  }

  // ---------------------------------------------------------------- capitalize

  /** `replaceFirstChar { if (it.isLowerCase()) it.titlecase() else it.toString() }`. */
  function Capitalize(s: string): string {
    if s == [] then s
    else if IsLowerChar(s[0]) then [UpperChar(s[0])] + s[1..]
    else s
  }

  /** Only the first character can change, and only from lower case to upper case. */
  lemma CapitalizeSpec(s: string)
    ensures var r := Capitalize(s);
      && |r| == |s| && (s != [] ==> r[1..] == s[1..])
      && (s != [] ==> r[0] == (if 'a' <= s[0] <= 'z' then s[0] - 'a' + 'A' else s[0]))
      && (s != [] ==> !IsLowerChar(r[0]))
  {
    if s != [] && IsLowerChar(s[0]) {
      assert Capitalize(s)[0] == UpperChar(s[0]);
    }
  }

  lemma CapitalizeIdempotent(s: string)
    ensures Capitalize(Capitalize(s)) == Capitalize(s)
  {
    CapitalizeSpec(s);
  }

  lemma CapitalizeShown()
    ensures Capitalize("") == ""
    ensures Capitalize("ongoing") == "Ongoing"
    ensures Capitalize("Upcoming") == "Upcoming"
  {
  }

  // ---------------------------------------------------------------- screen state

  /** The screen's state; `created` records the courses passed to `viewModel.createCourse`. */
  class CourseFormScreen {
    var form: Form
    var created: seq<Course>

    predicate Valid()
      reads this
    {
      0 <= form.selectedStatus < |Statuses|
    }

    constructor ()
      ensures Valid() && form == Initial && created == []
    {
      form := Initial;
      created := [];
    }

    method OnNameChange(text: string)
      requires Valid()
      modifies this`form
      ensures Valid() && form == old(form).(name := text)
    {
      form := form.(name := text);
    }

    method OnInstructorChange(text: string)
      requires Valid()
      modifies this`form
      ensures Valid() && form == old(form).(instructor := text)
    {
      form := form.(instructor := text);
    }

    method OnDescriptionChange(text: string)
      requires Valid()
      modifies this`form
      ensures Valid() && form == old(form).(description := text)
    {
      form := form.(description := text);
    }

    /** A dropdown item was clicked. */
    method OnStatusSelected(index: int)
      requires Valid() && 0 <= index < |Statuses|
      modifies this`form
      ensures Valid() && form == old(form).(selectedStatus := index)
    {
      form := form.(selectedStatus := index);
    }

    method OnStudentsChange(text: string)
      requires Valid()
      modifies this`form
      ensures Valid() && form == old(form).(students := text)
    {
      form := form.(students := text);
    }

    method OnDurationChange(text: string)
      requires Valid()
      modifies this`form
      ensures Valid() && form == old(form).(duration := text)
    {
      form := form.(duration := text);
    }

    /** Save: at most one `createCourse` call, and only when every check passes; the form is kept. */
    method OnSaveClicked()
      requires Valid()
      modifies this`created
      ensures Valid()
      ensures Validate(form).None? ==> created == old(created)
      ensures Validate(form).Some? ==> created == old(created) + [Validate(form).value]
    {
      if IsBlank(form.name) {
        return;
      }
      if IsBlank(form.instructor) {
        return;
      }
      if IsBlank(form.description) {
        return;
      }
      var studentsInt := ParseInt(form.students);
      if studentsInt.None? || studentsInt.value < 0 {
        return;
      }
      var durationInt := ParseInt(form.duration);
      if durationInt.None? || durationInt.value <= 0 {
        return;
      }
      var course := Course(0, Trim(form.name), Trim(form.instructor), Trim(form.description),
                           Statuses[form.selectedStatus], studentsInt.value, durationInt.value);
      created := created + [course];
    }
  }
}
