/**
 * viewmodel/CourseViewModel.kt: the screen state of the course list, the
 * list the student and analytics screens read (`_allCoursesForAnalysis`),
 * and the local course table. Unlike recipes, a course whose creation
 * throws is kept in the table and the creation is reported as a success.
 */
module Courses {
  import opened Wrappers
  import opened Entities
  import opened Failures
  import opened Seqs
  import Store

  const NoCoursesFound := "No courses found. Pull to refresh or check connection."

  /** The phrase every offline-creation message carries. */
  const SavedLocally := "saved locally"

  const CreateOffline := "Server is offline. Course " + SavedLocally + " and will sync when server is available."
  const CreateTimeout := "Server timeout. Course " + SavedLocally + " and will sync later."
  const CreateNoNetwork := "Network error. Course " + SavedLocally + " and will sync when online."

  const DeleteOffline := "Server is offline. Please make sure the server is running to delete courses."
  const DeleteTimeout := "Server timeout. The server took too long to respond."
  const DeleteNoNetwork := "Network error. Cannot reach the server."

  const UnknownCreateError := "Will sync when connection is available."
  const UnknownDeleteError := "Unknown error occurred."

  function CourseId(c: Course): int { c.id }

  /** The message of a load whose database read threw. */
  function LoadFailed(e: Exn): string {
    "Error loading courses: " + MessageText(e)
  }

  /** The message of a create request the server answered with an error status. */
  function CreateRejected(responseMessage: string): string {
    "Failed to create course: " + responseMessage
  }

  /** The message of a delete request the server answered with an error status other than 404. */
  function DeleteRejected(responseMessage: string): string {
    "Failed to delete course: " + responseMessage
  }

  /** `cached` is what `getCachedCourses()` returns: every stored row once, `ORDER BY id DESC`. */
  predicate ListsCache(cached: seq<Course>, cache: map<int, Course>) {
    && Store.Lists(cached, cache, CourseId)
    && forall i, j :: 0 <= i < j < |cached| ==> cached[i].id > cached[j].id
  }

  /** The `when` of `createCourse`'s catch block. */
  function OfflineCreateMessage(e: Exn): string {
    OfflineMessage(Classify(e), e.message)
  }

  /** The branch of that `when` for `cause`; `message` is `e.message`. */
  function OfflineMessage(cause: Cause, message: Option<string>): string {
    match cause
    case Offline => CreateOffline
    case TimedOut => CreateTimeout
    case NoNetwork => CreateNoNetwork
    case Unexpected => "Course " + SavedLocally + ": " + message.GetOr(UnknownCreateError)
  }

  /** The `when` of `deleteCourse`'s catch block. */
  function DeleteFailureMessage(e: Exn): string {
    DeleteMessage(Classify(e), e.message)
  }

  /** The branch of that `when` for `cause`; `message` is `e.message`. */
  function DeleteMessage(cause: Cause, message: Option<string>): string {
    match cause
    case Offline => DeleteOffline
    case TimedOut => DeleteTimeout
    case NoNetwork => DeleteNoNetwork
    case Unexpected => "Error deleting course: " + message.GetOr(UnknownDeleteError)
  }

  // ---------------------------------------------------------------- messages

  /** Every message of an offline creation says the course was saved locally. */
  lemma {:induction false} OfflineMessageSaysSaved(cause: Cause, message: Option<string>)
    ensures Text.Contains(OfflineMessage(cause, message), SavedLocally)
  {
    match cause
    case Offline => Text.ContainsMiddle("Server is offline. Course ", SavedLocally, " and will sync when server is available.");
    case TimedOut => Text.ContainsMiddle("Server timeout. Course ", SavedLocally, " and will sync later.");
    case NoNetwork => Text.ContainsMiddle("Network error. Course ", SavedLocally, " and will sync when online.");
    case Unexpected =>
      var m := message.GetOr(UnknownCreateError);
      Text.ContainsMiddle("Course ", SavedLocally, ": ");
      Text.ContainsInPrefix("Course " + SavedLocally + ": ", m, SavedLocally);
  }

  // ---------------------------------------------------------------- state

  class CourseViewModel {
    var courses: Option<seq<Course>>
    var isLoading: bool
    var errorMessage: Option<string>
    var operationSuccess: bool
    var allCoursesForAnalysis: Option<seq<Course>>
    /** The local course table. */
    var cache: map<int, Course>

    constructor (stored: map<int, Course>)
      ensures courses == None && !isLoading && errorMessage == None && !operationSuccess
      ensures allCoursesForAnalysis == None && cache == stored
    {
      courses := None;
      isLoading := false;
      errorMessage := None;
      operationSuccess := false;
      allCoursesForAnalysis := None;
      cache := stored;
    }

    /**
     * `loadCourses`. `cached` is what reading the table gives, `None` where the
     * read throws: the repository's own read for `Fallback`, the catch
     * block's second read for `Broken`. When that second read throws as
     * well, the list keeps its value, `finally` still clears `isLoading`, and
     * the exception leaves the coroutine (`escaped`).
     */
    method LoadCourses(outcome: Load<Course>, cached: Option<seq<Course>>) returns (escaped: bool)
      requires cached.Some? ==> ListsCache(cached.value, cache)
      requires outcome.Fallback? ==> cached.Some?
      modifies this`courses, this`isLoading, this`errorMessage, this`cache
      ensures !isLoading
      ensures escaped <==> outcome.Broken? && cached.None?
      ensures outcome.Fetched? ==>
        && courses == Some(outcome.items)
        && cache == Store.InsertAll(old(cache), outcome.items, CourseId)
        && errorMessage == (if outcome.items == [] then Some(NoCoursesFound) else None)
      ensures outcome.Fallback? ==>
        && courses == Some(cached.value) && cache == old(cache)
        && errorMessage == (if cached.value == [] then Some(NoCoursesFound) else None)
      ensures outcome.Broken? ==>
        && courses == (if cached.Some? then Some(cached.value) else old(courses)) && cache == old(cache)
        && errorMessage == Some(LoadFailed(outcome.e))
    {
      isLoading := true;
      errorMessage := None;
      escaped := false;
      match outcome {
        case Fetched(items) =>
          cache := Store.InsertAll(cache, items, CourseId);
          courses := Some(items);
          if items == [] {
            errorMessage := Some(NoCoursesFound);
          }
        case Fallback =>
          courses := Some(cached.value);
          if cached.value == [] {
            errorMessage := Some(NoCoursesFound);
          }
        case Broken(e) =>
          errorMessage := Some(LoadFailed(e));
          if cached.Some? {
            courses := Some(cached.value);
          } else {
            escaped := true;
          }
      }
      isLoading := false;
    }

    /**
     * `createCourse`: a 2xx is a success; another response is a failure
     * and nothing is stored; an exception stores the course (replacing the
     * row with its id) and is still reported as a success. `stored` says
     * whether that write to the table succeeds: when it throws, neither the
     * message nor the success flag is set, `finally` still clears
     * `isLoading`, and the exception leaves the coroutine (`escaped`).
     */
    method CreateCourse(course: Course, call: Call, stored: bool) returns (escaped: bool)
      modifies this`isLoading, this`errorMessage, this`operationSuccess, this`cache
      ensures !isLoading
      ensures escaped <==> call.Threw? && !stored
      ensures call.Returned? && IsSuccessful(call.response) ==>
        operationSuccess && errorMessage == old(errorMessage) && cache == old(cache)
      ensures call.Returned? && !IsSuccessful(call.response) ==>
        && !operationSuccess && cache == old(cache)
        && errorMessage == Some(CreateRejected(call.response.message))
      ensures call.Threw? && stored ==>
        && operationSuccess && cache == old(cache)[course.id := course]
        && errorMessage == Some(OfflineCreateMessage(call.e))
      ensures call.Threw? && !stored ==>
        && operationSuccess == old(operationSuccess) && cache == old(cache)
        && errorMessage == old(errorMessage)
    {
      isLoading := true;
      escaped := false;
      match call {
        case Returned(response) =>
          if IsSuccessful(response) {
            operationSuccess := true;
          } else {
            errorMessage := Some(CreateRejected(response.message));
            operationSuccess := false;
          }
        case Threw(e) =>
          var errorMsg := OfflineCreateMessage(e);
          if stored {
            cache := cache[course.id := course];
            errorMessage := Some(errorMsg);
            operationSuccess := true;
          } else {
            escaped := true;
          }
      }
      isLoading := false;
    }

    /**
     * `deleteCourse`: a 2xx or a 404 removes the course from the list and
     * from the table (the repository deletes it on a 2xx, the view model on
     * a 404); anything else keeps both.
     */
    method DeleteCourse(id: int, call: Call)
      modifies this`courses, this`isLoading, this`errorMessage, this`operationSuccess, this`cache
      ensures !isLoading
      ensures call.Returned? && (IsSuccessful(call.response) || call.response.code == NotFound) ==>
        && courses == Some(Store.WithoutKey(old(courses).GetOr([]), CourseId, id))
        && cache == old(cache) - {id}
        && operationSuccess && errorMessage == old(errorMessage)
      ensures call.Returned? && !IsSuccessful(call.response) && call.response.code != NotFound ==>
        && courses == old(courses) && cache == old(cache) && !operationSuccess
        && errorMessage == Some(DeleteRejected(call.response.message))
      ensures call.Threw? ==>
        && courses == old(courses) && cache == old(cache) && !operationSuccess
        && errorMessage == Some(DeleteFailureMessage(call.e))
    {
      isLoading := true;
      match call {
        case Returned(response) =>
          if IsSuccessful(response) {
            cache := cache - {id};
            var currentList := courses.GetOr([]);
            courses := Some(Store.WithoutKey(currentList, CourseId, id));
            operationSuccess := true;
          } else if response.code == NotFound {
            cache := cache - {id};
            var currentList := courses.GetOr([]);
            courses := Some(Store.WithoutKey(currentList, CourseId, id));
            operationSuccess := true;
          } else {
            errorMessage := Some(DeleteRejected(response.message));
            operationSuccess := false;
          }
        case Threw(e) =>
          errorMessage := Some(DeleteFailureMessage(e));
          operationSuccess := false;
      }
      isLoading := false;
    }

    /**
     * `loadAllCoursesForAnalysis`: online only. `complete` is the body of
     * the `/allCourses` response, or the exception thrown for a failed
     * request; on an exception the list becomes empty, never the table.
     */
    method LoadAllCoursesForAnalysis(complete: Load<Course>)
      requires !complete.Fallback?
      modifies this`allCoursesForAnalysis, this`errorMessage
      ensures complete.Fetched? ==> allCoursesForAnalysis == Some(complete.items) && errorMessage == old(errorMessage)
      ensures complete.Broken? ==>
        && allCoursesForAnalysis == Some([])
        && errorMessage == Some(LoadFailed(complete.e))
    {
      match complete {
        case Fetched(items) =>
          allCoursesForAnalysis := Some(items);
        case Broken(e) =>
          errorMessage := Some(LoadFailed(e));
          allCoursesForAnalysis := Some([]);
      }
    }

    /** `addCourseToList`: in front of the list, and written to the table. */
    method AddCourseToList(course: Course)
      modifies this`courses, this`cache
      ensures courses == Some(Prepended(old(courses), course))
      ensures cache == old(cache)[course.id := course]
    {
      var currentList := courses.GetOr([]);
      courses := Some([course] + currentList);
      cache := cache[course.id := course];
    }

    method ClearError()
      modifies this`errorMessage
      ensures errorMessage == None
    {
      errorMessage := None;
    }

    method ResetOperationSuccess()
      modifies this`operationSuccess
      ensures !operationSuccess
    {
      operationSuccess := false;
    }
  }
}
