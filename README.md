# A verified model of the recipe and course client

This project models, in Dafny, the sequential logic of an Android client for two small REST
services: a recipe book and a course catalogue. The client keeps both lists in view models
backed by a local Room table. It hears about new recipes over a WebSocket that reconnects with a
linear backoff. Its screens validate forms, format dates and rank courses and categories.
Everything here is a model on values and objects.

The model follows the source file by file:

- `reconnect.dfy` is the reconnect/backoff state machine of `RecipeWebSocketClient` as a value
  (`Reconnect.Client`), one transition function per callback, call or timer firing.
  `websocket.dfy` is the same client as a class whose fields are the Kotlin fields. Each of its
  methods ensures that its new state is the matching transition of its old state.
  - The OkHttp socket is an abstract handle numbered by creation.
  - Gson is a partial function `string -> Option<Recipe>`.
  - The `Handler` queue is a sequence of pending delays. "A posted runnable runs" is an event
    of its own, and any queued runnable may be the one that runs.
- `recipes.dfy` and `courses.dfy` are the two view models as classes. They hold the LiveData
  fields (`recipes`/`courses` as `Option<seq<…>>`, `isLoading`, `errorMessage`,
  `operationSuccess`) and the local table as a map from primary key to row, as `REPLACE` inserts
  and `deleteById` treat it. The outcome of each network or database call is a parameter.
  `failures.dfy` holds the exceptions and responses and the ordered `when` that classifies an
  exception.
- `analytics.dfy`, `student.dfy`, `insights.dfy` and `explore.dfy` are the list pipelines of
  the analytics, student, insights and explore screens. They are built on reference definitions
  of Kotlin's collection functions:
  - a stable insertion sort (`sorting.dfy`);
  - `groupBy` as the `LinkedHashMap` fold it performs (`grouping.dfy`);
  - `filter`, `take` and `sumOf` (`seqs.dfy`).
- `course_form.dfy`, `recipe_form.dfy`, `recipe_detail.dfy` and `recipe_adapter.dfy` are the form
  checks and the string formatting of the edit, detail and list screens. They use the ASCII
  models of `trim`, `isBlank`, `lowercase`, `uppercase`, `contains` and `split` in `text.dfy`,
  `toIntOrNull`/`toString` in `numbers.dfy` and `String.compareTo` in `order.dfy`.
- `store.dfy` is the Room table; `entities.dfy` holds the two records; `wrappers.dfy` holds
  `Option`.

Where the model departs from the source:

- In `deleteCourse` and `deleteRecipe`, the table row is removed by the repository on a 2xx and
  by the view model on a 404. `DeleteCourse` and `DeleteRecipe` keep the two branches but remove
  the row in the view model in both, which ends in the same state.
- The recipe form's rating range check is used as intended (`RecipeForm.SaveRecipe`), not as
  written. The chain as written is modelled beside it (`RecipeForm.SaveRecipeAsWritten`), and
  the two are proved to differ only at a NaN rating (see "## Findings").

Behaviour of the source that the model keeps, and that a reader might not expect:

- `onMessage` does not look at `isManualDisconnect`: a frame that arrives after `disconnect`
  is still delivered (`Reconnect.MessageAfterDisconnect`).
- `connect` does not reset the retry counter; only a successful open does.
- The backoff delay has a ten-second cap. Because only five retries are ever made, the cap is
  never reached (`Reconnect.ScheduleQueuesOne`).
- Every course created offline has id 0, so the `REPLACE` insert keeps only the last of them in
  the table.
- `groupBy` keeps its keys in the order of their first occurrence, and the descending sorts that
  follow it are stable. So months with equal ratings, and categories with equal totals, are shown
  in the order in which they first occur (`Grouping.GroupByFirstOccurrence`).

## Model

| member | source | states |
|---|---|---|
| Reconnect.Connect | app/src/main/java/com/example/examprep/websocket/RecipeWebSocketClient.kt:23-27 | `connect`: stores the URL, clears the manual flag and makes an attempt; `Reconnect.ConnectStartsOneAttempt` states its effect. |
| Reconnect.Attempt | app/src/main/java/com/example/examprep/websocket/RecipeWebSocketClient.kt:29-37 | `attemptConnection`: without a URL nothing happens, otherwise one socket is requested for it; see `Reconnect.AttemptWithoutUrl`. |
| Reconnect.Open | app/src/main/java/com/example/examprep/websocket/RecipeWebSocketClient.kt:38-41 | `onOpen`: the counter goes back to 0; see `Reconnect.OpenOnlyResets`. |
| Reconnect.Message | app/src/main/java/com/example/examprep/websocket/RecipeWebSocketClient.kt:43-52 | `onMessage`: a frame that parses is handed to `onRecipeAdded`; see `Reconnect.MessageDeliversOnce`. |
| Reconnect.Closing | app/src/main/java/com/example/examprep/websocket/RecipeWebSocketClient.kt:54-57 | `onClosing`: the socket is closed with 1000 and no reason. |
| Reconnect.LostConnection | app/src/main/java/com/example/examprep/websocket/RecipeWebSocketClient.kt:59-72 | `onClosed` and `onFailure`: schedule a reconnect unless the disconnect was manual; see `Reconnect.LostConnectionSchedules`. |
| Reconnect.Schedule | app/src/main/java/com/example/examprep/websocket/RecipeWebSocketClient.kt:76-89 | `scheduleReconnect`: give up at five retries, otherwise count one more and post the delay; see `Reconnect.GiveUpChangesNothing` and `Reconnect.ScheduleQueuesOne`. |
| Reconnect.TimerFires | app/src/main/java/com/example/examprep/websocket/RecipeWebSocketClient.kt:86-88 | A posted runnable runs: it leaves the queue and makes an attempt; see `Reconnect.TimerReusesUrl`. |
| Reconnect.Disconnect | app/src/main/java/com/example/examprep/websocket/RecipeWebSocketClient.kt:91-97 | `disconnect`; see `Reconnect.DisconnectEffect` and `Reconnect.AfterDisconnectNoReconnect`. |
| Reconnect.InitInv | app/src/main/java/com/example/examprep/websocket/RecipeWebSocketClient.kt:14-21 | The fresh client satisfies the invariant: counter within 0..5, every queued delay within 1000..5000 ms, the current socket is one that was requested, no timer queued after a manual disconnect. |
| Reconnect.StepInv | app/src/main/java/com/example/examprep/websocket/RecipeWebSocketClient.kt:23-97 | Every event (connect, open, message, closing, closed, failure, a timer firing, disconnect) keeps the invariant. |
| Reconnect.ScheduleInv | app/src/main/java/com/example/examprep/websocket/RecipeWebSocketClient.kt:59-89 | A close or a failure keeps the invariant, including the bound on the counter and on the delays. |
| Reconnect.RunInv | app/src/main/java/com/example/examprep/websocket/RecipeWebSocketClient.kt:23-97 | Any sequence of events keeps the invariant. |
| Reconnect.ReachableRetriesBounded | app/src/main/java/com/example/examprep/websocket/RecipeWebSocketClient.kt:77-82 | From a fresh client, whatever the events, the retry counter stays within 0..5. |
| Reconnect.ConnectStartsOneAttempt | app/src/main/java/com/example/examprep/websocket/RecipeWebSocketClient.kt:23-27 | `connect(url)` stores the URL, clears the manual flag, keeps the retry counter, requests exactly one socket, for that URL, and touches no timer, close or delivery. |
| Reconnect.AttemptWithoutUrl | app/src/main/java/com/example/examprep/websocket/RecipeWebSocketClient.kt:30 | An attempt without a stored URL changes nothing and creates no socket. |
| Reconnect.OpenOnlyResets | app/src/main/java/com/example/examprep/websocket/RecipeWebSocketClient.kt:38-41 | `onOpen` sets the counter to 0 and changes nothing else. |
| Reconnect.LostConnectionSchedules | app/src/main/java/com/example/examprep/websocket/RecipeWebSocketClient.kt:59-72 | A close or failure queues a timer exactly when the disconnect was not manual and fewer than five retries were made; after a manual disconnect the state is unchanged. |
| Reconnect.GiveUpChangesNothing | app/src/main/java/com/example/examprep/websocket/RecipeWebSocketClient.kt:77-80 | With five retries made, `scheduleReconnect` leaves the whole state as it was. |
| Reconnect.ScheduleQueuesOne | app/src/main/java/com/example/examprep/websocket/RecipeWebSocketClient.kt:82-88 | Below the limit the counter grows by exactly one and exactly one timer is queued with delay 1000 ms times the new count, below the 10 s cap; nothing else changes. |
| Reconnect.OpenRestartsBackoff | app/src/main/java/com/example/examprep/websocket/RecipeWebSocketClient.kt:40 | After a successful open the next lost connection waits 1000 ms again. |
| Reconnect.MessageDeliversOnce | app/src/main/java/com/example/examprep/websocket/RecipeWebSocketClient.kt:43-52 | A frame that parses is delivered exactly once, as the parsed recipe, and nothing else changes; a frame that does not parse changes nothing. |
| Reconnect.MessageAfterDisconnect | app/src/main/java/com/example/examprep/websocket/RecipeWebSocketClient.kt:43-52 | Delivery does not look at the manual flag: a parsable frame after `disconnect` is still delivered. |
| Reconnect.TimerReusesUrl | app/src/main/java/com/example/examprep/websocket/RecipeWebSocketClient.kt:86-88 | A firing timer leaves the queue and opens one socket for the URL stored by the last `connect`, keeping the counter. |
| Reconnect.DisconnectEffect | app/src/main/java/com/example/examprep/websocket/RecipeWebSocketClient.kt:91-97 | `disconnect` sets the flag, empties the timer queue, closes the current socket (if any) with 1000 and "App closed", forgets it, and keeps URL, counter and requests. |
| Reconnect.DisconnectIdempotent | app/src/main/java/com/example/examprep/websocket/RecipeWebSocketClient.kt:91-97 | Disconnecting twice is disconnecting once. |
| Reconnect.DisconnectBeforeConnect | app/src/main/java/com/example/examprep/websocket/RecipeWebSocketClient.kt:91-97 | `disconnect` before any `connect` closes nothing, and a later `connect` behaves as on a fresh client. |
| Reconnect.RampFirstFive | app/src/main/java/com/example/examprep/websocket/RecipeWebSocketClient.kt:83 | The delays of the first five retries are 1000, 2000, 3000, 4000 and 5000 ms. |
| Reconnect.RampAppend | app/src/main/java/com/example/examprep/websocket/RecipeWebSocketClient.kt:82-83 | Consecutive stretches of the delay ramp concatenate into one stretch. |
| Reconnect.StepBackoff | app/src/main/java/com/example/examprep/websocket/RecipeWebSocketClient.kt:76-89 | Any event other than an open either leaves counter and posted delays alone or makes exactly the next retry with the next delay. |
| Reconnect.BackoffRamp | app/src/main/java/com/example/examprep/websocket/RecipeWebSocketClient.kt:76-89 | Over any run without an open, the counter only grows, never past 5, and the delays posted are exactly the next steps of the ramp from the starting counter. |
| Reconnect.BackoffFromZero | app/src/main/java/com/example/examprep/websocket/RecipeWebSocketClient.kt:76-89 | From counter 0 and without an open, the delays posted are a prefix of 1000, 2000, 3000, 4000, 5000: at most five, in that order, and no sixth. |
| Reconnect.StaysDisconnected | app/src/main/java/com/example/examprep/websocket/RecipeWebSocketClient.kt:61-70 | After a manual disconnect and without a new `connect`, no timer is posted or queued and no socket is requested, whatever happens. |
| Reconnect.AfterDisconnectNoReconnect | app/src/main/java/com/example/examprep/websocket/RecipeWebSocketClient.kt:91-97 | After `disconnect`, whatever events follow without a `connect`, nothing is queued or posted and no socket is requested. |
| WebSocket.RecipeWebSocketClient.constructor | app/src/main/java/com/example/examprep/websocket/RecipeWebSocketClient.kt:10-21 | The new client is the fresh state of the transition system. |
| WebSocket.RecipeWebSocketClient.Connect | app/src/main/java/com/example/examprep/websocket/RecipeWebSocketClient.kt:23-27 | Performs `Reconnect.Connect` on the fields: URL stored, flag cleared, counter kept, one request added. |
| WebSocket.RecipeWebSocketClient.AttemptConnection | app/src/main/java/com/example/examprep/websocket/RecipeWebSocketClient.kt:29-37 | Performs `Reconnect.Attempt`; without a URL nothing changes. |
| WebSocket.RecipeWebSocketClient.OnOpen | app/src/main/java/com/example/examprep/websocket/RecipeWebSocketClient.kt:38-41 | Performs `Reconnect.Open`: the counter becomes 0. |
| WebSocket.RecipeWebSocketClient.OnMessage | app/src/main/java/com/example/examprep/websocket/RecipeWebSocketClient.kt:43-52 | Performs `Reconnect.Message`: a parsed recipe is appended to the deliveries once; an unparsable frame changes nothing. |
| WebSocket.RecipeWebSocketClient.OnClosing | app/src/main/java/com/example/examprep/websocket/RecipeWebSocketClient.kt:54-57 | Performs `Reconnect.Closing`: the closing socket is closed with code 1000 and no reason. |
| WebSocket.RecipeWebSocketClient.OnClosed | app/src/main/java/com/example/examprep/websocket/RecipeWebSocketClient.kt:59-64 | Performs `Reconnect.LostConnection`; after a manual disconnect nothing changes. |
| WebSocket.RecipeWebSocketClient.OnFailure | app/src/main/java/com/example/examprep/websocket/RecipeWebSocketClient.kt:66-72 | Performs `Reconnect.LostConnection`; after a manual disconnect nothing changes. |
| WebSocket.RecipeWebSocketClient.ScheduleReconnect | app/src/main/java/com/example/examprep/websocket/RecipeWebSocketClient.kt:76-89 | Performs `Reconnect.Schedule`: at the limit nothing changes, and the counter never exceeds 5. |
| WebSocket.RecipeWebSocketClient.TimerFires | app/src/main/java/com/example/examprep/websocket/RecipeWebSocketClient.kt:86-88 | Performs `Reconnect.TimerFires`: the runnable leaves the queue and an attempt is made. |
| WebSocket.RecipeWebSocketClient.Disconnect | app/src/main/java/com/example/examprep/websocket/RecipeWebSocketClient.kt:91-97 | Performs `Reconnect.Disconnect`: flag set, queue empty, socket forgotten. |
| Failures.Classify | app/src/main/java/com/example/examprep/viewmodel/RecipeViewModel.kt:95-107 | The ordered `when` of the catch blocks; `Failures.ClassifyPrecedence` states its four branches. |
| Failures.ClassifyPrecedence | app/src/main/java/com/example/examprep/viewmodel/RecipeViewModel.kt:95-107 | The exception's message is chosen in order, first match wins: connection failure (`ConnectException` or one of three phrases, ignoring case), then "timeout", then `UnknownHostException`, then the generic message; each of the four outcomes holds exactly under its condition. |
| Failures.TimeoutBeatsUnknownHost | app/src/main/java/com/example/examprep/viewmodel/RecipeViewModel.kt:101-104 | An `UnknownHostException` whose message says "timeout" is reported as a timeout. |
| Failures.ConnectExceptionIsOffline | app/src/main/java/com/example/examprep/viewmodel/RecipeViewModel.kt:96 | A `ConnectException` is reported as "server offline" whatever its message. |
| Failures.NoMessageNoMatch | app/src/main/java/com/example/examprep/viewmodel/RecipeViewModel.kt:97-106 | A message-less exception of another class is a network error if it is an `UnknownHostException` and the generic case otherwise. |
| Store.WithoutKey | app/src/main/java/com/example/examprep/viewmodel/RecipeViewModel.kt:123-124 | `filter { it.id != id }` on the shown list, shared by both view models; see `Store.WithoutKeyKeepsOthers`. |
| Store.WithoutKeyKeepsOthers | app/src/main/java/com/example/examprep/viewmodel/RecipeViewModel.kt:123-124 | Deleting an id from a list leaves no row with that id, keeps every other row exactly as often as before, and keeps their order (also `CourseViewModel.kt` lines 129-137). |
| Store.WithoutKeyAbsentAndTwice | app/src/main/java/com/example/examprep/viewmodel/RecipeViewModel.kt:123-124 | Deleting an id that is not listed changes nothing, and deleting twice is deleting once. |
| Seqs.PrependedPutsFirst | app/src/main/java/com/example/examprep/viewmodel/RecipeViewModel.kt:182-183 | A pushed element goes first, the list grows by one and the old list (null read as empty) follows unchanged; both view models' `add…ToList` use it. |
| Recipes.MessagesSigned | app/src/main/java/com/example/examprep/viewmodel/RecipeViewModel.kt:95-107 | Every create and delete failure message starts with the sign of the guard that fired. |
| Recipes.SignsDiffer | app/src/main/java/com/example/examprep/viewmodel/RecipeViewModel.kt:100-106 | The four signs start with four different characters. |
| Recipes.FailureMessageTellsCause | app/src/main/java/com/example/examprep/viewmodel/RecipeViewModel.kt:139-151 | Exceptions of different kinds give different create messages and different delete messages. |
| Recipes.RecipeViewModel.constructor | app/src/main/java/com/example/examprep/viewmodel/RecipeViewModel.kt:22-35 | A fresh view model has no list, no error, no success and the stored table. |
| Recipes.RecipeViewModel.LoadRecipes | app/src/main/java/com/example/examprep/viewmodel/RecipeViewModel.kt:37-56 | Ends with `isLoading` false. A network list replaces the list, is written to the table, and sets "No recipes found" exactly when it is empty. A fallback shows the table's rows in the same way. A database exception sets "Error loading recipes" and shows the rows of the catch block's second read; if that read throws too, the list keeps its value and the exception escapes (`escaped`). |
| Recipes.RecipeViewModel.CreateRecipe | app/src/main/java/com/example/examprep/viewmodel/RecipeViewModel.kt:80-114 | `operationSuccess` holds exactly after a 2xx response; a rejected response and an exception give their messages; list and table are unchanged. |
| Recipes.RecipeViewModel.DeleteRecipe | app/src/main/java/com/example/examprep/viewmodel/RecipeViewModel.kt:116-158 | A 2xx or a 404 removes `id` from the list and the table and sets success; another response or an exception keeps both, clears success and sets the matching message. |
| Recipes.RecipeViewModel.GetAllRecipesForAnalysis | app/src/main/java/com/example/examprep/viewmodel/RecipeViewModel.kt:160-178 | The table's rows when there are any; the network is used exactly when the table is empty; a failure sets the error and delivers nothing. |
| Recipes.RecipeViewModel.AddRecipeToList | app/src/main/java/com/example/examprep/viewmodel/RecipeViewModel.kt:180-189 | The recipe is put in front of the list and written to the table. |
| Recipes.RecipeViewModel.ClearError | app/src/main/java/com/example/examprep/viewmodel/RecipeViewModel.kt:191-193 | The error is cleared. |
| Recipes.RecipeViewModel.ResetOperationSuccess | app/src/main/java/com/example/examprep/viewmodel/RecipeViewModel.kt:195-197 | The success flag is cleared. |
| Courses.OfflineMessageSaysSaved | app/src/main/java/com/example/examprep/viewmodel/CourseViewModel.kt:98-110 | Each of the four messages of a failed creation says "saved locally". |
| Courses.CourseViewModel.constructor | app/src/main/java/com/example/examprep/viewmodel/CourseViewModel.kt:23-38 | A fresh view model has no lists, no error, no success and the stored table. |
| Courses.CourseViewModel.LoadCourses | app/src/main/java/com/example/examprep/viewmodel/CourseViewModel.kt:40-59 | Ends with `isLoading` false. A network list replaces the list and is written to the table. A fallback shows the table's rows. "No courses found" is set exactly for an empty list. A database exception sets "Error loading courses" and shows the rows of the second read; if that read throws too, the list keeps its value and the exception escapes (`escaped`). |
| Courses.CourseViewModel.CreateCourse | app/src/main/java/com/example/examprep/viewmodel/CourseViewModel.kt:83-120 | A 2xx is a success; a rejected response is a failure and stores nothing; an exception stores the course under its id, sets the offline message of its kind and is still a success; if that write to the table throws, message, success flag and table are unchanged and the exception escapes (`escaped`). `isLoading` ends false in every case. |
| Courses.CourseViewModel.DeleteCourse | app/src/main/java/com/example/examprep/viewmodel/CourseViewModel.kt:122-164 | A 2xx or a 404 removes `id` from the list and the table and sets success; another response or an exception keeps both, clears success and sets the matching message. |
| Courses.CourseViewModel.LoadAllCoursesForAnalysis | app/src/main/java/com/example/examprep/viewmodel/CourseViewModel.kt:166-178 | The network list on success; on an exception an empty list and an error, never the table. |
| Courses.CourseViewModel.AddCourseToList | app/src/main/java/com/example/examprep/viewmodel/CourseViewModel.kt:180-189 | The course is put in front of the list and written to the table. |
| Courses.CourseViewModel.ClearError | app/src/main/java/com/example/examprep/viewmodel/CourseViewModel.kt:191-193 | The error is cleared. |
| Courses.CourseViewModel.ResetOperationSuccess | app/src/main/java/com/example/examprep/viewmodel/CourseViewModel.kt:195-197 | The success flag is cleared. |
| Store.InsertAll | app/src/main/java/com/example/examprep/database/RecipeDao.kt:18-19 | `insertAll` with `REPLACE`, row by row; `Store.InsertAllEffect` states the table it leaves. |
| Store.InsertAllEffect | app/src/main/java/com/example/examprep/database/RecipeDao.kt:18-19 | After `insertAll` the table holds the old keys and the rows' keys; each such key holds the last row with it, and every other key keeps its old row. |
| Store.EmptyListing | app/src/main/java/com/example/examprep/database/RecipeDao.kt:9-10 | A `SELECT *` listing is empty exactly when the table is. |
| Analytics.Top5 | app/src/main/java/com/example/examprep/ui/AnalyticsActivity.kt:94-98 | `sortedWith(compareBy status, thenByDescending students).take(5)`; see `Analytics.Top5Selects`. |
| Analytics.RankText | app/src/main/java/com/example/examprep/ui/AnalyticsActivity.kt:182-189 | The rank label; see `Analytics.RankTextsShown` and `Analytics.RankTextOther`. |
| Analytics.CourseBeforeIsStrictWeakOrder | app/src/main/java/com/example/examprep/ui/AnalyticsActivity.kt:96-97 | "Status ascending, then students descending" is a strict weak order, so the sort is well defined. |
| Analytics.Top5Selects | app/src/main/java/com/example/examprep/ui/AnalyticsActivity.kt:94-98 | The ranking has `min(5, n)` courses drawn from the input (none more often than there), in comparator order, and no course left out comes strictly before a course kept. |
| Analytics.Top5Ordered | app/src/main/java/com/example/examprep/ui/AnalyticsActivity.kt:96-97 | In the ranking statuses ascend in string order, and within one status the students descend. |
| Analytics.Top5Stable | app/src/main/java/com/example/examprep/ui/AnalyticsActivity.kt:96 | Courses tied on status and students appear in the ranking in their input order. |
| Analytics.NoCoursesUnreachable | app/src/main/java/com/example/examprep/ui/AnalyticsActivity.kt:127-132 | The ranking is empty exactly when there is no course, so the "No courses found" panel never shows. |
| Analytics.RankTextsShown | app/src/main/java/com/example/examprep/ui/AnalyticsActivity.kt:182-189 | The ranks shown, 1 to 5, read "1st" to "5th". |
| Analytics.RankTextOther | app/src/main/java/com/example/examprep/ui/AnalyticsActivity.kt:188 | Any other rank reads as its decimal digits, which parse back to the rank, followed by "th". |
| Student.OngoingCourses | app/src/main/java/com/example/examprep/ui/StudentActivity.kt:85-87 | `filter { it.status.lowercase() == "ongoing" }`; see `Student.OngoingCoursesSpec`. |
| Student.OngoingCoursesSpec | app/src/main/java/com/example/examprep/ui/StudentActivity.kt:85-87 | The list holds the courses whose lower-cased status is "ongoing", each as often as in the input and no other, in input order, no longer than the input; filtering again changes nothing. |
| Student.OngoingIgnoresCase | app/src/main/java/com/example/examprep/ui/StudentActivity.kt:86 | The status test ignores ASCII case. |
| CourseForm.Validate | app/src/main/java/com/example/examprep/ui/AddEditCourseActivity.kt:312-341 | The save checks and the `Course` they build; see `CourseForm.ValidateAccepts` and `CourseForm.ValidatedCourse`. |
| CourseForm.Capitalize | app/src/main/java/com/example/examprep/ui/AddEditCourseActivity.kt:385-387 | `replaceFirstChar` on the status; see `CourseForm.CapitalizeSpec`. |
| CourseForm.ValidateAccepts | app/src/main/java/com/example/examprep/ui/AddEditCourseActivity.kt:313-331 | A course is built exactly when no text field is blank, students parses as an `Int` of at least 0 and duration as an `Int` above 0. |
| CourseForm.ValidatedCourse | app/src/main/java/com/example/examprep/ui/AddEditCourseActivity.kt:333-341 | The built course has id 0, the trimmed non-empty texts, a status from the three-element list at the selected index, and the parsed counts. |
| CourseForm.InitialFormIsValid | app/src/main/java/com/example/examprep/ui/AddEditCourseActivity.kt:90-97 | Saving the form as it opens creates an ongoing course with 25 students and 40 hours. |
| CourseForm.OfflineCreateFinishes | app/src/main/java/com/example/examprep/ui/AddEditCourseActivity.kt:56-63 | Every message of a creation that threw passes the "saved locally" test, so the screen finishes with `RESULT_OK`. |
| CourseForm.CapitalizeSpec | app/src/main/java/com/example/examprep/ui/AddEditCourseActivity.kt:385-387 | Only the first character can change, from lower to upper case; the length and the rest are kept. |
| CourseForm.CapitalizeIdempotent | app/src/main/java/com/example/examprep/ui/AddEditCourseActivity.kt:385-387 | Capitalizing twice is capitalizing once. |
| CourseForm.CapitalizeShown | app/src/main/java/com/example/examprep/ui/AddEditCourseActivity.kt:385-387 | "" stays "", "ongoing" becomes "Ongoing", "Upcoming" is kept. |
| CourseForm.CourseFormScreen.constructor | app/src/main/java/com/example/examprep/ui/AddEditCourseActivity.kt:90-95 | The form opens with its placeholder values and nothing created. |
| CourseForm.CourseFormScreen.OnNameChange | app/src/main/java/com/example/examprep/ui/AddEditCourseActivity.kt:90 | Replaces the name field only. |
| CourseForm.CourseFormScreen.OnInstructorChange | app/src/main/java/com/example/examprep/ui/AddEditCourseActivity.kt:91 | Replaces the instructor field only. |
| CourseForm.CourseFormScreen.OnDescriptionChange | app/src/main/java/com/example/examprep/ui/AddEditCourseActivity.kt:92 | Replaces the description field only. |
| CourseForm.CourseFormScreen.OnStatusSelected | app/src/main/java/com/example/examprep/ui/AddEditCourseActivity.kt:93 | Replaces the selected status index, which stays within the list. |
| CourseForm.CourseFormScreen.OnStudentsChange | app/src/main/java/com/example/examprep/ui/AddEditCourseActivity.kt:94 | Replaces the students field only. |
| CourseForm.CourseFormScreen.OnDurationChange | app/src/main/java/com/example/examprep/ui/AddEditCourseActivity.kt:95 | Replaces the duration field only. |
| CourseForm.CourseFormScreen.OnSaveClicked | app/src/main/java/com/example/examprep/ui/AddEditCourseActivity.kt:312-344 | At most one `createCourse` per click, with the validated course, and only when every check passes. |
| RecipeForm.Guards | app/src/main/java/com/example/examprep/ui/AddEditRecipeActivity.kt:114-144 | The six checks of `saveRecipe` in their order, with the range test as a parameter; see `RecipeForm.GuardsInOrder`. |
| RecipeForm.GuardsInOrder | app/src/main/java/com/example/examprep/ui/AddEditRecipeActivity.kt:114-144 | Each of the six checks stops the chain exactly when every earlier check passed and it fails, and the chain goes on exactly when all six pass. |
| RecipeForm.SaveRecipe | app/src/main/java/com/example/examprep/ui/AddEditRecipeActivity.kt:106-158 | `saveRecipe` with the intended range test: only a rating from 0 to 5 passes; see `RecipeForm.ChecksInOrder` and `RecipeForm.SavedRecipe`. |
| RecipeForm.SaveRecipeAsWritten | app/src/main/java/com/example/examprep/ui/AddEditRecipeActivity.kt:106-144 | `saveRecipe` as written, with `rating < 0 \|\| rating > 5`; it yields the rating it goes on with, NaN included. |
| RecipeForm.ChecksInOrder | app/src/main/java/com/example/examprep/ui/AddEditRecipeActivity.kt:108-144 | The first failing check decides, after trimming: blank title, blank ingredients, blank rating, an unparsable rating, a rating out of range, a date without the `\d{4}-\d{2}-\d{2}` shape; each exactly under its condition, and the recipe is saved exactly when all pass. |
| RecipeForm.DateDecides | app/src/main/java/com/example/examprep/ui/AddEditRecipeActivity.kt:141-144 | Once the rating is a number in range, the recipe is saved exactly when the trimmed date has the `\d{4}-\d{2}-\d{2}` shape. |
| RecipeForm.SavedRecipe | app/src/main/java/com/example/examprep/ui/AddEditRecipeActivity.kt:147-154 | A saved recipe has id 0, the trimmed non-empty title and ingredients, the trimmed well-formed date, the parsed rating within 0..5 and the selected category. |
| RecipeForm.EmptyDateNeverMatches | app/src/main/java/com/example/examprep/ui/AddEditRecipeActivity.kt:141 | The emptiness test on the date is subsumed by the shape test. |
| RecipeForm.DateShapePieces | app/src/main/java/com/example/examprep/ui/AddEditRecipeActivity.kt:141 | The date shape is exactly three `-`-separated runs of 4, 2 and 2 ASCII digits. |
| RecipeForm.DateExamples | app/src/main/java/com/example/examprep/ui/AddEditRecipeActivity.kt:141 | "2024-01-05" is a date; "2024-1-05", "2024/01/05" and a trailing space are not. |
| RecipeForm.RatingRange | app/src/main/java/com/example/examprep/ui/AddEditRecipeActivity.kt:136 | Ratings 0 and 5 are accepted; finite ratings below 0 or above 5, and anything not finite, are rejected. |
| RecipeForm.AsWrittenDiffersOnlyAtNaN | app/src/main/java/com/example/examprep/ui/AddEditRecipeActivity.kt:136 | The range test as written rejects exactly what the intended one rejects, except NaN. |
| RecipeForm.NaNRatingAccepted | app/src/main/java/com/example/examprep/ui/AddEditRecipeActivity.kt:136 | A NaN rating passes the range test as written but not the intended one. |
| RecipeForm.NaNRatingSavedAsWritten | app/src/main/java/com/example/examprep/ui/AddEditRecipeActivity.kt:136-154 | A form with a title, ingredients, a well-formed date and the rating "NaN" goes through the chain as written to `createRecipe` with a NaN rating, while the intended chain stops at the range check. |
| RecipeForm.AsWrittenAgreesOffNaN | app/src/main/java/com/example/examprep/ui/AddEditRecipeActivity.kt:136 | For every rating other than NaN, the chain as written and the intended one stop at the same check or both save, with the same rating. |
| RecipeForm.ConnectionFailuresShowDialog | app/src/main/java/com/example/examprep/ui/AddEditRecipeActivity.kt:77-80 | Every `createRecipe` exception message except the generic one contains one of the phrases the screen looks for ("Server is offline", "Cannot connect", "Network error", "timeout"), so it opens the connection dialog. |
| RecipeDetail.MonthName | app/src/main/java/com/example/examprep/ui/RecipeDetailActivity.kt:169-176 | `getMonthName`; see `RecipeDetail.MonthNameSpec`. |
| RecipeDetail.FormatDate | app/src/main/java/com/example/examprep/ui/RecipeDetailActivity.kt:153-167 | `formatDate`, with `toInt` failures caught; see `RecipeDetail.FormatDateOfPieces`, `FormatDateWrongShape` and `FormatDateUnparsable`. |
| RecipeDetail.CategoryDisplayName | app/src/main/java/com/example/examprep/ui/RecipeDetailActivity.kt:178-186 | `getCategoryDisplayName`; see `RecipeDetail.CategoryDisplayNameIsUppercase`. |
| RecipeDetail.MonthNameSpec | app/src/main/java/com/example/examprep/ui/RecipeDetailActivity.kt:169-176 | Months 1 to 12 get "Jan" to "Dec"; any other number is printed as its decimal form. |
| RecipeDetail.OtherMonthReadsBack | app/src/main/java/com/example/examprep/ui/RecipeDetailActivity.kt:174 | The name of a month outside 1..12 parses back to that number. |
| RecipeDetail.FormatDateOfPieces | app/src/main/java/com/example/examprep/ui/RecipeDetailActivity.kt:155-160 | "Y-M-D" with numeric M and D becomes the month's name, a space, D as a number, a comma and Y as typed. |
| RecipeDetail.FormatDateWrongShape | app/src/main/java/com/example/examprep/ui/RecipeDetailActivity.kt:161-163 | A date without exactly three pieces is shown unchanged. |
| RecipeDetail.FormatDateUnparsable | app/src/main/java/com/example/examprep/ui/RecipeDetailActivity.kt:164-166 | A date whose month or day `toInt` rejects is shown unchanged. |
| RecipeDetail.FormatAcceptedDate | app/src/main/java/com/example/examprep/ui/RecipeDetailActivity.kt:155-160 | Every date the recipe form accepts is formatted, leading zeros of month and day dropped and the year kept. |
| RecipeDetail.DayLeadingZeroDropped | app/src/main/java/com/example/examprep/ui/RecipeDetailActivity.kt:159 | The day "05" is printed as "5". |
| RecipeDetail.FormatDateExample | app/src/main/java/com/example/examprep/ui/RecipeDetailActivity.kt:153-160 | "2024-01-05" is shown as "Jan 5, 2024". |
| RecipeDetail.CategoryDisplayNameIsUppercase | app/src/main/java/com/example/examprep/ui/RecipeDetailActivity.kt:178-186 | The display name of every category is its upper-case form. |
| RecipeAdapter.MonthName | app/src/main/java/com/example/examprep/adapter/RecipeAdapter.kt:81-97 | The card's `getMonthName`; see `RecipeAdapter.MonthNameAgrees`. |
| RecipeAdapter.FormatDate | app/src/main/java/com/example/examprep/adapter/RecipeAdapter.kt:64-79 | The card's `formatDate`; see `RecipeAdapter.FormatDateAgrees`. |
| RecipeAdapter.CategoryShortName | app/src/main/java/com/example/examprep/adapter/RecipeAdapter.kt:99-107 | `getCategoryShortName`; see `RecipeAdapter.FormCategoryLabels` and `RecipeAdapter.UnknownCategoryUppercased`. |
| RecipeAdapter.MonthNameAgrees | app/src/main/java/com/example/examprep/adapter/RecipeAdapter.kt:81-97 | The card's month names are the detail screen's. |
| RecipeAdapter.FormatDateAgrees | app/src/main/java/com/example/examprep/adapter/RecipeAdapter.kt:64-79 | The card prints every date as the detail screen does. |
| RecipeAdapter.ShortNameIgnoresCase | app/src/main/java/com/example/examprep/adapter/RecipeAdapter.kt:99-106 | The label depends only on the lower-cased category. |
| RecipeAdapter.UnknownCategoryUppercased | app/src/main/java/com/example/examprep/adapter/RecipeAdapter.kt:105 | A category with none of the four keys is labelled by its upper-case form. |
| RecipeAdapter.FormCategoryLabels | app/src/main/java/com/example/examprep/adapter/RecipeAdapter.kt:100-104 | The form's categories "Main Course", "Dessert", "Appetizer" and "Beverage" are labelled "MAIN", "DESSERT", "APPETIZER" and "DRINK". |
| RecipeAdapter.Adapter.constructor | app/src/main/java/com/example/examprep/adapter/RecipeAdapter.kt:109 | The adapter starts with the given list. |
| RecipeAdapter.Adapter.GetItemCount | app/src/main/java/com/example/examprep/adapter/RecipeAdapter.kt:109 | The item count is the length of the list. |
| RecipeAdapter.Adapter.UpdateRecipes | app/src/main/java/com/example/examprep/adapter/RecipeAdapter.kt:111-114 | The list is replaced by the new one, so the count becomes its length. |
| Explore.MonthlyRatings | app/src/main/java/com/example/examprep/ui/ExploreActivity.kt:61-70 | `calculateMonthlyRatings`, failing on a date shorter than seven characters; see `Explore.MonthlyRatingsSpec`. |
| Explore.FullMonthName | app/src/main/java/com/example/examprep/ui/ExploreActivity.kt:108-113 | The `when` on the month digits; see `Explore.FullMonthNameOfNumber` and `Explore.FullMonthNameOther`. |
| Explore.FormatMonth | app/src/main/java/com/example/examprep/ui/ExploreActivity.kt:104-115 | `formatMonth`; see `Explore.FormatMonthOfPieces` and `Explore.FormatMonthWrongShape`. |
| Explore.CountLabel | app/src/main/java/com/example/examprep/ui/ExploreActivity.kt:92 | The count label; see `Explore.CountLabelSpec`. |
| Explore.HigherRatingIsStrictWeakOrder | app/src/main/java/com/example/examprep/ui/ExploreActivity.kt:69 | "Higher average first" is a strict weak order. |
| Explore.ShortDateFails | app/src/main/java/com/example/examprep/ui/ExploreActivity.kt:62-64 | A recipe whose date is shorter than seven characters makes the calculation fail. |
| Explore.SummariesSpec | app/src/main/java/com/example/examprep/ui/ExploreActivity.kt:62-68 | Before sorting there is one entry per month of the input and no other, each counting that month's recipes, the counts adding up to the number of recipes. |
| Explore.MonthlyRatingsSpec | app/src/main/java/com/example/examprep/ui/ExploreActivity.kt:61-70 | The entries are those of the grouping, reordered: one per month, each count right, counts adding up to the input's length, ordered by rating from best to worst. |
| Explore.MonthIsPrefix | app/src/main/java/com/example/examprep/ui/ExploreActivity.kt:63 | The month of a recipe is the first seven characters of its date. |
| Explore.FullMonthNameOfNumber | app/src/main/java/com/example/examprep/ui/ExploreActivity.kt:108-111 | "01" to "12" are named "January" to "December". |
| Explore.FullMonthNameOther | app/src/main/java/com/example/examprep/ui/ExploreActivity.kt:112 | Any other text is kept verbatim. |
| Explore.FormatMonthOfPieces | app/src/main/java/com/example/examprep/ui/ExploreActivity.kt:105-114 | "YYYY-MM" becomes the month's name, a space and the year. |
| Explore.FormatMonthWrongShape | app/src/main/java/com/example/examprep/ui/ExploreActivity.kt:106 | Without exactly two pieces the text is shown unchanged. |
| Explore.FormatAcceptedMonth | app/src/main/java/com/example/examprep/ui/ExploreActivity.kt:63 | The month of every date the recipe form accepts prints as the month's name and the year. |
| Explore.CountLabelSpec | app/src/main/java/com/example/examprep/ui/ExploreActivity.kt:92 | The label is "1 recipe" exactly for one; otherwise it ends in " recipes"; it starts with the count, which reads back. |
| Insights.TopCategories | app/src/main/java/com/example/examprep/ui/InsightsActivity.kt:60-68 | `calculateTopCategories`; see `Insights.TopCategoriesSpec`. |
| Insights.HigherTotalIsStrictWeakOrder | app/src/main/java/com/example/examprep/ui/InsightsActivity.kt:67 | "Higher total first" is a strict weak order. |
| Insights.SummariesSpec | app/src/main/java/com/example/examprep/ui/InsightsActivity.kt:61-66 | Before sorting there is one entry per category, case-sensitive; each counts its recipes and sums their ratings. |
| Insights.SummariesCover | app/src/main/java/com/example/examprep/ui/InsightsActivity.kt:61 | Every category of the input has an entry. |
| Insights.TopCategoriesSpec | app/src/main/java/com/example/examprep/ui/InsightsActivity.kt:61-67 | At most three entries, for distinct categories of the input, each with its count and total rating, ordered by total from highest down. |
| Insights.TopCategoriesCount | app/src/main/java/com/example/examprep/ui/InsightsActivity.kt:67 | Either three categories are shown or every category of the input is. |
| Insights.NoBetterCategoryOmitted | app/src/main/java/com/example/examprep/ui/InsightsActivity.kt:67 | No category left out has a greater total rating than a category kept. |
| Insights.TopCategoriesEmpty | app/src/main/java/com/example/examprep/ui/InsightsActivity.kt:61-67 | Nothing is shown exactly when there is no recipe. |
| Grouping.GroupBy | app/src/main/java/com/example/examprep/ui/InsightsActivity.kt:61 | `groupBy` as the `LinkedHashMap` fold it performs; see `Grouping.GroupByIsGrouping` and `Grouping.GroupByFirstOccurrence`. |
| Grouping.GroupByIsGrouping | app/src/main/java/com/example/examprep/ui/InsightsActivity.kt:61 | `groupBy` yields one group per key of the input with distinct keys, each the input's elements with that key in input order, none empty, the sizes adding up to the input's length. |
| Grouping.GroupByFirstOccurrence | app/src/main/java/com/example/examprep/ui/ExploreActivity.kt:62-64 | The groups come in the order in which their keys first occur in the input, as a `LinkedHashMap` keeps them. |
| Sorting.SortBy | app/src/main/java/com/example/examprep/ui/AnalyticsActivity.kt:96 | A stable sort, as `sortedWith` and `sortedByDescending` are; see `Sorting.SortSorted`, `SortPermutation` and `SortStable`. |
| Sorting.SortPermutation | app/src/main/java/com/example/examprep/ui/AnalyticsActivity.kt:96 | Sorting neither adds nor drops an element. |
| Sorting.SortSorted | app/src/main/java/com/example/examprep/ui/AnalyticsActivity.kt:96 | A sort under a strict weak order yields a sorted list. |
| Sorting.SortStable | app/src/main/java/com/example/examprep/ui/AnalyticsActivity.kt:96 | Elements that compare equal keep their input order. |
| Sorting.TakeSorted | app/src/main/java/com/example/examprep/ui/AnalyticsActivity.kt:98 | The first `n` of a sort are sorted, drawn from the input, and nothing left out comes strictly before them. |
| Seqs.FilterIsSubsequence | app/src/main/java/com/example/examprep/ui/StudentActivity.kt:86 | A filtered list is a subsequence of the input. |
| Seqs.FilterMultiplicity | app/src/main/java/com/example/examprep/ui/StudentActivity.kt:86 | Filtering keeps each accepted element exactly as often as in the input and drops every other. |
| Seqs.FilterIdempotent | app/src/main/java/com/example/examprep/ui/StudentActivity.kt:86 | Filtering twice is filtering once. |
| Seqs.SumOfPermutation | app/src/main/java/com/example/examprep/ui/InsightsActivity.kt:64 | A sum does not depend on the order of the summands. |
| Text.TrimIsSlice | app/src/main/java/com/example/examprep/ui/AddEditRecipeActivity.kt:108-112 | `trim` returns a slice of its input, cutting only whitespace, and the result starts and ends with a non-whitespace character. |
| Text.TrimEmptyIffBlank | app/src/main/java/com/example/examprep/ui/AddEditCourseActivity.kt:313-321 | A string trims to nothing exactly when it is blank. |
| Text.TrimIdempotent | app/src/main/java/com/example/examprep/ui/AddEditRecipeActivity.kt:108-112 | Trimming twice is trimming once. |
| Text.UppercaseRespectsCaseFolding | app/src/main/java/com/example/examprep/adapter/RecipeAdapter.kt:105 | Strings that agree ignoring case have the same upper-case form. |
| Text.JoinSplit | app/src/main/java/com/example/examprep/ui/RecipeDetailActivity.kt:155 | The pieces of `split`, joined with the delimiter, give back the input. |
| Text.SplitJoin | app/src/main/java/com/example/examprep/ui/RecipeDetailActivity.kt:155 | Splitting delimiter-free pieces joined with the delimiter gives back the pieces. |
| Numbers.ParseIntToString | app/src/main/java/com/example/examprep/ui/RecipeDetailActivity.kt:174 | `toIntOrNull` reads back what `toString` prints, for every 32-bit integer. |
| Numbers.ParseIntShape | app/src/main/java/com/example/examprep/ui/AddEditCourseActivity.kt:323 | A parsed value is a 32-bit integer and the text has at least one digit. |
| Numbers.ParseDigits | app/src/main/java/com/example/examprep/ui/RecipeDetailActivity.kt:158-159 | A run of digits with a value in range parses to that value, leading zeros dropped. |
| Order.StrLessTotal | app/src/main/java/com/example/examprep/ui/AnalyticsActivity.kt:96 | String order is total on different strings. |
| Order.StrLessTransitive | app/src/main/java/com/example/examprep/ui/AnalyticsActivity.kt:96 | String order is transitive. |

## Left out

- I/O and foreign libraries. OkHttp, Gson, Retrofit and Room are not modelled; their results
  are parameters.
  - A socket is a numbered handle.
  - JSON parsing is a partial function.
  - A repository call's outcome is a `Call` (response or exception) or a `Load` (network rows,
    cached rows, or a database exception).
- The repositories, DAOs and API interfaces themselves are not modelled. Only their effect on
  the table is: `REPLACE` inserts, `deleteById`, and listings in `ORDER BY` order. A listing is
  an input with a precondition that it lists the table.
- Concurrency. Each callback, call, coroutine and timer runs as one atomic step, in an order
  given by the caller. OkHttp's threads, the main looper and `viewModelScope` are not modelled.
  Wall-clock time appears only as delay values.
- The Android UI: the Compose and View layouts, Toasts, dialogs, colours, `RecyclerView`
  binding, `notifyDataSetChanged`, `MainActivity`, `CourseDetailActivity` and the network
  check.
- `loadRecipesFromCache`, `loadCoursesFromCache`, `getRecipeById` and `getCourseById` are not
  part of this model.
- Floating point.
  - Ratings are exact reals.
  - `average()` is an exact mean, and no average value is proved.
  - `String.format("%.1f", …)` is not modelled.
  - `toDouble` is a parameter returning a `Double` that may be NaN or an infinity.
- Unicode. Case mapping, whitespace and digits are ASCII only. `Order.StrLess` compares
  characters as code points, while Kotlin's `String.compareTo` compares UTF-16 code units; the
  two differ only for characters outside the Basic Multilingual Plane compared with U+E000 to
  U+FFFF.
- The LiveData `isLoading` and `operationSuccess` start as null in the source and as `false` in
  the model. No observer reacts to the initial null, so no observable behaviour changes.
- `NetworkConfig` and the hard-coded server address carry no logic. The address appears only
  inside message texts.
- `Recipes.RecipeViewModel.GetAllRecipesForAnalysis`: the failure of `getAllRecipesComplete`
  falls back to the table inside the repository. That fallback is part of the `complete`
  parameter and is not modelled separately.
- `Explore.MonthlyRatingsSpec`: the order of the entries is stated on their exact average
  ratings, not on IEEE doubles.
- `Insights.TopCategoriesSpec`: the totals are exact sums of reals, not sums of doubles.
- `RecipeForm.SaveRecipe`: uses the intended range check, so it rejects a rating that parses to
  NaN, which the source's `rating < 0 || rating > 5` lets through to `createRecipe`. The chain as
  written is `RecipeForm.SaveRecipeAsWritten`; `RecipeForm.NaNRatingSavedAsWritten` shows the
  difference.
- `RecipeForm.SavedRecipe`: its "rating within 0..5" holds for the intended chain only. As
  written, a NaN rating is saved; the model's `Recipe` holds its rating as an exact real and
  cannot hold NaN, so no NaN recipe reaches the view models in the model.

## Findings

| source | as written | input that shows it | evidently intended | confidence | as-written member | corrected member |
|---|---|---|---|---|---|---|
| app/src/main/java/com/example/examprep/ui/AddEditRecipeActivity.kt:136 | `if (rating < 0 \|\| rating > 5)` rejects a rating outside 0..5; both comparisons are false for NaN | the rating "NaN", which `toDouble()` reads as `Double.NaN`: the check passes and a recipe with a NaN rating is created | only a number from 0 to 5 is a rating | not executed; medium (the reading of "NaN" by `toDouble` follows `java.lang.Double.parseDouble`) | RecipeForm.NaNRatingSavedAsWritten | RecipeForm.RatingRange |
