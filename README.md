# Novademy admin dashboard — a Dafny model

This project models the client-side core of the Novademy admin dashboard, a
React single-page application in which administrators sign in and manage
courses and lessons through a REST backend. The model covers:

- **The services** (`lessonService`, `courseService`, `authService`).
  They turn every call into one request and every failure into one fixed
  message. The lesson and course services build their multipart payloads
  entry by entry.
- **The axios interceptors**, which add the bearer token and end the
  session on a 401 or 403.
- **The auth context**, with its user, loading and error state cells and
  its role flags.
- **The screens**: the login page, the course and lesson lists, the course
  and lesson editors, and the dashboard summary.
- **The three closed enumerations**: subjects, lesson statuses and user
  roles.

The backend is not modelled. Every call takes the backend's reply as a
parameter: `Ok(value)`, or `Fail(status)` where the status is absent when no
response arrived. `localStorage` is a map held by a `Browser` object. React
state cells are the fields of one class per component. Each handler is a
method whose postcondition gives the new state; each screen records its
service calls in a `requests` sequence and its navigations in a
`navigations` sequence.

The files:

| file | module | models |
|---|---|---|
| `http.dfy` | `Http` | requests, replies, multipart fields, the `try/catch` wrapper the services share |
| `http.dfy` | `Paths` | paths built from segments; the split a router performs |
| `enums.dfy` | `Enums` | `src/types/enums.ts` |
| `messages.dfy` | `Messages` | the fixed user-facing texts and navigation targets |
| `form_data.dfy` | `FormData` | building a `FormData` by conditional `append` calls |
| `lesson_service.dfy` | `LessonService` | `src/api/lessonService.ts` |
| `course_service.dfy` | `CourseService` | `src/api/courseService.ts` |
| `user_codec.dfy` | `SessionCodec` | `JSON.stringify` / `JSON.parse` of the stored user |
| `web.dfy` | `Web` | `localStorage`, location, axios default headers |
| `api_client.dfy` | `ApiClient` | `src/api/apiClient.ts` |
| `auth_service.dfy` | `AuthService` | `src/api/authService.ts` |
| `auth_context.dfy` | `AuthContext` | `src/contexts/AuthContext.tsx` |
| `login_page.dfy` | `LoginPage` | `src/components/auth/Login.tsx` |
| `rows.dfy` | `Rows` | the `filter` both lists run after a delete |
| `course_list.dfy` | `CourseList` | `src/components/courses/CourseList.tsx` |
| `lesson_list.dfy` | `LessonList` | `src/components/lessons/LessonList.tsx` |
| `course_form.dfy` | `CourseForm` | `src/components/courses/CourseForm.tsx` |
| `lesson_form.dfy` | `LessonForm` | `src/components/lessons/LessonForm.tsx` |
| `dashboard.dfy` | `Dashboard` | `src/components/dashboard/Dashboard.tsx` |

A service builds its payload with the generic `FormData.AppendAll` method.
Its loop visits a fixed list of candidate entries ("slots") and appends the
ones whose inclusion rule admitted a value. Its postcondition ties the
result to the function `Present(slots)`. The payload properties are lemmas
about `Present`:
- it keeps slot order;
- it never repeats a name;
- reading a name back gives that slot's value, or nothing when the slot was
  skipped;
- the leading always-present entries come first.

## Model

| member | source | states |
|---|---|---|
| Http.Settle | src/api/lessonService.ts:53-63 | the call succeeds exactly when the backend replied `Ok`, passing the value through; any failure becomes the one given message |
| Http.SettleForgetsStatus | src/api/courseService.ts:33-36 | the message of a failed call does not depend on the status, or on whether a response arrived at all |
| Http.MessageOr | src/components/dashboard/Dashboard.tsx:38 | `err.message \|\| fallback`: the error's message when it is non-empty, the fallback exactly when it is empty, so never empty when the fallback is not |
| Http.NumberText | src/api/lessonService.ts:93 | `toString()` of an integer is a non-empty text that starts with '-' exactly for negatives and is otherwise all decimal digits |
| Http.NumberTextValue | src/api/lessonService.ts:93 | the text of an integer reads back, as an optional '-' and decimal digits, as exactly that integer |
| Http.NumberTextInjective | src/api/lessonService.ts:146 | two different orders are never sent as the same text |
| Http.Lookup | src/api/lessonService.ts:86-114 | reading a payload entry by name finds nothing exactly when no entry has that name |
| Http.NamesAppend | src/api/lessonService.ts:86-114 | the names of two concatenated payloads are the names of each, concatenated |
| Paths.SplitJoin | src/api/lessonService.ts:200-202 | a path built from '/'-free segments splits back into exactly those segments |
| Paths.JoinInjective | src/api/lessonService.ts:55-202 | two paths built from '/'-free segments are equal only when the segment lists are equal |
| Enums.SubjectsAreTwelve | src/types/enums.ts:1-14 | `SubjectType` has exactly twelve members, each listed once |
| Enums.StatusesAreThree | src/types/enums.ts:16-20 | `LessonStatus` has exactly Draft, Published and Archived |
| Enums.RolesAreThree | src/types/enums.ts:22-26 | `UserRole` has exactly Admin, Teacher and Student |
| Enums.SubjectName | src/types/enums.ts:1-14 | every subject's string value is non-empty |
| Enums.StatusName | src/types/enums.ts:16-20 | every status's string value is non-empty; `StatusRoundTrip` and `ParseStatus` pin it to the member's own name |
| Enums.RoleName | src/types/enums.ts:22-26 | every role's string value is non-empty; `RoleRoundTrip` and `ParseRole` pin it to the member's own name |
| Enums.ParseSubject | src/types/enums.ts:1-14 | a parsed subject has exactly the text parsed as its value |
| Enums.ParseStatus | src/types/enums.ts:16-20 | a parsed status has exactly the text parsed as its value |
| Enums.ParseRole | src/types/enums.ts:22-26 | a parsed role has exactly the text parsed as its value |
| Enums.SubjectRoundTrip | src/types/enums.ts:1-14 | the string value of a subject parses back to that subject |
| Enums.StatusRoundTrip | src/types/enums.ts:16-20 | the string value of a status parses back to that status |
| Enums.RoleRoundTrip | src/types/enums.ts:22-26 | the string value of a role parses back to that role |
| Enums.SubjectNameInjective | src/types/enums.ts:1-14 | no two subjects share a string value |
| FormData.Append | src/api/lessonService.ts:92-94 | one guarded `append` adds the slot's entry at the end when its rule admitted a value, and nothing otherwise |
| FormData.AppendAll | src/api/lessonService.ts:87-114 | the `append` sequence yields the input followed by exactly the admitted entries, in slot order |
| FormData.PresentSnoc | src/api/lessonService.ts:87-114 | one more slot adds at most its own entry, at the end |
| FormData.PresentAppend | src/api/lessonService.ts:87-114 | the entries of two runs of slots are the entries of each, concatenated |
| FormData.PresentInSlotOrder | src/api/lessonService.ts:87-114 | the payload's names are the slot names with the skipped ones deleted, so entries always follow slot order |
| FormData.PresentNamesAmongSlots | src/api/lessonService.ts:87-114 | every payload entry carries one of the slot names |
| FormData.PresentLookup | src/api/lessonService.ts:87-114 | when the slot names are distinct, reading a slot's name back gives that slot's value, or nothing when it was skipped |
| FormData.PresentDistinct | src/api/lessonService.ts:87-114 | when the slot names are distinct, the payload never carries a name twice |
| FormData.PresentPrefix | src/api/lessonService.ts:88-90 | when the first k slots are always appended, the payload starts with exactly those k entries, in order |
| LessonService.Outcome | src/api/lessonService.ts:53-208 | each call resolves with the backend's value, or rejects with that call's own fixed message |
| LessonService.FailureMessage | src/api/lessonService.ts:53-208 | the message each call's `catch` throws is never empty; `MessagesDiffer` and `FailureMessageIdentifiesCall` state that each call has its own |
| LessonService.Segments | src/api/lessonService.ts:53-208 | the definition of each call's path, as the segments of its template literal; `CourseListingPath`, `WatchPath`, `ProgressPathOrder` and `RequestLineIdentifies` pin it |
| LessonService.RequestFor | src/api/lessonService.ts:53-208 | the definition of the verb, path and body of each call; `CreateLesson`, `UpdateLesson`, the path lemmas and `RequestLineIdentifies` pin it |
| LessonService.CreateSlots | src/api/lessonService.ts:87-114 | the definition of the nine `append` rules of `createLesson`; `CreateLessonLookups`, `CreateLeadsWithRequired` and `PayloadOrder` pin them |
| LessonService.UpdateSlots | src/api/lessonService.ts:131-167 | the definition of the nine `append` rules of `updateLesson`; `UpdateLessonLookups`, `EmptyUpdateSendsNothing` and `PayloadOrder` pin them |
| LessonService.CreateLesson | src/api/lessonService.ts:85-127 | `createLesson` posts to `/lesson` the payload its slots define, and settles as `Outcome` says |
| LessonService.UpdateLesson | src/api/lessonService.ts:129-180 | `updateLesson` puts to `/lesson/{id}` the payload its slots define, and settles as `Outcome` says |
| LessonService.SlotNamesAreFieldOrder | src/api/lessonService.ts:88-166 | both builders visit title, description, courseId, order, isFree, status, transcript, video, image, in that order |
| LessonService.FieldOrderDistinct | src/api/lessonService.ts:88-166 | the nine entry names are distinct |
| LessonService.CreateLeadsWithRequired | src/api/lessonService.ts:88-90 | a create payload always begins with title, description and courseId, in that order |
| LessonService.PayloadOrder | src/api/lessonService.ts:87-167 | create and update entries always appear in the fixed field order, and no name is sent twice |
| LessonService.OrderAndFlagLookups | src/api/lessonService.ts:92-98 | `order` and `isFree` are sent whenever defined, so 0 and false are sent too |
| LessonService.StatusAndTranscriptLookups | src/api/lessonService.ts:100-106 | `status` is sent whenever given; `transcript` only when non-empty |
| LessonService.FileLookups | src/api/lessonService.ts:108-114 | `video` and `image` are sent exactly when a file was given |
| LessonService.CreateLessonLookups | src/api/lessonService.ts:88-114 | a create payload carries title, description and courseId always, and each optional entry by its rule |
| LessonService.UpdateLessonLookups | src/api/lessonService.ts:133-167 | an update payload carries title, description and courseId only when given and non-empty, and the optional entries as a create does |
| LessonService.EmptyUpdateSendsNothing | src/api/lessonService.ts:129-167 | an update that sets nothing sends an empty payload |
| LessonService.NothingPresent | src/api/lessonService.ts:131-167 | when every rule declines, nothing is appended |
| LessonService.RequestLineIdentifies | src/api/lessonService.ts:53-208 | with '/'-free ids, method and path determine which call was made and every id in its path |
| LessonService.ProgressPathOrder | src/api/lessonService.ts:200-202 | `getLessonProgress(userId, lessonId)` gets `/lesson/{lessonId}/progress/{userId}`: the lesson first, the reverse of the argument order |
| LessonService.CourseListingPath | src/api/lessonService.ts:65-67 | `getLessonsByCourse(c)` gets `/lesson/course/{c}` |
| LessonService.WatchPath | src/api/lessonService.ts:191-193 | `markLessonAsWatched` posts `{watchedSeconds}` to `/lesson/{id}/watch` |
| LessonService.FailureMessageIdentifiesCall | src/api/lessonService.ts:53-208 | two failed calls reject alike exactly when they are the same operation, whatever the underlying errors |
| LessonService.MessagesDiffer | src/api/lessonService.ts:53-208 | the eight failure messages are pairwise different |
| CourseService.Outcome | src/api/courseService.ts:29-113 | each call resolves with the backend's value, or rejects with that call's own fixed message |
| CourseService.FailureMessage | src/api/courseService.ts:29-113 | the message each call's `catch` throws is never empty; `FailureMessageIdentifiesCall` states that each call has its own |
| CourseService.Segments | src/api/courseService.ts:29-113 | every path is `course` followed by at most one segment; `CoursePaths` gives each call's path |
| CourseService.RequestFor | src/api/courseService.ts:29-113 | the definition of the verb, path and body of each call; `CreateCourse`, `UpdateCourse` and `CoursePaths` pin it |
| CourseService.CreateSlots | src/api/courseService.ts:51-58 | the definition of the four `append` rules of `createCourse`; `CreateCourseLayout` pins them |
| CourseService.UpdateSlots | src/api/courseService.ts:75-91 | the definition of the four `append` rules of `updateCourse`; `UpdateCourseLookups`, `UpdatePayloadOrder` and `EmptyUpdateSendsNothing` pin them |
| CourseService.CreateCourse | src/api/courseService.ts:49-71 | `createCourse` posts to `/course` the payload its slots define, and settles as `Outcome` says |
| CourseService.UpdateCourse | src/api/courseService.ts:73-104 | `updateCourse` puts to `/course/{id}` the payload its slots define, and settles as `Outcome` says |
| CourseService.CreateCourseLayout | src/api/courseService.ts:51-58 | a create payload is exactly title, description and the subject's string value, in that order, then the image as the last entry exactly when one was given |
| CourseService.UpdateCourseLookups | src/api/courseService.ts:75-91 | each update entry is sent only when present and truthy, with the subject as its string value |
| CourseService.UpdatePayloadOrder | src/api/courseService.ts:75-91 | update entries follow the order title, description, subject, image, and no name is sent twice |
| CourseService.EmptyUpdateSendsNothing | src/api/courseService.ts:75-91 | an update with nothing (or only empty strings) set sends no entries |
| CourseService.CoursePaths | src/api/courseService.ts:29-113 | list and create target `/course`; get, update and delete target `/course/{id}` |
| CourseService.FailureMessageIdentifiesCall | src/api/courseService.ts:29-113 | two failed calls reject alike exactly when they are the same operation |
| SessionCodec.Escape | src/api/authService.ts:32 | escaping a string never shortens it |
| SessionCodec.Encode | src/api/authService.ts:32 | the definition of `JSON.stringify(user)`: the object text with the five members in the response's order; `DecodeEncode`, `EncodeDecode` and `EncodeNonEmpty` pin it |
| SessionCodec.Decode | src/api/authService.ts:68 | the definition of `JSON.parse` of the stored text, failing on any other shape; `DecodeEncode` and `EncodeDecode` make it the exact inverse of `Encode` |
| SessionCodec.ReadEscaped | src/api/authService.ts:32 | reading back an escaped string body yields the original text and what follows it |
| SessionCodec.ReadMemberOf | src/api/authService.ts:32 | reading back an encoded member yields its value and the rest of the object |
| SessionCodec.DecodeEncode | src/api/authService.ts:32 | the stored text of a user parses back to that user |
| SessionCodec.EncodeNonEmpty | src/api/authService.ts:32 | the stored text is never empty |
| SessionCodec.ReadStringCanonical | src/api/authService.ts:68 | a string body is read only from its own escaped form |
| SessionCodec.ReadMemberCanonical | src/api/authService.ts:68 | a member is read only from its own encoded form |
| SessionCodec.EncodeDecode | src/api/authService.ts:68 | only the stored text of a user parses as that user: decode is the exact inverse of encode |
| Web.WithoutSession | src/api/apiClient.ts:32-33 | sign-out storage lacks both session keys and keeps every other key and value |
| Web.Bearer | src/api/apiClient.ts:17 | the header value starts with "Bearer " and the token is the rest of it |
| ApiClient.BearerFor | src/api/apiClient.ts:15-17 | a bearer value is added exactly when a non-empty token is stored, and it is "Bearer " plus that token |
| ApiClient.OnRequest | src/api/apiClient.ts:13-24 | the request interceptor decorates the headers when the config has them, and leaves missing headers missing |
| ApiClient.DecoratedKeepsOtherHeaders | src/api/apiClient.ts:15-18 | the interceptor keeps every other header; it sets `Authorization` to "Bearer " plus the token exactly when a non-empty token is stored, and otherwise changes nothing |
| ApiClient.OnResponse | src/api/apiClient.ts:27-38 | the reply reaches the caller unchanged; a 401 or 403 clears both session keys and goes to `/login`; any other reply touches nothing |
| ApiClient.EndsSession | src/api/apiClient.ts:31 | the definition of the interceptor's test: a failure whose response status is 401 or 403; `OnResponse` and `AuthService.Logout` state its effects |
| AuthService.LoginFailureMessage | src/api/authService.ts:36-46 | 400 gives the invalid-credentials message and 403 the admin-only one; anything else, or no response, gives the generic text, each in both directions |
| AuthService.Login | src/api/authService.ts:22-47 | `login` posts the credentials, stores token and user only when a non-empty token came back, and returns the user or rejects with the classified message |
| AuthService.CurrentUser | src/api/authService.ts:65-71 | no user exactly when the stored text is missing or empty; a returned user is the one whose encoding is stored; the parse fails only on text that is not a stored user |
| AuthService.IsAuthenticated | src/api/authService.ts:74-76 | a session counts as authenticated exactly when the request interceptor would add a bearer header |
| AuthService.LogoutRequest | src/api/authService.ts:52-55 | a logout request is sent exactly when a stored user parses and has a non-empty id, and it is a POST to `/auth/logout/{id}` with no body |
| AuthService.Logout | src/api/authService.ts:50-62 | `logout` sends that request, runs the response interceptor on its reply, and then removes both keys whatever the reply |
| AuthService.SetAuthToken | src/api/authService.ts:79-85 | a truthy token becomes the default `Authorization` header; anything else deletes it |
| AuthService.LoginThenCurrentUser | src/api/authService.ts:30-33 | after a login that returned a token, the stored user reads back as the returned user, and the session counts as authenticated |
| AuthService.LoginWithoutTokenStoresNothing | src/api/authService.ts:30-33 | a failed login, or one without a token, leaves storage untouched |
| AuthService.ClearedSessionIsSignedOut | src/api/authService.ts:59-76 | once both keys are gone there is no authentication, no current user and no logout request |
| AuthService.LoginMessageNonEmpty | src/api/authService.ts:38-45 | login messages are never empty, so the callers' fallbacks never replace them |
| AuthContext.FlagsOf | src/contexts/AuthContext.tsx:70-72 | authenticated iff there is a user; admin iff role is "Admin"; teacher iff role is "Teacher"; never both; these are the flags the provider's value exposes (`AuthProvider.Value`) |
| AuthContext.AuthProvider.constructor | src/contexts/AuthContext.tsx:18-20 | no user, loading, no error |
| AuthContext.AuthProvider.Hydrate | src/contexts/AuthContext.tsx:22-36 | hydration adopts the stored user, keeps the current one when the parse throws, and stops loading either way |
| AuthContext.AuthProvider.Login | src/contexts/AuthContext.tsx:38-52 | success sets the user with no error; failure keeps the user, records the message (or the fallback) and rethrows; loading stops on both paths; storage changes as the service's login leaves it, and the location and default headers stay |
| AuthContext.AuthProvider.Logout | src/contexts/AuthContext.tsx:54-62 | the user is cleared and the session keys removed, whatever the server said; the browser goes to `/login` exactly when a request was sent and answered 401 or 403; the default headers stay |
| AuthContext.UseAuth | src/contexts/AuthContext.tsx:78-84 | outside a provider `useAuth` throws its error; inside one it returns the provider |
| AuthContext.RoleFlagsFollowEnum | src/contexts/AuthContext.tsx:71-72 | the role flags compare against the `UserRole` string values and are never both set |
| AuthContext.HydrateAfterLogin | src/contexts/AuthContext.tsx:22-52 | a provider's login that stored a token, followed by a fresh provider's hydration from the same browser, restores that user, not loading, authenticated, admin exactly for the Admin role |
| LoginPage.Login.constructor | src/components/auth/Login.tsx:12-14 | empty fields, not loading, no error |
| LoginPage.Login.Mount | src/components/auth/Login.tsx:17-21 | an authenticated visitor is sent to `/dashboard`, and nobody else is |
| LoginPage.Login.HandleChange | src/components/auth/Login.tsx:23-26 | only the named field takes the typed value |
| LoginPage.Login.HandleSubmit | src/components/auth/Login.tsx:28-48 | an admin goes to `/dashboard`; a non-admin gets the admin-only error and stays; a failure shows its message; loading is off on every path; the browser's location and default headers stay |
| LoginPage.RejectedUserStaysAuthenticated | src/components/auth/Login.tsx:17-40 | a submit answered with a non-admin user carrying a token shows the admin-only error but leaves that session stored and authenticated, so the page's mount check, run again, sends the user to `/dashboard` |
| Rows.WithoutId | src/components/courses/CourseList.tsx:41 | the filtered rows are no more than before, and none carries the deleted id |
| Rows.WithoutIdKeepsOrder | src/components/courses/CourseList.tsx:41 | the surviving rows keep their relative order |
| Rows.WithoutIdCounts | src/components/lessons/LessonList.tsx:85 | a row without the id keeps its number of occurrences; a row with it is gone |
| Rows.WithoutAbsentId | src/components/courses/CourseList.tsx:41 | deleting an id no row carries changes nothing |
| CourseList.CourseListScreen.constructor | src/components/courses/CourseList.tsx:7-11 | no rows, loading, no error, no banner, nothing pending |
| CourseList.CourseListScreen.LoadCourses | src/components/courses/CourseList.tsx:13-25 | success replaces the rows and clears the error; failure keeps the rows and sets the error; loading ends |
| CourseList.CourseListScreen.DeleteClick | src/components/courses/CourseList.tsx:31-33 | the clicked id replaces any pending one; nothing else changes |
| CourseList.CourseListScreen.DeleteConfirm | src/components/courses/CourseList.tsx:35-53 | success drops exactly the rows with that id, clears the pending id and shows the banner; failure keeps rows and pending id and sets the error; loading ends on both |
| CourseList.CourseListScreen.DeleteCancel | src/components/courses/CourseList.tsx:55-57 | only the pending id is cleared |
| CourseList.CourseListScreen.SuccessTimerFired | src/components/courses/CourseList.tsx:45 | the banner goes away and nothing else changes |
| CourseList.DeleteRemovesExactlyThatId | src/components/courses/CourseList.tsx:41-42 | after a confirmed delete no row carries the id; every other row keeps its count and order; an absent id changes nothing |
| LessonList.ListingFor | src/components/lessons/LessonList.tsx:44-48 | the by-course listing is fetched exactly when the filter is non-empty |
| LessonList.FilterTarget | src/components/lessons/LessonList.tsx:68-72 | the empty choice goes to `/admin/lessons`; any other value `v` to `/admin/lessons?courseId=v` |
| LessonList.LessonListScreen.constructor | src/components/lessons/LessonList.tsx:11-20 | the filter starts as the `courseId` query parameter (or none); no rows, loading |
| LessonList.LessonListScreen.LoadCourses | src/components/lessons/LessonList.tsx:23-35 | success fills the selector; failure sets the course load error; lessons and filter stay |
| LessonList.LessonListScreen.LoadLessons | src/components/lessons/LessonList.tsx:38-61 | the request follows the filter; success replaces the rows and clears the error; failure keeps them and sets the error; loading ends |
| LessonList.LessonListScreen.CourseChange | src/components/lessons/LessonList.tsx:63-73 | the empty option clears the filter; the URL follows the choice |
| LessonList.LessonListScreen.DeleteClick | src/components/lessons/LessonList.tsx:75-77 | the clicked id replaces any pending one |
| LessonList.LessonListScreen.DeleteConfirm | src/components/lessons/LessonList.tsx:79-97 | success drops exactly the rows with that id, clears the pending id and shows the banner; failure keeps the rows and sets the error; loading ends |
| LessonList.LessonListScreen.DeleteCancel | src/components/lessons/LessonList.tsx:99-101 | only the pending id is cleared |
| LessonList.LessonListScreen.SuccessTimerFired | src/components/lessons/LessonList.tsx:89 | the banner goes away |
| CourseForm.SubmitOperation | src/components/courses/CourseForm.tsx:97-101 | edit mode updates the routed course; otherwise a course is created |
| CourseForm.CourseEditor.constructor | src/components/courses/CourseForm.tsx:12-22 | empty title and description, subject Math, no image, not loading or submitting |
| CourseForm.CourseEditor.LoadCourse | src/components/courses/CourseForm.tsx:25-53 | in edit mode, copies title, description and subject, and sets the preview only for a non-empty image URL; failure sets the load error; outside edit mode nothing happens |
| CourseForm.CourseEditor.HandleChange | src/components/courses/CourseForm.tsx:55-61 | only the named field changes |
| CourseForm.CourseEditor.ImageChange | src/components/courses/CourseForm.tsx:63-75 | a chosen file becomes the image and its data URL the preview; no file changes nothing |
| CourseForm.CourseEditor.HandleSubmit | src/components/courses/CourseForm.tsx:77-111 | a missing title or description gives the required-fields error and no request; otherwise the form plus image is sent as update or create by mode; success goes to `/admin/courses`; failure shows the mode's message; submitting ends |
| CourseForm.CourseEditor.Cancel | src/components/courses/CourseForm.tsx:185 | cancel returns to `/admin/courses` |
| CourseForm.SubmittedCoursePayload | src/components/courses/CourseForm.tsx:89-101 | a submit sends title, description and subject, then the image exactly when one was chosen; an edit sends the same entries as a create |
| LessonForm.DefaultCourse | src/components/lessons/LessonForm.tsx:36-41 | an empty course choice becomes the first listed course when there is one; otherwise it is kept |
| LessonForm.SubmitOperation | src/components/lessons/LessonForm.tsx:134-138 | edit mode updates the routed lesson; otherwise a lesson is created |
| LessonForm.LessonEditor.constructor | src/components/lessons/LessonForm.tsx:13-26 | empty title, description and course, not free, Draft, no video |
| LessonForm.LessonEditor.LoadCourses | src/components/lessons/LessonForm.tsx:29-49 | success fills the selector and picks the first course when none is chosen; failure sets the course load error |
| LessonForm.LessonEditor.LoadLesson | src/components/lessons/LessonForm.tsx:52-83 | in edit mode, copies title, description, course, free flag, status and order, and sets the preview only for a non-empty video URL; failure sets the load error |
| LessonForm.LessonEditor.HandleChange | src/components/lessons/LessonForm.tsx:85-101 | the checkbox sets the free flag to `checked`; every other input sets only its own field |
| LessonForm.LessonEditor.VideoChange | src/components/lessons/LessonForm.tsx:103-112 | a chosen file becomes the video and its object URL the preview |
| LessonForm.LessonEditor.HandleSubmit | src/components/lessons/LessonForm.tsx:114-148 | a missing title, description or course gives the required-fields error and no request; otherwise the form plus video is sent by mode; success goes to `/admin/lessons`; failure shows the mode's message; submitting ends |
| LessonForm.LessonEditor.Save | src/components/lessons/LessonForm.tsx:122-147 | the form plus the chosen video is sent as an update in edit mode and a create otherwise; success goes to `/admin/lessons`; failure shows the mode's message; submitting ends; the form, video, courses and loading flag stay |
| LessonForm.LessonEditor.Cancel | src/components/lessons/LessonForm.tsx:266 | cancel returns to `/admin/lessons` |
| LessonForm.SubmittedLessonPayload | src/components/lessons/LessonForm.tsx:126-137 | a create from the form sends the video exactly when one was chosen, always the free flag and status, and never a transcript or image |
| LessonForm.EditSendsCreatePayload | src/components/lessons/LessonForm.tsx:134-138 | an edit of a complete form sends the same entries a create would |
| Dashboard.Slice | src/components/dashboard/Dashboard.tsx:33-34 | `slice(0, n)` keeps the first `min(n, length)` elements, unchanged |
| Dashboard.StatsOf | src/components/dashboard/Dashboard.tsx:30-35 | the counts are the lengths fetched; each recent list is the first `min(5, n)` rows, a prefix of the fetched rows |
| Dashboard.DashboardScreen.constructor | src/components/dashboard/Dashboard.tsx:8-16 | zero counts, empty recent lists, loading, no error |
| Dashboard.DashboardScreen.FetchData | src/components/dashboard/Dashboard.tsx:18-45 | courses are fetched before lessons, and lessons only when courses succeed; the stats change only when both succeed; a failure shows the failing call's message; loading ends |
| Dashboard.FailureShowsServiceMessage | src/components/dashboard/Dashboard.tsx:36-38 | a failed fetch shows the service's own message, never the fallback |
| Dashboard.RecentAreLeadingRows | src/components/dashboard/Dashboard.tsx:33-34 | the recent lists are the leading rows and hold every row when there are at most five |

## Left out

- HTTP transport is not modelled: the axios instances, the base URL, `withCredentials` and the `Content-Type` headers. Each call takes the backend's reply as a parameter.
- Async interleaving is not modelled. Neither are effects re-running after a dependency changes, such as the lesson editor's course effect re-running when `courseId` changes, or updates that land after unmount. Each handler runs to completion as one step.
- The 3-second `setTimeout` that clears the success banner is only an explicit `SuccessTimerFired` event, with no timing.
- `FileReader.readAsDataURL` and `URL.createObjectURL` are not modelled. The preview string they produce is a parameter of `ImageChange` and `VideoChange`.
- `console.error` logging, JSX rendering and CSS are not modelled. The full-screen loading test of both lists is a plain predicate (`ShowsLoadingScreen`).
- `src/components/layout/AdminLayout.tsx`, `src/components/auth/ProtectedRoute.tsx` and `restart.js` are not part of this model.
- The request interceptor is modelled once, in `ApiClient.OnRequest`. The components' service calls record the request they send but do not thread it through the interceptor. The response interceptor runs only on the logout call (`AuthService.Logout`); on every other call its session-clearing effect is not modelled.
- The login request goes through plain `axios`, not the shared instance, so neither interceptor applies to it (`AuthService.LoginRequest`).
- SessionCodec: `JSON.stringify` is a fixed encoding with the five members in the response's order, escaping only `"` and `\`. Text that is valid JSON but not in that exact form makes the model's parse fail, where `JSON.parse` might accept it.
- The message of a failing `JSON.parse` is one opaque constant (`SessionCodec.MalformedUser`); callers only log or discard it.
- Change events are typed inputs: `CourseInput`, `LessonInput` and `LoginField`. Computed-key updates with names outside the form's fields are not modelled.
- The course and lesson editors take the subject and status selectors' values as enumeration members. The `value as SubjectType` casts of arbitrary text are not modelled.
- The image and video URLs are tested for truthiness, as the code does. A non-null empty URL sets no preview.
- Http.NumberText models a JavaScript `number` as an integer, as do LessonService.OrderValue and LessonService.MarkWatched. Fractional values, such as a playback position of 12.5 seconds or an order of 1.5, are not modelled. Neither is exponent notation: `(1e21).toString()` is `"1e+21"`.
- `order` is held as its `toString()` text. A loaded number and a raw input of the number field are distinguished (`LessonService.OrderValue`), so an empty raw input is still sent, since `"" !== undefined`.
- Paths.SplitJoin and LessonService.RequestLineIdentifies assume ids without '/'. Ids that contain one are not covered.
- LessonService: only the calls and their payloads are modelled; the backend's handling of them is not.
- ApiClient.OnResponse: a success passes through, and so does every failure, unchanged. That the failure propagates as a rejected promise is modelled by returning the reply unchanged.
