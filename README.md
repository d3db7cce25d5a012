# MentorConnect client core in Dafny

This project models the client of MentorConnect, a mentoring platform where students subscribe to
mentors' courses, follow people, post threads and receive internship offers. The client is a
React/TypeScript single-page application. The model covers three parts:

- **The five zustand stores.** These are auth, courses, payments, profile and notifications. Each is a
  Dafny `class`. Its fields are the store state, and each action is a method that reassigns the fields it
  touches. The lists the actions compute are specification functions, and lemmas state what the actions
  promise or fail to promise. Examples: the unread counter after `addNotification`, the course-keyed
  `subscriptionStatus` record kept beside the subscription list, and duplicate follows.
- **The HTTP client wrapper.** This covers the request interceptor that attaches the bearer token, the
  response interceptor's decision table (toast, token removal, redirect), and the convenience methods
  that return `response.data`. Browser state is the class `Browser.Window`: `localStorage`, the page
  location and the toasts shown.
- **The screens with business logic.** These are thread creation, profile editing, profile completion,
  the course player, the leaderboard, the subscription page, the feed, the internship offers, the OAuth
  callback and the profile page. Each screen's `useState` state is a class. Pure derivations are
  functions: plans, ranks, embed URLs, validators and routes. Every server call is a parameter of the
  method that makes it: a function from the request to the answer, with `None`/`false` standing for a
  rejected request. The internship screen and the sign-in callback send through `Api.ApiClient.Request`
  instead, and there the answer is a `Result` that carries the HTTP error. A handler's contract
  therefore says what happens on every answer.

JavaScript semantics are written out where they matter:

- Truthiness: an empty string counts as missing (`Text.NonEmpty`).
- `String.prototype.trim`, with the ECMAScript white-space and line-terminator set.
- `split(sep)[0]`, `includes`, `startsWith` and `findIndex` (−1 when absent).
- `${x}` on `undefined`, which gives `"undefined"` (`Text.Interpolate`).
- `undefined === undefined`.

Shared list idioms (`map` with a conditional spread, `filter`, `findIndex`, `slice`, `filter` by index)
live in `Lists`. The string ones live in `Text`.

## Model

| member | source | states |
|---|---|---|
| Auth.AuthStore.constructor | src/lib/stores/authStore.ts:28-30 | starts signed out, with no pending role, and the flag agrees with the user |
| Auth.AuthStore.SetUser | src/lib/stores/authStore.ts:31 | stores the user and sets `isAuthenticated` exactly when a user is given, so the flag always agrees with the user |
| Auth.AuthStore.SetPendingRole | src/lib/stores/authStore.ts:32 | changes only the pending role and keeps the user/flag agreement as it was |
| Auth.AuthStore.Logout | src/lib/stores/authStore.ts:33 | clears user, flag and pending role together |
| Notifications.UnreadCount | src/lib/stores/notificationStore.ts:28 | the number of unread notifications: never more than the list length, and 0 exactly when every notification is read |
| Notifications.MarkRead | src/lib/stores/notificationStore.ts:37-39 | same length; every notification with the id becomes read and nothing else changes |
| Notifications.MarkAllRead | src/lib/stores/notificationStore.ts:47 | same length; every notification becomes read and nothing else changes |
| Notifications.UnreadAfterPrepend | src/lib/stores/notificationStore.ts:30-34 | prepending a notification raises the true unread count by one only if it is unread |
| Notifications.MarkReadStep | src/lib/stores/notificationStore.ts:37-42 | how the unread count before and after marking splits over the first notification and the rest |
| Notifications.MarkReadNeverRaisesUnread | src/lib/stores/notificationStore.ts:35-43 | marking one id read never increases the unread count |
| Notifications.MarkReadKeepsCountIffNoMatch | src/lib/stores/notificationStore.ts:35-43 | the count stays the same if and only if every notification with that id was already read |
| Notifications.MarkReadIdempotent | src/lib/stores/notificationStore.ts:37-39 | marking the same id twice equals marking it once |
| Notifications.MarkReadUnknownId | src/lib/stores/notificationStore.ts:37-39 | an id not in the list leaves the list unchanged |
| Notifications.MarkAllLeavesNothingUnread | src/lib/stores/notificationStore.ts:45-48 | after marking all, the true unread count is 0, matching the stored counter |
| Notifications.NotificationStore.constructor | src/lib/stores/notificationStore.ts:23-24 | empty list, counter 0, counter exact |
| Notifications.NotificationStore.SetNotifications | src/lib/stores/notificationStore.ts:25-29 | replaces the list and recomputes the counter, which is then exact |
| Notifications.NotificationStore.AddNotification | src/lib/stores/notificationStore.ts:30-34 | prepends and adds one to the counter; an exact counter stays exact if and only if the added notification is unread |
| Notifications.NotificationStore.MarkAsRead | src/lib/stores/notificationStore.ts:35-44 | marks the id read and recounts, so the counter is exact again and no larger than the old true count |
| Notifications.NotificationStore.MarkAllAsRead | src/lib/stores/notificationStore.ts:45-49 | marks everything read with counter 0, which is exact |
| Courses.WithProgress | src/lib/stores/courseStore.ts:63-65 | same length; courses with the id get exactly the given progress, no other field or course changes |
| Courses.ProgressOfUnknownCourse | src/lib/stores/courseStore.ts:61-66 | an id not enrolled leaves the enrolled list unchanged |
| Courses.ProgressLastWriteWins | src/lib/stores/courseStore.ts:61-66 | two progress updates for one course equal the second alone |
| Courses.CourseStore.constructor | src/lib/stores/courseStore.ts:55-57 | empty lists, no current course |
| Courses.CourseStore.SetCourses | src/lib/stores/courseStore.ts:58 | replaces the catalogue only |
| Courses.CourseStore.SetEnrolledCourses | src/lib/stores/courseStore.ts:59 | replaces the enrolled list only |
| Courses.CourseStore.SetCurrentCourse | src/lib/stores/courseStore.ts:60 | replaces the current course only |
| Courses.CourseStore.UpdateCourseProgress | src/lib/stores/courseStore.ts:61-66 | the enrolled list becomes its progress update; the catalogue and the current course are untouched |
| Payments.LastFor | src/lib/stores/paymentStore.ts:38-41 | the subscription the course-keyed record holds for a course is one of that course's subscriptions, and one exists exactly when the course is listed |
| Payments.StatusMapMirrors | src/lib/stores/paymentStore.ts:35-42 | the `reduce` record maps each listed course to its last subscription and has no other keys |
| Payments.LastForAppend | src/lib/stores/paymentStore.ts:43-50 | appending a subscription makes it the last one for its course and changes no other course |
| Payments.AppendKeepsMirror | src/lib/stores/paymentStore.ts:43-50 | `addSubscription` keeps the record in step with the list |
| Payments.SetStatus | src/lib/stores/paymentStore.ts:57-59 | same length and course ids; subscriptions of the course take the status, others are unchanged |
| Payments.UpdatedMap | src/lib/stores/paymentStore.ts:60-63 | the course key now has the status; an existing entry keeps its other fields, a missing one becomes a bare status object; other keys unchanged |
| Payments.LastForSetStatus | src/lib/stores/paymentStore.ts:55-64 | after a status change, the last subscription of the course is the old last one with the new status; other courses unchanged |
| Payments.UpdateKeepsMirror | src/lib/stores/paymentStore.ts:55-64 | `updateSubscriptionStatus` keeps every record entry of a listed course equal to its last subscription |
| Payments.UpdateKeysMatchIffListed | src/lib/stores/paymentStore.ts:55-64 | the record keeps exactly the listed courses as keys if and only if the updated course was listed; otherwise a stray bare entry appears |
| Payments.UpdateAgreesOnStatus | src/lib/stores/paymentStore.ts:55-64 | for a listed course, the record entry after the update is the updated last subscription |
| Payments.PaymentStore.constructor | src/lib/stores/paymentStore.ts:32-34 | empty lists and empty record, which mirror each other |
| Payments.PaymentStore.SetSubscriptions | src/lib/stores/paymentStore.ts:35-42 | replaces the list and rebuilds the record, which then mirrors it with the same keys |
| Payments.PaymentStore.AddSubscription | src/lib/stores/paymentStore.ts:43-50 | appends and records the subscription under its course, preserving the mirror |
| Payments.PaymentStore.AddPayment | src/lib/stores/paymentStore.ts:51-54 | prepends to the payment history only |
| Payments.PaymentStore.UpdateSubscriptionStatus | src/lib/stores/paymentStore.ts:55-64 | updates list and record together; the mirror is preserved, and matching keys are preserved if and only if the course was listed |
| Profiles.UpdateThreads | src/lib/stores/profileStore.ts:57-62 | same length and order; threads with the id get the partial update spread over them, the others are unchanged |
| Profiles.ApplyNoChanges | src/lib/stores/profileStore.ts:60 | spreading an empty partial leaves a thread unchanged |
| Profiles.ApplyLikeChanges | src/lib/stores/profileStore.ts:60 | a partial with only `liked` and `likes` changes only those two fields |
| Profiles.UpdateUnknownThread | src/lib/stores/profileStore.ts:57-62 | an unknown thread id leaves the list unchanged |
| Profiles.FollowTwiceDuplicates | src/lib/stores/profileStore.ts:63-66 | following someone already followed lists them twice |
| Profiles.FollowNewKeepsNoDup | src/lib/stores/profileStore.ts:63-66 | following someone new keeps the list free of duplicates |
| Profiles.UnfollowUndoesFollow | src/lib/stores/profileStore.ts:63-70 | unfollowing undoes a follow of someone not followed before |
| Profiles.ProfileStore.constructor | src/lib/stores/profileStore.ts:50-53 | no profile, empty lists |
| Profiles.ProfileStore.SetCurrentProfile | src/lib/stores/profileStore.ts:54 | replaces the profile only |
| Profiles.ProfileStore.SetThreads | src/lib/stores/profileStore.ts:55 | replaces the threads only |
| Profiles.ProfileStore.AddThread | src/lib/stores/profileStore.ts:56 | puts the thread in front |
| Profiles.ProfileStore.UpdateThread | src/lib/stores/profileStore.ts:57-62 | threads become their partial update |
| Profiles.ProfileStore.FollowUser | src/lib/stores/profileStore.ts:63-66 | appends the id, keeping the list duplicate-free only if the id was new |
| Profiles.ProfileStore.UnfollowUser | src/lib/stores/profileStore.ts:67-70 | removes every copy of the id and keeps a duplicate-free list duplicate-free |
| Api.WithAuth | src/lib/api/client.ts:24-30 | with a non-empty token and a header object, sets `Authorization: Bearer <token>` and leaves every other header, the verb and the URL alone; otherwise returns the config unchanged |
| Api.DefaultMessage | src/lib/api/client.ts:59 | the server's message when it is non-empty, else the generic message; never empty |
| Api.ErrorReaction | src/lib/api/client.ts:39-65 | one message per case (401, 403, 404, 500, other status, no response, not sent); the token is cleared and the page sent to role selection exactly on 401 |
| Api.ServerMessageShownOnlyForOtherStatuses | src/lib/api/client.ts:43-60 | a server-supplied message is shown if and only if the status is not one of the four with a fixed message |
| Api.ApiClient.constructor | src/lib/api/client.ts:9-19 | the client works on the given browser window |
| Api.ApiClient.Intercept | src/lib/api/client.ts:23-30 | the config sent carries the token read from `localStorage` under `auth_token` |
| Api.ApiClient.OnError | src/lib/api/client.ts:37-68 | shows the reaction's toast, removes the token and moves to role selection on 401 only, and rejects with the same error |
| Api.ApiClient.Request | src/lib/api/client.ts:77-100 | success returns the response body and touches no browser state; failure returns the error after the interceptor's toast, with the token removed and the page on role selection after a 401 and storage and location untouched after any other failure |
| Browser.Window.GetItem | src/lib/api/client.ts:25 | `getItem` gives the stored value, or nothing when the key is absent |
| Browser.Window.SetItem | src/pages/auth/Callback.tsx:34 | stores the value under the key, all other keys unchanged |
| Browser.Window.RemoveItem | src/lib/api/client.ts:45 | removes the key only |
| Browser.Window.Assign | src/lib/api/client.ts:46 | sets the page location |
| Browser.Window.Toast | src/lib/api/client.ts:47 | appends one message to the toasts shown |
| Text.Trim | src/pages/threads/CreateThread.tsx:46 | `trim`: a piece of the input with only white space before and after it, itself neither starting nor ending with white space; empty exactly when the input is all white space |
| Text.TrimIdempotent | src/pages/profile/ProfileEdit.tsx:88 | trimming twice equals trimming once |
| Text.IndexOf | src/pages/courses/CoursePlayer.tsx:72-73 | the first position where the pattern occurs, or none when it never occurs |
| Text.TakeBefore | src/pages/courses/CoursePlayer.tsx:73 | `split(sep)[0]`: a prefix holding no separator, followed in the input by the separator unless it is the whole input |
| CreateThread.UploadAll | src/pages/threads/CreateThread.tsx:59-67 | all uploads succeed exactly when a URL list is produced; the list has one URL per image, in image order |
| CreateThread.UploadImages | src/pages/threads/CreateThread.tsx:59-67 | the upload loop returns exactly the URL list of `UploadAll`, stopping at the first failure |
| CreateThread.SubmitResult | src/pages/threads/CreateThread.tsx:45-83 | blank text with no images is refused, then a full store is refused; past both guards the thread the server returns is created exactly when every upload and the create call succeed, and the submit fails exactly when one of them is rejected |
| CreateThread.CreateGetsOneUrlPerImage | src/pages/threads/CreateThread.tsx:59-73 | a created thread was sent one uploaded URL per picked image, in order |
| CreateThread.TextOnlyPostIsCreated | src/pages/threads/CreateThread.tsx:45-77 | non-blank text, no images and room in the store give a created thread when the server accepts |
| CreateThread.ThreadComposer.constructor | src/pages/threads/CreateThread.tsx:18-21 | empty text, images and previews, which are aligned |
| CreateThread.ThreadComposer.EditContent | src/pages/threads/CreateThread.tsx:18 | sets the text |
| CreateThread.ThreadComposer.SelectImages | src/pages/threads/CreateThread.tsx:23-36 | a selection that would exceed 10 images is refused whole; otherwise files and their previews are appended, keeping images and previews paired |
| CreateThread.ThreadComposer.RemoveImage | src/pages/threads/CreateThread.tsx:38-43 | removes the same position from images and previews, so the remaining pairs stay matched; an index out of range removes nothing |
| CreateThread.ThreadComposer.Submit | src/pages/threads/CreateThread.tsx:45-83 | outcome as `SubmitResult`; the store gains the created thread in front and the screen moves to `/feed` exactly on success; the busy flag is cleared after any request |
| ProfileEdit.SkillToAdd | src/pages/profile/ProfileEdit.tsx:87-92 | a skill is added exactly when the trimmed input is non-blank and not yet listed, and it is the trimmed input |
| ProfileEdit.AddingSkillKeepsNoDup | src/pages/profile/ProfileEdit.tsx:87-92 | adding a skill keeps the list duplicate-free and never adds a blank skill |
| ProfileEdit.ListedSkillIsNotAddedAgain | src/pages/profile/ProfileEdit.tsx:88 | re-entering a listed skill with surrounding white space adds nothing |
| ProfileEdit.ProfileEditor.constructor | src/pages/profile/ProfileEdit.tsx:30-34 | avatar from the user unless empty, no cover, the user's skills or none |
| ProfileEdit.ProfileEditor.EditSkillInput | src/pages/profile/ProfileEdit.tsx:33 | sets the skill box |
| ProfileEdit.ProfileEditor.AddSkill | src/pages/profile/ProfileEdit.tsx:87-92 | appends the skill and clears the box, or changes nothing; the list stays duplicate-free |
| ProfileEdit.ProfileEditor.RemoveSkill | src/pages/profile/ProfileEdit.tsx:94-96 | the skill is no longer listed and the rest are kept |
| ProfileEdit.ProfileEditor.UploadAvatar | src/pages/profile/ProfileEdit.tsx:49-66 | no file means no request; the avatar changes only on a successful upload |
| ProfileEdit.ProfileEditor.UploadCover | src/pages/profile/ProfileEdit.tsx:68-85 | no file means no request; the cover changes only on a successful upload |
| ProfileEdit.ProfileEditor.Submit | src/pages/profile/ProfileEdit.tsx:98-112 | an invalid form sends nothing; the payload carries the local avatar, cover and skills; only an accepted save replaces the user and leads to `/profile/<username>` |
| CompleteProfile.AvailabilityAfter | src/pages/auth/CompleteProfile.tsx:50-72 | unknown exactly for usernames under 3 characters; available only when the lookup answered yes; a failed lookup counts as taken |
| CompleteProfile.ValidUsernamesAreLookedUp | src/pages/auth/CompleteProfile.tsx:51 | every username the schema accepts is looked up |
| CompleteProfile.SomeLookedUpUsernamesAreInvalid | src/pages/auth/CompleteProfile.tsx:51 | the lookup runs on usernames the schema rejects |
| CompleteProfile.FailedLookupBlocksSubmit | src/pages/auth/CompleteProfile.tsx:107-110 | a failed lookup blocks the submit |
| CompleteProfile.ShortUsernameDoesNotBlockSubmit | src/pages/auth/CompleteProfile.tsx:51-53 | a short username leaves availability unknown and does not block the submit |
| CompleteProfile.CheckAvatar | src/pages/auth/CompleteProfile.tsx:74-87 | uploads exactly an image of at most 5 MiB; the type test comes first, so a large non-image is reported as not an image |
| CompleteProfile.FiveMebibyteImageIsUploaded | src/pages/auth/CompleteProfile.tsx:83 | the size limit is inclusive |
| CompleteProfile.ProfileCompletion.constructor | src/pages/auth/CompleteProfile.tsx:28-31 | availability unknown, avatar from the user unless empty |
| CompleteProfile.ProfileCompletion.CheckUsername | src/pages/auth/CompleteProfile.tsx:50-68 | availability becomes `AvailabilityAfter` of the lookup, which is made only for usernames of 3 or more characters |
| CompleteProfile.AvatarMessage | src/pages/auth/CompleteProfile.tsx:74-87 | a toast exactly for a non-image or an oversized file, with the matching text; a missing file is ignored silently |
| CompleteProfile.PickedFileIsSentOrExplained | src/pages/auth/CompleteProfile.tsx:74-87 | every picked file is either uploaded or rejected with a toast |
| CompleteProfile.ProfileCompletion.UploadAvatar | src/pages/auth/CompleteProfile.tsx:74-104 | only a file passing both checks is sent; the avatar changes only on a successful upload; the screen's toast is the rejection message, or the upload's success or failure message |
| CompleteProfile.ProfileCompletion.Submit | src/pages/auth/CompleteProfile.tsx:106-124 | sends exactly when the schema holds and the username is not known to be taken; only an accepted request stores the user and leads to the dashboard of the returned role; no toast on a schema failure, the taken-username toast when blocked, then the success or failure toast |
| CoursePlayer.MarkerHasParam | src/pages/courses/CoursePlayer.tsx:72-73 | a URL with the watch marker always has a `v=` to split on |
| CoursePlayer.IdAtStart | src/pages/courses/CoursePlayer.tsx:73 | a prefix of the text after `v=` that holds neither `&` nor `v=` and ends at the end of that text, at an `&` or at a `v=` |
| CoursePlayer.VideoId | src/pages/courses/CoursePlayer.tsx:73 | the id starts right after the first `v=`, holds neither `&` nor `v=`, and runs up to the end of the address, the first `&` or the next `v=` |
| CoursePlayer.EmbedUrl | src/pages/courses/CoursePlayer.tsx:70-78 | watch URLs become the embed URL of their video id; every other URL is returned unchanged |
| CoursePlayer.WatchUrlEmbeds | src/pages/courses/CoursePlayer.tsx:70-75 | `<host>youtube.com/watch?v=<id>` embeds exactly `<id>` |
| CoursePlayer.FirstLesson | src/pages/courses/CoursePlayer.tsx:29-31 | the first lesson of the first module, if that module has one |
| CoursePlayer.EmptyFirstModuleSelectsNothing | src/pages/courses/CoursePlayer.tsx:29 | an empty first module selects nothing, even when later modules have lessons |
| CoursePlayer.ModuleNumber | src/pages/courses/CoursePlayer.tsx:161-163 | the module label is one more than the index of the first module holding the lesson, and 0 when none does |
| CoursePlayer.NotesUrl | src/pages/courses/CoursePlayer.tsx:210 | the notes address names the selected lesson, or `undefined` when none is selected |
| CoursePlayer.LessonPlayer.constructor | src/pages/courses/CoursePlayer.tsx:16-20 | no lesson, empty notes, not completed |
| CoursePlayer.LessonPlayer.LoadCourse | src/pages/courses/CoursePlayer.tsx:22-38 | with a route id and a successful fetch, the course goes to the store and its first lesson, if any, is selected; otherwise nothing changes |
| CoursePlayer.LessonPlayer.SelectLesson | src/pages/courses/CoursePlayer.tsx:40-46 | a locked lesson changes nothing; otherwise it is selected with its completion (missing counts as false) and its notes (missing counts as empty) |
| CoursePlayer.LessonPlayer.EditNotes | src/pages/courses/CoursePlayer.tsx:204 | sets the notes |
| CoursePlayer.LessonPlayer.Complete | src/pages/courses/CoursePlayer.tsx:48-57 | no request without a lesson; completion is set only when the server accepts |
| CoursePlayer.LessonPlayer.ToggleComplete | src/pages/courses/CoursePlayer.tsx:168-173 | the flag always ends equal to the box, even when the completion request fails |
| CoursePlayer.LessonPlayer.SaveNotes | src/pages/courses/CoursePlayer.tsx:208-211 | always posts the notes, to the notes address of the selected lesson or of `undefined` |
| Leaderboard.UserRank | src/pages/courses/Leaderboard.tsx:42 | 0 exactly when the user is not listed, else the 1-based position of the user's first entry |
| Leaderboard.IconFor | src/pages/courses/Leaderboard.tsx:35-40 | the trophy for rank 1, the medal for rank 2, the award for rank 3, and the plain number for every other rank |
| Leaderboard.PodiumIconsAreDistinct | src/pages/courses/Leaderboard.tsx:35-38 | the three podium icons differ |
| Leaderboard.Rows | src/pages/courses/Leaderboard.tsx:75-85 | one row per entry in order, ranked from 1, highlighted exactly for the user's entries |
| Leaderboard.BadgeMatchesFirstHighlightedRow | src/pages/courses/Leaderboard.tsx:66-82 | the badge appears exactly when some row is highlighted, and shows the rank of the first highlighted row |
| Leaderboard.SignedOutSeesNoRank | src/pages/courses/Leaderboard.tsx:42 | signed out, there is no badge and no highlighted row |
| Leaderboard.LeaderboardView.constructor | src/pages/courses/Leaderboard.tsx:15-16 | empty board, all-time period |
| Leaderboard.LeaderboardView.Load | src/pages/courses/Leaderboard.tsx:18-33 | a successful fetch for the route id and period replaces the rows; otherwise they are kept |
| Leaderboard.LeaderboardView.SelectPeriod | src/pages/courses/Leaderboard.tsx:55 | sets the period and reloads the rows for it |
| Subscribe.AnnualPrice | src/pages/courses/Subscribe.tsx:114 | the annual price, or ten monthly prices when the annual price is 0 |
| Subscribe.Plans | src/pages/courses/Subscribe.tsx:95-118 | monthly, quarterly and annual cards in that order, with their prices and savings of 0, 10 and 20 percent; only quarterly is marked popular |
| Subscribe.PlanKindsAreDistinct | src/pages/courses/Subscribe.tsx:131-133 | the three cards have distinct plan ids |
| Subscribe.SavingsShownForLongerPlans | src/pages/courses/Subscribe.tsx:145-147 | a savings line is shown exactly on the quarterly and annual cards |
| Subscribe.Features | src/pages/courses/Subscribe.tsx:150-177 | the five common features in order, and a sixth line, priority internship consideration, exactly for the quarterly and annual plans; nothing else |
| Subscribe.StartCheckout | src/pages/courses/Subscribe.tsx:34-78 | does nothing without a course or route id; otherwise the widget opens exactly when the server creates an order, with options in INR for that order's amount and id, and initialisation fails exactly when it does not |
| Subscribe.ChargedAmountIsTheOrders | src/pages/courses/Subscribe.tsx:39-47 | for every course, route and plan, the amount charged is the server's order amount: two courses with the same title open the same widget whatever their prices |
| Subscribe.AfterPayment | src/pages/courses/Subscribe.tsx:52-66 | the success page for the course when the payment is verified, the failure page otherwise |
| Subscribe.HandleSubscribe | src/pages/courses/Subscribe.tsx:34-82 | no-op without a course; the initialisation toast when the order fails or the widget cannot be built; nothing when the widget is dismissed; after a completed payment, the success or failure route with the matching toast |
| Feed.Liked | src/pages/feed/Feed.tsx:31-41 | the list after an accepted like keeps its length; threads with another id are untouched, and a thread with the id changes only its flag and its count |
| Feed.LikeChanges | src/pages/feed/Feed.tsx:34-37 | flips the first matching thread's flag and adds one to its count; for an unknown id, liked with count 1 |
| Feed.LikeUpdatesFromFirstMatch | src/pages/feed/Feed.tsx:31-41 | every thread with the id takes the first match's flag negated and its count plus one, and nothing else changes |
| Feed.UnlikeStillRaisesCount | src/pages/feed/Feed.tsx:35-36 | taking a like away still raises the count by one |
| Feed.LikeUnknownThread | src/pages/feed/Feed.tsx:34 | liking an unknown thread changes nothing |
| Feed.FeedView.constructor | src/pages/feed/Feed.tsx:14 | filter "all" |
| Feed.FeedView.Load | src/pages/feed/Feed.tsx:16-29 | a successful fetch for the filter replaces the store's threads; a failed one keeps them |
| Feed.FeedView.SelectFilter | src/pages/feed/Feed.tsx:58 | sets the filter and reloads |
| Feed.FeedView.HandleLike | src/pages/feed/Feed.tsx:31-41 | the threads change, by the like update, only after the server accepts |
| Internships.WithStatus | src/pages/internships/Internships.tsx:32-34 | same length; offers with the id take the status and nothing else changes |
| Internships.AnsweredOffersHideActions | src/pages/internships/Internships.tsx:105 | an accepted or declined offer no longer shows its buttons |
| Internships.HandlerIgnoresCurrentStatus | src/pages/internships/Internships.tsx:29-39 | the handler itself accepts a declined offer; only the hidden buttons prevent it |
| Internships.InternshipBoard.constructor | src/pages/internships/Internships.tsx:14 | no offers |
| Internships.InternshipBoard.Load | src/pages/internships/Internships.tsx:16-27 | a successful fetch replaces the offers |
| Internships.InternshipBoard.Accept | src/pages/internships/Internships.tsx:29-39 | the post goes through the client; the status becomes accepted with the success toast only after the server agrees; a refusal leaves the offers alone and shows the client's toast and then the screen's, with the session as the client's interceptor leaves it |
| Internships.InternshipBoard.Decline | src/pages/internships/Internships.tsx:41-51 | the same flow as accepting, with the declined status and the decline toasts |
| Callback.CallbackRoute | src/pages/auth/Callback.tsx:14-39 | an error parameter wins; without a code, back to role selection; otherwise profile completion on a successful exchange and the failure route if not |
| Callback.CompleteProfileOnlyAfterExchange | src/pages/auth/Callback.tsx:17-39 | profile completion is reached if and only if there is no error, a code is given and the exchange succeeds |
| Callback.HandleCallback | src/pages/auth/Callback.tsx:12-43 | the exchange goes through the client with the pending role; on success the token and user are stored; a refused exchange shows the client's toast and leaves the session as the client's interceptor leaves it (on a 401 the old token is removed); an error or missing code touches nothing |
| ProfileView.IsOwnProfile | src/pages/profile/ProfileView.tsx:18 | own profile exactly when the signed-in username equals the route's; signed out with no route parameter also counts |
| ProfileView.ButtonLabel | src/pages/profile/ProfileView.tsx:125 | "Unfollow" exactly when the profile is followed, "Follow" exactly when it is not |
| ProfileView.CaptionNamesTheClick | src/pages/profile/ProfileView.tsx:121-125 | the caption names what a successful click does: "Unfollow" takes the id off the list and "Follow" puts it on |
| ProfileView.Toggled | src/pages/profile/ProfileView.tsx:121 | the follow list after a successful button click: unfollow when listed, follow otherwise |
| ProfileView.ToggleFlipsOnlyThatMember | src/pages/profile/ProfileView.tsx:36-54 | a click flips that id's membership, leaves every other id alone and keeps the list duplicate-free |
| ProfileView.ToggleTwiceKeepsMembers | src/pages/profile/ProfileView.tsx:121 | two successful clicks give back the same followed set |
| ProfileView.VisibleThreads | src/pages/profile/ProfileView.tsx:169 | the first ten threads, or all of them when there are fewer |
| ProfileView.ProfilePage.constructor | src/pages/profile/ProfileView.tsx:15 | the page for the route username |
| ProfileView.ProfilePage.Load | src/pages/profile/ProfileView.tsx:20-34 | a fetched profile and its threads go to the store; no route parameter or a failed fetch changes nothing |
| ProfileView.ProfilePage.HandleFollow | src/pages/profile/ProfileView.tsx:36-44 | with a profile and an accepted request, the profile id is appended; otherwise nothing changes |
| ProfileView.ProfilePage.HandleUnfollow | src/pages/profile/ProfileView.tsx:46-54 | with a profile and an accepted request, the profile id is removed; otherwise nothing changes |
| ProfileView.ProfilePage.ClickFollowButton | src/pages/profile/ProfileView.tsx:120-126 | picks the handler by current membership, so a successful click toggles membership and never creates a duplicate |

## Left out

- Rendering, styling, routing tables and page transitions are out of scope. So is the render-time redirect of signed-out users on the editor and composer screens.
- Asynchrony is not modelled. Each handler is one atomic step over its state, with the server's answer as a parameter. Stale closures (`threads` captured at render in `handleLike`), overlapping requests and unmounted components are out of scope.
- The 500 ms debounce of the username lookup is left out (the lookup is modelled as the effect after the delay). So are the 30 s request timeout and the base URL.
- `localStorage` persistence of the auth store (`persist` middleware) is left out. The model keeps the store in memory only.
- The Razorpay widget itself is left out. Its key, prefill and theme are not modelled; what became of it (constructor threw, dismissed, or completed with a payment id and signature) is the `widget` parameter of `Subscribe.HandleSubscribe`, and the verification request is the `verify` parameter.
- Payment verification is written as it is in the code, not as described. The product description says a verified payment updates the payment store. `Subscribe.tsx` never calls `addSubscription`, so `Subscribe.HandleSubscribe` only returns a route and a toast.
- The five convenience methods `get`, `post`, `put`, `patch` and `delete` are one `Api.ApiClient.Request`, which takes the verb inside its request config. Request bodies and query parameters are left out of `RequestConfig`; a body's content is an argument of the server parameter instead (the code and role of the sign-in exchange).
- The internship screen and the sign-in callback call `Api.ApiClient.Request`, so their contracts include the client's own toast and its 401 sign-out. The other screens take the client's already-unwrapped answer as their server parameter, so their contracts leave those effects of a failed request to `Api.ApiClient.Request`.
- The toast texts of the thread composer and the profile editor are left out. `CreateThread.SubmitResult` names the composer's cases (and `ThreadComposer.Submit` returns its `/feed` redirect), and the editor's contracts state which branch each request takes.
- `Courses.Course.rating` is left out, because it is a floating-point number used only for display. Prices, amounts, progress, durations and file sizes are unbounded integers.
- Lengths count Dafny characters (Unicode scalar values), whereas zod and `maxLength` count UTF-16 code units. A string with characters outside the Basic Multilingual Plane therefore has a different length here. The textarea `maxLength` attributes (enforced by the browser) are left out.
- `URL.createObjectURL` and the upload endpoints are parameters. The same file is assumed to yield the same URL within one call.
- `Lesson.notes` is not in the store's `Lesson` type. The player reads it from the untyped course response, so the model adds it as an optional field.
- Console logging on failures is left out.
