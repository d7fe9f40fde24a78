# Task-list client state, modelled in Dafny

A model of the client-side state logic of the anrokk/ToDo task-list app.
It covers three stores and two small rules around them:

- the **resource cache** (`app/src/stores/todoStore.ts`): tasks, categories and priorities, the filtered and sorted task view, fetches, creates, updates, deletes and the two optimistic toggles (`Todos`, `TaskOrder`);
- the **deny-list** of words that resource names may not contain (`app/src/stores/prohibitedWordStore.ts`), with its persisted copy (`ProhibitedWords`);
- the **session manager** (`js-exam/src/stores/auth.ts`): token, refresh token, user, `isAuthenticated`, the two error slots and the three storage entries, across login, register, refresh, restore and logout (`Auth`);
- the HTTP **error-message normaliser** `getApiErrorMessage`, in both of its copies (`TodoApiService`, `AuthService`);
- the **route table and navigation guard** (`Router`).

Every awaited API call is an input to the action that makes it: an `Outcome` (`Ok(value)` or `Err(message)`) for the resource API, or the HTTP client's `Response` for the account API, which the model passes through `AuthService` so the message the store shows is the normaliser's.
`jwtDecode` is an input `Option<Claims>` (None when it throws), and `Date.now()` is an integer input.
Each action is one atomic step.

The stores are classes whose methods assign their fields.
The session store and the resource cache describe each action by a function on a value snapshot of their state (`Auth.Session`, `Todos.TodoState`).
Each method's postcondition ties the new state to that function of the old state.
The properties are lemmas about those functions.
The deny-list's storage copy is a ghost field: saving writes it, but the list that initialisation reads back from the same storage key is a separate input (see "Left out").
The session store's three storage entries are ordinary fields, because restore and the guard read them.

JavaScript rules are written out in `Js`: truthiness of optional strings, `a || b`, object spread over possibly-missing keys, and `filter`/`findIndex`/`flat`/`join`.
`Text` holds ASCII lower-casing, whitespace trimming and substring search.

The model follows the code where it departs from what the code appears to intend (failing closed, or rolling back a failed change):

- `_setUserAndToken` stores a user record even after a rejected token has signed the store out (`Auth.WithUserAndToken`).
- Restoring an unexpired token without a subject signs the store out and then back in, with an empty user id (`Auth.RestoreSubjectless`).
- `toggleTaskArchived` never puts the flag back: `updateTask` catches every failure, so the rollback in its `catch` cannot run (`Todos.ToggleArchivedNoRollback`).
- In the resource client's normaliser, the `messages` and `message` tests are reached only with a falsy body, so they never succeed (`TodoApiService.FalsyBody`, `TodoApiService.MessageFieldsIgnored`).

## Model

| member | source | states |
|---|---|---|
| TodoApiService.ErrorMessage | js-exam/src/services/todoApiService.ts:38-55 | with a non-empty default the message is never empty |
| TodoApiService.NoResponse | js-exam/src/services/todoApiService.ts:54 | without an HTTP response: the error's own message if non-empty, else the default |
| TodoApiService.ProblemWithFieldErrors | js-exam/src/services/todoApiService.ts:42-45 | a body with a truthy title and an `errors` object yields the title, ": ", then every field message in field order joined by single spaces |
| TodoApiService.EmptyFieldErrors | js-exam/src/services/todoApiService.ts:42-45 | an empty `errors` object still yields the title followed by ": " |
| TodoApiService.OtherBody | js-exam/src/services/todoApiService.ts:46 | any other truthy body yields its title, else its detail, else the default |
| TodoApiService.FalsyBody | js-exam/src/services/todoApiService.ts:48-52 | a falsy body yields the error's own message, else the default |
| TodoApiService.MessageFieldsIgnored | js-exam/src/services/todoApiService.ts:48-52 | the `messages` list and `message` property of a body never change the result |
| AuthService.ErrorMessage | app/src/services/authService.ts:16-29 | with a non-empty default the message is never empty |
| AuthService.CopiesAgree | app/src/services/authService.ts:16-29 | the account client's copy returns the same string as the resource client's for every error and default |
| AuthService.FalsyBody | app/src/services/authService.ts:26-28 | a falsy body yields the error's own message, else the default |
| AuthService.Call | app/src/services/authService.ts:34-41 | an endpoint succeeds exactly when the HTTP call does, with its data; a failure carries a non-empty message |
| AuthService.Login | app/src/services/authService.ts:34-41 | a failed login is normalised with the default "Login failed" and is never empty |
| AuthService.Register | app/src/services/authService.ts:43-50 | a failed registration is normalised with the default "Registration failed" |
| AuthService.RefreshToken | app/src/services/authService.ts:52-59 | a failed refresh is normalised with the default "Session refresh failed. Please log in again." |
| ProhibitedWords.Normalize | app/src/stores/prohibitedWordStore.ts:50 | the normal form of a word is trimmed and lower-case |
| ProhibitedWords.NormalizeIdempotent | app/src/stores/prohibitedWordStore.ts:50 | normalising twice is normalising once |
| ProhibitedWords.Added | app/src/stores/prohibitedWordStore.ts:48-55 | adding keeps the list as a prefix, grows it by at most one entry, and the new members are exactly the old ones plus the non-empty normal form |
| ProhibitedWords.Removed | app/src/stores/prohibitedWordStore.ts:57-62 | removing keeps exactly the entries different from the normal form; empty input removes nothing |
| ProhibitedWords.AddedAppendsIff | app/src/stores/prohibitedWordStore.ts:51-52 | adding appends the normal form at the end iff it is non-empty and not yet listed; otherwise the list is unchanged |
| ProhibitedWords.AddIdempotent | app/src/stores/prohibitedWordStore.ts:48-55 | adding a word twice equals adding it once |
| ProhibitedWords.AddPreservesWellFormed | app/src/stores/prohibitedWordStore.ts:50-52 | adding keeps the entries distinct, non-empty, trimmed and lower-case |
| ProhibitedWords.RemovePreservesWellFormed | app/src/stores/prohibitedWordStore.ts:60 | removing keeps those invariants |
| ProhibitedWords.FilterKeepsDistinct | app/src/stores/prohibitedWordStore.ts:60 | filtering a list of distinct entries leaves distinct entries |
| ProhibitedWords.RemoveKeepsOrder | app/src/stores/prohibitedWordStore.ts:60 | removing keeps the surviving entries in their order |
| ProhibitedWords.RemoveAbsent | app/src/stores/prohibitedWordStore.ts:60 | removing a word whose normal form is not listed changes nothing |
| ProhibitedWords.EmptyTextAllowed | app/src/stores/prohibitedWordStore.ts:65 | empty text is never prohibited |
| ProhibitedWords.AddThenRemove | app/src/stores/prohibitedWordStore.ts:48-62 | after adding a word and removing one with the same normal form, that form is absent |
| ProhibitedWords.AddThenProhibited | app/src/stores/prohibitedWordStore.ts:48-67 | after adding a word, a text whose lower-cased form contains its normal form is prohibited |
| ProhibitedWords.Prohibited | app/src/stores/prohibitedWordStore.ts:64-68 | a prohibited text is non-empty and the list is non-empty; an empty entry in the list prohibits every non-empty text |
| ProhibitedWords.ProhibitedWordStore.IsProhibited | app/src/stores/prohibitedWordStore.ts:64-68 | empty text is never prohibited; a non-empty text is prohibited exactly when some held entry occurs in its lower-cased form |
| ProhibitedWords.AddThenProhibitedAnyCase | app/src/stores/prohibitedWordStore.ts:48-67 | after adding a word, a text containing it in any letter case is prohibited |
| ProhibitedWords.UpperCaseEntryNeverMatches | app/src/stores/prohibitedWordStore.ts:66-67 | entries are not lower-cased at check time, so one holding an upper-case letter never matches |
| ProhibitedWords.DefaultWellFormed | app/src/stores/prohibitedWordStore.ts:5-9 | the seed list badword1, badword2, badword3 satisfies the list invariants |
| ProhibitedWords.ProhibitedWordStore.constructor | app/src/stores/prohibitedWordStore.ts:17-20 | the store starts with an empty list and the seed list as its defaults |
| ProhibitedWords.ProhibitedWordStore.InitializeWords | app/src/stores/prohibitedWordStore.ts:29-42 | a parsed stored list is taken as is; a missing, empty or unparsable entry yields the seed list, which is then saved |
| ProhibitedWords.ProhibitedWordStore.SaveWords | app/src/stores/prohibitedWordStore.ts:44-46 | the persisted copy equals the list |
| ProhibitedWords.ProhibitedWordStore.AddProhibitedWord | app/src/stores/prohibitedWordStore.ts:48-55 | the list becomes `Added` of the old list; it is saved when it changed and only then |
| ProhibitedWords.ProhibitedWordStore.RemoveProhibitedWord | app/src/stores/prohibitedWordStore.ts:57-62 | the list becomes `Removed` of the old list and is saved, except for empty input |
| ProhibitedWords.ProhibitedWordStore.ResetToDefault | app/src/stores/prohibitedWordStore.ts:70-73 | the list equals the seed list and is saved |
| TaskOrder.Insert | app/src/stores/todoStore.ts:51 | inserting into a sorted list keeps it sorted and adds exactly one copy of the task |
| TaskOrder.SortTasks | app/src/stores/todoStore.ts:51 | the result is ordered by `taskSort`, then creation time, and is a permutation of the input |
| TaskOrder.FilterAndSort | app/src/stores/todoStore.ts:46-51 | the filtered view is sorted, and holds exactly the tasks whose flags match the filter (a null field matches anything) |
| TaskOrder.FilterAndSortCounts | app/src/stores/todoStore.ts:46-51 | the view is a permutation of the matching tasks: each occurs as often as in the list, every other task not at all |
| TaskOrder.NoFilterKeepsAll | app/src/stores/todoStore.ts:47-50 | with both filter fields null the view is a permutation of all tasks |
| Todos.IndexOfId | app/src/stores/todoStore.ts:183 | the index of the first task with the id, or -1 exactly when none has it |
| Todos.IndexOfIdAfterSet | app/src/stores/todoStore.ts:183-185 | replacing a task by one with the same id moves no id's first index |
| Todos.FindCategory | app/src/stores/todoStore.ts:54-56 | the category found is listed and has the id, and no earlier category has the id (the first match); none is found exactly when no category has it |
| Todos.FindPriority | app/src/stores/todoStore.ts:58-60 | the priority found is listed and has the id, and no earlier priority has the id (the first match); none is found exactly when no priority has it |
| Todos.Emptied | app/src/stores/todoStore.ts:68-74 | after clearing, tasks, categories and priorities are empty lists, so the filtered view is empty and no category or priority id is found; selection and error are cleared; the filter and the three loading flags are kept |
| Todos.TodoStore.FilteredTasks | app/src/stores/todoStore.ts:46-52 | the view is sorted by `taskSort` then creation time and holds exactly the cached tasks the current filter admits |
| Todos.TodoStore.GetCategoryById | app/src/stores/todoStore.ts:54-56 | a category returned is cached and has the id; undefined exactly when no cached category has it |
| Todos.TodoStore.GetPriorityById | app/src/stores/todoStore.ts:58-60 | a priority returned is cached and has the id; undefined exactly when no cached priority has it |
| Todos.Merge | app/src/stores/todoStore.ts:185 | every required field comes from the response; each optional property is the response's when it carries the key, else the task's |
| Todos.MergeIdempotent | app/src/stores/todoStore.ts:185 | merging the same response twice equals merging it once |
| Todos.MergeCompleteResponse | app/src/stores/todoStore.ts:185 | a response carrying every optional property replaces the task outright |
| Todos.MergeKeepsOmitted | app/src/stores/todoStore.ts:185 | a property the response omits keeps the task's value, even an explicit null |
| Todos.MergeById | app/src/stores/todoStore.ts:183-186 | the list keeps its length; the first task with the id becomes its merge with the response; every other task is unchanged; an unknown id changes nothing |
| Todos.MergeSelected | app/src/stores/todoStore.ts:187-189 | the task open for editing is present exactly when it was; when its id matches it becomes its merge with the response, and is unchanged otherwise |
| Todos.AfterUpdate | app/src/stores/todoStore.ts:172-197 | the updated task is returned exactly when the name is not prohibited and the call succeeds, and then the error slot is cleared; otherwise an error is set; the list keeps its length; only tasks, selection, the task loading flag and the error change |
| Todos.UpdateSuccess | app/src/stores/todoStore.ts:179-190 | an allowed update whose call succeeds merges the response into the first task with the id and into a matching selection, clears the error and loading flag, and returns the response |
| Todos.WithoutId | app/src/stores/todoStore.ts:204 | the remaining tasks are exactly those whose id differs |
| Todos.WithoutIdKeepsOthers | app/src/stores/todoStore.ts:204 | every other task keeps its count; every task with the id is gone |
| Todos.WithoutIdKeepsOrder | app/src/stores/todoStore.ts:204 | deleting keeps the surviving tasks in order |
| Todos.WithoutIdAbsent | app/src/stores/todoStore.ts:204 | deleting an id no task carries changes nothing |
| Todos.UpdateProhibited | app/src/stores/todoStore.ts:173-177 | a non-empty prohibited name only sets the fixed error, returns null and ignores the call's outcome |
| Todos.UpdateFailureKeepsTasks | app/src/stores/todoStore.ts:191-193 | a failed update leaves the tasks and the selection unchanged and sets the error |
| Todos.UpdateUnknownId | app/src/stores/todoStore.ts:183-186 | updating an id the cache lacks adds nothing to it |
| Todos.ToggleCompletedFlips | app/src/stores/todoStore.ts:217-224 | a successful toggle flips only the completed flag of the first task with the id; error slot and loading flags are untouched |
| Todos.AfterToggleCompleted | app/src/stores/todoStore.ts:217-241 | an unknown id only sets "Task not found."; otherwise the error slot is kept; no task changes except in its completed flag, tasks with another id not at all; only the task list and error change |
| Todos.ToggleCompletedRollback | app/src/stores/todoStore.ts:238-240 | a toggle whose call fails leaves the whole state as it was |
| Todos.ToggleCompletedTwice | app/src/stores/todoStore.ts:217-240 | two successful toggles of one task restore the state |
| Todos.ToggleArchivedNoRollback | app/src/stores/todoStore.ts:243-267 | when the update is refused or fails, the archived flag stays flipped and only the error slot reports it |
| Todos.AfterToggleArchived | app/src/stores/todoStore.ts:243-267 | an unknown id only sets "Task not found."; the list keeps its length, tasks with another id are untouched, and categories, priorities, filter and their loading flags are kept |
| Todos.ToggleArchivedSuccess | app/src/stores/todoStore.ts:250-263 | a successful archive toggle merges the response into the flipped task and clears the error |
| Todos.TodoStore.constructor | app/src/stores/todoStore.ts:33-43 | empty collections, no filter, no selection, no error, nothing loading |
| Todos.TodoStore.ClearError | app/src/stores/todoStore.ts:64-66 | only the error slot is cleared |
| Todos.TodoStore.ClearUserTodosAndCategories | app/src/stores/todoStore.ts:68-74 | collections, selection and error are emptied; the filter and loading flags survive |
| Todos.TodoStore.SetFilter | app/src/stores/todoStore.ts:76-78 | each filter field the patch carries replaces the current one; nothing else changes |
| Todos.TodoStore.FetchTodoTasks | app/src/stores/todoStore.ts:80-91 | success replaces the tasks wholesale; failure empties them and sets the error; the loading flag ends false |
| Todos.TodoStore.FetchTodoCategories | app/src/stores/todoStore.ts:93-104 | the same for categories |
| Todos.TodoStore.FetchTodoPriorities | app/src/stores/todoStore.ts:106-117 | the same for priorities |
| Todos.TodoStore.CreateTask | app/src/stores/todoStore.ts:137-156 | a prohibited name only sets the fixed error and returns null; otherwise success appends the task at the end, failure sets the error |
| Todos.TodoStore.GetTaskForEdit | app/src/stores/todoStore.ts:158-170 | the selection becomes the fetched task, or null with the error set |
| Todos.TodoStore.UpdateTask | app/src/stores/todoStore.ts:172-197 | the new state and result are those of `AfterUpdate`: prohibited-name guard only for a non-empty name, merge by id into the tasks and the matching selection |
| Todos.TodoStore.DeleteTask | app/src/stores/todoStore.ts:199-215 | returns true exactly on success, then drops every task with the id and a matching selection; on failure only the error and loading flag change |
| Todos.TodoStore.ToggleTaskCompleted | app/src/stores/todoStore.ts:217-241 | the new state is `AfterToggleCompleted`: "Task not found." for an unknown id, else flip with rollback on failure |
| Todos.TodoStore.ToggleTaskArchived | app/src/stores/todoStore.ts:243-267 | the new state is `AfterToggleArchived`: flip, then the `updateTask` step on the flipped task |
| Todos.TodoStore.CreateCategory | app/src/stores/todoStore.ts:269-286 | a non-empty prohibited name only sets the fixed error; otherwise success appends without touching the error slot, failure sets it |
| Todos.TodoStore.CreatePriority | app/src/stores/todoStore.ts:288-306 | a prohibited name only sets the fixed error; otherwise success appends and clears the error, failure sets it |
| Auth.Initial | js-exam/src/stores/auth.ts:9-17 | the starting state is consistent and signed in exactly when storage holds a truthy token |
| Auth.Cleared | js-exam/src/stores/auth.ts:141-151 | after cleanup the state is consistent and signed out; token, refresh token, user and both error slots are cleared; all three storage entries are removed; `isLoading` is untouched |
| Auth.ResolveUser | js-exam/src/stores/auth.ts:37-48 | the user id is the subject claim or ''; the email claim beats the caller's email, which beats ''; the name claims beat the response names, which beat '' |
| Auth.WithUserAndToken | js-exam/src/stores/auth.ts:32-70 | signed in iff the response token is truthy and decodes with a subject; then token and stored token are the response's and the user id is the subject; otherwise no token, the stored token is '' and the user id is ''; a user is always stored |
| Auth.Verified | js-exam/src/stores/auth.ts:42-58 | an accepted token is a non-empty string whose decoded claims carry a non-empty subject |
| Auth.EmailOf | js-exam/src/stores/auth.ts:123 | the fallback email is never an empty string, and reading it back with `\|\| ""` gives the held user's email or "" |
| Auth.RefreshSuccess | js-exam/src/stores/auth.ts:116-125 | with both in-memory tokens, a successful refresh stores the new tokens and user as `_setUserAndToken` does with the held email, stops loading and returns true |
| Auth.AfterLogin | js-exam/src/stores/auth.ts:72-88 | the state stays consistent, loading ends false, and the result is true exactly when the HTTP call succeeded |
| Auth.AfterRegister | js-exam/src/stores/auth.ts:90-105 | the same for registration |
| Auth.AfterRefresh | js-exam/src/stores/auth.ts:107-132 | the state stays consistent; true is returned exactly when both in-memory tokens are truthy and the call succeeds |
| Auth.AfterRestore | js-exam/src/stores/auth.ts:153-194 | restoring leaves a consistent state |
| Auth.DisplayName | js-exam/src/stores/auth.ts:20-25 | "Guest" exactly when no user is held; otherwise first name, a space, last name, with a missing part rendered "undefined" |
| Auth.BearerToken | js-exam/src/stores/auth.ts:26-28 | a header exactly for a truthy token: "Bearer " followed by the token, which reads back unchanged |
| Auth.LoginFailureMessage | js-exam/src/stores/auth.ts:80-83 | a failed login shows the account client's normalised message, holds no token, refresh token or user, and leaves all three storage entries removed |
| Auth.LoginSignsInIff | js-exam/src/stores/auth.ts:76-79 | a login whose call succeeds reports true, stores a user, and signs in exactly when the token is accepted |
| Auth.LoginSuccess | js-exam/src/stores/auth.ts:72-79 | a successful login is `_setUserAndToken` of the response with the entered email as fallback, with loading stopped, and returns true |
| Auth.RegisterSuccess | js-exam/src/stores/auth.ts:90-97 | a successful registration is `_setUserAndToken` of the response with the registered email as fallback, with loading stopped, and returns true |
| Auth.RegisterEmailFallback | js-exam/src/stores/auth.ts:94 | when the accepted token has no email claim, the registered email becomes the user's email |
| Auth.RegisterFailureMessage | js-exam/src/stores/auth.ts:98-101 | a failed registration shows the normalised message, signs out and clears the login error |
| Auth.RefreshWithoutTokens | js-exam/src/stores/auth.ts:112-115 | without both in-memory tokens the refresh ignores the response, signs out, returns false and leaves `isLoading` set |
| Auth.RefreshFailure | js-exam/src/stores/auth.ts:126-130 | a rejected refresh signs out with "Current session has expired. Please log in again." and stops loading |
| Auth.RefreshKeepsEmail | js-exam/src/stores/auth.ts:123 | a refreshed token without an email claim keeps the held user's email |
| Auth.RestoreWithoutToken | js-exam/src/stores/auth.ts:188-193 | no truthy stored token, or one that does not decode: the session is cleared |
| Auth.RestoreValid | js-exam/src/stores/auth.ts:169-187 | an unexpired token with a subject signs in as that subject and keeps the stored token |
| Auth.RestoreSubjectless | js-exam/src/stores/auth.ts:174-187 | an unexpired token without a subject ends signed in with user id '' while its storage entries are gone |
| Auth.RestoreExpired | js-exam/src/stores/auth.ts:160-166 | an expired decodable token is refreshed when a truthy refresh token is stored, the session being what that refresh leaves; otherwise the store is signed out |
| Auth.Expired | js-exam/src/stores/auth.ts:160 | an expired token carries a non-zero expiry, and with one it is expired exactly when `exp * 1000 < now` |
| Auth.ExpiredStaysExpired | js-exam/src/stores/auth.ts:160 | a token that has expired stays expired at every later time |
| Auth.AuthStore.constructor | js-exam/src/stores/auth.ts:9-17 | the store starts in `Initial` of what storage holds |
| Auth.AuthStore.LogoutCleanup | js-exam/src/stores/auth.ts:141-151 | the new state is `Cleared` of the old |
| Auth.AuthStore.SetUserAndToken | js-exam/src/stores/auth.ts:32-70 | the new state is `WithUserAndToken` of the old |
| Auth.AuthStore.Login | js-exam/src/stores/auth.ts:72-88 | state and result are `AfterLogin` of the old state |
| Auth.AuthStore.Register | js-exam/src/stores/auth.ts:90-105 | state and result are `AfterRegister` of the old state |
| Auth.AuthStore.RefreshTokenAction | js-exam/src/stores/auth.ts:107-132 | state and result are `AfterRefresh` of the old state |
| Auth.AuthStore.Logout | js-exam/src/stores/auth.ts:134-139 | the session is cleared and the resource cache is emptied |
| Auth.AuthStore.InitializeAuthFromStorage | js-exam/src/stores/auth.ts:153-194 | the new state is `AfterRestore` of the old |
| Router.Decide | js-exam/src/router/index.ts:62-71 | a protected page sends a guest to login with the target path as redirect; a guest-only page sends a signed-in user home; proceeding never breaks either flag |
| Router.NoRouteNeedsBoth | js-exam/src/router/index.ts:11-47 | no route is both protected and guest-only |
| Router.TableDecisions | js-exam/src/router/index.ts:11-71 | for each route of the table exactly one outcome applies, chosen by its flag and the session |
| Router.RootNeverRedirected | js-exam/src/router/index.ts:12-16 | "/" always proceeds |
| Router.GuardIdleWhenConsistent | js-exam/src/router/index.ts:58-60 | over a state the stores produced, the guard never restores |
| Router.Guarded | js-exam/src/router/index.ts:58-60 | signed out while storage holds a truthy token, the session becomes the restored one, which is consistent; otherwise it is unchanged |
| Router.GuardExpiredOutsideToken | js-exam/src/router/index.ts:58-60 | an expired token written to storage behind the store's back signs the visitor out without a request and leaves `isLoading` set |
| Router.BeforeEach | js-exam/src/router/index.ts:55-72 | the guard restores first when signed out with a truthy stored token, then decides on the resulting session |

## Left out

- HTTP plumbing: the axios clients, the bearer-header interceptor and every service method body are I/O; their results are inputs.
- The resource API client's methods are not modelled, so the store's error messages start from the rejected call's message, given as input.
- `fetchInitialTodoData`: it runs the three fetches concurrently with `Promise.all`; the model has the three fetches as separate atomic steps only.
- Concurrency: overlapping requests and their last-write-wins races are not modelled; every action runs to completion before the next.
- Auth.AfterRestore: the refresh that restore starts without awaiting it is taken as run to completion before anything else happens.
- ProhibitedWords.ProhibitedWordStore.InitializeWords: the stored list it is given is an input not connected to the ghost copy that `SaveWords` writes, so a save-then-initialise round trip is not stated.
- `jwtDecode` (base64 and JSON decoding) is an input claims record, or None when it throws.
- Storage and JSON: the storage entries are fields holding parsed values; a "todoAppUser" entry that fails to parse when the store is created is not modelled, and a parsed "prohibitedWords" value is not checked to be a list of strings.
- Dates and numbers: `createdDt` is an already parsed integer timestamp, so invalid dates (NaN) are not modelled, and `taskSort` is an integer.
- TaskOrder.SortTasks: does not state that tasks comparing equal keep their relative order, though the insertion sort does keep it.
- Unicode: lower-casing and trimming cover ASCII letters and ASCII whitespace only.
- Navigation: `router.push` after login, register and logout is left out, including a rejected navigation landing in the login `catch`.
- The `typeof` checks of the deny-list actions are left out: every caller passes a string.
- The `getProhibitedWords` getter only returns the list field.
- Todos.TodoStore.SetFilter: a patch key explicitly set to `undefined` is not modelled; a key is absent, null or a flag.
- The request payloads sent by the create, update and toggle calls are not modelled, except the one `toggleTaskArchived` hands to `updateTask`.
