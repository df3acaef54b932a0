# TestiVid front end: a Dafny model

TestiVid is a React single-page application. A company uses it to collect
video testimonials:

- it writes questions;
- it sends a customer a testimonial request;
- the customer answers each question on camera in a small wizard.

This project models the stateful logic of the front end and proves
properties of it. It covers:

- the auth store and its browser-storage keys;
- the Google OAuth callback;
- sign-up and password reset;
- the dashboard pages for questions, requests and testimonials;
- the header and the sidebar;
- the customer's recording wizard.

## Shape of the model

Each source file is one Dafny module.

- **State.** A page or store whose handlers update state becomes a `class`. Every handler is a `method` whose `ensures` gives the whole new state, including what stays the same.
- **Pure logic.** List updates, validators, formatters and parsers are `function`s, with `lemma`s relating them to independent descriptions.

Each event a user or the browser can cause is one method call:

- a click or an input;
- a timer firing;
- a recorder callback;
- an HTTP answer.

**Outside inputs.** Whatever lies outside the files is passed in as an input:

- the backend's answers are outcome datatypes, mostly `Http.Reply`;
- `JSON.parse` and `JSON.stringify` form a `Json.JsonCodec` of functions;
- `decodeURIComponent` is a function from a string to `Decoded`;
- `Date` is day, month index and year;
- the camera stream is a flag;
- an object URL is an opaque string.

**Storage.** `localStorage` is the class `BrowserStorage.LocalStorage`, holding a `map<string,string>`.

**Which button is pressed.** The page renders a button only in some states. That rule becomes the method's `requires`. For example, `Accept` only exists while a preview is shown.

**Shared helpers.** The module `Js` holds the JavaScript conventions the pages rely on:

- string truthiness and `||` defaults;
- `trim()` over the ECMAScript white-space set;
- `String(n)` for natural numbers;
- `padStart(2, '0')`;
- `startsWith`, `indexOf` and `split`.

**Where the code and its description differ, the code is followed:**

- A stored `user` text that does not parse removes only the `user` key. The token stays, so the session is still authenticated and `/api/auth/me` is requested.
- The startup restore ignores `googleSignupInProgress`.
- The OAuth callback branches on the stored `googleAuthAction`. It does not look at any new-user field in the response.
- `signOut` removes only `token` and `user`.

**Two pages spell the completed status differently.** Both read records from `/api/testimonials/requests`.

- `src/pages/Dashboard/Requests/Requests.jsx:287` disables the reminder on `'COMPLETED'`.
- `src/pages/Dashboard/Testimonials/Testimonials.jsx:120` enables *View* on `'completed'`.

Each module follows its own file. `Testimonials.CompletedSpellingsDisagree` proves that no status does both.

## Model

| member | source | states |
|---|---|---|
| AuthContext.AuthSession.constructor | src/context/AuthContext.js:7-10 | No user, not authenticated, loading, no error. |
| AuthContext.AuthSession.LoadUserFromStorage | src/context/AuthContext.js:13-26 | Returns the parsed stored user, or none when the text is absent, empty or falsy. A text that throws is removed from storage, and that is the only storage change. |
| AuthContext.AuthSession.Restore | src/context/AuthContext.js:28-63 | Without a truthy token, nothing but `isLoading` changes. With one, the session is authenticated and the token is kept. A parsable user becomes current; otherwise `/me` is pending. Only a malformed user text is removed. Loading ends on every branch. |
| AuthContext.AuthSession.MeResponse | src/context/AuthContext.js:39-59 | A returned user becomes current and is stored. A 401 removes `token` and de-authenticates. Any other failure, or an empty response, changes nothing. |
| AuthContext.AuthSession.SignUp | src/context/AuthContext.js:65-74 | The error is cleared first. It reports success exactly when the backend accepted. On failure the error is the backend's message or `Error during signup`. Session and storage are untouched. |
| AuthContext.AuthSession.SignIn | src/context/AuthContext.js:76-105 | A truthy token is stored and authenticates. A user is stored and made current only when present. Without a token the session is unchanged. A failure sets the message or `Authentication failed` and leaves storage as it was. |
| AuthContext.AuthSession.SignOut | src/context/AuthContext.js:107-119 | Whatever the server did, `token` and `user` are removed, no other key changes, and the session becomes anonymous. |
| AuthContext.AuthSession.UpdateUserData | src/context/AuthContext.js:122-127 | A given user becomes current and is stored. No user changes nothing. |
| BrowserStorage.LocalStorage.GetItem | src/context/AuthContext.js:15 | `getItem` returns the stored text exactly when the key is present, and nothing otherwise. |
| BrowserStorage.LocalStorage.SetItem | src/context/AuthContext.js:86 | `setItem` binds the key to the text and leaves every other key as it was. |
| BrowserStorage.LocalStorage.RemoveItem | src/context/AuthContext.js:114 | `removeItem` drops that key only; a missing key changes nothing. |
| AuthCallback.Split | src/pages/AuthCallback/AuthCallback.jsx:32 | `split` yields at least one piece, and no piece holds the separator. |
| AuthCallback.SplitJoin | src/pages/AuthCallback/AuthCallback.jsx:32 | Joining the pieces with the separator gives back the string: `split` loses nothing. |
| AuthCallback.DropFirst | src/pages/AuthCallback/AuthCallback.jsx:31 | `substring(1)` drops exactly the first character; the empty hash stays empty. |
| AuthCallback.PairKey | src/pages/AuthCallback/AuthCallback.jsx:35 | The key is the text before the first `=`, so it holds no `=`. A piece without `=` is its own key. |
| AuthCallback.PairValue | src/pages/AuthCallback/AuthCallback.jsx:35-36 | The value is the piece after the first `=`, up to the next one, or `''` when the piece has no `=`. It holds no `=`, and key, `=` and value read back as a prefix of the piece. |
| AuthCallback.Reduce | src/pages/AuthCallback/AuthCallback.jsx:33-37 | A successful reduce keeps every key it started with. |
| AuthCallback.ParseFragment | src/pages/AuthCallback/AuthCallback.jsx:31-37 | The fragment parses exactly when every piece between `&`s decodes. |
| AuthCallback.StagedProfile | src/pages/AuthCallback/AuthCallback.jsx:67-72 | E-mail and picture are copied, there is no `sub`, and each name is the user's if truthy, else `''`. |
| AuthCallback.CallbackPage.constructor | src/pages/AuthCallback/AuthCallback.jsx:10-11 | Loading, no error, no navigation. |
| AuthCallback.LastBinding | src/pages/AuthCallback/AuthCallback.jsx:33-37 | Finds the last non-empty piece that binds a key, with no binding after it, or reports that none binds it. |
| AuthCallback.ReduceFailsExactlyOnBadValue | src/pages/AuthCallback/AuthCallback.jsx:33-37 | The reduce produces parameters exactly when the value of every non-empty piece decodes. |
| AuthCallback.ReduceLastWins | src/pages/AuthCallback/AuthCallback.jsx:33-37 | Each key maps to the decoded value of the last piece binding it. Unbound keys keep their starting binding, and empty pieces are skipped. |
| AuthCallback.AfterFlag | src/pages/AuthCallback/AuthCallback.jsx:20-28 | `googleSignupInProgress` is `'true'` exactly when the stored action is `'signup'`, and absent otherwise. Every other key is kept. |
| AuthCallback.CallbackPage.HandleAuthCallback | src/pages/AuthCallback/AuthCallback.jsx:14-104 | The full early-exit and backend contract is in the five bullets after this table. |
| AuthCallback.CallbackPage.CompleteSignIn | src/pages/AuthCallback/AuthCallback.jsx:55-95 | An accepted answer stores `token` and `user` and authenticates the session. With `signup` it stages `googleUserData`, sets the flow flag and goes to the sign-up wizard at step 2. Otherwise it clears the flag, removes the two Google keys and goes to `/dashboard`. |
| AuthCallback.CallbackPage.HandleAuthCallbackAsWritten | src/pages/AuthCallback/AuthCallback.jsx:55-62 | As the file runs: identical up to the two storage writes. The missing `setCurrentUser` then throws, so the error is the engine's message and nothing navigates. (See also line 12.) |
| AuthCallback.SingleTokenFragment | src/pages/AuthCallback/AuthCallback.jsx:31-41 | `#access_token=t`, for a `t` without `&` or `=`, reaches the backend with token `t`. |
| AuthCallback.MissingSetterBlocksSignIn | src/pages/AuthCallback/AuthCallback.jsx:61 | A concrete Google sign-in: as written it ends with no navigation; the corrected handler reaches the dashboard. (See also line 12.) |
| SignUp.WithValue | src/pages/SignUp/SignUp.jsx:80-83 | Only the named field changes. |
| SignUp.EmailMatches | src/pages/SignUp/SignUp.jsx:108 | The scan answers true exactly when some substring matches `\S+@\S+\.\S+` (`EmailShaped`, unanchored). |
| SignUp.ValidateStep1 | src/pages/SignUp/SignUp.jsx:95-113 | First name, last name and e-mail are each flagged exactly when blank after trimming. A non-blank e-mail is flagged exactly when it does not match. The messages are as in the source. |
| SignUp.ValidateStep2 | src/pages/SignUp/SignUp.jsx:116-124 | The company name is flagged exactly when blank after trimming. |
| SignUp.ValidateStep3 | src/pages/SignUp/SignUp.jsx:127-143 | No errors for a Google sign-up. Otherwise the password is flagged when shorter than 6 (empty: required message), and the confirmation independently when it differs. |
| SignUp.Step1Passes | src/pages/SignUp/SignUp.jsx:95-113 | Step 1 passes exactly when the three fields are not white space only and the e-mail is shaped. |
| SignUp.Step3Passes | src/pages/SignUp/SignUp.jsx:127-143 | Step 3 passes exactly for a Google sign-up, or a password of at least 6 characters that the confirmation repeats. |
| SignUp.InitialStep | src/pages/SignUp/SignUp.jsx:13 | `googleStep` if truthy, else 1. |
| SignUp.RenderedStep | src/pages/SignUp/SignUp.jsx:441-450 | Steps 1 to 3 render as themselves; any other value renders step 1. |
| SignUp.Prefilled | src/pages/SignUp/SignUp.jsx:40-45 | First name, last name and e-mail become the profile's, or `''` when it has none. Company name, password and confirmation are kept. |
| SignUp.PasswordForm | src/pages/SignUp/SignUp.jsx:188 | The payload carries the five fields other than the confirmation, unchanged, and no Google additions. |
| SignUp.SignUpPage.constructor | src/pages/SignUp/SignUp.jsx:13-30 | Starts at the initial step with an empty form and no errors. `fromGoogle` is true only when the state says so. |
| SignUp.SignUpPage.LoadGooglePrefill | src/pages/SignUp/SignUp.jsx:35-51 | For a Google sign-up with a parsable stored profile, copies first name, last name and e-mail, each defaulting to `''`. Otherwise nothing changes. |
| SignUp.SignUpPage.HandleChange | src/pages/SignUp/SignUp.jsx:78-92 | Only the named field changes. Only that field's error is emptied, and only when it was set. |
| SignUp.SignUpPage.HandleNextStep | src/pages/SignUp/SignUp.jsx:146-166 | The current step's errors block the move and are stored. Otherwise the step goes up by one and the errors are cleared. |
| SignUp.SignUpPage.HandlePrevStep | src/pages/SignUp/SignUp.jsx:168-174 | One step back without validating; errors cleared. |
| SignUp.SignUpPage.HandleSubmit | src/pages/SignUp/SignUp.jsx:176-211 | Step-3 errors stop it with no request and no storage change. The payload is the form without the confirmation. Google adds `fromGoogle`, and `googleId` (the profile's `sub`) and `picture` from a stored profile, then removes `googleUserData`. Success navigates to sign-in with the account message. |
| SignUp.SignUpPage.MountEffectAsWritten | src/pages/SignUp/SignUp.jsx:73-76 | As the file runs: the missing `setError` throws, so the tree is unmounted with `setError is not a function` and the session's error is left as it was. (See also line 10.) |
| SignUp.SignUpPage.MountEffect | src/pages/SignUp/SignUp.jsx:73-76 | With `setError` in place: the page mounts and the session's error is cleared; the rest of the session is unchanged. |
| SignUp.MissingSetErrorBlocksMount | src/pages/SignUp/SignUp.jsx:74 | A visit after a failed sign-in: as written the tree is lost; the corrected effect mounts the page with no error. (See also line 10.) |
| Requests.RemoveAll | src/pages/Dashboard/Requests/Requests.jsx:111 | The filter removes every occurrence of the id and nothing else: the result's multiset is the input's with that id's count set to zero. |
| Requests.RemoveAllConcat | src/pages/Dashboard/Requests/Requests.jsx:111 | The filter keeps the order of what it keeps: it distributes over concatenation. |
| Requests.RemoveAllAbsent | src/pages/Dashboard/Requests/Requests.jsx:111 | Removing an id the selection lacks changes nothing. |
| Requests.RemoveAllNoDuplicates | src/pages/Dashboard/Requests/Requests.jsx:111 | The filter of a selection without duplicates has none. |
| Requests.ToggleQuestion | src/pages/Dashboard/Requests/Requests.jsx:108-116 | A present id is removed everywhere. An absent id is appended at the end. |
| Requests.ToggleKeepsNoDuplicates | src/pages/Dashboard/Requests/Requests.jsx:108-116 | A selection without duplicates keeps none. |
| Requests.ToggleTwice | src/pages/Dashboard/Requests/Requests.jsx:108-116 | Two toggles restore the selected set. An absent id gives back the same list; a present one ends up moved to the end. |
| Requests.MarkReminded | src/pages/Dashboard/Requests/Requests.jsx:134-139 | Same length. Only entries with the id get the new reminder date; all others are unchanged. |
| Requests.FormatDate | src/pages/Dashboard/Requests/Requests.jsx:152-161 | The text is `Never` exactly for a falsy date text; a real date gives at least seven characters. |
| Requests.FormatDateReadsBack | src/pages/Dashboard/Requests/Requests.jsx:152-161 | For a real date the text is `dd/mm/yyyy`: two digits reading as the day, `/`, two digits reading as the 1-based month, `/`, the year's digits. |
| Requests.FormatDateNever | src/pages/Dashboard/Requests/Requests.jsx:153 | A falsy date text shows `Never`. |
| Requests.RequestsPage.constructor | src/pages/Dashboard/Requests/Requests.jsx:7-21 | Empty lists and form, `expiresDays` 30, modals closed, fetch in flight. (See also lines 59-63.) |
| Requests.RequestsPage.EditForm | src/pages/Dashboard/Requests/Requests.jsx:179-211 | The three inputs change only their fields. |
| Requests.RequestsPage.HandleQuestionSelect | src/pages/Dashboard/Requests/Requests.jsx:108-116 | A listed question's checkbox replaces the selection with its toggle. (See also lines 220-226.) |
| Requests.RequestsPage.HandleSubmitRequest | src/pages/Dashboard/Requests/Requests.jsx:66-75 | The confirmation opens exactly when e-mail and name are non-blank after trimming and a question is selected; the error is then unchanged. Otherwise the error is set and the modal stays closed. (See also line 242.) |
| Requests.RequestsPage.SubmitRequestForm | src/pages/Dashboard/Requests/Requests.jsx:176-211 | A form the browser refuses (name or e-mail missing, e-mail invalid, days outside 1 to 365) changes nothing. Otherwise the handler runs: the modal opens for a non-blank name and a selection, and the fill-all error is set for the rest. |
| Requests.ConstraintsLeaveNameAndSelection | src/pages/Dashboard/Requests/Requests.jsx:191-197 | Once the browser has accepted the form, the e-mail is never blank, so only the trimmed name and the selection decide the handler's check. |
| HtmlForms.ValidEmailShape | src/pages/Dashboard/Requests/Requests.jsx:192 | An address the `email` input accepts has exactly one `@`, with text on both sides, and no white space. |
| HtmlForms.DomainIsPlain | src/pages/Dashboard/Requests/Requests.jsx:192 | A valid domain holds no `@` and no white space. |
| HtmlForms.EmailExamples | src/pages/Dashboard/Requests/Requests.jsx:192 | `a@b` passes the `email` check; `abc` and `@b` do not. |
| Requests.RequestsPage.CancelRequestModal | src/pages/Dashboard/Requests/Requests.jsx:319 | Closes the request modal only. |
| Requests.RequestsPage.SendTestimonialRequest | src/pages/Dashboard/Requests/Requests.jsx:78-105 | Posts the form's values. Success resets e-mail/name/selection/days to `''`/`''`/`[]`/30, refetches and clears the error. Failure keeps the form and sets the error. The modal closes and `isSending` is false either way. |
| Requests.RequestsPage.FetchRequests | src/pages/Dashboard/Requests/Requests.jsx:25-26 | Loading starts. |
| Requests.RequestsPage.FetchRequestsResponse | src/pages/Dashboard/Requests/Requests.jsx:27-44 | Success replaces the list and clears the error. Failure keeps it and sets the error. Loading ends. |
| Requests.RequestsPage.FetchQuestionsResponse | src/pages/Dashboard/Requests/Requests.jsx:48-57 | Success replaces the questions and leaves the error. Failure sets the error. |
| Requests.RequestsPage.ConfirmSendReminder | src/pages/Dashboard/Requests/Requests.jsx:119-122 | For a listed, not completed request, the reminder modal opens on its id. (See also lines 283-287.) |
| Requests.RequestsPage.CancelReminderModal | src/pages/Dashboard/Requests/Requests.jsx:337 | Hides the reminder modal and keeps the id. |
| Requests.RequestsPage.SendReminder | src/pages/Dashboard/Requests/Requests.jsx:125-150 | A falsy id does nothing at all. Otherwise success stamps the matching requests and clears the error, failure sets it, and the modal closes with the id cleared. |
| Questions.ReplaceText | src/pages/Dashboard/Questions/Questions.jsx:58-60 | Same length. Entries with the id get the new text; all others are unchanged. |
| Questions.ReplaceTextKeepsIds | src/pages/Dashboard/Questions/Questions.jsx:58-60 | An edit keeps the ids in order. |
| Questions.RemoveId | src/pages/Dashboard/Questions/Questions.jsx:99 | The filter never grows the list, and a list without that id comes back whole. |
| Questions.RemoveIdRemovesExactly | src/pages/Dashboard/Questions/Questions.jsx:99 | No entry with the id is left. Every other entry is kept with its multiplicity. |
| Questions.RemoveIdConcat | src/pages/Dashboard/Questions/Questions.jsx:99 | The filter keeps the relative order: it distributes over concatenation. |
| Questions.RemoveIdAbsent | src/pages/Dashboard/Questions/Questions.jsx:99 | Deleting an id the list lacks changes nothing. |
| Questions.RemoveIdKeepsUniqueIds | src/pages/Dashboard/Questions/Questions.jsx:99 | A delete keeps ids unique. |
| Questions.DeleteUndoesAdd | src/pages/Dashboard/Questions/Questions.jsx:99 | Deleting a just-added question with a fresh id gives back the earlier list. (See also line 68.) |
| Questions.QuestionsPage.constructor | src/pages/Dashboard/Questions/Questions.jsx:6-10 | Empty list and input, not editing, fetch in flight. (See also lines 41-43.) |
| Questions.QuestionsPage.SetNewQuestion | src/pages/Dashboard/Questions/Questions.jsx:126 | The input changes alone. |
| Questions.QuestionsPage.FetchQuestions | src/pages/Dashboard/Questions/Questions.jsx:13-14 | Loading starts. |
| Questions.QuestionsPage.FetchQuestionsResponse | src/pages/Dashboard/Questions/Questions.jsx:15-37 | Success installs the server's list. Failure installs the four sample questions, ids 1 to 4. In both cases the error ends null and loading ends. |
| Questions.QuestionsPage.HandleSubmit | src/pages/Dashboard/Questions/Questions.jsx:46-77 | A blank trimmed text changes and sends nothing. While editing, a success rewrites that id's text and leaves editing. Otherwise it appends the returned question. Success clears the input and the error. Failure keeps list, input and mode and sets the error. |
| Questions.QuestionsPage.SubmitQuestionForm | src/pages/Dashboard/Questions/Questions.jsx:120-130 | An empty text is refused by the browser: nothing is sent or changed. Any other text gets exactly the handler's contract. |
| Questions.QuestionsPage.HandleEdit | src/pages/Dashboard/Questions/Questions.jsx:80-83 | Starts editing that question with its text in the input. |
| Questions.QuestionsPage.HandleCancelEdit | src/pages/Dashboard/Questions/Questions.jsx:86-89 | Stops editing and empties the input. (See also lines 137-145.) |
| Questions.QuestionsPage.HandleDelete | src/pages/Dashboard/Questions/Questions.jsx:92-104 | A declined confirmation changes and sends nothing. Success removes exactly that id's entries. Failure keeps the list and sets the error. |
| ResetPassword.ValidationError | src/pages/ResetPassword/ResetPassword.jsx:30-47 | There is no error exactly when the password is non-empty, at least 6 characters and equal to the confirmation. Otherwise the first failing check is reported, in the order empty, too short, mismatch. |
| ResetPassword.ConfirmationCheckedLast | src/pages/ResetPassword/ResetPassword.jsx:30-47 | A password that is too short gets the same failure whatever the confirmation. |
| ResetPassword.ResetPage.constructor | src/pages/ResetPassword/ResetPassword.jsx:11-28 | A truthy link token is kept. Otherwise the invalid-link error is shown and there is no token. |
| ResetPassword.ResetPage.EditPasswords | src/pages/ResetPassword/ResetPassword.jsx:94-117 | The inputs exist only with a token and change alone. |
| ResetPassword.ResetPage.ValidateForm | src/pages/ResetPassword/ResetPassword.jsx:30-47 | Returns true exactly when no check fails. Otherwise the first failure becomes the error. |
| ResetPassword.ResetPage.HandleResetPassword | src/pages/ResetPassword/ResetPassword.jsx:49-81 | Error and message are cleared first. An invalid form calls nothing and shows its failure. Success shows the success message, clears both inputs and starts the redirect. Failure shows the message or the generic one. Loading ends. |
| ResetPassword.ResetPage.HandleResetPasswordAsWritten | src/pages/ResetPassword/ResetPassword.jsx:60 | As the file runs: a valid form always ends on `resetPassword is not a function`, keeps the inputs and never redirects. (See also lines 9 and 75-77.) |
| ResetPassword.ResetPage.RedirectTimerFires | src/pages/ResetPassword/ResetPassword.jsx:69-73 | Navigates to sign-in with the updated-password notice. |
| ResetPassword.MissingResetBlocksReset | src/pages/ResetPassword/ResetPassword.jsx:60 | A concrete valid reset: as written it ends on the error; the corrected handler shows success. (See also line 9.) |
| Sidebar.NavItems | src/components/Sidebar/Sidebar.jsx:14-45 | Six items, the first `/dashboard`, every path under `/dashboard`, no two paths alike. |
| Sidebar.IsActive | src/components/Sidebar/Sidebar.jsx:48-51 | The item's own path activates it, and an active item's path is a prefix of the pathname. |
| Sidebar.DashboardExactOnly | src/components/Sidebar/Sidebar.jsx:48-51 | `/dashboard` is active exactly on its own path. |
| Sidebar.SettingsMatchesWithoutBoundary | src/components/Sidebar/Sidebar.jsx:48-51 | `/dashboard/settingsX` and `/dashboard/settings/profile` both activate Settings. |
| Sidebar.ActiveIndex | src/components/Sidebar/Sidebar.jsx:14-51 | An independent description of the active item, by the letter after `/dashboard/`. The item it names is active. |
| Sidebar.ActiveIsIndex | src/components/Sidebar/Sidebar.jsx:14-51 | An item is active exactly when `ActiveIndex` names it. |
| Sidebar.AtMostOneActive | src/components/Sidebar/Sidebar.jsx:14-51 | Two active items for one pathname are the same item. |
| Sidebar.SidebarPanel.constructor | src/components/Sidebar/Sidebar.jsx:7 | The sidebar starts expanded. |
| Sidebar.SidebarPanel.ToggleSidebar | src/components/Sidebar/Sidebar.jsx:9-11 | `collapsed` flips, so two toggles restore it. |
| Header.DisplayInfoPriority | src/components/Header/Header.jsx:43-70 | A current user with a name wins. Otherwise a parsable stored user with a name is used. Otherwise the result is `U`/`User`. The initial is the name's first character upper-cased. |
| Header.UserDisplayInfo | src/components/Header/Header.jsx:43-70 | Always a non-empty name and a one-character initial, the name's first character upper-cased. |
| Header.CurrentUserWins | src/components/Header/Header.jsx:44-49 | With a named current user, the stored text makes no difference. |
| Header.HeaderMenu.constructor | src/components/Header/Header.jsx:9 | The menu starts closed, with no navigation. |
| Header.HeaderMenu.ToggleDropdown | src/components/Header/Header.jsx:39-41 | The menu flips open or closed. |
| Header.HeaderMenu.HandleSignOut | src/components/Header/Header.jsx:34-37 | Signs the session out and goes to `/`. The click also reaches the menu's own toggle, so the menu ends closed. The header then shows `U`/`User`. (See also lines 82 and 98.) |
| Testimonials.StatusBadgeClass | src/pages/Dashboard/Testimonials/Testimonials.jsx:41-52 | `pending`, `completed` and `expired` give `status-badge <status>`; anything else gives `status-badge`. |
| Testimonials.BadgeClassNamesStatus | src/pages/Dashboard/Testimonials/Testimonials.jsx:41-52 | The bare `status-badge` appears exactly for the statuses without a style of their own. |
| Testimonials.BadgeClassIsCaseSensitive | src/pages/Dashboard/Testimonials/Testimonials.jsx:41-52 | Differently cased statuses get the bare class. |
| Testimonials.CustomerCell | src/pages/Dashboard/Testimonials/Testimonials.jsx:110 | A truthy customer name is shown as it is; otherwise `—`. The cell is never empty. |
| Testimonials.ViewTarget | src/pages/Dashboard/Testimonials/Testimonials.jsx:120-138 | A link exists exactly for `completed`, to `/dashboard/testimonials/<id>`. |
| Testimonials.CompletedSpellingsDisagree | src/pages/Dashboard/Testimonials/Testimonials.jsx:120 | No status is both `completed` and the request page's `COMPLETED`. |
| Testimonials.TestimonialsPage.constructor | src/pages/Dashboard/Testimonials/Testimonials.jsx:9-11 | Empty list, fetch in flight. (See also lines 36-38.) |
| Testimonials.TestimonialsPage.FetchTestimonials | src/pages/Dashboard/Testimonials/Testimonials.jsx:15-16 | Refresh, only while idle, starts loading. (See also lines 59-63.) |
| Testimonials.TestimonialsPage.FetchTestimonialsResponse | src/pages/Dashboard/Testimonials/Testimonials.jsx:17-33 | Success replaces the list and clears the error. Failure sets the error. Loading ends. |
| TestimonialSubmit.CountdownNext | src/pages/TestimonialSubmit/TestimonialSubmit.jsx:66-73 | 1 goes to null, every other truthy value goes down by one, and a falsy value goes to null. |
| TestimonialSubmit.CountdownAfter | src/pages/TestimonialSubmit/TestimonialSubmit.jsx:65-74 | No countdown stays none. A countdown still showing after k firings shows its start minus k. |
| TestimonialSubmit.CountdownShowsEveryNumber | src/pages/TestimonialSubmit/TestimonialSubmit.jsx:63-75 | From n, firing k (k < n) shows n−k. |
| TestimonialSubmit.CountdownEnds | src/pages/TestimonialSubmit/TestimonialSubmit.jsx:63-75 | From n it shows 1 after n−1 firings and null after n. |
| TestimonialSubmit.CountdownAfterSplit | src/pages/TestimonialSubmit/TestimonialSubmit.jsx:65-74 | One more firing is one more step of the updater. |
| TestimonialSubmit.EntriesFor | src/pages/TestimonialSubmit/TestimonialSubmit.jsx:230-240 | A recording without a blob adds nothing. One with a blob adds three entries: its file, then its question id, then its colour. |
| TestimonialSubmit.VideoEntries | src/pages/TestimonialSubmit/TestimonialSubmit.jsx:230-243 | The video part comes in whole groups of three, at most three per recording. |
| TestimonialSubmit.CustomerFields | src/pages/TestimonialSubmit/TestimonialSubmit.jsx:246-249 | Four text entries, carrying name, title, testimonial id and token in that order. |
| TestimonialSubmit.BuildFormData | src/pages/TestimonialSubmit/TestimonialSubmit.jsx:224-249 | The loop builds the entries of every recording in order, then the four single values. |
| TestimonialSubmit.VideoEntriesLength | src/pages/TestimonialSubmit/TestimonialSubmit.jsx:230-243 | Three entries per recording with a blob; none without. |
| TestimonialSubmit.AlignedVideoEntries | src/pages/TestimonialSubmit/TestimonialSubmit.jsx:230-243 | When all have blobs, entries 3i, 3i+1 and 3i+2 are `video{i}.webm`, `questionIds[i]` and `bgColors[i]`, the colour defaulting to `#000000`. |
| TestimonialSubmit.PayloadEndsWithCustomerFields | src/pages/TestimonialSubmit/TestimonialSubmit.jsx:246-249 | The payload has 3·(blobs)+4 entries, ending with name, title, testimonialId and token. |
| TestimonialSubmit.CompletePayloadCoversQuestions | src/pages/TestimonialSubmit/TestimonialSubmit.jsx:230-249 | A completed wizard's payload has 3·(questions)+4 entries, and entry 3i+1 carries question i's id. (See also lines 139-146.) |
| TestimonialSubmit.RecordingSession.constructor | src/pages/TestimonialSubmit/TestimonialSubmit.jsx:22-38 | Step `info`, index 0, no recordings, colour `#000000`, nothing recording or previewed. |
| TestimonialSubmit.RecordingSession.SetCustomerName | src/pages/TestimonialSubmit/TestimonialSubmit.jsx:386-387 | Only the name changes. (See also line 27.) |
| TestimonialSubmit.RecordingSession.SetCustomerTitle | src/pages/TestimonialSubmit/TestimonialSubmit.jsx:398-399 | Only the title changes. (See also line 28.) |
| TestimonialSubmit.RecordingSession.StartRecordingProcess | src/pages/TestimonialSubmit/TestimonialSubmit.jsx:190-198 | A name that is blank after trimming sets the error and stays on `info`. Otherwise the step becomes `recording` and the error is cleared. |
| TestimonialSubmit.RecordingSession.SubmitInfoForm | src/pages/TestimonialSubmit/TestimonialSubmit.jsx:380-390 | An empty name is refused by the browser and changes nothing. A name of white space only reaches the handler and gets its error. Any other name moves the wizard to `recording`. |
| TestimonialSubmit.RecordingSession.StartCountdown | src/pages/TestimonialSubmit/TestimonialSubmit.jsx:63-65 | The countdown shows 3 and one more interval runs. (See also lines 458-460.) |
| TestimonialSubmit.RecordingSession.Tick | src/pages/TestimonialSubmit/TestimonialSubmit.jsx:65-107 | At 1 the interval is cleared and recording starts once: chunks cleared, `isRecording`, and a live recorder if a stream exists. Otherwise the countdown steps down. |
| TestimonialSubmit.RecordingSession.OnData | src/pages/TestimonialSubmit/TestimonialSubmit.jsx:91-95 | A fragment is collected exactly when its size is positive. |
| TestimonialSubmit.RecordingSession.OnStop | src/pages/TestimonialSubmit/TestimonialSubmit.jsx:97-104 | The collected fragments become `recordedChunks`, with the URL, and the preview shows. |
| TestimonialSubmit.RecordingSession.HandleStopRecording | src/pages/TestimonialSubmit/TestimonialSubmit.jsx:119-124 | Acts only on a live recorder: it stops it and clears `isRecording`. |
| TestimonialSubmit.RecordingSession.CeilingTimeout | src/pages/TestimonialSubmit/TestimonialSubmit.jsx:110-115 | The same, for the 5-minute timer. |
| TestimonialSubmit.RecordingSession.HandleAccept | src/pages/TestimonialSubmit/TestimonialSubmit.jsx:128-179 | No chunks: nothing changes. Otherwise exactly one recording of the current question is appended, the preview, URL and chunks are cleared, and the index advances, or on the last question the step completes and submission is scheduled. |
| TestimonialSubmit.RecordingSession.HandleRetake | src/pages/TestimonialSubmit/TestimonialSubmit.jsx:182-187 | Clears preview, URL and chunks; recordings and index unchanged. |
| TestimonialSubmit.RecordingSession.HandleSubmitAllVideos | src/pages/TestimonialSubmit/TestimonialSubmit.jsx:201-249 | An empty list sets `No recordings to submit.`, never processes and sends nothing. Otherwise processing starts and the payload is sent. |
| TestimonialSubmit.RecordingSession.SubmitTimerFires | src/pages/TestimonialSubmit/TestimonialSubmit.jsx:171-174 | Submits the list accepted last. |
| TestimonialSubmit.RecordingSession.SubmissionResponse | src/pages/TestimonialSubmit/TestimonialSubmit.jsx:256-273 | Success stores the URLs and sets success. Failure sets the message or the generic one. `isProcessing` is false after both. |

**`HandleAuthCallback`: the full contract.** It is stated per outcome.

- **Always:** loading ends, and the in-progress flag is set exactly for the `signup` action.
- **Early exit:** a fragment that fails to decode, or one without a truthy `access_token`, sets the error. It then writes nothing else, posts nothing and does not navigate.
- **Otherwise:** `googleAccessToken` is stored, then the request is posted, carrying the token and the action.
- **An answer without both user and token:** the error is `Authentication failed`, and no session is stored.
- **An accepted answer:** `token` and `user` are stored and the session is authenticated.
  - With `signup`, it also stages `googleUserData` (e-mail, names defaulting to `''`, `picture` = `avatar_url`), sets the flow flag and goes to `/signup` with `fromGoogle`, step 2.
  - With any other action, it clears the flow flag, removes the two Google keys and goes to `/dashboard`.

## Left out

**Inputs and effects**

- Browser media: camera and `MediaRecorder` are inputs. A stream is only a flag to `Tick`. Fragments are tagged sizes, and a blob is its list of fragments. Object URLs are opaque strings.
- HTTP: the backend is not in these files. Each call's answer is an input, and the request it would send is returned where the body matters.
- `console` logging is left out.
- `JSON`, `decodeURIComponent`, `URLSearchParams` and `Date` are inputs, as described above.
  - `Date` is given as numbers, so an invalid date (`NaN/NaN/NaN`) is not modelled.
  - `toLocaleDateString` in the testimonial table is the locale's and is left out.

**Timing**

- React batching and re-rendering: state writes are taken as immediate.
- React resolves each state setter through a state snapshot; the model resolves each handler at once. Two consequences:
  - a handler whose `await` spans another event has its stale-closure reads (`questions`, `requests`) not modelled;
  - `isSending` and `loading` are set and cleared within one step.
- The 100 ms delays before the OAuth callback navigates, and SignUp's 300 ms step animation, are collapsed. The navigation or step change happens at once.
- The 500 ms animation flag is left out.
- Timers of a recorder that a new recording replaced are not modelled. The interval count is kept, but a stale 5-minute timer firing against a later recorder is not.
- `TestimonialSubmit.RecordingSession.StartCountdown` requires that no earlier recorder is still stopping. The page does not check this; it only cannot happen within human reaction time.

**Pages, effects and state not modelled**

- The wizard's `fetchTestimonial` mount effect (`TestimonialSubmit.jsx:41-60`): the questions, testimonial id and link token are constructor inputs. Its loading and `submitting` flags and the `responses` object are unused by the handlers modelled.
- The wizard's colour picker is commented out in the source, so `bgColor` stays `#000000`. The `!recording.blob` guard in the payload loop cannot fail for recordings built by `handleAccept`; it is modelled in `EntriesFor` all the same.
- Routing, `ProtectedRoute`, `App.jsx`, the landing, dashboard, forgot-password, Google sign-in button and testimonial detail pages: markup or a single external call.
- SignUp's `message` state, the `location.state.message` cleanup (`SignUp.jsx:66-70`) and `progressPercentage` (floating point, display only) are left out.
- Requests: `parseInt` of the days input is taken as an integer input. `NaN`, from an emptied field, is not a value of the model. Such a field renders empty, so the browser's `required` check stops it, like a value outside `min`/`max` (`Requests.jsx:208-210`).
- The browser's constraint check runs on every submission, from the button or from Enter in a field. Three gates model it, each in front of its handler: `Requests.RequestsPage.SubmitRequestForm`, `Questions.QuestionsPage.SubmitQuestionForm` and `TestimonialSubmit.RecordingSession.SubmitInfoForm`. The handlers themselves (`HandleSubmitRequest`, `HandleSubmit`, `StartRecordingProcess`) stay as separate members for a submission the browser has let through.
- SignUp and ResetPassword have no constraint attributes on the fields present when they submit. In SignUp, Enter on step 2 submits the form, because that step has a single field and no submit button. `SignUp.SignUpPage.HandleSubmit` has no step requirement and covers that case. Enter on step 1 does nothing: that step has three fields and no submit button.
- An `email` input's value sanitization is not modelled: the browser strips line breaks and surrounding white space from the value. The model takes the e-mail as the text the handler reads. Addresses with non-ASCII domains are not modelled either.

**Strings**

- String lengths are counted in Unicode scalar values; JavaScript counts UTF-16 code units. This matters for the 6-character password rules and `charAt(0)` outside the Basic Multilingual Plane.
- `Header.UserDisplayInfo`: `toUpperCase` is modelled for ASCII letters only. Other characters are kept as they are.

## Findings

| source | as written | input that shows it | evidently intended | confidence | as-written member | corrected member |
|---|---|---|---|---|---|---|
| src/pages/AuthCallback/AuthCallback.jsx:12,61 | The page takes `setCurrentUser`, `setIsAuthenticated` and `setIsInGoogleSignupFlow` from the auth context, which exports none of them (`AuthContext.js:129-138`). After `token` and `user` are stored, line 61 throws, the catch shows `setCurrentUser is not a function`, and no navigation happens. | hash `#access_token=abc`, no stored action, backend answer with a user and token `jwt` | the session is set, the Google keys are cleaned up and the browser goes to `/dashboard` (or `/signup`, step 2) | high; not executed | AuthCallback.CallbackPage.HandleAuthCallbackAsWritten, AuthCallback.MissingSetterBlocksSignIn | AuthCallback.CallbackPage.HandleAuthCallback |
| src/pages/ResetPassword/ResetPassword.jsx:9,60 | The page calls `resetPassword` from the auth context, which has none. Every valid form reaches a call that throws, and the catch shows `resetPassword is not a function`. | link token `token`, password and confirmation `secret` | the reset is requested, the success message is shown, the inputs are cleared and sign-in follows | high; not executed | ResetPassword.ResetPage.HandleResetPasswordAsWritten, ResetPassword.MissingResetBlocksReset | ResetPassword.ResetPage.HandleResetPassword |
| src/pages/SignUp/SignUp.jsx:10,74 | The page takes `setError` from the auth context, which has none. The mount effect calls it, and the call throws before `setMessage('')`. With no error boundary in `App.jsx`, React unmounts the whole tree, leaving a blank page. | any visit to `/signup`, for example after a failed sign-in left `Authentication failed` as the session's error | the session's error from an earlier page is cleared and the page shows | high; not executed | SignUp.SignUpPage.MountEffectAsWritten, SignUp.MissingSetErrorBlocksMount | SignUp.SignUpPage.MountEffect |
