# Admin dashboard core, modelled in Dafny

This project models and proves properties of the logic inside a React admin dashboard
for an online shop. The dashboard has sign-in and verification pages, catalogue forms
and several list pages. The model covers five groups.

- **Bearer-token pipeline** (`token_pipeline.dfy`). This is the axios instance. Its
  request interceptor attaches the stored access token as a bearer credential, as
  section 2.1 of RFC 6750 describes. Its response interceptor does three things:
  - it unwraps successful bodies;
  - it answers a 401 on a protected URL with one silent refresh and one re-issue;
  - when the refresh fails, it clears the session and redirects to `/login`.

  `localStorage` is a map field of a `Pipeline` object and `window.location` is a
  pathname plus a log of redirects. The network is a script of replies that the caller
  chooses.
- **Route guard** (`route_guard.dfy`). `ProtectedRoute` shows a spinner, a redirect to
  `/sign-in` or the protected page.
- **Auth-form logic**:
  - `auth_form.dfy`: the `useAuthForm` hook, with its field validators, the e-mail
    pattern, the field list and the submit;
  - `auth_widgets.dfy`: the widgets of the shared `Auth` component, namely password
    strength, requirements, password match, the OTP boxes, the countdown banner and the
    resend button;
  - `otp.dfy`: the code buffer of `useOTP`;
  - `countdown.dfy`: `useCountdown`, as a class whose ticks are specified by pure
    functions;
  - `verify_pages.dfy`: the `VerifyEmail` and `VerifyResetCode` pages.
- **Catalogue forms**:
  - `category_forms.dfy`: the category add and sub-category add pages;
  - `slug.dfy`: the automatic slug;
  - `banner_form.dfy`: the home banner add page;
  - `product_form.dfy`: the product upload page;
  - `image_uploader.dfy`: `ImageUploader`;
  - `form_fields.dfy` and `seq_ops.dfy`: shared form state and list toggles.
- **List pages**:
  - `lists.dfy`: the search, select filters, 10-row paging with
    `Array.prototype.slice`, and status counts that all list pages share;
  - one module per page: `category_list.dfy`, `sub_list.dfy`, `customers.dfy`,
    `orders.dfy`, `product_list.dfy` and `banner_list.dfy`;
  - `pagination.dfy`, `status_badge.dfy` and `sidebar.dfy` for the components of the
    same names.

Form pages and hooks that update their state in place are modelled as classes whose
methods name what they modify. Rendering and other pure computations are functions.
The customer page's in-place `sort` keeps its `array`.

Some JavaScript behaviour is written out explicitly:

- truthiness of strings, where `""` and a missing key are both false;
- `String(undefined)`, which is why `url.includes(API_ENDPOINTS.RESEND_OTP)` looks for
  the text `"undefined"`: there is no `RESEND_OTP` entry;
- negative and clipped `slice` positions;
- `Math.ceil`;
- a template literal holding `undefined`.

## Model

| member | source | states |
|---|---|---|
| Text.Get | src/api/axiosConfig.js:16 | A stored key is found with its value; a missing key reads as absent (`localStorage.getItem`, and the form lookups `formData[key]`). |
| TokenPipeline.Bearer | src/api/axiosConfig.js:18 | The header value is `Bearer `, the scheme and one space (section 2.1 of RFC 6750), followed by exactly the token. |
| TokenPipeline.ExtractAccessToken | src/api/axiosConfig.js:67-71 | A truthy nested token wins; otherwise a truthy top-level token is used; there is no token exactly when both are falsy; a result is never empty. |
| TokenPipeline.TryRefresh | src/api/axiosConfig.js:56-71 | A falsy stored refresh token fails with "no refresh token". A non-2xx refresh reply fails the request. A refresh succeeds exactly when the token is present, the reply is 2xx and it carries an access token, and then it returns that token. |
| TokenPipeline.ClearSession | src/api/axiosConfig.js:81-83 | The access, refresh and user-info keys are gone; every other stored key keeps its value; no key is added. |
| TokenPipeline.LoginRedirect | src/api/axiosConfig.js:86-88 | No redirect happens exactly when the pathname contains `/login`; otherwise there is one redirect, to `/login`. |
| TokenPipeline.Request.constructor | src/api/axiosConfig.js:33 | A request starts with its URL and headers and without the retry mark. |
| TokenPipeline.Pipeline.constructor | src/api/axiosConfig.js:5-11 | The instance starts with the given storage and pathname and with empty logs. |
| TokenPipeline.Pipeline.AttachToken | src/api/axiosConfig.js:14-25 | With a truthy stored access token, `Authorization` becomes `Bearer <token>` and other headers are untouched. Without one, the headers are unchanged. |
| TokenPipeline.Pipeline.Unwrap | src/api/axiosConfig.js:29-31 | A successful reply resolves to its body alone. |
| TokenPipeline.Pipeline.OnError | src/api/axiosConfig.js:32-95 | Non-401 errors, retried requests and auth endpoints are rejected unchanged, with nothing touched. Otherwise the request is marked retried, and a refresh POST is sent exactly when a truthy refresh token is stored. On success only the access token changes in storage, the request gets the new bearer header, and a re-issue is asked for. On failure the session keys are cleared, a redirect to `/login` is made unless the pathname contains `/login`, and the call rejects with the refresh error. |
| TokenPipeline.Pipeline.Call | src/api/axiosConfig.js:14-96 | A 2xx resolves to its body after one send, with nothing else changed. The first send goes to the request's URL, after the sends before it; it carries the stored bearer token when a truthy one is stored, and otherwise the request's own headers unchanged. A non-refreshable error comes back unchanged. A failed refresh clears the session, redirects unless on `/login`, and rejects with the refresh error. A successful refresh re-issues once to the same URL with the new bearer header, and returns the re-issue's own outcome. At most one refresh POST happens per call. |
| TokenPipeline.RefreshPathIsAuthEndpoint | src/api/axiosConfig.js:37-50 | A 401 on the refresh URL never starts another refresh. |
| TokenPipeline.UndefinedInUrlIsAuthEndpoint | src/api/axiosConfig.js:41 | Any URL containing "undefined" counts as an auth endpoint, because the missing constant is converted to that text. |
| TokenPipeline.NotAuthEndpointWithoutTermLetters | src/api/axiosConfig.js:37-45 | A URL with none of the letters g, h, v, n or w is never an auth endpoint. |
| TokenPipeline.ProfileIsProtected | src/config/constants.js:15 | The profile URL is not an auth endpoint, so a 401 on it is silently refreshed. |
| TokenPipeline.ScenarioSilentRefresh | src/api/axiosConfig.js:53-76 | A 401, then a refresh returning a new token, then a 200: the caller gets the body, the re-issue carries the new bearer header and the new token is stored. |
| TokenPipeline.ScenarioLoginRejected | src/api/axiosConfig.js:36-50 | A 401 from the login URL reaches the caller unchanged, with no refresh POST. |
| TokenPipeline.ScenarioRefreshFails | src/api/axiosConfig.js:77-91 | A failed refresh rejects with the refresh error, keeps only the reset token in storage, and redirects once to `/login`. |
| RouteGuard.Guard | src/components/ProtectedRoute/index.jsx:9-26 | Loading gives the spinner. Not loading and signed out gives a replace-redirect to `/sign-in` carrying the location. Signed in gives the children. |
| RouteGuard.SpinnerIgnoresAuthentication | src/components/ProtectedRoute/index.jsx:9-20 | While loading, the outcome does not depend on the authentication flag. |
| RouteGuard.OutcomesPartitionFlags | src/components/ProtectedRoute/index.jsx:9-26 | Each pair of flags gets exactly one of the three outcomes, and the children show only when signed in and not loading. |
| CountdownHook.Settle | src/hooks/useCountdown/index.jsx:11-13 | The effect switches off a counter at zero and keeps the count; a settled state is kept as is. |
| CountdownHook.Initial | src/hooks/useCountdown/index.jsx:3-5 | The counter starts at the initial time, switched off. |
| CountdownHook.StartAt | src/hooks/useCountdown/index.jsx:17-20 | The count is the given time; the counter runs exactly when the time is positive. |
| CountdownHook.Step | src/hooks/useCountdown/index.jsx:7-15 | A running positive counter loses one second, and anything else keeps its count. The counter never grows, and it keeps running only above one. |
| CountdownHook.StepsRunning | src/hooks/useCountdown/index.jsx:8-13 | After n seconds a running counter shows max(0, count - n), and it is still running exactly when n is below the count. |
| CountdownHook.StepsIdle | src/hooks/useCountdown/index.jsx:7-15 | A switched-off counter never changes. |
| CountdownHook.StepsNonIncreasing | src/hooks/useCountdown/index.jsx:7-15 | Between starts and resets the count never goes up. |
| CountdownHook.ExpiresAfterItsTime | src/hooks/useCountdown/index.jsx:7-20 | A start at t reaches 0 and switches off after exactly t seconds, and it is positive before then. |
| CountdownHook.FormatTime | src/hooks/useCountdown/index.jsx:27-31 | The text is the digits of the minutes, with no leading zero, then a colon and two digits of the remaining seconds. |
| CountdownHook.FormatTimeRoundTrip | src/hooks/useCountdown/index.jsx:27-31 | Reading the minutes and seconds back gives the original number of seconds. |
| CountdownHook.Countdown.constructor | src/hooks/useCountdown/index.jsx:3-5 | The hook starts in the initial state. |
| CountdownHook.Countdown.Start | src/hooks/useCountdown/index.jsx:17-20 | The state becomes `StartAt` of the given time, or of the initial time by default. |
| CountdownHook.Countdown.Reset | src/hooks/useCountdown/index.jsx:22-25 | The state returns to the initial state. |
| CountdownHook.Countdown.Tick | src/hooks/useCountdown/index.jsx:7-15 | One second moves the state by `Step`. |
| CountdownHook.Countdown.IsExpired | src/hooks/useCountdown/index.jsx:36 | Expired exactly at zero. |
| CountdownHook.Countdown.Formatted | src/hooks/useCountdown/index.jsx:37 | The displayed text is `FormatTime` of the count. |
| OtpBuffer.Empty | src/hooks/useOTP/index.jsx:4 | The buffer has the given number of boxes, all empty. |
| OtpBuffer.Split | src/components/Auth/index.jsx:301 | Each character of the pasted text gets a box of its own. |
| OtpBuffer.ValueOfSingles | src/hooks/useOTP/index.jsx:7 | Boxes of one character each join into the string of those characters. |
| OtpBuffer.SplitRoundTrip | src/components/Auth/index.jsx:301-305 | Joining the split boxes gives back the pasted text, and the buffer is complete. |
| OtpBuffer.ValueOfEmpty | src/hooks/useOTP/index.jsx:7-9 | Empty boxes join into the empty string. |
| OtpBuffer.ResetIsIncomplete | src/hooks/useOTP/index.jsx:6-9 | After a reset, a buffer with at least one box is incomplete and its value is empty. |
| OtpBuffer.CompleteValueLength | src/hooks/useOTP/index.jsx:6-7 | A complete buffer joins into at least one character per box. |
| AuthWidgets.StrengthScore | src/components/Auth/index.jsx:412-420 | The score is the number of the five criteria met, so at most 5. |
| AuthWidgets.StrengthLabel | src/components/Auth/index.jsx:428-432 | Weak below 2, Medium from 2 to 3, Strong from 4 on; the three bands do not overlap. |
| AuthWidgets.StrengthColors | src/components/Auth/index.jsx:422-426 | The bar and text colours follow the same three bands. |
| AuthWidgets.StrengthView | src/components/Auth/index.jsx:434 | Nothing is shown exactly for an empty password; otherwise the label of the score is shown. |
| AuthWidgets.Requirements | src/components/Auth/index.jsx:457-463 | Four rows, each met exactly when its own test holds. |
| AuthWidgets.RequirementsMetMeansStrong | src/components/Auth/index.jsx:412-463 | Meeting all four listed requirements always gives a Strong score. |
| AuthWidgets.ScoreCountsRequirements | src/components/Auth/index.jsx:412-463 | The score is the number of met requirements, plus one for 12 characters or more. |
| AuthWidgets.PasswordMatch | src/components/Auth/index.jsx:488-491 | Nothing is shown for an empty confirmation; otherwise it shows whether the two passwords are equal. |
| AuthWidgets.TypeDigit | src/components/Auth/index.jsx:270-287 | Input keeps its first character. A non-digit changes nothing. Otherwise only that box changes. Focus moves on after a digit in boxes 0-4. Completion fires, with the joined value, exactly when every box is filled. |
| AuthWidgets.Paste | src/components/Auth/index.jsx:295-306 | Only six ASCII digits after trimming are accepted; they fill the six boxes one each, focus the last box and complete with the trimmed text. |
| AuthWidgets.LastDigitCompletes | src/components/Auth/index.jsx:283-286 | Typing a digit into the only empty box completes the code. |
| AuthWidgets.ClearingABoxNeverCompletes | src/components/Auth/index.jsx:270-286 | Clearing a box is accepted, never completes the code, and does not move the focus. |
| AuthWidgets.CountdownView | src/components/Auth/index.jsx:340-360 | The expired banner shows exactly at zero; otherwise `m:ss`, with the warning exactly below the threshold. |
| AuthWidgets.ResendButton | src/components/Auth/index.jsx:390-402 | Disabled exactly while the countdown is positive, when the caption adds "in Ns". |
| AuthWidgets.ResendLabelShowsState | src/components/Auth/index.jsx:402 | The caption is the bare text exactly when the button is enabled. |
| AuthForm.ValidateEmail | src/hooks/useAuthForm/index.jsx:26-28 | True exactly for strings of the form local@domain.tld, where no part is empty and none contains a space or '@'. |
| AuthForm.ScanIffPattern | src/hooks/useAuthForm/index.jsx:26-28 | The first-'@' scan accepts exactly the strings that `/^[^\s@]+@[^\s@]+\.[^\s@]+$/` matches, in both directions. |
| AuthForm.FullNameError | src/hooks/useAuthForm/index.jsx:33-39 | The full name is required first, then at least 3 characters; no error exactly when both hold. |
| AuthForm.EmailError | src/hooks/useAuthForm/index.jsx:41-47 | The e-mail is required first, then the pattern; no error exactly when both hold. |
| AuthForm.PhoneError | src/hooks/useAuthForm/index.jsx:49-55 | The phone is required first, then 10 or 11 ASCII digits. |
| AuthForm.PasswordError | src/hooks/useAuthForm/index.jsx:57-63 | The password is required first, then at least 6 characters. |
| AuthForm.ConfirmError | src/hooks/useAuthForm/index.jsx:65-71 | The confirmation is required first, then equality with the password; an absent password never matches. |
| AuthForm.CollectSpec | src/hooks/useAuthForm/index.jsx:30-73 | A field gets an entry exactly when it is listed and its check fails, and the entry is that check's message. |
| AuthForm.ErrorsSpec | src/hooks/useAuthForm/index.jsx:30-73 | Each of the five fields has an error exactly when it is listed and its check fails. |
| AuthForm.UnknownFieldNoError | src/hooks/useAuthForm/index.jsx:30-71 | A name other than the five never gets an error. |
| AuthForm.UnlistedFieldNoError | src/hooks/useAuthForm/index.jsx:33-71 | A field missing from the list never gets an error, whatever its value. |
| AuthForm.ValidIffListedChecksPass | src/hooks/useAuthForm/index.jsx:73-74 | Validation passes exactly when every listed field's check passes. |
| AuthForm.DefaultChecksEmailAndPassword | src/hooks/useAuthForm/index.jsx:30 | With the default list, full name, phone and confirmation are never reported. |
| AuthForm.MatchingPasswordsPass | src/hooks/useAuthForm/index.jsx:57-71 | Equal password and confirmation of 6 characters or more pass both checks. |
| AuthForm.AuthFormState.constructor | src/hooks/useAuthForm/index.jsx:6-12 | The form data is an empty e-mail and password overridden by the initial values; there are no errors and loading is off. |
| AuthForm.AuthFormState.HandleChange | src/hooks/useAuthForm/index.jsx:16-24 | The field takes the value; only a truthy error on that field is blanked. |
| AuthForm.AuthFormState.Validate | src/hooks/useAuthForm/index.jsx:30-75 | The errors become exactly the errors of the given field list (e-mail and password by default), and the result is true exactly when there are none. |
| AuthForm.AuthFormState.HandleSubmit | src/hooks/useAuthForm/index.jsx:77-82 | Errors block the submit. A clean form starts loading and schedules a redirect to `redirectTo`, which defaults to `/`. |
| AuthForm.AuthFormState.FinishSubmit | src/hooks/useAuthForm/index.jsx:85-88 | The scheduled redirect happens once and loading ends. |
| VerifyPages.EmailFromState | src/pages/VerifyEmail/index.jsx:12 | The e-mail in the location state if it is truthy, else "". |
| VerifyPages.VerifyErrorMessage | src/pages/VerifyResetCode/index.jsx:83-93 | 400 gives the server's message or "Invalid verification code". 404 and 410 give fixed texts. Anything else gives the server's message, if any, else the default. |
| VerifyPages.ResendErrorMessage | src/pages/VerifyResetCode/index.jsx:127-133 | 429 gives its fixed text; otherwise the server's message, if any, else the default. |
| VerifyPages.ErrorMessagesNonEmpty | src/pages/VerifyResetCode/index.jsx:83-133 | Every failure sets a non-empty error message. |
| VerifyPages.ServerMessageShownUnlessFixed | src/pages/VerifyResetCode/index.jsx:83-133 | A server message is the verification text exactly when the status is not 404 or 410, or when it equals their fixed text. It is the resend text whenever the status is not 429. |
| VerifyPages.VerifyEmailPage.constructor | src/pages/VerifyEmail/index.jsx:12-19 | The page starts with six empty boxes, the 600 s and 60 s timers idle, and no error. |
| VerifyPages.VerifyEmailPage.Mount | src/pages/VerifyEmail/index.jsx:21-28 | Without an e-mail the page goes to `/forgot-password`. Otherwise the code timer starts at 600 s and the resend timer is untouched. |
| VerifyPages.VerifyEmailPage.MountCorrected | src/pages/VerifyEmail/index.jsx:21-28 | As `Mount`, and the resend cooldown starts at 60 s too. |
| VerifyPages.VerifyEmailPage.Tick | src/pages/VerifyEmail/index.jsx:15-16 | One second steps both timers. |
| VerifyPages.VerifyEmailPage.EnterDigit | src/pages/VerifyEmail/index.jsx:95-101 | The boxes ignore input while loading or expired; otherwise they change as `TypeDigit` says. |
| VerifyPages.VerifyEmailPage.HandleSubmit | src/pages/VerifyEmail/index.jsx:30-56 | An incomplete code, then an expired one, show their messages and change nothing else. The mock code navigates to `/reset-password` with the e-mail marked verified. Any other complete code shows the error and empties the boxes. |
| VerifyPages.VerifyEmailPage.HandleResend | src/pages/VerifyEmail/index.jsx:58-68 | Ignored while the cooldown is positive. Otherwise it clears the error and the boxes and restarts both timers. |
| VerifyPages.VerifyEmailResendAsWritten | src/pages/VerifyEmail/index.jsx:21-64 | After mount, however long one waits, the cooldown still shows 60 and the resend is refused. |
| VerifyPages.VerifyEmailResendCorrected | src/pages/VerifyEmail/index.jsx:58-64 | With the cooldown started on mount, the resend is accepted exactly from the 60th second on. |
| VerifyPages.VerifyResetCodePage.constructor | src/pages/VerifyResetCode/index.jsx:12-24 | The e-mail and the `fromForgotPassword` flag are read from the location state; the boxes are empty and the timers idle. |
| VerifyPages.VerifyResetCodePage.GuardEffect | src/pages/VerifyResetCode/index.jsx:33-42 | Without the e-mail or the flag, a toast and a replace-navigation to `/forgot-password`. Otherwise both timers start at 600 s and 60 s. |
| VerifyPages.VerifyResetCodePage.Mount | src/pages/VerifyResetCode/index.jsx:26-42 | A signed-in user is sent home first; then the guard effect runs. |
| VerifyPages.VerifyResetCodePage.Tick | src/pages/VerifyResetCode/index.jsx:33-42 | As written, a second steps both timers and the re-render re-runs the guard effect. On a valid visit that restarts both timers. |
| VerifyPages.VerifyResetCodePage.TickCorrected | src/pages/VerifyResetCode/index.jsx:33-42 | With the effect depending only on the location state, a second just steps both timers. |
| VerifyPages.VerifyResetCodePage.HandleSubmit | src/pages/VerifyResetCode/index.jsx:44-104 | The server is called exactly for a complete code before expiry. Success toasts and schedules `/reset-password` with the reset token. Failure shows and toasts `VerifyErrorMessage` and resets the boxes. Loading always ends. |
| VerifyPages.VerifyResetCodePage.HandleResend | src/pages/VerifyResetCode/index.jsx:106-142 | Accepted exactly when the cooldown is 0. Success toasts, resets the boxes and restarts both timers. Failure toasts `ResendErrorMessage`, and the boxes and timers are kept. |
| VerifyPages.ResetCodeTimersAsWritten | src/pages/VerifyResetCode/index.jsx:33-42 | As written, after any number of seconds the code shows 600 and the cooldown 60, and a resend is refused. |
| VerifyPages.ResetCodeTimersCorrected | src/pages/VerifyResetCode/index.jsx:33-42 | With the effect run once, a resend is accepted exactly from the 60th second. A complete code reaches the server during the first minute, and after 600 s it is refused as expired without a server call. |
| Slug.CollapseRuns | src/pages/Categories/Add/index.jsx:98 | The result holds only [a-z0-9-] and no doubled hyphen. It is empty exactly for an empty input, and starts with a hyphen exactly when the input starts outside [a-z0-9]. |
| Slug.TrimHyphens | src/pages/Categories/Add/index.jsx:99 | With the edge hyphens removed, the result keeps the alphabet and the no-doubled-hyphen property and has no edge hyphen; a string without edge hyphens is kept as it is. |
| Slug.Slugify | src/pages/Categories/Add/index.jsx:95-100 | The generated slug is lower-case [a-z0-9-] with no doubled or edge hyphen. |
| Slug.NonEmptySlugPassesFormat | src/pages/Categories/Add/index.jsx:95-147 | A non-empty generated slug always passes the page's slug format check. |
| Slug.AlnumNameIsItsOwnSlug | src/pages/Categories/Add/index.jsx:96-99 | A lower-case alphanumeric name is its own slug. |
| Slug.SlugifyIdempotent | src/pages/Categories/Add/index.jsx:96-99 | Slugging a slug changes nothing. |
| Slug.SlugIgnoresCase | src/pages/Categories/Add/index.jsx:97 | Names that differ only in ASCII case get the same slug. |
| SeqOps.Without | src/pages/Products/Upload/index.jsx:104 | The value is gone, every other value stays exactly as present as before, and a list without the value is unchanged. |
| SeqOps.Toggle | src/pages/Products/Upload/index.jsx:100-107 | The value is removed if present and appended if absent; other values are unchanged. |
| SeqOps.RemoveAt | src/pages/Products/Upload/index.jsx:135-137 | Drops the entry at the index and keeps the others in order; an index out of range changes nothing. |
| SeqOps.WithoutKeepsNoDuplicates | src/pages/Products/Upload/index.jsx:104 | Removing a value from a duplicate-free list leaves it duplicate-free. |
| SeqOps.ToggleKeepsNoDuplicates | src/pages/Products/Upload/index.jsx:100-117 | Toggling keeps the colour and size lists duplicate-free. |
| SeqOps.WithoutSingle | src/pages/Products/Upload/index.jsx:104 | In a duplicate-free list, removing a present value leaves the list with that one entry cut out. |
| SeqOps.ToggleTwice | src/pages/Products/Upload/index.jsx:100-107 | Toggling an absent value twice restores the list exactly; toggling a present value twice moves it to the end. |
| FormFields.NewValue | src/pages/Categories/Add/index.jsx:91 | A checkbox stores its checked flag; any other input stores its text. |
| FormFields.SetField | src/pages/Categories/Add/index.jsx:87-92 | Only the named field changes, to the event's value. |
| FormFields.ClearError | src/pages/Categories/Add/index.jsx:104-106 | A truthy error on the field is blanked; nothing else changes. |
| FormFields.ImageOf | src/pages/Categories/Add/index.jsx:115-119 | A preview keeps the file and its name. |
| FormFields.ProgressStep | src/pages/Categories/Add/index.jsx:170-178 | Progress rises by 10 below 100 and stays at 100 from then on. |
| FormFields.ProgressFromZero | src/pages/Categories/Add/index.jsx:170-178 | After n ticks from zero the bar shows min(10n, 100). |
| ImageUploader.MaxImages | src/components/ImageUploader/index.jsx:8 | The limit is the given prop, or 5 by default. |
| ImageUploader.HandleFileChange | src/components/ImageUploader/index.jsx:14-23 | More files than the free slots raise the limit alert and upload nothing; otherwise every file is passed on. |
| ImageUploader.ExactlyFullIsAllowed | src/components/ImageUploader/index.jsx:17 | Filling the free slots exactly is allowed, and one file more is refused. |
| ImageUploader.SingleSlot | src/components/ImageUploader/index.jsx:17-22 | With a limit of 1, a non-empty selection is uploaded exactly when no image is present and it holds one file. |
| ImageUploader.RemoveButtons | src/components/ImageUploader/index.jsx:65-74 | One remove button per preview, each passing its own index. |
| CategoryForms.ParentFromQuery | src/pages/Categories/SubAdd/index.jsx:20-29 | The parent is the `parent` parameter, or "" when it is missing or empty. |
| CategoryForms.InitialForm | src/pages/Categories/Add/index.jsx:21-35 | The name and slug start empty; the parent starts as the query's parent on the sub page and empty on the category page. |
| CategoryForms.ChangeForm | src/pages/Categories/Add/index.jsx:87-107 | The field takes the event's value. A non-empty name also sets the slug to its slug. An emptied name leaves the slug alone. |
| CategoryForms.ErrorsInOrderAreFieldErrors | src/pages/Categories/Add/index.jsx:134-155 | The checks, run in order with later ones overwriting, leave on each field exactly its `FieldError` and nothing elsewhere. |
| CategoryForms.GeneratedSlugIsAccepted | src/pages/Categories/Add/index.jsx:95-147 | After typing a name, the slug field has no error exactly when the name's slug is non-empty, and otherwise has the required-slug error. |
| CategoryForms.ClearingNameKeepsSlug | src/pages/Categories/Add/index.jsx:95 | Emptying the name keeps the previous slug. |
| CategoryForms.SeoDescriptionBoundary | src/pages/Categories/Add/index.jsx:150-152 | 160 characters pass and 161 fail with the length message. |
| CategoryForms.ParentRequiredOnlyOnSubPage | src/pages/Categories/SubAdd/index.jsx:189 | An empty parent is an error on the sub-category page and never on the category page. |
| CategoryForms.CategoryForm.constructor | src/pages/Categories/Add/index.jsx:18-36 | The page starts with the initial form, no image, no errors and loading off. |
| CategoryForms.CategoryForm.HandleChange | src/pages/Categories/Add/index.jsx:87-107 | The form becomes `ChangeForm` of the event; only that field's error is blanked. |
| CategoryForms.CategoryForm.HandleImageUpload | src/pages/Categories/Add/index.jsx:110-126 | The first selected file becomes the only image and the image error is blanked; an empty selection changes nothing. |
| CategoryForms.CategoryForm.SelectFiles | src/pages/Categories/Add/index.jsx:397 | Too many files alert with the limit message and change nothing; otherwise a non-empty selection makes its first file the only image. The list stays within the limit. |
| CategoryForms.CategoryForm.HandleRemoveImage | src/pages/Categories/Add/index.jsx:129-131 | The image list empties, whatever index is passed. |
| CategoryForms.CategoryForm.Validate | src/pages/Categories/Add/index.jsx:134-155 | The result is exactly the field errors of the current form and image count. |
| CategoryForms.CategoryForm.SubmitTarget | src/pages/Categories/SubAdd/index.jsx:234 | The category page goes to `/categories`; the sub page goes to the parent's sub-list. |
| CategoryForms.CategoryForm.HandleSubmit | src/pages/Categories/Add/index.jsx:158-186 | The submit goes ahead exactly when no field has an error, and then loading starts and the return page is scheduled. Otherwise the shown errors are exactly the field errors and nothing else changes. A submit on the sub page always has a parent. |
| CategoryForms.CategoryForm.ProgressTick | src/pages/Categories/Add/index.jsx:170-178 | One interval tick moves the progress by `ProgressStep`. |
| CategoryForms.CategoryForm.FinishUpload | src/pages/Categories/Add/index.jsx:181-185 | A pending submit navigates once, ends loading and zeroes the progress. |
| BannerForm.InitialForm | src/pages/HomeSlidesBanners/Add/index.jsx:22-38 | Every validated field starts empty. |
| BannerForm.SameDayIsNotEarlier | src/pages/HomeSlidesBanners/Add/index.jsx:126 | A banner ending on its start day passes the date order. |
| BannerForm.EarlierIsTotal | src/pages/HomeSlidesBanners/Add/index.jsx:126 | Of two different dates, exactly one is earlier. |
| BannerForm.ErrorsInOrderAreFieldErrors | src/pages/HomeSlidesBanners/Add/index.jsx:112-137 | The required checks, then the date order, then the link prefix, run in order with later ones overwriting, leave on each field exactly its `FieldError` and nothing elsewhere. |
| BannerForm.DateOrderNeedsBothDates | src/pages/HomeSlidesBanners/Add/index.jsx:125-129 | The date-order error needs both dates present, and an end date equal to the start date never gets an error. |
| BannerForm.LinkPrefixes | src/pages/HomeSlidesBanners/Add/index.jsx:132-134 | Links starting with `/` or `http` have no link error. |
| BannerForm.BannerFormPage.constructor | src/pages/HomeSlidesBanners/Add/index.jsx:18-39 | The page starts with the initial form, no image, the preview off and no errors. |
| BannerForm.BannerFormPage.HandleChange | src/pages/HomeSlidesBanners/Add/index.jsx:76-85 | The named field takes the value and its truthy error is blanked. |
| BannerForm.BannerFormPage.HandleImageUpload | src/pages/HomeSlidesBanners/Add/index.jsx:88-104 | The first file becomes the only banner image and the image error is blanked. |
| BannerForm.BannerFormPage.SelectFiles | src/pages/HomeSlidesBanners/Add/index.jsx:378-386 | Too many files alert with the limit message and change nothing; otherwise a non-empty selection makes its first file the only banner image. |
| BannerForm.BannerFormPage.HandleRemoveImage | src/pages/HomeSlidesBanners/Add/index.jsx:107-109 | The banner image is removed. |
| BannerForm.BannerFormPage.PreviewEnabled | src/pages/HomeSlidesBanners/Add/index.jsx:186 | The preview button is enabled exactly with an image. |
| BannerForm.BannerFormPage.PreviewVisible | src/pages/HomeSlidesBanners/Add/index.jsx:482 | The modal shows exactly while the preview is on and there is an image. |
| BannerForm.BannerFormPage.TogglePreview | src/pages/HomeSlidesBanners/Add/index.jsx:171-173 | The preview flag flips exactly while there is an image, and is kept otherwise. |
| BannerForm.BannerFormPage.Validate | src/pages/HomeSlidesBanners/Add/index.jsx:112-137 | The result is exactly the field errors of the form and image count. |
| BannerForm.BannerFormPage.HandleSubmit | src/pages/HomeSlidesBanners/Add/index.jsx:140-168 | The submit goes ahead exactly when no field has an error, and then loading starts and `/home-banners` is scheduled. Otherwise the shown errors are exactly the field errors. |
| BannerForm.BannerFormPage.ProgressTick | src/pages/HomeSlidesBanners/Add/index.jsx:152-160 | One interval tick moves the progress by `ProgressStep`. |
| BannerForm.BannerFormPage.FinishUpload | src/pages/HomeSlidesBanners/Add/index.jsx:163-167 | A pending submit navigates once, ends loading and zeroes the progress. |
| ProductForm.InitialForm | src/pages/Products/Upload/index.jsx:22-40 | Every required text field starts empty, `featured` is false and the status is `draft`. |
| ProductForm.CategoryNamesAreTheKeys | src/pages/Products/Upload/index.jsx:44-60 | The category options are exactly the keys of `categories`, without repeats, and each key has sub-categories. |
| ProductForm.SubCategoryOptions | src/pages/Products/Upload/index.jsx:63-68 | No category gives no options. A listed category gives its own list. An unlisted one is the lookup that throws. |
| ProductForm.CategoryChange | src/pages/Products/Upload/index.jsx:90-97 | The category is set and the sub-category emptied; nothing else changes. |
| ProductForm.OfferedCategoryHasOptions | src/pages/Products/Upload/index.jsx:57-68 | Choosing any offered category shows exactly its sub-categories and never throws. |
| ProductForm.ErrorsInOrderAreFieldErrors | src/pages/Products/Upload/index.jsx:140-152 | The checks leave on each field exactly its required-field error. |
| ProductForm.CategoryChangeRequiresSubCategory | src/pages/Products/Upload/index.jsx:90-97 | After a category change the sub-category is always an error, and the category is an error exactly when it was set empty. |
| ProductForm.ImagesOf | src/pages/Products/Upload/index.jsx:120-132 | One preview per file, in selection order. |
| ProductForm.ProductFormPage.constructor | src/pages/Products/Upload/index.jsx:17-41 | The page starts with the initial form, no colours, sizes, images or errors, and duplicate-free lists. |
| ProductForm.ProductFormPage.SubCategorySelect | src/pages/Products/Upload/index.jsx:63-68 | The select shows `SubCategoryOptions` of the current form. |
| ProductForm.ProductFormPage.HandleChange | src/pages/Products/Upload/index.jsx:78-87 | The named field takes the value and its truthy error is blanked. |
| ProductForm.ProductFormPage.HandleCategoryChange | src/pages/Products/Upload/index.jsx:90-97 | The form becomes `CategoryChange` of it; the errors are left as they are. |
| ProductForm.ProductFormPage.HandleColorToggle | src/pages/Products/Upload/index.jsx:100-107 | The colours are toggled and stay duplicate-free. |
| ProductForm.ProductFormPage.HandleSizeToggle | src/pages/Products/Upload/index.jsx:110-117 | The sizes are toggled and stay duplicate-free. |
| ProductForm.ProductFormPage.HandleImageUpload | src/pages/Products/Upload/index.jsx:120-132 | One preview per file is appended, in order. |
| ProductForm.ProductFormPage.SelectFiles | src/pages/Products/Upload/index.jsx:367-375 | Too many files alert with the limit message and change nothing; otherwise every file is appended as a preview. The list stays within 5. |
| ProductForm.ProductFormPage.HandleRemoveImage | src/pages/Products/Upload/index.jsx:135-137 | The image at the index is removed and the others keep their order. |
| ProductForm.ProductFormPage.Validate | src/pages/Products/Upload/index.jsx:140-152 | The result is exactly the field errors of the form and image count. |
| ProductForm.ProductFormPage.HandleSubmit | src/pages/Products/Upload/index.jsx:155-182 | The submit goes ahead exactly when no field has an error, and then loading starts and `/products` is scheduled. Otherwise the shown errors are exactly the field errors. |
| ProductForm.ProductFormPage.ProgressTick | src/pages/Products/Upload/index.jsx:166-174 | One interval tick moves the progress by `ProgressStep`. |
| ProductForm.ProductFormPage.FinishUpload | src/pages/Products/Upload/index.jsx:177-181 | A pending submit navigates once, ends loading and zeroes the progress. |
| ProductForm.ProductFormPage.Cancel | src/pages/Products/Upload/index.jsx:424 | Cancel navigates to `/products`. |
| Lists.AnyFieldMatchesIff | src/pages/Categories/List/index.jsx:400-403 | The `||` chain holds exactly when some field contains the term. |
| Lists.EmptySearchMatches | src/pages/Categories/List/index.jsx:400-403 | The empty search keeps every row. |
| Lists.CaseInsensitiveIgnoresTermCase | src/pages/Categories/List/index.jsx:401 | The case of the search term does not matter for a case-insensitive field. |
| Lists.Filter | src/pages/Categories/List/index.jsx:399-409 | An element is in the result exactly when it is in the input and kept, and a kept value occurs in the result as often as in the input. The result is a subsequence, no longer than the input, and equal to it when all are kept. |
| Lists.CountOf | src/pages/Categories/List/index.jsx:452 | The count is the number of occurrences of the value, at most the length. |
| Lists.SumCountsAtMostLength | src/pages/Orders/index.jsx:204-210 | Counts of distinct statuses never add up to more than the rows. |
| Lists.ThreeCountsAtMostLength | src/pages/HomeSlidesBanners/List/index.jsx:188-213 | Three distinct status counts add up to at most the rows. |
| Lists.FourCountsAtMostLength | src/pages/Orders/index.jsx:204-210 | Four distinct status counts add up to at most the rows. |
| Lists.TotalPages | src/pages/Categories/List/index.jsx:414 | The smallest page count that holds every row at 10 per page; 0 exactly for no rows. |
| Lists.Slice | src/pages/Categories/List/index.jsx:417 | Never longer than the list. In-range positions give that stretch of the list, a negative start with an end past the list gives the last entries, and an end before the start gives nothing. |
| Lists.Clip | src/pages/Categories/List/index.jsx:417 | The position is within the length; an in-range position is kept and one past the end becomes the length. |
| Lists.PageItems | src/pages/Categories/List/index.jsx:415-417 | At most 10 rows: the page's window of the list, empty exactly when the page starts past the end. |
| Lists.RowIsOnItsPage | src/pages/Categories/List/index.jsx:414-417 | Row i is entry i mod 10 of page i div 10 + 1, which is within the page count. |
| Lists.PagesInRange | src/pages/Categories/List/index.jsx:414-417 | A page is non-empty exactly when it is between 1 and the page count. |
| Lists.PagerShownIffSeveralPages | src/pages/Categories/List/index.jsx:718 | The pager shows exactly when there are at least two pages. |
| Lists.InitialQuery | src/pages/Categories/List/index.jsx:19-22 | The search is empty, every filter is 'all' and the page is 1. |
| Lists.SetSearch | src/pages/Categories/List/index.jsx:505 | The term changes; the filters and the current page are kept. |
| Lists.SetFilter | src/pages/Categories/List/index.jsx:511 | One filter changes; the term and the current page are kept. |
| Lists.SetPage | src/pages/Categories/List/index.jsx:420-422 | Only the current page changes. |
| Lists.SetSearchCorrected | src/pages/Categories/List/index.jsx:505 | The term changes and the page returns to 1. |
| Lists.SetFilterCorrected | src/pages/Categories/List/index.jsx:511 | The filter changes and the page returns to 1. |
| Lists.StalePageHidesMatches | src/pages/Categories/List/index.jsx:414-417 | From page 2 or later, up to 10 matching rows show as an empty page and the pager is hidden. |
| Lists.StalePageReachable | src/pages/Categories/List/index.jsx:414-422 | With 15 rows on page 2, a search keeping 3 leaves the page at 2 and shows nothing. |
| Lists.CorrectedSearchShowsFirstPage | src/pages/Categories/List/index.jsx:414-417 | With the reset, the page shows the first (up to 10) matches, and it is empty only when nothing matches. |
| CategoryList.MatchesSpelledOut | src/pages/Categories/List/index.jsx:399-409 | Name, slug or id contains the term, ignoring case, and status and type each are 'all' or equal. |
| CategoryList.Filtered | src/pages/Categories/List/index.jsx:399-409 | Exactly the matching top-level categories, in order, each as often as in the input. |
| CategoryList.ToggleCategory | src/pages/Categories/List/index.jsx:378-384 | The id's expanded state flips; every other id is unchanged. |
| CategoryList.ToggleTwiceRestores | src/pages/Categories/List/index.jsx:378-384 | Toggling twice restores which categories are expanded. |
| CategoryList.Flatten | src/pages/Categories/List/index.jsx:387-396 | The loop builds each category followed by its sub-categories when it is expanded. |
| CategoryList.ChildrenFollowParent | src/pages/Categories/List/index.jsx:389-394 | An expanded category is immediately followed by its sub-categories, with the rows before and after in order. |
| CategoryList.NothingExpanded | src/pages/Categories/List/index.jsx:387-396 | With nothing expanded, the rows are the filtered categories themselves. |
| CategoryList.FlattenedLength | src/pages/Categories/List/index.jsx:387-396 | The row count is the categories plus the sub-categories of the expanded ones. |
| CategoryList.StatsOf | src/pages/Categories/List/index.jsx:425-456 | The four cards count all categories, their sub-categories, their products and the active ones, over the unfiltered data. |
| CategoryList.ExpandedCountBounded | src/pages/Categories/List/index.jsx:387-428 | Expanded sub-category rows never exceed the header total, and they equal it when every category is expanded. |
| CategoryList.Visible | src/pages/Categories/List/index.jsx:411-417 | At most 10 rows, and for a page from 1 on, empty exactly when the page starts past the rows. |
| CategoryList.SubCategoriesBypassFilter | src/pages/Categories/List/index.jsx:399-411 | The sub-categories of an expanded matching parent are listed even when they do not match. |
| SubCategoryList.LookupParent | src/pages/Categories/SubList/index.jsx:329 | The parent with that id if there is one, else none. |
| SubCategoryList.ParentCategory | src/pages/Categories/SubList/index.jsx:329 | No parent for a missing or empty parameter; otherwise the lookup. |
| SubCategoryList.SubCategoriesOf | src/pages/Categories/SubList/index.jsx:332 | The parent's list, or empty for a missing parameter or an unknown id. |
| SubCategoryList.MatchesSpelledOut | src/pages/Categories/SubList/index.jsx:342-351 | Name, slug or id contains the term, ignoring case, and the status is 'all' or equal. |
| SubCategoryList.Filtered | src/pages/Categories/SubList/index.jsx:342-351 | Exactly the matching sub-categories, in order, each as often as in the input. |
| SubCategoryList.FeaturedCount | src/pages/Categories/SubList/index.jsx:380 | The featured count is at most the list. |
| SubCategoryList.StatsOf | src/pages/Categories/SubList/index.jsx:365-390 | The cards count the parent's whole list, its active entries and its products. |
| SubCategoryList.ParentCards | src/pages/Categories/SubList/index.jsx:404-410 | One card per parent, in order, with its sub-category count (0 if it has none) and its link. |
| SubCategoryList.Render | src/pages/Categories/SubList/index.jsx:329-410 | The grid shows exactly without a parent. Otherwise the table shows the filtered page, the stats of the whole list, and the pager only beyond 10 matches. |
| SubCategoryList.UnknownParentIsEmpty | src/pages/Categories/SubList/index.jsx:332-390 | An unknown parent shows an empty table with zero stats and no pager. |
| SubCategoryList.CardLeadsToItsList | src/pages/Categories/SubList/index.jsx:404-410 | A card's count is the size of the list its link opens. |
| Customers.MatchesSpelledOut | src/pages/Customers/index.jsx:238-250 | Name, e-mail, phone, id or location contains the term, ignoring case, and status and type each are 'all' or equal. |
| Customers.Filtered | src/pages/Customers/index.jsx:238-250 | Exactly the matching customers, in order, each as often as in the input. |
| Customers.Visible | src/pages/Customers/index.jsx:253-256 | At most 10 customers, each in the data and matching. |
| Customers.CountsOf | src/pages/Customers/index.jsx:264-267 | The total, active and VIP counts over all customers, each at most the total, and the total revenue, which no single customer's spending exceeds. |
| Customers.RevenueAppend | src/pages/Customers/index.jsx:267 | The revenue of two runs of customers is the sum of their revenues. |
| Customers.RevenuePermutation | src/pages/Customers/index.jsx:267 | Customers that are a permutation of each other have the same revenue. |
| Customers.SpentAtMostRevenue | src/pages/Customers/index.jsx:267 | Every customer's spending is at most the revenue. |
| Customers.TypeBadgeColor | src/pages/Customers/index.jsx:296-307 | VIP, Premium and Regular each get their own colour, and every other type gets gray. |
| Customers.SortBySpent | src/pages/Customers/index.jsx:564 | The array is sorted in place by amount spent, non-increasing, and is a permutation of the original. |
| Customers.InsertLeft | src/pages/Customers/index.jsx:564 | One insertion pass extends the sorted prefix by one and keeps the multiset. |
| Customers.TopSpenders | src/pages/Customers/index.jsx:563-566 | At most three customers, the first of the sorted array, in order, each spending at least as much as every customer left out; the sort leaves the revenue unchanged. |
| Orders.MatchesSpelledOut | src/pages/Orders/index.jsx:180-190 | Order id, name or payment id contains the term, ignoring case, or the phone contains it exactly; and the status is 'all' or equal. |
| Orders.PhoneIsCaseSensitive | src/pages/Orders/index.jsx:181-185 | The phone is matched with case: "EXT" does not find a phone "ext", but finds a name "ext". |
| Orders.Filtered | src/pages/Orders/index.jsx:180-190 | Exactly the matching orders, in order, each as often as in the input. |
| Orders.Visible | src/pages/Orders/index.jsx:193-196 | At most 10 matching orders, empty exactly when the page starts past them. |
| Orders.StatsOf | src/pages/Orders/index.jsx:204-210 | Each card counts its status over all orders, and the four add up to at most the total. |
| Orders.PagerShownFor | src/pages/Orders/index.jsx:349 | The pager shows exactly when the matches need more than one page. |
| ProductList.MatchesSpelledOut | src/pages/Products/List/index.jsx:180-190 | Id, name, category or sub-category contains the term, ignoring case, and the category is 'all' or equal. |
| ProductList.CategoryFilterKeepsOnlyIt | src/pages/Products/List/index.jsx:187 | With a category selected, only products of that category are listed. |
| ProductList.Filtered | src/pages/Products/List/index.jsx:180-190 | Exactly the matching products, in order, each as often as in the input. |
| ProductList.Visible | src/pages/Products/List/index.jsx:193-196 | At most 10 products, each in the data and matching; for a page from 1 on, empty exactly when the page starts past the matches. |
| ProductList.StatsOf | src/pages/Products/List/index.jsx:204-209 | The stock cards count their status over all products, adding up to at most the total. |
| BannerList.MatchesSpelledOut | src/pages/HomeSlidesBanners/List/index.jsx:165-174 | Title, subtitle or id contains the term, ignoring case, and the status is 'all' or equal. |
| BannerList.Filtered | src/pages/HomeSlidesBanners/List/index.jsx:165-174 | Exactly the matching banners, in order, each as often as in the input. |
| BannerList.Visible | src/pages/HomeSlidesBanners/List/index.jsx:177-180 | At most 10 banners, each in the data and matching; for a page from 1 on, empty exactly when the page starts past the matches. |
| BannerList.StatsOf | src/pages/HomeSlidesBanners/List/index.jsx:188-213 | The cards count all banners and each status, adding up to at most the total. |
| BannerList.StatusColor | src/pages/HomeSlidesBanners/List/index.jsx:216-221 | Active, Inactive and Scheduled each have a colour; every other status has none. |
| BannerList.StatusBadgeClass | src/pages/HomeSlidesBanners/List/index.jsx:222-226 | The base classes followed by the colour, or by the text "undefined" for an unknown status. |
| BannerList.KnownBadgesDiffer | src/pages/HomeSlidesBanners/List/index.jsx:216-223 | The three known statuses get three different badges. |
| StatusBadge.BadgeType | src/components/StatusBadge/index.jsx:3 | The type defaults to "order". |
| StatusBadge.StatusColor | src/components/StatusBadge/index.jsx:4-23 | The order table for orders, the stock table for products, gray for any other type. |
| StatusBadge.Render | src/components/StatusBadge/index.jsx:25-28 | The badge shows the status text with the base classes and its colour. |
| StatusBadge.KnownStatusesOnly | src/components/StatusBadge/index.jsx:4-23 | A non-gray colour is given exactly to the known statuses of the badge's type. |
| StatusBadge.OrderColoursDistinct | src/components/StatusBadge/index.jsx:5-13 | The five order statuses get five different colours. |
| Pagination.RangeText | src/components/Pagination/index.jsx:17 | The range starts at start + 1 and ends at the lesser of the end and the total. |
| Pagination.Prev | src/components/Pagination/index.jsx:21-23 | Disabled exactly on page 1; otherwise it requests the page before. |
| Pagination.Next | src/components/Pagination/index.jsx:45-48 | Disabled exactly when the current page is the page count; otherwise it requests the page after. |
| Pagination.PageButtons | src/components/Pagination/index.jsx:30-42 | One button per page, numbered from 1, each requesting its own number; only the current page is highlighted. |
| Pagination.StaysInRange | src/components/Pagination/index.jsx:21-48 | From a page in range the control only requests pages in range, and exactly one button is highlighted. |
| Pagination.BeyondRangeMovesAway | src/components/Pagination/index.jsx:30-48 | Beyond the last page, "next" stays enabled and leads further away, and no button is highlighted. |
| Pagination.RangeOfAPage | src/components/Pagination/index.jsx:17 | On a non-empty page the range lies within the list and spans at most 10 rows. |
| Sidebar.MenuItems | src/components/Sidebar/index.jsx:15-74 | Seven entries; exactly Home Slides, Products and Categories have dropdowns, each open as its flag says. |
| Sidebar.ParentActiveIff | src/components/Sidebar/index.jsx:80-85 | A dropdown is parent-active exactly when one of its sub-paths is the current path. |
| Sidebar.ClickDropdown | src/components/Sidebar/index.jsx:114 | A click flips that dropdown's flag only while the sidebar is expanded; no other flag changes. |
| Sidebar.ClickShowsOrHides | src/components/Sidebar/index.jsx:114-164 | While collapsed no submenu shows. While expanded a click flips the clicked submenu. Other entries are unchanged. |
| Sidebar.AtMostOneHighlighted | src/components/Sidebar/index.jsx:112-148 | For any path, at most one menu entry is highlighted. |

## Left out

- AuthContext and `authService` are not part of this model. Their answers (signed in, loading, the server's replies) are parameters.
- Concurrency is not modelled: two 401s at once each refresh on their own, and there is no shared refresh promise.
- The network and the 10-second axios timeout are not modelled; the network's answers are a script of replies. `window.location.href` assignments are recorded, not performed.
- Timers and effect scheduling are not modelled; `setTimeout`, `setInterval` and each elapsed second are explicit method calls (`Tick`, `ProgressTick`, `FinishUpload`, `FinishSubmit`). The 1.5 s, 2 s and 2.5 s delays are collapsed.
- `FileReader` completion order is not modelled; previews are added in selection order and the data URL is not modelled.
- Floating point is not modelled: the countdown percentage bar, the progress bar width and the customers' average order value and active percentage are left out. Customers' `totalSpent` is held as whole cents.
- Lower-casing is ASCII only, and `trim` uses a fixed whitespace set; Unicode case mapping is not modelled. String length is the number of characters, not UTF-16 code units.
- Banner dates: `new Date(a) < new Date(b)` is modelled as strings, which matches calendar order only for the `YYYY-MM-DD` values the date inputs produce; other date strings are not parsed.
- Object lookups by keys that exist on every JavaScript object's prototype (`?parent=constructor`) are not modelled.
- The DOM, `console` output, icons, layout classes other than the badges, and keyboard focus (`handleKeyDown`) are not modelled; toasts, alerts and navigations are recorded where the model lists them.
- AuthWidgets.ResendButton: the component ignores the `disabled={loading}` prop that the reset-code page passes, so the model has no such input either.
- ProductForm: `formData.colors`, `formData.sizes` and the image previews are separate fields of the page; `formData.images` is never updated by the page and is not modelled.
- Customers.SortBySpent: the stability of JavaScript's sort is not stated. `customersData` is a literal rebuilt on every render, so the in-place sort reaches no later render; the filter and the header cards read the array before the sort in the same render, so the model computes them from the unsorted data. The revenue card's `toLocaleString` formatting is not modelled.
- The sub-category list links to `/category/sub-cat?parent=` while the add page returns to `/categories/sub-list?parent=`; the route table (`src/App.jsx`) is not part of this model, so which of these routes exists is not modelled.
- BannerForm.BannerFormPage.TogglePreview: the flag flips only while an image exists, because both controls that call it (the enabled button and the modal) exist only then.
- The Dashboard, Header, layout and purely presentational components are not part of this model. Of the Signin, Signup, ForgotPassword and ResetPassword pages, only their use of `useAuthForm` and the `Auth` widgets is modelled; their own handlers are not: ForgotPassword's submit (validate the e-mail, a 2 s delay, navigate to `/verify-email` with the e-mail) and ResetPassword's guard effect and two-stage submit ending at `/sign-in`.

## Findings

| source | as written | input that shows it | evidently intended | confidence | as-written member | corrected member |
|---|---|---|---|---|---|---|
| src/pages/VerifyEmail/index.jsx:21-28 | The mount effect starts the 600 s code timer but never the 60 s resend cooldown. `handleResend` refuses while the cooldown is positive, so the cooldown stays at 60 and the resend is never accepted. | Any e-mail in the location state, then any number of seconds. | Start the resend cooldown on mount too, as `VerifyResetCode` does, so resending is possible after a minute. | not executed | VerifyPages.VerifyEmailResendAsWritten | VerifyPages.VerifyEmailResendCorrected |
| src/pages/VerifyResetCode/index.jsx:33-42 | The effect depends on `start` and `startResend`, which `useCountdown` (src/hooks/useCountdown/index.jsx:17-20) creates anew on every render. The effect re-runs after every tick and restarts both timers, so the code never expires and the resend never unlocks. | A valid visit from the forgot-password page, then any number of seconds. | Run the effect once per location state, so the timers count down from 600 s and 60 s. | not executed | VerifyPages.ResetCodeTimersAsWritten | VerifyPages.ResetCodeTimersCorrected |
| src/pages/Categories/List/index.jsx:414-417 | Search and filter changes keep `currentPage`. The same holds on the sub-category, customer, order, product and banner lists. | 15 rows. Go to page 2, then search for a term matching 3 of them: the page is empty and the pager is hidden. | Return to page 1 whenever the search or a filter changes. | not executed | Lists.StalePageHidesMatches | Lists.CorrectedSearchShowsFirstPage |
