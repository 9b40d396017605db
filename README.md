# Profile and password screens: form rules and submit handlers

This project models the client-side logic of two screens of a mobile-style web app. The app's
authentication and realtime database are an external backend service.

- **Edit profile** (`components/EditProfileScreen.tsx`). The display-name rule
  (`validateNameRule`). The filter applied to the name while typing. The player-UID filter. The
  "dirty" and "can save" conditions. The save handler: it writes the user's database record and
  then updates the authentication profile.
- **Change password** (`components/ChangePasswordScreen.tsx`). The form-validity condition. The
  mismatch warning. The submit button's disabled condition. The submit handler: it
  re-authenticates, updates the password and maps the service's error code to a message.

Files:

- `options.dfy`: `Option`, standing for a JavaScript value that may be `undefined`.
- `js_strings.dfy` (module `JsStrings`): the JavaScript string built-ins the screens depend on.
  - The whitespace class `\s`, which is also the set `trim` strips.
  - `length` in UTF-16 code units (`Utf16Length`).
  - `trim` and `startsWith`.
- `edit_profile.dfy` (module `EditProfile`): the profile rules as functions and lemmas, and the
  class `EditProfileScreen`, whose fields are the component's state and whose methods are its
  handlers.
- `change_password.dfy` (module `ChangePassword`): the password rules and the class
  `ChangePasswordScreen`.

How the asynchronous handlers are modelled:

- Each handler is split at its first `await` into a start method and a finish method.
  Everything before that `await` is in the start method, including the password screen's sign-in
  check, whose error is caught before anything is sent.
  - `HandleSave` / `FinishSave`.
  - `BeginSubmit` / `FinishSubmit`.
- The service calls and the sign-in state are abstract inputs.
  - `dbSucceeded` (to `FinishSave`): the database write.
  - `signedIn` (to `FinishSave`): `auth.currentUser` after the write.
  - `signedInWithEmail` (to `BeginSubmit`): `auth.currentUser` and its email, read before the
    first `await`.
  - `SubmitOutcome` (to `FinishSubmit`): re-authentication plus password update, carrying the error `code`.
- `EditProfileScreen.pending` holds the write that the running save captured when it started.
  `Valid()` ties it to `isSaving`, which makes the `isSaving` guard meaningful.
- `ChangePasswordScreen.inFlight` is a ghost counter of requests sent whose handler has not finished.
  `handleSubmit` has no `loading` guard, so there may be several.

Choices that follow the code rather than an idealised intent:

- A user without `avatarUrl` always starts out "dirty", and a user with an empty one does too
  unless the default is empty as well. The field starts at the default avatar, but `isDirty` compares it with the raw
  `user.avatarUrl` (`MissingAvatarStartsDirty`).
- The save guard does not look at `showSuccess`. Only the button does (`EnabledButtonStartsSave`).
- Lengths are UTF-16 lengths. A new password of three astral-plane characters has length 6 and
  passes the length test.
- The regular expression's `.` matches one code unit that is not a line terminator
  (`IsRegexDot`). Surrogate pairs never form a run of three equal code units.
- The default avatar URL (`DEFAULT_AVATAR_URL`) lives in a constants file that is not part of this
  model. It is a constructor parameter. The translated `texts.incorrectCurrentPassword` is read
  only inside the catch, so it is a parameter of the two submit methods.

## Model

| member | source | states |
|---|---|---|
| `JsStrings.IsSpace` | components/EditProfileScreen.tsx:57 | definition of the white space `\s` matches and `trim` strips; see `TrimShape` |
| `JsStrings.TrimStart` | components/EditProfileScreen.tsx:57 | the front part of `trim`; its result is never longer than its input; see `TrimStartShape` |
| `JsStrings.TrimEnd` | components/EditProfileScreen.tsx:57 | the back part of `trim`; its result is never longer than its input; see `TrimEndShape` |
| `JsStrings.Trim` | components/EditProfileScreen.tsx:57 | definition of `trim`; see `TrimShape`, `TrimUnique`, `TrimIdempotent` |
| `JsStrings.StartsWith` | components/EditProfileScreen.tsx:95 | definition of `startsWith`; see `ProfileMirrorsRecord` |
| `JsStrings.IsAsciiDigit` | components/EditProfileScreen.tsx:76 | definition of `\d`; see `NextPlayerUid` |
| `JsStrings.Utf16Length` | components/EditProfileScreen.tsx:58 | `length` counts code units: between the number of characters and twice that, and equal to it for text in the Basic Multilingual Plane |
| `JsStrings.TrimStartShape` | components/EditProfileScreen.tsx:57 | the front part of `trim` drops a prefix made only of white space and stops at the first character that is not white space |
| `JsStrings.TrimEndShape` | components/EditProfileScreen.tsx:57 | the back part of `trim` drops a suffix made only of white space and stops at the last character that is not white space |
| `JsStrings.TrimShape` | components/EditProfileScreen.tsx:57 | `trim` returns a slice of its input; everything before and after that slice is white space; the result neither starts nor ends with white space |
| `JsStrings.TrimUnique` | components/EditProfileScreen.tsx:57 | for every input made of white space, then a text with no white space at either end, then white space, `trim` returns exactly that text |
| `JsStrings.TrimIdempotent` | components/EditProfileScreen.tsx:57 | trimming twice gives the same result as trimming once |
| `EditProfile.IsLatinLetter` | components/EditProfileScreen.tsx:60 | definition of the `a-zA-Z` ranges of the letter class; see `PatternIffWellSpaced` |
| `EditProfile.IsBengali` | components/EditProfileScreen.tsx:60 | definition of the Bengali-block range `\u0980-\u09FF` of the letter class; see `PatternIffWellSpaced` |
| `EditProfile.IsNameLetter` | components/EditProfileScreen.tsx:60 | definition of the name-letter class; see `PatternIffWellSpaced`, `ValidatedNameShape` |
| `EditProfile.IsNameChar` | components/EditProfileScreen.tsx:64 | definition of the characters the filter keeps (the complement of its negated class); see `SanitizeCounts` |
| `EditProfile.IsRegexDot` | components/EditProfileScreen.tsx:59 | definition of what `.` matches without the `u` flag; see `TripleRunFound`, `ValidatedNameShape` |
| `EditProfile.ValidateNameRule` | components/EditProfileScreen.tsx:56-61 | definition of `validateNameRule`; see `ValidatedNameShape` |
| `EditProfile.HasTripleRun` | components/EditProfileScreen.tsx:59 | definition of the repetition test; see `TripleRunFound`, `TripleRunIsRun` |
| `EditProfile.MatchesNamePattern` | components/EditProfileScreen.tsx:60 | definition of the name pattern as a grammar; see `PatternIffWellSpaced` |
| `EditProfile.ValidatedNameShape` | components/EditProfileScreen.tsx:56-61 | `validateNameRule(val)` holds iff the trimmed value has 3 to 25 characters, begins and ends with a name letter, has only name letters and white space, has no two white-space characters side by side, and has no character three times in a row |
| `EditProfile.NameLengthChecked` | components/EditProfileScreen.tsx:57-58 | trimmed input shorter than 3 or longer than 25 code units is rejected |
| `EditProfile.TripleRunFound` | components/EditProfileScreen.tsx:59 | the repetition test finds every run of three equal single-code-unit characters that are not line terminators |
| `EditProfile.TripleRunIsRun` | components/EditProfileScreen.tsx:59 | everything the repetition test finds really is three equal characters in a row |
| `EditProfile.AcceptedNameHasNoTriple` | components/EditProfileScreen.tsx:59 | no accepted name (trimmed) has any character three times in a row |
| `EditProfile.PatternIffWellSpaced` | components/EditProfileScreen.tsx:60 | the pattern "letters, then groups of one white-space character and letters" accepts exactly the texts that begin and end with a letter, hold only letters and white space, and never have two white-space characters side by side |
| `EditProfile.AcceptedNameHasNoStraySpace` | components/EditProfileScreen.tsx:60 | an accepted name (trimmed) is non-empty, has no white space at either end and has no doubled white space |
| `EditProfile.TrimmedNameStillValid` | components/EditProfileScreen.tsx:56-57 | if a name is accepted, its trimmed form is accepted too |
| `EditProfile.Sanitize` | components/EditProfileScreen.tsx:64 | the filter's output holds only Latin letters, Bengali-block characters and white space, and is an in-order subsequence of the input |
| `EditProfile.SanitizeCounts` | components/EditProfileScreen.tsx:64 | each allowed character keeps all its occurrences; each other character keeps none |
| `EditProfile.SanitizeKeepsClean` | components/EditProfileScreen.tsx:64 | input made only of allowed characters passes through unchanged |
| `EditProfile.SanitizeFixedIff` | components/EditProfileScreen.tsx:64 | the filter leaves the input unchanged iff every character in it is allowed |
| `EditProfile.SanitizeIdempotent` | components/EditProfileScreen.tsx:64 | filtering twice gives the same result as filtering once |
| `EditProfile.SanitizeConcat` | components/EditProfileScreen.tsx:64 | filtering a concatenation gives the concatenation of the filtered parts |
| `EditProfile.IsDigitString` | components/EditProfileScreen.tsx:76 | definition of the test `^\d*$`; see `NextPlayerUid` |
| `EditProfile.NextPlayerUid` | components/EditProfileScreen.tsx:75-78 | an empty or all-digit value replaces `playerUid`; any other value leaves it as it was; so a digit-only `playerUid` stays digit-only |
| `EditProfile.InitialPlayerUid` | components/EditProfileScreen.tsx:32 | definition of the initial player UID; see `EditProfile.EditProfileScreen.constructor` |
| `EditProfile.InitialAvatarUrl` | components/EditProfileScreen.tsx:33 | definition of the initial avatar; see `MissingAvatarStartsDirty` |
| `EditProfile.FormIsDirty` | components/EditProfileScreen.tsx:81 | definition of `isDirty`; see `MissingAvatarStartsDirty`, `UntouchedFormIsClean` |
| `EditProfile.FormCanSave` | components/EditProfileScreen.tsx:82 | definition of `canSave`; see `SavedNameObeysRule` |
| `EditProfile.SaveProceeds` | components/EditProfileScreen.tsx:86 | definition of the save guard; see `EnabledButtonStartsSave` |
| `EditProfile.SaveButtonDisabled` | components/EditProfileScreen.tsx:245 | definition of the button's disabled condition; see `EnabledButtonStartsSave` |
| `EditProfile.UserPath` | components/EditProfileScreen.tsx:91 | definition of the record path `'users/' + user.uid`; see `EditProfile.EditProfileScreen.HandleSave` |
| `EditProfile.UpdatesFor` | components/EditProfileScreen.tsx:90 | definition of the fields written; see `SavedNameObeysRule`, `ProfileMirrorsRecord` |
| `EditProfile.PhotoUrlFor` | components/EditProfileScreen.tsx:95-97 | definition of the `photoURL` rule; see `ProfileMirrorsRecord` |
| `EditProfile.ProfileUpdateFor` | components/EditProfileScreen.tsx:94-97 | definition of the profile update; see `ProfileMirrorsRecord` |
| `EditProfile.ProfileMirrorsRecord` | components/EditProfileScreen.tsx:90-97 | the profile update has the display name written to the database; its photo, when present, is the avatar written to the database; the photo is left out exactly when that avatar is empty or a `data:` URL, so no `data:` URL ever reaches the profile |
| `EditProfile.MissingAvatarStartsDirty` | components/EditProfileScreen.tsx:33-81 | for a user without an avatar, or with an empty one while the default is not empty, the freshly opened form is dirty, and savable whenever the stored name passes the rule |
| `EditProfile.UntouchedFormIsClean` | components/EditProfileScreen.tsx:80-82 | for a user with an avatar and an already-trimmed name, the freshly opened form is neither dirty nor savable |
| `EditProfile.EnabledButtonStartsSave` | components/EditProfileScreen.tsx:86 | an enabled save button (disabled condition at line 245) plus a user id means the save guard passes; the guard itself is the button's condition with `showSuccess` left out |
| `EditProfile.SavedNameObeysRule` | components/EditProfileScreen.tsx:80-90 | when the form can be saved, the name written (trimmed) passes the rule again and has the plain shape of `ValidatedNameShape` |
| `EditProfile.EditProfileScreen.constructor` | components/EditProfileScreen.tsx:31-39 | initial state: the user's name; the user's player UID or `''`; the user's avatar, or the default when it is missing or empty; all flags false; all messages empty |
| `EditProfile.EditProfileScreen.IsNameValid` | components/EditProfileScreen.tsx:80 | definition of `isNameValid`; see `EditProfile.EditProfileScreen.HandleNameBlur` |
| `EditProfile.EditProfileScreen.CanSave` | components/EditProfileScreen.tsx:82 | definition of `canSave` on the current state; see `EditProfile.EditProfileScreen.HandleSave` |
| `EditProfile.EditProfileScreen.SaveDisabled` | components/EditProfileScreen.tsx:245 | definition of the button's disabled state on the current state; see `EditProfile.EditProfileScreen.HandleSave` |
| `EditProfile.EditProfileScreen.HandleNameChange` | components/EditProfileScreen.tsx:63-67 | the name becomes the filtered value; the name error is cleared; nothing else changes |
| `EditProfile.EditProfileScreen.HandleNameBlur` | components/EditProfileScreen.tsx:69-73 | an invalid name sets the error "Invalid name"; a valid name leaves the name error as it was; nothing else changes |
| `EditProfile.EditProfileScreen.HandleUidChange` | components/EditProfileScreen.tsx:75-78 | `playerUid` becomes `NextPlayerUid(old playerUid, val)` and stays digit-only if it was; nothing else changes |
| `EditProfile.EditProfileScreen.HandleSave` | components/EditProfileScreen.tsx:84-91 | if a save is running, there is no user id or the form cannot be saved: no state change and no write; otherwise: error cleared, `isSaving` set, and the write of the trimmed name, player UID and avatar to `users/<uid>` issued and recorded as pending; so pressing an enabled save button always issues the write when there is a user id |
| `EditProfile.EditProfileScreen.FinishSave` | components/EditProfileScreen.tsx:91-106 | `isSaving` always ends false. After a successful write: `showSuccess` is true, the error is empty, and when signed in the profile update is issued, with the display name that was written and a photo only when it is the written avatar and not a `data:` URL; its own outcome changes nothing. After a failed write: no profile update, and the error is "Failed to update profile" |
| `ChangePassword.FormValid` | components/ChangePasswordScreen.tsx:49-52 | definition of `isFormValid`; see `FormValidMeans` |
| `ChangePassword.ShowsMismatch` | components/ChangePasswordScreen.tsx:177 | definition of the mismatch warning's condition; see `MismatchBlocksSubmit` |
| `ChangePassword.SubmitDisabled` | components/ChangePasswordScreen.tsx:197 | definition of the button's disabled condition; see `EnabledSubmitMeans` |
| `ChangePassword.FailureCode` | components/ChangePasswordScreen.tsx:76-77 | definition of the error `code` seen by the catch; see `FailureIsReported` |
| `ChangePassword.FormValidMeans` | components/ChangePasswordScreen.tsx:49-52 | the form is valid iff the current password is non-empty, the confirmation equals the new password, and the new password has at least 6 code units (at least 6 characters for text in the Basic Multilingual Plane; at least 3 characters in any case) |
| `ChangePassword.MismatchBlocksSubmit` | components/ChangePasswordScreen.tsx:163-177 | while the mismatch warning shows (confirmation non-empty and different from the new password), the form is invalid and the button is disabled |
| `ChangePassword.EnabledSubmitMeans` | components/ChangePasswordScreen.tsx:197 | an enabled button means not loading, no success yet, a valid form and no mismatch warning |
| `ChangePassword.ErrorMessage` | components/ChangePasswordScreen.tsx:77-83 | definition of the code-to-message mapping; see `MessageRevealsCause`, `FailureIsReported` |
| `ChangePassword.MessageRevealsCause` | components/ChangePasswordScreen.tsx:77-83 | when the translated text differs from the two fixed messages, each message is shown for exactly one cause: the translated text iff the code is `auth/wrong-password`, "Too many attempts. Try again later." iff it is `auth/too-many-requests`, the generic message iff it is neither |
| `ChangePassword.FailureIsReported` | components/ChangePasswordScreen.tsx:63-83 | every failed request leaves a non-empty message, as long as the translated text is non-empty; the error thrown when nobody is signed in has no code and gets the generic message |
| `ChangePassword.ChangePasswordScreen.constructor` | components/ChangePasswordScreen.tsx:39-47 | initial state: empty fields, not loading, no error, no success |
| `ChangePassword.ChangePasswordScreen.IsFormValid` | components/ChangePasswordScreen.tsx:49-52 | definition of `isFormValid` on the current state; see `ChangePassword.ChangePasswordScreen.BeginSubmit` |
| `ChangePassword.ChangePasswordScreen.MismatchShown` | components/ChangePasswordScreen.tsx:177 | definition of the warning's visibility on the current state; see `ChangePassword.ChangePasswordScreen.BeginSubmit` |
| `ChangePassword.ChangePasswordScreen.SubmitButtonDisabled` | components/ChangePasswordScreen.tsx:197 | definition of the button's disabled state on the current state; see `ChangePassword.ChangePasswordScreen.BeginSubmit` |
| `ChangePassword.ChangePasswordScreen.SetCurrentPassword` | components/ChangePasswordScreen.tsx:112 | only the current password changes |
| `ChangePassword.ChangePasswordScreen.SetNewPassword` | components/ChangePasswordScreen.tsx:136 | only the new password changes |
| `ChangePassword.ChangePasswordScreen.SetConfirmNewPassword` | components/ChangePasswordScreen.tsx:160 | only the confirmation changes |
| `ChangePassword.ChangePasswordScreen.BeginSubmit` | components/ChangePasswordScreen.tsx:54-68 | an invalid form: no state change and nothing sent. A valid form with no user with an email signed in: nothing sent, the generic message, `loading` false. A valid form otherwise: error cleared, `loading` set, and the current and new passwords handed to the service. Passwords are sent only in that last case, and always when the button was enabled and a user with an email is signed in; never while the mismatch warning shows |
| `ChangePassword.ChangePasswordScreen.FinishSubmit` | components/ChangePasswordScreen.tsx:68-86 | `loading` always ends false. `success` becomes true only when both re-authentication and the update succeeded, and stays true once set. Any failure sets the message for its error code, with the translated text as it is when the catch runs. The passwords do not change |

## Left out

- `components/PwaInstallPrompt.tsx`: browser install-prompt events, `matchMedia` and timers. No
  form or state logic of its own.
- Choosing and cropping an avatar (`handleFileSelect`, `handleCropComplete`, the `ImageCropper`).
  This is file reading in the browser. As a result `avatarUrl` keeps its initial value in the model.
  `PhotoUrlFor` still covers any value, `data:` URLs included.
- `formatDate`: it depends on `Date` and locale formatting. It is display only.
- The delayed callbacks: navigating to the profile 1.5 s after `showSuccess`, and
  `onPasswordChanged` 2 s after a password change. They are timers.
- The internals of the backend service calls (`update`, `ref`, `updateProfile`,
  `EmailAuthProvider.credential`, `reauthenticateWithCredential`, `updatePassword`). They are
  calls into a third-party SDK. Only their outcomes are modelled.
- `FinishSave`: the moment between the database write and the end of the awaited profile update
  is not a separate state. `isSaving` stays true for that whole moment, the profile update's
  outcome is ignored, so nothing observable is lost.
- The `user` prop of the profile screen is fixed for the screen's lifetime. React reads it afresh
  on every render, so a parent that passes the updated record after a save makes the form clean
  again; the model keeps comparing with the record the screen opened with. The translated texts
  of the password screen are read when the catch runs, as a method parameter.
- Stale closures between React re-renders. The model assumes each event sees the state left by
  the previous one.
- Rendering: JSX, icons, class names, the ad component, the password show/hide toggles, and the
  display of `nameError` and `error`.
- The fields of `User` read only for display (`email`, `registrationDate`, `lastLogin`).
- A missing or non-string `texts.incorrectCurrentPassword`: the model takes a string.
- Strings are sequences of Unicode scalar values, so a lone surrogate code unit cannot be
  represented.
