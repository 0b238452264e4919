# ADFS sign-in page script, modelled in Dafny

`ADFS/script/onload.js` is the customisation script of an AD FS sign-in page.
Besides browser workarounds, it does three things that have behaviour worth
stating, and this project models those:

- **Sign-in submit handler** (`Login.submitLoginRequest`): a username typed
  without a domain (no `@`, no `\`) is qualified as `REPLACENETBIOS\user` in the
  form's `UserName` field; then an empty username and an empty password are
  reported, in that order, one at a time; otherwise the form is submitted. The
  handler always returns `false`. Modules `UserNames` and `LoginForm`.
- **Password-change submit handler** (`UpdatePassword.submitPasswordChange`):
  the same normalisation, then seven checks with an early return each
  (username empty, old password empty, old password too long, new password
  empty, confirmation empty, new password too long, mismatch). It returns
  `true` only when all pass. Module `PasswordChange`. The page-wide
  `maxPasswordLength` is a parameter.
- **Help panel** (`createHelpersForLoginForm`, `createHelpContent`, `updateUI`,
  `toggleHelpContent`, `openHelpContent`, `closeHelpContent` and the three calls
  run at load): a two-state controller that shows either the login area or the
  help content. Module `HelpPanel`, class `Controller`. Each DOM element is a
  presence flag. Each inline `style.display` is a field that is unset,
  `"block"` or `"none"`.

Both handlers are straight chains of early returns. Module `Checks` gives an
independent reference for them: an ordered list of (fails, error) checks and
the position of the first failing one. Each handler is proved to report
exactly that check's error.

Two points about missing elements and the initial display:
- A missing login area makes the script throw: `loginArea.appendChild`
  throws, which stops the load sequence before the help content is built. A
  write to `loginArea.style` also throws. The model's methods return
  `ok = false` for these cases.
- When the login form and the help content exist, the first render at load
  sets the login area's display to `"block"`; otherwise the login area's
  display is never set at load.

The variable `showingLoginform` is declared but never read or written, so it
has no counterpart.

## Model

| member | source | states |
|---|---|---|
| `Checks.FirstFailing` | ADFS/script/onload.js:154-187 | the chain stops at the first failing check: every check before the returned position passes, and the check at it fails unless it is the end |
| `Checks.FirstFailingUnique` | ADFS/script/onload.js:154-187 | only one position satisfies that description, so the reported check is determined by the inputs alone |
| `UserNames.FormUserName` | ADFS/script/onload.js:115-119 | a non-empty username with neither `@` nor `\` makes the `UserName` field `REPLACENETBIOS\` followed by the username, and that value names a domain; any other username leaves the field as it was |
| `UserNames.Normalise` | ADFS/script/onload.js:148-152 | when the input is itself the `UserName` field, normalisation keeps emptiness, keeps the typed name as a suffix, leaves a name that already names a domain alone, and makes every non-empty name name a domain |
| `UserNames.NormaliseIdempotent` | ADFS/script/onload.js:115-117 | normalising a normalised username changes nothing |
| `LoginForm.SubmitLoginRequest` | ADFS/script/onload.js:110-134 | an empty username gives `userNameFormatError` whatever the password; otherwise an empty password gives `passwordEmpty`; otherwise the form is submitted; the `UserName` field is normalised first and the return value is always `false` |
| `LoginForm.LoginReportsFirstFailure` | ADFS/script/onload.js:121-133 | the handler's outcome is the error of the first failing required-field check, or submission when none fails |
| `LoginForm.SubmittedNameNamesDomain` | ADFS/script/onload.js:115-132 | when the username input is the `UserName` field, every username that is submitted names a domain |
| `PasswordChange.CodeUnits` | ADFS/script/onload.js:164 | a string's JavaScript `length` counts UTF-16 code units: between one and two per character, exactly one each when all characters are in the Basic Multilingual Plane, exactly two each when none is |
| `PasswordChange.CodeUnitsAppend` | ADFS/script/onload.js:179 | the code-unit length of a concatenation is the sum of the parts' lengths, and one character counts one unit inside the Basic Multilingual Plane and two outside it |
| `PasswordChange.SubmitPasswordChange` | ADFS/script/onload.js:139-190 | the handler returns `true` exactly when the verdict is accepted, and that holds exactly when username, old, new and confirmation are non-empty, old and new are at most `maxPasswordLength` long, and new equals confirmation; the `UserName` field is normalised first |
| `PasswordChange.ChangeReportsFirstFailure` | ADFS/script/onload.js:154-187 | only the first failing check is reported, in the order username-empty, old-empty, old-too-long, new-empty, confirm-empty, new-too-long, mismatch |
| `PasswordChange.MaximumLengthAccepted` | ADFS/script/onload.js:164-182 | "too long" means longer than `maxPasswordLength`: a password exactly that long, used for old, new and confirmation with a non-empty username, is accepted |
| `HelpPanel.RenderedPanels` | ADFS/script/onload.js:286-294 | rendering shows exactly one of help content and login area (one `"block"`, the other `"none"`), and the help content exactly when the helper is showing |
| `HelpPanel.ToggleParity` | ADFS/script/onload.js:280-284 | after an even number of toggles the flag is back to its start value, after an odd number it is flipped |
| `HelpPanel.Controller.ShowingIffOddToggles` | ADFS/script/onload.js:214-215 | starting from `showingHelper = false`, the helper is showing exactly when an odd number of toggles has run |
| `HelpPanel.Controller.constructor` | ADFS/script/onload.js:203-215 | at script load the elements are looked up once, `helpContent` is unset, `showingHelper` is false, and no display is set |
| `HelpPanel.Controller.CreateHelpersForLoginForm` | ADFS/script/onload.js:219-229 | one "Need help?" link is appended to the login area; with no login area the call throws and nothing changes |
| `HelpPanel.Controller.CreateHelpContent` | ADFS/script/onload.js:231-265 | with an auth area the help content is built hidden; without one `helpContent` stays unset and nothing changes |
| `HelpPanel.Controller.OpenHelpContent` | ADFS/script/onload.js:286-289 | help content `"block"`, login area `"none"`; with no login area only the first write happens |
| `HelpPanel.Controller.CloseHelpContent` | ADFS/script/onload.js:291-294 | help content `"none"`, login area `"block"`; with no login area only the first write happens |
| `HelpPanel.Controller.UpdateUI` | ADFS/script/onload.js:267-278 | without the login form or the help content no display changes; with both, the panels are rendered from `showingHelper` |
| `HelpPanel.Controller.ToggleHelpContent` | ADFS/script/onload.js:280-284 | the flag always flips and the toggle count grows by one; when the login form or the help content is missing no display changes; with every element present the panels show exactly one of the two, matching the flag; with the login form and help content but no login area, the help display is rendered from the flag, the login area's is untouched and the call throws |
| `HelpPanel.Controller.Load` | ADFS/script/onload.js:297-299 | with every element present, after load the help is `"none"`, the login area `"block"` and the helper is not showing; whenever the help content was built it is `"none"` after load; without an auth area `helpContent` stays unset; without a login area the script stops after the first step |

## Left out

- The iPhone e-mail input retyping, the IEMobile viewport style, the viewport meta rewrite, `getStyle`, `computeLoadIllustration` and its load/resize listeners, `SetIllustrationImage` and the username placeholder (lines 8-106, 194-200): these are browser sniffing and DOM or CSS writes with no state to reason about.
- The text and markup of the help content and the link labels: the model records only that the links exist and are wired to `ToggleHelpContent`.
- `InputUtil.setError`, the `LoginErrors` / `UpdErrors` messages and `form.submit()` are defined by the hosting page, which is not part of this model. They appear as outcome tags and a `Submit` outcome.
- The `typeof Login` / `typeof UpdatePassword` guards that install the handlers: the model is the installed handler.
- `maxPasswordLength` is a page global defined outside this file. It is an `int` parameter, so the model does not capture the comparison semantics of a non-numeric value.
- `HelpPanel.Controller.CreateHelpContent`: calling it twice appends a second help container, and `helpContent` then refers to the newer one. The model keeps only the reference, not the element tree.
- `LoginForm.SubmitLoginRequest`, `PasswordChange.SubmitPasswordChange`: the handlers look up the username and password inputs and the form by id or name; a missing one throws a TypeError in the source (onload.js lines 113-118, 143-151). The model takes the inputs' values as parameters and so assumes every lookup succeeds.
- `PasswordChange.CodeUnits`: a Dafny `string` holds only Unicode scalar values, so a JavaScript value containing an unpaired surrogate, which `.length` counts as one unit, cannot be represented.
- `HelpPanel.Controller.UpdateUI`, `HelpPanel.Controller.ToggleHelpContent`: clicks on links are not modelled as events. A click is a call to `ToggleHelpContent`, and an exception thrown in a handler shows up as `ok = false`.
