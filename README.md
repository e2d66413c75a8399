# KrishiOS sign-up and routing, modelled in Dafny

KrishiOS is a web front-end for farmers. It handles account creation,
login, password reset, and a five-step onboarding wizard that collects a
farm profile. Authentication, storage and the `profiles` table live in a
hosted backend. This model covers the client-side logic that decides what
happens around those calls:

- **`SignupWizard`** (`signup_wizard.dfy`) models the wizard component. It
  keeps a draft profile, a step index from 0 to 4, a staged avatar and a
  loading flag. Each step has a gate that enables its Next button. Step 0
  creates the account; step 4 looks up the session, uploads the avatar, and
  saves the profile by an update with an insert as fallback. The component
  is the class `Wizard`: its handlers are methods, and every backend call is
  replaced by an outcome parameter (`Reply`: a returned value or a thrown
  exception). What the wizard asks of the backend is recorded, in order, in
  an `effects` log. The pure parts are functions with lemmas about them:
  - the e-mail pattern;
  - the step gates;
  - the multi-select toggle;
  - the avatar acceptance rule;
  - the plan of calls that finishing makes.
- **`AuthPage`** (`auth_page.dfy`) models the sign-in page:
  - `Render` is the pure decision between spinner, redirect, wizard,
    forgot-password card and login form;
  - the class `Page` holds the page's flags, and its methods model the
    onboarding check and the handlers that flip those flags.
- **`App`** (`app.dfy`) models the application shell: the home-route and
  admin-route guards over the auth and role hooks, and the route table.
- **`Text`** (`text.dfy`) gives the JavaScript string built-ins the code relies
  on: `trim` and the `\s` class, `.length` in UTF-16 code units, and
  `split('.').pop()`.
- **`Backend`** (`backend.dfy`) holds the outcome types for backend calls.

In these places the code behaves differently from what one might expect, and
the model follows the code:
- The phone check is on the trimmed length (≥ 11 code units), not on a count
  of digits.
- The profile insert is tried when the update *returns an error*, not when
  the update matched no row.
- Completion fires without any save when there is no session. It also fires
  when the update and the insert both return errors. So "onboarding
  completed" is not tied to a successful save.
- The home route makes no onboarding check. In the modelled files, only the
  sign-in page sends an incomplete profile back into the wizard
  (`src/pages/AuthPage.tsx:69-71`). The home page that the home route renders
  is not part of this model, so what it does with an incomplete profile is
  not covered.
- The wizard takes a back-to-login callback but never calls it.
- The wizard's lowest step follows the *current* user, while its first step
  is fixed when it opens. A wizard opened by a signed-in user starts at
  step 1, and after a sign-out its Back button goes down to step 0
  (`SignupWizard.BackAfterSignOut`).
- The onboarding check never clears its "checked" flag. Suppose a run with
  nobody signed in has checked the page, and the profile query for the user
  who then signs in throws. That signed-in user then sees the login form
  (`AuthPage.ThrownQueryAfterSignedOutCheck`).

## Model

| member | source | states |
|---|---|---|
| Text.TrimShape | src/components/auth/SignupWizard.tsx:170 | `trim` (here and at `src/pages/AuthPage.tsx:99` and `:105`) returns the maximal slice of the input with no leading or trailing JS white space. |
| Text.TrimEmptyIffBlank | src/components/auth/SignupWizard.tsx:170 | The trimmed text (tested for truthiness here and at `src/pages/AuthPage.tsx:99`) is empty iff the input has no visible character. |
| Text.Utf16LengthBounds | src/components/auth/SignupWizard.tsx:170 | `.length` counts UTF-16 code units. The count lies between the number of characters and twice that, and equals it for text inside the Basic Multilingual Plane. |
| Text.AfterLastDotSuffix | src/components/auth/SignupWizard.tsx:208 | `split('.').pop()` returns a dot-free suffix of the name, preceded by a '.' when shorter. It returns the whole name when the name has no '.'. |
| Text.AfterLastDotSplits | src/components/auth/SignupWizard.tsx:208 | A name containing '.' is exactly stem + "." + extension. |
| Backend.OrEmpty | src/components/auth/SignupWizard.tsx:135-136 | `x \|\| ''` gives "" exactly when the value is absent or empty, and otherwise gives the value itself. |
| SignupWizard.Prefill | src/components/auth/SignupWizard.tsx:133-138 | A signed-in user's metadata name and e-mail (or "") replace the typed ones, and nothing else changes. Without a user the draft is untouched. |
| SignupWizard.SelectDistrict | src/components/auth/SignupWizard.tsx:372 | Choosing a district sets it and clears the upazila, and no other field changes. The account step's gate is then false. |
| SignupWizard.IsValidEmailMatchesPattern | src/components/auth/SignupWizard.tsx:165 | The split-at-first-'@' check holds iff the address is a run, '@', a run, '.', a run. A run is non-empty and has no white space and no '@'. |
| SignupWizard.BadEmailRejected | src/components/auth/SignupWizard.tsx:165 | "bad-email" does not match the pattern. |
| SignupWizard.GoodEmailAccepted | src/components/auth/SignupWizard.tsx:165 | "a@b.co" matches the pattern. |
| SignupWizard.CanProceedMeaning | src/components/auth/SignupWizard.tsx:167-182 | Step 0's gate holds iff: the name has a visible character; the e-mail matches the pattern; the password has ≥ 6 code units and equals the confirmation; the trimmed phone has ≥ 11 code units; district and upazila are set. Steps 1 and 4 need a non-empty list. Step 2 needs all three farm fields. Step 3 needs a method. Any other index gives false. |
| SignupWizard.MismatchBlocksAccount | src/components/auth/SignupWizard.tsx:169 | A password that differs from its confirmation blocks step 0, whatever the other fields are. |
| SignupWizard.RemoveAllCounts | src/components/auth/SignupWizard.tsx:141 | `filter(i => i !== x)` removes every occurrence of x and keeps every other value's multiplicity. |
| SignupWizard.Toggle | src/components/auth/SignupWizard.tsx:140-142 | x is in the result iff it was not in the input. Other values keep their multiplicity. An absent x is appended at the end. |
| SignupWizard.ToggleKeepsDistinct | src/components/auth/SignupWizard.tsx:140-142 | A list without duplicates stays without duplicates. |
| SignupWizard.ToggleAbsentTwice | src/components/auth/SignupWizard.tsx:140-142 | Toggling an absent value twice restores the list exactly. |
| SignupWizard.TogglePresentTwice | src/components/auth/SignupWizard.tsx:140-142 | Toggling a present value twice gives the other values in their order, then the value at the end. The set of values is unchanged, and so is the multiset when there were no duplicates. |
| SignupWizard.CheckAvatar | src/components/auth/SignupWizard.tsx:144-154 | The type error comes iff the type does not start with `image/`. The size error comes iff it is an image over 2·1024·1024 bytes. The file is accepted iff it is an image of at most that size (exactly 2 MiB passes). |
| SignupWizard.AvatarPathShape | src/components/auth/SignupWizard.tsx:207-209 | The path is `<userId>/avatar.` followed by the text after the file name's last '.'. |
| SignupWizard.SignUpNotice | src/components/auth/SignupWizard.tsx:184-197 | The success notice appears iff sign-up returned no error. A returned error shows its own message as is, even when empty. A thrown error shows its message when non-empty. The generic account-creation message appears iff the thrown message is empty. |
| SignupWizard.BuildPayload | src/components/auth/SignupWizard.tsx:223-237 | The payload copies every draft field and is always marked completed. It carries `avatar_url` only for a non-empty URL. |
| SignupWizard.UploadAvatar | src/components/auth/SignupWizard.tsx:206-221 | With no file there is no call. Otherwise the upload comes first, and the signing call follows only after an error-free upload. A URL is kept only when it is non-empty. An upload error is swallowed; only a thrown exception aborts. |
| SignupWizard.WriteProfile | src/components/auth/SignupWizard.tsx:239-249 | The update is first. The insert follows iff the update returned an error, and it carries the same user and payload. The write ends in completion, or in the save-failed notice when something threw. |
| SignupWizard.AvatarCalls | src/components/auth/SignupWizard.tsx:206-221 | The avatar part only makes storage calls: it writes no profile row and shows no notice. |
| SignupWizard.WriteProfileFacts | src/components/auth/SignupWizard.tsx:239-249 | Every effect but the last is a call. Both writes target the same user with the same payload. An insert comes right after the update, and only if the update returned an error. |
| SignupWizard.SaveFacts | src/components/auth/SignupWizard.tsx:205-249 | For a signed-in user the save ends in the save-failed notice iff the avatar part or the write threw. Before that come only calls, whose writes all carry the payload built from the draft and the signed URL. When the avatar part did not throw, the update is issued right after the avatar calls. An insert happens iff the avatar part did not throw and the update returned an error. |
| SignupWizard.SaveIssuesUpdate | src/components/auth/SignupWizard.tsx:206-240 | When the avatar part did not throw, the save issues the update right after the avatar calls, to the user with the payload built from the draft and the signed URL. |
| SignupWizard.FinishIssuesUpdate | src/components/auth/SignupWizard.tsx:201-240 | A signed-in user whose avatar part did not throw gets the profile update right after the session lookup and the avatar calls, whatever the later replies. With no avatar staged, the update comes right after the lookup and its payload has no avatar URL. |
| SignupWizard.FinishEnds | src/components/auth/SignupWizard.tsx:201-254 | Finishing starts with the session lookup. It ends in completion iff no exception escaped, and otherwise in the save-failed notice. |
| SignupWizard.FinishCallsBetween | src/components/auth/SignupWizard.tsx:201-254 | Between the lookup and the last effect there are only backend calls. |
| SignupWizard.FinishWithoutSession | src/components/auth/SignupWizard.tsx:205-249 | With no session the save is skipped and completion still fires. |
| SignupWizard.FinishPayloads | src/components/auth/SignupWizard.tsx:222-246 | Every profile write goes to the session's user with the payload built from the draft and the signed URL. Without a session user nothing is written. |
| SignupWizard.FinishUpdateThenInsert | src/components/auth/SignupWizard.tsx:239-246 | An insert happens iff: a user is signed in; the avatar part did not throw; the update returned an error. The insert comes right after the update, with the same payload. |
| SignupWizard.FinishAvatarCalls | src/components/auth/SignupWizard.tsx:207-216 | The upload goes to `profile-pictures` at the avatar path with overwrite set. The signing call, made iff the upload was error-free, asks for a lifetime of 31,536,000 s. |
| SignupWizard.Floor | src/components/auth/SignupWizard.tsx:72 | The floor is 1 for a signed-in user and 0 otherwise. The wizard starts at the floor for the user it opens with; later the floor follows the current user. |
| SignupWizard.Wizard.constructor | src/components/auth/SignupWizard.tsx:72-94 | The wizard starts at the floor step with an empty (prefilled) draft, no avatar, not loading, and nothing issued. |
| SignupWizard.BackAfterSignOut | src/components/auth/SignupWizard.tsx:524-528 | A wizard opened by a signed-in user starts at step 1, and after a sign-out Back takes it to step 0. The floor follows the current user. |
| SignupWizard.Wizard.UserChanged | src/components/auth/SignupWizard.tsx:133-138 | A new user is recorded and the draft is prefilled from it. |
| SignupWizard.Wizard.Edit | src/components/auth/SignupWizard.tsx:327-491 | Typing into an input (lines 327-359), or picking a land-size, ownership, irrigation or farming-method option (lines 431, 449, 467, 489), sets exactly one draft field. The step, the avatar and the log stay as they were. |
| SignupWizard.Wizard.ChooseDistrict | src/components/auth/SignupWizard.tsx:372 | The district select sets the district and clears the upazila, which blocks step 0. |
| SignupWizard.Wizard.ChooseUpazila | src/components/auth/SignupWizard.tsx:385 | The upazila select changes nothing while no district is chosen. |
| SignupWizard.Wizard.ToggleFarmerType | src/components/auth/SignupWizard.tsx:408 | The farmer-type list is toggled and nothing else changes. |
| SignupWizard.Wizard.ToggleChallenge | src/components/auth/SignupWizard.tsx:510 | The challenge list is toggled and nothing else changes. |
| SignupWizard.Wizard.SelectAvatar | src/components/auth/SignupWizard.tsx:144-156 | No file does nothing. A rejected file only adds its reason's notice, and the staged file and loading flag stay unchanged. An accepted file is staged and its preview starts loading. |
| SignupWizard.Wizard.AvatarPreviewLoaded | src/components/auth/SignupWizard.tsx:157-161 | The preview arriving clears the avatar loading flag. |
| SignupWizard.Wizard.CreateAccount | src/components/auth/SignupWizard.tsx:184-199 | There is exactly one sign-up call, with the trimmed e-mail, followed by its notice. The step becomes 1 on success and is unchanged on a returned or thrown error. Loading is false afterwards. |
| SignupWizard.Wizard.UploadAvatarStep | src/components/auth/SignupWizard.tsx:206-221 | The handler's avatar part issues exactly the calls of `UploadAvatar` and yields its URL and exception outcome. |
| SignupWizard.Wizard.WriteProfileStep | src/components/auth/SignupWizard.tsx:239-252 | The handler's write part issues exactly `WriteProfile`'s calls and ending. |
| SignupWizard.Wizard.SaveStep | src/components/auth/SignupWizard.tsx:205-247 | For a signed-in user the handler issues the avatar part, then the write unless the avatar part threw. |
| SignupWizard.Wizard.FinishOnboarding | src/components/auth/SignupWizard.tsx:201-254 | The log grows by exactly `FinishEffects`. The step, draft and avatar are unchanged. Loading ends false. |
| SignupWizard.Wizard.Next | src/components/auth/SignupWizard.tsx:256-264 | A disabled button does nothing. Steps 1–3 advance by exactly one. Step 0 runs account creation, and step 4 runs finishing. The step stays within 0..4 and at or above the current user's floor. |
| SignupWizard.Wizard.Back | src/components/auth/SignupWizard.tsx:524-528 | When shown (above the current user's floor), Back goes down exactly one step and stays at or above that floor; otherwise nothing changes. |
| AuthPage.Render | src/pages/AuthPage.tsx:78-86 | The spinner shows iff auth is loading or the check is unfinished, and then there is never a redirect. A signed-in, completed user is redirected to `/?new_signup=true` after a sign-up and to `/` otherwise. Then the wizard, the forgot card and the login form are chosen in that order of precedence. |
| AuthPage.CreateAccountLinkOnlyOnLogin | src/pages/AuthPage.tsx:222-227 | The create-account link is shown only outside forgot-password and sign-up mode, once the page has settled. |
| AuthPage.OnboardingOf | src/pages/AuthPage.tsx:67-72 | Completed iff the row's flag is stored as true. The wizard is forced iff a row exists and is not completed. |
| AuthPage.OnboardingRowCases | src/pages/AuthPage.tsx:67-72 | A missing row gives (false, not forced). A null or false flag gives (false, forced). A true flag gives (true, not forced). |
| AuthPage.ResetNotices | src/pages/AuthPage.tsx:106-111 | A reset that threw has no notice. The success notice follows iff the call returned no error. A returned error shows its message. |
| AuthPage.Page.constructor | src/pages/AuthPage.tsx:16-25 | A new page has every flag false and shows the spinner for any auth state. |
| AuthPage.Page.CheckOnboarding | src/pages/AuthPage.tsx:54-76 | With no user the check finishes with no query. With a user there is one profile query. A completed row leads to the redirect, and a non-completed row leads to the wizard without the login link. A thrown query changes no flag: the page stays checked if an earlier run checked it. |
| AuthPage.ThrownQueryAfterSignedOutCheck | src/pages/AuthPage.tsx:54-76 | After a signed-out check, a thrown profile query leaves the page checked and not completed, so a signed-in user sees the login form. |
| AuthPage.Page.SetEmail | src/pages/AuthPage.tsx:174-197 | The email field, typed on the forgot-password card (line 174) or the login form (line 197), is set and the view flags are unchanged. |
| AuthPage.Page.SetPassword | src/pages/AuthPage.tsx:209 | The password field is set and the view flags are unchanged. |
| AuthPage.Page.EmailLogin | src/pages/AuthPage.tsx:88-96 | There is one sign-in call with the typed fields, and a returned error is shown. Loading stays true only when the call threw. |
| AuthPage.Page.ForgotPassword | src/pages/AuthPage.tsx:98-113 | A blank trimmed e-mail gives a notice and no call. Otherwise one reset call is made with the trimmed e-mail. `resetSent` becomes true only on an error-free reply and is otherwise kept. |
| AuthPage.Page.BackToLogin | src/pages/AuthPage.tsx:185 | Clears both the forgot-password flag and reset-sent. The forgot card turns into the login form. |
| AuthPage.Page.OpenForgotPassword | src/pages/AuthPage.tsx:203 | Sets the forgot-password flag. The login form turns into the forgot card. |
| AuthPage.Page.OpenSignUp | src/pages/AuthPage.tsx:224 | Sets sign-up mode. The login form turns into the wizard. |
| AuthPage.Page.HaveAccount | src/pages/AuthPage.tsx:139 | Leaves sign-up mode and nothing else changes. |
| AuthPage.Page.WizardCompleted | src/pages/AuthPage.tsx:136 | Sets completed and just-signed-up. A signed-in user on a settled page is then redirected to `/?new_signup=true`. |
| App.HomeRoute | src/App.tsx:17-31 | The loader shows iff auth is loading, or a user is signed in and the role is loading. Once settled, it redirects to `/admin` iff the role is admin, and otherwise shows the home page; it never sends anyone to `/auth`. |
| App.AdminRoute | src/App.tsx:33-47 | The loader shows iff auth or role is loading. Then no user goes to `/auth` (before any role check), a non-admin goes to `/`, and the panel shows iff the user is an admin. |
| App.RouteFor | src/App.tsx:58-63 | `/auth`, `/admin` and `/` select their routes exactly, and every other path falls to the catch-all. |
| App.Resolve | src/App.tsx:58-63 | The sign-in page shows iff the path is `/auth`. Not-found shows iff the path is outside the table. The admin panel shows only on `/admin` when its guard allows. |
| App.AdminPanelOnlyForAdmins | src/App.tsx:44-46 | Only a settled, signed-in admin ever reaches the admin panel. |
| App.RedirectsSettle | src/App.tsx:28-45 | The two route guards' redirects never loop: two hops always reach a screen that is not a guard redirect. The sign-in page's own redirect is not part of this lemma. |
| App.SignedInRedirectsOnce | src/App.tsx:44-45 | For a signed-in user, one guard redirect already reaches a screen that is not a guard redirect. The sign-in page's own redirect is not part of this lemma. |

## Left out

- Rendering, styling, icons, the progress bar, the localized string tables and the language toggle are not modelled. Notices are kinds, not text.
- Backend calls (sign-up, sign-in, reset, session lookup, storage upload and signing, profile select/update/insert) are not modelled. Each is replaced by the outcome it produced, passed as a parameter. A query that reports an error gives no data, which is modelled as "no row".
- The auth provider, the role hook, the query client and the router are not modelled. The signed-in user, the loading flags and the role are inputs.
- Concurrency and interleaving are not modelled: each handler is one atomic transition, and its awaited calls complete in order. The `loading` flag matters only as the model's Next gate and as state.
- The avatar preview is not modelled beyond its completion event `AvatarPreviewLoaded`: the FileReader data URL is a browser API.
- Effect timing is not modelled. The prefill effect and the onboarding check are transitions the caller fires when the user changes.
- The district and upazila lists are not modelled: the code only tests the two choices for being non-empty.
- SignupWizard.Wizard.Next: the disabled Next button is modelled as a press that does nothing. The handler itself does not re-check the gate.
- AuthPage.Page.EmailLogin: the browser's form validation (`required`, `minLength`, `type="email"`) is not modelled, because it happens before the handler runs.
- AuthPage.Page.ForgotPassword: the button is disabled while loading or while the e-mail is blank. The model runs the handler, which checks the blank case itself.
- App.RouteFor: paths are taken relative to the router's `/krishios` basename and matched exactly. The router's case-insensitive matching, trailing-slash tolerance and URL decoding are not modelled. The router strips the query string (as in `/?new_signup=true`) before matching, so a path here is one with no query string. The sign-in page's own redirects (`src/pages/AuthPage.tsx:86`) are not followed by `App.Resolve`, which treats that page as an end point.
- The payload is a typed record, whereas the code sends an untyped object with `avatar_url` added only when present. `avatarUrl: None` stands for "key absent".
- The show-password toggles and the avatar input's `accept` attribute have no effect on the modelled state and are not modelled.
- Text.Utf16Length, Text.Trim: JavaScript strings may hold lone surrogates, but Dafny's `char` is a Unicode scalar value and cannot. The string model therefore covers well-formed text only.
