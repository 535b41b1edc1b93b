# LaunchPad front end: a Dafny model of its interaction logic

LaunchPad is a front-end mock-up of a deployment platform: a landing page, a
sign-in screen, a project dashboard and a settings screen, with a command
palette over all of them. There is no server. Every interactive behaviour is
local state, a few timers and one filter. This project models that behaviour
and proves what it guarantees:

- the application root: the current view, the palette's open flag, the
  Cmd/Ctrl+K shortcut, and the switch that mounts one screen per view;
- the command palette: its three commands, the case-insensitive substring
  filter, and selection (run the action, then close);
- the overlay primitive (Modal): it renders nothing while closed; while open,
  Escape, a backdrop click or the X button call `onClose`;
- the Button component: a pure map from props to disabled / spinner / icon /
  class string;
- the four screens, each a class whose fields are the screen's state cells and
  whose methods are its event handlers. Timer expiry is an explicit event
  method (`TimerFired`, `SaveTimerFired`, `ToastTimerFired`), guarded by a field
  that records the pending timer.

Files, one module each: `types.dfy` (View, Option), `text.dfy` (ASCII
lower-casing and substring search, the two string operations the filter uses),
`command_menu.dfy`, `modal.dfy`, `button.dfy`, `email_field.dfy` (the
browser's check of the `type="email"` sign-in field), `landing.dfy`,
`auth.dfy`, `settings.dfy`, `dashboard.dfy`, `app.dfy`.

How the pieces fit:

- A handler that calls `navigateTo` returns `nav: Option<View>`, the view it
  passes. `App.Root.Navigate` applies it.
- `App.Root` holds the mounted screen as a `Screen` value that points to the
  screen's state object.
- Navigating to a different view mounts a fresh screen object in its initial
  state. Setting the view it already has keeps the mounted screen. React skips
  a state update to an equal value, and a component of the same type in the
  same place keeps its state.
- A handler whose control exists only in some states says so in its
  `requires`. For example, Next Step is rendered only while the wizard is open
  and its step is below 3. Sign In and Save Changes are disabled while loading
  or saving, so the form cannot be resubmitted.
  (`AuthPage.NoResubmitWhileLoading` and `SettingsPage.SaveDisabledWhileSaving`
  tie this to `Button.Render`.)

Behaviours of the code that are easy to misread:

- Navigating to the current view keeps the mounted screen and its state.
  `navigateTo` only sets `currentView` (App.tsx:28-34), and React keeps a
  child of the same type in the same place.
- Escape does not close the command palette. The palette draws an ESC hint
  (components/CommandMenu.tsx:46-48) but has no key handler. It closes on a
  backdrop click, on the shortcut, or after a command is selected
  (`App.OtherKeysIgnored`).
- The sign-in form's "Please enter a valid email address" error shows only
  for an empty field. The Input component forwards `type="email"` to the
  `<input>` (pages/Auth.tsx:72, components/Input.tsx:10-30), and the form has no
  `noValidate` (pages/Auth.tsx:69). The browser refuses any other value
  without an `@` before `handleSubmit` runs, and also values such as `@` and
  `a@` (`EmailField`, `AuthPage.AuthState.SubmitForm`).

## Model

| member | source | states |
|---|---|---|
| `Text.LowerChar` | components/CommandMenu.tsx:28 | an ASCII capital becomes its small letter, every other character is kept, and the result is never a capital |
| `Text.Lower` | components/CommandMenu.tsx:28 | lower-casing keeps the length and lower-cases each character in place |
| `Text.LowerAppend` | components/CommandMenu.tsx:28 | lower-casing a concatenation gives the concatenation of the lower-cased parts |
| `Text.LowerIdempotent` | components/CommandMenu.tsx:28 | lower-casing twice equals lower-casing once |
| `Text.Includes` | components/CommandMenu.tsx:28 | the left-to-right search returns true exactly when the pattern occurs at some index of the text |
| `Text.OccursShift` | components/CommandMenu.tsx:28 | a pattern that is not a prefix occurs in the text exactly when it occurs in the text's tail |
| `Text.IncludesEmpty` | components/CommandMenu.tsx:28 | the empty pattern is contained in every string |
| `Text.IncludesPrefixOfPattern` | components/CommandMenu.tsx:28 | a text containing `p + s` also contains `p` |
| `CommandMenu.Options` | components/CommandMenu.tsx:22-26 | the three registered commands, in order; stated by `OptionActions` and `OptionsWithEmptyQuery` |
| `CommandMenu.Matches` | components/CommandMenu.tsx:28 | an option matches when its lower-cased label contains the lower-cased query; stated by `FilterMembership` |
| `CommandMenu.Labels` | components/CommandMenu.tsx:58-75 | one label per listed command, the command's own, in listing order |
| `CommandMenu.OptionActions` | components/CommandMenu.tsx:22-26 | Go to Dashboard sets the view to Dashboard, Settings sets it to Settings, and Documentation leaves it unchanged |
| `CommandMenu.ApplyAction` | components/CommandMenu.tsx:23-25 | a view-changing action moves to its target view, and the empty action keeps the current view |
| `CommandMenu.Filter` | components/CommandMenu.tsx:28 | the result is no longer than the option list, and every listed option is registered and matches the query |
| `CommandMenu.FilterIsSubsequence` | components/CommandMenu.tsx:28 | the listed options keep their registration order (the result is a subsequence of the options) |
| `CommandMenu.FilterMembership` | components/CommandMenu.tsx:28 | an option is listed if and only if it is registered and its lower-cased label contains the lower-cased query |
| `CommandMenu.FilterEmptyQuery` | components/CommandMenu.tsx:28 | the empty query lists every option, unchanged and in order |
| `CommandMenu.MatchesPrefix` | components/CommandMenu.tsx:28 | an option that matches a query also matches every prefix of that query |
| `CommandMenu.FilterNarrows` | components/CommandMenu.tsx:28 | the options listed for `q + s` are exactly those listed for `q`, filtered again |
| `CommandMenu.FilterMonotonic` | components/CommandMenu.tsx:28 | typing more characters only removes options: the new list is a subsequence of the old one and a subset of it |
| `CommandMenu.OptionsWithEmptyQuery` | components/CommandMenu.tsx:22-28 | with an empty query the palette lists Go to Dashboard, Settings and Documentation, in that order |
| `CommandMenu.Render` | components/CommandMenu.tsx:30-58 | a closed palette renders nothing; an open one lists the labels of the filtered options, and shows "No results" exactly when no option matches |
| `CommandMenu.Menu.constructor` | components/CommandMenu.tsx:12 | the query starts empty; the commands are the fixed list |
| `CommandMenu.Menu.SetQuery` | components/CommandMenu.tsx:42 | the input's change handler replaces the query |
| `Button.Resolve` | components/Button.tsx:10-19 | props left out take their defaults (variant primary, size md, className empty); props given are kept |
| `Button.Render` | components/Button.tsx:35-49 | disabled if and only if `disabled` or `loading` is truthy; spinner if and only if loading; icon if and only if an icon is given and not loading; never both; children always rendered; the class string is base, variant, size and caller classes joined by spaces |
| `Button.VariantClass` | components/Button.tsx:22-27 | the class list of each variant, as in the `variants` table; joined after the base styles (`BaseStyles`, line 20) by `Render`, placed by `SpacedLayout` |
| `Button.SizeClass` | components/Button.tsx:29-33 | the class list of each size, as in the `sizes` table; joined third by `Render`, placed by `SpacedLayout` |
| `Button.SpacedLayout` | components/Button.tsx:37 | each of the four class lists sits at its position in the joined string, separated by single spaces and in order |
| `Button.DefaultProps` | components/Button.tsx:12-17 | leaving out variant, size, className, disabled or loading is the same as passing primary, md, "", false or false |
| `Button.LoadingBlocksClicks` | components/Button.tsx:38-47 | a loading button is disabled and shows the spinner and not the icon, whatever its `disabled` prop |
| `Modal.Render` | components/Modal.tsx:30-63 | a closed modal renders nothing; an open one shows the footer region exactly when a footer is given |
| `Modal.CallsOnClose` | components/Modal.tsx:22-49 | `onClose` is called only while open; while open, the backdrop, the X button and the Escape key call it; other keys never do |
| `Modal.EscapeListener.constructor` | components/Modal.tsx:26 | no listener is installed before the effect first runs |
| `Modal.EscapeListener.Sync` | components/Modal.tsx:22-28 | after the effect and its cleanup, a listener is installed exactly when the modal is open |
| `Modal.EscapeListener.Deliver` | components/Modal.tsx:23-24 | a keydown calls `onClose` exactly when a listener is installed and the key is Escape |
| `LandingPage.Toggled` | pages/Landing.tsx:121 | the billing switch always changes the cycle |
| `LandingPage.ToggleTwice` | pages/Landing.tsx:121 | toggling twice restores the original cycle |
| `LandingPage.ProPrice` | pages/Landing.tsx:146 | the Pro price for a billing cycle; stated by `Prices` |
| `LandingPage.HobbyPrice` | pages/Landing.tsx:132 | the Hobby price, the same for both cycles; stated by `Prices` |
| `LandingPage.Prices` | pages/Landing.tsx:132-146 | Pro shows $29 monthly and $24 yearly, so each toggle changes it; Hobby shows $0 in both |
| `LandingPage.Target` | pages/Landing.tsx:25-28 | Log In, Get Started, Start Deploying, Start for Free and Upgrade to Pro go to Auth; Features, Pricing, Read the Docs and the billing switch go nowhere |
| `LandingPage.LandingState.constructor` | pages/Landing.tsx:11 | the billing cycle starts monthly |
| `LandingPage.LandingState.Click` | pages/Landing.tsx:25-154 | a click navigates as `Target` says, and only the billing switch changes the cycle |
| `AuthPage.Validate` | pages/Auth.tsx:19-22 | the error is empty exactly when the email contains `@`, and otherwise is "Please enter a valid email address" |
| `AuthPage.MinimalEmailsAccepted` | pages/Auth.tsx:19 | `@` and `a@` pass the `includes('@')` check of `handleSubmit`; a string without `@` fails it (the browser refuses `@` and `a@` before this check, see `EmailField.Examples`) |
| `EmailField.IsValidAddress` | pages/Auth.tsx:69-72 | the addresses the browser accepts in the `type="email"` field: local part, `@`, dot-separated domain labels; stated by `SingleAt`, `LocalAtLabel` and `Examples` |
| `EmailField.Accepts` | pages/Auth.tsx:69-72 | the browser submits the form when the field is empty (it is not `required`) or holds a valid address; stated by `AcceptedHasAt` and `Examples` |
| `EmailField.DomainHasNoAt` | pages/Auth.tsx:72 | a domain of dot-separated labels holds no `@` |
| `EmailField.SingleAt` | pages/Auth.tsx:72 | an address the browser accepts holds exactly one `@`, after a non-empty local part |
| `EmailField.AcceptedHasAt` | pages/Auth.tsx:72 | a value the browser lets through is empty or contains an `@`, and not both |
| `EmailField.LocalAtLabel` | pages/Auth.tsx:72 | a non-empty local part, an `@` and one domain label make an address the browser accepts |
| `EmailField.Examples` | pages/Auth.tsx:69-72 | the browser refuses `@`, `a@` and `abc` and accepts the empty field and `me@example` |
| `AuthPage.ErrorOnlyForEmptyField` | pages/Auth.tsx:19-22 | for a value the browser lets through, the error is shown exactly when the field is empty, and the request starts exactly when it is not |
| `AuthPage.LabelsFor` | pages/Auth.tsx:46-97 | sign-in mode shows Sign In and a Sign up link; sign-up mode shows Create Account and a Log in link |
| `AuthPage.SubmitButton` | pages/Auth.tsx:86 | the submit button's props: `loading` from the screen's flag and `w-full`; stated by `NoResubmitWhileLoading` |
| `AuthPage.NoResubmitWhileLoading` | pages/Auth.tsx:86 | the submit button is enabled exactly while not loading |
| `AuthPage.AuthState.constructor` | pages/Auth.tsx:12-15 | the screen starts in sign-in mode, not loading, with empty email and error and no request pending |
| `AuthPage.AuthState.SetEmail` | pages/Auth.tsx:76 | the email field is replaced and nothing else changes |
| `AuthPage.AuthState.ToggleMode` | pages/Auth.tsx:94 | the mode flips and nothing else changes |
| `AuthPage.AuthState.Submit` | pages/Auth.tsx:17-30 | `handleSubmit`: the error becomes the validation result; loading and the request timer start exactly when the email contains `@`; the mode plays no part |
| `AuthPage.AuthState.SubmitForm` | pages/Auth.tsx:69-86 | a refused email changes nothing; an accepted one runs `handleSubmit`, which then shows the error exactly for the empty field and otherwise starts loading and the timer |
| `AuthPage.AuthState.TimerFired` | pages/Auth.tsx:26-29 | loading stops and the app is sent to Dashboard |
| `AuthPage.AuthState.BackToHome` | pages/Auth.tsx:37 | Back to Home sends the app to Landing |
| `SettingsPage.SaveButton` | pages/Settings.tsx:85 | the Save Changes button's props: `loading` from the saving flag; stated by `SaveDisabledWhileSaving` |
| `SettingsPage.SaveDisabledWhileSaving` | pages/Settings.tsx:85 | the Save Changes button is disabled, and shows its spinner, exactly while saving |
| `SettingsPage.SettingsState.constructor` | pages/Settings.tsx:12-15 | the screen starts on General, named "dashboard-app", not saving, no toast, no timers |
| `SettingsPage.SettingsState.SelectTab` | pages/Settings.tsx:52 | the clicked tab becomes the single active tab and nothing else changes |
| `SettingsPage.SettingsState.SetProjectName` | pages/Settings.tsx:77 | the name field is replaced and nothing else changes |
| `SettingsPage.SettingsState.Save` | pages/Settings.tsx:17-18 | saving starts at once; name, tab and toast are unchanged; the button is clickable only on General while not saving |
| `SettingsPage.SettingsState.SaveTimerFired` | pages/Settings.tsx:19-22 | saving ends, the toast appears and one more toast timer is pending |
| `SettingsPage.SettingsState.ToastTimerFired` | pages/Settings.tsx:22 | the toast disappears; nothing else visible changes |
| `SettingsPage.SettingsState.Back` | pages/Settings.tsx:34 | the back arrow sends the app to Dashboard |
| `SettingsPage.SaveRoundTrip` | pages/Settings.tsx:17-24 | one save shows the spinner, then the toast without the spinner, then neither, and keeps the project name |
| `DashboardPage.MockDeployments` | pages/Dashboard.tsx:18-24 | the five fixed rows of the table; their ids are distinct (`AtMostOneMenuOpen`) |
| `DashboardPage.RowIds` | pages/Dashboard.tsx:205 | the ids are exactly those of the table's rows |
| `DashboardPage.Toggled` | pages/Dashboard.tsx:40-45 | the toggled id changes membership and every other id keeps its membership |
| `DashboardPage.ToggleTwice` | pages/Dashboard.tsx:40-45 | toggling the same row twice restores the selection |
| `DashboardPage.MenuClicked` | pages/Dashboard.tsx:240 | a row's menu button opens that row's menu unless it is the open one, which it closes |
| `DashboardPage.AtMostOneMenuOpen` | pages/Dashboard.tsx:205-247 | the table's ids are distinct, so the active id opens the menu of one row only: two row indexes whose ids both equal it are the same index |
| `DashboardPage.SidebarTarget` | pages/Dashboard.tsx:84-106 | Settings goes to Settings, Sign Out to Landing, and Overview goes nowhere |
| `DashboardPage.DashboardState.constructor` | pages/Dashboard.tsx:33-37 | both modals closed, no menu open, no rows selected, wizard at step 1 |
| `DashboardPage.DashboardState.ToggleRow` | pages/Dashboard.tsx:40-45 | the selection becomes `Toggled(old selection, id)`; nothing else changes |
| `DashboardPage.DashboardState.MenuButton` | pages/Dashboard.tsx:240 | the open menu becomes `MenuClicked(old, id)`; nothing else changes |
| `DashboardPage.DashboardState.OutsideClick` | pages/Dashboard.tsx:271-272 | the overlay click closes the open menu |
| `DashboardPage.DashboardState.DeleteFromMenu` | pages/Dashboard.tsx:257 | Delete Deployment opens the confirmation and closes the menu |
| `DashboardPage.DashboardState.NewProject` | pages/Dashboard.tsx:135 | the wizard opens, at step 1 when it was closed |
| `DashboardPage.DashboardState.CreateNext` | pages/Dashboard.tsx:288-289 | Next Step, offered only below step 3, adds one to the step, so the step stays within 1..3 |
| `DashboardPage.DashboardState.CloseCreate` | pages/Dashboard.tsx:283 | closing the wizard resets its step to 1 |
| `DashboardPage.DashboardState.CreateCancel` | pages/Dashboard.tsx:287 | Cancel closes the wizard and resets the step to 1 |
| `DashboardPage.DashboardState.CreateDeploy` | pages/Dashboard.tsx:288-291 | Deploy Project, offered at step 3, closes the wizard and resets the step to 1 |
| `DashboardPage.DashboardState.CreateModalEvent` | pages/Dashboard.tsx:281-283 | Escape, backdrop or X on the open wizard closes it and resets the step; any other event changes nothing |
| `DashboardPage.DashboardState.DeleteButton` | pages/Dashboard.tsx:352-353 | both confirmation buttons only close the confirmation; rows, selection and menus are unchanged |
| `DashboardPage.DashboardState.DeleteModalEvent` | pages/Dashboard.tsx:346-348 | Escape, backdrop or X on the open confirmation closes it; nothing else changes |
| `DashboardPage.DashboardState.Sidebar` | pages/Dashboard.tsx:88-106 | a sidebar click navigates as `SidebarTarget` says |
| `DashboardPage.WizardWalk` | pages/Dashboard.tsx:283-291 | a fresh wizard goes through steps 1, 2 and 3; at step 3 Next is not offered; Deploy closes it back at step 1 |
| `Types.ViewName` | types.ts:1-6 | the string value of each `View` member; `App.RenderView` states that every view's string selects that view's screen |
| `App.RenderTag` | App.tsx:25-37 | a tag that is none of the four enum values falls back to the Landing screen |
| `App.RenderView` | App.tsx:25-37 | every view selects its own screen |
| `App.RenderViewInjective` | App.tsx:25-37 | distinct views select distinct screens |
| `App.AfterNavigations` | App.tsx:28-34 | the view after a sequence of `navigateTo` calls, folded over the values; stated by `LastNavigationWins` |
| `App.LastNavigationWins` | App.tsx:28-34 | of the value-level fold `AfterNavigations`: a non-empty sequence of navigations ends at the last view requested. For `App.Root` the same follows from `Navigate`'s `currentView == v` |
| `App.IsPaletteChord` | App.tsx:16 | the shortcut: `k` with Meta or Ctrl held; stated by `PaletteAfterKey` and `OtherKeysIgnored` |
| `App.PaletteAfterKey` | App.tsx:15-20 | Meta+k or Ctrl+k flips the palette flag; any other key keeps it |
| `App.ChordTwice` | App.tsx:16-18 | pressing the chord twice restores the palette flag |
| `App.OtherKeysIgnored` | App.tsx:16 | upper-case K, k without Meta or Ctrl, and Escape leave the palette flag unchanged |
| `App.Mount` | App.tsx:25-37 | mounting creates a fresh screen object of the kind `RenderView` selects, in its initial state |
| `App.Root.constructor` | App.tsx:10-11 | the app starts on Landing with the palette closed and an empty query |
| `App.Root.Navigate` | App.tsx:28-34 | the view becomes `v` unconditionally; a different view gets a fresh screen; the palette flag is untouched |
| `App.Root.KeyDown` | App.tsx:15-20 | the flag becomes `PaletteAfterKey(old flag, e)`; the default action is prevented exactly for the chord; the view, screen and query are untouched |
| `App.Root.ClosePalette` | App.tsx:46 | `onClose` sets the flag to false (so a second call changes nothing) and keeps the view and the query |
| `App.Root.TypeQuery` | components/CommandMenu.tsx:39-42 | typing replaces the palette's query |
| `App.Root.Listed` | components/CommandMenu.tsx:28 | the listed commands are exactly the registered ones that match the current query |
| `App.Root.Select` | components/CommandMenu.tsx:58-64 | the command run is the `i`-th one listed, so it matches the query; its action is applied to the view, then the palette closes; the mounted screen is kept when the view does not change and is freshly mounted when it does; the query is kept |
| `App.SignInFlow` | pages/Auth.tsx:17-30 | Get Started leads to Auth, a valid e-mail address starts loading, and the timer lands on Dashboard |
| `App.RejectedSignIn` | pages/Auth.tsx:19-22 | an email without `@` leaves the app on Auth without loading; the error shows for the empty field only, since the browser stops any other such value |
| `App.BlockedSignIn` | pages/Auth.tsx:69-72 | a value the browser refuses leaves the app on Auth with no error and no loading |
| `App.QuerySurvivesClose` | App.tsx:44-48 | closing and reopening the palette keeps the query typed before |
| `App.StaleSignInTimer` | pages/Auth.tsx:26-37 | after a valid address is submitted and Back to Home is clicked, the pending sign-in timer still moves the app to Dashboard |

## Left out

- Markup, Tailwind classes other than the Button's class string, and layout.
- Stacking of overlays: which layer receives a click. For example, the fixed
  overlay behind an open row menu catches clicks on other rows' buttons. Each
  handler is modelled as if its control could be reached whenever it is
  rendered.
- `components/Input.tsx` is modelled only for the `type` it forwards to the
  `<input>`: the browser's `type="email"` check (`EmailField`). Its label,
  icon and error markup are presentation. The Auth password field is never
  read and has no `required`, so it has no state here.
- EmailField.Accepts: the browser's value sanitisation (stripping newlines and
  leading or trailing whitespace) is not modelled, and neither are browsers
  that convert non-ASCII domains to punycode before the check.
- Controls without handlers have no effect and are not modelled: Visit Preview,
  View Logs, refresh, bell and Search buttons on the dashboard; the header
  select-all checkbox; the framework buttons of wizard step 2; the GitHub and
  Google buttons; Invite Member and Upgrade on the settings tabs.
- Real time: the 1000 ms, 800 ms and 3000 ms durations, and the palette's 50 ms
  focus timer. DOM focus cannot be modelled. Timer expiry is an explicit event
  that may happen at any later point.
- React unmounting: a timer that fires after its screen is gone still calls
  `navigateTo`, as in `App.StaleSignInTimer`. Its updates to the discarded
  state object have no visible effect.
- The window listener API (`addEventListener` / `removeEventListener`): it is
  modelled as an "installed" flag (`Modal.EscapeListener`). The root's Cmd/Ctrl+K
  listener is installed once for the root's lifetime and is not modelled
  separately. One window keydown reaches every installed listener at once; the
  model has no single dispatch, so a scenario must deliver the key to each:
  `App.Root.KeyDown` for the root, and `CreateModalEvent` or `DeleteModalEvent`
  for an open dashboard modal. `App.Root.KeyDown` alone leaves an open modal open.
- Static fixtures beyond the deployment rows: sparkline data, stat cards and
  their badge colours, the recharts charts, and lucide icons. The unused
  `StatMetric` and `ToastMessage` types are also left out.
- Text.LowerChar: only ASCII letters are lower-cased, while
  `String.prototype.toLowerCase` follows Unicode case mapping. The three
  command labels are ASCII, but a non-ASCII query character may fold
  differently.
- Button.Render: props forwarded to the element (`type`, `onClick`) and the
  children themselves are not represented; only that children are always
  rendered.
