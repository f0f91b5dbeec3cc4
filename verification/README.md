# tui-code-review: settings store, settings screen and screen router

tui-code-review is a terminal dashboard for GitHub pull requests. It keeps a
GitHub token and a list of watched repository URLs in a settings store that is
written to a JSON configuration file. It also has a settings screen for editing
that store and a router that switches between the settings screen and the
pull-requests screen. This project models the parts of the code base that hold
state logic:

- The repository-list and token store. There are three near-identical copies:
  - package `settings` (`settings/settings.go`), module `StoreSettings`;
  - package `main` (`settings.go`), module `MainSettings`, which adds a username;
  - package `globals` (`globals/settings.go`), module `GlobalsSettings`.

  Each copy is a class. Adding a URL appends it. Deleting a URL filters the
  list in a loop. That loop is proved against `RepositoryList.Without`, the
  filter it computes. Writing the configuration file (`Save`) is modelled by a
  ghost field `persisted` that holds the state last written.
- The settings screen's key handling (`settings_screen.go`), module
  `SettingsScreens`.
  - `Step` is a pure function that gives the screen's reaction to one message.
  - The class `SettingsScreen` has the screen's fields and a pointer to the
    store. Its `Update` method is proved to change them exactly as `Step` says.
  - `Run` replays a sequence of messages. It returns `None` where the program
    would index the repository list out of bounds and panic.
- The board and the router of `main.go`:
  - Module `Board` holds the two-column toggle, the active-list selector, the
    board's key handling and the panic test of `View`.
  - Module `Router` holds the screen router, which is a value, and the start
    screen that `main` chooses from the stored token.

Messages are the datatype `Messages.Msg`. A printable key is `Runes(c)`, so the
key whose string is "j" is `Runes('j')`. The bubbles text input is reduced to
its string value, and a bubbles list to its items.

No pull-request filtering, classification or ranking exists in this code base.
The pull-requests screen sends one fixed query and only logs the response
(pull_requests_screen.go:63-72). So there is nothing of that kind to model.

## Model

| member | source | states |
|---|---|---|
| `RepositoryList.Without` | settings/settings.go:81-92 | the list after deletion keeps an entry iff it was in the list and differs from the deleted URL; it is never longer |
| `RepositoryList.WithoutConcat` | settings/settings.go:83-89 | deletion works entry by entry: deleting from `a + b` is deleting from `a` followed by deleting from `b` |
| `RepositoryList.WithoutSnoc` | settings/settings.go:83-89 | one loop iteration: the next entry is appended to the result exactly when it differs from the URL |
| `RepositoryList.WithoutIsSubsequence` | settings/settings.go:83-89 | the surviving entries keep their original relative order |
| `RepositoryList.WithoutCounts` | settings/settings.go:81-92 | every entry other than the URL survives as many times as it occurred; the URL survives zero times |
| `RepositoryList.WithoutAbsent` | settings/settings.go:81-92 | deleting a URL that is not in the list leaves the list unchanged |
| `RepositoryList.WithoutShrinks` | settings/settings.go:81-92 | deleting a URL that is in the list makes the list strictly shorter |
| `RepositoryList.WithoutIdempotent` | settings/settings.go:81-92 | deleting the same URL twice equals deleting it once |
| `RepositoryList.WithoutUndoesAppend` | settings/settings.go:76-92 | deleting a URL that was just appended, and was not in the list before, restores the list |
| `StoreSettings.Settings.constructor` | settings/settings.go:16-22 | a fresh store has an empty token and no repositories, and has saved nothing |
| `StoreSettings.Settings.Save` | settings/settings.go:51-63 | the persisted state becomes the in-memory token and list, which do not change |
| `StoreSettings.Settings.UpdateGitHubToken` | settings/settings.go:71-74 | the token becomes the argument, even "", the list is unchanged, and the result is saved |
| `StoreSettings.Settings.AddRepositoryUrl` | settings/settings.go:76-79 | the list becomes the old list followed by the URL, with no duplicate or emptiness check; the token is unchanged; the result is saved |
| `StoreSettings.Settings.DeleteRepositoryUrl` | settings/settings.go:81-92 | the list becomes `Without(old list, URL)`, so no entry equals the URL; the token is unchanged; the persisted state is left stale |
| `MainSettings.Settings.constructor` | settings.go:16-23 | a fresh store has an empty token, an empty username and no repositories, and has saved nothing |
| `MainSettings.Settings.Save` | settings.go:52-64 | the persisted state becomes the in-memory token, username and list, which do not change |
| `MainSettings.Settings.UpdateGitHubToken` | settings.go:66-69 | only the token changes, to the argument; the result is saved |
| `MainSettings.Settings.UpdateUsername` | settings.go:71-74 | only the username changes, to the argument; the result is saved |
| `MainSettings.Settings.AddRepositoryUrl` | settings.go:76-79 | the URL is appended at the end; token and username are unchanged; the result is saved |
| `MainSettings.Settings.DeleteRepositoryUrl` | settings.go:81-92 | every copy of the URL is removed and the others keep their order (`Without`); token and username are unchanged; nothing is saved |
| `GlobalsSettings.Settings.constructor` | globals/settings.go:15-22 | a fresh store has an empty token and no repositories, and has saved nothing |
| `GlobalsSettings.Settings.Save` | globals/settings.go:51-63 | the persisted state becomes the in-memory token and list, which do not change |
| `GlobalsSettings.Settings.UpdateGitHubToken` | globals/settings.go:65-68 | only the token changes, to the argument; the result is saved |
| `GlobalsSettings.Settings.AddRepositoryUrl` | globals/settings.go:70-73 | the URL is appended and the earlier entries are kept; the result is saved |
| `GlobalsSettings.Settings.DeleteRepositoryUrl` | globals/settings.go:75-86 | no occurrence of the URL is left and the survivors keep their order (`Without`); the persisted state is not updated |
| `SettingsScreens.CursorDown` | settings_screen.go:64-71 | "j" moves to the next entry, or to 0 from the last one; a cursor in a non-empty list stays in it |
| `SettingsScreens.CursorUp` | settings_screen.go:72-79 | "k" moves to the previous entry, or to the last one from 0; a cursor in a non-empty list stays in it |
| `SettingsScreens.TypedChar` | settings_screen.go:162-164 | the character a key types: the rune of a printable key, a blank for the space bar, none for any other key |
| `SettingsScreens.TypeInto` | settings_screen.go:162-164 | with the input's cursor at the end: "ctrl+u" empties the value; otherwise the value is only ever extended, by exactly the typed character, and only while it is shorter than the 200-character limit |
| `SettingsScreens.CursorRoundTrip` | settings_screen.go:64-79 | on a non-empty list with the cursor in range, "j" then "k" (and "k" then "j") restore the cursor |
| `SettingsScreens.CursorOnEmptyList` | settings_screen.go:64-79 | on an empty list the wrap-around leaves the range: "j" from 0 gives 1 and "k" from 0 gives -1 |
| `SettingsScreens.NavigationInEveryMode` | settings_screen.go:63-79 | "j" and "k" move the cursor the same way in every mode and keep the mode, the token and the list; in the default mode the text is unchanged, in an input mode the letter is also typed into it |
| `SettingsScreens.TypingInDefaultMode` | settings_screen.go:162-164 | in the default mode a typed character other than "j" and "k" changes nothing, because the text input is not fed |
| `SettingsScreens.TypingInInputMode` | settings_screen.go:162-164 | in either input mode a typed character, or a blank for the space bar, is appended to the text, up to the limit |
| `SettingsScreens.EscapeReturnsToDefault` | settings_screen.go:80-86 | "esc" in an input mode returns to the default mode and clears the text; in the default mode it changes nothing |
| `SettingsScreens.ShortcutsEnterInputModes` | settings_screen.go:87-94 | "ctrl+u" enters token input and "ctrl+r" enters repository input, from any mode; the key then reaches the text input, so "ctrl+u" empties the text and "ctrl+r" keeps it |
| `SettingsScreens.EnterStoresToken` | settings_screen.go:130-142 | "enter" in token input stores the text as the token, even "", and ends in the default mode with an empty text |
| `SettingsScreens.EnterAddsRepository` | settings_screen.go:143-154 | "enter" in repository input appends the text to the list, even "", and ends in the default mode with an empty text |
| `SettingsScreens.DeleteKeepsCursor` | settings_screen.go:95-98 | "delete" removes every copy of the selected URL and leaves the cursor where it was |
| `SettingsScreens.DeleteOnLastEntryLeavesRange` | settings_screen.go:95-98 | "delete" with the cursor on the last entry always leaves the cursor outside the list, because the cursor is not adjusted |
| `SettingsScreens.DeleteCanLeaveRange` | settings_screen.go:95-98 | deleting the only entry leaves the cursor outside the list, and a second "delete" then indexes out of bounds |
| `SettingsScreens.StepKeepsSelection` | settings_screen.go:63-164 | every message except "delete" keeps a cursor that designates an entry designating one, and cannot index out of bounds |
| `SettingsScreens.RunWithoutDeleteKeepsSelection` | settings_screen.go:55-167 | from a cursor in range, any sequence of messages without "delete" never panics and keeps the cursor in range |
| `SettingsScreens.SettingsScreen.constructor` | settings_screen.go:33-49 | a new screen is in the default mode with the cursor at 0 and an empty text |
| `SettingsScreens.SettingsScreen.Update` | settings_screen.go:55-167 | the screen's fields and the store's token and list change exactly as `Step` says; only "enter" in an input mode saves the store |
| `Board.Toggled` | main.go:57-63 | the toggled column is always "waiting" or "checked", and it is "waiting" iff the old column was "checked" |
| `Board.Highlighted` | main.go:161-171 | View renders iff the column is "waiting" or "checked", and it highlights that column; otherwise it panics |
| `Board.ToggleTwice` | main.go:57-63 | toggling twice from "waiting" or "checked" gives the original column |
| `Board.ToggleTwiceFromZero` | main.go:57-63 | toggling the zero column "" twice gives "waiting", not "" |
| `Board.ToggleKeepsViewTotal` | main.go:161-170 | after any toggle View cannot panic, and a valid column's highlight changes |
| `Board.Model.ToggleActiveColumn` | main.go:57-63 | the column becomes `Toggled` of the old one, which View can render; the lists are unchanged |
| `Board.Model.GetActiveList` | main.go:65-71 | the waiting list iff the column is "waiting", otherwise the checked list |
| `Board.Model.Update` | main.go:86-159 | "ctrl+c" and "q" quit; "up", "k", "down" and "j" update only the active list; "h", "l", "left" and "right" toggle the column once and touch nothing else; any other message updates the waiting list; a valid column stays valid |
| `Router.ForwardTarget` | main.go:186-192 | a message is forwarded to the settings screen iff it is active, otherwise to the pull-requests screen |
| `Router.Update` | main.go:186-215 | "ctrl+s" makes "settings" active and "ctrl+p" makes "pull_requests" active; any other message leaves the router unchanged; the message goes to the screen active before the switch; only "ctrl+q" quits |
| `Router.StartScreen` | main.go:264-269 | the start screen is "settings" iff the stored token is empty, otherwise "pull_requests" |
| `Router.SwitchKeyGoesToPreviousScreen` | main.go:186-206 | the "ctrl+s" or "ctrl+p" key itself is handled by the screen that was active before the switch |
| `Router.KnownPreserved` | main.go:194-214 | a router on one of the two screens stays on one of them after any messages |
| `Router.RouterStaysKnown` | main.go:264-292 | starting from the screen main chooses, the router is always on "settings" or "pull_requests" |
| `Router.LastSwitchWins` | main.go:194-200 | after any messages followed by "ctrl+s", the settings screen is active |

## Left out

- `Load` and the bodies of `Save` in all three stores are left out: they stat, read and write the JSON configuration file. `Save` is modelled only by the ghost `persisted` field. The configuration-file bootstrapping in `main` (main.go:231-262) is left out for the same reason.
- The configuration file path and the logger fields of the stores are left out. They are I/O.
- `SettingsScreens.SettingsScreen.Update` does not model opening the selected repository in a browser on "enter" in the default mode (settings_screen.go:104-128). That is a process launch, and it panics when the launch fails. Only the list indexing it does is modelled, as a requirement that the cursor is in range.
- `SettingsScreens.SettingsScreen.Update` requires the cursor in range for "delete" and for "enter" in the default mode. The Go program panics on an out-of-range index there. `Run` shows that panic as `None`.
- `SettingsScreens.SettingsScreen.Update` does not model the call that hands the new token to the GitHub client (settings_screen.go:135). That client is an HTTP library. It also leaves out the key logging and the commands returned to bubbletea.
- `SettingsScreens.TypeInto` is weaker than the bubbles text input. It reduces the input to its value, with the input's cursor always at the end. A typed character (the space bar included) is appended while the value is under 200 characters, and "ctrl+u" deletes everything before the cursor, which is then the whole value. The cursor's movement, the other editing keys (backspace, "ctrl+w", "ctrl+k" and so on) and pasting several characters at once are not modelled: such keys leave the value unchanged in the model.
- `Board.Model.Update` does not model the bubbles list widget. A list's reaction to a message is the parameter `listUpdate`, and the commands the lists return are dropped. A resize also sets list sizes and style widths (main.go:140-153), which are rendering and are not modelled.
- `Board.Model.GetActiveList` returns the list's value, not a pointer into the model, so aliasing through the returned pointer is not captured.
- The router's two screens have types that are not part of this model (`SettingsScreenModel` and `PullRequestsScreenModel`). Their updates are discarded by the router (main.go:189-191), so the model records only which screen a message was forwarded to.
- `Router.Update` does not model the command the router returns. For every message except "ctrl+q" it passes on the active screen's command (main.go:188-192, 200, 205, 214). Its `quit` says only that the router itself asks to quit; a screen's own command could quit too. `SettingsScreenModel` is not declared in any file of this code base. The pull-requests screen's `Update` always returns no command (pull_requests_screen.go:77-92).
- `Router.RouterStaysKnown` starts from the router that `main` builds. Before building it, `main` sends a GraphQL query and panics when it fails (main.go:271-286). That network call is not modelled, so the lemma covers only runs in which the query succeeded.
- All `View` methods, styles, help text and word wrapping are left out. They are rendering. The exception is the choice of `View` in main.go between its two columns and its panic, modelled by `Board.Highlighted`.
- The pull-requests screen is left out. Its `Init` is a GraphQL network call that clears the token when the error text contains "401" (pull_requests_screen.go:48-75). Its `Update` only logs.
- The GitHub API clients (github_api.go, globals/github_api.go, the transport in main.go:17-25) and the loggers are left out. They are foreign library calls and file I/O.
- `main.go` and `settings.go` both declare a `Settings` type in package `main` (main.go:225, settings.go:8); the code base is mid-refactor. Each file is modelled as written: `Router.StartScreen` uses the token of main.go's type, and `MainSettings` models settings.go's.
