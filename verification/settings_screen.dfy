/**
 * The settings screen (settings_screen.go): a list of watched repositories with
 * a cursor, and two input modes in which a text field collects a new GitHub
 * token or a new repository URL. `Step` is the screen's reaction to one
 * message, on values; the class `SettingsScreen` is the screen object, whose
 * `Update` changes its fields and the settings store it points to exactly as
 * `Step` says.
 */
module SettingsScreens {
  import opened Wrappers
  import opened Messages
  import opened RepositoryList
  import StoreSettings

  /** The screen's mode. */
  datatype State = Default | AddGitHubToken | AddGitHubRepository

  /** The text input accepts at most this many characters. */
  const CharLimit := 200

  /** "j": the cursor moves down, from the last entry back to the first. */
  function CursorDown(index: int, count: int): (r: int)
    ensures 0 <= index < count ==> 0 <= r < count
    ensures r == 0 || r == index + 1
    ensures r == 0 <==> index == count - 1 || index == -1
  {
    if index == count - 1 then 0 else index + 1
  }

  /** "k": the cursor moves up, from the first entry to the last. */
  function CursorUp(index: int, count: int): (r: int)
    ensures 0 <= index < count ==> 0 <= r < count
    ensures r == count - 1 || r == index - 1
    ensures r == count - 1 <==> index == 0 || index == count
  {
    if index == 0 then count - 1 else index - 1
  }

  /** The character a key types into the text input: a printable key's rune, or a blank for the space bar. */
  function TypedChar(msg: Msg): (r: Option<char>)
    ensures r.Some? <==> msg.KeyMsg? && (msg.key.Runes? || msg.key == Space)
    ensures msg.KeyMsg? && msg.key.Runes? ==> r == Some(msg.key.c)
    ensures msg == KeyMsg(Space) ==> r == Some(' ')
  {
    if msg.KeyMsg? && msg.key.Runes? then Some(msg.key.c)
    else if msg == KeyMsg(Space) then Some(' ')
    else None
  }

  /**
   * The text input's reaction to a message, on its value, with the input's
   * cursor kept at the end: a typed character is appended while the value is
   * shorter than CharLimit, "ctrl+u" deletes everything before the cursor,
   * and nothing else changes the value.
   */
  function TypeInto(value: string, msg: Msg): (r: string)
    ensures msg == KeyMsg(CtrlU) ==> r == ""
    ensures msg != KeyMsg(CtrlU) ==> value <= r && |r| <= |value| + 1
    ensures msg != KeyMsg(CtrlU) && r != value ==> TypedChar(msg).Some? && r == value + [TypedChar(msg).value]
    ensures |r| <= if |value| < CharLimit then CharLimit else |value|
    ensures r != value <==>
      (TypedChar(msg).Some? && |value| < CharLimit) || (msg == KeyMsg(CtrlU) && value != "")
  {
    if msg == KeyMsg(CtrlU) then ""
    else if TypedChar(msg).Some? && |value| < CharLimit then value + [TypedChar(msg).value]
    else value
  }

  /** What the screen shows and edits: its own fields and the store's token and list. */
  datatype ScreenState = ScreenState(
    state: State,
    selected: int,
    text: string,
    githubToken: string,
    repositories: seq<string>)

  /** The cursor designates an entry of the repository list. */
  predicate Selects(s: ScreenState)
  {
    0 <= s.selected < |s.repositories|
  }

  /** "delete", and "enter" in the default mode, index the list at the cursor. */
  predicate InBounds(s: ScreenState, msg: Msg)
  {
    (msg == KeyMsg(Delete) || (msg == KeyMsg(Enter) && s.state == Default)) ==> Selects(s)
  }

  /** The key switch of Update. */
  function HandleKey(s: ScreenState, key: Key): ScreenState
    requires InBounds(s, KeyMsg(key))
  {
    if key == Runes('j') then s.(selected := CursorDown(s.selected, |s.repositories|))
    else if key == Runes('k') then s.(selected := CursorUp(s.selected, |s.repositories|))
    else if key == Esc then
      (if s.state == AddGitHubToken || s.state == AddGitHubRepository then s.(state := Default, text := "") else s)
    else if key == CtrlU then s.(state := AddGitHubToken)
    else if key == CtrlR then s.(state := AddGitHubRepository)
    else if key == Delete then s.(repositories := Without(s.repositories, s.repositories[s.selected]))
    else if key == Enter then
      match s.state
      case Default => s
      case AddGitHubToken => s.(githubToken := s.text, text := "", state := Default)
      case AddGitHubRepository => s.(repositories := s.repositories + [s.text], text := "", state := Default)
    else s
  }

  /** Update: the key switch, then the text input sees the message when the screen is in an input mode. */
  function Step(s: ScreenState, msg: Msg): ScreenState
    requires InBounds(s, msg)
  {
    var h := if msg.KeyMsg? then HandleKey(s, msg.key) else s;
    if h.state == AddGitHubToken || h.state == AddGitHubRepository then h.(text := TypeInto(h.text, msg)) else h
  }

  /** A sequence of messages; None when one of them indexes the list outside its bounds (the program panics). */
  function Run(s: ScreenState, msgs: seq<Msg>): Option<ScreenState>
    decreases |msgs|
  {
    if msgs == [] then Some(s)
    else if !InBounds(s, msgs[0]) then None
    else Run(Step(s, msgs[0]), msgs[1..])
  }

  /** On a non-empty list, "j" then "k" (and "k" then "j") bring the cursor back. */
  lemma CursorRoundTrip(index: int, count: int)
    requires 0 <= index < count
    ensures CursorUp(CursorDown(index, count), count) == index
    ensures CursorDown(CursorUp(index, count), count) == index
  {
  }

  /** On an empty list the wrap-around leaves the range: "j" from 0 gives 1, "k" from 0 gives -1. */
  lemma CursorOnEmptyList()
    ensures CursorDown(0, 0) == 1 && CursorUp(0, 0) == -1
  {
  }

  /**
   * "j" and "k" move the cursor the same way in every mode and keep the mode,
   * the token and the list; in an input mode the letter is typed as well.
   */
  lemma NavigationInEveryMode(s: ScreenState, mode: State, c: char)
    requires c == 'j' || c == 'k'
    ensures Step(s.(state := mode), KeyMsg(Runes(c))).selected ==
      if c == 'j' then CursorDown(s.selected, |s.repositories|) else CursorUp(s.selected, |s.repositories|)
    ensures Step(s.(state := mode), KeyMsg(Runes(c))).state == mode
    ensures Step(s.(state := mode), KeyMsg(Runes(c))).repositories == s.repositories
    ensures Step(s.(state := mode), KeyMsg(Runes(c))).githubToken == s.githubToken
    ensures mode == Default ==> Step(s.(state := mode), KeyMsg(Runes(c))).text == s.text
    ensures mode != Default && |s.text| < CharLimit ==> Step(s.(state := mode), KeyMsg(Runes(c))).text == s.text + [c]
  {
  }

  /** A typed character other than "j" and "k" changes nothing in the default mode... */
  lemma TypingInDefaultMode(s: ScreenState, c: char)
    requires s.state == Default && c != 'j' && c != 'k'
    ensures Step(s, KeyMsg(Runes(c))) == s
  {
  }

  /** ...and is appended to the text in an input mode, up to CharLimit; the space bar types a blank. */
  lemma TypingInInputMode(s: ScreenState, c: char)
    requires s.state != Default && |s.text| < CharLimit
    ensures Step(s, KeyMsg(Runes(c))).text == s.text + [c]
    ensures Step(s, KeyMsg(Space)).text == s.text + [' ']
  {
  }

  /** "esc" leaves an input mode and clears the text; in the default mode it changes nothing. */
  lemma EscapeReturnsToDefault(s: ScreenState)
    ensures Step(s, KeyMsg(Esc)).state == Default
    ensures s.state != Default ==> Step(s, KeyMsg(Esc)) == s.(state := Default, text := "")
    ensures s.state == Default ==> Step(s, KeyMsg(Esc)) == s
  {
  }

  /**
   * "ctrl+u" and "ctrl+r" enter their input mode from every mode. The key then
   * reaches the text input: "ctrl+u" clears the text, "ctrl+r" keeps it.
   */
  lemma ShortcutsEnterInputModes(s: ScreenState)
    ensures Step(s, KeyMsg(CtrlU)) == s.(state := AddGitHubToken, text := "")
    ensures Step(s, KeyMsg(CtrlR)) == s.(state := AddGitHubRepository)
  {
  }

  /** "enter" stores the text as the token, even "", and returns to the default mode with an empty text. */
  lemma EnterStoresToken(s: ScreenState)
    requires s.state == AddGitHubToken
    ensures Step(s, KeyMsg(Enter)) == s.(githubToken := s.text, text := "", state := Default)
  {
  }

  /** "enter" appends the text to the list, even "", and returns to the default mode with an empty text. */
  lemma EnterAddsRepository(s: ScreenState)
    requires s.state == AddGitHubRepository
    ensures Step(s, KeyMsg(Enter)).repositories == s.repositories + [s.text]
    ensures Step(s, KeyMsg(Enter)).state == Default && Step(s, KeyMsg(Enter)).text == ""
  {
  }

  /** "delete" removes every copy of the selected URL and leaves the cursor where it was. */
  lemma DeleteKeepsCursor(s: ScreenState)
    requires Selects(s)
    ensures Step(s, KeyMsg(Delete)).selected == s.selected
    ensures Step(s, KeyMsg(Delete)).repositories == Without(s.repositories, s.repositories[s.selected])
    ensures s.repositories[s.selected] !in Step(s, KeyMsg(Delete)).repositories
  {
  }

  /** "delete" with the cursor on the last entry leaves the cursor outside the list. */
  lemma {:induction false} DeleteOnLastEntryLeavesRange(s: ScreenState)
    requires Selects(s) && s.selected == |s.repositories| - 1
    ensures !Selects(Step(s, KeyMsg(Delete)))
  {
    WithoutShrinks(s.repositories, s.repositories[s.selected]);
  }

  /** Deleting the only entry leaves the cursor outside the list; a second "delete" then panics. */
  lemma DeleteCanLeaveRange()
    ensures var s := ScreenState(Default, 0, "", "", ["https://github.com/o/r"]);
            !Selects(Step(s, KeyMsg(Delete))) &&
            Run(s, [KeyMsg(Delete), KeyMsg(Delete)]) == None
  {
    var s := ScreenState(Default, 0, "", "", ["https://github.com/o/r"]);
    assert Step(s, KeyMsg(Delete)).repositories == [];
  }

  /** Every message but "delete" keeps a selecting cursor selecting. */
  lemma StepKeepsSelection(s: ScreenState, msg: Msg)
    requires Selects(s) && msg != KeyMsg(Delete)
    ensures InBounds(s, msg) && Selects(Step(s, msg))
  {
  }

  /** From a selecting cursor, messages without "delete" never panic and keep the cursor selecting. */
  lemma {:induction false} RunWithoutDeleteKeepsSelection(s: ScreenState, msgs: seq<Msg>)
    requires Selects(s)
    requires forall i :: 0 <= i < |msgs| ==> msgs[i] != KeyMsg(Delete)
    ensures Run(s, msgs).Some? && Selects(Run(s, msgs).value)
    decreases |msgs|
  {
    if msgs != [] {
      StepKeepsSelection(s, msgs[0]);
      RunWithoutDeleteKeepsSelection(Step(s, msgs[0]), msgs[1..]);
    }
  }

  class SettingsScreen {
    var TextValue: string
    var state: State
    var SelectedRepositoryIndex: int
    const Settings: StoreSettings.Settings

    ghost function Current(): ScreenState
      reads this, Settings
    {
      ScreenState(state, SelectedRepositoryIndex, TextValue, Settings.GithubToken, Settings.Repositories)
    }

    /** NewSettingsScreen: the default mode, the cursor on the first entry, an empty text. */
    constructor (settings: StoreSettings.Settings)
      ensures state == Default && SelectedRepositoryIndex == 0 && TextValue == ""
      ensures Settings == settings
    {
      TextValue := "";
      state := Default;
      SelectedRepositoryIndex := 0;
      Settings := settings;
    }

    /**
     * Update: the new screen and store are Step of the old ones. Only "enter"
     * in an input mode saves the store; "delete" leaves it unsaved.
     */
    method Update(msg: Msg)
      requires InBounds(Current(), msg)
      modifies this, Settings
      ensures Current() == Step(old(Current()), msg)
      ensures Settings.persisted ==
        if msg == KeyMsg(Enter) && old(state) != Default then Some(Settings.Current())
        else old(Settings.persisted)
    {
      if msg.KeyMsg? {
        var key := msg.key;
        if key == Runes('j') {
          if SelectedRepositoryIndex == |Settings.Repositories| - 1 {
            SelectedRepositoryIndex := 0;
          } else {
            SelectedRepositoryIndex := SelectedRepositoryIndex + 1;
          }
        } else if key == Runes('k') {
          if SelectedRepositoryIndex == 0 {
            SelectedRepositoryIndex := |Settings.Repositories| - 1;
          } else {
            SelectedRepositoryIndex := SelectedRepositoryIndex - 1;
          }
        } else if key == Esc {
          if state == AddGitHubToken || state == AddGitHubRepository {
            state := Default;
            TextValue := "";
          }
        } else if key == CtrlU {
          state := AddGitHubToken;
        } else if key == CtrlR {
          state := AddGitHubRepository;
        } else if key == Delete {
          Settings.DeleteRepositoryUrl(Settings.Repositories[SelectedRepositoryIndex]);
        } else if key == Enter {
          match state
          case Default =>
            // The selected repository is opened in a browser; only the indexing is modelled.
            var selectedRepository := Settings.Repositories[SelectedRepositoryIndex];
          case AddGitHubToken =>
            Settings.UpdateGitHubToken(TextValue);
            if TextValue != "" {
              TextValue := "";
            }
            state := Default;
          case AddGitHubRepository =>
            Settings.AddRepositoryUrl(TextValue);
            if TextValue != "" {
              TextValue := "";
            }
            state := Default;
        }
      }
      if state == AddGitHubToken || state == AddGitHubRepository {
        TextValue := TypeInto(TextValue, msg);
      }
    }
  }
}
