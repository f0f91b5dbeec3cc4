/**
 * The two-column board and the screen router of package `main` (main.go).
 * A `Column` is a string, as in the source, so the zero value "" exists next
 * to "waiting" and "checked". The bubbles list widget is abstracted as a
 * `ListModel` value whose reaction to a message is a parameter (`listUpdate`).
 */
module Board {
  import opened Wrappers
  import opened Messages

  type Column = string

  const Waiting: Column := "waiting"
  const Checked: Column := "checked"

  /** A pull request row of a list. */
  datatype PullRequest = PullRequest(id: string, title: string)

  /** The list widget's items; its cursor, size and filter state are not modelled. */
  datatype ListModel = ListModel(items: seq<PullRequest>)

  /** The column that ToggleActiveColumn makes active: "checked" goes to "waiting", anything else to "checked". */
  function Toggled(column: Column): (r: Column)
    ensures r == Waiting || r == Checked
    ensures r == Waiting <==> column == Checked
  {
    if column == Checked then Waiting else Checked
  }

  /** The column View highlights; None where View panics on an unknown column. */
  function Highlighted(column: Column): (r: Option<Column>)
    ensures r.Some? <==> column == Waiting || column == Checked
    ensures r.Some? ==> r.value == column
  {
    if column == Waiting then Some(Waiting)
    else if column == Checked then Some(Checked)
    else None
  }

  /** Toggling twice from "waiting" or "checked" gives the column back. */
  lemma ToggleTwice(column: Column)
    requires column == Waiting || column == Checked
    ensures Toggled(Toggled(column)) == column
  {
  }

  /** The zero column "" is not given back by two toggles: it ends at "waiting". */
  lemma ToggleTwiceFromZero()
    ensures Toggled(Toggled("")) == Waiting != ""
  {
  }

  /** After a toggle, View never reaches its panic, and the highlighted column changes. */
  lemma ToggleKeepsViewTotal(column: Column)
    ensures Highlighted(Toggled(column)).Some?
    ensures Highlighted(column).Some? ==> Highlighted(Toggled(column)) != Highlighted(column)
  {
  }

  class Model {
    var activeColumn: Column
    var waiting: ListModel
    var checked: ListModel

    /** The active column is one View can render. */
    predicate Valid()
      reads this
    {
      Highlighted(activeColumn).Some?
    }

    method ToggleActiveColumn()
      modifies this
      ensures activeColumn == Toggled(old(activeColumn))
      ensures Valid()
      ensures waiting == old(waiting) && checked == old(checked)
    {
      if activeColumn == Checked {
        activeColumn := Waiting;
      } else {
        activeColumn := Checked;
      }
    }

    /** The waiting list when the active column is "waiting", the checked list otherwise (including ""). */
    function GetActiveList(): (r: ListModel)
      reads this
      ensures activeColumn == Waiting ==> r == waiting
      ensures activeColumn != Waiting ==> r == checked
    {
      if activeColumn == Waiting then waiting else checked
    }

    /**
     * Update: "ctrl+c" and "q" quit; "up", "k", "down", "j" go to the active
     * list; "left", "h", "right", "l" toggle the column once and touch nothing
     * else; every other message (including "enter", " " and a resize) goes to
     * the waiting list whichever column is active.
     */
    method Update(msg: Msg, listUpdate: (ListModel, Msg) -> ListModel) returns (quit: bool)
      modifies this
      ensures quit <==> msg == KeyMsg(CtrlC) || msg == KeyMsg(Runes('q'))
      ensures IsToggleKey(msg) ==>
        activeColumn == Toggled(old(activeColumn)) && waiting == old(waiting) && checked == old(checked)
      ensures !IsToggleKey(msg) ==> activeColumn == old(activeColumn)
      ensures IsListKey(msg) && old(activeColumn) == Waiting ==>
        waiting == listUpdate(old(waiting), msg) && checked == old(checked)
      ensures IsListKey(msg) && old(activeColumn) != Waiting ==>
        checked == listUpdate(old(checked), msg) && waiting == old(waiting)
      ensures !quit && !IsToggleKey(msg) && !IsListKey(msg) ==>
        waiting == listUpdate(old(waiting), msg) && checked == old(checked)
      ensures quit ==> waiting == old(waiting) && checked == old(checked)
      ensures old(Valid()) ==> Valid()
    {
      if msg.KeyMsg? {
        var key := msg.key;
        if key == CtrlC || key == Runes('q') {
          return true;
        } else if key == Up || key == Runes('k') || key == Down || key == Runes('j') {
          if activeColumn == Waiting {
            waiting := listUpdate(waiting, msg);
          } else {
            checked := listUpdate(checked, msg);
          }
          return false;
        } else if key == Left || key == Runes('h') || key == Right || key == Runes('l') {
          ToggleActiveColumn();
          return false;
        }
      }
      // A resize also sets the lists' sizes and the column styles' widths; those are not modelled.
      waiting := listUpdate(waiting, msg);
      quit := false;
    }
  }

  /** "left", "h", "right" and "l". */
  predicate IsToggleKey(msg: Msg)
  {
    msg == KeyMsg(Left) || msg == KeyMsg(Runes('h')) || msg == KeyMsg(Right) || msg == KeyMsg(Runes('l'))
  }

  /** "up", "k", "down" and "j". */
  predicate IsListKey(msg: Msg)
  {
    msg == KeyMsg(Up) || msg == KeyMsg(Runes('k')) || msg == KeyMsg(Down) || msg == KeyMsg(Runes('j'))
  }
}

/**
 * The screen router of main.go: it forwards every message to the active
 * screen, then "ctrl+s" and "ctrl+p" switch screens and "ctrl+q" quits.
 * The router is a value; Update returns the new router.
 */
module Router {
  import opened Messages

  const SettingsScreen := "settings"
  const PullRequestsScreen := "pull_requests"

  datatype RouterModel = RouterModel(activeModel: string)

  /** The new router, the screen the message was forwarded to, and whether the program quits. */
  datatype Outcome = Outcome(router: RouterModel, forwardedTo: string, quit: bool)

  /** The screen that gets a message: the settings screen iff it is active, the pull-requests screen otherwise. */
  function ForwardTarget(r: RouterModel): (screen: string)
    ensures screen == SettingsScreen <==> r.activeModel == SettingsScreen
    ensures screen == SettingsScreen || screen == PullRequestsScreen
  {
    if r.activeModel == SettingsScreen then SettingsScreen else PullRequestsScreen
  }

  /** RouterModel.Update. */
  function Update(r: RouterModel, msg: Msg): (o: Outcome)
    ensures o.forwardedTo == ForwardTarget(r)
    ensures msg == KeyMsg(CtrlS) ==> o.router.activeModel == SettingsScreen
    ensures msg == KeyMsg(CtrlP) ==> o.router.activeModel == PullRequestsScreen
    ensures msg != KeyMsg(CtrlS) && msg != KeyMsg(CtrlP) ==> o.router == r
    ensures o.quit <==> msg == KeyMsg(CtrlQ)
  {
    var target := ForwardTarget(r);
    if msg == KeyMsg(CtrlS) then Outcome(RouterModel(SettingsScreen), target, false)
    else if msg == KeyMsg(CtrlP) then Outcome(RouterModel(PullRequestsScreen), target, false)
    else if msg == KeyMsg(CtrlQ) then Outcome(r, target, true)
    else Outcome(r, target, false)
  }

  /** The start screen chosen in main: the settings screen iff no token is stored. */
  function StartScreen(githubToken: string): (screen: string)
    ensures screen == SettingsScreen <==> githubToken == ""
    ensures screen == PullRequestsScreen <==> githubToken != ""
  {
    if githubToken == "" then SettingsScreen else PullRequestsScreen
  }

  /** The router is on one of the two screens. */
  predicate Known(r: RouterModel)
  {
    r.activeModel == SettingsScreen || r.activeModel == PullRequestsScreen
  }

  /** The router after the messages of a sequence, taken one at a time. */
  function RunRouter(r: RouterModel, msgs: seq<Msg>): RouterModel
    decreases |msgs|
  {
    if msgs == [] then r else RunRouter(Update(r, msgs[0]).router, msgs[1..])
  }

  /** The switching key itself is forwarded to the screen that was active before the switch. */
  lemma SwitchKeyGoesToPreviousScreen()
    ensures Update(RouterModel(PullRequestsScreen), KeyMsg(CtrlS)).forwardedTo == PullRequestsScreen
    ensures Update(RouterModel(SettingsScreen), KeyMsg(CtrlP)).forwardedTo == SettingsScreen
  {
  }

  /** Starting from the screen main chooses, the router is on one of the two screens after any messages. */
  lemma {:induction false} RouterStaysKnown(githubToken: string, msgs: seq<Msg>)
    ensures Known(RunRouter(RouterModel(StartScreen(githubToken)), msgs))
  {
    KnownPreserved(RouterModel(StartScreen(githubToken)), msgs);
  }

  /** Every message keeps the router on one of the two screens. */
  lemma {:induction false} KnownPreserved(r: RouterModel, msgs: seq<Msg>)
    requires Known(r)
    ensures Known(RunRouter(r, msgs))
    decreases |msgs|
  {
    if msgs != [] {
      KnownPreserved(Update(r, msgs[0]).router, msgs[1..]);
    }
  }

  /** Once a message ends in "ctrl+s", the router shows the settings screen, whatever came before. */
  lemma {:induction false} LastSwitchWins(r: RouterModel, msgs: seq<Msg>)
    ensures RunRouter(r, msgs + [KeyMsg(CtrlS)]).activeModel == SettingsScreen
    decreases |msgs|
  {
    if msgs == [] {
      assert msgs + [KeyMsg(CtrlS)] == [KeyMsg(CtrlS)];
    } else {
      assert (msgs + [KeyMsg(CtrlS)])[1..] == msgs[1..] + [KeyMsg(CtrlS)];
      LastSwitchWins(Update(r, msgs[0]).router, msgs[1..]);
    }
  }
}
