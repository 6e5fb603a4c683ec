/**
 * The navigation state of the interactive audio menu: the current menu, the
 * stack of menus to go back to and the selected row, driven by key events,
 * letter shortcuts and the "execute selected" action. Rendering is not
 * modelled; where the recording menu calls the archive service, the
 * service's outcome is a parameter.
 */
module AudioMenu {
  import opened Common

  type SessionId = nat

  datatype MenuState =
    | MainMenu
    | RecordingMenu
    | SessionManagement
    | PlaybackMenu
    | StorageManagement
    | Settings
    | Help
    | RecordingInProgress(session: SessionId)
    | SessionDetails(session: SessionId)
    | SearchSessions
    | CompressionMenu
    | CleanupMenu

  /** `MenuResult`. */
  datatype MenuResult = Continue | Exit | MenuError(message: string)

  /** The keys the handler distinguishes. */
  datatype KeyCode = Up | Down | Enter | Esc | Backspace | Char(c: char) | OtherKey

  /** `MenuConfig`; durations in milliseconds. */
  datatype MenuConfig = MenuConfig(
    voice_commands_enabled: bool, auto_refresh_interval_ms: nat, use_colors: bool,
    show_help_hints: bool, animation_speed_ms: nat)

  function DefaultMenuConfig(): MenuConfig
  {
    MenuConfig(true, 500, true, true, 100)
  }

  /** The navigation state as a value. */
  datatype Nav = Nav(current: MenuState, history: seq<MenuState>, selected: nat)

  /** `navigate_to`: push the current menu, switch, select the first row. */
  function NavigateTo(n: Nav, target: MenuState): (r: Nav)
    ensures r.current == target && r.selected == 0
    ensures r.history == n.history + [n.current]
  {
    Nav(target, n.history + [n.current], 0)
  }

  /** `go_back`: pop the previous menu and select its first row; nothing happens at the root. */
  function GoBack(n: Nav): (r: Nav)
    ensures |n.history| == 0 ==> r == n
    ensures |n.history| > 0 ==>
      r == Nav(n.history[|n.history| - 1], n.history[..|n.history| - 1], 0)
  {
    if |n.history| == 0 then n
    else Nav(n.history[|n.history| - 1], n.history[..|n.history| - 1], 0)
  }

  /** Going back after navigating restores the menu and its history. */
  lemma NavigateThenBack(n: Nav, target: MenuState)
    ensures GoBack(NavigateTo(n, target)) == n.(selected := 0)
  {
    assert (n.history + [n.current])[..|n.history|] == n.history;
  }

  /** The history only grows by navigation: the stack depth is the number of navigations not undone. */
  lemma BackShrinksHistory(n: Nav)
    ensures |GoBack(n).history| == if |n.history| == 0 then 0 else |n.history| - 1
  {
  }

  /** The menu a main-menu shortcut letter leads to. */
  function ShortcutTarget(c: char): Option<MenuState>
  {
    if c == 'r' then Some(RecordingMenu)
    else if c == 's' then Some(SessionManagement)
    else if c == 'p' then Some(PlaybackMenu)
    else if c == 'm' then Some(StorageManagement)
    else if c == 'c' then Some(Settings)
    else if c == 'h' then Some(Help)
    else None
  }

  /** `handle_shortcut`: letters act only in the main menu. */
  function Shortcut(n: Nav, c: char): (r: (MenuResult, Nav))
    ensures r.0 == Continue
    ensures n.current != MainMenu || ShortcutTarget(c).None? ==> r.1 == n
    ensures n.current == MainMenu && ShortcutTarget(c).Some? ==> r.1 == NavigateTo(n, ShortcutTarget(c).value)
  {
    if n.current == MainMenu && ShortcutTarget(c).Some? then (Continue, NavigateTo(n, ShortcutTarget(c).value))
    else (Continue, n)
  }

  /** The menu a main-menu row leads to (rows 0 to 5). */
  function MainRowTarget(i: nat): Option<MenuState>
  {
    if i == 0 then Some(RecordingMenu)
    else if i == 1 then Some(SessionManagement)
    else if i == 2 then Some(PlaybackMenu)
    else if i == 3 then Some(StorageManagement)
    else if i == 4 then Some(Settings)
    else if i == 5 then Some(Help)
    else None
  }

  /**
   * `execute_selected_action`. In the main menu rows 0 to 5 navigate and row
   * 6 exits. In the recording menu the rows call the archive service:
   * while recording, row 0 pauses and row 1 stops and returns to the main
   * menu; otherwise row 0 starts a quick recording and shows its progress,
   * and row 1 opens the settings. `call` is the outcome of that service
   * call (the new session id for a start); a failed call is returned as the
   * error and navigates nowhere.
   */
  function ExecuteSelected(n: Nav, recording: bool, call: Result<SessionId, string>): (r: Result<(MenuResult, Nav), string>)
    ensures n.current != MainMenu && n.current != RecordingMenu ==> r == Ok((Continue, n))
    ensures n.current == MainMenu ==> r.Ok?
    ensures n.current == MainMenu && MainRowTarget(n.selected).Some? ==>
      r == Ok((Continue, NavigateTo(n, MainRowTarget(n.selected).value)))
    ensures n.current == MainMenu && n.selected == 6 ==> r == Ok((Exit, n))
    ensures n.current == MainMenu && n.selected > 6 ==> r == Ok((Continue, n))
  {
    match n.current
    case MainMenu =>
      if MainRowTarget(n.selected).Some? then Ok((Continue, NavigateTo(n, MainRowTarget(n.selected).value)))
      else if n.selected == 6 then Ok((Exit, n))
      else Ok((Continue, n))
    case RecordingMenu =>
      if recording then
        if n.selected == 0 then
          if call.Err? then Err(call.error) else Ok((Continue, n))
        else if n.selected == 1 then
          if call.Err? then Err(call.error) else Ok((Continue, NavigateTo(n, MainMenu)))
        else Ok((Continue, n))
      else
        if n.selected == 0 then
          if call.Err? then Err(call.error) else Ok((Continue, NavigateTo(n, RecordingInProgress(call.value))))
        else if n.selected == 1 then Ok((Continue, NavigateTo(n, Settings)))
        else Ok((Continue, n))
    case _ => Ok((Continue, n))
  }

  /** `handle_key_event`, in the program's order of key patterns. */
  function KeyStep(n: Nav, key: KeyCode, recording: bool, call: Result<SessionId, string>): (r: Result<(MenuResult, Nav), string>)
    ensures key == Up || key == Char('k') ==>
      r == Ok((Continue, n.(selected := if n.selected > 0 then n.selected - 1 else 0)))
    ensures key == Down || key == Char('j') ==> r == Ok((Continue, n.(selected := n.selected + 1)))
    ensures key == Esc || key == Backspace ==> r == Ok((Continue, GoBack(n)))
    ensures key == Char('q') ==> r == (if n.current == MainMenu then Ok((Exit, n)) else Ok((Continue, GoBack(n))))
    ensures key == OtherKey ==> r == Ok((Continue, n))
  {
    match key
    case Up => Ok((Continue, n.(selected := if n.selected > 0 then n.selected - 1 else 0)))
    case Down => Ok((Continue, n.(selected := n.selected + 1)))
    case Enter => ExecuteSelected(n, recording, call)
    case Esc => Ok((Continue, GoBack(n)))
    case Backspace => Ok((Continue, GoBack(n)))
    case Char(c) =>
      if c == 'k' then Ok((Continue, n.(selected := if n.selected > 0 then n.selected - 1 else 0)))
      else if c == 'j' then Ok((Continue, n.(selected := n.selected + 1)))
      else if c == ' ' then ExecuteSelected(n, recording, call)
      else if c == 'q' then (if n.current == MainMenu then Ok((Exit, n)) else Ok((Continue, GoBack(n))))
      else Ok(Shortcut(n, c))
    case OtherKey => Ok((Continue, n))
  }

  /** Only 'q' in the main menu and main-menu row 6 end the menu loop. */
  lemma ExitOnlyFromMain(n: Nav, key: KeyCode, recording: bool, call: Result<SessionId, string>)
    requires KeyStep(n, key, recording, call).Ok? && KeyStep(n, key, recording, call).value.0 == Exit
    ensures n.current == MainMenu
    ensures key == Char('q') || ((key == Enter || key == Char(' ')) && n.selected == 6)
  {
  }

  /** Letters other than the handled ones change nothing outside the main menu. */
  lemma ShortcutsOnlyInMain(n: Nav, c: char, recording: bool, call: Result<SessionId, string>)
    requires n.current != MainMenu
    requires c != 'k' && c != 'j' && c != ' ' && c != 'q'
    ensures KeyStep(n, Char(c), recording, call) == Ok((Continue, n))
  {
  }

  class AudioRecordingMenu {
    var current_menu: MenuState
    var menu_history: seq<MenuState>
    var selected_index: nat
    var config: MenuConfig

    function State(): Nav
      reads this
    {
      Nav(current_menu, menu_history, selected_index)
    }

    /** `AudioRecordingMenu::new`: the main menu, first row, no history. */
    constructor ()
      ensures current_menu == MainMenu && selected_index == 0 && menu_history == []
      ensures config == DefaultMenuConfig()
    {
      current_menu := MainMenu;
      menu_history := [];
      selected_index := 0;
      config := DefaultMenuConfig();
    }

    method Navigate(target: MenuState) returns (r: MenuResult)
      modifies this
      ensures r == Continue && State() == NavigateTo(old(State()), target) && config == old(config)
    {
      menu_history := menu_history + [current_menu];
      current_menu := target;
      selected_index := 0;
      r := Continue;
    }

    method Back() returns (r: MenuResult)
      modifies this
      ensures r == Continue && State() == GoBack(old(State())) && config == old(config)
    {
      if |menu_history| > 0 {
        current_menu := menu_history[|menu_history| - 1];
        menu_history := menu_history[..|menu_history| - 1];
        selected_index := 0;
      }
      r := Continue;
    }

    method HandleShortcut(c: char) returns (r: MenuResult)
      modifies this
      ensures (r, State()) == Shortcut(old(State()), c) && config == old(config)
    {
      r := Continue;
      if current_menu == MainMenu {
        var target := ShortcutTarget(c);
        if target.Some? {
          r := Navigate(target.value);
        }
      }
    }

    method ExecuteSelectedAction(recording: bool, call: Result<SessionId, string>) returns (r: Result<MenuResult, string>)
      modifies this
      ensures var e := ExecuteSelected(old(State()), recording, call);
        && (e.Ok? ==> r == Ok(e.value.0) && State() == e.value.1)
        && (e.Err? ==> r == Err(e.error) && State() == old(State()))
      ensures config == old(config)
    {
      match current_menu
      case MainMenu =>
        var target := MainRowTarget(selected_index);
        if target.Some? {
          var m := Navigate(target.value);
          r := Ok(m);
        } else if selected_index == 6 {
          r := Ok(Exit);
        } else {
          r := Ok(Continue);
        }
      case RecordingMenu =>
        if recording {
          if selected_index == 0 {
            if call.Err? { return Err(call.error); }
            r := Ok(Continue);
          } else if selected_index == 1 {
            if call.Err? { return Err(call.error); }
            var m := Navigate(MainMenu);
            r := Ok(m);
          } else {
            r := Ok(Continue);
          }
        } else {
          if selected_index == 0 {
            if call.Err? { return Err(call.error); }
            var m := Navigate(RecordingInProgress(call.value));
            r := Ok(m);
          } else if selected_index == 1 {
            var m := Navigate(Settings);
            r := Ok(m);
          } else {
            r := Ok(Continue);
          }
        }
      case _ =>
        r := Ok(Continue);
    }

    method HandleKeyEvent(key: KeyCode, recording: bool, call: Result<SessionId, string>) returns (r: Result<MenuResult, string>)
      modifies this
      ensures var e := KeyStep(old(State()), key, recording, call);
        && (e.Ok? ==> r == Ok(e.value.0) && State() == e.value.1)
        && (e.Err? ==> r == Err(e.error) && State() == old(State()))
      ensures config == old(config)
    {
      if key == Up || key == Char('k') {
        if selected_index > 0 {
          selected_index := selected_index - 1;
        }
        r := Ok(Continue);
      } else if key == Down || key == Char('j') {
        selected_index := selected_index + 1;
        r := Ok(Continue);
      } else if key == Enter || key == Char(' ') {
        r := ExecuteSelectedAction(recording, call);
      } else if key == Esc || key == Backspace {
        var m := Back();
        r := Ok(m);
      } else if key == Char('q') {
        if current_menu == MainMenu {
          r := Ok(Exit);
        } else {
          var m := Back();
          r := Ok(m);
        }
      } else if key.Char? {
        var m := HandleShortcut(key.c);
        r := Ok(m);
      } else {
        r := Ok(Continue);
      }
    }
  }

  /** A new menu is at the main menu; 'r' opens recording, Esc comes back, 'q' exits. */
  method MenuScenario() returns (start: MenuState, afterR: MenuState, afterEsc: MenuState, last: Result<MenuResult, string>)
    ensures start == MainMenu && afterR == RecordingMenu && afterEsc == MainMenu && last == Ok(Exit)
  {
    var menu := new AudioRecordingMenu();
    start := menu.current_menu;
    var _ := menu.HandleKeyEvent(Char('r'), false, Ok(0));
    afterR := menu.current_menu;
    var _ := menu.HandleKeyEvent(Esc, false, Ok(0));
    afterEsc := menu.current_menu;
    last := menu.HandleKeyEvent(Char('q'), false, Ok(0));
  }
}
