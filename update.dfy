/**
  The navigation state machine of the viewer (internal/tui/update.go): a
  group list and a line list, each a sequence with a cursor; a focus that is
  on the groups, on the line list, or on one line's detail; key bindings
  enabled or disabled from the cursor position; and the refresh that follows
  each scan.
 */
module Navigation {
  import opened Wrappers
  import opened Classify
  import opened Command

  /** Model.focus: "" before the first scan, "groups" or "logs". */
  datatype Focus = Unfocused | Groups | Logs

  /** The binding a key press belongs to (internal/tui/keys.go); Other for any other key. */
  datatype Key = Quit | GoToStart | GoToEnd | CursorUp | CursorDown | NextPage | PrevPage | Select | Escape | Other

  predicate IsCursorKey(k: Key)
  {
    k == CursorUp || k == CursorDown || k == NextPage || k == PrevPage
  }

  /** The pane that has the user's attention. */
  datatype Pane = NoPane | GroupPane | ListPane | DetailPane

  function PaneOf(focus: Focus, detail: bool): Pane
  {
    match focus
    case Unfocused => NoPane
    case Groups => GroupPane
    case Logs => if detail then DetailPane else ListPane
  }

  /**
    The pane after a key: Select goes from the groups to the line list, and
    from the line list to the detail of the line under the cursor (when there
    is one); Escape goes back one step; every other key keeps the pane.
   */
  function NextPane(p: Pane, k: Key, hasLine: bool): (r: Pane)
    ensures k != Select && k != Escape ==> r == p
    ensures p == NoPane ==> r == NoPane
    ensures k == Select && p == GroupPane ==> r == ListPane
    ensures k == Select && p == ListPane ==> (r == DetailPane <==> hasLine) && (r != DetailPane ==> r == ListPane)
    ensures k == Select && p == DetailPane ==> r == DetailPane
    ensures k == Escape && p == DetailPane ==> r == ListPane
    ensures k == Escape && p == ListPane ==> r == GroupPane
    ensures k == Escape && p == GroupPane ==> r == GroupPane
  {
    match k
    case Select =>
      (match p
       case GroupPane => ListPane
       case ListPane => if hasLine then DetailPane else ListPane
       case _ => p)
    case Escape =>
      (match p
       case DetailPane => ListPane
       case ListPane => GroupPane
       case _ => p)
    case _ => p
  }

  /** Escape undoes a Select that moved the focus. */
  lemma EscapeUndoesSelect(p: Pane, hasLine: bool, hasLine': bool)
    requires p == GroupPane || (p == ListPane && hasLine)
    ensures NextPane(NextPane(p, Select, hasLine), Escape, hasLine') == p
  {
  }

  /** From any focused pane, at most two Escapes lead back to the groups, where Escape stays. */
  lemma EscapeLeadsToGroups(p: Pane, h1: bool, h2: bool)
    requires p != NoPane
    ensures NextPane(NextPane(p, Escape, h1), Escape, h2) == GroupPane
  {
  }

  /** setKeysForIndex: up and previous-page are enabled exactly away from the first index. */
  function CanMoveBack(index: int): bool
  {
    index != 0
  }

  /**
    setKeysForIndex: down and next-page are disabled exactly at the last
    index; the first-index branch is tested first, so a one-item list keeps
    them enabled.
   */
  function CanMoveForward(index: int, count: int): (r: bool)
    ensures index == 0 ==> r
    ensures index != 0 ==> (r <==> index != count - 1)
  {
    index == 0 || index != count - 1
  }

  /** The first group with the given title, if any. */
  function FirstWithTitle(gs: seq<LogGroup>, title: string): (r: Option<nat>)
    ensures r.None? <==> forall j :: 0 <= j < |gs| ==> gs[j].title != title
    ensures r.Some? ==> (r.value < |gs| && gs[r.value].title == title
      && forall j :: 0 <= j < r.value ==> gs[j].title != title)
  {
    if gs == [] then None
    else if gs[0].title == title then Some(0)
    else match FirstWithTitle(gs[1..], title)
      case None => None
      case Some(i) => Some(i + 1)
  }

  /**
    The cursor of the group list after a refresh with `snapshot`: the first
    group titled like the one selected before, or the old cursor when there
    was no selection or no group carries that title.
   */
  function Reselected(old_: ListWidget<LogGroup>, snapshot: seq<LogGroup>): (r: int)
    ensures old_.Selected().Some? && FirstWithTitle(snapshot, old_.Selected().value.title).Some? ==>
      r == FirstWithTitle(snapshot, old_.Selected().value.title).value
    ensures !(old_.Selected().Some? && FirstWithTitle(snapshot, old_.Selected().value.title).Some?) ==>
      r == old_.index
  {
    match old_.Selected()
    case None => old_.index
    case Some(g) =>
      match FirstWithTitle(snapshot, g.title)
      case None => old_.index
      case Some(i) => i
  }

  /** A list widget (bubbles list.Model) as its items and its cursor, Index(). */
  datatype ListWidget<T> = ListWidget(items: seq<T>, index: int)
  {
    /** SelectedItem: none when the cursor is outside the items. */
    function Selected(): (r: Option<T>)
      ensures r.Some? <==> 0 <= index < |items|
      ensures r.Some? ==> r.value == items[index]
    {
      if 0 <= index < |items| then Some(items[index]) else None
    }
  }

  /** The enabled state of the bindings that can be disabled (KeyMap). */
  datatype KeyMap = KeyMap(up: bool, down: bool, prevPage: bool, nextPage: bool, select: bool, escape: bool)
  {
    /** Whether a key press matches its binding; Quit and the GoTo bindings are never disabled. */
    function Enabled(k: Key): bool
    {
      match k
      case CursorUp => up
      case CursorDown => down
      case PrevPage => prevPage
      case NextPage => nextPage
      case Select => select
      case Escape => escape
      case Other => false
      case _ => true
    }
  }

  /** DefaultKeyMap: every binding enabled. */
  const DefaultKeyMap := KeyMap(true, true, true, true, true, true)

  /** setKeysForIndex on a key map, for a cursor at `index` among `count` items. */
  function KeysFor(km: KeyMap, index: int, count: int): KeyMap
  {
    km.(up := CanMoveBack(index), prevPage := CanMoveBack(index),
        down := CanMoveForward(index, count), nextPage := CanMoveForward(index, count))
  }

  /** The four cursor bindings agree with a cursor at `index` among `count` items. */
  predicate KeysFollow(km: KeyMap, index: int, count: int)
  {
    && km.up == CanMoveBack(index) && km.prevPage == CanMoveBack(index)
    && km.down == CanMoveForward(index, count) && km.nextPage == CanMoveForward(index, count)
  }

  // ---------------------------------------------------------------------
  // The navigation state as a value, and its transitions

  /** What the keys and the scans act on: both lists, the focus, the detail shown and the bindings. */
  datatype Screen = Screen(list: ListWidget<LogGroup>, logs: ListWidget<LogLine>, focus: Focus,
                           focusLog: Option<LogLine>, keyMap: KeyMap)
  {
    function Pane(): Pane
    {
      PaneOf(focus, focusLog.Some?)
    }
  }

  /**
    Detail is only shown from the line list; Select is enabled exactly when
    no detail is shown; Escape is enabled exactly when the groups do not
    have the focus.
   */
  predicate Consistent(s: Screen)
  {
    && (s.focusLog.Some? ==> s.focus == Logs)
    && (s.keyMap.select <==> s.focusLog.None?)
    && (s.keyMap.escape <==> s.focus != Groups)
  }

  /**
    What the line list should show for group list `l`: the selected group's
    lines with its stored cursor, or nothing with cursor 0.
   */
  function Mirror(l: ListWidget<LogGroup>): ListWidget<LogLine>
    reads l.items
  {
    match l.Selected()
    case Some(g) => ListWidget(g.lines, g.selectedLine)
    case None => ListWidget([], 0)
  }

  /** focusOnGroups. */
  function ToGroups(s: Screen): Screen
  {
    s.(focus := Groups, keyMap := KeysFor(s.keyMap.(escape := false), s.list.index, |s.list.items|))
  }

  /** focusOnLogs. */
  function ToLogs(s: Screen): Screen
  {
    s.(focus := Logs, focusLog := None,
       keyMap := KeysFor(s.keyMap.(escape := true, select := true), s.logs.index, |s.logs.items|))
  }

  /** focusOnLogItem. */
  function ToLogItem(s: Screen, line: LogLine): Screen
  {
    s.(focusLog := Some(line), keyMap := s.keyMap.(select := false))
  }

  /**
    The cursor branch of handleKeys: the focused list's cursor goes to
    `moved`; moving through the groups refills the line list; the cursor
    bindings follow the list that moved. A shown detail only scrolls.
   */
  function CursorStep(s: Screen, moved: int): Screen
    reads s.list.items
  {
    if s.focus == Groups then
      var l := s.list.(index := moved);
      s.(list := l, logs := Mirror(l), keyMap := KeysFor(s.keyMap, moved, |l.items|))
    else if s.focus == Logs && s.focusLog.None? then
      s.(logs := s.logs.(index := moved), keyMap := KeysFor(s.keyMap, moved, |s.logs.items|))
    else s
  }

  /** handleKeys on the navigation state; a key whose binding is disabled matches no case. */
  function KeyStep(s: Screen, k: Key, moved: int): Screen
    reads s.list.items
  {
    if !s.keyMap.Enabled(k) then s
    else match k
      case Quit => s
      case GoToStart =>
        if s.focus == Groups then s.(list := s.list.(index := 0))
        else if s.focus == Logs && s.focusLog.None? then s.(logs := s.logs.(index := 0))
        else s
      case GoToEnd =>
        if s.focus == Groups then s.(list := s.list.(index := |s.list.items| - 1))
        else if s.focus == Logs && s.focusLog.None? then s.(logs := s.logs.(index := |s.logs.items| - 1))
        else s
      case Select =>
        if s.focus == Logs then
          (match s.logs.Selected()
           case Some(line) => ToLogItem(s, line)
           case None => s)
        else if s.focus == Groups then ToLogs(s)
        else s
      case Escape =>
        if s.focus == Logs then (if s.focusLog.Some? then ToLogs(s) else ToGroups(s))
        else s
      case Other => s
      case _ => CursorStep(s, moved)
  }

  /** The key refresh after a scan: the focused list sets the cursor keys; an unfocused viewer focuses the groups. */
  function KeysRefreshed(s: Screen): Screen
  {
    if s.focus == Groups then s.(keyMap := KeysFor(s.keyMap, s.list.index, |s.list.items|))
    else if s.focus == Logs && s.focusLog.None? then s.(keyMap := KeysFor(s.keyMap, s.logs.index, |s.logs.items|))
    else if s.focus == Unfocused then ToGroups(s)
    else s
  }

  /**
    The scanMsg branch of Update on the navigation state: the snapshot
    replaces the groups, the old selection is found again by title, the line
    list is refilled and the keys are refreshed.
   */
  function ScanStep(s: Screen, snapshot: seq<LogGroup>): Screen
    reads snapshot
  {
    var l := ListWidget(snapshot, Reselected(s.list, snapshot));
    KeysRefreshed(s.(list := l, logs := Mirror(l)))
  }

  // ---------------------------------------------------------------------
  // What the transitions promise

  /** handleKeys moves between the panes as NextPane says, a disabled binding acting as no key. */
  lemma KeyStepPane(s: Screen, k: Key, moved: int)
    requires Consistent(s)
    ensures var r := KeyStep(s, k, moved);
      && r.Pane() == NextPane(s.Pane(), if s.keyMap.Enabled(k) then k else Other, s.logs.Selected().Some?)
      && (r.Pane() == DetailPane && s.Pane() != DetailPane ==> r.focusLog == s.logs.Selected())
  {
    var k' := if s.keyMap.Enabled(k) then k else Other;
    if k' == Select || k' == Escape {
      assert s.keyMap.Enabled(k);
    } else if s.keyMap.Enabled(k) && IsCursorKey(k) {
      assert KeyStep(s, k, moved) == CursorStep(s, moved);
    }
  }

  /** Every key keeps the state consistent. */
  lemma KeyStepConsistent(s: Screen, k: Key, moved: int)
    requires Consistent(s)
    ensures Consistent(KeyStep(s, k, moved))
  {
    if s.keyMap.Enabled(k) && IsCursorKey(k) {
      assert KeyStep(s, k, moved) == CursorStep(s, moved);
    }
  }

  /**
    Keys that change nothing: a disabled binding, Quit, an unbound key,
    Escape in the groups, Select on a shown detail, and any key before the
    first scan.
   */
  lemma KeyStepIdle(s: Screen, k: Key, moved: int)
    requires Consistent(s)
    requires || !s.keyMap.Enabled(k) || k == Quit || k == Other || s.Pane() == NoPane
             || (k == Escape && s.Pane() == GroupPane) || (k == Select && s.Pane() == DetailPane)
    ensures KeyStep(s, k, moved) == s
  {
    if s.keyMap.Enabled(k) && IsCursorKey(k) {
      assert KeyStep(s, k, moved) == CursorStep(s, moved);
    }
  }

  /**
    A cursor key in the groups makes the line list mirror the new
    selection; Select, Escape and the keys that do nothing keep it mirrored.
   */
  lemma KeyStepMirrors(s: Screen, k: Key, moved: int)
    requires Consistent(s)
    ensures var r := KeyStep(s, k, moved);
      s.keyMap.Enabled(k) && IsCursorKey(k) && s.Pane() == GroupPane ==> r.logs == Mirror(r.list)
    ensures var r := KeyStep(s, k, moved);
      (s.logs == Mirror(s.list) && k != GoToStart && k != GoToEnd
       && !(s.keyMap.Enabled(k) && IsCursorKey(k) && s.Pane() == ListPane)) ==> r.logs == Mirror(r.list)
  {
    if s.keyMap.Enabled(k) && IsCursorKey(k) {
      assert KeyStep(s, k, moved) == CursorStep(s, moved);
    }
  }

  /**
    After a cursor key the four cursor bindings follow the list that moved,
    and a move in the line list keeps its lines.
   */
  lemma KeyStepKeysFollow(s: Screen, k: Key, moved: int)
    requires s.keyMap.Enabled(k) && IsCursorKey(k)
    ensures var r := KeyStep(s, k, moved);
      s.Pane() == GroupPane ==> r.list == s.list.(index := moved) && KeysFollow(r.keyMap, r.list.index, |r.list.items|)
    ensures var r := KeyStep(s, k, moved);
      s.Pane() == ListPane ==> r.logs == s.logs.(index := moved) && KeysFollow(r.keyMap, r.logs.index, |r.logs.items|)
  {
    assert KeyStep(s, k, moved) == CursorStep(s, moved);
  }

  /** Escape undoes Select from the groups, once the bindings follow the group cursor. */
  lemma SelectEscapeRoundTrip(s: Screen, m1: int, m2: int)
    requires Consistent(s) && s.Pane() == GroupPane
    requires KeysFollow(s.keyMap, s.list.index, |s.list.items|)
    ensures KeyStep(KeyStep(s, Select, m1), Escape, m2) == s
  {
    var t := KeyStep(s, Select, m1);
    assert t == ToLogs(s);
    assert KeyStep(t, Escape, m2) == ToGroups(t);
  }

  /** Escape closes the detail that Select opened, once the bindings follow the line cursor. */
  lemma DetailEscapeRoundTrip(s: Screen, m1: int, m2: int)
    requires Consistent(s) && s.Pane() == ListPane && s.logs.Selected().Some?
    requires KeysFollow(s.keyMap, s.logs.index, |s.logs.items|)
    ensures KeyStep(KeyStep(s, Select, m1), Escape, m2) == s
  {
    var t := KeyStep(s, Select, m1);
    assert t == ToLogItem(s, s.logs.Selected().value);
    assert KeyStep(t, Escape, m2) == ToLogs(t);
  }

  /**
    GoToStart in the groups moves the group cursor but neither refills the
    line list nor refreshes the bindings: with two groups whose lines
    differ, the lines of the second stay shown and Up stays enabled at
    index 0.
   */
  lemma GoToLeavesStaleLines(s: Screen, g1: LogGroup, g2: LogGroup, moved: int)
    requires g1.lines != g2.lines
    requires s.list == ListWidget([g1, g2], 1) && s.logs == Mirror(s.list)
    requires s.focus == Groups && s.focusLog.None? && KeysFollow(s.keyMap, 1, 2)
    ensures var r := KeyStep(s, GoToStart, moved);
      && r.list.index == 0 && r.logs != Mirror(r.list)
      && r.keyMap.up && !CanMoveBack(r.list.index)
  {
    var r := KeyStep(s, GoToStart, moved);
    assert r.list == ListWidget([g1, g2], 0);
    assert r.list.Selected() == Some(g1);
    assert r.logs.items == g2.lines;
  }

  /**
    GoToStart in the line list moves its cursor without storing it in the
    selected group, so the list no longer mirrors the group it shows.
   */
  lemma GoToStartNotRemembered(s: Screen, moved: int)
    requires s.Pane() == ListPane && s.list.Selected().Some? && s.list.Selected().value.selectedLine != 0
    requires s.logs == Mirror(s.list)
    ensures var r := KeyStep(s, GoToStart, moved);
      r.list == s.list && r.logs.index == 0 && r.logs != Mirror(r.list)
  {
  }

  /**
    After a scan the viewer is focused and consistent, the line list mirrors
    the selection, the bindings follow the focused list (and are kept while
    a detail is shown), and the detail stays open.
   */
  lemma ScanStepRefreshes(s: Screen, snapshot: seq<LogGroup>)
    requires Consistent(s)
    ensures var r := ScanStep(s, snapshot);
      && Consistent(r) && r.Pane() != NoPane
      && r.list.items == snapshot && r.logs == Mirror(r.list)
      && r.focus == (if s.focus == Unfocused then Groups else s.focus) && r.focusLog == s.focusLog
    ensures var r := ScanStep(s, snapshot);
      && (r.focus == Groups ==> KeysFollow(r.keyMap, r.list.index, |r.list.items|))
      && (r.Pane() == ListPane ==> KeysFollow(r.keyMap, r.logs.index, |r.logs.items|))
      && (r.Pane() == DetailPane ==> r.keyMap == s.keyMap)
  {
  }

  /**
    A scan keeps the user's place: when the new snapshot holds a group
    titled like the one selected before, the first such group is selected.
   */
  lemma ScanStepKeepsSelection(s: Screen, snapshot: seq<LogGroup>, j: nat)
    requires s.list.Selected().Some?
    requires j < |snapshot| && snapshot[j].title == s.list.Selected().value.title
    ensures var r := ScanStep(s, snapshot);
      && r.list.Selected().Some? && r.list.Selected().value.title == s.list.Selected().value.title
      && r.list.index <= j
  {
    var i := FirstWithTitle(snapshot, s.list.Selected().value.title);
    assert i.Some?;
  }

  // ---------------------------------------------------------------------
  // The viewer

  /** Model: the part of the viewer's state that navigation and refresh act on. */
  class Model {
    var list: ListWidget<LogGroup>
    var logs: ListWidget<LogLine>
    var focus: Focus
    var focusLog: Option<LogLine>
    var statusLine: string
    var disconnected: bool
    var keyMap: KeyMap

    function Shown(): Screen
      reads this
    {
      Screen(list, logs, focus, focusLog, keyMap)
    }

    ghost predicate Valid()
      reads this
    {
      Consistent(Shown())
    }

    function Pane(): Pane
      reads this
    {
      Shown().Pane()
    }

    /** New: empty lists, no focus, every binding enabled. */
    constructor ()
      ensures Valid()
      ensures Shown() == Screen(ListWidget([], 0), ListWidget([], 0), Unfocused, None, DefaultKeyMap)
      ensures statusLine == "" && !disconnected
    {
      list, logs := ListWidget([], 0), ListWidget([], 0);
      focus, focusLog, statusLine, disconnected := Unfocused, None, "", false;
      keyMap := DefaultKeyMap;
    }

    predicate LinesMirrorSelection()
      reads this, list.items
    {
      logs == Mirror(list)
    }

    /** generateLogItems: a copy of the selected group's lines and its stored cursor. */
    method GenerateLogItems() returns (items: seq<LogLine>, selected: int)
      ensures ListWidget(items, selected) == Mirror(list)
    {
      items := [];
      if 0 <= list.index < |list.items| {
        var it := list.items[list.index];
        var i := 0;
        while i < |it.lines|
          invariant 0 <= i <= |it.lines|
          invariant items == it.lines[..i]
        {
          items := items + [it.lines[i]];
          i := i + 1;
        }
        return items, it.selectedLine;
      }
      return items, 0;
    }

    /** Refills the line list from the selected group (generateLogItems, SetItems, Select). */
    method RefreshLines()
      modifies this
      ensures Shown() == old(Shown()).(logs := Mirror(list))
      ensures statusLine == old(statusLine) && disconnected == old(disconnected)
    {
      var items, selected := GenerateLogItems();
      logs := ListWidget(items, selected);
    }

    /** setKeysForIndex for a list whose cursor is `index` among `count` items. */
    method SetKeysForIndex(index: int, count: int)
      modifies this
      ensures Shown() == old(Shown()).(keyMap := KeysFor(old(keyMap), index, count))
      ensures KeysFollow(keyMap, index, count)
      ensures statusLine == old(statusLine) && disconnected == old(disconnected)
    {
      if index == 0 {
        keyMap := keyMap.(up := false, prevPage := false, down := true, nextPage := true);
      } else if index == count - 1 {
        keyMap := keyMap.(up := true, prevPage := true, down := false, nextPage := false);
      } else {
        keyMap := keyMap.(up := true, prevPage := true, down := true, nextPage := true);
      }
    }

    /** focusOnGroups: the groups take the focus, Escape is disabled, the bindings follow the group cursor. */
    method FocusOnGroups()
      modifies this
      ensures Shown() == ToGroups(old(Shown()))
      ensures statusLine == old(statusLine) && disconnected == old(disconnected)
    {
      focus := Groups;
      keyMap := keyMap.(escape := false);
      SetKeysForIndex(list.index, |list.items|);
    }

    /** focusOnLogs: the line list takes the focus, any detail is closed, Escape and Select are enabled. */
    method FocusOnLogs()
      modifies this
      ensures Shown() == ToLogs(old(Shown()))
      ensures statusLine == old(statusLine) && disconnected == old(disconnected)
    {
      focus := Logs;
      focusLog := None;
      keyMap := keyMap.(escape := true, select := true);
      SetKeysForIndex(logs.index, |logs.items|);
    }

    /** focusOnLogItem: the detail of `log` is shown and Select is disabled. */
    method FocusOnLogItem(log: LogLine)
      modifies this
      ensures Shown() == ToLogItem(old(Shown()), log)
      ensures statusLine == old(statusLine) && disconnected == old(disconnected)
    {
      focusLog := Some(log);
      keyMap := keyMap.(select := false);
    }

    /**
      handleKeys. `moved` is the cursor position the focused list widget
      moves to for a cursor key (its paging arithmetic is not modelled). The
      only change outside the navigation state is the line cursor a move in
      the line list stores in the selected group.
     */
    method HandleKeys(k: Key, moved: int) returns (quit: bool)
      requires Valid()
      modifies this, list.items
      ensures quit <==> k == Quit
      ensures Shown() == old(KeyStep(Shown(), k, moved))
      ensures statusLine == old(statusLine) && disconnected == old(disconnected)
      ensures old(keyMap).Enabled(k) && IsCursorKey(k) && old(Pane()) == ListPane && old(list.Selected()).Some? ==>
        old(list.Selected()).value.selectedLine == moved
      ensures forall g :: g in list.items && !(old(keyMap).Enabled(k) && IsCursorKey(k) && old(Pane()) == ListPane
                                               && old(list.Selected()) == Some(g))
                          ==> g.selectedLine == old(g.selectedLine)
      ensures forall g :: g in list.items ==> g.lines == old(g.lines) && g.timestamp == old(g.timestamp)
      ensures Valid()
      ensures Pane() == NextPane(old(Pane()), if old(keyMap).Enabled(k) then k else Other, old(logs.Selected()).Some?)
      ensures old(LinesMirrorSelection()) && k != GoToStart && k != GoToEnd
              && (old(keyMap).Enabled(k) && IsCursorKey(k) && old(Pane()) == ListPane ==> old(list.Selected()).Some?)
              ==> LinesMirrorSelection()
    {
      ghost var s0 := Shown();
      ghost var r := KeyStep(s0, k, moved);
      ghost var mirrored := LinesMirrorSelection();
      KeyStepPane(s0, k, moved);
      KeyStepConsistent(s0, k, moved);
      KeyStepMirrors(s0, k, moved);
      quit := false;
      if !keyMap.Enabled(k) {
        return;
      }
      match k
      case Quit =>
        quit := true;
      case GoToStart =>
        if focus == Groups {
          list := list.(index := 0);
        } else if focus == Logs && focusLog.None? {
          logs := logs.(index := 0);
        }
      case GoToEnd =>
        if focus == Groups {
          list := list.(index := |list.items| - 1);
        } else if focus == Logs && focusLog.None? {
          logs := logs.(index := |logs.items| - 1);
        }
      case Select =>
        if focus == Logs {
          if 0 <= logs.index < |logs.items| {
            FocusOnLogItem(logs.items[logs.index]);
          }
        } else if focus == Groups {
          FocusOnLogs();
        }
      case Escape =>
        if focus == Logs {
          if focusLog.Some? {
            FocusOnLogs();
          } else {
            FocusOnGroups();
          }
        }
      case Other =>
      case _ =>
        assert r == CursorStep(s0, moved);
        MoveCursor(moved);
    }

    /** The cursor branch of handleKeys (the detail viewport's scrolling is not modelled). */
    method MoveCursor(moved: int)
      modifies this, list.items
      ensures Shown() == old(CursorStep(Shown(), moved))
      ensures statusLine == old(statusLine) && disconnected == old(disconnected)
      ensures old(Pane()) == ListPane && old(list.Selected()).Some? ==> old(list.Selected()).value.selectedLine == moved
      ensures forall g :: g in list.items && !(old(Pane()) == ListPane && old(list.Selected()) == Some(g))
                          ==> g.selectedLine == old(g.selectedLine)
      ensures forall g :: g in list.items ==> g.lines == old(g.lines) && g.timestamp == old(g.timestamp)
      ensures old(Pane()) != ListPane ==> unchanged(list.items)
      ensures old(Pane()) == ListPane && old(list.Selected()).Some? && old(LinesMirrorSelection()) ==> LinesMirrorSelection()
    {
      if focus == Groups {
        list := list.(index := moved);
        RefreshLines();
        SetKeysForIndex(list.index, |list.items|);
      } else if focus == Logs && focusLog.None? {
        logs := logs.(index := moved);
        if 0 <= list.index < |list.items| {
          list.items[list.index].selectedLine := logs.index;
        }
        SetKeysForIndex(logs.index, |logs.items|);
      }
    }

    /**
      The scanMsg branch of Update: the navigation state becomes ScanStep of
      the old one, and the status line takes the scan's status, or "Logs
      receiving" while it is still empty.
     */
    method ReceiveScan(snapshot: seq<LogGroup>, status: string)
      requires Valid()
      modifies this
      ensures Shown() == old(ScanStep(Shown(), snapshot))
      ensures statusLine == (if status != "" then status else if old(statusLine) == "" then "Logs receiving" else old(statusLine))
      ensures disconnected == old(disconnected)
      ensures Valid() && LinesMirrorSelection()
    {
      ghost var s0 := Shown();
      ScanStepRefreshes(s0, snapshot);
      Reselect(snapshot);
      RefreshLines();
      RefreshKeys();
      if status != "" {
        statusLine := status;
      } else if statusLine == "" {
        statusLine := "Logs receiving";
      }
    }

    /** The key refresh after a scan. */
    method RefreshKeys()
      modifies this
      ensures Shown() == KeysRefreshed(old(Shown()))
      ensures statusLine == old(statusLine) && disconnected == old(disconnected)
    {
      if focus == Groups {
        SetKeysForIndex(list.index, |list.items|);
      } else if focus == Logs && focusLog.None? {
        SetKeysForIndex(logs.index, |logs.items|);
      } else if focus == Unfocused {
        FocusOnGroups();
      }
    }

    /** The group list takes the snapshot, and the group selected before is selected again by title. */
    method Reselect(snapshot: seq<LogGroup>)
      modifies this
      ensures Shown() == old(Shown()).(list := ListWidget(snapshot, Reselected(old(list), snapshot)))
      ensures statusLine == old(statusLine) && disconnected == old(disconnected)
    {
      var sel := list.Selected();
      list := list.(items := snapshot);
      if sel.Some? {
        var index := 0;
        while index < |snapshot| && snapshot[index].title != sel.value.title
          invariant 0 <= index <= |snapshot|
          invariant forall j :: 0 <= j < index ==> snapshot[j].title != sel.value.title
        {
          index := index + 1;
        }
        if index < |snapshot| {
          list := list.(index := index);
        }
      }
    }

    /**
      Update for a message from scanLogs; the result says whether another
      scan is scheduled, which stops for good once the input is disconnected.
     */
    method Receive(msg: Msg) returns (scheduleScan: bool)
      requires Valid()
      modifies this
      ensures msg.DisconnectedMsg? ==> Shown() == old(Shown()) && disconnected && statusLine == "Process has terminated"
      ensures msg.ScanMsg? ==> Shown() == old(ScanStep(Shown(), msg.lines)) && disconnected == old(disconnected)
      ensures msg.ScanMsg? ==>
        statusLine == (if msg.status != "" then msg.status else if old(statusLine) == "" then "Logs receiving" else old(statusLine))
      ensures msg.ScanMsg? ==> LinesMirrorSelection()
      ensures Valid()
      ensures old(disconnected) ==> disconnected
      ensures scheduleScan <==> !disconnected
    {
      match msg {
        case DisconnectedMsg =>
          disconnected := true;
          statusLine := "Process has terminated";
        case ScanMsg(snapshot, status) =>
          ReceiveScan(snapshot, status);
      }
      scheduleScan := !disconnected;
    }

    /** Update for a key press; like every message it schedules a scan unless disconnected. */
    method KeyPress(k: Key, moved: int) returns (quit: bool, scheduleScan: bool)
      requires Valid()
      modifies this, list.items
      ensures quit <==> k == Quit
      ensures Shown() == old(KeyStep(Shown(), k, moved))
      ensures statusLine == old(statusLine) && disconnected == old(disconnected)
      ensures old(keyMap).Enabled(k) && IsCursorKey(k) && old(Pane()) == ListPane && old(list.Selected()).Some? ==>
        old(list.Selected()).value.selectedLine == moved
      ensures forall g :: g in list.items && !(old(keyMap).Enabled(k) && IsCursorKey(k) && old(Pane()) == ListPane
                                               && old(list.Selected()) == Some(g))
                          ==> g.selectedLine == old(g.selectedLine)
      ensures forall g :: g in list.items ==> g.lines == old(g.lines) && g.timestamp == old(g.timestamp)
      ensures Valid()
      ensures scheduleScan <==> !disconnected
    {
      quit := HandleKeys(k, moved);
      scheduleScan := !disconnected;
    }
  }
}
