/**
 * The terminal as the navigation bar hosts it: the widget is mounted only
 * while the session is open, under a different element for the minimised and
 * the full view, so opening, minimising and maximising each mount it afresh.
 * The host carries out the widget's effects: closing at once, or keeping a
 * timer that later closes the terminal and navigates.
 */
module TerminalHost {
  import opened Results
  import opened TerminalContext
  import opened Terminal
  import Text

  datatype Machine = Machine(
    session: Session,
    /** The mounted widget's input line and cursor; `None` while closed. */
    view: Option<View>,
    /** Timers started by `register` that have not fired yet, oldest first. */
    pending: seq<Effect>,
    /** Routes navigated to, in order. */
    navigations: seq<string>)

  datatype Event =
    | OpenClicked | CloseClicked | ToggleClicked | MinimizeClicked | MaximizeClicked
    | Typed(text: string) | Pressed(key: Key) | TimerFired

  /** The states the host can reach. */
  predicate Inv(m: Machine) {
    && (m.view.Some? <==> m.session.isOpen)
    && (m.view.Some? ==> CursorOk(m.view.value, m.session.commands))
    && (forall i :: 0 <= i < |m.pending| ==> m.pending[i].DeferredCloseAndNavigate?)
  }

  const Start := Machine(TerminalContext.Initial, None, [], [])

  /** Renders the session: mounts a fresh widget when it is open, none when it is closed. */
  function Render(m: Machine, s: Session): (r: Machine)
    ensures r.pending == m.pending && r.navigations == m.navigations
    ensures r.session.commands == s.commands && r.session.isOpen == s.isOpen
    ensures r.session.isMinimized == s.isMinimized
    ensures s.isOpen ==> r.view == Some(FreshView)
    ensures !s.isOpen ==> r.view.None? && r.session == s
    ensures s.isOpen ==> r.session == Mount(s).0
    ensures s.isOpen && s.scrollback == [] ==> r.session.scrollback == WelcomeBanner
    ensures s.isOpen && s.scrollback != [] ==> r.session == s
  {
    if s.isOpen then
      var (s', v) := Mount(s);
      m.(session := s', view := Some(v))
    else m.(session := s, view := None)
  }

  /** Carries out the effects of one key press, in order. */
  function Apply(m: Machine, effects: seq<Effect>): (r: Machine)
    requires Inv(m)
    ensures Inv(r)
    ensures r.session.commands == m.session.commands
    ensures r.session.scrollback == m.session.scrollback
    ensures r.navigations == m.navigations
    ensures r.pending == m.pending + Timers(effects)
    decreases |effects|
  {
    if effects == [] then m
    else
      var m' := match effects[0]
        case CloseTerminal => m.(session := Close(m.session), view := None)
        case DeferredCloseAndNavigate(_, _) => m.(pending := m.pending + [effects[0]]);
      var r := Apply(m', effects[1..]);
      assert r.pending == m.pending + Timers(effects) by {
        var head := if effects[0].DeferredCloseAndNavigate? then [effects[0]] else [];
        assert m'.pending == m.pending + head;
        assert Timers(effects) == head + Timers(effects[1..]);
        assert m.pending + head + Timers(effects[1..]) == m.pending + (head + Timers(effects[1..]));
      }
      r
  }

  /** The timers among a list of effects. */
  function Timers(effects: seq<Effect>): seq<Effect> {
    if effects == [] then []
    else (if effects[0].DeferredCloseAndNavigate? then [effects[0]] else []) + Timers(effects[1..])
  }

  /** Whether the input line is on screen and receives keys. */
  predicate Interactive(m: Machine) {
    m.view.Some? && m.session.isOpen && !m.session.isMinimized
  }

  function Next(m: Machine, e: Event): (r: Machine)
    requires Inv(m)
    ensures Inv(r)
    ensures m.session.commands <= r.session.commands
    ensures !e.Pressed? ==> r.session.commands == m.session.commands
    ensures e.Pressed? && e.key != Enter ==> r.session == m.session
  {
    match e
    case OpenClicked => if m.session.isOpen then m else Render(m, Open(m.session))
    case CloseClicked => Render(m, Close(m.session))
    case ToggleClicked => Render(m, Toggle(m.session))
    case MinimizeClicked =>
      if m.session.isMinimized then m else Render(m, Minimize(m.session))
    case MaximizeClicked =>
      if !m.session.isMinimized then m else Render(m, Maximize(m.session))
    case Typed(text) =>
      if Interactive(m) then m.(view := Some(m.view.value.(input := text))) else m
    case Pressed(key) =>
      if Interactive(m) then
        var st := KeyDown(m.session, m.view.value, key);
        Apply(m.(session := st.session, view := Some(st.view)), st.effects)
      else m
    case TimerFired =>
      if m.pending == [] then m
      else
        var route := m.pending[0].route;
        Render(m.(pending := m.pending[1..], navigations := m.navigations + [route]), Close(m.session))
  }

  /** A run of events: every state reached is well formed, and the history only grows. */
  function Run(m: Machine, events: seq<Event>): (r: Machine)
    requires Inv(m)
    ensures Inv(r)
    ensures m.session.commands <= r.session.commands
    decreases |events|
  {
    if events == [] then m else Run(Next(m, events[0]), events[1..])
  }

  /** Every reachable cursor is live or indexes the history. */
  lemma ReachableCursorOk(events: seq<Event>)
    ensures var r := Run(Start, events);
            r.view.Some? ==> r.view.value.cursor == -1 || 0 <= r.view.value.cursor < |r.session.commands|
  {
  }

  /** Reopening after activity keeps the scrollback, so the banner is not shown again. */
  lemma ReopenDoesNotReseed(m: Machine)
    requires Inv(m) && !m.session.isOpen && m.session.scrollback != []
    ensures Next(m, OpenClicked).session.scrollback == m.session.scrollback
    ensures Next(m, OpenClicked).session.commands == m.session.commands
    ensures Next(m, OpenClicked).view == Some(FreshView)
  {
  }

  /** The first opening shows exactly the welcome banner. */
  lemma FirstOpenSeeds()
    ensures Next(Start, OpenClicked).session.scrollback == WelcomeBanner
    ensures Next(Start, OpenClicked).session.isOpen
  {
  }

  /** After `clear`, minimising remounts the widget on an empty scrollback, which shows the banner again. */
  lemma MinimizeAfterClearReseeds(m: Machine)
    requires Inv(m) && Interactive(m)
    requires Text.Trim(m.view.value.input) != [] && Dispatch(m.view.value.input) == Clear
    ensures Next(m, Pressed(Enter)).session.scrollback == []
    ensures Next(Next(m, Pressed(Enter)), MinimizeClicked).session.scrollback == WelcomeBanner
  {
    var st := Submit(m.session, m.view.value, m.view.value.input);
    assert st.effects == [] && st.session.scrollback == [];
    var m1 := Next(m, Pressed(Enter));
    assert m1 == m.(session := st.session, view := Some(st.view));
    assert m1.session.isOpen && !m1.session.isMinimized;
  }

  /** Each `register` starts its own timer: timers are counted, never merged. */
  lemma RegisterStartsOneTimer(m: Machine)
    requires Inv(m) && Interactive(m)
    ensures var raw := m.view.value.input;
            Text.Trim(raw) != [] && Dispatch(raw) == Register ==>
              && Next(m, Pressed(Enter)).pending == m.pending + [DeferredCloseAndNavigate(1000, "/register")]
              && Next(m, Pressed(Enter)).session.isOpen
  {
    var raw := m.view.value.input;
    if Text.Trim(raw) != [] && Dispatch(raw) == Register {
      var st := Submit(m.session, m.view.value, raw);
      PressEnter(m);
      assert st.effects == EffectsOf(Register);
      ApplyOne(m.(session := st.session, view := Some(st.view)), st.effects[0]);
    }
  }

  /** Enter submits the input line, then the host carries out the resulting effects. */
  lemma PressEnter(m: Machine)
    requires Inv(m) && Interactive(m)
    ensures var st := Submit(m.session, m.view.value, m.view.value.input);
            Inv(m.(session := st.session, view := Some(st.view)))
            && Next(m, Pressed(Enter)) == Apply(m.(session := st.session, view := Some(st.view)), st.effects)
  {
  }

  /** Carrying out a single effect. */
  lemma ApplyOne(m: Machine, e: Effect)
    requires Inv(m)
    ensures e.CloseTerminal? ==> Apply(m, [e]) == m.(session := Close(m.session), view := None)
    ensures e.DeferredCloseAndNavigate? ==> Apply(m, [e]) == m.(pending := m.pending + [e])
  {
    assert [e][1..] == [];
  }

  /** `exit` closes the terminal at once; its echo stays in the scrollback. */
  lemma ExitCloses(m: Machine, raw: string)
    requires Inv(m) && Interactive(m)
    requires m.view.value.input == raw && Text.Trim(raw) != [] && Dispatch(raw) == Exit
    ensures !Next(m, Pressed(Enter)).session.isOpen
    ensures Next(m, Pressed(Enter)).view.None?
    ensures Next(m, Pressed(Enter)).session.scrollback == m.session.scrollback + [Echo(Text.Trim(raw))]
  {
    var st := Submit(m.session, m.view.value, raw);
    var m0 := m.(session := st.session, view := Some(st.view));
    PressEnter(m);
    assert st.effects == [CloseTerminal] by {
      assert st.effects == EffectsOf(Exit);
    }
    ApplyOne(m0, CloseTerminal);
    KnownCommandOutput(m.session, m.view.value, raw);
  }

  /** A firing timer closes the terminal and navigates to the registration page. */
  lemma TimerClosesAndNavigates(m: Machine)
    requires Inv(m) && m.pending != []
    requires m.pending[0] == DeferredCloseAndNavigate(1000, "/register")
    ensures var r := Next(m, TimerFired);
            !r.session.isOpen && r.navigations == m.navigations + ["/register"] && r.pending == m.pending[1..]
  {
  }
}
