/**
 * The terminal widget (`Terminal`): a command interpreter over the shared
 * session, with an input line and a history cursor that belong to one mount
 * of the widget.
 */
module Terminal {
  import opened Text
  import opened TerminalContext

  const Prompt := "user@innohacks:~$ "

  const WelcomeBanner: seq<Line> := [
    Line("Welcome to InnoHacks 2.0 Terminal v2.0.0", Info),
    Line("Type 'help' to see available commands or 'register' to join.", Info)
  ]

  const HelpText := "Available commands:\n  help      - Show this list\n  about     - About InnoHacks\n  tracks    - List 2025 tracks\n  register  - Registration link\n  clear     - Clear terminal\n  whoami    - Current user info\n  exit      - Close terminal"
  const AboutText := "InnoHacks 2.0 is India's premier inter-college hackathon. Join 500+ innovators for 24 hours of coding, creativity, and collaboration."
  const TracksText := "2025 Tracks:\n  > AI/ML\n  > Web3 & Blockchain\n  > FinTech\n  > HealthTech\n  > EdTech\n  > Open Innovation"
  const WhoamiText := "User: Guest Hacker\nRole: Participant\nStatus: Ready to Innovate"
  const RegisterNotice := "Navigating to registration page..."
  const RegisterDelayMs := 1000
  const RegisterRoute := "/register"

  /** The seven commands, and everything else. */
  datatype Command = Help | About | Tracks | Register | Clear | Whoami | Exit | Unknown

  const CommandNames := ["help", "about", "tracks", "register", "clear", "whoami", "exit"]

  function Name(c: Command): (n: string)
    requires !c.Unknown?
    ensures n in CommandNames
  {
    match c
    case Help => "help"
    case About => "about"
    case Tracks => "tracks"
    case Register => "register"
    case Clear => "clear"
    case Whoami => "whoami"
    case Exit => "exit"
  }

  /** The `switch` on the lower-cased command line: an exact match or nothing. */
  function Parse(lower: string): (c: Command)
    ensures !c.Unknown? ==> Name(c) == lower
    ensures c.Unknown? <==> lower !in CommandNames
  {
    if lower == "help" then Help
    else if lower == "about" then About
    else if lower == "tracks" then Tracks
    else if lower == "register" then Register
    else if lower == "clear" then Clear
    else if lower == "whoami" then Whoami
    else if lower == "exit" then Exit
    else Unknown
  }

  /** Every command name parses back to its command. */
  lemma ParseName(c: Command)
    requires !c.Unknown?
    ensures Parse(Name(c)) == c
  {
  }

  /** Requests the widget makes of its host. */
  datatype Effect =
    | CloseTerminal
      /** A timer that, once `delayMs` have passed, closes the terminal and navigates to `route`. */
    | DeferredCloseAndNavigate(delayMs: nat, route: string)

  /** The per-mount state: the input line and the history cursor (`-1` while typing live). */
  datatype View = View(input: string, cursor: int)

  const FreshView := View("", -1)

  /** The cursor is either live (`-1`) or indexes the command history. */
  predicate CursorOk(v: View, commands: seq<string>) {
    v.cursor == -1 || 0 <= v.cursor < |commands|
  }

  datatype Step = Step(session: Session, view: View, effects: seq<Effect>)

  function Echo(trimmed: string): Line {
    Line(Prompt + trimmed, Command)
  }

  function NotFound(trimmed: string): string {
    "Command not found: " + trimmed + ". Type 'help' for available commands."
  }

  /** The lines a command appends after its echo (`clear` appends none: it wipes instead). */
  function Reply(c: Command, trimmed: string): seq<Line> {
    match c
    case Help => [Line(HelpText, Success)]
    case About => [Line(AboutText, Info)]
    case Tracks => [Line(TracksText, Info)]
    case Register => [Line(RegisterNotice, Warning)]
    case Whoami => [Line(WhoamiText, Info)]
    case Clear => []
    case Exit => []
    case Unknown => [Line(NotFound(trimmed), Error)]
  }

  function EffectsOf(c: Command): seq<Effect> {
    match c
    case Exit => [CloseTerminal]
    case Register => [DeferredCloseAndNavigate(RegisterDelayMs, RegisterRoute)]
    case _ => []
  }

  /** The command a raw input line dispatches to. */
  function Dispatch(raw: string): Command {
    Parse(Lower(Trim(raw)))
  }

  /** `handleCommand`: Enter on the input line `raw`. */
  function Submit(s: Session, v: View, raw: string): (st: Step)
    ensures Trim(raw) == [] ==> st == Step(s, v, [])
    ensures Trim(raw) != [] ==> st.session.commands == s.commands + [Trim(raw)] && st.view == FreshView
    ensures st.session.isOpen == s.isOpen && st.session.isMinimized == s.isMinimized
    ensures Trim(raw) != [] && Dispatch(raw) == Clear ==> st.session.scrollback == [] && st.effects == []
    ensures Trim(raw) != [] && Dispatch(raw) != Clear ==>
              && |st.session.scrollback| == |s.scrollback| + 1 + |Reply(Dispatch(raw), Trim(raw))|
              && st.session.scrollback[..|s.scrollback|] == s.scrollback
              && st.session.scrollback[|s.scrollback|] == Echo(Trim(raw))
              && st.effects == EffectsOf(Dispatch(raw))
  {
    var t := Trim(raw);
    if t == [] then Step(s, v, [])
    else
      var c := Parse(Lower(t));
      var commands := s.commands + [t];
      if c == Clear then
        Step(s.(scrollback := [], commands := commands), FreshView, [])
      else
        var scrollback := s.scrollback + [Echo(t)] + Reply(c, t);
        assert scrollback[..|s.scrollback|] == s.scrollback;
        Step(s.(scrollback := scrollback, commands := commands), FreshView, EffectsOf(c))
  }

  /** Blank input changes nothing at all, not even the input line. */
  lemma BlankSubmitIsNoOp(s: Session, v: View, raw: string)
    requires forall i :: 0 <= i < |raw| ==> IsSpace(raw[i])
    ensures Submit(s, v, raw) == Step(s, v, [])
  {
  }

  /** An unknown command appends exactly its echo and an error that quotes it as typed. */
  lemma UnknownCommand(s: Session, v: View, raw: string)
    requires Trim(raw) != []
    requires Lower(Trim(raw)) !in CommandNames
    ensures Submit(s, v, raw).session.scrollback
            == s.scrollback + [Line(Prompt + Trim(raw), Command),
                               Line("Command not found: " + Trim(raw) + ". Type 'help' for available commands.", Error)]
    ensures Submit(s, v, raw).effects == []
    ensures Submit(s, v, raw).session.commands == s.commands + [Trim(raw)]
  {
  }

  /**
   * Dispatch ignores case and surrounding white space: two lines that agree
   * after trimming and lower-casing produce the same output and the same effects,
   * and differ only in their echo.
   */
  lemma CaseInsensitiveDispatch(s: Session, v: View, a: string, b: string)
    requires Trim(a) != [] && Trim(b) != []
    requires Lower(Trim(a)) == Lower(Trim(b))
    requires Dispatch(a) != Unknown
    ensures Submit(s, v, a).effects == Submit(s, v, b).effects
    ensures Submit(s, v, a).view == Submit(s, v, b).view
    ensures Dispatch(a) != Clear ==>
              && |Submit(s, v, a).session.scrollback| == |Submit(s, v, b).session.scrollback|
              && Submit(s, v, a).session.scrollback[|s.scrollback| + 1..]
                 == Submit(s, v, b).session.scrollback[|s.scrollback| + 1..]
    ensures Dispatch(a) == Clear ==> Submit(s, v, a).session == Submit(s, v, b).session.(commands := s.commands + [Trim(a)])
  {
    var c := Dispatch(a);
    assert c == Dispatch(b);
    if c != Clear {
      SameReplyAfterEcho(s, v, a, c);
      SameReplyAfterEcho(s, v, b, c);
    }
  }

  /** For a known command other than `clear`, what follows the echo is the command's reply. */
  lemma SameReplyAfterEcho(s: Session, v: View, raw: string, c: Command)
    requires Trim(raw) != [] && Dispatch(raw) == c && c != Unknown && c != Clear
    ensures |Submit(s, v, raw).session.scrollback| == |s.scrollback| + 1 + |Reply(c, [])|
    ensures Submit(s, v, raw).session.scrollback[|s.scrollback| + 1..] == Reply(c, [])
  {
    var t := Trim(raw);
    assert Reply(c, t) == Reply(c, []);
    assert Submit(s, v, raw).session.scrollback == s.scrollback + [Echo(t)] + Reply(c, t);
  }

  /**
   * `help`, `about`, `tracks`, `whoami` and `register` append one line after
   * the echo, styled success, info, info, info and warning; `exit` appends
   * only the echo and asks to close; only `register` schedules the deferred
   * close-and-navigate.
   */
  lemma KnownCommandOutput(s: Session, v: View, raw: string)
    requires Trim(raw) != []
    ensures var st := Submit(s, v, raw);
            var echoed := s.scrollback + [Echo(Trim(raw))];
            && (Dispatch(raw) == Help ==> st.session.scrollback == echoed + [Line(HelpText, Success)] && st.effects == [])
            && (Dispatch(raw) == About ==> st.session.scrollback == echoed + [Line(AboutText, Info)] && st.effects == [])
            && (Dispatch(raw) == Tracks ==> st.session.scrollback == echoed + [Line(TracksText, Info)] && st.effects == [])
            && (Dispatch(raw) == Whoami ==> st.session.scrollback == echoed + [Line(WhoamiText, Info)] && st.effects == [])
            && (Dispatch(raw) == Register ==>
                  st.session.scrollback == echoed + [Line(RegisterNotice, Warning)]
                  && st.effects == [DeferredCloseAndNavigate(1000, "/register")])
            && (Dispatch(raw) == Exit ==> st.session.scrollback == echoed && st.effects == [CloseTerminal])
  {
  }

  /** `clear` wipes the scrollback, its own echo included, yet is still recorded in the history. */
  lemma ClearWipesEverything(s: Session, v: View, raw: string)
    requires Trim(raw) != [] && Lower(Trim(raw)) == "clear"
    ensures Submit(s, v, raw).session.scrollback == []
    ensures Submit(s, v, raw).view.input == ""
    ensures Submit(s, v, raw).session.commands == s.commands + [Trim(raw)]
  {
  }

  /** ArrowUp: step back through the history, stopping at its oldest entry. */
  function RecallPrevious(commands: seq<string>, v: View): (w: View)
    requires CursorOk(v, commands)
    ensures CursorOk(w, commands)
    ensures commands == [] ==> w == v
    ensures commands != [] ==> 0 <= w.cursor < |commands| && w.input == commands[w.cursor]
    ensures commands != [] && v.cursor == -1 ==> w.cursor == |commands| - 1
    ensures commands != [] && v.cursor >= 0 ==> w.cursor == if v.cursor == 0 then 0 else v.cursor - 1
  {
    if |commands| > 0 then
      var i := if v.cursor == -1 then |commands| - 1 else if v.cursor - 1 < 0 then 0 else v.cursor - 1;
      View(commands[i], i)
    else v
  }

  /** ArrowDown: step forward, falling off the newest entry back to an empty live line. */
  function RecallNext(commands: seq<string>, v: View): (w: View)
    requires CursorOk(v, commands)
    ensures CursorOk(w, commands)
    ensures v.cursor == -1 ==> w == v
    ensures 0 <= v.cursor < |commands| - 1 ==> w == View(commands[v.cursor + 1], v.cursor + 1)
    ensures 0 <= v.cursor == |commands| - 1 ==> w == FreshView
  {
    if v.cursor != -1 then
      var i := v.cursor + 1;
      if i < |commands| then View(commands[i], i) else View("", -1)
    else v
  }

  /** ArrowDown undoes ArrowUp, except at the oldest entry and when leaving live typing. */
  lemma DownUndoesUp(commands: seq<string>, v: View)
    requires CursorOk(v, commands)
    requires 1 <= v.cursor < |commands|
    ensures RecallNext(commands, RecallPrevious(commands, v)) == View(commands[v.cursor], v.cursor)
  {
  }

  /** From live typing, ArrowUp then ArrowDown returns to live typing with an empty line. */
  lemma UpThenDownFromLive(commands: seq<string>, v: View)
    requires commands != [] && v.cursor == -1
    ensures RecallNext(commands, RecallPrevious(commands, v)) == FreshView
  {
  }

  /** The recall walk through `["a", "b", "c"]`: up, up, down, down. */
  lemma RecallWalk()
    ensures var h := ["a", "b", "c"];
            var v1 := RecallPrevious(h, FreshView);
            var v2 := RecallPrevious(h, v1);
            var v3 := RecallNext(h, v2);
            var v4 := RecallNext(h, v3);
            v1.input == "c" && v2.input == "b" && v3.input == "c" && v4 == View("", -1)
  {
  }

  datatype Key = Enter | ArrowUp | ArrowDown | OtherKey

  /** `handleKeyDown`. */
  function KeyDown(s: Session, v: View, key: Key): (st: Step)
    requires CursorOk(v, s.commands)
    ensures CursorOk(st.view, st.session.commands)
    ensures key != Enter ==> st.session == s && st.effects == []
    ensures key == OtherKey ==> st.view == v
    ensures s.commands <= st.session.commands
  {
    match key
    case Enter => Submit(s, v, v.input)
    case ArrowUp => Step(s, RecallPrevious(s.commands, v), [])
    case ArrowDown => Step(s, RecallNext(s.commands, v), [])
    case OtherKey => Step(s, v, [])
  }

  /** The mount effect: a fresh input line, and the welcome banner only if the scrollback is empty. */
  function Mount(s: Session): (r: (Session, View))
    ensures r.1 == FreshView
    ensures s.scrollback == [] ==> r.0 == s.(scrollback := WelcomeBanner)
    ensures s.scrollback != [] ==> r.0 == s
  {
    if |s.scrollback| == 0 then (s.(scrollback := WelcomeBanner), FreshView) else (s, FreshView)
  }
}
