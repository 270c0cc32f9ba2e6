/**
 * The shared terminal session (`TerminalProvider`): whether the terminal is open
 * and minimised, plus the scrollback and the command history, which outlive any
 * one mount of the terminal widget.
 */
module TerminalContext {
  import opened Results

  /** How a scrollback line is styled. */
  datatype Kind = Info | Command | Error | Warning | Success

  /** One scrollback entry; its text may span several display lines. */
  datatype Line = Line(text: string, kind: Kind)

  datatype Session = Session(isOpen: bool, isMinimized: bool, scrollback: seq<Line>, commands: seq<string>)

  /** The scrollback and the command history are the same in both sessions. */
  predicate SameContents(a: Session, b: Session) {
    a.scrollback == b.scrollback && a.commands == b.commands
  }

  /** The provider's first state. */
  const Initial := Session(false, false, [], [])

  function Toggle(s: Session): (r: Session)
    ensures r.isOpen != s.isOpen
    ensures r.isMinimized == s.isMinimized && SameContents(r, s)
  {
    s.(isOpen := !s.isOpen)
  }

  function Open(s: Session): (r: Session)
    ensures r.isOpen
    ensures r.isMinimized == s.isMinimized && SameContents(r, s)
  {
    s.(isOpen := true)
  }

  function Close(s: Session): (r: Session)
    ensures !r.isOpen
    ensures r.isMinimized == s.isMinimized && SameContents(r, s)
  {
    s.(isOpen := false)
  }

  /** Minimising does not look at whether the terminal is open. */
  function Minimize(s: Session): (r: Session)
    ensures r.isMinimized
    ensures r.isOpen == s.isOpen && SameContents(r, s)
  {
    s.(isMinimized := true)
  }

  function Maximize(s: Session): (r: Session)
    ensures !r.isMinimized
    ensures r.isOpen == s.isOpen && SameContents(r, s)
  {
    s.(isMinimized := false)
  }

  /** Toggling is opening a closed terminal and closing an open one, so it undoes itself. */
  lemma ToggleIsOpenOrClose(s: Session)
    ensures Toggle(s) == (if s.isOpen then Close(s) else Open(s))
    ensures Toggle(Toggle(s)) == s
  {
  }

  /** Opening, closing, minimising and maximising are each idempotent. */
  lemma SettersIdempotent(s: Session)
    ensures Open(Open(s)) == Open(s) && Close(Close(s)) == Close(s)
    ensures Minimize(Minimize(s)) == Minimize(s) && Maximize(Maximize(s)) == Maximize(s)
  {
  }

  /** Closing and reopening restores the session exactly. */
  lemma ReopenRestores(s: Session)
    requires s.isOpen
    ensures Open(Close(s)) == s
  {
  }

  /** `useTerminal`: the context value, or the error thrown outside a provider. */
  function UseTerminal(context: Option<Session>): (r: Result<Session>)
    ensures context.Some? ==> r == Ok(context.value)
    ensures context.None? ==> r == Err("useTerminal must be used within a TerminalProvider")
  {
    match context
    case Some(s) => Ok(s)
    case None => Err("useTerminal must be used within a TerminalProvider")
  }
}
