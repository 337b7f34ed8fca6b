/** The page's session: three flags that decide how chat input is handled, and the
    shape every operation's result takes. */
module State {
  import opened Chat

  /** `agentActive`: the Main Agent is in charge (false once the user pauses it).
      `cliMode`: the CLI fallback was forced by a lost connection.
      `chatOpen`: the chat panel is visible. */
  datatype Session = Session(agentActive: bool, cliMode: bool, chatOpen: bool)

  /** The flags as a page load leaves them. */
  const Initial: Session := Session(true, false, false)

  /** The three modes the flags encode. A paused agent means manual control whatever
      `cliMode` says. */
  datatype Mode = Autonomous | ManualPaused | CliFallback

  function ModeOf(s: Session): (m: Mode) {
    if !s.agentActive then ManualPaused
    else if s.cliMode then CliFallback
    else Autonomous
  }

  /** Commands go to the Main Agent only in this mode; otherwise to the CLI handler. */
  predicate MainAgentOnline(s: Session) {
    s.agentActive && !s.cliMode
  }

  /** What an operation does: the session afterwards and the steps it schedules, in order. */
  datatype Reaction = Reaction(session: Session, steps: seq<Step>)

  /** The Main Agent is online exactly in autonomous mode. */
  lemma OnlineIffAutonomous(s: Session)
    ensures MainAgentOnline(s) <==> ModeOf(s) == Autonomous
  {
  }
}
