/** The page's controls: confirming the shutdown prompt, the periodic connection check,
    opening and closing the chat panel, and sending what was typed. Each returns the new
    session and what it posts. */
module Controls {
  import opened Text
  import opened Script
  import opened Chat
  import opened State
  import opened Router

  /** `confirmAgentShutdown`: pauses the Main Agent. The notice is posted only while the
      chat panel is open; the mode flags other than `agentActive` are left alone. */
  function ConfirmAgentShutdown(s: Session): (r: Reaction)
    ensures !r.session.agentActive && r.session.cliMode == s.cliMode && r.session.chatOpen == s.chatOpen
    ensures ModeOf(r.session) == ManualPaused
    ensures |r.steps| == (if s.chatOpen then 1 else 0)
    ensures forall k :: 0 <= k < |r.steps| ==> r.steps[k] == Post(0, Notice(AgentPaused))
  {
    var paused := s.(agentActive := false);
    if s.chatOpen then Reaction(paused, [Post(0, Notice(AgentPaused))])
    else Reaction(paused, [])
  }

  /** The draw above which the connection check fails: the check fires with
      probability 5%. */
  const DisconnectThreshold: real := 0.95

  /** `simulateConnectionIssue`, with the value of `Math.random()` passed in as `draw`.
      It switches to the CLI fallback only when the draw exceeds the threshold and the
      agent is active; `cliMode` and `chatOpen` are not consulted, so an already
      disconnected agent is disconnected again, with a second notice. */
  function SimulateConnectionIssue(s: Session, draw: real): (r: Reaction)
    ensures draw > DisconnectThreshold && s.agentActive
            ==> && ModeOf(r.session) == CliFallback
                && r.session == s.(cliMode := true)
                && r.steps == [Post(0, Notice(ConnectionLost))]
    ensures !(draw > DisconnectThreshold && s.agentActive) ==> r == Reaction(s, [])
  {
    if draw > DisconnectThreshold && s.agentActive then
      Reaction(s.(cliMode := true), [Post(0, Notice(ConnectionLost))])
    else
      Reaction(s, [])
  }

  /** `toggleChat`: flips the panel, nothing else. */
  function ToggleChat(s: Session): (r: Reaction)
    ensures r.session.chatOpen == !s.chatOpen
    ensures r.session.agentActive == s.agentActive && r.session.cliMode == s.cliMode
    ensures r.steps == []
  {
    Reaction(s.(chatOpen := !s.chatOpen), [])
  }

  /** The user's own bubble for a trimmed message. */
  function UserBubble(text: string): (m: Message) {
    Message(Typed(text), User, Normal)
  }

  /** `sendChatMessage`, with the input box's value passed in as `raw`. Input that trims
      to nothing is dropped without trace; otherwise the trimmed text is posted as the
      user's bubble at once and then handed to the router, which sees the trimmed text
      too. */
  function SendChatMessage(s: Session, raw: string): (r: Reaction)
    ensures AllTrimmable(raw) ==> r == Reaction(s, [])
    ensures !AllTrimmable(raw) ==>
      var text := Trim(raw);
      var routed := ProcessCommand(s, text);
      && |text| > 0 && !IsTrimmable(text[0]) && !IsTrimmable(text[|text| - 1])
      && r.session == routed.session
      && |r.steps| >= 2
      && r.steps[0] == Post(0, UserBubble(text))
      && r.steps[1..] == routed.steps
  {
    var text := Trim(raw);
    TrimEmptyIffBlank(raw);
    if text == [] then Reaction(s, [])
    else
      var routed := ProcessCommand(s, text);
      Reaction(routed.session, [Post(0, UserBubble(text))] + routed.steps)
  }

  // ---------------------------------------------------------------------------
  // Sessions as sequences of events

  /** What can happen to the page: a message sent, the panel toggled, the shutdown
      prompt confirmed, or a connection check with its draw. */
  datatype Event =
    | Send(raw: string)
    | Toggle
    | ConfirmShutdown
    | ConnectionCheck(draw: real)

  /** One event applied to the page. Only toggling moves the panel. */
  function Apply(s: Session, e: Event): (r: Reaction)
    ensures r.session.chatOpen == (s.chatOpen != e.Toggle?)
  {
    match e
    case Send(raw) => SendChatMessage(s, raw)
    case Toggle => ToggleChat(s)
    case ConfirmShutdown => ConfirmAgentShutdown(s)
    case ConnectionCheck(draw) => SimulateConnectionIssue(s, draw)
  }

  /** Applies `step` to the events in order, collecting what each posts after the posts
      of the events before it. */
  function RunWith(step: (Session, Event) -> Reaction, s: Session, events: seq<Event>): (r: Reaction)
    decreases |events|
  {
    if |events| == 0 then Reaction(s, [])
    else
      var first := step(s, events[0]);
      var rest := RunWith(step, first.session, events[1..]);
      Reaction(rest.session, first.steps + rest.steps)
  }

  /** The page driven by a sequence of events. */
  function Run(s: Session, events: seq<Event>): (r: Reaction) {
    RunWith(Apply, s, events)
  }

  /** Whether the panel is toggled an odd number of times. */
  predicate OddToggles(events: seq<Event>)
    decreases |events|
  {
    if |events| == 0 then false
    else events[0].Toggle? != OddToggles(events[1..])
  }
}
