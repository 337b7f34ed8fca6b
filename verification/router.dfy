/** The chat command router: the Main Agent's keyword ladder with its nested
    hand-off to sub-agents, the CLI fallback's ladder, and the dispatch between them. */
module Router {
  import opened Text
  import opened Script
  import opened Chat
  import opened Dispatch
  import opened State

  // ---------------------------------------------------------------------------
  // Main Agent ladder

  /** Which branch of the Main Agent ladder a lower-cased command takes. */
  datatype MainBranch = Delegate(agent: SubAgent) | PausePrompt | StatusSummary | Unmatched

  /** The ladder as written: substring tests, first match wins. */
  function ClassifyMain(lower: string): (b: MainBranch) {
    if Includes(lower, "threat") || Includes(lower, "attack") then Delegate(ThreatScanner)
    else if Includes(lower, "network") || Includes(lower, "device") then Delegate(NetworkMapper)
    else if Includes(lower, "encrypt") || Includes(lower, "crypto") then Delegate(EncryptionManager)
    else if Includes(lower, "defense") || Includes(lower, "response") then Delegate(DefenseOrchestrator)
    else if Includes(lower, "log") || Includes(lower, "audit") then Delegate(LogAgent)
    else if Includes(lower, "pause") && Includes(lower, "agent") then PausePrompt
    else if Includes(lower, "status") then StatusSummary
    else Unmatched
  }

  /** The same ladder as a priority-ordered rule table. */
  const MainRules: seq<Rule<MainBranch>> := [
    Rule(AnyOf(["threat", "attack"]), Delegate(ThreatScanner)),
    Rule(AnyOf(["network", "device"]), Delegate(NetworkMapper)),
    Rule(AnyOf(["encrypt", "crypto"]), Delegate(EncryptionManager)),
    Rule(AnyOf(["defense", "response"]), Delegate(DefenseOrchestrator)),
    Rule(AnyOf(["log", "audit"]), Delegate(LogAgent)),
    Rule(AllOf(["pause", "agent"]), PausePrompt),
    Rule(AnyOf(["status"]), StatusSummary)
  ]

  /** The steps of the Main Agent path: the routing notice after 300 ms, then, 500 ms
      later, the branch's action; a sub-agent answers a further 800 ms after its
      hand-off notice. The status line reads `agentActive` from the session. Whatever
      the branch, the chain opens with the routing notice and every message in it is a
      Main Agent line. */
  function MainAgentSteps(s: Session, lower: string): (steps: seq<Step>)
    ensures 2 <= |steps| <= 3 && steps[0] == Post(300, Notice(Routing))
    ensures forall k :: 0 <= k < |steps| && steps[k].Post? ==>
              steps[k].msg.sender == Agent && SpokenByMainAgent(steps[k].msg.line)
  {
    [Post(300, Notice(Routing))] +
    match ClassifyMain(lower)
    case Delegate(a) => [Post(500, Notice(HandOff(a))), Post(800, Reply(Report(a)))]
    case PausePrompt => [ShowShutdownPrompt(500)]
    case StatusSummary => [Post(500, Reply(SystemStatus(s.agentActive)))]
    case Unmatched => [Post(500, Reply(MainGeneric))]
  }

  // ---------------------------------------------------------------------------
  // CLI ladder

  /** Which branch of the CLI ladder a lower-cased command takes. */
  datatype CliBranch = Help | ListThreats | ScanNetwork | EnableAgent | Echo

  /** The ladder as written: substring tests, first match wins. */
  function ClassifyCli(lower: string): (b: CliBranch) {
    if Includes(lower, "help") then Help
    else if Includes(lower, "list threats") then ListThreats
    else if Includes(lower, "scan network") then ScanNetwork
    else if Includes(lower, "enable agent") then EnableAgent
    else Echo
  }

  /** The same ladder as a priority-ordered rule table. */
  const CliRules: seq<Rule<CliBranch>> := [
    Rule(AnyOf(["help"]), Help),
    Rule(AnyOf(["list threats"]), ListThreats),
    Rule(AnyOf(["scan network"]), ScanNetwork),
    Rule(AnyOf(["enable agent"]), EnableAgent)
  ]

  /** The CLI handler: one message after 300 ms. Only `enable agent` touches the
      flags, handing control back to the Main Agent; the fallback echoes the command
      as it was passed in, not lower-cased. */
  function ProcessCliCommand(s: Session, command: string): (r: Reaction)
    ensures |r.steps| == 1 && r.steps[0].Post? && r.steps[0].after == 300
    ensures r.steps[0].msg.sender == Agent && SpokenByCli(r.steps[0].msg.line)
    ensures r.session.chatOpen == s.chatOpen
    ensures r.session != s ==> ModeOf(r.session) == Autonomous
  {
    match ClassifyCli(Lower(command))
    case Help => Reaction(s, [Post(300, Reply(CliHelp))])
    case ListThreats => Reaction(s, [Post(300, Reply(CliThreats))])
    case ScanNetwork => Reaction(s, [Post(300, Reply(CliNetwork))])
    case EnableAgent =>
      Reaction(s.(agentActive := true, cliMode := false), [Post(300, Notice(AgentRestored))])
    case Echo => Reaction(s, [Post(300, Reply(CliEcho(command)))])
  }

  /** `processCommand`: the mode picks the handler before anything is scheduled. */
  function ProcessCommand(s: Session, command: string): (r: Reaction)
    ensures r.session.chatOpen == s.chatOpen
    ensures |r.steps| >= 1 && r.steps[0].Post? && r.steps[0].after == 300
  {
    if !s.agentActive || s.cliMode then ProcessCliCommand(s, command)
    else Reaction(s, MainAgentSteps(s, Lower(command)))
  }
}
