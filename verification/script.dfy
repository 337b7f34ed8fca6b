/** The scripted lines of the chat widget. A message carries a `Line` saying which
    canned text it is (or the text the user typed, or the command the CLI echoes), and
    `Render` gives the exact text the page shows. */
module Script {
  import opened Text

  /** The scripted personas the Main Agent hands commands to. */
  datatype SubAgent = ThreatScanner | NetworkMapper | EncryptionManager | DefenseOrchestrator | LogAgent

  datatype Line =
    // Main Agent side
    | Routing                          // the notice that opens every Main Agent chain
    | HandOff(agent: SubAgent)         // the Main Agent passing the command on
    | Report(agent: SubAgent)          // the sub-agent's canned answer
    | SystemStatus(agentActive: bool)  // the Main Agent's status summary
    | MainGeneric                      // the Main Agent's reply when no keyword matched
    // CLI side
    | CliHelp
    | CliThreats
    | CliNetwork
    | AgentRestored
    | CliEcho(command: string)
    // mode changes
    | AgentPaused
    | ConnectionLost
    // the user's own message
    | Typed(text: string)

  predicate SpokenByMainAgent(l: Line) {
    l.Routing? || l.HandOff? || l.Report? || l.SystemStatus? || l.MainGeneric?
  }

  predicate SpokenByCli(l: Line) {
    l.CliHelp? || l.CliThreats? || l.CliNetwork? || l.AgentRestored? || l.CliEcho?
  }

  function AgentName(a: SubAgent): (name: string) {
    match a
    case ThreatScanner => "ThreatScanner"
    case NetworkMapper => "NetworkMapper"
    case EncryptionManager => "EncryptionManager"
    case DefenseOrchestrator => "DefenseOrchestrator"
    case LogAgent => "LogAgent"
  }

  /** A line signed by the persona that speaks it: "Name: text". */
  function Signed(speaker: string, body: string): (line: string) {
    speaker + ": " + body
  }

  const MainAgent: string := "Main Agent"

  // The long canned texts are constants; functions only select among them.

  const ThreatScannerBody: string :=
    "Currently tracking 7 active threats. 2 critical SQL injection attempts blocked. DDoS mitigation active on port 80. All threats contained with hybrid encryption logging."
  const NetworkMapperBody: string :=
    "247 devices discovered on network. 12 new devices in last hour. All communications secured with Classical + Post-Quantum encryption."
  const EncryptionManagerBody: string :=
    "Hybrid mode active. Classical: AES-256-GCM, HMAC-SHA256. Post-Quantum: CRYSTALS-Kyber, Dilithium. All channels protected."
  const DefenseOrchestratorBody: string :=
    "18 security policies active. Automated response enabled. Last action: Blocked 45K malicious requests. All actions logged with quantum-resistant signatures."
  const LogAgentBody: string :=
    "Processing 147K entries/minute. All logs encrypted with hybrid protection. Compliance reports ready for SOC 2, ISO 27001."

  function ReportBody(a: SubAgent): (body: string) {
    match a
    case ThreatScanner => ThreatScannerBody
    case NetworkMapper => NetworkMapperBody
    case EncryptionManager => EncryptionManagerBody
    case DefenseOrchestrator => DefenseOrchestratorBody
    case LogAgent => LogAgentBody
  }

  /** A sub-agent's answer, signed with its name. */
  function ReportText(a: SubAgent): (text: string) {
    Signed(AgentName(a), ReportBody(a))
  }

  const RoutingText: string := "Routing to Main Agent..."

  /** What the Main Agent says before the name of the sub-agent it hands over to. */
  const HandOffHead: string := "Main Agent: Routing to "

  function HandOffText(a: SubAgent): (text: string) {
    HandOffHead + AgentName(a) + " sub-agent..."
  }

  function ModeLabel(agentActive: bool): (mode: string) {
    if agentActive then "Autonomous" else "Manual Control"
  }

  const StatusHead: string := "System Status\n\U{2022} AI Mode: "
  const StatusTail: string :=
    "\n\U{2022} Active Sub-Agents: 6\n\U{2022} Threat Level: Medium\n\U{2022} Encryption: Hybrid Active\n\U{2022} Uptime: 99.98%"

  function StatusText(agentActive: bool): (text: string) {
    Signed(MainAgent, StatusHead + ModeLabel(agentActive) + StatusTail)
  }

  const GenericBody: string :=
    "Command processed. Please specify which sub-agent or system you need: ThreatScanner, NetworkMapper, DefenseOrchestrator, EncryptionManager, AnalyticsEngine, or LogAgent."

  /** The tag that opens the CLI handler's data replies. */
  const CliTag: string := "[CLI] "

  /** What the CLI handler puts before a command it has no branch for. */
  const CliEchoHead: string := "[CLI] Command executed: "

  const CliHelpHead: string := "CLI Mode Commands:"
  const CliHelpBody: string :=
    "\n\U{2022} list threats - Show active threats\n\U{2022} scan network - Display network devices\n\U{2022} show encryption - Encryption status\n\U{2022} view logs - Recent security events\n\U{2022} enable agent - Restore AI control\n\U{2022} status - System overview"
  const CliThreatsBody: string :=
    "Active Threats:\n1. SQL Injection - /api/users - BLOCKED\n2. DDoS Attack - Port 80 - MITIGATING\n3. Port Scan - 185.*.*.* - MONITORED"
  const CliNetworkBody: string :=
    "Network Scan:\n\U{2022} Total Devices: 247\n\U{2022} Servers: 12\n\U{2022} Workstations: 189\n\U{2022} IoT Devices: 46\n\U{2022} Unknown: 0"

  const CheckMark: string := "\U{2705} "
  const Warning: string := "\U{26A0}\U{FE0F} "

  const AgentRestoredBody: string := "Main Agent re-enabled. Autonomous mode restored."
  const AgentPausedBody: string :=
    "Main Agent has been paused. Manual control is now active. I will operate in local CLI mode if external connections fail."
  const ConnectionLostBody: string :=
    "Main Agent connection lost. Switching to CLI fallback mode. Type \"help\" for available commands."

  /** The exact text the page shows for a line. */
  function Render(l: Line): (text: string) {
    match l
    case Routing => RoutingText
    case HandOff(a) => HandOffText(a)
    case Report(a) => ReportText(a)
    case SystemStatus(active) => StatusText(active)
    case MainGeneric => Signed(MainAgent, GenericBody)
    case CliHelp => CliHelpHead + CliHelpBody
    case CliThreats => CliTag + CliThreatsBody
    case CliNetwork => CliTag + CliNetworkBody
    case AgentRestored => CheckMark + AgentRestoredBody
    case CliEcho(command) => CliEchoHead + command
    case AgentPaused => Warning + AgentPausedBody
    case ConnectionLost => Warning + ConnectionLostBody
    case Typed(text) => text
  }

  // ---------------------------------------------------------------------------
  // What the rendered texts let a reader tell apart

  /** A signed line starts with its speaker's initial. */
  lemma SignedInitial(speaker: string, body: string)
    requires |speaker| > 0
    ensures |Signed(speaker, body)| > 0 && Signed(speaker, body)[0] == speaker[0]
  {
  }

  lemma ReportInitial(a: SubAgent)
    ensures |ReportText(a)| > 0 && ReportText(a)[0] in "TNEDL"
  {
    assert |AgentName(a)| > 0 && AgentName(a)[0] in "TNEDL";
    SignedInitial(AgentName(a), ReportBody(a));
  }

  lemma HandOffInitial(a: SubAgent)
    ensures |HandOffText(a)| > 0 && HandOffText(a)[0] == 'M'
  {
    assert HandOffText(a)[0] == HandOffHead[0];
  }

  lemma StatusInitial(agentActive: bool)
    ensures |StatusText(agentActive)| > 0 && StatusText(agentActive)[0] == 'M'
  {
    SignedInitial(MainAgent, StatusHead + ModeLabel(agentActive) + StatusTail);
  }

  /** Everything the Main Agent side says starts with a letter of "Routing", "Main Agent"
      or a sub-agent's name. */
  lemma MainAgentInitials(l: Line)
    requires SpokenByMainAgent(l)
    ensures |Render(l)| > 0 && Render(l)[0] in "RMTNEDL"
  {
    match l
    case Routing =>
    case HandOff(a) => HandOffInitial(a);
    case Report(a) => ReportInitial(a);
    case SystemStatus(active) => StatusInitial(active);
    case MainGeneric => SignedInitial(MainAgent, GenericBody);
  }

  /** Everything the CLI handler says starts with "CLI", "[CLI]" or a check mark. */
  lemma CliInitials(l: Line)
    requires SpokenByCli(l)
    ensures |Render(l)| > 0 && Render(l)[0] in "C[\U{2705}"
  {
  }

  /** No CLI reply reads like a Main Agent line. */
  lemma CliNeverSoundsLikeMainAgent(cli: Line, main: Line)
    requires SpokenByCli(cli) && SpokenByMainAgent(main)
    ensures Render(cli) != Render(main)
  {
    CliInitials(cli);
    MainAgentInitials(main);
  }

  /** The status summary names the mode it was given: "Autonomous" while the agent is
      active, "Manual Control" otherwise. */
  lemma StatusNamesMode(agentActive: bool)
    ensures Includes(StatusText(agentActive), ModeLabel(agentActive))
    ensures agentActive ==> Includes(StatusText(agentActive), "Autonomous")
  {
    var head := MainAgent + ": " + StatusHead;
    assert StatusText(agentActive) == head + ModeLabel(agentActive) + StatusTail;
    IncludesInfix(head, ModeLabel(agentActive), StatusTail);
  }

  /** The CLI echo shows the command exactly as it was passed in, after a fixed tag. */
  lemma EchoText(command: string)
    ensures Render(CliEcho(command)) == "[CLI] Command executed: " + command
  {
  }

  /** The hand-off notice carries the sub-agent's initial right after its fixed head. */
  lemma HandOffLetter(a: SubAgent)
    ensures |HandOffText(a)| > |HandOffHead| && HandOffText(a)[|HandOffHead|] == AgentName(a)[0]
  {
    var rest := AgentName(a) + " sub-agent...";
    assert HandOffText(a) == HandOffHead + rest;
    assert rest[0] == AgentName(a)[0];
  }

  /** Each hand-off notice names the sub-agent it routes to, so different sub-agents get
      different notices. */
  lemma HandOffNamesAgent(a: SubAgent, b: SubAgent)
    requires HandOffText(a) == HandOffText(b)
    ensures a == b
  {
    HandOffLetter(a);
    HandOffLetter(b);
  }
}
