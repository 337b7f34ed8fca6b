/** What the router promises: first match wins in a fixed order, the CLI fallback never
    speaks for the Main Agent, the shape and timing of each reply chain, and which
    commands may change the session. */
module RouterLaws {
  import opened Text
  import opened Script
  import opened Chat
  import opened Dispatch
  import opened State
  import opened Router

  // ---------------------------------------------------------------------------
  // Priority order

  /** The Main Agent ladder is the ordered table `MainRules` with `Unmatched` as default. */
  lemma MainLadderIsOrderedTable(lower: string)
    ensures ClassifyMain(lower) == FirstMatch(MainRules, lower, Unmatched)
  {
    HoldsEither(lower, "threat", "attack");
    HoldsEither(lower, "network", "device");
    HoldsEither(lower, "encrypt", "crypto");
    HoldsEither(lower, "defense", "response");
    HoldsEither(lower, "log", "audit");
    HoldsBoth(lower, "pause", "agent");
    HoldsOne(lower, "status");
    var r := MainRules;
    assert r[1..][1..][1..][1..][1..][1..][1..] == [];
  }

  /** The CLI ladder is the ordered table `CliRules` with `Echo` as default. */
  lemma CliLadderIsOrderedTable(lower: string)
    ensures ClassifyCli(lower) == FirstMatch(CliRules, lower, Echo)
  {
    HoldsOne(lower, "help");
    HoldsOne(lower, "list threats");
    HoldsOne(lower, "scan network");
    HoldsOne(lower, "enable agent");
    var r := CliRules;
    assert r[1..][1..][1..][1..] == [];
  }

  /** A Main Agent branch is taken exactly when its keywords match and no
      higher-priority branch's keywords do. */
  lemma MainFirstMatchWins(lower: string, k: nat)
    requires k < |MainRules|
    ensures ClassifyMain(lower) == MainRules[k].outcome
            <==> Holds(MainRules[k].guard, lower) && NoneBefore(MainRules, lower, k)
  {
    MainLadderIsOrderedTable(lower);
    assert Distinct(MainRules, Unmatched);
    if Holds(MainRules[k].guard, lower) && NoneBefore(MainRules, lower, k) {
      FirstMatchPicksEarliest(MainRules, lower, Unmatched, k);
    }
    if ClassifyMain(lower) == MainRules[k].outcome {
      FirstMatchOnlyAt(MainRules, lower, Unmatched, k);
    }
  }

  /** The generic Main Agent reply comes out exactly when no branch's keywords match. */
  lemma MainUnmatchedIffNoKeyword(lower: string)
    ensures ClassifyMain(lower) == Unmatched <==> NoneBefore(MainRules, lower, |MainRules|)
  {
    MainLadderIsOrderedTable(lower);
    assert Distinct(MainRules, Unmatched);
    FirstMatchDefaultOnlyIfNone(MainRules, lower, Unmatched);
  }

  /** A CLI branch is taken exactly when its command matches and no higher-priority
      command does. */
  lemma CliFirstMatchWins(lower: string, k: nat)
    requires k < |CliRules|
    ensures ClassifyCli(lower) == CliRules[k].outcome
            <==> Holds(CliRules[k].guard, lower) && NoneBefore(CliRules, lower, k)
  {
    CliLadderIsOrderedTable(lower);
    assert Distinct(CliRules, Echo);
    if Holds(CliRules[k].guard, lower) && NoneBefore(CliRules, lower, k) {
      FirstMatchPicksEarliest(CliRules, lower, Echo, k);
    }
    if ClassifyCli(lower) == CliRules[k].outcome {
      FirstMatchOnlyAt(CliRules, lower, Echo, k);
    }
  }

  /** The CLI echo comes out exactly when no known CLI command matches. */
  lemma CliEchoIffNoCommand(lower: string)
    ensures ClassifyCli(lower) == Echo <==> NoneBefore(CliRules, lower, |CliRules|)
  {
    CliLadderIsOrderedTable(lower);
    assert Distinct(CliRules, Echo);
    FirstMatchDefaultOnlyIfNone(CliRules, lower, Echo);
  }

  /** The reply each CLI rule posts, for every command: the rule that decides picks the
      help text, the threat list, the network scan or, for `enable agent`, the restore
      notice together with the flags handed back to the Main Agent. */
  lemma CliReplyFollowsTable(s: Session, command: string, k: nat)
    requires k < |CliRules|
    requires Holds(CliRules[k].guard, Lower(command)) && NoneBefore(CliRules, Lower(command), k)
    ensures ProcessCliCommand(s, command)
            == if k == 3
               then Reaction(s.(agentActive := true, cliMode := false), [Post(300, Notice(AgentRestored))])
               else Reaction(s, [Post(300, Reply([CliHelp, CliThreats, CliNetwork][k]))])
  {
    CliFirstMatchWins(Lower(command), k);
  }

  /** A command that no CLI rule matches, and only such a command, is echoed back as it
      was passed in, capitals and all, behind the `[CLI]` tag. */
  lemma CliEchoKeepsCommand(s: Session, command: string)
    ensures NoneBefore(CliRules, Lower(command), |CliRules|)
            <==> ProcessCliCommand(s, command) == Reaction(s, [Post(300, Reply(CliEcho(command)))])
    ensures NoneBefore(CliRules, Lower(command), |CliRules|)
            ==> Render(ProcessCliCommand(s, command).steps[0].msg.line)
                == "[CLI] Command executed: " + command
  {
    CliEchoIffNoCommand(Lower(command));
    EchoText(command);
  }

  // ---------------------------------------------------------------------------
  // Mode dispatch

  /** While the Main Agent is offline or paused a command reaches only the CLI handler:
      one message after 300 ms, never a routing notice, hand-off, sub-agent report or
      any other Main Agent line, not even in its rendered text, and never the shutdown
      prompt. */
  lemma OfflineCommandsReachOnlyCli(s: Session, command: string)
    requires !MainAgentOnline(s)
    ensures var r := ProcessCommand(s, command);
      && r == ProcessCliCommand(s, command)
      && |r.steps| == 1 && r.steps[0].Post? && r.steps[0].after == 300
      && !SpokenByMainAgent(r.steps[0].msg.line)
      && forall main: Line :: SpokenByMainAgent(main) ==> Render(r.steps[0].msg.line) != Render(main)
  {
    var l := ProcessCliCommand(s, command).steps[0].msg.line;
    forall main: Line | SpokenByMainAgent(main) ensures Render(l) != Render(main) {
      CliNeverSoundsLikeMainAgent(l, main);
    }
  }

  /** While the Main Agent is online every command starts with its routing notice, so
      the CLI handler is never reached. */
  lemma OnlineCommandsReachMainAgent(s: Session, command: string)
    requires MainAgentOnline(s)
    ensures var r := ProcessCommand(s, command);
      && r.session == s
      && r.steps[0] == Post(300, Notice(Routing))
      && SpokenByMainAgent(r.steps[0].msg.line)
  {
  }

  /** Every message the router posts comes from the agent side: the router never
      posts in the user's name. */
  lemma RouterSpeaksForAgentsOnly(s: Session, command: string)
    ensures var r := ProcessCommand(s, command);
      forall k :: 0 <= k < |r.steps| && r.steps[k].Post? ==> r.steps[k].msg.sender == Agent
  {
  }

  // ---------------------------------------------------------------------------
  // Shape and timing of the Main Agent chains

  /** A sub-agent branch is a three-step chain: the routing notice at 300 ms, the
      hand-off notice 500 ms later, the sub-agent's report 800 ms after that; the
      session is unchanged. */
  lemma SubAgentChain(s: Session, command: string, a: SubAgent)
    requires MainAgentOnline(s) && ClassifyMain(Lower(command)) == Delegate(a)
    ensures var r := ProcessCommand(s, command);
      && r.session == s
      && r.steps == [Post(300, Notice(Routing)),
                     Post(500, Notice(HandOff(a))),
                     Post(800, Reply(Report(a)))]
      && Schedule(r.steps, 0) == [300, 800, 1600]
  {
  }

  /** The status and unmatched branches post the routing notice and one normal reply
      500 ms later; the status reply, evaluated when the command is dispatched, always
      reports the autonomous mode. */
  lemma ShortChains(s: Session, command: string)
    requires MainAgentOnline(s)
    requires ClassifyMain(Lower(command)) in {StatusSummary, Unmatched}
    ensures var r := ProcessCommand(s, command);
      && r.session == s
      && |r.steps| == 2
      && r.steps[0] == Post(300, Notice(Routing))
      && r.steps[1].Post? && r.steps[1].after == 500 && r.steps[1].msg.kind == Normal
      && r.steps[1].msg.line
         == (if ClassifyMain(Lower(command)) == StatusSummary then SystemStatus(true) else MainGeneric)
  {
  }

  // ---------------------------------------------------------------------------
  // Which commands change the session

  /** The router changes the session exactly for a CLI command whose first match is
      `enable agent`; that sets `agentActive` and clears `cliMode`, leaving `chatOpen`. */
  lemma OnlyEnableAgentChangesFlags(s: Session, command: string)
    ensures var enable := !MainAgentOnline(s) && ClassifyCli(Lower(command)) == EnableAgent;
      && (ProcessCommand(s, command).session != s <==> enable)
      && (enable ==> ProcessCommand(s, command).session == s.(agentActive := true, cliMode := false))
  {
  }

  /** `enable agent` brings back autonomous mode from manual control and from the CLI
      fallback alike, with a single system notice. */
  lemma EnableAgentRestoresAutonomy(s: Session, command: string)
    requires !MainAgentOnline(s) && ClassifyCli(Lower(command)) == EnableAgent
    ensures var r := ProcessCommand(s, command);
      && ModeOf(r.session) == Autonomous
      && r.steps == [Post(300, Notice(AgentRestored))]
  {
  }

  /** Asking the Main Agent to pause only opens the confirmation prompt, 500 ms after
      the routing notice; no flag changes until the user confirms. */
  lemma PauseAgentOnlyPrompts(s: Session, command: string)
    requires MainAgentOnline(s) && ClassifyMain(Lower(command)) == PausePrompt
    ensures var r := ProcessCommand(s, command);
      && r.session == s
      && r.steps == [Post(300, Notice(Routing)), ShowShutdownPrompt(500)]
  {
  }

  // ---------------------------------------------------------------------------
  // Consequences of substring matching

  // Each concrete word below is checked keyword by keyword: a keyword is absent when
  // one of its letters is. The absences are proved a few at a time, in lemmas of their
  // own, because the solver handles a literal word against many keywords badly.

  /** "network logs" mentions both NetworkMapper's and LogAgent's keywords; the earlier
      rule wins. */
  lemma NetworkBeatsLog(lower: string)
    requires lower == "network logs"
    ensures ClassifyMain(lower) == Delegate(NetworkMapper)
  {
    assert lower == "" + "network" + " logs";
    IncludesInfix("", "network", " logs");
    NetworkLogsAvoidsThreatWords(lower);
  }

  lemma NetworkLogsAvoidsThreatWords(lower: string)
    requires lower == "network logs"
    ensures !Includes(lower, "threat") && !Includes(lower, "attack")
  {
    MissingCharExcludes(lower, "threat", 1);
    MissingCharExcludes(lower, "attack", 0);
  }

  /** Words that merely contain "log", such as "catalog", are routed to LogAgent. */
  lemma CatalogReachesLogAgent(lower: string)
    requires lower == "catalog"
    ensures ClassifyMain(lower) == Delegate(LogAgent)
  {
    assert lower == "cata" + "log" + "";
    IncludesInfix("cata", "log", "");
    CatalogAvoidsThreatAndNetworkWords(lower);
    CatalogAvoidsCryptoAndDefenseWords(lower);
  }

  lemma CatalogAvoidsThreatAndNetworkWords(lower: string)
    requires lower == "catalog"
    ensures !Includes(lower, "threat") && !Includes(lower, "attack")
    ensures !Includes(lower, "network") && !Includes(lower, "device")
  {
    MissingCharExcludes(lower, "threat", 1);
    MissingCharExcludes(lower, "attack", 5);
    MissingCharExcludes(lower, "network", 0);
    MissingCharExcludes(lower, "device", 0);
  }

  lemma CatalogAvoidsCryptoAndDefenseWords(lower: string)
    requires lower == "catalog"
    ensures !Includes(lower, "encrypt") && !Includes(lower, "crypto")
    ensures !Includes(lower, "defense") && !Includes(lower, "response")
  {
    MissingCharExcludes(lower, "encrypt", 0);
    MissingCharExcludes(lower, "crypto", 1);
    MissingCharExcludes(lower, "defense", 0);
    MissingCharExcludes(lower, "response", 0);
  }

  /** "login" is routed to LogAgent too. */
  lemma LoginReachesLogAgent(lower: string)
    requires lower == "login"
    ensures ClassifyMain(lower) == Delegate(LogAgent)
  {
    assert lower == "" + "log" + "in";
    IncludesInfix("", "log", "in");
    LoginAvoidsThreatAndNetworkWords(lower);
    LoginAvoidsCryptoAndDefenseWords(lower);
  }

  lemma LoginAvoidsThreatAndNetworkWords(lower: string)
    requires lower == "login"
    ensures !Includes(lower, "threat") && !Includes(lower, "attack")
    ensures !Includes(lower, "network") && !Includes(lower, "device")
  {
    MissingCharExcludes(lower, "threat", 0);
    MissingCharExcludes(lower, "attack", 0);
    MissingCharExcludes(lower, "network", 1);
    MissingCharExcludes(lower, "device", 0);
  }

  lemma LoginAvoidsCryptoAndDefenseWords(lower: string)
    requires lower == "login"
    ensures !Includes(lower, "encrypt") && !Includes(lower, "crypto")
    ensures !Includes(lower, "defense") && !Includes(lower, "response")
  {
    MissingCharExcludes(lower, "encrypt", 0);
    MissingCharExcludes(lower, "crypto", 0);
    MissingCharExcludes(lower, "defense", 0);
    MissingCharExcludes(lower, "response", 0);
  }

  /** "status" reaches the Main Agent's status branch: none of the earlier keywords
      occurs in it. */
  lemma StatusReachesSummary(lower: string)
    requires lower == "status"
    ensures ClassifyMain(lower) == StatusSummary
  {
    assert lower == "" + "status" + "";
    IncludesInfix("", "status", "");
    StatusAvoidsThreatAndNetworkWords(lower);
    StatusAvoidsCryptoAndDefenseWords(lower);
    StatusAvoidsLogWordsAndPause(lower);
  }

  lemma StatusAvoidsThreatAndNetworkWords(lower: string)
    requires lower == "status"
    ensures !Includes(lower, "threat") && !Includes(lower, "attack")
    ensures !Includes(lower, "network") && !Includes(lower, "device")
  {
    MissingCharExcludes(lower, "threat", 1);
    MissingCharExcludes(lower, "attack", 4);
    MissingCharExcludes(lower, "network", 0);
    MissingCharExcludes(lower, "device", 0);
  }

  lemma StatusAvoidsCryptoAndDefenseWords(lower: string)
    requires lower == "status"
    ensures !Includes(lower, "encrypt") && !Includes(lower, "crypto")
    ensures !Includes(lower, "defense") && !Includes(lower, "response")
  {
    MissingCharExcludes(lower, "encrypt", 0);
    MissingCharExcludes(lower, "crypto", 0);
    MissingCharExcludes(lower, "defense", 0);
    MissingCharExcludes(lower, "response", 0);
  }

  lemma StatusAvoidsLogWordsAndPause(lower: string)
    requires lower == "status"
    ensures !Includes(lower, "log") && !Includes(lower, "audit") && !Includes(lower, "pause")
  {
    MissingCharExcludes(lower, "log", 0);
    MissingCharExcludes(lower, "audit", 2);
    MissingCharExcludes(lower, "pause", 0);
  }

  /** None of the CLI commands occurs in "show encryption". */
  lemma ShowEncryptionMissesTheLadder(lower: string)
    requires lower == "show encryption"
    ensures ClassifyCli(lower) == Echo
  {
    ShowEncryptionAvoidsHelpAndThreats(lower);
    ShowEncryptionAvoidsScanAndEnable(lower);
  }

  lemma ShowEncryptionAvoidsHelpAndThreats(lower: string)
    requires lower == "show encryption"
    ensures !Includes(lower, "help") && !Includes(lower, "list threats")
  {
    MissingCharExcludes(lower, "help", 2);
    MissingCharExcludes(lower, "list threats", 0);
  }

  lemma ShowEncryptionAvoidsScanAndEnable(lower: string)
    requires lower == "show encryption"
    ensures !Includes(lower, "scan network") && !Includes(lower, "enable agent")
  {
    MissingCharExcludes(lower, "scan network", 2);
    MissingCharExcludes(lower, "enable agent", 2);
  }

  /** None of the CLI commands occurs in "view logs". */
  lemma ViewLogsMissesTheLadder(lower: string)
    requires lower == "view logs"
    ensures ClassifyCli(lower) == Echo
  {
    ViewLogsAvoidsHelpAndThreats(lower);
    ViewLogsAvoidsScanAndEnable(lower);
  }

  lemma ViewLogsAvoidsHelpAndThreats(lower: string)
    requires lower == "view logs"
    ensures !Includes(lower, "help") && !Includes(lower, "list threats")
  {
    MissingCharExcludes(lower, "help", 3);
    MissingCharExcludes(lower, "list threats", 3);
  }

  lemma ViewLogsAvoidsScanAndEnable(lower: string)
    requires lower == "view logs"
    ensures !Includes(lower, "scan network") && !Includes(lower, "enable agent")
  {
    MissingCharExcludes(lower, "scan network", 1);
    MissingCharExcludes(lower, "enable agent", 1);
  }

  /** None of the CLI commands occurs in "status". */
  lemma StatusMissesTheLadder(lower: string)
    requires lower == "status"
    ensures ClassifyCli(lower) == Echo
  {
    StatusAvoidsHelpAndThreats(lower);
    StatusAvoidsScanAndEnable(lower);
  }

  lemma StatusAvoidsHelpAndThreats(lower: string)
    requires lower == "status"
    ensures !Includes(lower, "help") && !Includes(lower, "list threats")
  {
    MissingCharExcludes(lower, "help", 0);
    MissingCharExcludes(lower, "list threats", 0);
  }

  lemma StatusAvoidsScanAndEnable(lower: string)
    requires lower == "status"
    ensures !Includes(lower, "scan network") && !Includes(lower, "enable agent")
  {
    MissingCharExcludes(lower, "scan network", 1);
    MissingCharExcludes(lower, "enable agent", 0);
  }

  /** `show encryption`, `view logs` and `status` are advertised by the CLI help, in any
      capitalisation, but have no branch: each is echoed back as typed. */
  lemma AdvertisedCliCommandsAreEchoed(s: Session, command: string)
    requires Lower(command) == "show encryption" || Lower(command) == "view logs" || Lower(command) == "status"
    ensures ProcessCliCommand(s, command) == Reaction(s, [Post(300, Reply(CliEcho(command)))])
  {
    var lower := Lower(command);
    if lower == "show encryption" {
      ShowEncryptionMissesTheLadder(lower);
    } else if lower == "view logs" {
      ViewLogsMissesTheLadder(lower);
    } else {
      StatusMissesTheLadder(lower);
    }
  }

  /** "Show Encryption" lowers to the advertised command, so it is echoed too, with its
      capitals kept in the echo. */
  lemma CapitalisedCommandLowers(command: string)
    requires command == "Show Encryption"
    ensures Lower(command) == "show encryption"
  {
    var lower := Lower(command);
    forall k | 0 <= k < 15 ensures lower[k] == "show encryption"[k] {
      assert lower[k] == LowerChar(command[k]);
    }
  }
}
