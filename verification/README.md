# AI Sentinel-X chat controller, modelled in Dafny

The AI Sentinel-X dashboard has a chat widget. A scripted "Main Agent" routes typed
commands to five scripted sub-agents (ThreatScanner, NetworkMapper, EncryptionManager,
DefenseOrchestrator, LogAgent). When the agent is paused, or its connection is lost, a
"CLI fallback" answers a handful of commands instead. All of this lives in `shared.js`.

This project models that controller as pure functions over an immutable session record
`Session(agentActive, cliMode, chatOpen)`. Every control returns a `Reaction`: the new
session and the ordered list of steps it schedules. A step is a posted message or the
opening of the shutdown prompt. Each step carries its `setTimeout` delay, counted from
the previous step of the same chain.

A message records which scripted line it shows (`Script.Line`), who posted it (user or
agent) and its kind (normal or system). `Script.Render` gives the exact text of each
line. The text primitives the controller relies on (`trim`, `toLowerCase`, `includes`)
are modelled in `Text`.

Modules:

- `Text`: `String.prototype.trim` over the ECMAScript whitespace set, `toLowerCase`, and
  `includes` with a reference definition.
- `Script`: the scripted lines and their exact texts.
- `Chat`: message tags, bubble CSS classes and step timing.
- `Dispatch`: keyword rules as ordered tables, with "first match wins" semantics.
- `State`: the session flags and the three modes they encode.
- `Router`: `processCommand` and `processCLICommand`.
- `RouterLaws`: the router's properties.
- `Controls`: `confirmAgentShutdown`, `simulateConnectionIssue`, `toggleChat`,
  `sendChatMessage`, and runs of events.
- `SessionLaws`: the mode state machine and properties of event sequences.

Facts about `shared.js` that the model reproduces and that a reader might not expect:

- The CLI help text (shared.js:255-261) lists `show encryption`, `view logs` and
  `status`, but no CLI branch handles them. Each is echoed back as
  `[CLI] Command executed: ` followed by the command as typed
  (`RouterLaws.AdvertisedCliCommandsAreEchoed`).
- So "status" typed after the shutdown is echoed. It does not produce the status
  summary with "Manual Control" in it (`SessionLaws.StatusAfterShutdown`).
- Confirming the shutdown a second time leaves the flags as they are. The pause notice
  is posted again while the panel is open (`SessionLaws.ShutdownIsIdempotent`).
- Keywords are matched as substrings of the lower-cased command. So "catalog" and
  "login" reach LogAgent, and "network logs" reaches NetworkMapper, whose rule comes
  first.

## Model

| member | source | states |
|---|---|---|
| Text.Trim | shared.js:156 | `trim` never lengthens its input and keeps no whitespace at either end; `Text.TrimIsMiddle` and `Text.TrimEmptyIffBlank` state the rest |
| Text.TrimStart | shared.js:156 | the leading part `trim` drops is all whitespace, what is kept is a suffix of the input, and what is kept does not start with whitespace |
| Text.TrimEnd | shared.js:156 | the trailing part `trim` drops is all whitespace, what is kept is a prefix of the input, and what is kept does not end with whitespace |
| Text.TrimIsMiddle | shared.js:156 | the trimmed message is a contiguous middle of the input, surrounded only by whitespace |
| Text.TrimEmptyIffBlank | shared.js:156-157 | the empty-message guard fires exactly when the input is all whitespace |
| Text.TrimIdempotent | shared.js:156 | trimming twice is trimming once |
| Text.Lower | shared.js:188 | lower-casing keeps the length, turns each ASCII capital into its small letter and the Kelvin sign into `k`, leaves every other character alone, and leaves no ASCII capital |
| Text.LowerIsIdempotent | shared.js:188 | a lowered command has no ASCII capital left, and lowering it again changes nothing |
| Text.LowerKeepsLowercase | shared.js:188 | a command without capitals is its own lower case |
| Text.Includes | shared.js:202-283 | the `includes` scan: a match needs a keyword no longer than the command, and the empty keyword always matches; `Text.IncludesIffOccurs` gives its reference definition |
| Text.IncludesIffOccurs | shared.js:202 | the left-to-right `includes` scan finds a keyword exactly when the keyword occurs at some position |
| Text.IncludesInfix | shared.js:222 | a word that contains a keyword inside it, such as "catalog" containing "log", matches that keyword |
| Text.IncludesLowerIgnoresCase | shared.js:188-202 | a keyword of small letters and spaces is found in the lowered command exactly when it occurs in the command as typed, in any capitalisation |
| Text.MissingCharExcludes | shared.js:202 | a keyword with a letter the command lacks does not match |
| Script.MainAgentInitials | shared.js:197-238 | every Main Agent line starts with a letter of "Routing", "Main Agent" or a sub-agent name |
| Script.CliInitials | shared.js:254-283 | every CLI line starts with "CLI", "[CLI]" or a check mark |
| Script.CliNeverSoundsLikeMainAgent | shared.js:191-194 | no CLI line has the same text as any Main Agent line |
| Script.StatusNamesMode | shared.js:229-235 | the status summary names the mode it is given, "Autonomous" while the agent is active |
| Script.EchoText | shared.js:282 | the CLI echo shows `[CLI] Command executed: ` followed by the command exactly as passed in |
| Script.Render | shared.js:197-302 | the exact text of each scripted line; `Script.CliNeverSoundsLikeMainAgent`, `Script.StatusNamesMode` and `Script.EchoText` state what tells them apart |
| Script.HandOffNamesAgent | shared.js:202-226 | different sub-agents get different hand-off notices |
| Chat.BubbleClass | shared.js:174-176 | every bubble class starts with the base class `ai-message-bubble`, contains ` user` exactly for the user's messages, and contains ` system` exactly for system notices |
| Chat.BubbleClassDeterminesTags | shared.js:174-176 | the bubble class determines both the sender and the kind of the message |
| Chat.Schedule | shared.js:197-240 | nested timeouts fire at the running sums of their delays |
| Dispatch.FirstMatchPicksEarliest | shared.js:202-238 | in an ordered keyword table, the earliest rule that fires decides |
| Dispatch.FirstMatchDefault | shared.js:236-238 | when no rule fires, the fallback decides |
| Dispatch.FirstMatchOnlyAt | shared.js:202-238 | with distinct outcomes, getting a rule's outcome means that rule fired and no earlier rule did |
| Dispatch.FirstMatchDefaultOnlyIfNone | shared.js:202-238 | with distinct outcomes, the fallback comes out exactly when no rule fires |
| State.OnlineIffAutonomous | shared.js:191-194 | commands go to the Main Agent exactly in autonomous mode, and to the CLI handler in manual mode and in the CLI fallback |
| Router.ClassifyMain | shared.js:202-238 | the branch the Main Agent ladder takes; `RouterLaws.MainLadderIsOrderedTable` and `RouterLaws.MainFirstMatchWins` state which |
| Router.MainAgentSteps | shared.js:196-240 | the Main Agent chain opens with the routing notice after 300 ms, has two or three steps, and every message in it is a Main Agent line |
| Router.ClassifyCli | shared.js:254-283 | the branch the CLI ladder takes; `RouterLaws.CliLadderIsOrderedTable` and `RouterLaws.CliFirstMatchWins` state which |
| Router.ProcessCliCommand | shared.js:243-285 | the CLI handler posts exactly one agent message, a CLI line, after 300 ms; `chatOpen` is untouched; a changed session is autonomous mode |
| Router.ProcessCommand | shared.js:187-241 | every command posts its first message after 300 ms and never touches `chatOpen` |
| RouterLaws.MainLadderIsOrderedTable | shared.js:202-238 | the Main Agent if/else ladder equals the ordered rule table threat/attack, network/device, encrypt/crypto, defense/response, log/audit, pause+agent, status, with the generic fallback |
| RouterLaws.CliLadderIsOrderedTable | shared.js:254-283 | the CLI ladder equals the ordered table help, list threats, scan network, enable agent, with the echo fallback |
| RouterLaws.MainFirstMatchWins | shared.js:202-238 | a Main Agent branch is taken exactly when its keywords match and no earlier branch's keywords do |
| RouterLaws.MainUnmatchedIffNoKeyword | shared.js:236-238 | the generic reply comes out exactly when no keyword matches |
| RouterLaws.CliFirstMatchWins | shared.js:254-283 | a CLI branch is taken exactly when its command matches and no earlier command does |
| RouterLaws.CliEchoIffNoCommand | shared.js:281-283 | the echo comes out exactly when no CLI command matches |
| RouterLaws.CliReplyFollowsTable | shared.js:254-280 | for every command, the CLI rule that decides posts its own reply after 300 ms: the help text, the threat list, the network scan, or, for `enable agent`, the restore notice with the flags handed back |
| RouterLaws.CliEchoKeepsCommand | shared.js:281-283 | a command no CLI rule matches, and only such a command, is echoed back as `[CLI] Command executed: ` followed by the command as typed, capitals kept |
| RouterLaws.OfflineCommandsReachOnlyCli | shared.js:191-194 | while the agent is paused or offline, a command posts one CLI message after 300 ms, never a Main Agent line, and no text that equals one |
| RouterLaws.OnlineCommandsReachMainAgent | shared.js:196-198 | while the agent is online, every command starts with the routing notice and leaves the session unchanged |
| RouterLaws.RouterSpeaksForAgentsOnly | shared.js:187-285 | the router never posts in the user's name |
| RouterLaws.SubAgentChain | shared.js:197-240 | a sub-agent branch posts the routing notice at 300 ms, the hand-off notice at 800 ms and the sub-agent's report at 1600 ms |
| RouterLaws.ShortChains | shared.js:229-238 | the status and fallback branches post the routing notice and one normal reply 500 ms later; the status reply says the agent is active |
| RouterLaws.OnlyEnableAgentChangesFlags | shared.js:274-276 | the router changes the session exactly for a CLI command whose first match is `enable agent`, which sets `agentActive` and clears `cliMode` |
| RouterLaws.EnableAgentRestoresAutonomy | shared.js:274-280 | `enable agent` restores autonomous mode from either other mode, with one system notice |
| RouterLaws.PauseAgentOnlyPrompts | shared.js:227-228 | asking the Main Agent to pause only opens the prompt, 500 ms after the routing notice, and changes no flag |
| RouterLaws.NetworkBeatsLog | shared.js:207-226 | "network logs" goes to NetworkMapper, not LogAgent |
| RouterLaws.CatalogReachesLogAgent | shared.js:222-226 | "catalog" goes to LogAgent |
| RouterLaws.LoginReachesLogAgent | shared.js:222-226 | "login" goes to LogAgent |
| RouterLaws.StatusReachesSummary | shared.js:229-235 | "status" reaches the Main Agent's status branch |
| RouterLaws.AdvertisedCliCommandsAreEchoed | shared.js:254-283 | `show encryption`, `view logs` and `status` appear in the CLI help text but are echoed back as typed, in any capitalisation |
| RouterLaws.CapitalisedCommandLowers | shared.js:244 | "Show Encryption" lowers to the advertised command |
| Controls.ConfirmAgentShutdown | shared.js:105-127 | confirming the shutdown clears `agentActive` only, enters manual mode, and posts the pause notice exactly when the panel is open |
| Controls.SimulateConnectionIssue | shared.js:288-304 | a draw above 0.95 with the agent active switches on the CLI fallback and posts one notice; otherwise nothing changes and nothing is posted |
| Controls.ToggleChat | shared.js:138-146 | toggling flips `chatOpen` only and posts nothing |
| Controls.SendChatMessage | shared.js:154-165 | whitespace-only input is dropped; otherwise the user's bubble with the trimmed text comes first, followed by what the router does with the trimmed text |
| Controls.Apply | shared.js:105-304 | one event applied to the page; only toggling moves the panel; `SessionLaws.ModeTransitions` states how the mode moves |
| Controls.Run | shared.js:105-304 | the page driven by a sequence of events; `SessionLaws.RunConcatenates`, `SessionLaws.PanelFollowsToggleParity`, `SessionLaws.CliFallbackNeedsFailedCheck` and `SessionLaws.PauseNeedsConfirmation` state its contract |
| SessionLaws.ShutdownIsIdempotent | shared.js:105-127 | a second confirmation leaves the flags as the first did, and posts the same notice again |
| SessionLaws.ShutdownHandsCommandsToCli | shared.js:106 | after the shutdown every command goes to the CLI handler |
| SessionLaws.PausedAgentIgnoresConnectionCheck | shared.js:289 | a paused agent cannot lose its connection |
| SessionLaws.ConnectionCheckIgnoresPanelAndCliMode | shared.js:289-302 | a failed check during the CLI fallback changes no flag but posts the notice again |
| SessionLaws.ToggleTwiceRestores | shared.js:138-146 | toggling twice restores the session |
| SessionLaws.SendPostsOneUserBubble | shared.js:159-164 | a sent message posts exactly one user bubble, first, with the trimmed text; every later message comes from the agent side |
| SessionLaws.PaddingIsIgnored | shared.js:156 | whitespace around a message changes nothing |
| SessionLaws.TrimPadded | shared.js:156 | whitespace around a string does not change its trim |
| SessionLaws.ModeTransitions | shared.js:105-290 | the mode changes only on a confirmed shutdown (to manual), a failed check from autonomous mode (to the CLI fallback), or a sent message whose trimmed, lower-cased text first matches the CLI rule `enable agent`, from another mode (to autonomous) |
| SessionLaws.CliModeOnlyFromConnectionCheck | shared.js:289-290 | only a failed connection check switches `cliMode` on |
| SessionLaws.PauseOnlyFromConfirmation | shared.js:105-106 | only the confirmed shutdown clears `agentActive` |
| SessionLaws.RunConcatenates | shared.js:167-185 | the transcript is append-only: running two event sequences in turn is running their concatenation |
| SessionLaws.PanelFollowsToggleParity | shared.js:138-139 | after any events the panel is open exactly when it was toggled an odd number of times from closed, or an even number from open |
| SessionLaws.CliFallbackNeedsFailedCheck | shared.js:289-290 | across any events, the CLI fallback is on only if some connection check failed |
| SessionLaws.PauseNeedsConfirmation | shared.js:105-106 | across any events, the agent is paused only if the shutdown was confirmed |
| SessionLaws.StatusFromPageLoad | shared.js:4-6 | from page load, opening the panel and sending "status" gives the routing notice, then the status summary for an active agent |
| SessionLaws.StatusAfterShutdown | shared.js:105-127 | after a confirmed shutdown, the same "status" is echoed by the CLI handler instead |

## Left out

- The animated canvas background (shared.js:9-82). It is cosmetic and uses floating-point motion.
- DOM effects are not modelled: modal show/hide, the status badge, the CLI mode indicator, the
  chat-window class, scrolling and `innerHTML` insertion (shared.js:85-103, 108-121, 140-145,
  178-184, 246-250, 277-279, 291-300). The model produces the message list instead. Message text
  is inserted as HTML unescaped; the model treats it as plain text.
- Logout (shared.js:130-135). It is browser I/O: `confirm`, `localStorage` and navigation.
- Real timers and the 30-second `setInterval` (shared.js:307) are not modelled. Delays are data.
  A run of events assumes each chain has finished before the next event. Chains from commands
  sent in quick succession can interleave in the browser; the model does not cover that.
- Router.ProcessCommand: the `agentActive` value in the status summary is read when the command
  is dispatched, not when the 500 ms callback runs. So the summary always says "Autonomous".
  A shutdown confirmed inside that window would make the page say "Manual Control".
- Router.ProcessCliCommand: `enable agent` changes the flags at once rather than after the
  300 ms delay.
- `Math.random()` is passed in as the `draw` parameter of `Controls.SimulateConnectionIssue`.
- The locale-formatted timestamp of each message is not modelled.
- Text.Lower: only ASCII capitals and the Kelvin sign are lowered. Full Unicode lower-casing,
  including context-dependent and length-changing cases, is not modelled. None of the keywords
  is affected.
- `handleChatKeyPress` (shared.js:148-152) is only the Enter-key trigger of `sendChatMessage`.
  Clearing the input box is a DOM effect.
