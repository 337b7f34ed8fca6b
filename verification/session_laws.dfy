/** The mode state machine: what each control does to the flags, which events can move
    the page between modes, and what holds of any sequence of events. */
module SessionLaws {
  import opened Text
  import opened Script
  import opened Chat
  import opened State
  import opened Router
  import opened RouterLaws
  import opened Controls

  // ---------------------------------------------------------------------------
  // Single controls

  /** Confirming the shutdown twice leaves the flags as confirming it once; only the
      notice is posted again while the panel is open. */
  lemma ShutdownIsIdempotent(s: Session)
    ensures var once := ConfirmAgentShutdown(s);
      && ConfirmAgentShutdown(once.session).session == once.session
      && ConfirmAgentShutdown(once.session).steps == once.steps
  {
  }

  /** After the shutdown is confirmed every command goes to the CLI handler, whatever
      the connection state. */
  lemma ShutdownHandsCommandsToCli(s: Session, command: string)
    ensures var paused := ConfirmAgentShutdown(s).session;
      ProcessCommand(paused, command) == ProcessCliCommand(paused, command)
  {
  }

  /** A paused agent cannot lose its connection: the check does nothing for any draw. */
  lemma PausedAgentIgnoresConnectionCheck(s: Session, draw: real)
    requires !s.agentActive
    ensures SimulateConnectionIssue(s, draw) == Reaction(s, [])
  {
  }

  /** The connection check posts its notice whether or not the panel is open and
      whether or not the CLI fallback is already on; the flags end up the same. */
  lemma ConnectionCheckIgnoresPanelAndCliMode(s: Session, draw: real)
    requires draw > DisconnectThreshold && s.agentActive
    ensures var again := SimulateConnectionIssue(SimulateConnectionIssue(s, draw).session, draw);
      && again.session == SimulateConnectionIssue(s, draw).session
      && again.steps == [Post(0, Notice(ConnectionLost))]
  {
  }

  /** Toggling the panel twice restores the session. */
  lemma ToggleTwiceRestores(s: Session)
    ensures ToggleChat(ToggleChat(s).session).session == s
  {
  }

  /** A sent message yields exactly one user bubble, the first step, showing the
      trimmed input; everything after it is posted by the agent side. */
  lemma SendPostsOneUserBubble(s: Session, raw: string)
    requires !AllTrimmable(raw)
    ensures var r := SendChatMessage(s, raw);
      && r.steps[0] == Post(0, Message(Typed(Trim(raw)), User, Normal))
      && forall k :: 1 <= k < |r.steps| && r.steps[k].Post? ==> r.steps[k].msg.sender == Agent
  {
    var r := SendChatMessage(s, raw);
    var routed := ProcessCommand(s, Trim(raw));
    RouterSpeaksForAgentsOnly(s, Trim(raw));
    forall k | 1 <= k < |r.steps| && r.steps[k].Post? ensures r.steps[k].msg.sender == Agent {
      assert r.steps[k] == r.steps[1..][k - 1] == routed.steps[k - 1];
    }
  }

  /** What is sent is what is routed: surrounding whitespace never reaches the router,
      so padding a message changes nothing. */
  lemma PaddingIsIgnored(s: Session, raw: string, pre: string, post: string)
    requires AllTrimmable(pre) && AllTrimmable(post)
    ensures SendChatMessage(s, pre + raw + post) == SendChatMessage(s, raw)
  {
    var padded := pre + raw + post;
    TrimPadded(pre, raw, post);
    if AllTrimmable(raw) {
      assert AllTrimmable(padded) by {
        forall k | 0 <= k < |padded| ensures IsTrimmable(padded[k]) {
          if k < |pre| { assert padded[k] == pre[k]; }
          else if k < |pre| + |raw| { assert padded[k] == raw[k - |pre|]; }
          else { assert padded[k] == post[k - |pre| - |raw|]; }
        }
      }
    } else {
      assert !AllTrimmable(padded) by {
        var k :| 0 <= k < |raw| && !IsTrimmable(raw[k]);
        assert padded[|pre| + k] == raw[k];
      }
    }
  }

  /** Whitespace around a string does not change its trim. */
  lemma {:induction false} TrimPadded(pre: string, raw: string, post: string)
    requires AllTrimmable(pre) && AllTrimmable(post)
    ensures Trim(pre + raw + post) == Trim(raw)
    decreases |pre| + |post|
  {
    var padded := pre + raw + post;
    if |pre| > 0 {
      var tail := pre[1..] + raw + post;
      assert padded[0] == pre[0] && padded[1..] == tail;
      assert TrimStart(padded) == TrimStart(tail);
      assert AllTrimmable(pre[1..]) by {
        forall k | 0 <= k < |pre| - 1 ensures IsTrimmable(pre[1..][k]) {
          assert pre[1..][k] == pre[k + 1];
        }
      }
      TrimPadded(pre[1..], raw, post);
    } else if |post| > 0 {
      var shorter := post[..|post| - 1];
      assert padded == (pre + raw + shorter) + [post[|post| - 1]];
      assert IsTrimmable(post[|post| - 1]);
      TrimEndDropsLast(pre + raw + shorter, post[|post| - 1]);
      assert AllTrimmable(shorter) by {
        forall k | 0 <= k < |shorter| ensures IsTrimmable(shorter[k]) {
          assert shorter[k] == post[k];
        }
      }
      TrimPadded(pre, raw, shorter);
    } else {
      assert padded == raw;
    }
  }

  /** Trailing whitespace does not survive trim. */
  lemma TrimEndDropsLast(s: string, c: char)
    requires IsTrimmable(c)
    ensures Trim(s + [c]) == Trim(s)
  {
    var t := s + [c];
    TrimStartKeepsAppend(s, c);
    if AllTrimmable(s) {
      assert AllTrimmable(t) by {
        forall k | 0 <= k < |t| ensures IsTrimmable(t[k]) {
          if k < |s| { assert t[k] == s[k]; }
        }
      }
      TrimEmptyIffBlank(t);
      TrimEmptyIffBlank(s);
    } else {
      var a := TrimStart(s);
      assert TrimStart(t) == a + [c];
      assert (a + [c])[..|a + [c]| - 1] == a;
    }
  }

  /** Leading whitespace is dropped the same way whatever follows it: appending a
      character to a string that is not all whitespace appends it to the trimmed start. */
  lemma {:induction false} TrimStartKeepsAppend(s: string, c: char)
    requires IsTrimmable(c)
    ensures !AllTrimmable(s) ==> TrimStart(s + [c]) == TrimStart(s) + [c]
    ensures AllTrimmable(s) ==> TrimStart(s + [c]) == []
    decreases |s|
  {
    var t := s + [c];
    if |s| > 0 && IsTrimmable(s[0]) {
      assert t[1..] == s[1..] + [c];
      TrimStartKeepsAppend(s[1..], c);
      assert AllTrimmable(s) <==> AllTrimmable(s[1..]) by {
        forall k | 0 < k < |s| ensures s[k] == s[1..][k - 1] { }
      }
    } else if |s| > 0 {
      assert t[0] == s[0];
    } else {
      assert t == [c];
      assert TrimStart(t) == TrimStart(t[1..]);
    }
  }

  // ---------------------------------------------------------------------------
  // The mode state machine

  /** An event that changes the mode does one of three things: confirming the shutdown
      pauses the agent; a failed connection check moves the autonomous agent to the CLI
      fallback; a sent command (`enable agent` at the CLI) restores autonomy from either
      other mode. Toggling the panel never changes the mode. */
  lemma ModeTransitions(s: Session, e: Event)
    ensures var after := ModeOf(Apply(s, e).session);
      after != ModeOf(s) ==>
        || (e.ConfirmShutdown? && after == ManualPaused)
        || (e.ConnectionCheck? && e.draw > DisconnectThreshold
            && ModeOf(s) == Autonomous && after == CliFallback)
        || (e.Send? && !AllTrimmable(e.raw) && ClassifyCli(Lower(Trim(e.raw))) == EnableAgent
            && ModeOf(s) != Autonomous && after == Autonomous)
  {
    match e
    case Send(raw) =>
      if !AllTrimmable(raw) {
        OnlyEnableAgentChangesFlags(s, Trim(raw));
      }
    case Toggle =>
    case ConfirmShutdown =>
    case ConnectionCheck(draw) =>
  }

  /** `cliMode` is switched on only by a failed connection check. */
  lemma CliModeOnlyFromConnectionCheck(s: Session, e: Event)
    requires !s.cliMode && Apply(s, e).session.cliMode
    ensures e.ConnectionCheck? && e.draw > DisconnectThreshold
  {
    if e.Send? {
      OnlyEnableAgentChangesFlags(s, Trim(e.raw));
    }
  }

  /** `agentActive` is switched off only by confirming the shutdown. */
  lemma PauseOnlyFromConfirmation(s: Session, e: Event)
    requires s.agentActive && !Apply(s, e).session.agentActive
    ensures e == ConfirmShutdown
  {
    if e.Send? {
      OnlyEnableAgentChangesFlags(s, Trim(e.raw));
    }
  }

  // ---------------------------------------------------------------------------
  // Sequences of events

  /** A run of one event is that event. */
  lemma RunOne(s: Session, e: Event)
    ensures Run(s, [e]) == Apply(s, e)
  {
    var head := Apply(s, e);
    assert [e][0] == e && [e][1..] == [];
    assert RunWith(Apply, head.session, []) == Reaction(head.session, []);
    assert head.steps + [] == head.steps;
  }

  /** Running two sequences one after the other is running their concatenation: the
      transcript only grows, and what came before is never rewritten. */
  lemma RunConcatenates(s: Session, first: seq<Event>, second: seq<Event>)
    ensures var a := Run(s, first);
      var b := Run(a.session, second);
      Run(s, first + second) == Reaction(b.session, a.steps + b.steps)
  {
    RunWithConcatenates(Apply, s, first, second);
  }

  /** `RunConcatenates` for any step function. */
  lemma {:induction false} RunWithConcatenates(step: (Session, Event) -> Reaction, s: Session,
                                               first: seq<Event>, second: seq<Event>)
    ensures var a := RunWith(step, s, first);
      var b := RunWith(step, a.session, second);
      RunWith(step, s, first + second) == Reaction(b.session, a.steps + b.steps)
    decreases |first|
  {
    if |first| > 0 {
      var both := first + second;
      assert both[0] == first[0] && both[1..] == first[1..] + second;
      var head := step(s, first[0]);
      RunWithConcatenates(step, head.session, first[1..], second);
      var a := RunWith(step, head.session, first[1..]);
      var b := RunWith(step, a.session, second);
      assert head.steps + (a.steps + b.steps) == (head.steps + a.steps) + b.steps;
    } else {
      assert first + second == second;
      assert [] + RunWith(step, s, second).steps == RunWith(step, s, second).steps;
    }
  }

  /** The panel is open after a run exactly when it started open and was toggled an
      even number of times, or started closed and was toggled an odd number. */
  lemma {:induction false} PanelFollowsToggleParity(s: Session, events: seq<Event>)
    ensures Run(s, events).session.chatOpen == (s.chatOpen != OddToggles(events))
    decreases |events|
  {
    if |events| > 0 {
      var next := Apply(s, events[0]).session;
      PanelFollowsToggleParity(next, events[1..]);
      RunSessionStep(s, events);
    }
  }

  /** The session after a run is the session after the rest of the run, started from
      the session the first event leaves. */
  lemma RunSessionStep(s: Session, events: seq<Event>)
    requires |events| > 0
    ensures Run(s, events).session == Run(Apply(s, events[0]).session, events[1..]).session
  {
  }

  /** The CLI fallback is never on at the end of a run that started without it unless
      some connection check in the run failed. */
  lemma {:induction false} CliFallbackNeedsFailedCheck(s: Session, events: seq<Event>)
    requires !s.cliMode && Run(s, events).session.cliMode
    ensures exists k :: 0 <= k < |events| && events[k].ConnectionCheck?
                        && events[k].draw > DisconnectThreshold
    decreases |events|
  {
    var next := Apply(s, events[0]).session;
    if next.cliMode {
      CliModeOnlyFromConnectionCheck(s, events[0]);
      assert events[0].ConnectionCheck? && events[0].draw > DisconnectThreshold;
    } else {
      CliFallbackNeedsFailedCheck(next, events[1..]);
      var k :| 0 <= k < |events[1..]| && events[1..][k].ConnectionCheck?
                && events[1..][k].draw > DisconnectThreshold;
      assert events[k + 1] == events[1..][k];
    }
  }

  /** An active agent is never paused at the end of a run unless the run confirmed the
      shutdown. */
  lemma {:induction false} PauseNeedsConfirmation(s: Session, events: seq<Event>)
    requires s.agentActive && !Run(s, events).session.agentActive
    ensures exists k :: 0 <= k < |events| && events[k] == ConfirmShutdown
    decreases |events|
  {
    var next := Apply(s, events[0]).session;
    if !next.agentActive {
      PauseOnlyFromConfirmation(s, events[0]);
      assert events[0] == ConfirmShutdown;
    } else {
      PauseNeedsConfirmation(next, events[1..]);
      var k :| 0 <= k < |events[1..]| && events[1..][k] == ConfirmShutdown;
      assert events[k + 1] == events[1..][k];
    }
  }

  // ---------------------------------------------------------------------------
  // A session from page load

  /** Opening the panel after page load posts nothing. */
  lemma OpenPanelFromPageLoad()
    ensures Run(Initial, [Toggle]) == Reaction(Initial.(chatOpen := true), [])
  {
    RunOne(Initial, Toggle);
  }

  /** Opening the panel and confirming the shutdown posts the pause notice. */
  lemma PauseFromPageLoad()
    ensures Run(Initial, [Toggle, ConfirmShutdown])
            == Reaction(Session(false, false, true), [Post(0, Notice(AgentPaused))])
  {
    RunConcatenates(Initial, [Toggle], [ConfirmShutdown]);
    assert [Toggle] + [ConfirmShutdown] == [Toggle, ConfirmShutdown];
    OpenPanelFromPageLoad();
    RunOne(Initial.(chatOpen := true), ConfirmShutdown);
  }

  /** From page load, opening the panel and sending "status" gets the routing notice
      and, 500 ms later, the status summary naming autonomous mode. */
  lemma StatusFromPageLoad(command: string)
    requires command == "status"
    ensures Run(Initial, [Toggle, Send(command)]).steps
            == [Post(0, UserBubble(command)), Post(300, Notice(Routing)),
                Post(500, Reply(SystemStatus(true)))]
  {
    var open := Initial.(chatOpen := true);
    RunConcatenates(Initial, [Toggle], [Send(command)]);
    assert [Toggle] + [Send(command)] == [Toggle, Send(command)];
    OpenPanelFromPageLoad();
    RunOne(open, Send(command));
    StatusWhileAutonomous(open, command);
  }

  /** "status" typed while the agent is in charge gets the routing notice and the summary. */
  lemma StatusWhileAutonomous(s: Session, command: string)
    requires command == "status" && MainAgentOnline(s)
    ensures SendChatMessage(s, command).steps
            == [Post(0, UserBubble(command)), Post(300, Notice(Routing)),
                Post(500, Reply(SystemStatus(true)))]
  {
    StatusIsPlainCommand(command);
    StatusReachesSummary(command);
  }

  /** After the shutdown is confirmed the same "status" is no longer answered with the
      summary: the CLI handler has no branch for it and echoes it back. */
  lemma StatusAfterShutdown(command: string)
    requires command == "status"
    ensures Run(Initial, [Toggle, ConfirmShutdown, Send(command)]).steps
            == [Post(0, Notice(AgentPaused)), Post(0, UserBubble(command)),
                Post(300, Reply(CliEcho(command)))]
  {
    var paused := Session(false, false, true);
    RunConcatenates(Initial, [Toggle, ConfirmShutdown], [Send(command)]);
    assert [Toggle, ConfirmShutdown] + [Send(command)] == [Toggle, ConfirmShutdown, Send(command)];
    PauseFromPageLoad();
    StatusRunWhilePaused(paused, command);
  }

  lemma StatusRunWhilePaused(s: Session, command: string)
    requires command == "status" && !s.agentActive
    ensures Run(s, [Send(command)])
            == Reaction(s, [Post(0, UserBubble(command)), Post(300, Reply(CliEcho(command)))])
  {
    RunOne(s, Send(command));
    StatusWhilePaused(s, command);
  }

  /** "status" typed while the agent is paused is echoed by the CLI handler. */
  lemma StatusWhilePaused(s: Session, command: string)
    requires command == "status" && !s.agentActive
    ensures SendChatMessage(s, command)
            == Reaction(s, [Post(0, UserBubble(command)), Post(300, Reply(CliEcho(command)))])
  {
    StatusIsPlainCommand(command);
    StatusMissesTheLadder(command);
  }

  /** "status" is its own trim and its own lower case. */
  lemma StatusIsPlainCommand(command: string)
    requires command == "status"
    ensures !AllTrimmable(command) && Trim(command) == command && Lower(command) == command
  {
    assert !IsTrimmable(command[0]);
    TrimKeepsSignificant(command);
    LowerKeepsLowercase(command);
  }
}
