/** The chat transcript's vocabulary: who posted a message, how it is tagged, and the
    delayed steps an operation asks the page to carry out. */
module Chat {
  import opened Text
  import opened Script

  /** The `isUser` flag of a posted message. */
  datatype Sender = User | Agent

  /** The `type` of a posted message; `Normal` is the default. */
  datatype Kind = Normal | System

  /** One chat bubble: which line it shows, who posted it, how it is tagged. The
      locale-formatted time stamp the page adds is not modelled. */
  datatype Message = Message(line: Line, sender: Sender, kind: Kind)

  /** Something an operation schedules, `after` milliseconds after the previous step of
      the same chain (0 for what happens synchronously). Chains are nested timeouts, so
      the delays add up along a chain. */
  datatype Step =
    | Post(after: nat, msg: Message)
    | ShowShutdownPrompt(after: nat)

  /** A normal reply from the agent side. */
  function Reply(l: Line): (m: Message) {
    Message(l, Agent, Normal)
  }

  /** A system notice from the agent side. */
  function Notice(l: Line): (m: Message) {
    Message(l, Agent, System)
  }

  /** The CSS class of a bubble: the base class, then " user" for the user's own
      messages, then " system" for system notices. */
  function BubbleClass(m: Message): (cls: string)
    ensures |cls| >= 17 && cls[..17] == "ai-message-bubble"
    ensures Includes(cls, " user") <==> m.sender == User
    ensures Includes(cls, " system") <==> m.kind == System
  {
    var user := if m.sender == User then " user" else "";
    var system := if m.kind == System then " system" else "";
    ClassShowsTags("ai-message-bubble", user, system);
    "ai-message-bubble" + user + system
  }

  /** Which suffixes a class shows: the base class and the suffixes chosen for the
      tags contain " user" only through the user suffix, and " system" only through
      the system suffix. */
  lemma ClassShowsTags(base: string, user: string, system: string)
    requires base == "ai-message-bubble"
    requires user == " user" || user == ""
    requires system == " system" || system == ""
    ensures Includes(base + user + system, " user") <==> user == " user"
    ensures Includes(base + user + system, " system") <==> system == " system"
  {
    var cls := base + user + system;
    if user == " user" {
      IncludesInfix(base, " user", system);
    } else {
      assert 'r' !in cls by { assert cls == base + system; }
      MissingCharExcludes(cls, " user", 4);
    }
    if system == " system" {
      assert cls == (base + user) + " system" + "";
      IncludesInfix(base + user, " system", "");
    } else {
      assert 'y' !in cls by { assert cls == base + user; }
      MissingCharExcludes(cls, " system", 2);
    }
  }

  /** The class tells sender and kind apart: two bubbles with the same class have the
      same sender and the same kind. */
  lemma BubbleClassDeterminesTags(a: Message, b: Message)
    requires BubbleClass(a) == BubbleClass(b)
    ensures a.sender == b.sender && a.kind == b.kind
  {
  }

  /** The time of each step counted from the start of its chain. */
  function Schedule(steps: seq<Step>, start: nat): (times: seq<nat>)
    ensures |times| == |steps|
    ensures |steps| > 0 ==> times[0] == start + steps[0].after
    ensures forall k :: 0 < k < |steps| ==> times[k] == times[k - 1] + steps[k].after
    decreases |steps|
  {
    if |steps| == 0 then []
    else
      var t := start + steps[0].after;
      [t] + Schedule(steps[1..], t)
  }
}
