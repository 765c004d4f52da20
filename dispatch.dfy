/**
 * What `act` (agentuse.py:276-309) does with a directive, as a value: the
 * outcome it returns, the text it sends to the terminal if any, and the
 * history entry it appends if any. `Session.Agent.Act` performs it.
 */
module Dispatch {
  import opened Wrappers
  import opened Text
  import opened Chat
  import opened Tools

  /** The strings `act` returns: "wait", "exit", "prompted", "custom_tool". */
  datatype Outcome = Wait | Exit | Prompted | CustomTool

  datatype Decision = Decision(outcome: Outcome, sent: Option<string>, entry: Option<Message>)

  const WaitTag: string := "<wait/>"
  const ExitTag: string := "<exit/>"
  const PromptOpen: string := "<prompt>"
  const PromptClose: string := "</prompt>"
  const ResultPrefix: string := "Tool result: "
  const ErrorPrefix: string := "Tool error: "

  /** The cheap guard: starts with `<`, ends with `>`, as many `<` as `>`. */
  predicate WellFormed(cmd: string) {
    StartsWith(cmd, "<") && EndsWith(cmd, ">") && Count(cmd, '<') == Count(cmd, '>')
  }

  predicate IsPrompt(cmd: string) {
    StartsWith(cmd, PromptOpen) && EndsWith(cmd, PromptClose)
  }

  /** `cmd[8:-9]` */
  function PromptText(cmd: string): string {
    SliceInner(cmd, |PromptOpen|, |PromptClose|)
  }

  /** The directive passes the guard and is none of the fixed commands, so the tools are scanned. */
  predicate ReachesTools(cmd: string) {
    WellFormed(cmd) && cmd != WaitTag && cmd != ExitTag && !IsPrompt(cmd)
  }

  /** The history entry a callback's result becomes, and the outcome that goes with it. */
  function ToolDecision(result: CallResult): (d: Decision)
    ensures d.sent.None? && d.entry.Some? && d.entry.value.role == User
    ensures d.outcome == CustomTool <==> result.Returned?
    ensures result.Raised? ==> d.outcome == Wait
    ensures d.entry.value.content
         == if result.Returned? then ResultPrefix + result.text else ErrorPrefix + result.reason
  {
    match result
    case Returned(text) => Decision(CustomTool, None, Some(Message(User, ResultPrefix + text)))
    case Raised(reason) => Decision(Wait, None, Some(Message(User, ErrorPrefix + reason)))
  }

  function Ignore(outcome: Outcome): Decision {
    Decision(outcome, None, None)
  }

  /** The custom-tool scan on a directive that reached it. */
  function ScanDecision(tools: seq<Tool>, cmd: string): (d: Decision)
    requires AllDerivable(tools)
    ensures d.sent.None? && (d.outcome == Wait || d.outcome == CustomTool)
    ensures d.entry.Some? <==> FirstMatch(tools, cmd).Some?
    ensures d.entry.Some? ==> d.entry.value.role == User
    ensures FirstMatch(tools, cmd).None? ==> d == Ignore(Wait)
  {
    match FirstMatch(tools, cmd)
    case None => Ignore(Wait)
    case Some(i) => ToolDecision(tools[i].callback(ToolInput(tools[i].format, cmd)))
  }

  /** `act(directive)` */
  function Decide(directive: string, tools: seq<Tool>): Decision
    requires AllDerivable(tools)
  {
    var cmd := Strip(directive);
    if !WellFormed(cmd) then Ignore(Wait)
    else if cmd == WaitTag then Ignore(Wait)
    else if cmd == ExitTag then Ignore(Exit)
    else if IsPrompt(cmd) then Decision(Prompted, Some(PromptText(cmd)), None)
    else ScanDecision(tools, cmd)
  }

  /** Text is typed exactly when the outcome is `prompted`. */
  lemma SendsOnlyOnPrompt(directive: string, tools: seq<Tool>)
    requires AllDerivable(tools)
    ensures Decide(directive, tools).sent.Some? <==> Decide(directive, tools).outcome == Prompted
  {
  }

  /** A history entry, always a user entry, is added exactly when the scan finds a tool. */
  lemma EntryOnlyFromTool(directive: string, tools: seq<Tool>)
    requires AllDerivable(tools)
    ensures var d := Decide(directive, tools);
      && (d.entry.Some? <==> ReachesTools(Strip(directive)) && FirstMatch(tools, Strip(directive)).Some?)
      && (d.entry.Some? ==> d.entry.value.role == User)
  {
  }

  /** The guard, then the fixed commands, in the order `act` tries them. */
  lemma DecideFixed(directive: string, tools: seq<Tool>)
    requires AllDerivable(tools)
    ensures var cmd := Strip(directive);
      && (!WellFormed(cmd) ==> Decide(directive, tools) == Ignore(Wait))
      && (WellFormed(cmd) && cmd == WaitTag ==> Decide(directive, tools) == Ignore(Wait))
      && (WellFormed(cmd) && cmd != WaitTag && cmd == ExitTag ==> Decide(directive, tools) == Ignore(Exit))
      && (WellFormed(cmd) && cmd != WaitTag && cmd != ExitTag && IsPrompt(cmd) ==>
            Decide(directive, tools) == Decision(Prompted, Some(PromptText(cmd)), None))
  {
  }

  /** A directive that reaches the scan is decided by the scan alone. */
  lemma DecideScan(directive: string, tools: seq<Tool>)
    requires AllDerivable(tools) && ReachesTools(Strip(directive))
    ensures Decide(directive, tools) == ScanDecision(tools, Strip(directive))
  {
  }

  predicate Balanced(s: string) {
    Count(s, '<') == Count(s, '>')
  }

  lemma BalancedConcat(a: string, b: string)
    requires Balanced(a) && Balanced(b)
    ensures Balanced(a + b)
  {
    CountConcat(a, b, '<');
    CountConcat(a, b, '>');
  }

  /** A tag `<body>` with no bracket in `body` has one of each bracket. */
  lemma SimpleTagBalanced(body: string)
    requires '<' !in body && '>' !in body
    ensures Balanced("<" + body + ">")
  {
    CountZero(body, '<');
    CountZero(body, '>');
    CountConcat("<", body, '<');
    CountConcat("<" + body, ">", '<');
    CountConcat("<", body, '>');
    CountConcat("<" + body, ">", '>');
  }

  /** Text with balanced brackets between two balanced tags passes the guard. */
  lemma WrappedWellFormed(open: string, text: string, close: string)
    requires Balanced(open) && Balanced(text) && Balanced(close)
    requires StartsWith(open, "<") && EndsWith(close, ">")
    ensures WellFormed(open + text + close)
  {
    BalancedConcat(open, text);
    BalancedConcat(open + text, close);
    var t := open + text + close;
    assert t[..1] == open[..1];
    assert t[|t| - 1..] == close[|close| - 1..];
  }

  /** A tag `<body>` with no bracket in `body` passes the guard. */
  lemma SimpleTagWellFormed(body: string)
    requires '<' !in body && '>' !in body
    ensures WellFormed("<" + body + ">")
  {
    SimpleTagBalanced(body);
    var t := "<" + body + ">";
    assert t[..1] == "<";
    assert t[|t| - 1..] == ">";
  }

  lemma WaitTagWellFormed()
    ensures WellFormed(WaitTag)
  {
    SimpleTagWellFormed("wait/");
    assert "<" + "wait/" + ">" == WaitTag;
  }

  lemma ExitTagWellFormed()
    ensures WellFormed(ExitTag)
  {
    SimpleTagWellFormed("exit/");
    assert "<" + "exit/" + ">" == ExitTag;
  }

  /** `exit` comes back for the directive `<exit/>` and for nothing else. */
  lemma ExitOnlyOnExitTag(directive: string, tools: seq<Tool>)
    requires AllDerivable(tools)
    ensures Decide(directive, tools).outcome == Exit <==> Strip(directive) == ExitTag
  {
    ExitTagWellFormed();
    DecideFixed(directive, tools);
    if ReachesTools(Strip(directive)) {
      DecideScan(directive, tools);
    }
  }

  /** `<wait/>` answers `wait` and does nothing else. */
  lemma WaitCommand(before: string, after: string, tools: seq<Tool>)
    requires AllDerivable(tools)
    requires AllSpace(before) && AllSpace(after)
    ensures Decide(before + WaitTag + after, tools) == Ignore(Wait)
  {
    StripPadded(before, WaitTag, after);
    WaitTagWellFormed();
  }

  /** `<exit/>` answers `exit` and does nothing else. */
  lemma ExitCommand(before: string, after: string, tools: seq<Tool>)
    requires AllDerivable(tools)
    requires AllSpace(before) && AllSpace(after)
    ensures Decide(before + ExitTag + after, tools) == Ignore(Exit)
  {
    StripPadded(before, ExitTag, after);
    ExitTagWellFormed();
  }

  /**
   * A directive wrapped in `<prompt>…</prompt>` (white space around it
   * allowed) sends exactly its interior to the terminal, whatever tools are
   * registered, provided the interior keeps the brackets balanced.
   */
  lemma PromptSendsInterior(before: string, text: string, after: string, tools: seq<Tool>)
    requires AllDerivable(tools)
    requires AllSpace(before) && AllSpace(after)
    requires Count(text, '<') == Count(text, '>')
    ensures Decide(before + PromptOpen + text + PromptClose + after, tools) == Decision(Prompted, Some(text), None)
  {
    var cmd := PromptOpen + text + PromptClose;
    var directive := before + PromptOpen + text + PromptClose + after;
    assert directive == before + cmd + after;
    assert cmd[0] == '<' && cmd[|cmd| - 1] == '>';
    StripPadded(before, cmd, after);
    PromptWrappedWellFormed(text);
    PromptWrappedInterior(text);
    DecidePrompt(directive, tools);
  }

  /** A stripped directive that passes the guard and the prompt test goes to the terminal. */
  lemma DecidePrompt(directive: string, tools: seq<Tool>)
    requires AllDerivable(tools)
    requires var cmd := Strip(directive);
      WellFormed(cmd) && cmd != WaitTag && cmd != ExitTag && IsPrompt(cmd)
    ensures Decide(directive, tools) == Decision(Prompted, Some(PromptText(Strip(directive))), None)
  {
  }

  lemma PromptOpenBalanced()
    ensures Balanced(PromptOpen)
  {
    SimpleTagBalanced("prompt");
    assert "<" + "prompt" + ">" == PromptOpen;
  }

  lemma PromptCloseBalanced()
    ensures Balanced(PromptClose)
  {
    SimpleTagBalanced("/prompt");
    assert "<" + "/prompt" + ">" == PromptClose;
  }

  lemma PromptWrappedWellFormed(text: string)
    requires Balanced(text)
    ensures WellFormed(PromptOpen + text + PromptClose)
  {
    PromptOpenBalanced();
    PromptCloseBalanced();
    WrappedWellFormed(PromptOpen, text, PromptClose);
  }

  lemma PromptWrappedInterior(text: string)
    ensures var cmd := PromptOpen + text + PromptClose;
      IsPrompt(cmd) && PromptText(cmd) == text && cmd != WaitTag && cmd != ExitTag
  {
    var cmd := PromptOpen + text + PromptClose;
    assert cmd[..|PromptOpen|] == PromptOpen;
    assert cmd[|cmd| - |PromptClose|..] == PromptClose;
    assert cmd[|PromptOpen|..|cmd| - |PromptClose|] == text;
  }

  /** No directive of the shape `<name>…</name>` but `<prompt>` itself passes the prompt test. */
  lemma OnlyPromptTagIsPrompt(name: string, input: string)
    requires '<' !in name && '>' !in name && name != "prompt"
    ensures !IsPrompt("<" + name + ">" + input + "</" + name + ">")
  {
    var cmd := "<" + name + ">" + input + "</" + name + ">";
    assert |cmd| >= |PromptOpen| ==> cmd[..|PromptOpen|] != PromptOpen by {
      if |cmd| >= |PromptOpen| {
        // the `>` closing the name falls on a letter of `prompt`, or the name differs from `prompt`, or it runs on past `<prompt`
        if |name| < 6 {
          assert cmd[|name| + 1] == '>' != PromptOpen[|name| + 1];
        } else if |name| == 6 {
          var j :| 0 <= j < 6 && name[j] != "prompt"[j];
          assert cmd[j + 1] == name[j] != PromptOpen[j + 1];
        } else {
          assert cmd[7] == name[6] != PromptOpen[7];
        }
      }
    }
  }

  /** A stripped directive that reaches the scan goes to the first tool whose tags match it. */
  lemma DecideTool(directive: string, tools: seq<Tool>, i: nat)
    requires AllDerivable(tools) && i < |tools|
    requires ReachesTools(Strip(directive)) && FirstMatch(tools, Strip(directive)) == Some(i)
    ensures Decide(directive, tools) == ToolDecision(tools[i].callback(ToolInput(tools[i].format, Strip(directive))))
  {
  }

  /** The closing tag `</name>` of a name without brackets has one of each bracket. */
  lemma CloseTagBalanced(name: string)
    requires '<' !in name && '>' !in name
    ensures Balanced("</" + name + ">")
  {
    var body := "/" + name;
    assert '<' !in body && '>' !in body by {
      assert forall k :: 0 < k < |body| ==> body[k] == name[k - 1];
    }
    SimpleTagBalanced(body);
    assert "<" + body + ">" == "</" + name + ">";
  }

  lemma TagDirectiveWellFormed(name: string, input: string)
    requires '<' !in name && '>' !in name && Balanced(input)
    ensures WellFormed(Tagged(name, input))
  {
    var st, et := "<" + name + ">", "</" + name + ">";
    SimpleTagBalanced(name);
    CloseTagBalanced(name);
    assert st[..1] == "<" && et[|et| - 1..] == ">";
    WrappedWellFormed(st, input, et);
    assert Tagged(name, input) == st + input + et;
  }

  lemma TagDirectiveNotFixed(name: string, input: string)
    ensures Tagged(name, input) != WaitTag && Tagged(name, input) != ExitTag
  {
    var cmd := Tagged(name, input);
    if |name| >= 2 {
      assert |cmd| > |WaitTag| == |ExitTag|;
    } else {
      // the `>` after the name falls on a letter of `wait` or `exit`
      assert cmd[|name| + 1] == '>';
      assert WaitTag[|name| + 1] != '>' && ExitTag[|name| + 1] != '>';
    }
  }

  /** A directive `<name>input</name>` with balanced brackets in `input` reaches the scan. */
  lemma TagDirectiveReachesTools(name: string, input: string)
    requires '<' !in name && '>' !in name && name != "prompt"
    requires Balanced(input)
    ensures ReachesTools(Tagged(name, input))
  {
    TagDirectiveWellFormed(name, input);
    TagDirectiveNotFixed(name, input);
    OnlyPromptTagIsPrompt(name, input);
  }

  lemma TagDirectiveStripped(name: string, input: string)
    ensures Strip(Tagged(name, input)) == Tagged(name, input)
  {
    var cmd := Tagged(name, input);
    assert cmd[0] == '<' && cmd[|cmd| - 1] == '>';
    StripPadded([], cmd, []);
    assert [] + cmd + [] == cmd;
  }

  /**
   * A tool registered with a template `<name>…</name>` gets exactly the
   * interior of a directive `<name>input</name>` when no earlier tool
   * matches, and its result or error becomes the one new history entry.
   */
  lemma TemplateToolReceivesInput(tools: seq<Tool>, i: nat, name: string, description: string, input: string)
    requires AllDerivable(tools) && i < |tools|
    requires tools[i].format == Tagged(name, description)
    requires '<' !in name && '>' !in name && name != "prompt"
    requires Balanced(input)
    requires forall j :: 0 <= j < i ==> !Matches(tools[j].format, Tagged(name, input))
    ensures Decide(Tagged(name, input), tools) == ToolDecision(tools[i].callback(input))
  {
    var cmd := Tagged(name, input);
    TemplateToolSelected(tools, i, name, description, input);
    TagDirectiveReachesTools(name, input);
    TagDirectiveStripped(name, input);
    DecideTool(cmd, tools, i);
  }

  lemma TemplateToolSelected(tools: seq<Tool>, i: nat, name: string, description: string, input: string)
    requires AllDerivable(tools) && i < |tools|
    requires tools[i].format == Tagged(name, description)
    requires '<' !in name && '>' !in name
    requires forall j :: 0 <= j < i ==> !Matches(tools[j].format, Tagged(name, input))
    ensures FirstMatch(tools, Tagged(name, input)) == Some(i)
    ensures ToolInput(tools[i].format, Tagged(name, input)) == input
  {
    TemplateMatches(name, description, input);
  }

  /** An illustration of the `<ask_human>question for human</ask_human>` template that `add_tool` describes: the tagged question goes to the callback. */
  lemma AskHumanExample(callback: Callback)
    ensures var tools := [Tool(Tagged("ask_human", "q"), callback)];
      AllDerivable(tools)
      && Decide(Tagged("ask_human", "What now?"), tools) == ToolDecision(callback("What now?"))
  {
    AskHumanName();
    WhatNowBalanced();
    var tools := [Tool(Tagged("ask_human", "q"), callback)];
    TemplateTags("ask_human", "q");
    assert AllDerivable(tools);
    TemplateToolReceivesInput(tools, 0, "ask_human", "q", "What now?");
  }

  /** What the callback answers becomes the one new entry: "blue" is recorded as a tool result, a raise as a tool error. */
  lemma AskHumanAnswerRecorded(callback: Callback)
    ensures var tools := [Tool(Tagged("ask_human", "q"), callback)];
      var d := Decide(Tagged("ask_human", "What now?"), tools);
      && (callback("What now?") == Returned("blue") ==>
            && d.outcome == CustomTool && d.sent.None? && d.entry == Some(Message(User, ResultPrefix + "blue"))
            && EndsWith(d.entry.value.content, "blue"))
      && (callback("What now?").Raised? ==>
            d.outcome == Wait && d.sent.None? && d.entry == Some(Message(User, ErrorPrefix + callback("What now?").reason)))
  {
    AskHumanExample(callback);
    var r := callback("What now?");
    var d := ToolDecision(r);
    if r == Returned("blue") {
      assert d == Decision(CustomTool, None, Some(Message(User, ResultPrefix + "blue")));
      assert (ResultPrefix + "blue")[|ResultPrefix|..] == "blue";
    } else if r.Raised? {
      assert d == Decision(Wait, None, Some(Message(User, ErrorPrefix + r.reason)));
    }
  }

  /** A directive that reaches the scan but matches no tool is ignored: `wait`, nothing typed, no entry. */
  lemma UnmatchedDirectiveWaits(directive: string, tools: seq<Tool>)
    requires AllDerivable(tools)
    requires ReachesTools(Strip(directive)) && FirstMatch(tools, Strip(directive)).None?
    ensures Decide(directive, tools) == Ignore(Wait)
  {
    DecideScan(directive, tools);
  }

  lemma AskHumanName()
    ensures '<' !in "ask_human" && '>' !in "ask_human" && "ask_human" != "prompt"
  {
    assert "ask_human"[0] != "prompt"[0];
  }

  lemma WhatNowBalanced()
    ensures Balanced("What now?")
  {
    assert '<' !in "What now?" && '>' !in "What now?";
    CountZero("What now?", '<');
    CountZero("What now?", '>');
  }
}
