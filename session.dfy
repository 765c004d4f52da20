/**
 * The controller object `Agent` (agentuse.py:188-392) and the terminal it
 * types into. The screen capture, the clock and the model's replies come in
 * as parameters; what the agent does with them is kept in its fields.
 */
module Session {
  import opened Wrappers
  import opened Text
  import opened Screen
  import opened Timing
  import opened Chat
  import opened Tools
  import opened Dispatch
  import opened Prompt

  /** The terminal as far as the agent can tell: the texts `send_text` typed, in order. */
  class Driver {
    var sent: seq<string>

    constructor ()
      ensures sent == []
    {
      sent := [];
    }

    /** `send_text`: type the text, then press Enter. */
    method SendText(text: string)
      modifies this
      ensures sent == old(sent) + [text]
    {
      sent := sent + [text];
    }
  }

  const TerminalPrefix: string := "Terminal: "

  /** What one pass of the `run` loop ended with. */
  datatype Turn = ScreenChanged | TimeUp | Acted(outcome: Outcome)

  /** The loop leaves on `exit` and when the time limit is reached. */
  predicate Stops(t: Turn) {
    t == TimeUp || t == Acted(Exit)
  }

  /** What the environment supplies to one pass: a capture, a clock reading and the model's replies. */
  datatype Observation = Observation(
    screen: string,      // `read_screen()`
    now: real,           // `time.time()`
    summary: string,     // the reply of the summarising model
    reply: Option<string>, // the content of the directing model's reply
    shown: string)       // the remaining minutes as `:.1f` renders them

  /** The state a pass changes: history, the two captures, and what was typed. */
  datatype Loop = Loop(history: seq<Message>, captures: Captures, sent: seq<string>)

  function OptionSeq<T>(o: Option<T>): (r: seq<T>)
    ensures |r| <= 1 && (r == [] <==> o.None?)
    ensures o.Some? ==> r == [o.value]
  {
    match o
    case None => []
    case Some(x) => [x]
  }

  /** `(resp.choices[0].message.content or "").strip()` */
  function Directive(reply: Option<string>): string {
    Strip(if reply.Some? then reply.value else "")
  }

  /** The `Terminal: ` entry a delta gives rise to: none when the delta is blank. */
  function SummaryEntries(delta: string, summary: string): (r: seq<Message>)
    ensures |r| <= 1
    ensures r != [] <==> Strip(delta) != []
    ensures r != [] ==> r[0] == Message(User, TerminalPrefix + Strip(summary))
  {
    if Strip(delta) != [] then [Message(User, TerminalPrefix + Strip(summary))] else []
  }

  /** The state after a pass, and how the pass ended. */
  datatype Pass = Pass(next: Loop, turn: Turn)

  /** One pass of the `while True` loop of `run` (agentuse.py:343-392). */
  function Iteration(l: Loop, tools: seq<Tool>, limit: Option<int>, start: real, o: Observation): Pass
    requires AllDerivable(tools)
  {
    var t := Track(l.captures, CleanOutput(o.screen));
    if t.delta.Some? then
      Pass(Loop(l.history + SummaryEntries(t.delta.value, o.summary), t.captures, l.sent), ScreenChanged)
    else if LimitReached(limit, ElapsedMinutes(start, o.now)) then
      Pass(l, TimeUp)
    else
      var directive := Directive(o.reply);
      var d := Decide(directive, tools);
      Pass(Loop(l.history + [Message(Assistant, directive)] + OptionSeq(d.entry), l.captures, l.sent + OptionSeq(d.sent)),
           Acted(d.outcome))
  }

  /** The three ways a pass can go, each spelled out. */
  lemma IterationOnChange(l: Loop, tools: seq<Tool>, limit: Option<int>, start: real, o: Observation)
    requires AllDerivable(tools)
    requires CleanOutput(o.screen) != l.captures.transcript
    ensures Iteration(l, tools, limit, start, o)
      == Pass(Loop(l.history + SummaryEntries(NewContent(l.captures.previous, CleanOutput(o.screen)), o.summary),
                   Captures(CleanOutput(o.screen), l.captures.transcript), l.sent),
              ScreenChanged)
  {
  }

  lemma IterationOnTimeUp(l: Loop, tools: seq<Tool>, limit: Option<int>, start: real, o: Observation)
    requires AllDerivable(tools)
    requires CleanOutput(o.screen) == l.captures.transcript && LimitReached(limit, ElapsedMinutes(start, o.now))
    ensures Iteration(l, tools, limit, start, o) == Pass(l, TimeUp)
  {
  }

  lemma IterationOnQuery(l: Loop, tools: seq<Tool>, limit: Option<int>, start: real, o: Observation)
    requires AllDerivable(tools)
    requires CleanOutput(o.screen) == l.captures.transcript && !LimitReached(limit, ElapsedMinutes(start, o.now))
    ensures var d := Decide(Directive(o.reply), tools);
      Iteration(l, tools, limit, start, o)
        == Pass(Loop(l.history + [Message(Assistant, Directive(o.reply))] + OptionSeq(d.entry), l.captures, l.sent + OptionSeq(d.sent)),
                Acted(d.outcome))
  {
  }

  /** History only grows: a pass appends zero, one or two entries and changes none. */
  lemma IterationExtendsHistory(l: Loop, tools: seq<Tool>, limit: Option<int>, start: real, o: Observation)
    requires AllDerivable(tools)
    ensures var h := Iteration(l, tools, limit, start, o).next.history;
      |l.history| <= |h| <= |l.history| + 2 && h[..|l.history|] == l.history
  {
    var h := Iteration(l, tools, limit, start, o).next.history;
    assert h[..|l.history|] == l.history;
  }

  /**
   * A changed capture shifts the two generations, types nothing, and adds a
   * `Terminal: ` entry exactly when the delta against the older capture is not blank.
   */
  lemma ScreenChangeShifts(l: Loop, tools: seq<Tool>, limit: Option<int>, start: real, o: Observation)
    requires AllDerivable(tools)
    requires CleanOutput(o.screen) != l.captures.transcript
    ensures var p := Iteration(l, tools, limit, start, o);
      var delta := NewContent(l.captures.previous, CleanOutput(o.screen));
      && p.turn == ScreenChanged
      && p.next.captures == Captures(CleanOutput(o.screen), l.captures.transcript)
      && p.next.sent == l.sent
      && (|p.next.history| == |l.history| + 1 <==> Strip(delta) != [])
      && (Strip(delta) != [] ==> p.next.history[|l.history|] == Message(User, TerminalPrefix + Strip(o.summary)))
      && (Strip(delta) == [] ==> p.next.history == l.history)
  {
    IterationOnChange(l, tools, limit, start, o);
  }

  /** On an unchanged capture past the limit the loop leaves without asking the model anything. */
  lemma TimeUpLeavesQuietly(l: Loop, tools: seq<Tool>, limit: Option<int>, start: real, o: Observation)
    requires AllDerivable(tools)
    requires CleanOutput(o.screen) == l.captures.transcript
    ensures Iteration(l, tools, limit, start, o).turn == TimeUp <==> LimitReached(limit, ElapsedMinutes(start, o.now))
    ensures Iteration(l, tools, limit, start, o).turn == TimeUp ==> Iteration(l, tools, limit, start, o).next == l
  {
  }

  /**
   * Otherwise the directive is stored as an assistant entry before it is
   * acted on, and `act` adds at most one entry and types at most one text after it.
   */
  lemma DirectiveRecordedFirst(l: Loop, tools: seq<Tool>, limit: Option<int>, start: real, o: Observation)
    requires AllDerivable(tools)
    requires CleanOutput(o.screen) == l.captures.transcript
    requires !LimitReached(limit, ElapsedMinutes(start, o.now))
    ensures var p := Iteration(l, tools, limit, start, o);
      var d := Decide(Directive(o.reply), tools);
      && p.turn == Acted(d.outcome)
      && p.next.captures == l.captures
      && |l.history| + 1 <= |p.next.history| <= |l.history| + 2
      && p.next.history[|l.history|] == Message(Assistant, Directive(o.reply))
      && p.next.history[|l.history| + 1..] == OptionSeq(d.entry)
      && p.next.sent == l.sent + OptionSeq(d.sent)
  {
    IterationOnQuery(l, tools, limit, start, o);
    var d := Decide(Directive(o.reply), tools);
    var h := l.history + [Message(Assistant, Directive(o.reply))] + OptionSeq(d.entry);
    assert h[|l.history|] == Message(Assistant, Directive(o.reply));
    assert h[|l.history| + 1..] == OptionSeq(d.entry);
  }

  /** The loop leaves after a pass exactly on a time-up or on the directive `<exit/>`. */
  lemma StopsOnlyOnTimeOrExit(l: Loop, tools: seq<Tool>, limit: Option<int>, start: real, o: Observation)
    requires AllDerivable(tools)
    ensures Stops(Iteration(l, tools, limit, start, o).turn) <==>
        CleanOutput(o.screen) == l.captures.transcript
        && (LimitReached(limit, ElapsedMinutes(start, o.now)) || Directive(o.reply) == ExitTag)
  {
    var p := Iteration(l, tools, limit, start, o);
    if CleanOutput(o.screen) != l.captures.transcript {
      IterationOnChange(l, tools, limit, start, o);
      assert p.turn == ScreenChanged;
    } else if LimitReached(limit, ElapsedMinutes(start, o.now)) {
      IterationOnTimeUp(l, tools, limit, start, o);
      assert p.turn == TimeUp;
    } else {
      var d := Decide(Directive(o.reply), tools);
      IterationOnQuery(l, tools, limit, start, o);
      assert p.turn == Acted(d.outcome);
      ExitOnlyOnExitTag(Directive(o.reply), tools);
      StripIdempotent(if o.reply.Some? then o.reply.value else "");
      assert Stops(p.turn) <==> d.outcome == Exit;
    }
  }

  /** Where a run over a sequence of observations ends: the final state and the number of passes made. */
  datatype Ending = Ending(last: Loop, passes: nat)

  /** Passes over the observations in order until the loop leaves or they run out. */
  function Replay(l: Loop, tools: seq<Tool>, limit: Option<int>, start: real, obs: seq<Observation>): (r: Ending)
    requires AllDerivable(tools)
    ensures r.passes <= |obs|
    decreases |obs|
  {
    if obs == [] then Ending(l, 0)
    else
      var p := Iteration(l, tools, limit, start, obs[0]);
      if Stops(p.turn) then Ending(p.next, 1)
      else
        var e := Replay(p.next, tools, limit, start, obs[1..]);
        Ending(e.last, e.passes + 1)
  }

  /** The last-change time after a run that started with last-change time `t`: the clock reading of its last pass that saw the screen change. */
  function LastChange(l: Loop, tools: seq<Tool>, limit: Option<int>, start: real, obs: seq<Observation>, t: real): real
    requires AllDerivable(tools)
    decreases |obs|
  {
    if obs == [] then t
    else
      var p := Iteration(l, tools, limit, start, obs[0]);
      var t' := if p.turn == ScreenChanged then obs[0].now else t;
      if Stops(p.turn) then t'
      else LastChange(p.next, tools, limit, start, obs[1..], t')
  }

  /** The last-change time after a run is the one it started with, or the clock reading of one of its observations. */
  lemma {:induction false} LastChangeIsObserved(l: Loop, tools: seq<Tool>, limit: Option<int>, start: real, obs: seq<Observation>, t: real)
    requires AllDerivable(tools)
    ensures var r := LastChange(l, tools, limit, start, obs, t);
      r == t || exists i :: 0 <= i < |obs| && r == obs[i].now
    decreases |obs|
  {
    if obs != [] {
      var p := Iteration(l, tools, limit, start, obs[0]);
      var t' := if p.turn == ScreenChanged then obs[0].now else t;
      if !Stops(p.turn) {
        var rest := obs[1..];
        LastChangeIsObserved(p.next, tools, limit, start, rest, t');
        var r := LastChange(p.next, tools, limit, start, rest, t');
        if r != t' {
          var i :| 0 <= i < |rest| && r == rest[i].now;
          assert r == obs[i + 1].now;
        }
      }
    }
  }

  /** Over a whole session, history only grows: in particular the system prompt and the goal stay first. */
  lemma {:induction false} ReplayExtendsHistory(l: Loop, tools: seq<Tool>, limit: Option<int>, start: real, obs: seq<Observation>)
    requires AllDerivable(tools)
    ensures var h := Replay(l, tools, limit, start, obs).last.history;
      |l.history| <= |h| && h[..|l.history|] == l.history
    decreases |obs|
  {
    if obs != [] {
      var p := Iteration(l, tools, limit, start, obs[0]);
      IterationExtendsHistory(l, tools, limit, start, obs[0]);
      if !Stops(p.turn) {
        ReplayExtendsHistory(p.next, tools, limit, start, obs[1..]);
        var h := Replay(p.next, tools, limit, start, obs[1..]).last.history;
        assert h[..|l.history|] == h[..|p.next.history|][..|l.history|];
      }
    }
  }

  /** The turn each pass of a run took, in order. */
  function Turns(l: Loop, tools: seq<Tool>, limit: Option<int>, start: real, obs: seq<Observation>): (r: seq<Turn>)
    requires AllDerivable(tools)
    ensures |r| <= |obs| && (obs != [] <==> r != [])
    decreases |obs|
  {
    if obs == [] then []
    else
      var p := Iteration(l, tools, limit, start, obs[0]);
      if Stops(p.turn) then [p.turn]
      else [p.turn] + Turns(p.next, tools, limit, start, obs[1..])
  }

  /** A run makes one pass per turn. */
  lemma {:induction false} TurnsCountPasses(l: Loop, tools: seq<Tool>, limit: Option<int>, start: real, obs: seq<Observation>)
    requires AllDerivable(tools)
    ensures var ts := Turns(l, tools, limit, start, obs);
      |ts| == Replay(l, tools, limit, start, obs).passes
    decreases |obs|
  {
    if obs != [] {
      var p := Iteration(l, tools, limit, start, obs[0]);
      if !Stops(p.turn) {
        TurnsCountPasses(p.next, tools, limit, start, obs[1..]);
      }
    }
  }

  /** Only the last of the turns, if any, stops the loop. */
  predicate StopsOnlyLast(ts: seq<Turn>) {
    forall i :: 0 <= i < |ts| - 1 ==> !Stops(ts[i])
  }

  /** A turn that does not stop, followed by turns that stop only last. */
  lemma StopsOnlyLastCons(t: Turn, ts: seq<Turn>)
    requires !Stops(t) && StopsOnlyLast(ts)
    ensures StopsOnlyLast([t] + ts)
    ensures ts != [] ==> ([t] + ts)[|ts|] == ts[|ts| - 1]
  {
    forall i | 0 <= i < |ts|
      ensures !Stops(([t] + ts)[i])
    {
      if i > 0 {
        assert ([t] + ts)[i] == ts[i - 1];
      }
    }
  }

  /** No pass before the last one stopped the loop. */
  lemma {:induction false} TurnsStopOnlyLast(l: Loop, tools: seq<Tool>, limit: Option<int>, start: real, obs: seq<Observation>)
    requires AllDerivable(tools)
    ensures StopsOnlyLast(Turns(l, tools, limit, start, obs))
    decreases |obs|
  {
    if obs != [] {
      var p := Iteration(l, tools, limit, start, obs[0]);
      if !Stops(p.turn) {
        var ts := Turns(p.next, tools, limit, start, obs[1..]);
        TurnsStopOnlyLast(p.next, tools, limit, start, obs[1..]);
        StopsOnlyLastCons(p.turn, ts);
      }
    }
  }

  /** Turns that fall short of `n` passes end on one that stops the loop. */
  predicate EndsOnStop(ts: seq<Turn>, n: nat) {
    0 < |ts| < n ==> Stops(ts[|ts| - 1])
  }

  /** A turn that does not stop, before at least one turn that ends on a stop, still ends on it. */
  lemma EndsOnStopCons(t: Turn, ts: seq<Turn>, n: nat)
    requires ts != [] && EndsOnStop(ts, n)
    ensures EndsOnStop([t] + ts, n + 1)
  {
    assert ([t] + ts)[|ts|] == ts[|ts| - 1];
  }

  /** A run with fewer turns than observations ended on a turn that stopped the loop. */
  lemma {:induction false} TurnsEndOnStop(l: Loop, tools: seq<Tool>, limit: Option<int>, start: real, obs: seq<Observation>)
    requires AllDerivable(tools)
    ensures EndsOnStop(Turns(l, tools, limit, start, obs), |obs|)
    decreases |obs|
  {
    if obs != [] {
      var p := Iteration(l, tools, limit, start, obs[0]);
      if !Stops(p.turn) {
        var rest := obs[1..];
        var ts := Turns(p.next, tools, limit, start, rest);
        TurnsEndOnStop(p.next, tools, limit, start, rest);
        if ts != [] {
          EndsOnStopCons(p.turn, ts, |rest|);
        }
      }
    }
  }

  /** Turns that end on a stop, counted by `passes`, stop at position `passes - 1` when they fall short of `n`. */
  lemma EndsOnStopAtPasses(ts: seq<Turn>, passes: nat, n: nat)
    requires |ts| == passes && (n != 0 <==> ts != []) && EndsOnStop(ts, n)
    ensures n != 0 <==> 1 <= passes
    ensures passes < n ==> 1 <= passes && Stops(ts[passes - 1])
  {
  }

  /**
   * A run leaves the loop only on its last pass: no earlier pass stopped it, and a
   * run that ends before the observations run out ended on a pass that stopped it.
   */
  lemma ReplayStopsOnlyLast(l: Loop, tools: seq<Tool>, limit: Option<int>, start: real, obs: seq<Observation>)
    requires AllDerivable(tools)
    ensures var e := Replay(l, tools, limit, start, obs);
      var ts := Turns(l, tools, limit, start, obs);
      && |ts| == e.passes
      && (obs != [] <==> 1 <= e.passes)
      && StopsOnlyLast(ts)
      && (e.passes < |obs| ==> 1 <= e.passes && Stops(ts[e.passes - 1]))
  {
    var ts := Turns(l, tools, limit, start, obs);
    TurnsCountPasses(l, tools, limit, start, obs);
    TurnsStopOnlyLast(l, tools, limit, start, obs);
    TurnsEndOnStop(l, tools, limit, start, obs);
    EndsOnStopAtPasses(ts, Replay(l, tools, limit, start, obs).passes, |obs|);
  }

  class Agent {
    const goal: string
    const driver: Driver
    const cfg: Config
    const systemPrompt: string
    const startTime: real
    const timeLimit: Option<int>
    var history: seq<Message>
    var transcript: string
    var previousTranscript: string
    var lastScreenChange: real

    /** The system prompt and the goal open the history. */
    ghost predicate Valid()
      reads this
    {
      |history| >= 2
      && history[0] == Message(System, systemPrompt)
      && history[1] == Message(User, goal)
    }

    /** The state a pass of the loop changes. */
    ghost function Snapshot(): Loop
      reads this`history, this`transcript, this`previousTranscript, driver`sent
    {
      Loop(history, Captures(transcript, previousTranscript), driver.sent)
    }

    /** `Agent(goal, driver, time_limit_minutes)`, started at clock reading `now`. */
    constructor (goal: string, driver: Driver, cfg: Config, timeLimit: Option<int>, now: real)
      ensures Valid()
      ensures this.goal == goal && this.driver == driver && this.cfg == cfg && this.timeLimit == timeLimit
      ensures systemPrompt == SystemPrompt(goal, Formats(cfg.tools), cfg.instructions)
      ensures history == [Message(System, systemPrompt), Message(User, goal)]
      ensures transcript == [] && previousTranscript == []
      ensures startTime == now && lastScreenChange == now
    {
      this.goal := goal;
      this.driver := driver;
      this.cfg := cfg;
      this.timeLimit := timeLimit;
      var prompt := SystemPrompt(goal, Formats(cfg.tools), cfg.instructions);
      systemPrompt := prompt;
      history := [Message(System, prompt), Message(User, goal)];
      transcript := [];
      previousTranscript := [];
      startTime := now;
      lastScreenChange := now;
    }

    /** `get_new_terminal_content` */
    method NewTerminalContent(current: string) returns (r: string)
      ensures r == NewContent(previousTranscript, current)
    {
      r := NewContent(previousTranscript, current);
    }

    /** `get_time_status`, with the clock reading `now` and the rendering `shown` of the remaining minutes. */
    method TimeStatusText(now: real, shown: string) returns (r: string)
      ensures r == StatusText(TimeStatus(timeLimit, ElapsedMinutes(startTime, now)), shown)
      ensures r == [] <==> !HasLimit(timeLimit)
    {
      TimeStatusTiers(timeLimit, ElapsedMinutes(startTime, now));
      r := StatusText(TimeStatus(timeLimit, ElapsedMinutes(startTime, now)), shown);
    }

    /**
     * The first half of `ask_llm`: the messages sent to the model, a copy of
     * the history plus at most one status message. The history itself is not touched.
     */
    method OutgoingMessages(now: real, shown: string) returns (messages: seq<Message>)
      ensures messages == Outgoing(history, StatusText(TimeStatus(timeLimit, ElapsedMinutes(startTime, now)), shown))
    {
      var status := TimeStatusText(now, shown);
      messages := history;
      if status != [] {
        messages := messages + [Message(User, StatusPrefix + status)];
      }
    }

    /**
     * `ask_llm`: the request `messages` goes out, and the content of the reply
     * to it comes back stripped. The history is not touched.
     */
    method AskLlm(now: real, shown: string, reply: Option<string>) returns (directive: string, messages: seq<Message>)
      ensures messages == Outgoing(history, StatusText(TimeStatus(timeLimit, ElapsedMinutes(startTime, now)), shown))
      ensures directive == Directive(reply)
    {
      messages := OutgoingMessages(now, shown);
      directive := Strip(if reply.Some? then reply.value else "");
    }

    /** `act`: the guard and the fixed commands. */
    method Act(directive: string) returns (outcome: Outcome)
      requires AllDerivable(cfg.tools)
      modifies this`history, driver
      ensures outcome == Decide(directive, cfg.tools).outcome
      ensures history == old(history) + OptionSeq(Decide(directive, cfg.tools).entry)
      ensures driver.sent == old(driver.sent) + OptionSeq(Decide(directive, cfg.tools).sent)
    {
      var cmd := Strip(directive);
      DecideFixed(directive, cfg.tools);
      assert history + [] == history && driver.sent + [] == driver.sent;
      if !WellFormed(cmd) {
        return Wait;
      }
      if cmd == WaitTag {
        return Wait;
      }
      if cmd == ExitTag {
        return Exit;
      }
      outcome := PromptOrTool(directive, cmd);
    }

    /** The rest of `act`, once the guard and the fixed commands are passed: the prompt, then the tools. */
    method PromptOrTool(directive: string, cmd: string) returns (outcome: Outcome)
      requires AllDerivable(cfg.tools)
      requires cmd == Strip(directive) && WellFormed(cmd) && cmd != WaitTag && cmd != ExitTag
      modifies this`history, driver
      ensures outcome == Decide(directive, cfg.tools).outcome
      ensures history == old(history) + OptionSeq(Decide(directive, cfg.tools).entry)
      ensures driver.sent == old(driver.sent) + OptionSeq(Decide(directive, cfg.tools).sent)
    {
      DecideFixed(directive, cfg.tools);
      if IsPrompt(cmd) {
        assert history + [] == history;
        driver.SendText(PromptText(cmd));
        return Prompted;
      }
      DecideScan(directive, cfg.tools);
      assert driver.sent + [] == driver.sent;
      outcome := ScanTools(cmd);
    }

    /** The loop over `cfg.custom_tools.items()` at the end of `act`. */
    method ScanTools(cmd: string) returns (outcome: Outcome)
      requires AllDerivable(cfg.tools)
      modifies this`history
      ensures outcome == ScanDecision(cfg.tools, cmd).outcome
      ensures history == old(history) + OptionSeq(ScanDecision(cfg.tools, cmd).entry)
    {
      var tools := cfg.tools;
      var i := 0;
      while i < |tools|
        invariant i <= |tools|
        invariant FirstMatchFrom(tools, cmd, i) == FirstMatch(tools, cmd)
      {
        var format := tools[i].format;
        assert Derivable(format);
        if '>' in format && Contains(format, "</") {
          var startTag, endTag := StartTag(format), EndTag(format);
          if StartsWith(cmd, startTag) && EndsWith(cmd, endTag) {
            assert Matches(format, cmd);
            assert FirstMatch(tools, cmd) == Some(i);
            var content := SliceInner(cmd, |startTag|, |endTag|);
            assert ScanDecision(tools, cmd) == ToolDecision(tools[i].callback(content));
            outcome := CallTool(tools[i].callback, content);
            return;
          }
        }
        assert FirstMatchFrom(tools, cmd, i) == FirstMatchFrom(tools, cmd, i + 1);
        i := i + 1;
      }
      assert FirstMatch(tools, cmd) == None;
      assert history + [] == history;
      return Wait;
    }

    /** Calls a matched tool and records its result or its error for the model. */
    method CallTool(callback: Callback, content: string) returns (outcome: Outcome)
      modifies this`history
      ensures outcome == ToolDecision(callback(content)).outcome
      ensures history == old(history) + [ToolDecision(callback(content)).entry.value]
    {
      var result := callback(content);
      match result
      case Returned(text) =>
        history := history + [Message(User, ResultPrefix + text)];
        return CustomTool;
      case Raised(error) =>
        history := history + [Message(User, ErrorPrefix + error)];
        return Wait;
    }

    /** One pass of the loop of `run` over the observation `o`. */
    method Step(o: Observation) returns (turn: Turn)
      requires Valid() && AllDerivable(cfg.tools)
      modifies this`history, this`transcript, this`previousTranscript, this`lastScreenChange, driver
      ensures Valid()
      ensures Pass(Snapshot(), turn) == Iteration(old(Snapshot()), cfg.tools, timeLimit, startTime, o)
      ensures lastScreenChange == if turn == ScreenChanged then o.now else old(lastScreenChange)
    {
      var cleanScreen := CleanOutput(o.screen);
      if cleanScreen != transcript {
        ghost var l := Snapshot();
        TakeCapture(cleanScreen, o.summary);
        lastScreenChange := o.now;
        IterationOnChange(l, cfg.tools, timeLimit, startTime, o);
        return ScreenChanged;
      }
      turn := ConsultModel(o);
    }

    /**
     * A changed capture: the delta against the older capture is taken, the
     * generations shift, and a `Terminal: ` entry is added when the delta is not blank.
     */
    method TakeCapture(cleanScreen: string, summary: string)
      requires Valid()
      modifies this`history, this`transcript, this`previousTranscript
      ensures Valid()
      ensures transcript == cleanScreen && previousTranscript == old(transcript)
      ensures history == old(history) + SummaryEntries(NewContent(old(previousTranscript), cleanScreen), summary)
    {
      var newContent := NewTerminalContent(cleanScreen);
      previousTranscript := transcript;
      transcript := cleanScreen;
      assert history + [] == history;
      if Strip(newContent) != [] {
        history := history + [Message(User, TerminalPrefix + Strip(summary))];
      }
    }

    /** The rest of a pass when the capture is unchanged: the time limit, then the model, then `act`. */
    method ConsultModel(o: Observation) returns (turn: Turn)
      requires Valid() && AllDerivable(cfg.tools)
      requires CleanOutput(o.screen) == transcript
      modifies this`history, driver
      ensures Valid() && turn != ScreenChanged
      ensures Pass(Snapshot(), turn) == Iteration(old(Snapshot()), cfg.tools, timeLimit, startTime, o)
    {
      if HasLimit(timeLimit) {
        var elapsed := ElapsedMinutes(startTime, o.now);
        if elapsed >= timeLimit.value as real {
          IterationOnTimeUp(Snapshot(), cfg.tools, timeLimit, startTime, o);
          return TimeUp;
        }
      }
      turn := Query(o);
    }

    /** The model is asked for a directive, the directive is recorded, then `act` carries it out. */
    method Query(o: Observation) returns (turn: Turn)
      requires Valid() && AllDerivable(cfg.tools)
      requires CleanOutput(o.screen) == transcript && !LimitReached(timeLimit, ElapsedMinutes(startTime, o.now))
      modifies this`history, driver
      ensures Valid() && turn != ScreenChanged
      ensures Pass(Snapshot(), turn) == Iteration(old(Snapshot()), cfg.tools, timeLimit, startTime, o)
    {
      ghost var l := Snapshot();
      var directive, _ := AskLlm(o.now, o.shown, o.reply);
      var outcome := RecordAndAct(directive);
      IterationOnQuery(l, cfg.tools, timeLimit, startTime, o);
      return Acted(outcome);
    }

    /** The directive is stored as an assistant entry, then acted on. */
    method RecordAndAct(directive: string) returns (outcome: Outcome)
      requires Valid() && AllDerivable(cfg.tools)
      modifies this`history, driver
      ensures Valid()
      ensures outcome == Decide(directive, cfg.tools).outcome
      ensures history == old(history) + [Message(Assistant, directive)] + OptionSeq(Decide(directive, cfg.tools).entry)
      ensures driver.sent == old(driver.sent) + OptionSeq(Decide(directive, cfg.tools).sent)
    {
      history := history + [Message(Assistant, directive)];
      outcome := Act(directive);
    }

    /**
     * `run` over a finite sequence of observations: passes are made until
     * one of them stops the loop or the observations run out; `passes` is
     * the number made.
     */
    method Run(obs: seq<Observation>) returns (passes: nat)
      requires Valid() && AllDerivable(cfg.tools)
      modifies this`history, this`transcript, this`previousTranscript, this`lastScreenChange, driver
      ensures Valid()
      ensures Ending(Snapshot(), passes) == Replay(old(Snapshot()), cfg.tools, timeLimit, startTime, obs)
      ensures lastScreenChange == LastChange(old(Snapshot()), cfg.tools, timeLimit, startTime, obs, old(lastScreenChange))
    {
      ghost var whole := Replay(Snapshot(), cfg.tools, timeLimit, startTime, obs);
      ghost var final := LastChange(Snapshot(), cfg.tools, timeLimit, startTime, obs, lastScreenChange);
      passes := 0;
      while passes < |obs|
        invariant passes <= |obs| && Valid()
        invariant whole.last == Replay(Snapshot(), cfg.tools, timeLimit, startTime, obs[passes..]).last
        invariant whole.passes == Replay(Snapshot(), cfg.tools, timeLimit, startTime, obs[passes..]).passes + passes
        invariant final == LastChange(Snapshot(), cfg.tools, timeLimit, startTime, obs[passes..], lastScreenChange)
      {
        assert obs[passes..][0] == obs[passes] && obs[passes..][1..] == obs[passes + 1..];
        var turn := Step(obs[passes]);
        passes := passes + 1;
        if Stops(turn) {
          return;
        }
      }
    }
  }
}
