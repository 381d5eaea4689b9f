/**
 One turn of the agent loop, and the turns of a loop's life (internal/agent/loop.go).
 A script supplies what the model answers, what the tools return and when an interrupt
 is requested; the loop may be asked to stop between any two of its actions.
 */
module AgentLoop {
  import opened AgentHistory
  import AgentRepair

  const MAX_TOOL_CALL_DEPTH: nat := 50

  datatype Reply = ReplyError | Reply(content: string, calls: seq<Call>)
  datatype ToolOut = ToolOut(text: string, interruptTurn: bool)

  /** The n-th reply, the n-th tool output, and whether an interrupt arrives at moment n. */
  datatype Script = Script(reply: nat -> Reply, output: nat -> ToolOut, interrupt: nat -> bool)

  datatype Event = RequestStarted | ToolStarted | InterruptArrived

  datatype Outcome = Completed | Interrupted | RequestFailed | DepthReached

  /** Either the turn is over or the model asked for more tool calls. */
  datatype Step = Over(outcome: Outcome) | More(content: string, calls: seq<Call>)

  predicate Plain(h: seq<Message>) {
    forall i :: 0 <= i < |h| ==> !h[i].ToolResult? && Calls(h[i]) == []
  }

  predicate ArrivedBetween(script: Script, from: nat, to: nat) {
    exists n :: from <= n < to && script.interrupt(n)
  }

  predicate Starts(e: Event) { e.RequestStarted? || e.ToolStarted? }

  /** How many requests and tool calls started after an interrupt had arrived. */
  function LateStarts(trace: seq<Event>): nat {
    if trace == [] then 0
    else
      var n := |trace| - 1;
      LateStarts(trace[..n]) + if Starts(trace[n]) && InterruptArrived in trace[..n] then 1 else 0
  }

  function RequestCount(trace: seq<Event>): nat {
    if trace == [] then 0
    else RequestCount(trace[..|trace| - 1]) + if trace[|trace| - 1].RequestStarted? then 1 else 0
  }

  lemma TraceSnoc(trace: seq<Event>, e: Event)
    ensures LateStarts(trace + [e]) == LateStarts(trace) + if Starts(e) && InterruptArrived in trace then 1 else 0
    ensures RequestCount(trace + [e]) == RequestCount(trace) + if e.RequestStarted? then 1 else 0
    ensures InterruptArrived in trace + [e] <==> InterruptArrived in trace || e.InterruptArrived?
  {
    assert (trace + [e])[..|trace|] == trace;
  }

  /** What a turn appends to the history: answered throughout, but for the last message if the depth limit ended it. */
  ghost predicate Tidy(outcome: Outcome, delta: seq<Message>) {
    if outcome.DepthReached? then
      delta != [] && Calls(delta[|delta| - 1]) != [] && WellFormed(delta[..|delta| - 1])
    else WellFormed(delta)
  }

  /** A request made of what was there before the turn and an answered part of the turn. */
  ghost predicate SentWithin(request: seq<Message>, before: seq<Message>) {
    before <= request && WellFormed(request[|before|..])
  }

  ghost predicate AllWithin(requests: seq<seq<Message>>, before: seq<Message>) {
    forall k :: 0 <= k < |requests| ==> SentWithin(requests[k], before)
  }

  function AllCancelled(calls: seq<Call>): seq<Message> {
    seq(|calls|, k requires 0 <= k < |calls| => ToolResult(calls[k].id, Cancelled))
  }

  function ResultOf(script: Script, n: nat, call: Call): Message { ToolResult(call.id, Output(script.output(n).text)) }

  /** The results of calls run one after the other, from the n-th tool output on. */
  function Executed(script: Script, from: nat, calls: seq<Call>): seq<Message> {
    seq(|calls|, k requires 0 <= k < |calls| => ResultOf(script, from + k, calls[k]))
  }

  /** A model that never stops calling tools, with nobody stopping it. */
  ghost predicate NeverDone(script: Script) {
    && (forall n {:trigger script.reply(n)} :: script.reply(n).Reply? && script.reply(n).calls != [])
    && (forall n {:trigger script.output(n)} :: !script.output(n).interruptTurn)
    && (forall n {:trigger script.interrupt(n)} :: !script.interrupt(n))
  }

  class Loop {
    const script: Script
    const systemPrompt: string
    var history: seq<Message>
    var messageQueue: seq<Message>
    var activeTurn: bool
    var interruptRequested: bool
    var working: bool
    // how far the script has been used
    var moment: nat
    var replies: nat
    var outputs: nat
    // what was sent to the model, when the current turn began and what happened in it
    ghost var sent: seq<seq<Message>>
    ghost var began: nat
    ghost var trace: seq<Event>

    constructor (script: Script, systemPrompt: string, history: seq<Message>)
      ensures this.script == script && this.systemPrompt == systemPrompt && this.history == history
      ensures messageQueue == [] && !activeTurn && !interruptRequested && !working && sent == []
    {
      this.script, this.systemPrompt, this.history := script, systemPrompt, history;
      messageQueue, activeTurn, interruptRequested, working := [], false, false, false;
      moment, replies, outputs := 0, 0, 0;
      sent, began, trace := [], 0, [];
    }

    function Prompt(): seq<Message> {
      if systemPrompt == "" then [] else [System(systemPrompt)]
    }

    /** The flag is up exactly if an interrupt arrived since the turn began. */
    ghost predicate Tracked()
      reads this
    {
      && began <= moment
      && (interruptRequested <==> InterruptArrived in trace)
      && (interruptRequested <==> ArrivedBetween(script, began, moment))
    }

    /** Nothing has started too late, and the flag was clear when last seen. */
    ghost predicate Clear()
      reads this
    {
      Tracked() && !interruptRequested && LateStarts(trace) == 0
    }

    /** At most one start was too late, and only if the flag is up now. */
    ghost predicate Bounded()
      reads this
    {
      Tracked() && LateStarts(trace) <= 1 && (!interruptRequested ==> LateStarts(trace) == 0)
    }

    method QueueUserMessage(message: Message)
      modifies this`messageQueue
      ensures messageQueue == old(messageQueue) + [message]
    {
      messageQueue := messageQueue + [message];
    }

    method AppendExternalHistory(message: Message)
      modifies this`history
      ensures history == old(history) + [message]
    {
      history := history + [message];
    }

    method RequestInterrupt()
      modifies this`interruptRequested, this`trace
      ensures interruptRequested && trace == old(trace) + [InterruptArrived]
    {
      interruptRequested := true;
      trace := trace + [InterruptArrived];
    }

    /** Time passes; someone may call RequestInterrupt meanwhile. */
    method Elapse()
      requires Bounded()
      modifies this`moment, this`interruptRequested, this`trace
      ensures Bounded() && RequestCount(trace) == RequestCount(old(trace))
      ensures old(interruptRequested) ==> interruptRequested
      ensures LateStarts(trace) == LateStarts(old(trace))
    {
      if script.interrupt(moment) {
        TraceSnoc(trace, InterruptArrived);
        RequestInterrupt();
      }
      moment := moment + 1;
      assert ArrivedBetween(script, began, moment) <==> ArrivedBetween(script, began, moment - 1) || script.interrupt(moment - 1);
    }

    method HasInterruptRequested() returns (b: bool)
      requires Bounded()
      modifies this`moment, this`interruptRequested, this`trace
      ensures Bounded() && RequestCount(trace) == RequestCount(old(trace))
      ensures b == interruptRequested && (!b ==> Clear())
    {
      Elapse();
      b := interruptRequested;
    }

    /** Starts a request or a tool call; an interrupt may slip in just before. */
    method Begin(e: Event)
      requires Clear() && Starts(e)
      modifies this`moment, this`interruptRequested, this`trace
      ensures Bounded()
      ensures RequestCount(trace) == RequestCount(old(trace)) + if e.RequestStarted? then 1 else 0
    {
      Elapse();
      TraceSnoc(trace, e);
      trace := trace + [e];
    }

    method AppendToHistory(m: Message)
      modifies this`history
      ensures history == old(history) + [m]
    {
      history := history + [m];
    }

    /** Sends the history to the model and records its answer. */
    method SendRequest() returns (r: Reply)
      requires Clear()
      modifies this`moment, this`interruptRequested, this`trace, this`history, this`working, this`replies, this`sent
      ensures Bounded() && RequestCount(trace) == RequestCount(old(trace)) + 1
      ensures sent == old(sent) + [Prompt() + old(history)]
      ensures r == script.reply(old(replies))
      ensures r.ReplyError? ==> history == old(history) && !working
      ensures r.Reply? ==> history == old(history) + [Assistant(r.content, r.calls)]
    {
      var request := Prompt() + history;
      working := true;
      Begin(RequestStarted);
      sent := sent + [request];
      r := script.reply(replies);
      replies := replies + 1;
      if r.ReplyError? {
        working := false;
      } else {
        AppendToHistory(Assistant(r.content, r.calls));
      }
    }

    method RecordCancelledToolResults(calls: seq<Call>)
      modifies this`history
      ensures history == old(history) + AllCancelled(calls)
    {
      for i := 0 to |calls|
        invariant history == old(history) + AllCancelled(calls[..i])
      {
        AppendToHistory(ToolResult(calls[i].id, Cancelled));
        assert AllCancelled(calls[..i + 1]) == AllCancelled(calls[..i]) + [ToolResult(calls[i].id, Cancelled)];
      }
      assert calls[..|calls|] == calls;
    }

    /** Runs one call and records its result. */
    method ExecuteTool(call: Call) returns (out: ToolOut)
      requires Clear()
      modifies this`moment, this`interruptRequested, this`trace, this`history, this`outputs
      ensures Bounded() && RequestCount(trace) == RequestCount(old(trace))
      ensures out == script.output(old(outputs)) && outputs == old(outputs) + 1
      ensures history == old(history) + [ToolResult(call.id, Output(out.text))]
    {
      Begin(ToolStarted);
      out := script.output(outputs);
      outputs := outputs + 1;
      AppendToHistory(ToolResult(call.id, Output(out.text)));
    }

    /** Runs the calls in order until one pauses the turn or an interrupt is seen. */
    method ExecuteToolCalls(calls: seq<Call>) returns (executed: nat, paused: bool)
      requires calls != [] && Clear()
      modifies this`moment, this`interruptRequested, this`trace, this`history, this`working, this`outputs
      ensures Bounded() && RequestCount(trace) == RequestCount(old(trace))
      ensures 0 < executed <= |calls| && history == old(history) + Executed(script, old(outputs), calls[..executed])
      ensures !paused && executed < |calls| ==> interruptRequested
      ensures outputs == old(outputs) + executed
      ensures paused <==> script.output(outputs - 1).interruptTurn
    {
      working := true;
      for i := 0 to |calls|
        invariant Clear() && RequestCount(trace) == RequestCount(old(trace))
        invariant history == old(history) + Executed(script, old(outputs), calls[..i])
        invariant outputs == old(outputs) + i && (i > 0 ==> !script.output(outputs - 1).interruptTurn)
      {
        ExecutedSnoc(script, old(outputs), calls, i);
        Assoc(old(history), Executed(script, old(outputs), calls[..i]), [ResultOf(script, outputs, calls[i])]);
        var out := ExecuteTool(calls[i]);
        if out.interruptTurn { return i + 1, true; }
        var stop := HasInterruptRequested();
        if stop { return i + 1, false; }
      }
      return |calls|, false;
    }

    /** One round of tool calls: every call gets its result, run or cancelled, and those run come first. */
    method RunBatch(calls: seq<Call>) returns (over: bool, outcome: Outcome, ghost results: seq<Message>)
      requires calls != [] && Clear()
      modifies this`moment, this`interruptRequested, this`trace, this`history, this`working, this`outputs
      ensures Bounded() && RequestCount(trace) == RequestCount(old(trace))
      ensures history == old(history) + results && Answers(calls, results)
      ensures exists n :: 0 < n <= |calls| && results == Executed(script, old(outputs), calls[..n]) + AllCancelled(calls[n..])
      ensures !over ==> Clear() && results == Executed(script, old(outputs), calls)
      ensures NeverDone(script) ==> !over
      ensures over ==> !working && (outcome.Completed? || (outcome.Interrupted? && interruptRequested))
    {
      var executed, paused := ExecuteToolCalls(calls);
      ghost var done, cancelled := Executed(script, old(outputs), calls[..executed]), AllCancelled(calls[executed..]);
      RecordCancelledToolResults(calls[executed..]);
      results := done + cancelled;
      BatchAnswers(script, old(outputs), calls, executed);
      Assoc(old(history), done, cancelled);
      over, outcome := true, if paused then Completed else Interrupted;
      if !paused && executed == |calls| {
        over := HasInterruptRequested();
        assert calls[..executed] == calls && cancelled == [] && done + [] == done;
      }
      if over { working := false; }
    }

    /** Asks the model what to do next; an answer that comes after an interrupt is closed at once. */
    method Ask() returns (step: Step, ghost added: seq<Message>)
      requires Clear()
      modifies this`moment, this`interruptRequested, this`trace, this`history, this`working, this`replies, this`sent
      ensures Bounded() && RequestCount(trace) == RequestCount(old(trace)) + 1
      ensures sent == old(sent) + [Prompt() + old(history)] && history == old(history) + added
      ensures NeverDone(script) ==> step.More?
      ensures step.More? ==> Clear() && step.calls != [] && added == [Assistant(step.content, step.calls)]
      ensures step.Over? ==> !working && WellFormed(added) && !step.outcome.DepthReached?
      ensures step.Over? && step.outcome.Interrupted? ==> interruptRequested
    {
      var resp := SendRequest();
      if resp.ReplyError? {
        added := [];
        return Over(RequestFailed), [];
      }
      var stop := HasInterruptRequested();
      added := [Assistant(resp.content, resp.calls)];
      if !stop && resp.calls != [] { return More(resp.content, resp.calls), added; }
      ghost var cancelled := AllCancelled(resp.calls);
      RecordCancelledToolResults(resp.calls);
      BlockWellFormed(Assistant(resp.content, resp.calls), cancelled);
      Assoc(old(history), added, cancelled);
      added := added + cancelled;
      working := false;
      return Over(if stop then Interrupted else Completed), added;
    }

    /** One round: the batch, then the next question. Tells what the turn has appended so far. */
    method Round(content: string, calls: seq<Call>, ghost before: seq<Message>, ghost answered: seq<Message>)
      returns (step: Step, ghost delta: seq<Message>)
      requires calls != [] && WellFormed(answered) && history == before + (answered + [Assistant(content, calls)]) && Clear()
      modifies this`moment, this`interruptRequested, this`trace, this`history, this`working, this`replies, this`outputs, this`sent
      ensures Bounded() && WellFormed(delta)
      ensures RequestCount(trace) - RequestCount(old(trace)) == |sent| - |old(sent)|
      ensures sent == old(sent) || (exists r :: sent == old(sent) + [r] && SentWithin(r, Prompt() + before))
      ensures NeverDone(script) ==> step.More?
      ensures step.More? ==> Clear() && step.calls != [] && |sent| == |old(sent)| + 1
      ensures step.More? ==> history == before + (delta + [Assistant(step.content, step.calls)])
      ensures step.Over? ==> !working && history == before + delta && !step.outcome.DepthReached?
      ensures step.Over? && step.outcome.Interrupted? ==> interruptRequested
    {
      var over, outcome;
      ghost var results, added;
      over, outcome, results := RunBatch(calls);
      delta := answered + ([Assistant(content, calls)] + results);
      BatchAnswered(before, answered, Assistant(content, calls), results);
      if over { return Over(outcome), delta; }
      step, added := Ask();
      RequestWithin(Prompt(), before, delta);
      Assoc(before, delta, added);
      if step.Over? {
        WellFormedConcat(delta, added);
        delta := delta + added;
      }
    }

    /** Works through tool calls until the model is done, for at most MAX_TOOL_CALL_DEPTH rounds. */
    method HandleToolCalls(content: string, first: seq<Call>, ghost before: seq<Message>)
      returns (outcome: Outcome, ghost delta: seq<Message>, ghost requests: seq<seq<Message>>)
      requires first != [] && history == before + [Assistant(content, first)] && Clear()
      modifies this`moment, this`interruptRequested, this`trace, this`history, this`working, this`replies, this`outputs, this`sent
      ensures history == before + delta && Tidy(outcome, delta) && !working && Bounded()
      ensures sent == old(sent) + requests && AllWithin(requests, Prompt() + before)
      ensures |requests| == RequestCount(trace) - RequestCount(old(trace)) <= MAX_TOOL_CALL_DEPTH
      ensures NeverDone(script) ==> outcome.DepthReached? && |requests| == MAX_TOOL_CALL_DEPTH
      ensures outcome.Interrupted? ==> interruptRequested
    {
      var step := More(content, first);
      delta, requests := [], [];
      for depth := 0 to MAX_TOOL_CALL_DEPTH
        invariant step.More? && step.calls != [] && WellFormed(delta)
        invariant history == before + (delta + [Assistant(step.content, step.calls)])
        invariant Clear() && RequestCount(trace) == RequestCount(old(trace)) + depth
        invariant |requests| == depth && sent == old(sent) + requests && AllWithin(requests, Prompt() + before)
      {
        step, delta := Round(step.content, step.calls, before, delta);
        requests := SentSnoc(old(sent), requests, sent, Prompt() + before);
        if step.Over? { return step.outcome, delta, requests; }
      }
      working := false;
      delta := delta + [Assistant(step.content, step.calls)];
      assert delta[..|delta| - 1] + [delta[|delta| - 1]] == delta;
      return DepthReached, delta, requests;
    }

    method ProcessLLMRequest() returns (outcome: Outcome, ghost delta: seq<Message>, ghost requests: seq<seq<Message>>)
      requires Clear()
      modifies this`moment, this`interruptRequested, this`trace, this`history, this`working, this`replies, this`outputs, this`sent
      ensures history == old(history) + delta && Tidy(outcome, delta) && !working && Bounded()
      ensures sent == old(sent) + requests && AllWithin(requests, Prompt() + old(history))
      ensures 1 <= |requests| == RequestCount(trace) - RequestCount(old(trace)) <= MAX_TOOL_CALL_DEPTH + 1
      ensures NeverDone(script) ==> outcome.DepthReached? && |requests| == MAX_TOOL_CALL_DEPTH + 1
      ensures outcome.Interrupted? ==> interruptRequested
    {
      ghost var before, base := history, Prompt() + history;
      var step;
      step, delta := Ask();
      requests := [base];
      assert base[|base|..] == [];
      if step.Over? { return step.outcome, delta, requests; }
      ghost var more;
      outcome, delta, more := HandleToolCalls(step.content, step.calls, before);
      Assoc(old(sent), [base], more);
      WithinConcat([base], more, base);
      requests := [base] + more;
    }

    /** Takes the queued messages into the history and forgets earlier interrupts. */
    method ActivateQueuedTurn() returns (active: bool)
      modifies this`history, this`messageQueue, this`activeTurn, this`interruptRequested, this`began, this`trace
      ensures active == activeTurn == (old(activeTurn) || old(messageQueue) != [])
      ensures old(activeTurn) || old(messageQueue) == [] ==>
        history == old(history) && messageQueue == old(messageQueue) && interruptRequested == old(interruptRequested)
      ensures !old(activeTurn) && old(messageQueue) != [] ==>
        history == old(history) + old(messageQueue) && messageQueue == [] && Clear() && trace == [] && began == moment
    {
      if !activeTurn && messageQueue != [] {
        history := history + messageQueue;
        messageQueue := [];
        activeTurn := true;
        interruptRequested := false;
        began, trace := moment, [];
      }
      active := activeTurn;
    }

    /** One pass of the session loop with messages waiting: a whole turn. */
    method RunTurn() returns (outcome: Outcome, ghost delta: seq<Message>, ghost requests: seq<seq<Message>>)
      requires !activeTurn && messageQueue != []
      modifies this
      ensures history == old(history) + old(messageQueue) + delta && messageQueue == [] && Tidy(outcome, delta)
      ensures !working && !activeTurn
      ensures sent == old(sent) + requests && AllWithin(requests, Prompt() + (old(history) + old(messageQueue)))
      ensures 1 <= |requests| <= 51
      ensures NeverDone(script) ==> outcome.DepthReached? && |requests| == 51
      ensures LateStarts(trace) <= 1
      ensures outcome.Interrupted? ==> ArrivedBetween(script, old(moment), moment)
    {
      var active := ActivateQueuedTurn();
      outcome, delta, requests := ProcessLLMRequest();
      activeTurn := false;
    }

    /** Everything appended outside the loop between two turns. */
    method Receive(input: Input)
      modifies this`history, this`messageQueue, this`interruptRequested, this`trace
      ensures history == old(history) + input.external && messageQueue == old(messageQueue) + input.queued
    {
      for i := 0 to |input.external|
        invariant history == old(history) + input.external[..i] && messageQueue == old(messageQueue)
      {
        AppendExternalHistory(input.external[i]);
      }
      assert input.external[..|input.external|] == input.external;
      for i := 0 to |input.queued|
        invariant history == old(history) + input.external
        invariant messageQueue == old(messageQueue) + input.queued[..i]
      {
        QueueUserMessage(input.queued[i]);
      }
      if input.interrupted { RequestInterrupt(); }
      assert input.queued[..|input.queued|] == input.queued;
    }

    method TakeTurn(input: Input, ghost marks: seq<nat>, ghost outcomes: seq<Outcome>, ghost stuck: nat)
      returns (outcome: Outcome, ghost next: nat)
      requires Proper(input) && messageQueue == [] && !activeTurn && Life(history, sent, marks, outcomes, stuck)
      modifies this
      ensures messageQueue == [] && !activeTurn && Life(history, sent, marks + [|sent|], outcomes + [outcome], next)
    {
      ghost var before, was := history, sent;
      Receive(input);
      assert messageQueue == input.queued;
      ghost var delta, requests;
      outcome, delta, requests := RunTurn();
      assert history == Arrived(before, input) + delta && sent == was + requests;
      next := LifeGoesOn(before, was, marks, outcomes, stuck, Prompt(), input, outcome, delta, requests);
    }

    /**
     The turns of one loop: a turn's requests are well formed if and only if no turn before it hit the depth limit.
     Whatever happened, repairing the history makes it well formed, unless an answered call has an empty id.
     */
    method RunTurns(inputs: seq<Input>) returns (outcomes: seq<Outcome>, ghost marks: seq<nat>)
      requires WellFormed(history) && messageQueue == [] && !activeTurn
      requires forall t :: 0 <= t < |inputs| ==> Proper(inputs[t])
      modifies this
      ensures |outcomes| == |inputs| && |marks| == |inputs| + 1 && marks[0] == |old(sent)| && marks[|inputs|] == |sent|
      ensures forall t :: 0 <= t < |inputs| ==> TurnSound(sent, marks, outcomes, t)
      ensures WellFormed(history) <==> !(DepthReached in outcomes)
      ensures WellFormed(Repair(history)) <==> AgentRepair.AnsweredIdsSet(history)
    {
      outcomes, marks := [], [|sent|];
      ghost var stuck: nat := 0;
      AgentRepair.WellFormedIsLoose(history);
      for t := 0 to |inputs|
        invariant messageQueue == [] && !activeTurn && |outcomes| == t
        invariant Life(history, sent, marks, outcomes, stuck) && marks[0] == |old(sent)|
      {
        var outcome;
        outcome, stuck := TakeTurn(inputs[t], marks, outcomes, stuck);
        outcomes := outcomes + [outcome];
        marks := marks + [|sent|];
      }
      if DepthReached in outcomes { StuckMalformed(history, stuck); }
      AgentRepair.RepairMendsIff(history);
    }
  }

  /** What reaches the loop between two turns. */
  datatype Input = Input(external: seq<Message>, queued: seq<Message>, interrupted: bool)

  predicate Proper(input: Input) {
    input.queued != [] && Plain(input.external) && Plain(input.queued)
  }

  ghost predicate AllWellFormedIff(requests: seq<seq<Message>>, good: bool) {
    forall k :: 0 <= k < |requests| ==> (WellFormed(requests[k]) <==> good)
  }

  /** Turn t's requests, sent[marks[t]..marks[t+1]], are between 1 and 51, and well formed iff no depth limit was hit before. */
  ghost predicate TurnSound(sent: seq<seq<Message>>, marks: seq<nat>, outcomes: seq<Outcome>, t: nat) {
    && t + 1 < |marks| && t < |outcomes|
    && marks[t] + 1 <= marks[t + 1] <= marks[t] + 51 && marks[t + 1] <= |sent|
    && AllWellFormedIff(sent[marks[t]..marks[t + 1]], !(DepthReached in outcomes[..t]))
  }

  /** Message i has calls and no results, and something else follows it. */
  ghost predicate StuckAt(h: seq<Message>, i: nat) {
    i < |h| && WellFormed(h[..i]) && Calls(h[i]) != [] && (i + 1 < |h| ==> !h[i + 1].ToolResult?)
  }

  lemma StuckMalformed(h: seq<Message>, i: nat)
    requires StuckAt(h, i)
    ensures !WellFormed(h)
  {
    assert h == h[..i] + [h[i]] + h[i + 1..];
    UnansweredStaysMalformed(h[..i], h[i], h[i + 1..]);
  }

  lemma StuckExtends(h: seq<Message>, i: nat, more: seq<Message>)
    requires StuckAt(h, i) && (more != [] && i + 1 == |h| ==> !more[0].ToolResult?)
    ensures StuckAt(h + more, i)
  {
    assert (h + more)[..i] == h[..i];
  }

  lemma StuckAfter(a: seq<Message>, h: seq<Message>, i: nat)
    requires WellFormed(a) && StuckAt(h, i)
    ensures StuckAt(a + h, |a| + i)
  {
    assert (a + h)[..|a| + i] == a + h[..i];
    WellFormedConcat(a, h[..i]);
  }

  function Arrived(before: seq<Message>, input: Input): seq<Message> {
    before + input.external + input.queued
  }

  lemma ArrivedKeeps(before: seq<Message>, input: Input, bad: bool, stuck: nat)
    requires Proper(input)
    requires if bad then StuckAt(before, stuck) else WellFormed(before)
    ensures var arrived := Arrived(before, input);
      if bad then StuckAt(arrived, stuck) && stuck + 1 < |arrived| else WellFormed(arrived)
  {
    if bad {
      StuckExtends(before, stuck, input.external);
      StuckExtends(before + input.external, stuck, input.queued);
    } else {
      PlainWellFormed(input.external);
      PlainWellFormed(input.queued);
      WellFormedConcat(before, input.external);
      WellFormedConcat(before + input.external, input.queued);
    }
  }

  /** A turn keeps the history well formed, or leaves it stuck for good. */
  lemma TurnExtends(arrived: seq<Message>, outcome: Outcome, delta: seq<Message>, bad: bool, stuck: nat) returns (next: nat)
    requires Tidy(outcome, delta)
    requires if bad then StuckAt(arrived, stuck) && stuck + 1 < |arrived| else WellFormed(arrived)
    ensures if bad || outcome.DepthReached? then StuckAt(arrived + delta, next) else WellFormed(arrived + delta)
  {
    next := stuck;
    if bad {
      StuckExtends(arrived, stuck, delta);
    } else if outcome.DepthReached? {
      next := |arrived| + (|delta| - 1);
      StuckAfter(arrived, delta, |delta| - 1);
    } else {
      WellFormedConcat(arrived, delta);
    }
  }

  /** What a turn sends is well formed exactly if what it started from was. */
  lemma TurnRequests(requests: seq<seq<Message>>, prompt: seq<Message>, arrived: seq<Message>, bad: bool, stuck: nat)
    requires Plain(prompt) && AllWithin(requests, prompt + arrived)
    requires if bad then StuckAt(arrived, stuck) && stuck + 1 < |arrived| else WellFormed(arrived)
    ensures AllWellFormedIff(requests, !bad)
  {
    PlainWellFormed(prompt);
    forall k | 0 <= k < |requests| ensures WellFormed(requests[k]) <==> !bad {
      assert SentWithin(requests[k], prompt + arrived);
      RequestIff(requests[k], prompt, arrived, bad, stuck);
    }
  }

  lemma RequestIff(request: seq<Message>, prompt: seq<Message>, arrived: seq<Message>, bad: bool, stuck: nat)
    requires WellFormed(prompt) && SentWithin(request, prompt + arrived)
    requires if bad then StuckAt(arrived, stuck) && stuck + 1 < |arrived| else WellFormed(arrived)
    ensures WellFormed(request) <==> !bad
  {
    var d := request[|prompt + arrived|..];
    assert request == prompt + arrived + d;
    if bad { StuckRequest(prompt, arrived, d, stuck); } else { GoodRequest(prompt, arrived, d); }
  }

  /** A loop's life so far: its turns are sound, and its history is good, or stuck but with no result out of place. */
  ghost predicate Life(h: seq<Message>, sent: seq<seq<Message>>, marks: seq<nat>, outcomes: seq<Outcome>, stuck: nat) {
    && |marks| == |outcomes| + 1 && marks[|outcomes|] == |sent|
    && (forall u :: 0 <= u < |outcomes| ==> TurnSound(sent, marks, outcomes, u))
    && (if DepthReached in outcomes then StuckAt(h, stuck) else WellFormed(h))
    && AgentRepair.Loose(h)
  }

  lemma TurnLoose(before: seq<Message>, input: Input, outcome: Outcome, delta: seq<Message>)
    requires AgentRepair.Loose(before) && Proper(input) && Tidy(outcome, delta)
    ensures AgentRepair.Loose(Arrived(before, input) + delta)
  {
    PlainWellFormed(input.external);
    PlainWellFormed(input.queued);
    AgentRepair.WellFormedIsLoose(input.external);
    AgentRepair.WellFormedIsLoose(input.queued);
    AgentRepair.LooseConcat(before, input.external);
    AgentRepair.LooseConcat(before + input.external, input.queued);
    TidyLoose(outcome, delta);
    AgentRepair.LooseConcat(Arrived(before, input), delta);
  }

  lemma TidyLoose(outcome: Outcome, delta: seq<Message>)
    requires Tidy(outcome, delta)
    ensures AgentRepair.Loose(delta)
  {
    if outcome.DepthReached? {
      var n := |delta| - 1;
      AgentRepair.WellFormedIsLoose(delta[..n]);
      AgentRepair.LoneIsLoose(delta[n]);
      AgentRepair.LooseConcat(delta[..n], [delta[n]]);
      assert delta == delta[..n] + [delta[n]];
    } else {
      AgentRepair.WellFormedIsLoose(delta);
    }
  }

  lemma LifeGoesOn(before: seq<Message>, was: seq<seq<Message>>, marks: seq<nat>, outcomes: seq<Outcome>, stuck: nat,
                   prompt: seq<Message>, input: Input, outcome: Outcome, delta: seq<Message>, requests: seq<seq<Message>>)
    returns (next: nat)
    requires Life(before, was, marks, outcomes, stuck) && Proper(input) && Plain(prompt) && Tidy(outcome, delta)
    requires 1 <= |requests| <= 51 && AllWithin(requests, prompt + Arrived(before, input))
    ensures Life(Arrived(before, input) + delta, was + requests, marks + [|was + requests|], outcomes + [outcome], next)
  {
    var bad, arrived := DepthReached in outcomes, Arrived(before, input);
    ArrivedKeeps(before, input, bad, stuck);
    TurnRequests(requests, prompt, arrived, bad, stuck);
    next := TurnExtends(arrived, outcome, delta, bad, stuck);
    SoundGoesOn(was, marks, outcomes, outcome, requests);
    TurnLoose(before, input, outcome, delta);
  }

  lemma SoundGoesOn(was: seq<seq<Message>>, marks: seq<nat>, outcomes: seq<Outcome>, outcome: Outcome,
                    requests: seq<seq<Message>>)
    requires |marks| == |outcomes| + 1 && marks[|outcomes|] == |was| && 1 <= |requests| <= 51
    requires forall u :: 0 <= u < |outcomes| ==> TurnSound(was, marks, outcomes, u)
    requires AllWellFormedIff(requests, !(DepthReached in outcomes))
    ensures forall u :: 0 <= u <= |outcomes| ==> TurnSound(was + requests, marks + [|was + requests|], outcomes + [outcome], u)
  {
    var m, o, sent := marks + [|was + requests|], outcomes + [outcome], was + requests;
    forall u | 0 <= u <= |outcomes| ensures TurnSound(sent, m, o, u) {
      assert o[..u] == outcomes[..u];
      if u < |outcomes| {
        assert TurnSound(was, marks, outcomes, u);
        assert sent[m[u]..m[u + 1]] == was[m[u]..m[u + 1]];
      } else {
        assert outcomes[..u] == outcomes && sent[m[u]..m[u + 1]] == requests;
      }
    }
  }

  lemma StuckRequest(prompt: seq<Message>, arrived: seq<Message>, d: seq<Message>, stuck: nat)
    requires WellFormed(prompt) && StuckAt(arrived, stuck) && stuck + 1 < |arrived|
    ensures !WellFormed(prompt + arrived + d)
  {
    StuckAfter(prompt, arrived, stuck);
    StuckExtends(prompt + arrived, |prompt| + stuck, d);
    StuckMalformed(prompt + arrived + d, |prompt| + stuck);
  }

  lemma GoodRequest(prompt: seq<Message>, arrived: seq<Message>, d: seq<Message>)
    requires WellFormed(prompt) && WellFormed(arrived) && WellFormed(d)
    ensures WellFormed(prompt + arrived + d)
  {
    WellFormedConcat(prompt, arrived);
    WellFormedConcat(prompt + arrived, d);
  }

  lemma WithinConcat(a: seq<seq<Message>>, b: seq<seq<Message>>, base: seq<Message>)
    requires AllWithin(a, base) && AllWithin(b, base)
    ensures AllWithin(a + b, base)
  {
  }

  lemma SentSnoc(had: seq<seq<Message>>, requests: seq<seq<Message>>, sent: seq<seq<Message>>, base: seq<Message>)
    returns (more: seq<seq<Message>>)
    requires AllWithin(requests, base)
    requires sent == had + requests || exists r :: sent == had + requests + [r] && SentWithin(r, base)
    ensures sent == had + more && AllWithin(more, base)
  {
    more := requests;
    if sent != had + requests {
      var r :| sent == had + requests + [r] && SentWithin(r, base);
      more := requests + [r];
      Assoc(had, requests, [r]);
    }
  }

  lemma ExecutedSnoc(script: Script, from: nat, calls: seq<Call>, i: nat)
    requires i < |calls|
    ensures Executed(script, from, calls[..i + 1]) == Executed(script, from, calls[..i]) + [ResultOf(script, from + i, calls[i])]
  {
  }

  lemma BatchAnswers(script: Script, from: nat, calls: seq<Call>, n: nat)
    requires n <= |calls|
    ensures Answers(calls, Executed(script, from, calls[..n]) + AllCancelled(calls[n..]))
  {
  }

  /** An answered message after an answered history. */
  lemma BatchAnswered(before: seq<Message>, answered: seq<Message>, m: Message, results: seq<Message>)
    requires WellFormed(answered) && !m.ToolResult? && Answers(Calls(m), results)
    ensures WellFormed(answered + ([m] + results))
    ensures before + (answered + [m]) + results == before + (answered + ([m] + results))
  {
    BlockWellFormed(m, results);
    WellFormedConcat(answered, [m] + results);
    Assoc(answered, [m], results);
    Assoc(before, answered + [m], results);
  }

  lemma RequestWithin(prompt: seq<Message>, before: seq<Message>, delta: seq<Message>)
    requires WellFormed(delta)
    ensures SentWithin(prompt + (before + delta), prompt + before)
  {
    Assoc(prompt, before, delta);
    assert (prompt + before + delta)[|prompt + before|..] == delta;
  }
}
