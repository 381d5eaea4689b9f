/**
 Runs from a new record in which what one would expect of an automata does not happen: an operator's
 message is lost, a text is given to the session twice, an automata is left waiting for nothing, and
 the remembered minute goes back so that a minute gets two scheduled cycles.
 */
module AutomataScenarios {
  import opened Text
  import opened AutomataState
  import opened AutomataSteps
  import opened AutomataSafety
  import opened AutomataRuns
  import opened AutomataProperties
  import opened AutomataDelivery

  // ----- steps of a run

  /** A command that loads the record as `e` and then writes `t`. */
  lemma PlainStep(w: World, def: Definition, c: Command, e: Entry, t: State, note: Note)
    requires Plain(c) && !Skipped(def, c) && e == Enter(def, w.disk, 0) && e.ok && e.state.messages == w.disk.messages
    requires e.saves == [] || e.saves == [Save(e.state, Queued([]))]
    requires DoPlain(def, e.state, c, 0) == Wrote(t, note)
    ensures Next(w, Run(def, c, 0, 9)) ==
            w.(disk := Stamp(t, 0), ledger := Book(w.ledger, w.disk, note),
               cycles := w.cycles + if c.Tick? && note.Dropped? then [c.minute] else [])
  {
    PlainPass(def, w.disk, c, e, t, note);
    RunNext(w, def, c, Write(e.saves, t, note, 0));
    BookPlain(w.ledger, w.disk, e, Save(Stamp(t, 0), note));
    assert w.gifts + [] == w.gifts;
  }

  lemma PlainPass(def: Definition, s: State, c: Command, e: Entry, t: State, note: Note)
    requires Plain(c) && !Skipped(def, c) && e == Enter(def, s, 0) && e.ok && DoPlain(def, e.state, c, 0) == Wrote(t, note)
    ensures Do(def, s, c, 0) == Write(e.saves, t, note, 0)
  {
  }

  /** A pass all of whose writes succeed. */
  lemma RunNext(w: World, def: Definition, c: Command, p: Pass)
    requires p == Do(def, w.disk, c, 0) && |p.saves| <= 9
    ensures Next(w, Run(def, c, 0, 9)) ==
            World(Committed(w.disk, p.saves, |p.saves|), if p.held.Some? then w.live + [p.held.value] else w.live,
                  BookAll(w.ledger, w.disk, p.saves), w.gifts + NewGifts(w, p, 9), w.cycles + Scheduled(c, p.saves))
  {
    assert p.saves[..|p.saves|] == p.saves;
  }

  lemma BookPlain(l: Ledger, s: State, e: Entry, last: Save)
    requires e.saves == [] || e.saves == [Save(e.state, Queued([]))]
    requires e.state.messages == s.messages
    ensures BookAll(l, s, e.saves + [last]) == Book(l, s, last.note)
  {
    var saves := e.saves + [last];
    assert saves[..|e.saves|] == e.saves;
    if e.saves != [] {
      assert e.saves[..0] == [] && l.queued + [] == l.queued;
      assert BookAll(l, s, e.saves) == l;
    }
  }

  /** A pass with a single write. */
  lemma PassStep(w: World, def: Definition, c: Command, p: Pass)
    requires p == Do(def, w.disk, c, 0) && |p.saves| == 1 && !c.Tick?
    ensures Next(w, Run(def, c, 0, 9)) ==
            w.(disk := p.saves[0].state, live := if p.held.Some? then w.live + [p.held.value] else w.live,
               ledger := Book(w.ledger, w.disk, p.saves[0].note),
               gifts := w.gifts + if p.given.Some? then Gifts(|w.ledger.removed|, p.given.value) else [])
  {
    RunNext(w, def, c, p);
    PassBooks(w, p);
    assert w.cycles + [] == w.cycles;
  }

  lemma PassBooks(w: World, p: Pass)
    requires |p.saves| == 1
    ensures p.saves[..1] == p.saves && Earlier(p) == [] && Committed(w.disk, p.saves, 1) == p.saves[0].state
    ensures BookAll(w.ledger, w.disk, p.saves) == Book(w.ledger, w.disk, p.saves[0].note)
    ensures NewGifts(w, p, 9) == if p.given.Some? then Gifts(|w.ledger.removed|, p.given.value) else []
  {
    assert p.saves[..1] == p.saves && p.saves[..0] == [] && Earlier(p) == [];
    assert BookAll(w.ledger, w.disk, []) == w.ledger;
  }

  lemma ToolStep(w: World, def: Definition, copy: nat, tool: Tool, m: State)
    requires copy < |w.live| && DoTool(def, w.live[copy], tool, 0) == ToolPass(m, [Save(m, Queued([]))], false)
    ensures Next(w, Call(def, copy, tool, 0, 9)) == w.(disk := m, live := w.live[copy := m])
  {
    assert w.ledger.queued + [] == w.ledger.queued;
  }

  /** A reconcile pass over a record that loads as it is. */
  lemma ReconcileStep(def: Definition, s: State, env: ReconcileEnv)
    requires Enter(def, s, 0) == Entry(true, s, [])
    ensures Do(def, s, Reconcile(env), 0) == DoReconcile(def, Entry(true, s, []), env, 0)
  {
  }

  // ----- the records

  const PLAIN := Definition(Workflow, false, "", [], false)
  const TEMPLATES := [TaskTemplate("t", "d")]
  const TASKS := [Task("t", "d", false)]
  const KICKOFF := TurnMessage(Kickoff, "k")
  const CREATED := InitialState(0).(templates := TEMPLATES)
  const STARTED := CREATED.(tasks := TASKS, cycle := "c", lastTriggeredAt := Some(0), lifecycle := Running,
                            instruction := "i", startRequestedAt := Some(0), messages := [KICKOFF])
  const TURNING := STARTED.(session := "s", startRequestedAt := None, messages := [])

  /** What a record of these runs is like. */
  predicate Settled(s: State) {
    s.templates == TEMPLATES && (s.tasks == [] || s.tasks == TASKS) && s.lastUpdatedAt == 0 && !s.lifecycle.Finished?
  }

  lemma NormalizedSettled(s: State)
    requires Settled(s)
    ensures TasksAccepted(s.tasks) && TemplatesAccepted(s.templates) && Normalized(s) == s
  {
    assert Trim("d") == "d";
    assert TrimTasks(s.tasks) == s.tasks && TrimTemplates(s.templates) == s.templates;
  }

  lemma LoadsPlain(s: State)
    requires Settled(s) && s.activatedAt.None? && s.activatedBy.Nobody?
    ensures var e := Enter(PLAIN, s, 0);
      && e.ok && e.state == s && (e.saves == [] || e.saves == [Save(s, Queued([]))])
      && (s.tasks == TASKS ==> e == Entry(true, s, []))
  {
    NormalizedSettled(s);
  }

  lemma InitialLoads(def: Definition)
    ensures var e := Enter(def, InitialState(0), 0);
      e.ok && e.state == InitialState(0) && e.saves == [Save(InitialState(0), Queued([]))]
  {
    var s := InitialState(0);
    assert TrimTasks(s.tasks) == [] && TrimTemplates(s.templates) == [];
    assert Normalized(s) == s;
  }

  // ----- up to the first turn

  lemma CreateWrote(def: Definition)
    ensures DoPlain(def, InitialState(0), CreateTask("t", "d"), 0) == Wrote(CREATED, Queued([]))
  {
    assert Trim("d") == "d";
    assert InitialState(0).templates + [TaskTemplate("t", "d")] == TEMPLATES;
  }

  lemma TemplateCreated(def: Definition) returns (acts: seq<Action>)
    ensures Execute(Fresh(0), acts) == Fresh(0).(disk := CREATED) && |acts| == 1 && acts[0] == Run(def, CreateTask("t", "d"), 0, 9)
  {
    var c := CreateTask("t", "d");
    InitialLoads(def);
    CreateWrote(def);
    PlainStep(Fresh(0), def, c, Enter(def, InitialState(0), 0), CREATED, Queued([]));
    assert Fresh(0).ledger.queued + [] == [] && Fresh(0).cycles + [] == [];
    acts := [] + [Run(def, c, 0, 9)];
    ExecuteOneMore(Fresh(0), [], Run(def, c, 0, 9));
  }

  lemma StartWrote()
    ensures DoPlain(PLAIN, CREATED, Start("i", Nobody, true, "c", "k"), 0) == Wrote(STARTED, Dropped(NewCycle, [KICKOFF]))
  {
    assert Trim("i") == "i" && !Blank("k");
    assert TasksOf(CREATED.templates) == TASKS;
    assert [] + Added(Kickoff, "k") == [KICKOFF];
  }

  const BOOKS := Ledger([KICKOFF], [], {})

  lemma CycleStarted() returns (acts: seq<Action>)
    ensures Execute(Fresh(0), acts) == Fresh(0).(disk := STARTED, ledger := BOOKS)
  {
    var c := Start("i", Nobody, true, "c", "k");
    LoadsPlain(CREATED);
    StartWrote();
    var init := TemplateCreated(PLAIN);
    var w := Execute(Fresh(0), init);
    PlainStep(w, PLAIN, c, Enter(PLAIN, CREATED, 0), STARTED, Dropped(NewCycle, [KICKOFF]));
    assert [] + [KICKOFF] == [KICKOFF] && w.ledger.removed + w.disk.messages == [] && w.cycles + [] == [];
    acts := init + [Run(PLAIN, c, 0, 9)];
    ExecuteOneMore(Fresh(0), init, Run(PLAIN, c, 0, 9));
  }

  const ANSWERS := TurnEnv(None, Created("s"), Enqueued("s", false), Created("s"), Enqueued("s", false), Flushed("s", false))

  function Answering(): ReconcileEnv {
    ReconcileEnv(LookupError, ANSWERS, Flushed("s", false), Activity(false, false, false), None, false, "")
  }

  /** A turn start on a running record with messages. */
  lemma TurnPass(def: Definition, s: State, env: ReconcileEnv, turn: Turn)
    requires !def.disabled && s.lifecycle.Running? && s.run.None? && s.prompt.None? && s.messages != []
    requires Enter(def, s, 0) == Entry(true, s, []) && turn == StartTurn(s, env.turn, 0) && turn.held
    requires turn.state.lastUpdatedAt == 0
    ensures Do(def, s, Reconcile(env), 0) ==
            Pass([Save(turn.state, turn.note)], Some(turn.state), false, if turn.accepted then Some(s.messages) else None)
  {
    ReconcileStep(def, s, env);
    assert Stamp(turn.state, 0) == turn.state;
    assert [] + [Save(turn.state, turn.note)] == [Save(turn.state, turn.note)];
  }

  lemma StartedTurns()
    ensures StartTurn(STARTED, ANSWERS, 0) == Turn(TURNING, Handed(PendingText([KICKOFF])), true, true)
  {
  }

  lemma TurnStarted() returns (acts: seq<Action>)
    ensures var w := Execute(Fresh(0), acts); w.disk == TURNING && w.live == [TURNING]
  {
    var c := Reconcile(Answering());
    LoadsPlain(STARTED);
    StartedTurns();
    TurnPass(PLAIN, STARTED, Answering(), StartTurn(STARTED, ANSWERS, 0));
    var init := CycleStarted();
    PassStep(Execute(Fresh(0), init), PLAIN, c, Do(PLAIN, STARTED, c, 0));
    assert [] + [TURNING] == [TURNING];
    acts := init + [Run(PLAIN, c, 0, 9)];
    ExecuteOneMore(Fresh(0), init, Run(PLAIN, c, 0, 9));
  }

  // ----- a message is lost: the operator writes during a turn, the agent then runs a DAG

  const NOTE := TurnMessage(OperatorMessage, "m")

  lemma MessageWrote(s: State)
    requires Active(s.lifecycle) && !s.lifecycle.Paused? && s.prompt.None? && s.messages == []
    ensures var effect := DoPlain(PLAIN, s, Message("m", true, "c", "m"), 0);
      effect == Wrote(if s.run.None? then s.(messages := [NOTE], lifecycle := Running, reason := NoReason)
                      else s.(messages := [NOTE]), Queued([NOTE]))
  {
    assert !Blank("m");
    assert [] + Added(OperatorMessage, "m") == [NOTE];
  }

  lemma OperatorWrote() returns (acts: seq<Action>)
    ensures var w := Execute(Fresh(0), acts); w.disk.messages != [] && w.live == [TURNING]
  {
    var c := Message("m", true, "c", "m");
    LoadsPlain(TURNING);
    MessageWrote(TURNING);
    var init := TurnStarted();
    var w := Execute(Fresh(0), init);
    var effect := DoPlain(PLAIN, TURNING, c, 0);
    PlainStep(w, PLAIN, c, Enter(PLAIN, TURNING, 0), effect.state, effect.note);
    acts := init + [Run(PLAIN, c, 0, 9)];
    ExecuteOneMore(Fresh(0), init, Run(PLAIN, c, 0, 9));
  }

  /** A message can be lost: the promise that none is holds exactly as `RunBalancedIffUpToDate` says. */
  lemma MessageLossIsReachable() returns (acts: seq<Action>)
    ensures !Balanced(Execute(Fresh(0), acts))
  {
    acts := OperatorWrote();
    var w := Execute(Fresh(0), acts);
    EveryRunKeepsInvariant(0, acts);
    if Balanced(w) {
      OutdatedSaveLosesMessages(w, PLAIN, 0, "r", 0);
      ExecuteOneMore(Fresh(0), acts, Call(PLAIN, 0, RunDag(true, true, "r", ""), 0, 1));
      acts := acts + [Call(PLAIN, 0, RunDag(true, true, "r", ""), 0, 1)];
    }
  }

  // ----- a text is given twice: the session has it, but an error keeps the messages pending

  /** The session queues the text and cannot flush it. */
  const STALLS := ANSWERS.(enqueue := Enqueued("s", true), flush := FlushError("e"))

  /** The session queues the text and then reports that its loop is gone. */
  const KEEPS := ANSWERS.(enqueue := EnqueueError("e", true))

  const STALLED := STARTED.(session := "s", lastError := Problem("e"))

  ghost predicate Stalls(turn: TurnEnv) { StartTurn(STARTED, turn, 0) == Turn(STALLED, Queued([]), true, true) }

  lemma BothStall()
    ensures Stalls(STALLS) && Stalls(KEEPS)
  {
  }

  lemma StalledTurns()
    ensures StartTurn(STALLED, ANSWERS, 0) == Turn(TURNING, Handed(PendingText([KICKOFF])), true, true)
  {
  }

  lemma KickoffGift()
    ensures Gifts(0, [KICKOFF]) == [Gift(0, KICKOFF)]
  {
  }

  lemma TurnStalled(turn: TurnEnv) returns (acts: seq<Action>)
    requires Stalls(turn)
    ensures Execute(Fresh(0), acts) ==
            Fresh(0).(disk := STALLED, live := [STALLED], ledger := BOOKS, gifts := [Gift(0, KICKOFF)])
    ensures acts != [] && acts[|acts| - 1] == Run(PLAIN, Reconcile(Answering().(turn := turn)), 0, 9)
  {
    var env := Answering().(turn := turn);
    var c := Reconcile(env);
    LoadsPlain(STARTED);
    TurnPass(PLAIN, STARTED, env, StartTurn(STARTED, turn, 0));
    var init := CycleStarted();
    PassStep(Execute(Fresh(0), init), PLAIN, c, Do(PLAIN, STARTED, c, 0));
    KickoffGift();
    assert [] + [STALLED] == [STALLED] && BOOKS.queued + [] == BOOKS.queued && [] + [Gift(0, KICKOFF)] == [Gift(0, KICKOFF)];
    acts := init + [Run(PLAIN, c, 0, 9)];
    ExecuteOneMore(Fresh(0), init, Run(PLAIN, c, 0, 9));
  }

  lemma StalledThenTurns(turn: TurnEnv) returns (acts: seq<Action>)
    requires Stalls(turn)
    ensures Execute(Fresh(0), acts).gifts == [Gift(0, KICKOFF), Gift(0, KICKOFF)]
    ensures |acts| > 1 && acts[|acts| - 2] == Run(PLAIN, Reconcile(Answering().(turn := turn)), 0, 9)
  {
    var c := Reconcile(Answering());
    LoadsPlain(STALLED);
    StalledTurns();
    TurnPass(PLAIN, STALLED, Answering(), StartTurn(STALLED, ANSWERS, 0));
    var init := TurnStalled(turn);
    PassStep(Execute(Fresh(0), init), PLAIN, c, Do(PLAIN, STALLED, c, 0));
    KickoffGift();
    acts := init + [Run(PLAIN, c, 0, 9)];
    ExecuteOneMore(Fresh(0), init, Run(PLAIN, c, 0, 9));
  }

  /** The session is given the same message a second time: `RunAccountedIffWhole` says exactly when this does not happen. */
  lemma GivenTwiceIsReachable() returns (acts: seq<Action>)
    ensures Execute(Fresh(0), acts).gifts == [Gift(0, KICKOFF), Gift(0, KICKOFF)]
    ensures |acts| > 1 && acts[|acts| - 2] == Run(PLAIN, Reconcile(Answering().(turn := STALLS)), 0, 9)
  {
    BothStall();
    acts := StalledThenTurns(STALLS);
  }

  /** And without any flush or save that fails, when the enqueue itself fails behind the text. */
  lemma GivenTwiceByFailedEnqueue() returns (acts: seq<Action>)
    ensures Execute(Fresh(0), acts).gifts == [Gift(0, KICKOFF), Gift(0, KICKOFF)]
    ensures |acts| > 1 && acts[|acts| - 2] == Run(PLAIN, Reconcile(Answering().(turn := KEEPS)), 0, 9)
  {
    BothStall();
    acts := StalledThenTurns(KEEPS);
  }

  // ----- an automata waits for nothing: a child run waits, the operator writes, the spec changes

  const DAGGED := TURNING.(run := Some("r"))
  const WAITING := DAGGED.(lifecycle := Waiting, reason := DagWait)
  const NOTED := WAITING.(messages := [NOTE])
  const STRANDED := NOTED.(session := "", run := None, cycle := "", reason := NoReason)

  lemma ChildRunStarted() returns (acts: seq<Action>)
    ensures Execute(Fresh(0), acts).disk == DAGGED
  {
    var init := TurnStarted();
    var tool := RunDag(true, true, "r", "");
    assert DoTool(PLAIN, TURNING, tool, 0) == ToolPass(DAGGED, [Save(DAGGED, Queued([]))], false);
    ToolStep(Execute(Fresh(0), init), PLAIN, 0, tool, DAGGED);
    acts := init + [Call(PLAIN, 0, tool, 0, 9)];
    ExecuteOneMore(Fresh(0), init, Call(PLAIN, 0, tool, 0, 9));
  }

  function Blocking(): ReconcileEnv { Answering().(lookup := RunFound(RunWaiting)) }

  lemma ChildRunWaits() returns (acts: seq<Action>)
    ensures Execute(Fresh(0), acts).disk == WAITING
  {
    var c := Reconcile(Blocking());
    LoadsPlain(DAGGED);
    ReconcileStep(PLAIN, DAGGED, Blocking());
    var p := Do(PLAIN, DAGGED, c, 0);
    assert p == Write([], WAITING, Queued([]), 0) && Stamp(WAITING, 0) == WAITING;
    var init := ChildRunStarted();
    PassStep(Execute(Fresh(0), init), PLAIN, c, p);
    acts := init + [Run(PLAIN, c, 0, 9)];
    ExecuteOneMore(Fresh(0), init, Run(PLAIN, c, 0, 9));
  }

  lemma OperatorWroteWhileWaiting() returns (acts: seq<Action>)
    ensures Execute(Fresh(0), acts).disk == NOTED
  {
    var c := Message("m", true, "c", "m");
    LoadsPlain(WAITING);
    MessageWrote(WAITING);
    var init := ChildRunWaits();
    PlainStep(Execute(Fresh(0), init), PLAIN, c, Enter(PLAIN, WAITING, 0), NOTED, Queued([NOTE]));
    assert Stamp(NOTED, 0) == NOTED;
    acts := init + [Run(PLAIN, c, 0, 9)];
    ExecuteOneMore(Fresh(0), init, Run(PLAIN, c, 0, 9));
  }

  /** The record is left waiting without a prompt and without a run; `RunCausedIffNeverStrands` says exactly when not. */
  lemma StrandingIsReachable() returns (acts: seq<Action>)
    ensures var s := Execute(Fresh(0), acts).disk; s.lifecycle.Waiting? && !Caused(s)
  {
    var c := SpecChange(true, "x");
    var init := OperatorWroteWhileWaiting();
    var p := Do(PLAIN, NOTED, c, 0);
    assert p == Write([], STRANDED, Queued([]), 0);
    PassStep(Execute(Fresh(0), init), PLAIN, c, p);
    acts := init + [Run(PLAIN, c, 0, 9)];
    ExecuteOneMore(Fresh(0), init, Run(PLAIN, c, 0, 9));
  }

  // ----- the remembered minute goes back: a copy from the first cycle is saved in the second

  const SERVICE := Definition(Service, false, "i", [iset{1, 2}], false)
  const TICK := TurnMessage(ScheduledTick, "k")

  function TickAt(m: nat): Command { Tick(m, Activity(false, false, false), true, "c", "k") }

  /** The record after a tick that starts a cycle. */
  function Cycled(s: State, m: nat): State {
    StartServiceCycle(s.(lastScheduleMinute := Some(m)), "i", Schedule, "c", 0).(messages := [TICK])
  }

  lemma LoadsService(s: State)
    requires Settled(s) && (Active(s.lifecycle) ==> s.activatedAt.Some?)
    ensures var e := Enter(SERVICE, s, 0);
      && e.ok && e.state == s && (e.saves == [] || e.saves == [Save(s, Queued([]))])
      && (s.tasks == TASKS ==> e == Entry(true, s, []))
  {
    NormalizedSettled(s);
  }

  lemma TickWrote(s: State, m: nat)
    requires Settled(s) && !s.lifecycle.Paused? && s.prompt.None? && s.run.None? && s.messages == []
    requires 1 <= m <= 2 && s.lastScheduleMinute != Some(m)
    ensures DoPlain(SERVICE, s, TickAt(m), 0) == Wrote(Cycled(s, m), Dropped(NewCycle, [TICK]))
  {
    assert Trim("i") == "i" && !Blank("k");
    assert m in SERVICE.schedule[0] && DueAt(SERVICE.schedule, m);
    assert [] + Added(ScheduledTick, "k") == [TICK];
  }

  lemma CycledSettled(s: State, m: nat)
    requires Settled(s)
    ensures var t := Cycled(s, m);
      && Settled(t) && t.tasks == TASKS && t.activatedAt.Some? && t.lifecycle.Running? && t.run.None? && t.prompt.None?
      && t.messages == [TICK] && t.session == "" && t.lastScheduleMinute == Some(m) && Stamp(t, 0) == t
  {
    assert TasksOf(s.templates) == TASKS;
  }

  lemma TickingOneMore(base: nat, acts: seq<Action>, a: Action)
    requires Ticking(base, acts) && Ticks(a, LatestTick(base, acts))
    ensures Ticking(base, acts + [a])
    ensures LatestTick(base, acts + [a]) == if a.Run? && a.command.Tick? then a.command.minute else LatestTick(base, acts)
  {
    assert (acts + [a])[..|acts|] == acts;
  }

  /** A run of the service, where it has come to, and that its ticks did not go back. */
  ghost predicate CameTo(acts: seq<Action>, w: World, latest: nat) {
    Execute(Fresh(0), acts) == w && Ticking(0, acts) && LatestTick(0, acts) == latest
  }

  lemma CameOneMore(acts: seq<Action>, w: World, latest: nat, a: Action)
    requires CameTo(acts, w, latest) && Ticks(a, latest)
    ensures CameTo(acts + [a], Next(w, a), if a.Run? && a.command.Tick? then a.command.minute else latest)
  {
    ExecuteOneMore(Fresh(0), acts, a);
    TickingOneMore(0, acts, a);
  }

  /** A tick that starts a cycle. */
  lemma TickStep(acts: seq<Action>, w: World, latest: nat, m: nat) returns (more: seq<Action>, u: World)
    requires CameTo(acts, w, latest) && latest <= m
    requires Settled(w.disk) && !w.disk.lifecycle.Paused? && w.disk.prompt.None? && w.disk.run.None? && w.disk.messages == []
    requires (Active(w.disk.lifecycle) ==> w.disk.activatedAt.Some?) && 1 <= m <= 2 && w.disk.lastScheduleMinute != Some(m)
    ensures CameTo(more, u, m) && more == acts + [Run(SERVICE, TickAt(m), 0, 9)]
    ensures u.disk == Cycled(w.disk, m) && u.live == w.live && u.cycles == w.cycles + [m]
  {
    LoadsService(w.disk);
    TickWrote(w.disk, m);
    CycledSettled(w.disk, m);
    PlainStep(w, SERVICE, TickAt(m), Enter(SERVICE, w.disk, 0), Cycled(w.disk, m), Dropped(NewCycle, [TICK]));
    var a := Run(SERVICE, TickAt(m), 0, 9);
    CameOneMore(acts, w, latest, a);
    more, u := acts + [a], Next(w, a);
  }

  /** A turn that hands everything over. */
  function Turned(s: State): State {
    s.(session := "s", messages := [], startRequestedAt := None, lastTriggeredAt := Some(0), reason := NoReason, lastError := NoProblem)
  }

  lemma TurnStep(acts: seq<Action>, w: World, latest: nat) returns (more: seq<Action>, u: World)
    requires CameTo(acts, w, latest) && Settled(w.disk) && w.disk.tasks == TASKS && w.disk.activatedAt.Some?
    requires w.disk.lifecycle.Running? && w.disk.run.None? && w.disk.prompt.None? && w.disk.messages != []
    ensures CameTo(more, u, latest) && u.disk == Turned(w.disk) && u.live == w.live + [u.disk] && u.cycles == w.cycles
  {
    var s, c := w.disk, Reconcile(Answering());
    LoadsService(s);
    assert StartTurn(s, ANSWERS, 0) == Turn(Turned(s), Handed(PendingText(s.messages)), true, true);
    TurnPass(SERVICE, s, Answering(), StartTurn(s, ANSWERS, 0));
    PassStep(w, SERVICE, c, Do(SERVICE, s, c, 0));
    var a := Run(SERVICE, c, 0, 9);
    CameOneMore(acts, w, latest, a);
    more, u := acts + [a], Next(w, a);
  }

  const QUESTION := Prompt("p", "q")

  function Asked(s: State): State { s.(prompt := Some(QUESTION), response := None, lifecycle := Waiting, reason := HumanInput) }

  lemma AskStep(acts: seq<Action>, w: World, latest: nat, copy: nat) returns (more: seq<Action>, u: World)
    requires CameTo(acts, w, latest) && copy < |w.live|
    requires w.live[copy].run.None? && w.live[copy].prompt.None? && w.live[copy].lastUpdatedAt == 0
    ensures CameTo(more, u, latest) && u.disk == Asked(w.live[copy]) && u.cycles == w.cycles
    ensures more == acts + [Call(SERVICE, copy, AskHuman(QUESTION), 0, 9)]
  {
    var m := Asked(w.live[copy]);
    assert !Blank("q");
    assert DoTool(SERVICE, w.live[copy], AskHuman(QUESTION), 0) == ToolPass(m, [Save(m, Queued([]))], false);
    ToolStep(w, SERVICE, copy, AskHuman(QUESTION), m);
    var a := Call(SERVICE, copy, AskHuman(QUESTION), 0, 9);
    CameOneMore(acts, w, latest, a);
    more, u := acts + [a], Next(w, a);
  }

  function Replied(s: State): State {
    s.(prompt := None, response := None, reason := NoReason, lifecycle := Running, messages := [TurnMessage(HumanResponse, "y")])
  }

  lemma ReplyStep(acts: seq<Action>, w: World, latest: nat) returns (more: seq<Action>, u: World)
    requires CameTo(acts, w, latest) && Settled(w.disk) && w.disk.tasks == TASKS && w.disk.activatedAt.Some?
    requires w.disk.prompt == Some(QUESTION) && w.disk.lifecycle.Waiting? && w.disk.messages == []
    ensures CameTo(more, u, latest) && u.disk == Replied(w.disk) && u.cycles == w.cycles
  {
    var s, c := w.disk, Respond("p", "y");
    LoadsService(s);
    assert !Blank("y");
    assert [] + Added(HumanResponse, "y") == [TurnMessage(HumanResponse, "y")];
    assert DoPlain(SERVICE, s, c, 0) == Wrote(Replied(s), Queued([TurnMessage(HumanResponse, "y")]));
    PlainStep(w, SERVICE, c, Enter(SERVICE, s, 0), Replied(s), Queued([TurnMessage(HumanResponse, "y")]));
    assert Stamp(Replied(s), 0) == Replied(s) && w.cycles + [] == w.cycles;
    var a := Run(SERVICE, c, 0, 9);
    CameOneMore(acts, w, latest, a);
    more, u := acts + [a], Next(w, a);
  }

  lemma ServiceCreated() returns (acts: seq<Action>, w: World)
    ensures CameTo(acts, w, 0) && w == Fresh(0).(disk := CREATED)
  {
    acts := TemplateCreated(SERVICE);
    w := Execute(Fresh(0), acts);
    assert acts[..0] == [];
  }

  /** In a run of ticks that do not go back and no reset, the minute on disk goes from 2 to 1. */
  lemma MinuteCanGoBack() returns (acts: seq<Action>, before: World, after: World)
    ensures acts != [] && before == Execute(Fresh(0), acts[..|acts| - 1]) && CameTo(acts, after, 2)
    ensures before.disk.lastScheduleMinute == Some(2) && after.disk.lastScheduleMinute == Some(1)
    ensures after.cycles == [1, 2] && after.disk == Asked(Turned(Cycled(CREATED, 1)))
  {
    var w;
    acts, w := ServiceCreated();
    acts, w := TickStep(acts, w, 0, 1);
    CycledSettled(CREATED, 1);
    acts, w := TurnStep(acts, w, 1);
    var first := w.disk;
    acts, w := TickStep(acts, w, 1, 2);
    CycledSettled(first, 2);
    assert w.cycles == [] + [1] + [2];
    before := w;
    var init := acts;
    acts, after := AskStep(acts, w, 2, 0);
    assert acts[..|acts| - 1] == init;
  }

  /** And then the second minute gets a second cycle. */
  lemma TwoCyclesInOneMinute() returns (acts: seq<Action>)
    ensures Ticking(0, acts) && Execute(Fresh(0), acts).cycles == [1, 2, 2]
  {
    var w, before;
    acts, before, w := MinuteCanGoBack();
    CycledSettled(CREATED, 1);
    acts, w := ReplyStep(acts, w, 2);
    acts, w := TurnStep(acts, w, 2);
    acts, w := TickStep(acts, w, 2, 2);
    assert w.cycles == [1, 2] + [2];
  }
}
