/**
 The steps of an automata as functions of the stored record: operator commands,
 schedule ticks, reconcile passes, spec changes and agent tool calls
 (internal/automata/service_commands.go, service_schedule.go, service_state.go, controller.go).
 What the agent API, the run store, the clock and the message builders answer is an argument.
 A step is described by the records it writes, in order, each with what became of the
 pending turn messages; a failing write ends the step after any prefix of them.
 */
module AutomataSteps {
  import opened Text
  import opened AutomataState

  datatype Cause = NewCycle | StateReset | AutomataFinished

  datatype Note =
    | Queued(added: seq<TurnMessage>)                 // appended, nothing removed
    | Handed(text: string)                            // given to the agent session
    | Dropped(cause: Cause, next: seq<TurnMessage>)   // cleared on purpose

  datatype Save = Save(state: State, note: Note)

  /**
   `held` is the record a controller runtime keeps pointing at after the step; `given` are the messages
   whose joined text the agent session accepted, right before the last write.
   */
  datatype Pass = Pass(saves: seq<Save>, held: Option<State>, refused: bool, given: Option<seq<TurnMessage>>)

  datatype ToolPass = ToolPass(memory: State, saves: seq<Save>, refused: bool)

  datatype RunStatus = RunWaiting | RunActive | RunDone(error: string, summary: string)
  datatype RunLookup = LookupError | RunMissing(error: string) | RunFound(status: RunStatus)
  datatype FlushReply = FlushError(error: string) | Flushed(session: string, started: bool)
  datatype CreateReply = CreateError(error: string) | Created(session: string)

  /** A failed enqueue may leave the text in the session all the same (`kept`), which the caller is not told. */
  datatype EnqueueReply =
    | SessionMissing(error: string) | EnqueueError(error: string, kept: bool) | Enqueued(session: string, queued: bool)
  datatype Activity = Activity(working: bool, hasPrompt: bool, hasQueued: bool)

  /** Everything a turn start may be told by the agent API. */
  datatype TurnEnv = TurnEnv(
    optionsError: Option<string>, create: CreateReply, enqueue: EnqueueReply,
    recreate: CreateReply, reenqueue: EnqueueReply, flush: FlushReply)

  datatype ReconcileEnv = ReconcileEnv(
    lookup: RunLookup, turn: TurnEnv, flush: FlushReply, activity: Activity,
    reflection: Option<string>, reflectionWorking: bool, text: string)

  datatype Command =
    | Start(instruction: string, who: Actor, cleanupOk: bool, cycle: string, text: string)
    | Pause
    | Resume(text: string)
    | Respond(promptId: string, text: string)
    | Message(message: string, cleanupOk: bool, cycle: string, text: string)
    | CreateTask(id: string, description: string)
    | UpdateTask(id: string, newDescription: Option<string>, newDone: Option<bool>, text: string)
    | DeleteTask(id: string)
    | ReorderTasks(ids: seq<string>)
    | Reflect(reflection: Option<string>)
    | Reset(cleanupOk: bool)
    | SpecChange(cleanupOk: bool, text: string)
    | Tick(minute: nat, activity: Activity, cleanupOk: bool, cycle: string, text: string)
    | Reconcile(env: ReconcileEnv)

  datatype Tool =
    | RunDag(allowed: bool, startOk: bool, runId: string, cycle: string)
    | Retry(allowed: bool, startOk: bool, runId: string, cycle: string)
    | AskHuman(prompt: Prompt)
    | Finish(summary: string, cycle: string)

  function Stamp(s: State, now: nat): State { s.(lastUpdatedAt := now) }

  function Refuse(saves: seq<Save>): Pass { Pass(saves, None, true, None) }
  function Unchanged(saves: seq<Save>): Pass { Pass(saves, None, false, None) }
  function Write(saves: seq<Save>, s: State, note: Note, now: nat): Pass {
    Pass(saves + [Save(Stamp(s, now), note)], None, false, None)
  }

  // ----- loading

  datatype Entry = Entry(ok: bool, state: State, saves: seq<Save>)

  /**
   Loads the record the way every command does. Empty lists are not written to
   the file, so they come back unset and count as a change.
   */
  function Enter(def: Definition, s: State, now: nat): Entry {
    if !TasksAccepted(s.tasks) || !TemplatesAccepted(s.templates) then Entry(false, s, [])
    else
      var (t, adjusted) := AdjustKind(def, Normalized(s));
      if adjusted || s.tasks == [] || s.templates == [] then
        Entry(true, Stamp(t, now), [Save(Stamp(t, now), Queued([]))])
      else Entry(true, t, [])
  }

  function AdjustKind(def: Definition, s: State): (State, bool) {
    if def.kind.Service? then
      var t := if s.lifecycle.Finished? then s.(lifecycle := Idle, finishedAt := None) else s;
      if t.activatedAt.None? && Active(t.lifecycle) then
        (t.(activatedAt := if t.startRequestedAt.Some? then t.startRequestedAt else Some(t.lastUpdatedAt)), true)
      else (t, s.lifecycle.Finished?)
    else (s.(activatedAt := None, activatedBy := Nobody), s.activatedAt.Some? || s.activatedBy != Nobody)
  }

  // ----- cycles

  function StartWorkflowCycle(s: State, instruction: string, cycle: string, now: nat): State {
    ResetRuntime(s).(
      tasks := TasksOf(s.templates), cycle := cycle, lastTriggeredAt := Some(now),
      lifecycle := Running, instruction := instruction, startRequestedAt := Some(now))
  }

  function StartServiceCycle(s: State, instruction: string, who: Actor, cycle: string, now: nat): State {
    ClearCycle(s).(
      tasks := TasksOf(s.templates), cycle := cycle, lastTriggeredAt := Some(now),
      lifecycle := Running, instruction := instruction, startRequestedAt := Some(now),
      activatedAt := if s.activatedAt.Some? then s.activatedAt else Some(now),
      activatedBy := if s.activatedBy != Nobody then s.activatedBy else who)
  }

  // ----- operator commands, on the loaded record

  datatype Effect = Refused | NoChange | Wrote(state: State, note: Note)

  function DoStart(def: Definition, s: State, c: Command, now: nat): Effect
    requires c.Start?
  {
    if def.kind.Service? then StartService(def, s, c, now) else StartWorkflow(s, c, now)
  }

  function StartService(def: Definition, s: State, c: Command, now: nat): Effect
    requires c.Start?
  {
    var instruction := Trim(def.standingInstruction);
    if Activated(s) || instruction == "" || s.templates == [] || !c.cleanupOk then Refused
    else
      var t := StartServiceCycle(s, instruction, c.who, c.cycle, now)
               .(activatedAt := Some(now), activatedBy := c.who);
      Wrote(Enqueue(t, Kickoff, c.text), Dropped(NewCycle, Added(Kickoff, c.text)))
  }

  function StartWorkflow(s: State, c: Command, now: nat): Effect
    requires c.Start?
  {
    var instruction := if Trim(c.instruction) != "" then Trim(c.instruction) else Trim(s.instruction);
    if Active(s.lifecycle) || instruction == "" || s.templates == [] || !c.cleanupOk then Refused
    else
      var t := StartWorkflowCycle(s, instruction, c.cycle, now);
      Wrote(Enqueue(t, Kickoff, c.text), Dropped(NewCycle, Added(Kickoff, c.text)))
  }

  function DoPause(def: Definition, s: State): Effect {
    if s.lifecycle.Paused? then Refused
    else if def.kind.Service? && !Activated(s) then Refused
    else if def.kind.Workflow? && !Active(s.lifecycle) then Refused
    else Wrote(s.(pausedFrom := Some(s.lifecycle), lifecycle := Paused, reason := NoReason), Queued([]))
  }

  function DoResume(def: Definition, s: State, text: string): Effect {
    var t := s.(pausedFrom := None);
    var quiet := s.run.None? && s.messages == [];
    if !s.lifecycle.Paused? then Refused
    else if s.prompt.Some? then Wrote(t.(lifecycle := Waiting, reason := HumanInput), Queued([]))
    else if def.kind.Service? && s.pausedFrom == Some(Idle) && quiet then
      Wrote(t.(lifecycle := Idle, reason := NoReason), Queued([]))
    else
      var r := t.(lifecycle := Running, reason := NoReason);
      if quiet then Wrote(Enqueue(r, Resumed, text), Queued(Added(Resumed, text)))
      else Wrote(r, Queued([]))
  }

  function DoRespond(s: State, promptId: string, text: string): Effect {
    if s.prompt.None? || promptId == "" || promptId != s.prompt.value.id then Refused
    else
      var t := Enqueue(s, HumanResponse, text).(prompt := None, response := None, reason := NoReason);
      Wrote(if t.lifecycle.Paused? then t else t.(lifecycle := Running), Queued(Added(HumanResponse, text)))
  }

  function DoMessage(def: Definition, s: State, c: Command, now: nat): Effect
    requires c.Message?
  {
    var instruction := Trim(def.standingInstruction);
    var opening := def.kind.Service? && s.lifecycle.Idle?;
    if def.disabled || Blank(c.message) then Refused
    else if def.kind.Service? && (!Activated(s) || s.lifecycle.Paused?) then Refused
    else if opening && (s.templates == [] || instruction == "" || !c.cleanupOk) then Refused
    else if def.kind.Workflow? && !Active(s.lifecycle) then Refused
    else if !opening && s.prompt.Some? then Refused
    else
      var t := if opening then StartServiceCycle(s, instruction, Operator, c.cycle, now) else s;
      var added := Added(OperatorMessage, c.text);
      var u := Enqueue(t, OperatorMessage, c.text);
      Wrote(if !u.lifecycle.Paused? && u.run.None? then u.(lifecycle := Running, reason := NoReason) else u,
            if opening then Dropped(NewCycle, added) else Queued(added))
  }

  // ----- task commands

  function DoCreateTask(s: State, id: string, description: string): Effect {
    if Blank(description) then Refused
    else Wrote(s.(templates := s.templates + [TaskTemplate(id, Trim(description))]), Queued([]))
  }

  function DoUpdateTask(s: State, c: Command): Effect
    requires c.UpdateTask?
  {
    var k := FindId(TemplateIds(s.templates), c.id);
    var j := FindId(TaskIds(s.tasks), c.id);
    if k < 0 || (c.newDescription.None? && c.newDone.None?) then Refused
    else if c.newDescription.Some? && Blank(c.newDescription.value) then Refused
    else if c.newDone.Some? && j < 0 then Refused
    else
      var t := if c.newDescription.Some? then Redescribe(s, k, j, Trim(c.newDescription.value)) else s;
      var toggled := c.newDone.Some? && t.tasks[j].done != c.newDone.value;
      var u := if toggled then t.(tasks := t.tasks[j := t.tasks[j].(done := c.newDone.value)]) else t;
      if u == s then NoChange
      else if toggled && Active(s.lifecycle) then
        Wrote(Enqueue(u, TaskListUpdated, c.text), Queued(Added(TaskListUpdated, c.text)))
      else Wrote(u, Queued([]))
  }

  function Redescribe(s: State, k: int, j: int, description: string): (t: State)
    requires 0 <= k < |s.templates| && -1 <= j < |s.tasks|
    ensures |t.tasks| == |s.tasks|
  {
    s.(templates := s.templates[k := s.templates[k].(description := description)],
       tasks := if j < 0 then s.tasks else s.tasks[j := s.tasks[j].(description := description)])
  }

  function DoDeleteTask(s: State, id: string): Effect {
    var k := FindId(TemplateIds(s.templates), id);
    if k < 0 then Refused
    else Wrote(s.(templates := s.templates[..k] + s.templates[k + 1..]), Queued([]))
  }

  /** The templates named by the ids, in that order; `None` on an empty, repeated or unknown id. */
  function Pick(ts: seq<TaskTemplate>, ids: seq<string>): (r: Option<seq<TaskTemplate>>)
    ensures r.Some? ==> |r.value| == |ids|
  {
    if ids == [] then Some([])
    else
      var rest := Pick(ts, ids[..|ids| - 1]);
      var id := Trim(ids[|ids| - 1]);
      var k := FindId(TemplateIds(ts), id);
      if rest.None? || id == "" || k < 0 || id in TemplateIds(rest.value) then None
      else Some(rest.value + [ts[k]])
  }

  function DoReorder(s: State, ids: seq<string>): Effect {
    var picked := Pick(s.templates, ids);
    if |ids| != |s.templates| || picked.None? then Refused
    else Wrote(s.(templates := picked.value), Queued([]))
  }

  // ----- reflection

  /** A reflection session either started (its id) or the automata is finished at once. */
  function BeginReflection(saves: seq<Save>, s: State, reflection: Option<string>, now: nat): Pass {
    if reflection.Some? then Write(saves, s.(reflectingSession := reflection.value), Queued([]), now)
    else FinishReflection(saves, s, now)
  }

  function FinishReflection(saves: seq<Save>, s: State, now: nat): Pass {
    Write(saves, s.(lifecycle := Finished, reflectingSession := ""), Queued([]), now)
  }

  function DoReflect(e: Entry, reflection: Option<string>, now: nat): Pass {
    if !e.state.lifecycle.Finished? || e.state.session == "" then Refuse(e.saves)
    else
      var t := Stamp(e.state.(lifecycle := Reflecting, reflectingSession := ""), now);
      BeginReflection(e.saves + [Save(t, Queued([]))], t, reflection, now)
  }

  // ----- resets and spec changes

  function DoReset(s: State, cleanupOk: bool, now: nat): Pass {
    if !cleanupOk then Refuse([])
    else Write([], ResetRuntime(s).(lifecycle := Idle), Dropped(StateReset, []), now)
  }

  function DoSpecChange(s: State, cleanupOk: bool, text: string, now: nat): Pass {
    if !cleanupOk then Refuse([])
    else
      var t := s.(session := "", run := None, lastRun := None, cycle := "", prompt := None, response := None,
                  reason := NoReason, lastSummary := "", lastError := NoProblem);
      if (t.lifecycle.Running? || t.lifecycle.Waiting?) && t.messages == [] then
        Write([], Enqueue(t, ConfigUpdated, text).(lifecycle := Running), Queued(Added(ConfigUpdated, text)), now)
      else Write([], t, Queued([]), now)
  }

  // ----- schedule ticks

  predicate DueAt(schedule: seq<iset<nat>>, minute: nat) {
    exists i :: 0 <= i < |schedule| && minute in schedule[i]
  }

  predicate Busy(s: State, activity: Activity) {
    s.prompt.Some? || s.run.Some? || s.messages != [] ||
    (s.session != "" && (activity.working || activity.hasPrompt || activity.hasQueued))
  }

  function DoTick(def: Definition, s: State, c: Command, now: nat): Effect
    requires c.Tick?
  {
    var t := s.(lastScheduleMinute := Some(c.minute));
    var instruction := Trim(def.standingInstruction);
    if s.lifecycle.Paused? || s.lastScheduleMinute == Some(c.minute) || !DueAt(def.schedule, c.minute) then NoChange
    else if instruction == "" then
      Wrote(t.(lastError := ScheduleNeedsInstruction), Queued([]))
    else if s.templates == [] then
      Wrote(t.(lastError := ScheduleNeedsTemplates), Queued([]))
    else if Busy(s, c.activity) then Wrote(t, Queued([]))
    else if !c.cleanupOk then Refused
    else
      var u := StartServiceCycle(t, instruction, Schedule, c.cycle, now);
      Wrote(Enqueue(u, ScheduledTick, c.text), Dropped(NewCycle, Added(ScheduledTick, c.text)))
  }

  // ----- reconcile passes

  /** `accepted` says whether the session took the text, whatever went wrong afterwards. */
  datatype Turn = Turn(state: State, note: Note, held: bool, accepted: bool)

  function TurnError(s: State, error: string, held: bool, accepted: bool): Turn {
    Turn(s.(lastError := Problem(error)), Queued([]), held, accepted)
  }

  /** Asks the session to start a queued follow-up; the flag says whether the record changed. */
  function FlushSession(s: State, reply: FlushReply, now: nat): (State, bool)
    requires reply.Flushed?
  {
    if s.session == "" then (s, false) else
    var moved := reply.session != "" && reply.session != s.session;
    var t := if moved then s.(session := reply.session) else s;
    if reply.started then (t.(lastTriggeredAt := Some(now), lifecycle := Running, reason := NoReason), true)
    else (t, moved)
  }

  datatype Opened = OpenFailed(state: State, error: string, kept: bool) | Opened(state: State, queued: bool)

  /** Finds or creates the agent session and enqueues the text, once more if the session is gone. */
  function OpenSession(s: State, env: TurnEnv): Opened {
    if s.session == "" && env.create.CreateError? then OpenFailed(s, env.create.error, false)
    else
      var t := if s.session == "" then s.(session := env.create.session) else s;
      if !env.enqueue.SessionMissing? then TakeReply(t, env.enqueue)
      else if env.recreate.CreateError? then OpenFailed(t, env.recreate.error, false)
      else TakeReply(t.(session := env.recreate.session), env.reenqueue)
  }

  function TakeReply(s: State, reply: EnqueueReply): Opened {
    if !reply.Enqueued? then OpenFailed(s, reply.error, reply.EnqueueError? && reply.kept)
    else Opened(if reply.session != "" then s.(session := reply.session) else s, reply.queued)
  }

  function StartTurn(s: State, env: TurnEnv, now: nat): Turn {
    if env.optionsError.Some? then TurnError(s, env.optionsError.value, false, false)
    else
      match OpenSession(s, env)
      case OpenFailed(t, error, kept) => TurnError(t, error, true, kept)
      case Opened(t, queued) => FinishTurn(t, queued, env.flush, now)
  }

  function FinishTurn(s: State, queued: bool, flush: FlushReply, now: nat): Turn {
    if queued && s.session != "" && flush.FlushError? then TurnError(s, flush.error, true, true)
    else
      var t := if queued && flush.Flushed? then FlushSession(s, flush, now).0 else s;
      Turn(t.(lastError := NoProblem, lifecycle := Running, messages := [], startRequestedAt := None,
              lastTriggeredAt := Some(now), reason := NoReason),
           Handed(PendingText(s.messages)), true, true)
  }

  function FlushMessages(saves: seq<Save>, s: State, env: TurnEnv, now: nat): Pass {
    if s.messages == [] then Unchanged(saves)
    else
      var turn := StartTurn(s, env, now);
      var t := Stamp(turn.state, now);
      Pass(saves + [Save(t, turn.note)], if turn.held then Some(t) else None, false,
           if turn.accepted then Some(s.messages) else None)
  }

  function ReconcileRun(saves: seq<Save>, s: State, env: ReconcileEnv, now: nat): Pass
    requires s.run.Some?
  {
    match env.lookup
    case LookupError => Refuse(saves)
    case RunMissing(error) =>
      var t := s.(lastError := Problem(error), lastRun := s.run, run := None, lifecycle := Running, reason := NoReason);
      EndRun(saves, t, ChildRunMissing, env, now)
    case RunFound(RunWaiting) =>
      if s.lifecycle.Waiting? && s.reason.DagWait? then Unchanged(saves)
      else Write(saves, s.(lifecycle := Waiting, reason := DagWait), Queued([]), now)
    case RunFound(RunActive) =>
      if s.lifecycle.Running? then Unchanged(saves)
      else Write(saves, s.(lifecycle := Running, reason := NoReason), Queued([]), now)
    case RunFound(RunDone(error, summary)) =>
      var t := s.(lastRun := s.run, run := None, lifecycle := Running, reason := NoReason,
                  lastSummary := summary, lastError := if error == "" then NoProblem else Problem(error));
      EndRun(saves, t, ChildRunComplete, env, now)
  }

  function EndRun(saves: seq<Save>, s: State, kind: MessageKind, env: ReconcileEnv, now: nat): Pass {
    var t := Stamp(Enqueue(s, kind, env.text), now);
    FlushMessages(saves + [Save(t, Queued(Added(kind, env.text)))], t, env.turn, now)
  }

  function ReconcileReflection(saves: seq<Save>, s: State, env: ReconcileEnv, now: nat): Pass {
    if s.reflectingSession == "" then BeginReflection(saves, s, env.reflection, now)
    else if env.reflectionWorking then Unchanged(saves)
    else FinishReflection(saves, s, now)
  }

  function DoReconcile(def: Definition, e: Entry, env: ReconcileEnv, now: nat): Pass {
    if def.disabled || e.state.lifecycle.Paused? then Unchanged(e.saves)
    else if e.state.lifecycle.Reflecting? then ReconcileReflection(e.saves, e.state, env, now)
    else if e.state.prompt.Some? && e.state.response.Some? then ReconcileAnswered(e.saves, e.state, env, now)
    else ReconcileActive(e.saves, e.state, env, now)
  }

  /** A prompt with a stored response becomes a turn message. */
  function ReconcileAnswered(saves: seq<Save>, s: State, env: ReconcileEnv, now: nat): Pass {
    var t := Stamp(Enqueue(s, HumanResponse, env.text)
                   .(prompt := None, response := None, lifecycle := Running, reason := NoReason), now);
    ReconcileActive(saves + [Save(t, Queued(Added(HumanResponse, env.text)))], t, env, now)
  }

  function ReconcileActive(saves: seq<Save>, s: State, env: ReconcileEnv, now: nat): Pass {
    if s.run.Some? then ReconcileRun(saves, s, env, now)
    else if s.prompt.Some? then
      if s.lifecycle.Waiting? && s.reason.HumanInput? then Unchanged(saves)
      else Write(saves, s.(lifecycle := Waiting, reason := HumanInput), Queued([]), now)
    else if !s.lifecycle.Running? then Unchanged(saves)
    else if s.messages != [] then FlushMessages(saves, s, env.turn, now)
    else if s.session != "" && env.flush.FlushError? then
      Write(saves, s.(lastError := Problem(env.flush.error)), Queued([]), now)
    else
      var (t, changed) := if env.flush.Flushed? then FlushSession(s, env.flush, now) else (s, false);
      if changed then Write(saves, t.(lastError := NoProblem), Queued([]), now)
      else if s.session == "" || (!env.activity.working && !env.activity.hasPrompt) then
        Write(saves, t.(lifecycle := Idle, reason := NoReason), Queued([]), now)
      else Unchanged(saves)
  }

  /** Commands that end before the record is loaded. */
  predicate Skipped(def: Definition, c: Command) {
    (c.Start? && def.disabled) || (c.Tick? && (def.disabled || def.kind.Workflow? || def.schedule == []))
  }

  /** The writes of any command, tick, spec change or reconcile pass on the stored record. */
  function Do(def: Definition, s: State, c: Command, now: nat): Pass {
    if c.Reset? then DoReset(s, c.cleanupOk, now)
    else if c.SpecChange? then DoSpecChange(s, c.cleanupOk, c.text, now)
    else if Skipped(def, c) then Pass([], None, c.Start?, None)
    else
      var e := Enter(def, s, now);
      if e.ok then DoEntered(def, e, c, now) else Refuse(e.saves)
  }

  function DoEntered(def: Definition, e: Entry, c: Command, now: nat): Pass
    requires !c.Reset? && !c.SpecChange?
  {
    if c.Reflect? then DoReflect(e, c.reflection, now)
    else if c.Reconcile? then DoReconcile(def, e, c.env, now)
    else
      match DoPlain(def, e.state, c, now)
      case Refused => Refuse(e.saves)
      case NoChange => Unchanged(e.saves)
      case Wrote(state, note) => Write(e.saves, state, note, now)
  }

  predicate Plain(c: Command) { !c.Reset? && !c.SpecChange? && !c.Reflect? && !c.Reconcile? }

  /** The commands that write at most one record after loading. */
  function DoPlain(def: Definition, s: State, c: Command, now: nat): Effect
    requires Plain(c)
  {
    match c
    case Start(_, _, _, _, _) => DoStart(def, s, c, now)
    case Pause => DoPause(def, s)
    case Resume(text) => DoResume(def, s, text)
    case Respond(promptId, text) => DoRespond(s, promptId, text)
    case Message(_, _, _, _) => DoMessage(def, s, c, now)
    case CreateTask(id, description) => DoCreateTask(s, id, description)
    case UpdateTask(_, _, _, _) => DoUpdateTask(s, c)
    case DeleteTask(id) => DoDeleteTask(s, id)
    case ReorderTasks(ids) => DoReorder(s, ids)
    case Tick(_, _, _, _, _) => DoTick(def, s, c, now)
  }

  // ----- agent tool calls, made on the record a controller runtime holds

  function DoRunDag(m: State, allowed: bool, startOk: bool, runId: string, cycle: string, now: nat): ToolPass {
    if m.run.Some? || m.prompt.Some? || !allowed then ToolPass(m, [], true)
    else
      var t := if m.cycle == "" then m.(cycle := cycle) else m;
      if !startOk then ToolPass(t, [], true)
      else
        var u := Stamp(t.(run := Some(runId), lifecycle := Running, reason := NoReason), now);
        ToolPass(u, [Save(u, Queued([]))], false)
  }

  function DoAskHuman(m: State, prompt: Prompt, now: nat): ToolPass {
    if Blank(prompt.question) || m.run.Some? || m.prompt.Some? then ToolPass(m, [], true)
    else
      var u := Stamp(m.(prompt := Some(prompt), response := None, lifecycle := Waiting, reason := HumanInput), now);
      ToolPass(u, [Save(u, Queued([]))], false)
  }

  function DoFinish(def: Definition, m: State, summary: string, cycle: string, now: nat): ToolPass {
    if def.kind.Service? || m.run.Some? then ToolPass(m, [], true)
    else
      var u := Stamp(m.(reason := NoReason, prompt := None, response := None, messages := [], run := None,
                        cycle := if m.cycle == "" then cycle else m.cycle, finishedAt := Some(now),
                        lastSummary := summary,
                        lifecycle := if def.reflectOnFinish then Reflecting else Finished), now);
      ToolPass(u, [Save(u, Dropped(AutomataFinished, []))], false)
  }

  function DoTool(def: Definition, m: State, tool: Tool, now: nat): ToolPass {
    match tool
    case RunDag(allowed, startOk, runId, cycle) => DoRunDag(m, allowed, startOk, runId, cycle, now)
    case Retry(allowed, startOk, runId, cycle) =>
      if m.lastRun.None? then ToolPass(m, [], true) else DoRunDag(m, allowed, startOk, runId, cycle, now)
    case AskHuman(prompt) => DoAskHuman(m, prompt, now)
    case Finish(summary, cycle) => DoFinish(def, m, summary, cycle, now)
  }
}
