/**
 The automata service as it runs: methods that load the stored record, change it field by field and save it
 (internal/automata/service_commands.go, service_schedule.go, service_state.go, controller.go).
 `writes` is the number of saves that succeed during a call. A ghost log of the calls ties the object to the
 runs of AutomataRuns: the stored record and the held copies are always those of the run that was logged, so
 whatever holds of every run holds of the object.
 */
module AutomataService {
  import opened Text
  import opened AutomataState
  import opened AutomataSteps
  import opened AutomataSafety
  import opened AutomataRuns
  import opened AutomataEdits
  import opened AutomataPasses

  class Service {
    var disk: State
    var live: seq<State>
    ghost const start: nat
    ghost var log: seq<Action>
    ghost var world: World

    /** The run that was logged, whatever the fields hold in the middle of a call. */
    ghost predicate Logged()
      reads this
    {
      world == Execute(Fresh(start), log) && WorldInv(world)
    }

    ghost predicate Valid()
      reads this
    {
      Logged() && world.disk == disk && world.live == live
    }

    /** The call was the action `a`, and the fields are those of the world that `a` leads to. */
    twostate predicate Took(a: Action)
      reads this
    {
      Valid() && log == old(log) + [a] && world == Next(old(world), a)
    }

    /** The call was the command `c`; it fails if it is refused or if one of its writes fails. */
    twostate predicate Ran(def: Definition, c: Command, now: nat, writes: nat, err: bool)
      reads this
    {
      Took(Run(def, c, now, writes)) && err == Fails(Do(def, old(disk), c, now), writes)
    }

    /** The call was a tool call on a held copy. */
    twostate predicate Called(def: Definition, copy: nat, tool: Tool, now: nat, writes: nat, err: bool)
      requires copy < |old(live)|
      reads this
    {
      Took(Call(def, copy, tool, now, writes)) && err == ToolFails(DoTool(def, old(live[copy]), tool, now), writes)
    }

    constructor (now: nat)
      ensures Valid() && start == now && log == [] && world == Fresh(now)
    {
      disk, live := InitialState(now), [];
      start, log, world := now, [], Fresh(now);
    }

    /** Logs the action that a call is about to perform. */
    ghost method Log(a: Action)
      requires Logged()
      modifies this`log, this`world
      ensures Logged() && log == old(log) + [a] && world == Next(old(world), a)
    {
      ExecuteOneMore(Fresh(start), log, a);
      NextKeepsInv(world, a);
      log, world := log + [a], Next(world, a);
    }

    method SaveState(s: State, now: nat, writes: nat) returns (err: bool)
      modifies this`disk
      ensures err == (writes == 0)
      ensures disk == if err then old(disk) else Stamp(s, now)
    {
      if writes == 0 { return true; }
      disk := s.(lastUpdatedAt := now);
      err := false;
    }

    method EnsureState(def: Definition, now: nat, writes: nat) returns (err: bool, s: State, left: nat)
      modifies this`disk
      ensures var e := Enter(def, old(disk), now);
        && err == (!e.ok || writes < |e.saves|)
        && disk == Committed(old(disk), e.saves, writes)
        && (!err ==> s == e.state && left == writes - |e.saves|)
    {
      s, left := disk, writes;
      var ok, templates := NormalizePersistedTaskTemplates(s.templates);
      if !ok { return true, s, left; }
      var tasks;
      ok, tasks := NormalizePersistedTasks(s.tasks);
      if !ok { return true, s, left; }
      s := s.(templates := templates);
      s := s.(tasks := tasks);
      var changed := s.tasks == [] || s.templates == [];
      if s.templates == [] && s.tasks != [] {
        templates := CloneTaskTemplatesFromTasks(s.tasks);
        s := s.(templates := templates);
      }
      assert s == Normalized(disk);
      if def.kind.Service? {
        if s.lifecycle.Finished? {
          s := s.(lifecycle := Idle, finishedAt := None);
          changed := true;
        }
        if s.activatedAt.None? && Active(s.lifecycle) {
          s := s.(activatedAt := if s.startRequestedAt.Some? then s.startRequestedAt else Some(s.lastUpdatedAt));
          changed := true;
        }
      } else if s.activatedAt.Some? || s.activatedBy != Nobody {
        s := s.(activatedAt := None, activatedBy := Nobody);
        changed := true;
      }
      err := false;
      if changed {
        err := SaveState(s, now, writes);
        if !err { s, left := Stamp(s, now), writes - 1; }
      }
    }

    /** Loads the record for a plain command and says where the command is then heading. */
    method Load(def: Definition, c: Command, now: nat, writes: nat) returns (err: bool, s: State, left: nat)
      requires Valid() && Plain(c) && !Skipped(def, c)
      modifies this`disk, this`log, this`world
      ensures Logged() && log == old(log) + [Run(def, c, now, writes)]
      ensures world == Next(old(world), Run(def, c, now, writes)) && world.live == live
      ensures var fails := Fails(Do(def, old(disk), c, now), writes);
        if err then disk == world.disk && fails
        else Heading(DoPlain(def, s, c, now), disk, now, left, world.disk, fails)
    {
      RunWrites(world, def, c, now, writes);
      PlainOutcome(def, disk, c, now, writes);
      Log(Run(def, c, now, writes));
      err, s, left := EnsureState(def, now, writes);
    }

    /** A command that ends before the record is loaded is an action too. */
    ghost method Skip(def: Definition, c: Command, now: nat, writes: nat)
      requires Valid() && Skipped(def, c)
      modifies this`log, this`world
      ensures Ran(def, c, now, writes, c.Start?)
    {
      RunWrites(world, def, c, now, writes);
      Log(Run(def, c, now, writes));
    }

    method Pause(def: Definition, now: nat, writes: nat) returns (err: bool)
      requires Valid()
      modifies this`disk, this`log, this`world
      ensures Ran(def, Command.Pause, now, writes, err)
    {
      var s, left;
      err, s, left := Load(def, Command.Pause, now, writes);
      if err { return; }
      if s.lifecycle.Paused? { return true; }
      if def.kind.Service? {
        if !Activated(s) { return true; }
      } else if !s.lifecycle.Running? && !s.lifecycle.Waiting? {
        return true;
      }
      s := s.(pausedFrom := Some(s.lifecycle));
      s := s.(lifecycle := Paused);
      s := s.(reason := NoReason);
      err := SaveState(s, now, left);
    }

    method Resume(def: Definition, text: string, now: nat, writes: nat) returns (err: bool)
      requires Valid()
      modifies this`disk, this`log, this`world
      ensures Ran(def, Command.Resume(text), now, writes, err)
    {
      var s, left;
      err, s, left := Load(def, Command.Resume(text), now, writes);
      if err { return; }
      if !s.lifecycle.Paused? { return true; }
      var pausedFrom := s.pausedFrom;
      s := s.(pausedFrom := None);
      if s.prompt.Some? {
        s := s.(lifecycle := Waiting);
        s := s.(reason := HumanInput);
        err := SaveState(s, now, left);
        return;
      }
      if def.kind.Service? && pausedFrom == Some(Idle) && s.run.None? && s.messages == [] {
        s := s.(lifecycle := Idle);
        s := s.(reason := NoReason);
        err := SaveState(s, now, left);
        return;
      }
      s := s.(lifecycle := Running);
      s := s.(reason := NoReason);
      if s.run.None? && s.messages == [] {
        s := QueueTurnMessage(s, Resumed, text);
      }
      err := SaveState(s, now, left);
    }

    method RequestStart(def: Definition, instruction: string, who: Actor, cleanupOk: bool, cycle: string, text: string,
                        now: nat, writes: nat) returns (err: bool)
      requires Valid()
      modifies this`disk, this`log, this`world
      ensures Ran(def, Start(instruction, who, cleanupOk, cycle, text), now, writes, err)
    {
      if def.disabled {
        Skip(def, Start(instruction, who, cleanupOk, cycle, text), now, writes);
        return true;
      }
      var s, left;
      err, s, left := Load(def, Start(instruction, who, cleanupOk, cycle, text), now, writes);
      if err { return; }
      if def.kind.Service? {
        if Activated(s) { return true; }
        var standing := Trim(def.standingInstruction);
        if standing == "" || s.templates == [] || !cleanupOk { return true; }
        s := OpenServiceCycle(s, standing, who, cycle, now);
        s := s.(activatedAt := Some(now));
        s := s.(activatedBy := who);
      } else {
        if Active(s.lifecycle) { return true; }
        var wanted := Trim(instruction);
        if wanted == "" { wanted := Trim(s.instruction); }
        if wanted == "" || s.templates == [] || !cleanupOk { return true; }
        s := OpenWorkflowCycle(s, wanted, cycle, now);
      }
      s := QueueTurnMessage(s, Kickoff, text);
      err := SaveState(s, now, left);
    }

    method SubmitHumanResponse(def: Definition, promptId: string, text: string, now: nat, writes: nat) returns (err: bool)
      requires Valid()
      modifies this`disk, this`log, this`world
      ensures Ran(def, Respond(promptId, text), now, writes, err)
    {
      var s, left;
      err, s, left := Load(def, Respond(promptId, text), now, writes);
      if err { return; }
      if s.prompt.None? || promptId == "" || promptId != s.prompt.value.id { return true; }
      var paused := s.lifecycle.Paused?;
      s := QueueTurnMessage(s, HumanResponse, text);
      s := s.(prompt := None);
      s := s.(response := None);
      if paused {
        s := s.(reason := NoReason);
      } else {
        s := s.(lifecycle := Running);
        s := s.(reason := NoReason);
      }
      err := SaveState(s, now, left);
    }

    method SubmitOperatorMessage(def: Definition, message: string, cleanupOk: bool, cycle: string, text: string,
                                 now: nat, writes: nat) returns (err: bool)
      requires Valid()
      modifies this`disk, this`log, this`world
      ensures Ran(def, Message(message, cleanupOk, cycle, text), now, writes, err)
    {
      var s, left;
      err, s, left := Load(def, Message(message, cleanupOk, cycle, text), now, writes);
      if err { return; }
      if def.disabled || Blank(message) { return true; }
      if def.kind.Service? {
        if !Activated(s) || s.lifecycle.Paused? { return true; }
        if s.lifecycle.Idle? {
          if s.templates == [] { return true; }
          var standing := Trim(def.standingInstruction);
          if standing == "" || !cleanupOk { return true; }
          s := OpenServiceCycle(s, standing, Operator, cycle, now);
        }
      } else if !Active(s.lifecycle) {
        return true;
      }
      if s.prompt.Some? { return true; }
      s := QueueTurnMessage(s, OperatorMessage, text);
      if !s.lifecycle.Paused? && s.run.None? {
        s := s.(lifecycle := Running);
        s := s.(reason := NoReason);
      }
      err := SaveState(s, now, left);
    }

    method CreateTask(def: Definition, id: string, text: string, now: nat, writes: nat) returns (err: bool)
      requires Valid()
      modifies this`disk, this`log, this`world
      ensures Ran(def, Command.CreateTask(id, text), now, writes, err)
    {
      var s, left;
      err, s, left := Load(def, Command.CreateTask(id, text), now, writes);
      if err { return; }
      var description := Trim(text);
      if description == "" { return true; }
      s := s.(templates := s.templates + [TaskTemplate(id, description)]);
      err := SaveState(s, now, left);
    }

    method UpdateTask(def: Definition, id: string, newDescription: Option<string>, newDone: Option<bool>, text: string,
                      now: nat, writes: nat) returns (err: bool)
      requires Valid()
      modifies this`disk, this`log, this`world
      ensures Ran(def, Command.UpdateTask(id, newDescription, newDone, text), now, writes, err)
    {
      var s, left;
      err, s, left := Load(def, Command.UpdateTask(id, newDescription, newDone, text), now, writes);
      if err { return; }
      PlainUpdate(def, s, Command.UpdateTask(id, newDescription, newDone, text), now);
      var changed, t;
      err, changed, t := EditTask(s, id, newDescription, newDone, text);
      if err || !changed { return; }
      err := SaveState(t, now, left);
    }

    method DeleteTask(def: Definition, id: string, now: nat, writes: nat) returns (err: bool)
      requires Valid()
      modifies this`disk, this`log, this`world
      ensures Ran(def, Command.DeleteTask(id), now, writes, err)
    {
      var s, left;
      err, s, left := Load(def, Command.DeleteTask(id), now, writes);
      if err { return; }
      PlainDelete(def, s, id, now);
      var k := FindTaskTemplateIndex(s.templates, id);
      if k < 0 { return true; }
      s := s.(templates := s.templates[..k] + s.templates[k + 1..]);
      err := SaveState(s, now, left);
    }

    method RequestReflect(def: Definition, reflection: Option<string>, now: nat, writes: nat) returns (err: bool)
      requires Valid()
      modifies this`disk, this`log, this`world
      ensures Ran(def, Reflect(reflection), now, writes, err)
    {
      RunWrites(world, def, Reflect(reflection), now, writes);
      ReflectHoldsNothing(def, disk, reflection, now);
      Log(Run(def, Reflect(reflection), now, writes));
      err := ReflectStored(def, reflection, now, writes);
    }

    method ReflectStored(def: Definition, reflection: Option<string>, now: nat, writes: nat) returns (err: bool)
      modifies this`disk
      ensures Did(Do(def, old(disk), Reflect(reflection), now), old(disk), live, writes, err)
    {
      ghost var disk0, e := disk, Enter(def, disk, now);
      EntrySaves(def, disk, now);
      ReflectIs(def, disk, reflection, now);
      var s, left;
      err, s, left := EnsureState(def, now, writes);
      if !err {
        err := ReflectLoaded(s, reflection, now, left, disk0, e, writes);
      } else if e.ok {
        ReflectStops(disk0, e, reflection, now, writes);
      }
    }

    /** The two writes of a reflection once the record is loaded. */
    method ReflectLoaded(loaded: State, reflection: Option<string>, now: nat, left: nat,
                         ghost disk0: State, ghost e: Entry, ghost writes: nat) returns (err: bool)
      requires loaded == e.state && |e.saves| <= 1 && writes == left + |e.saves| && disk == Committed(disk0, e.saves, |e.saves|)
      modifies this`disk
      ensures Did(DoReflect(e, reflection, now), disk0, live, writes, err)
    {
      var s := loaded;
      if !s.lifecycle.Finished? || s.session == "" {
        ReflectStops(disk0, e, reflection, now, writes);
        return true;
      }
      s := s.(lifecycle := Reflecting);
      s := s.(reflectingSession := "");
      err := SaveState(s, now, left);
      if err { return; }
      s := Stamp(s, now);
      if reflection.Some? {
        s := s.(reflectingSession := reflection.value);
      } else {
        s := s.(lifecycle := Finished);
        s := s.(reflectingSession := "");
      }
      err := SaveState(s, now, left - 1);
    }

    method ReorderTasks(def: Definition, ids: seq<string>, now: nat, writes: nat) returns (err: bool)
      requires Valid()
      modifies this`disk, this`log, this`world
      ensures Ran(def, Command.ReorderTasks(ids), now, writes, err)
    {
      var s, left;
      err, s, left := Load(def, Command.ReorderTasks(ids), now, writes);
      if err { return; }
      if |ids| != |s.templates| { return true; }
      var picked := PickTemplates(s.templates, ids);
      if picked.None? { return true; }
      s := s.(templates := picked.value);
      err := SaveState(s, now, left);
    }

    method HandleTick(def: Definition, minute: nat, activity: Activity, cleanupOk: bool, cycle: string, text: string,
                      now: nat, writes: nat) returns (err: bool)
      requires Valid()
      modifies this`disk, this`log, this`world
      ensures Ran(def, Tick(minute, activity, cleanupOk, cycle, text), now, writes, err)
    {
      ghost var c := Tick(minute, activity, cleanupOk, cycle, text);
      if def.disabled || !def.kind.Service? || def.schedule == [] {
        Skip(def, c, now, writes);
        return false;
      }
      var s, left;
      err, s, left := Load(def, Tick(minute, activity, cleanupOk, cycle, text), now, writes);
      if err { return; }
      PlainTick(def, s, c, now);
      var changed, t;
      err, changed, t := TickRecord(def, s, minute, activity, cleanupOk, cycle, text, now);
      if err || !changed { return; }
      err := SaveState(t, now, left);
    }

    method ResetState(def: Definition, cleanupOk: bool, now: nat, writes: nat) returns (err: bool)
      requires Valid()
      modifies this`disk, this`log, this`world
      ensures Ran(def, Reset(cleanupOk), now, writes, err)
    {
      RunWrites(world, def, Reset(cleanupOk), now, writes);
      Log(Run(def, Reset(cleanupOk), now, writes));
      if !cleanupOk { return true; }
      var s := ResetRuntimeState(disk);
      s := s.(lifecycle := Idle);
      s := s.(reason := NoReason);
      err := SaveState(s, now, writes);
    }

    method ResetForSpecChange(def: Definition, cleanupOk: bool, text: string, now: nat, writes: nat) returns (err: bool)
      requires Valid()
      modifies this`disk, this`log, this`world
      ensures Ran(def, SpecChange(cleanupOk, text), now, writes, err)
    {
      RunWrites(world, def, SpecChange(cleanupOk, text), now, writes);
      Log(Run(def, SpecChange(cleanupOk, text), now, writes));
      if !cleanupOk { return true; }
      var s := disk;
      s := s.(session := "");
      s := s.(run := None);
      s := s.(lastRun := None);
      s := s.(cycle := "");
      s := s.(prompt := None);
      s := s.(response := None);
      s := s.(reason := NoReason);
      s := s.(lastSummary := "");
      s := s.(lastError := NoProblem);
      if (s.lifecycle.Running? || s.lifecycle.Waiting?) && s.messages == [] {
        s := QueueTurnMessage(s, ConfigUpdated, text);
        s := s.(lifecycle := Running);
      }
      err := SaveState(s, now, writes);
    }

    /** Starts a turn with the pending messages; `t` is what the controller runtime then points at. */
    method BeginTurn(s: State, env: TurnEnv, now: nat, writes: nat) returns (err: bool, t: State)
      modifies this`disk, this`live
      ensures var turn := StartTurn(s, env, now);
        && t == Stamp(turn.state, now)
        && disk == (if writes == 0 then old(disk) else t)
        && live == (if turn.held then old(live) + [t] else old(live))
        && err == (writes == 0)
    {
      t := s;
      if env.optionsError.Some? {
        t := t.(lastError := Problem(env.optionsError.value));
        err := SaveState(t, now, writes);
        return err, Stamp(t, now);
      }
      var queued, error;
      t, queued, error := ReachSession(s, env);
      if error.None? && queued && t.session != "" {
        if env.flush.FlushError? {
          error := Some(env.flush.error);
        } else {
          var changed;
          t, changed := FlushQueuedSessionTurn(t, env.flush, now);
        }
      }
      if error.Some? {
        t := t.(lastError := Problem(error.value));
      } else {
        t := t.(lastError := NoProblem);
        t := t.(lifecycle := Running);
        t := t.(messages := []);
        t := t.(startRequestedAt := None);
        t := t.(lastTriggeredAt := Some(now));
        t := t.(reason := NoReason);
      }
      err := SaveState(t, now, writes);
      t := Stamp(t, now);
      live := live + [t];
    }

    /** Hands the pending messages over, if there are any. */
    method FlushPending(s: State, env: TurnEnv, now: nat, writes: nat) returns (err: bool)
      modifies this`disk, this`live
      ensures Did(FlushMessages([], s, env, now), old(disk), old(live), writes, err)
    {
      if s.messages == [] { return false; }
      var t;
      err, t := BeginTurn(s, env, now, writes);
    }

    ghost predicate Did(p: Pass, disk0: State, live0: seq<State>, writes: nat, err: bool)
      reads this`disk, this`live
    {
      Outcome(p, disk0, live0, writes, disk, live, err)
    }

    method ReconcileCurrentRun(s: State, env: ReconcileEnv, now: nat, writes: nat) returns (err: bool)
      requires s.run.Some?
      modifies this`disk, this`live
      ensures Did(ReconcileRun([], s, env, now), old(disk), old(live), writes, err)
    {
      var t := s;
      match env.lookup {
        case LookupError => return true;
        case RunMissing(error) =>
          t := t.(lastError := Problem(error));
          t := t.(lastRun := t.run);
          t := t.(run := None);
          t := t.(lifecycle := Running);
          t := t.(reason := NoReason);
          err := FinishRun(t, ChildRunMissing, env, now, writes);
        case RunFound(status) =>
          match status {
            case RunWaiting =>
              if t.lifecycle.Waiting? && t.reason.DagWait? { return false; }
              t := t.(lifecycle := Waiting);
              t := t.(reason := DagWait);
              err := SaveState(t, now, writes);
            case RunActive =>
              if t.lifecycle.Running? { return false; }
              t := t.(lifecycle := Running);
              t := t.(reason := NoReason);
              err := SaveState(t, now, writes);
            case RunDone(error, summary) =>
              t := t.(lastRun := t.run);
              t := t.(run := None);
              t := t.(lifecycle := Running);
              t := t.(reason := NoReason);
              t := t.(lastSummary := summary);
              t := t.(lastError := if error == "" then NoProblem else Problem(error));
              err := FinishRun(t, ChildRunComplete, env, now, writes);
          }
      }
    }

    method FinishRun(s: State, kind: MessageKind, env: ReconcileEnv, now: nat, writes: nat) returns (err: bool)
      modifies this`disk, this`live
      ensures Did(EndRun([], s, kind, env, now), old(disk), old(live), writes, err)
    {
      var t := QueueTurnMessage(s, kind, env.text);
      err := SaveState(t, now, writes);
      if err { return; }
      err := FlushPending(Stamp(t, now), env.turn, now, writes - 1);
      FlushPrefix([Save(Stamp(t, now), Queued(Added(kind, env.text)))], Stamp(t, now), env.turn, now);
    }

    /** A reconcile pass over an automata that is neither paused nor reflecting. */
    method ReconcileLoaded(s: State, env: ReconcileEnv, now: nat, writes: nat) returns (err: bool)
      modifies this`disk, this`live
      ensures Did(ReconcileActive([], s, env, now), old(disk), old(live), writes, err)
    {
      if s.run.Some? {
        err := ReconcileCurrentRun(s, env, now, writes);
        return;
      }
      var t := s;
      if t.prompt.Some? {
        if t.lifecycle.Waiting? && t.reason.HumanInput? { return false; }
        t := t.(lifecycle := Waiting);
        t := t.(reason := HumanInput);
        err := SaveState(t, now, writes);
        return;
      }
      if !t.lifecycle.Running? { return false; }
      if t.messages != [] {
        err := FlushPending(t, env.turn, now, writes);
        return;
      }
      var flushed := false;
      if t.session != "" {
        if env.flush.FlushError? {
          t := t.(lastError := Problem(env.flush.error));
          err := SaveState(t, now, writes);
          return;
        }
        t, flushed := FlushQueuedSessionTurn(t, env.flush, now);
      }
      if flushed {
        t := t.(lastError := NoProblem);
        err := SaveState(t, now, writes);
        return;
      }
      if t.session == "" || (!env.activity.working && !env.activity.hasPrompt) {
        t := t.(lifecycle := Idle);
        t := t.(reason := NoReason);
        err := SaveState(t, now, writes);
        return;
      }
      return false;
    }

    /** One reconcile pass over a definition. */
    method ReconcileDefinition(def: Definition, env: ReconcileEnv, now: nat, writes: nat) returns (err: bool)
      requires Valid()
      modifies this
      ensures Ran(def, Reconcile(env), now, writes, err)
    {
      RunWrites(world, def, Reconcile(env), now, writes);
      Log(Run(def, Reconcile(env), now, writes));
      err := ReconcileStored(def, env, now, writes);
    }

    method ReconcileStored(def: Definition, env: ReconcileEnv, now: nat, writes: nat) returns (err: bool)
      modifies this`disk, this`live
      ensures Did(Do(def, old(disk), Reconcile(env), now), old(disk), old(live), writes, err)
    {
      ghost var disk0, e := disk, Enter(def, disk, now);
      EntrySaves(def, disk, now);
      ReconcileIs(def, disk, env, now);
      var s, left;
      err, s, left := EnsureState(def, now, writes);
      if !err {
        err := ReconcileOnto(def, s, env, now, left, disk0, e, writes);
      } else if e.ok {
        ReconcileStops(def, disk0, e, env, now, writes, live);
      }
    }

    /** The pass once the record is loaded, told as a pass that began with the saves of loading. */
    method ReconcileOnto(def: Definition, s: State, env: ReconcileEnv, now: nat, left: nat,
                         ghost disk0: State, ghost e: Entry, ghost writes: nat) returns (err: bool)
      requires s == e.state && |e.saves| <= 1 && writes == left + |e.saves| && disk == Committed(disk0, e.saves, |e.saves|)
      modifies this`disk, this`live
      ensures Did(DoReconcile(def, e, env, now), disk0, old(live), writes, err)
    {
      if def.disabled || s.lifecycle.Paused? { return false; }
      if s.lifecycle.Reflecting? {
        err := ReflectingFrom(s, env, now, left, disk0, e, writes);
      } else if s.prompt.Some? && s.response.Some? {
        err := AnsweredFrom(s, env, now, left, disk0, e, writes);
      } else {
        err := ActiveFrom(s, env, now, left, disk0, e, writes);
      }
    }

    method ReflectingFrom(s: State, env: ReconcileEnv, now: nat, left: nat, ghost disk0: State, ghost e: Entry, ghost writes: nat)
      returns (err: bool)
      requires s == e.state && |e.saves| <= 1 && writes == left + |e.saves| && disk == Committed(disk0, e.saves, |e.saves|)
      requires s.lifecycle.Reflecting?
      modifies this`disk
      ensures Did(ReconcileReflection(e.saves, s, env, now), disk0, old(live), writes, err)
    {
      ghost var live0 := live;
      err := ReconcileReflecting(s, env, now, left);
      ReflectingOnto(disk0, e, env, now, writes, live0, disk, live, err);
    }

    method AnsweredFrom(s: State, env: ReconcileEnv, now: nat, left: nat, ghost disk0: State, ghost e: Entry, ghost writes: nat)
      returns (err: bool)
      requires s == e.state && |e.saves| <= 1 && writes == left + |e.saves| && disk == Committed(disk0, e.saves, |e.saves|)
      modifies this`disk, this`live
      ensures Did(ReconcileAnswered(e.saves, s, env, now), disk0, old(live), writes, err)
    {
      ghost var live0 := live;
      err := ReconcileResponse(s, env, now, left);
      AnsweredOnto(disk0, e, env, now, writes, live0, disk, live, err);
    }

    method ActiveFrom(s: State, env: ReconcileEnv, now: nat, left: nat, ghost disk0: State, ghost e: Entry, ghost writes: nat)
      returns (err: bool)
      requires s == e.state && |e.saves| <= 1 && writes == left + |e.saves| && disk == Committed(disk0, e.saves, |e.saves|)
      modifies this`disk, this`live
      ensures Did(ReconcileActive(e.saves, s, env, now), disk0, old(live), writes, err)
    {
      ghost var live0 := live;
      err := ReconcileLoaded(s, env, now, left);
      ActiveOnto(disk0, e, env, now, writes, live0, disk, live, err);
    }

    method ReconcileResponse(s: State, env: ReconcileEnv, now: nat, writes: nat) returns (err: bool)
      modifies this`disk, this`live
      ensures Did(ReconcileAnswered([], s, env, now), old(disk), old(live), writes, err)
    {
      var t := QueueTurnMessage(s, HumanResponse, env.text);
      t := t.(prompt := None);
      t := t.(response := None);
      t := t.(lifecycle := Running);
      t := t.(reason := NoReason);
      err := SaveState(t, now, writes);
      t := Stamp(t, now);
      ghost var one := AnsweredIs(s, t, env, now);
      if err { return; }
      LaterWrites(old(disk), one, ReconcileActive([], t, env, now).saves, writes);
      err := ReconcileLoaded(t, env, now, writes - 1);
    }

    method ReconcileReflecting(s: State, env: ReconcileEnv, now: nat, writes: nat) returns (err: bool)
      requires s.lifecycle.Reflecting?
      modifies this`disk
      ensures Did(ReconcileReflection([], s, env, now), old(disk), old(live), writes, err)
    {
      var t := s;
      if t.reflectingSession == "" && env.reflection.Some? {
        t := t.(reflectingSession := env.reflection.value);
        err := SaveState(t, now, writes);
        return;
      }
      if t.reflectingSession != "" && env.reflectionWorking { return false; }
      t := t.(lifecycle := Finished);
      t := t.(reflectingSession := "");
      err := SaveState(t, now, writes);
    }

    // ----- agent tool calls, on the record the runtime numbered `copy` points at

    method RunAllowedDag(def: Definition, copy: nat, allowed: bool, startOk: bool, runId: string, cycle: string,
                         now: nat, writes: nat) returns (err: bool)
      requires Valid() && copy < |live|
      modifies this
      ensures Called(def, copy, RunDag(allowed, startOk, runId, cycle), now, writes, err)
    {
      CallWrites(world, def, copy, RunDag(allowed, startOk, runId, cycle), now, writes);
      Log(Call(def, copy, RunDag(allowed, startOk, runId, cycle), now, writes));
      err := StartRun(copy, allowed, startOk, runId, cycle, now, writes);
    }

    method RetryCurrentRun(def: Definition, copy: nat, allowed: bool, startOk: bool, runId: string, cycle: string,
                           now: nat, writes: nat) returns (err: bool)
      requires Valid() && copy < |live|
      modifies this
      ensures Called(def, copy, Retry(allowed, startOk, runId, cycle), now, writes, err)
    {
      CallWrites(world, def, copy, Retry(allowed, startOk, runId, cycle), now, writes);
      Log(Call(def, copy, Retry(allowed, startOk, runId, cycle), now, writes));
      if live[copy].lastRun.None? { return true; }
      err := StartRun(copy, allowed, startOk, runId, cycle, now, writes);
    }

    method StartRun(copy: nat, allowed: bool, startOk: bool, runId: string, cycle: string, now: nat, writes: nat)
      returns (err: bool)
      requires copy < |live|
      modifies this`disk, this`live
      ensures ToolDid(DoRunDag(old(live[copy]), allowed, startOk, runId, cycle, now), old(disk), old(live), copy, writes, err)
    {
      if live[copy].run.Some? || live[copy].prompt.Some? || !allowed { return true; }
      if live[copy].cycle == "" {
        live := live[copy := live[copy].(cycle := cycle)];
      }
      if !startOk { return true; }
      live := live[copy := live[copy].(run := Some(runId))];
      live := live[copy := live[copy].(lifecycle := Running)];
      live := live[copy := live[copy].(reason := NoReason)];
      err := SaveCopy(copy, now, writes);
    }

    method RequestHumanInput(def: Definition, copy: nat, prompt: Prompt, now: nat, writes: nat) returns (err: bool)
      requires Valid() && copy < |live|
      modifies this
      ensures Called(def, copy, AskHuman(prompt), now, writes, err)
    {
      CallWrites(world, def, copy, AskHuman(prompt), now, writes);
      Log(Call(def, copy, AskHuman(prompt), now, writes));
      err := AskCopy(copy, prompt, now, writes);
    }

    method AskCopy(copy: nat, prompt: Prompt, now: nat, writes: nat) returns (err: bool)
      requires copy < |live|
      modifies this`disk, this`live
      ensures ToolDid(DoAskHuman(old(live[copy]), prompt, now), old(disk), old(live), copy, writes, err)
    {
      if Trim(prompt.question) == "" || live[copy].run.Some? || live[copy].prompt.Some? { return true; }
      live := live[copy := live[copy].(prompt := Some(prompt))];
      live := live[copy := live[copy].(response := None)];
      live := live[copy := live[copy].(lifecycle := Waiting)];
      live := live[copy := live[copy].(reason := HumanInput)];
      err := SaveCopy(copy, now, writes);
    }

    method FinishAutomata(def: Definition, copy: nat, summary: string, cycle: string, now: nat, writes: nat) returns (err: bool)
      requires Valid() && copy < |live|
      modifies this
      ensures Called(def, copy, Finish(summary, cycle), now, writes, err)
    {
      CallWrites(world, def, copy, Finish(summary, cycle), now, writes);
      Log(Call(def, copy, Finish(summary, cycle), now, writes));
      err := FinishCopy(def, copy, summary, cycle, now, writes);
    }

    method FinishCopy(def: Definition, copy: nat, summary: string, cycle: string, now: nat, writes: nat) returns (err: bool)
      requires copy < |live|
      modifies this`disk, this`live
      ensures ToolDid(DoFinish(def, old(live[copy]), summary, cycle, now), old(disk), old(live), copy, writes, err)
    {
      if def.kind.Service? || live[copy].run.Some? { return true; }
      live := live[copy := live[copy].(reason := NoReason)];
      live := live[copy := live[copy].(prompt := None)];
      live := live[copy := live[copy].(response := None)];
      live := live[copy := live[copy].(messages := [])];
      live := live[copy := live[copy].(run := None)];
      if live[copy].cycle == "" {
        live := live[copy := live[copy].(cycle := cycle)];
      }
      live := live[copy := live[copy].(finishedAt := Some(now))];
      live := live[copy := live[copy].(lastSummary := summary)];
      live := live[copy := live[copy].(lifecycle := if def.reflectOnFinish then Reflecting else Finished)];
      err := SaveCopy(copy, now, writes);
    }

    method SaveCopy(copy: nat, now: nat, writes: nat) returns (err: bool)
      requires copy < |live|
      modifies this`disk, this`live
      ensures live == old(live)[copy := Stamp(old(live[copy]), now)]
      ensures err == (writes == 0) && disk == if err then old(disk) else live[copy]
    {
      live := live[copy := live[copy].(lastUpdatedAt := now)];
      err := SaveState(live[copy], now, writes);
    }

    ghost predicate ToolDid(p: ToolPass, disk0: State, live0: seq<State>, copy: nat, writes: nat, err: bool)
      requires copy < |live0|
      reads this`disk, this`live
    {
      live == live0[copy := p.memory] && disk == Committed(disk0, p.saves, writes) && err == ToolFails(p, writes)
    }
  }

  /** While no runtime saves an outdated copy, the service holds every message that was queued and not removed. */
  lemma ServiceLosesNothing(service: Service)
    requires service.Valid() && AlwaysUpToDate(Fresh(service.start), service.log)
    ensures Inv(service.disk)
    ensures service.world.ledger.removed + service.disk.messages == service.world.ledger.queued
  {
    RunBalancedIffUpToDate(service.start, service.log);
  }
}
