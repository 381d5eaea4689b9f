/**
 What holds of every record an automata can reach: the lifecycle invariant, the
 fate of every queued turn message, and the shape of the task lists.
 */
module AutomataSafety {
  import opened Text
  import opened AutomataState
  import opened AutomataSteps

  /** The note of a write tells the truth about the pending messages. */
  ghost predicate Lawful(before: State, save: Save) {
    match save.note
    case Queued(added) => save.state.messages == before.messages + added
    case Handed(text) => before.messages != [] && save.state.messages == [] && text == PendingText(before.messages)
    case Dropped(_, next) => save.state.messages == next
  }

  /** The record on disk after the first `k` writes. */
  function Committed(s: State, saves: seq<Save>, k: nat): State {
    if k == 0 || saves == [] then s
    else if k < |saves| then saves[k - 1].state
    else saves[|saves| - 1].state
  }

  /** Every write keeps the invariant and accounts for the messages. */
  ghost predicate Chain(s: State, saves: seq<Save>) {
    forall i {:trigger saves[i]} :: 0 <= i < |saves| ==>
      Inv(saves[i].state) && Lawful(Committed(s, saves, i), saves[i])
  }

  ghost predicate Sound(s: State, p: Pass) {
    Chain(s, p.saves) && (p.held.Some? ==> Inv(p.held.value))
  }

  lemma ChainExtend(s: State, saves: seq<Save>, save: Save)
    requires Chain(s, saves) && Inv(save.state) && Lawful(Committed(s, saves, |saves|), save)
    ensures Chain(s, saves + [save])
  {
    var all := saves + [save];
    forall i {:trigger all[i]} | 0 <= i < |all|
      ensures Inv(all[i].state) && Lawful(Committed(s, all, i), all[i])
    {
      assert Committed(s, all, i) == Committed(s, saves, i);
      if i < |saves| { assert all[i] == saves[i]; }
    }
  }

  /** A pass that has reached `t` may end with one more lawful write. */
  lemma WriteSound(s: State, saves: seq<Save>, t: State, u: State, note: Note, now: nat)
    requires Chain(s, saves) && t.messages == Committed(s, saves, |saves|).messages
    requires Inv(u) && Lawful(t, Save(Stamp(u, now), note))
    ensures Sound(s, Write(saves, u, note, now))
  {
    ChainExtend(s, saves, Save(Stamp(u, now), note));
  }

  /** What loading the record leaves a command to start from. */
  ghost predicate Entered(s: State, e: Entry) {
    && Chain(s, e.saves) && Inv(e.state)
    && e.state.messages == Committed(s, e.saves, |e.saves|).messages
  }

  lemma AdjustKindSound(def: Definition, s: State)
    requires Inv(s)
    ensures var t := AdjustKind(def, s).0;
      Inv(t) && t.messages == s.messages && (Caused(s) ==> Caused(t))
  {
  }

  lemma EnterSound(def: Definition, s: State, now: nat)
    requires Inv(s)
    ensures var e := Enter(def, s, now);
      Entered(s, e) && |e.saves| <= 1 && e.state.messages == s.messages && (Caused(s) ==> Caused(e.state))
  {
    var t := Normalized(s);
    assert Inv(t) && t.messages == s.messages;
    AdjustKindSound(def, t);
    var save := Save(Stamp(AdjustKind(def, t).0, now), Queued([]));
    assert Inv(save.state);
    ChainExtend(s, [], save);
    assert [] + [save] == [save];
  }

  /** A turn start either keeps all pending messages or hands over exactly their joined text. */
  ghost predicate TurnSound(s: State, turn: Turn) {
    && Inv(turn.state) && turn.state.lifecycle.Running? && turn.state.run.None? && turn.state.prompt.None?
    && ((turn.note == Queued([]) && turn.state.messages == s.messages) ||
        (turn.note == Handed(PendingText(s.messages)) && turn.state.messages == [] && turn.held && turn.accepted))
  }

  /**
   The session has the text, but the record keeps the messages: the enqueue failed with the text kept, or the
   follow-up could not be flushed.
   */
  predicate HalfHanded(s: State, env: TurnEnv) {
    env.optionsError.None? &&
    var o := OpenSession(s, env);
    if o.OpenFailed? then o.kept else o.queued && o.state.session != "" && env.flush.FlushError?
  }

  lemma OpenSessionKeeps(s: State, env: TurnEnv)
    ensures OpenSession(s, env).state == s.(session := OpenSession(s, env).state.session)
  {
  }

  lemma StartTurnSound(s: State, env: TurnEnv, now: nat)
    requires Inv(s) && s.lifecycle.Running? && s.run.None? && s.prompt.None?
    ensures TurnSound(s, StartTurn(s, env, now))
    ensures var turn := StartTurn(s, env, now);
      turn.accepted && turn.note == Queued([]) <==> HalfHanded(s, env)
  {
    OpenSessionKeeps(s, env);
  }

  lemma FlushMessagesSound(s: State, saves: seq<Save>, t: State, env: TurnEnv, now: nat)
    requires Chain(s, saves) && t.messages == Committed(s, saves, |saves|).messages
    requires Inv(t) && t.lifecycle.Running? && t.run.None? && t.prompt.None?
    ensures Sound(s, FlushMessages(saves, t, env, now))
  {
    if t.messages != [] {
      StartTurnSound(t, env, now);
      var turn := StartTurn(t, env, now);
      ChainExtend(s, saves, Save(Stamp(turn.state, now), turn.note));
    }
  }

  lemma EndRunSound(s: State, saves: seq<Save>, t: State, kind: MessageKind, env: ReconcileEnv, now: nat)
    requires Chain(s, saves) && t.messages == Committed(s, saves, |saves|).messages
    requires Inv(t) && t.lifecycle.Running? && t.run.None? && t.prompt.None?
    ensures Sound(s, EndRun(saves, t, kind, env, now))
  {
    var u := Stamp(Enqueue(t, kind, env.text), now);
    var save := Save(u, Queued(Added(kind, env.text)));
    ChainExtend(s, saves, save);
    FlushMessagesSound(s, saves + [save], u, env.turn, now);
  }

  lemma ReconcileActiveSound(s: State, saves: seq<Save>, t: State, env: ReconcileEnv, now: nat)
    requires Chain(s, saves) && t.messages == Committed(s, saves, |saves|).messages
    requires Inv(t) && !t.lifecycle.Paused?
    ensures Sound(s, ReconcileActive(saves, t, env, now))
  {
    if t.run.Some? {
      match env.lookup {
        case RunMissing(error) =>
          EndRunSound(s, saves, t.(lastError := Problem(error), lastRun := t.run, run := None, lifecycle := Running,
                                   reason := NoReason),
                      ChildRunMissing, env, now);
        case RunFound(RunDone(error, summary)) =>
          EndRunSound(s, saves, t.(lastRun := t.run, run := None, lifecycle := Running, reason := NoReason,
                                   lastSummary := summary, lastError := if error == "" then NoProblem else Problem(error)),
                      ChildRunComplete, env, now);
        case LookupError =>
        case RunFound(RunWaiting) =>
          WriteSound(s, saves, t, t.(lifecycle := Waiting, reason := DagWait), Queued([]), now);
        case RunFound(RunActive) =>
          WriteSound(s, saves, t, t.(lifecycle := Running, reason := NoReason), Queued([]), now);
      }
    } else if t.prompt.None? && t.lifecycle.Running? {
      if t.messages != [] {
        FlushMessagesSound(s, saves, t, env.turn, now);
      } else {
        WriteSound(s, saves, t, t.(lastError := if env.flush.FlushError? then Problem(env.flush.error) else NoProblem),
                   Queued([]), now);
        var (u, changed) := if env.flush.Flushed? then FlushSession(t, env.flush, now) else (t, false);
        WriteSound(s, saves, t, u.(lastError := NoProblem), Queued([]), now);
        WriteSound(s, saves, t, u.(lifecycle := Idle, reason := NoReason), Queued([]), now);
      }
    }
  }

  lemma ReconcileSound(def: Definition, s: State, e: Entry, env: ReconcileEnv, now: nat)
    requires Entered(s, e)
    ensures Sound(s, DoReconcile(def, e, env, now))
  {
    if !e.state.lifecycle.Paused? {
      if e.state.lifecycle.Reflecting? {
        ReflectionSound(s, e.saves, e.state, env.reflection, now);
      } else {
        ReconcileActiveSound(s, e.saves, e.state, env, now);
      }
    }
  }

  lemma ReflectionSound(s: State, saves: seq<Save>, t: State, reflection: Option<string>, now: nat)
    requires Chain(s, saves) && t.messages == Committed(s, saves, |saves|).messages
    requires Inv(t) && t.lifecycle.Reflecting?
    ensures Sound(s, BeginReflection(saves, t, reflection, now)) && Sound(s, FinishReflection(saves, t, now))
  {
    WriteSound(s, saves, t, t.(lifecycle := Finished, reflectingSession := ""), Queued([]), now);
    if reflection.Some? {
      WriteSound(s, saves, t, t.(reflectingSession := reflection.value), Queued([]), now);
    }
  }

  lemma EnteredSound(def: Definition, s: State, e: Entry, c: Command, now: nat)
    requires Entered(s, e) && !c.Reset? && !c.SpecChange?
    ensures Sound(s, DoEntered(def, e, c, now))
  {
    if c.Reflect? {
      ReflectSound(s, e, c.reflection, now);
    } else if c.Reconcile? {
      ReconcileSound(def, s, e, c.env, now);
    } else {
      PlainSound(def, e.state, c, now);
      var effect := DoPlain(def, e.state, c, now);
      if effect.Wrote? { WriteSound(s, e.saves, e.state, effect.state, effect.note, now); }
    }
  }

  lemma ResetSound(s: State, cleanupOk: bool, text: string, now: nat)
    requires Inv(s)
    ensures Sound(s, DoReset(s, cleanupOk, now)) && Sound(s, DoSpecChange(s, cleanupOk, text, now))
  {
  }

  /** Every command, tick, spec change and reconcile pass is sound, whatever the definition in force. */
  lemma CommandSound(def: Definition, s: State, c: Command, now: nat)
    requires Inv(s)
    ensures Sound(s, Do(def, s, c, now))
  {
    if c.Reset? {
      ResetSound(s, c.cleanupOk, "", now);
    } else if c.SpecChange? {
      ResetSound(s, c.cleanupOk, c.text, now);
    } else if !Skipped(def, c) {
      EnterSound(def, s, now);
      EnteredSound(def, s, Enter(def, s, now), c, now);
    }
  }

  ghost predicate EffectSound(s: State, effect: Effect, now: nat) {
    effect.Wrote? ==> Inv(effect.state) && Lawful(s, Save(Stamp(effect.state, now), effect.note))
  }

  lemma PlainSound(def: Definition, s: State, c: Command, now: nat)
    requires Inv(s) && Plain(c)
    ensures EffectSound(s, DoPlain(def, s, c, now), now)
  {
    if c.Tick? {
      TickSound(def, s, c, now);
    } else if c.UpdateTask? {
      UpdateTaskSound(s, c, now);
    } else if c.CreateTask? || c.DeleteTask? || c.ReorderTasks? {
      TaskCommandSound(def, s, c, now);
    } else {
      ControlSound(def, s, c, now);
    }
  }

  lemma TickSound(def: Definition, s: State, c: Command, now: nat)
    requires Inv(s) && c.Tick?
    ensures EffectSound(s, DoTick(def, s, c, now), now)
  {
  }

  lemma UpdateTaskSound(s: State, c: Command, now: nat)
    requires Inv(s) && c.UpdateTask?
    ensures EffectSound(s, DoUpdateTask(s, c), now)
  {
  }

  lemma TaskCommandSound(def: Definition, s: State, c: Command, now: nat)
    requires Inv(s) && (c.CreateTask? || c.DeleteTask? || c.ReorderTasks?)
    ensures EffectSound(s, DoPlain(def, s, c, now), now)
  {
  }

  lemma ControlSound(def: Definition, s: State, c: Command, now: nat)
    requires Inv(s) && (c.Start? || c.Message? || c.Pause? || c.Resume? || c.Respond?)
    ensures EffectSound(s, DoPlain(def, s, c, now), now)
  {
  }

  lemma ReflectSound(s: State, e: Entry, reflection: Option<string>, now: nat)
    requires Entered(s, e)
    ensures Sound(s, DoReflect(e, reflection, now))
  {
    if e.state.lifecycle.Finished? {
      var t := Stamp(e.state.(lifecycle := Reflecting, reflectingSession := ""), now);
      ChainExtend(s, e.saves, Save(t, Queued([])));
      ReflectionSound(s, e.saves + [Save(t, Queued([]))], t, reflection, now);
    }
  }

  lemma ToolSound(def: Definition, m: State, tool: Tool, now: nat)
    requires Inv(m)
    ensures var p := DoTool(def, m, tool, now);
      Inv(p.memory) && Chain(m, p.saves) && |p.saves| <= 1 && (p.saves != [] ==> p.saves[0].state == p.memory)
  {
  }

  // ----- what the agent session is given

  ghost predicate NoneHanded(saves: seq<Save>) {
    forall i :: 0 <= i < |saves| ==> !saves[i].note.Handed?
  }

  /** The session is given exactly the messages pending before the last write, and only that write hands over. */
  ghost predicate GivesPending(s: State, p: Pass) {
    && (p.given.Some? ==>
          && p.saves != [] && p.given.value != []
          && p.given.value == Committed(s, p.saves, |p.saves| - 1).messages
          && (p.saves[|p.saves| - 1].note == Handed(PendingText(p.given.value)) || p.saves[|p.saves| - 1].note == Queued([])))
    && (forall i :: 0 <= i < |p.saves| && p.saves[i].note.Handed? ==> i == |p.saves| - 1 && p.given.Some?)
  }

  lemma FlushGives(s: State, saves: seq<Save>, t: State, env: TurnEnv, now: nat)
    requires NoneHanded(saves) && t.messages == Committed(s, saves, |saves|).messages
    requires Inv(t) && t.lifecycle.Running? && t.run.None? && t.prompt.None?
    ensures GivesPending(s, FlushMessages(saves, t, env, now))
  {
    StartTurnSound(t, env, now);
    if t.messages != [] {
      var p := FlushMessages(saves, t, env, now);
      assert Committed(s, p.saves, |saves|) == Committed(s, saves, |saves|);
    }
  }

  lemma EndRunGives(s: State, saves: seq<Save>, t: State, kind: MessageKind, env: ReconcileEnv, now: nat)
    requires NoneHanded(saves)
    requires Inv(t) && t.lifecycle.Running? && t.run.None? && t.prompt.None?
    ensures GivesPending(s, EndRun(saves, t, kind, env, now))
  {
    var u := Stamp(Enqueue(t, kind, env.text), now);
    FlushGives(s, saves + [Save(u, Queued(Added(kind, env.text)))], u, env.turn, now);
  }

  lemma WriteGives(s: State, saves: seq<Save>, t: State, note: Note, now: nat)
    requires NoneHanded(saves) && !note.Handed?
    ensures GivesPending(s, Write(saves, t, note, now))
  {
  }

  lemma RunGives(s: State, saves: seq<Save>, t: State, env: ReconcileEnv, now: nat)
    requires NoneHanded(saves) && Inv(t) && t.run.Some?
    ensures GivesPending(s, ReconcileRun(saves, t, env, now))
  {
    var r := t.(lastRun := t.run, run := None, lifecycle := Running, reason := NoReason);
    if env.lookup.RunMissing? {
      EndRunGives(s, saves, r.(lastError := Problem(env.lookup.error)), ChildRunMissing, env, now);
    } else if env.lookup.RunFound? && env.lookup.status.RunDone? {
      var error := env.lookup.status.error;
      EndRunGives(s, saves, r.(lastSummary := env.lookup.status.summary,
                               lastError := if error == "" then NoProblem else Problem(error)), ChildRunComplete, env, now);
    }
  }

  lemma ReconcileGives(def: Definition, s: State, e: Entry, env: ReconcileEnv, now: nat)
    requires NoneHanded(e.saves) && Inv(e.state) && e.state.messages == Committed(s, e.saves, |e.saves|).messages
    ensures GivesPending(s, DoReconcile(def, e, env, now))
  {
    var t := e.state;
    if t.run.Some? {
      RunGives(s, e.saves, t, env, now);
    } else if t.prompt.None? && t.lifecycle.Running? {
      FlushGives(s, e.saves, t, env.turn, now);
    }
  }

  lemma PlainNotHanded(def: Definition, s: State, c: Command, now: nat)
    requires Plain(c)
    ensures var effect := DoPlain(def, s, c, now); effect.Wrote? ==> !effect.note.Handed?
  {
  }

  lemma ReflectGives(s: State, e: Entry, reflection: Option<string>, now: nat)
    requires NoneHanded(e.saves)
    ensures GivesPending(s, DoReflect(e, reflection, now))
  {
  }

  lemma EnterHandsNothing(def: Definition, s: State, now: nat)
    ensures NoneHanded(Enter(def, s, now).saves)
  {
  }

  lemma EnteredGives(def: Definition, s: State, e: Entry, c: Command, now: nat)
    requires !c.Reset? && !c.SpecChange?
    requires NoneHanded(e.saves) && Inv(e.state) && e.state.messages == Committed(s, e.saves, |e.saves|).messages
    ensures GivesPending(s, DoEntered(def, e, c, now))
  {
    if c.Reflect? {
      ReflectGives(s, e, c.reflection, now);
    } else if c.Reconcile? {
      ReconcileGives(def, s, e, c.env, now);
    } else {
      PlainNotHanded(def, e.state, c, now);
      var effect := DoPlain(def, e.state, c, now);
      if effect.Wrote? { WriteGives(s, e.saves, effect.state, effect.note, now); }
    }
  }

  /** Every step gives the session what was pending, if anything. */
  lemma CommandGives(def: Definition, s: State, c: Command, now: nat)
    requires Inv(s)
    ensures GivesPending(s, Do(def, s, c, now))
  {
    if !c.Reset? && !c.SpecChange? && !Skipped(def, c) {
      EnterSound(def, s, now);
      EnterHandsNothing(def, s, now);
      EnteredGives(def, s, Enter(def, s, now), c, now);
    }
  }
}
