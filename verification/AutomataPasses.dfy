/**
 What a step comes to when some of its writes fail: the record on disk, the copies held by runtimes, and
 whether the caller sees an error. A pass after loading is the pass on the loaded record, later.
 */
module AutomataPasses {
  import opened Text
  import opened AutomataState
  import opened AutomataSteps
  import opened AutomataSafety
  import opened AutomataRuns

  /** The caller sees an error: the step was refused, or one of its writes failed. */
  predicate Fails(p: Pass, writes: nat) { p.refused || writes < |p.saves| }

  predicate ToolFails(p: ToolPass, writes: nat) { p.refused || writes < |p.saves| }

  /** The effect of a pass of which `writes` saves succeed, and the error its caller sees. */
  ghost predicate Outcome(p: Pass, disk: State, live: seq<State>, writes: nat, disk': State, live': seq<State>, err: bool) {
    && disk' == Committed(disk, p.saves, writes)
    && live' == (if p.held.Some? && Reached(p, writes) then live + [p.held.value] else live)
    && err == Fails(p, writes)
  }

  // ----- plain commands

  /** Where a plain command is heading once its record is loaded, with `left` writes to go. */
  ghost predicate Heading(effect: Effect, disk: State, now: nat, left: nat, goal: State, fails: bool) {
    if effect.Wrote? then goal == (if left > 0 then Stamp(effect.state, now) else disk) && fails == (left == 0)
    else goal == disk && fails == effect.Refused?
  }

  /** A plain command comes to nothing more if loading fails; otherwise its own write counts. */
  lemma PlainOutcome(def: Definition, s: State, c: Command, now: nat, writes: nat)
    requires Plain(c) && !Skipped(def, c)
    ensures var p, e := Do(def, s, c, now), Enter(def, s, now);
      && p.held.None?
      && (!e.ok || writes < |e.saves| ==>
            Fails(p, writes) && Committed(s, p.saves, writes) == Committed(s, e.saves, writes))
      && (e.ok && writes >= |e.saves| ==>
            Heading(DoPlain(def, e.state, c, now), Committed(s, e.saves, writes), now, writes - |e.saves|,
                    Committed(s, p.saves, writes), Fails(p, writes)))
  {
    EntrySaves(def, s, now);
    var e := Enter(def, s, now);
    if e.ok { PlainWrites(def, e, c, now); }
  }

  lemma PlainWrites(def: Definition, e: Entry, c: Command, now: nat)
    requires Plain(c)
    ensures var p, effect := DoEntered(def, e, c, now), DoPlain(def, e.state, c, now);
      && p.held.None? && p.refused == effect.Refused?
      && p.saves == e.saves + (if effect.Wrote? then [Save(Stamp(effect.state, now), effect.note)] else [])
  {
  }

  lemma PlainTick(def: Definition, s: State, c: Command, now: nat)
    requires c.Tick?
    ensures DoPlain(def, s, c, now) == DoTick(def, s, c, now)
  {
  }

  lemma PlainUpdate(def: Definition, s: State, c: Command, now: nat)
    requires c.UpdateTask?
    ensures DoPlain(def, s, c, now) == DoUpdateTask(s, c)
  {
  }

  lemma PlainDelete(def: Definition, s: State, id: string, now: nat)
    ensures DoPlain(def, s, Command.DeleteTask(id), now) == DoDeleteTask(s, id)
  {
  }

  lemma ReflectIs(def: Definition, s: State, reflection: Option<string>, now: nat)
    ensures var e := Enter(def, s, now);
      Do(def, s, Reflect(reflection), now) == if e.ok then DoReflect(e, reflection, now) else Refuse(e.saves)
  {
  }

  /** A reflection that is refused, or that does not get past its loading. */
  lemma ReflectStops(s: State, e: Entry, reflection: Option<string>, now: nat, writes: nat)
    requires |e.saves| <= 1 && (writes < |e.saves| || !e.state.lifecycle.Finished? || e.state.session == "")
    ensures var p := DoReflect(e, reflection, now);
      p.held.None? && Fails(p, writes) && Committed(s, p.saves, writes) == Committed(s, e.saves, writes)
  {
  }

  lemma ReflectHoldsNothing(def: Definition, s: State, reflection: Option<string>, now: nat)
    ensures Do(def, s, Reflect(reflection), now).held.None?
  {
  }

  // ----- the step of a world, told as writes

  lemma RunWrites(w: World, def: Definition, c: Command, now: nat, writes: nat)
    ensures var p, v := Do(def, w.disk, c, now), Next(w, Run(def, c, now, writes));
      && v.disk == Committed(w.disk, p.saves, writes)
      && v.live == (if p.held.Some? && Reached(p, writes) then w.live + [p.held.value] else w.live)
  {
    var p := Do(def, w.disk, c, now);
    DoneCommitted(w.disk, p.saves, writes);
  }

  lemma DoneCommitted(s: State, saves: seq<Save>, writes: nat)
    ensures var k := Min(writes, |saves|); Committed(s, saves[..k], |saves[..k]|) == Committed(s, saves, writes)
  {
  }

  lemma CallWrites(w: World, def: Definition, copy: nat, tool: Tool, now: nat, writes: nat)
    requires copy < |w.live|
    ensures var p, v := DoTool(def, w.live[copy], tool, now), Next(w, Call(def, copy, tool, now, writes));
      v.disk == Committed(w.disk, p.saves, writes) && v.live == w.live[copy := p.memory]
  {
    ToolSavesOnce(def, w.live[copy], tool, now);
  }

  lemma ToolSavesOnce(def: Definition, m: State, tool: Tool, now: nat)
    ensures |DoTool(def, m, tool, now).saves| <= 1
  {
  }

  // ----- reconcile passes

  /** Writes beyond a first stretch of saves count from where that stretch ended. */
  lemma LaterWrites(s: State, a: seq<Save>, b: seq<Save>, k: nat)
    requires k >= |a|
    ensures Committed(s, a + b, k) == Committed(Committed(s, a, |a|), b, k - |a|)
  {
    assert b == [] ==> a + b == a;
    assert a == [] ==> a + b == b;
  }

  lemma ActivePrefix(saves: seq<Save>, s: State, env: ReconcileEnv, now: nat)
    ensures var p, q := ReconcileActive(saves, s, env, now), ReconcileActive([], s, env, now);
      p.saves == saves + q.saves && p.held == q.held && p.refused == q.refused
  {
    if s.run.Some? {
      RunPrefix(saves, s, env, now);
    } else {
      FlushPrefix(saves, s, env.turn, now);
    }
  }

  lemma AnsweredIs(s: State, t: State, env: ReconcileEnv, now: nat) returns (one: seq<Save>)
    requires t == Stamp(Enqueue(s, HumanResponse, env.text)
                        .(prompt := None, response := None, lifecycle := Running, reason := NoReason), now)
    ensures one == [Save(t, Queued(Added(HumanResponse, env.text)))]
    ensures var p, q := ReconcileAnswered([], s, env, now), ReconcileActive([], t, env, now);
      p.saves == one + q.saves && p.held == q.held && p.refused == q.refused && HoldsAfterWrite(q, 0)
  {
    one := [Save(t, Queued(Added(HumanResponse, env.text)))];
    assert [] + one == one;
    ActivePrefix([] + one, t, env, now);
    ActiveHolds([], t, env, now);
  }

  lemma AnsweredPrefix(saves: seq<Save>, s: State, env: ReconcileEnv, now: nat)
    ensures var p, q := ReconcileAnswered(saves, s, env, now), ReconcileAnswered([], s, env, now);
      p.saves == saves + q.saves && p.held == q.held && p.refused == q.refused
  {
    var t := Stamp(Enqueue(s, HumanResponse, env.text)
                   .(prompt := None, response := None, lifecycle := Running, reason := NoReason), now);
    var one := AnsweredIs(s, t, env, now);
    ActivePrefix(saves + one, t, env, now);
    SavesAssoc(saves, one, ReconcileActive([], t, env, now).saves);
  }

  lemma SavesAssoc(a: seq<Save>, b: seq<Save>, c: seq<Save>)
    ensures a + b + c == a + (b + c)
  {
  }

  lemma ReconcilePrefix(def: Definition, e: Entry, env: ReconcileEnv, now: nat)
    ensures var p, q := DoReconcile(def, e, env, now), DoReconcile(def, Entry(true, e.state, []), env, now);
      p.saves == e.saves + q.saves && p.held == q.held && p.refused == q.refused
  {
    if e.state.prompt.Some? && e.state.response.Some? {
      AnsweredPrefix(e.saves, e.state, env, now);
    } else {
      ActivePrefix(e.saves, e.state, env, now);
    }
  }

  /** A runtime keeps the record only after a further write. */
  ghost predicate HoldsAfterWrite(p: Pass, before: nat) { p.held.Some? ==> |p.saves| > before }

  lemma FlushHolds(saves: seq<Save>, s: State, env: TurnEnv, now: nat)
    ensures HoldsAfterWrite(FlushMessages(saves, s, env, now), |saves|)
  {
  }

  lemma RunHolds(saves: seq<Save>, s: State, env: ReconcileEnv, now: nat)
    requires s.run.Some?
    ensures HoldsAfterWrite(ReconcileRun(saves, s, env, now), |saves|)
  {
    var r := s.(lastRun := s.run, run := None, lifecycle := Running, reason := NoReason);
    if env.lookup.RunMissing? {
      EndRunHolds(saves, r.(lastError := Problem(env.lookup.error)), ChildRunMissing, env, now);
    } else if env.lookup.RunFound? && env.lookup.status.RunDone? {
      var error := env.lookup.status.error;
      EndRunHolds(saves, r.(lastSummary := env.lookup.status.summary,
                            lastError := if error == "" then NoProblem else Problem(error)), ChildRunComplete, env, now);
    }
  }

  lemma EndRunHolds(saves: seq<Save>, s: State, kind: MessageKind, env: ReconcileEnv, now: nat)
    ensures HoldsAfterWrite(EndRun(saves, s, kind, env, now), |saves|)
  {
    var t := Stamp(Enqueue(s, kind, env.text), now);
    FlushHolds(saves + [Save(t, Queued(Added(kind, env.text)))], t, env.turn, now);
  }

  lemma ActiveHolds(saves: seq<Save>, s: State, env: ReconcileEnv, now: nat)
    ensures HoldsAfterWrite(ReconcileActive(saves, s, env, now), |saves|)
  {
    if s.run.Some? { RunHolds(saves, s, env, now); } else { FlushHolds(saves, s, env.turn, now); }
  }

  lemma AnsweredHolds(saves: seq<Save>, s: State, env: ReconcileEnv, now: nat)
    ensures HoldsAfterWrite(ReconcileAnswered(saves, s, env, now), |saves|)
  {
    var t := Stamp(Enqueue(s, HumanResponse, env.text)
                   .(prompt := None, response := None, lifecycle := Running, reason := NoReason), now);
    ActiveHolds(saves + [Save(t, Queued(Added(HumanResponse, env.text)))], t, env, now);
  }

  lemma HeldAfterWrite(def: Definition, e: Entry, env: ReconcileEnv, now: nat)
    ensures HoldsAfterWrite(DoReconcile(def, e, env, now), |e.saves|)
  {
    if e.state.prompt.Some? && e.state.response.Some? {
      AnsweredHolds(e.saves, e.state, env, now);
    } else {
      ActiveHolds(e.saves, e.state, env, now);
    }
  }

  /** A pass `p` that is `q` after the saves of loading has the outcome of `q` from there. */
  lemma OutcomeAfterEntry(s: State, e: Entry, p: Pass, q: Pass, writes: nat, live: seq<State>,
                          disk': State, live': seq<State>, err: bool)
    requires |e.saves| <= 1 && p.saves == e.saves + q.saves && p.held == q.held && p.refused == q.refused
    requires p.held.Some? ==> |p.saves| > |e.saves|
    requires if writes < |e.saves| then disk' == Committed(s, e.saves, writes) && live' == live && err
             else Outcome(q, Committed(s, e.saves, |e.saves|), live, writes - |e.saves|, disk', live', err)
    ensures Outcome(p, s, live, writes, disk', live', err)
  {
    if writes >= |e.saves| { LaterWrites(s, e.saves, q.saves, writes); }
  }

  lemma EntrySaves(def: Definition, s: State, now: nat)
    ensures |Enter(def, s, now).saves| <= 1
  {
  }

  lemma ReconcileIs(def: Definition, s: State, env: ReconcileEnv, now: nat)
    ensures var e := Enter(def, s, now);
      Do(def, s, Reconcile(env), now) == if e.ok then DoReconcile(def, e, env, now) else Refuse(e.saves)
  {
  }

  /** A reconcile pass whose loading fails comes to what loading came to. */
  lemma ReconcileStops(def: Definition, s: State, e: Entry, env: ReconcileEnv, now: nat, writes: nat, live: seq<State>)
    requires writes < |e.saves| <= 1
    ensures Outcome(DoReconcile(def, e, env, now), s, live, writes, Committed(s, e.saves, writes), live, true)
  {
    ReconcilePrefix(def, e, env, now);
    HeldAfterWrite(def, e, env, now);
  }

  // what was said of a pass over the loaded record, said of the pass with the saves of loading in front

  lemma ActiveOnto(s: State, e: Entry, env: ReconcileEnv, now: nat, writes: nat,
                   live: seq<State>, disk': State, live': seq<State>, err: bool)
    requires |e.saves| <= 1 && writes >= |e.saves|
    requires Outcome(ReconcileActive([], e.state, env, now), Committed(s, e.saves, |e.saves|), live, writes - |e.saves|, disk', live', err)
    ensures Outcome(ReconcileActive(e.saves, e.state, env, now), s, live, writes, disk', live', err)
  {
    var p, q := ReconcileActive(e.saves, e.state, env, now), ReconcileActive([], e.state, env, now);
    ActivePrefix(e.saves, e.state, env, now);
    ActiveHolds(e.saves, e.state, env, now);
    OutcomeAfterEntry(s, e, p, q, writes, live, disk', live', err);
  }

  lemma AnsweredOnto(s: State, e: Entry, env: ReconcileEnv, now: nat, writes: nat,
                     live: seq<State>, disk': State, live': seq<State>, err: bool)
    requires |e.saves| <= 1 && writes >= |e.saves|
    requires Outcome(ReconcileAnswered([], e.state, env, now), Committed(s, e.saves, |e.saves|), live, writes - |e.saves|, disk', live', err)
    ensures Outcome(ReconcileAnswered(e.saves, e.state, env, now), s, live, writes, disk', live', err)
  {
    var p, q := ReconcileAnswered(e.saves, e.state, env, now), ReconcileAnswered([], e.state, env, now);
    AnsweredPrefix(e.saves, e.state, env, now);
    AnsweredHolds(e.saves, e.state, env, now);
    OutcomeAfterEntry(s, e, p, q, writes, live, disk', live', err);
  }

  lemma ReflectingOnto(s: State, e: Entry, env: ReconcileEnv, now: nat, writes: nat,
                       live: seq<State>, disk': State, live': seq<State>, err: bool)
    requires |e.saves| <= 1 && writes >= |e.saves|
    requires Outcome(ReconcileReflection([], e.state, env, now), Committed(s, e.saves, |e.saves|), live, writes - |e.saves|, disk', live', err)
    ensures Outcome(ReconcileReflection(e.saves, e.state, env, now), s, live, writes, disk', live', err)
  {
    var p, q := ReconcileReflection(e.saves, e.state, env, now), ReconcileReflection([], e.state, env, now);
    assert p.saves == e.saves + q.saves;
    OutcomeAfterEntry(s, e, p, q, writes, live, disk', live', err);
  }

  lemma RunPrefix(saves: seq<Save>, s: State, env: ReconcileEnv, now: nat)
    requires s.run.Some?
    ensures var p, q := ReconcileRun(saves, s, env, now), ReconcileRun([], s, env, now);
      p.saves == saves + q.saves && p.held == q.held && p.refused == q.refused
  {
    var r := s.(lastRun := s.run, run := None, lifecycle := Running, reason := NoReason);
    if env.lookup.RunMissing? {
      EndRunPrefix(saves, r.(lastError := Problem(env.lookup.error)), ChildRunMissing, env, now);
    } else if env.lookup.RunFound? && env.lookup.status.RunDone? {
      var error := env.lookup.status.error;
      EndRunPrefix(saves, r.(lastSummary := env.lookup.status.summary,
                             lastError := if error == "" then NoProblem else Problem(error)), ChildRunComplete, env, now);
    }
  }

  lemma EndRunPrefix(saves: seq<Save>, s: State, kind: MessageKind, env: ReconcileEnv, now: nat)
    ensures var p, q := EndRun(saves, s, kind, env, now), EndRun([], s, kind, env, now);
      p.saves == saves + q.saves && p.held == q.held && p.refused == q.refused
  {
    var t := Stamp(Enqueue(s, kind, env.text), now);
    var one := [Save(t, Queued(Added(kind, env.text)))];
    assert [] + one == one;
    FlushPrefix(saves + one, t, env.turn, now);
    FlushPrefix([] + one, t, env.turn, now);
    SavesAssoc(saves, one, FlushMessages([], t, env.turn, now).saves);
  }

  lemma FlushPrefix(saves: seq<Save>, s: State, env: TurnEnv, now: nat)
    ensures var p, q := FlushMessages(saves, s, env, now), FlushMessages([], s, env, now);
      p.saves == saves + q.saves && p.held == q.held && p.refused == q.refused
  {
  }
}
