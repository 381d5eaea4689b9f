/**
 Further properties of the automata steps: waiting without a cause, pausing and
 resuming, the schedule, and the task lists.
 */
module AutomataProperties {
  import opened Text
  import opened AutomataState
  import opened AutomataSteps
  import opened AutomataSafety
  import opened AutomataRuns

  // ----- waiting

  /** The one step that leaves an automata waiting for nothing. */
  predicate Strands(s: State, c: Command) {
    c.SpecChange? && c.cleanupOk && s.lifecycle.Waiting? && s.messages != []
  }

  ghost predicate AllCaused(p: Pass) {
    (forall i :: 0 <= i < |p.saves| ==> Caused(p.saves[i].state)) && (p.held.Some? ==> Caused(p.held.value))
  }

  lemma PlainCaused(def: Definition, s: State, c: Command, now: nat)
    requires Inv(s) && Caused(s) && Plain(c)
    ensures var effect := DoPlain(def, s, c, now); effect.Wrote? ==> Caused(effect.state)
  {
    if c.UpdateTask? { UpdateTaskSound(s, c, now); }
  }

  lemma FlushMessagesCaused(saves: seq<Save>, s: State, env: TurnEnv, now: nat)
    requires Inv(s) && s.lifecycle.Running? && s.run.None? && s.prompt.None?
    requires forall i :: 0 <= i < |saves| ==> Caused(saves[i].state)
    ensures AllCaused(FlushMessages(saves, s, env, now))
  {
    StartTurnSound(s, env, now);
  }

  lemma ReconcileCaused(def: Definition, e: Entry, env: ReconcileEnv, now: nat)
    requires Inv(e.state) && Caused(e.state)
    requires forall i :: 0 <= i < |e.saves| ==> Caused(e.saves[i].state)
    ensures AllCaused(DoReconcile(def, e, env, now))
  {
    var s := e.state;
    if s.lifecycle.Running? || s.lifecycle.Waiting? {
      if s.run.Some? {
        RunCaused(e.saves, s, env, now);
      } else if s.prompt.None? {
        FlushMessagesCaused(e.saves, s, env.turn, now);
      }
    }
  }

  lemma RunCaused(saves: seq<Save>, s: State, env: ReconcileEnv, now: nat)
    requires Inv(s) && s.run.Some? && (s.lifecycle.Running? || s.lifecycle.Waiting?)
    requires forall i :: 0 <= i < |saves| ==> Caused(saves[i].state)
    ensures AllCaused(ReconcileRun(saves, s, env, now))
  {
    var t := s.(lastRun := s.run, run := None, lifecycle := Running, reason := NoReason);
    if env.lookup.RunMissing? {
      EndRunCaused(saves, t.(lastError := Problem(env.lookup.error)), ChildRunMissing, env, now);
    } else if env.lookup.RunFound? && env.lookup.status.RunDone? {
      var error := env.lookup.status.error;
      EndRunCaused(saves, t.(lastSummary := env.lookup.status.summary,
                             lastError := if error == "" then NoProblem else Problem(error)), ChildRunComplete, env, now);
    }
  }

  lemma EndRunCaused(saves: seq<Save>, s: State, kind: MessageKind, env: ReconcileEnv, now: nat)
    requires Inv(s) && s.lifecycle.Running? && s.run.None? && s.prompt.None?
    requires forall i :: 0 <= i < |saves| ==> Caused(saves[i].state)
    ensures AllCaused(EndRun(saves, s, kind, env, now))
  {
    var t := Stamp(Enqueue(s, kind, env.text), now);
    FlushMessagesCaused(saves + [Save(t, Queued(Added(kind, env.text)))], t, env.turn, now);
  }

  lemma EnteredCaused(def: Definition, e: Entry, c: Command, now: nat)
    requires Inv(e.state) && Caused(e.state) && !c.Reset? && !c.SpecChange?
    requires forall i :: 0 <= i < |e.saves| ==> Caused(e.saves[i].state)
    ensures AllCaused(DoEntered(def, e, c, now))
  {
    if c.Reconcile? {
      ReconcileCaused(def, e, c.env, now);
    } else if !c.Reflect? {
      PlainCaused(def, e.state, c, now);
    }
  }

  lemma ResetCaused(s: State, cleanupOk: bool, text: string, now: nat)
    requires Inv(s) && Caused(s)
    ensures AllCaused(DoReset(s, cleanupOk, now))
    ensures AllCaused(DoSpecChange(s, cleanupOk, text, now)) <==> !Strands(s, SpecChange(cleanupOk, text))
  {
    var p := DoSpecChange(s, cleanupOk, text, now);
    if p.saves != [] { assert Caused(p.saves[0].state) <==> !Strands(s, SpecChange(cleanupOk, text)); }
  }

  /**
   A step from a record that waits for something, if for anything, leads to such records
   again, unless it is a spec change that finds the automata waiting with messages pending.
   */
  lemma WaitingHasCauseUnlessStranded(def: Definition, s: State, c: Command, now: nat)
    requires Inv(s) && Caused(s)
    ensures AllCaused(Do(def, s, c, now)) <==> !Strands(s, c)
  {
    if c.Reset? {
      ResetCaused(s, c.cleanupOk, "", now);
    } else if c.SpecChange? {
      ResetCaused(s, c.cleanupOk, c.text, now);
    } else if !Skipped(def, c) {
      EnterSound(def, s, now);
      EnteredCaused(def, Enter(def, s, now), c, now);
    }
  }

  /** Once stranded, no reconcile pass moves the automata again. */
  lemma StrandedStays(def: Definition, s: State, env: ReconcileEnv, now: nat)
    requires Inv(s) && !Caused(s)
    ensures var p := Do(def, s, Reconcile(env), now);
      p.held.None? && forall i :: 0 <= i < |p.saves| ==> !Caused(p.saves[i].state) && p.saves[i].state.messages == s.messages
  {
    EnterSound(def, s, now);
    var e := Enter(def, s, now);
    assert AdjustKind(def, Normalized(s)).0.lifecycle.Waiting?;
    assert !Caused(e.state);
    assert forall i :: 0 <= i < |e.saves| ==> e.saves[i].state == e.state;
  }

  /** The record on disk and every copy wait for something, if for anything. */
  ghost predicate WorldCaused(w: World) {
    Caused(w.disk) && forall i :: 0 <= i < |w.live| ==> Caused(w.live[i])
  }

  /** A spec change whose write takes the cause of waiting off the disk. */
  ghost predicate StrandsNow(w: World, a: Action) { a.Run? && a.writes > 0 && Strands(w.disk, a.command) }

  lemma ToolCaused(def: Definition, m: State, tool: Tool, now: nat)
    requires Inv(m) && Caused(m)
    ensures var p := DoTool(def, m, tool, now); Caused(p.memory) && (p.saves != [] ==> p.saves[0].state == p.memory)
  {
    ToolSound(def, m, tool, now);
  }

  lemma StrandingWrites(s: State, c: Command, now: nat)
    requires Strands(s, c)
    ensures var p := DoSpecChange(s, c.cleanupOk, c.text, now);
      |p.saves| == 1 && p.held.None? && !Caused(p.saves[0].state)
  {
  }

  lemma PassCausedIff(w: World, a: Action)
    requires WorldInv(w) && WorldCaused(w) && a.Run?
    ensures WorldCaused(Next(w, a)) <==> !StrandsNow(w, a)
  {
    WaitingHasCauseUnlessStranded(a.def, w.disk, a.command, a.now);
    var p := Do(a.def, w.disk, a.command, a.now);
    var k := Min(a.writes, |p.saves|);
    if Strands(w.disk, a.command) {
      StrandingWrites(w.disk, a.command, a.now);
    } else {
      assert k > 0 ==> p.saves[..k][k - 1] == p.saves[k - 1];
    }
  }

  /** A step leaves disk and copies with a cause for waiting exactly if it is no spec change that strands. */
  lemma StepCausedIff(w: World, a: Action)
    requires WorldInv(w) && WorldCaused(w)
    ensures WorldCaused(Next(w, a)) <==> !StrandsNow(w, a)
  {
    if a.Run? {
      PassCausedIff(w, a);
    } else if a.copy < |w.live| {
      ToolCaused(a.def, w.live[a.copy], a.tool, a.now);
    }
  }

  ghost predicate AlwaysCaused(w: World, acts: seq<Action>) {
    WorldCaused(Execute(w, acts)) && (acts != [] ==> AlwaysCaused(w, acts[..|acts| - 1]))
  }

  ghost predicate NeverStrands(w: World, acts: seq<Action>) {
    acts != [] ==>
      var n := |acts| - 1;
      NeverStrands(w, acts[..n]) && !StrandsNow(Execute(w, acts[..n]), acts[n])
  }

  /**
   Throughout a run everything that waits has a cause exactly if no spec change found the automata waiting
   with messages pending.
   */
  lemma {:induction false} RunCausedIffNeverStrands(now: nat, acts: seq<Action>)
    ensures AlwaysCaused(Fresh(now), acts) <==> NeverStrands(Fresh(now), acts)
  {
    if acts != [] {
      var n := |acts| - 1;
      RunCausedIffNeverStrands(now, acts[..n]);
      EveryRunKeepsInvariant(now, acts[..n]);
      if AlwaysCaused(Fresh(now), acts[..n]) { StepCausedIff(Execute(Fresh(now), acts[..n]), acts[n]); }
    }
  }

  // ----- pausing and resuming

  /** Resuming undoes a pause; an automata that waited for a child run is running again until the next look at it. */
  lemma ResumeUndoesPause(def: Definition, s: State, text: string)
    requires Inv(s) && Caused(s) && DoPause(def, s).Wrote?
    ensures var paused := DoPause(def, s).state;
      var resumed := DoResume(def, paused, text);
      && paused.messages == s.messages && paused.prompt == s.prompt && paused.run == s.run
      && resumed.Wrote? && resumed.state.prompt == s.prompt && resumed.state.run == s.run
      && resumed.state.lifecycle == (if s.prompt.Some? then Waiting else if s.lifecycle.Idle? then Idle else Running)
      && resumed.state.reason == (if s.prompt.Some? then HumanInput else NoReason)
      && resumed.state.messages == s.messages +
           (if s.run.None? && s.prompt.None? && s.messages == [] && !s.lifecycle.Idle? then Added(Resumed, text) else [])
  {
  }

  // ----- the schedule

  /** A tick that starts no cycle only remembers its minute, and an invalid configuration as error. */
  lemma QuietTickChangesOnlyMinute(def: Definition, s: State, c: Command, now: nat)
    requires c.Tick? && Busy(s, c.activity)
    ensures var effect := DoTick(def, s, c, now);
      && !effect.Refused?
      && (effect.Wrote? ==>
            && effect.note == Queued([]) && s.lastScheduleMinute != Some(c.minute)
            && effect.state == s.(lastScheduleMinute := Some(c.minute), lastError := effect.state.lastError)
            && (effect.state.lastError == s.lastError || Blank(def.standingInstruction) || s.templates == []))
  {
  }

  lemma EnterKeepsMinute(def: Definition, s: State, now: nat)
    ensures var e := Enter(def, s, now);
      && e.state.lastScheduleMinute == s.lastScheduleMinute
      && (e.saves == [] || (|e.saves| == 1 && e.saves[0] == Save(e.state, Queued([]))))
  {
  }

  ghost predicate KeepsMinute(p: Pass, minute: Option<nat>) {
    && (forall i :: 0 <= i < |p.saves| ==> p.saves[i].state.lastScheduleMinute == minute)
    && (p.held.Some? ==> p.held.value.lastScheduleMinute == minute)
  }

  /** Two records with the same schedule minute and task lists; reconcile passes keep these. */
  ghost predicate SameLists(s: State, t: State) {
    s.lastScheduleMinute == t.lastScheduleMinute && s.templates == t.templates && s.tasks == t.tasks
  }

  ghost predicate PassKeepsLists(p: Pass, s: State) {
    (forall i :: 0 <= i < |p.saves| ==> SameLists(s, p.saves[i].state)) && (p.held.Some? ==> SameLists(s, p.held.value))
  }

  ghost predicate SavesKeepLists(saves: seq<Save>, s: State) {
    forall i :: 0 <= i < |saves| ==> SameLists(s, saves[i].state)
  }

  lemma TurnKeepsLists(s: State, env: TurnEnv, now: nat)
    ensures SameLists(s, StartTurn(s, env, now).state)
  {
    OpenSessionKeeps(s, env);
  }

  lemma FlushKeepsLists(saves: seq<Save>, s: State, env: TurnEnv, now: nat)
    requires SavesKeepLists(saves, s)
    ensures PassKeepsLists(FlushMessages(saves, s, env, now), s)
  {
    TurnKeepsLists(s, env, now);
  }

  lemma EndRunKeepsLists(saves: seq<Save>, s: State, kind: MessageKind, env: ReconcileEnv, now: nat)
    requires SavesKeepLists(saves, s)
    ensures PassKeepsLists(EndRun(saves, s, kind, env, now), s)
  {
    var u := Stamp(Enqueue(s, kind, env.text), now);
    FlushKeepsLists(saves + [Save(u, Queued(Added(kind, env.text)))], u, env.turn, now);
  }

  lemma RunKeepsLists(saves: seq<Save>, s: State, env: ReconcileEnv, now: nat)
    requires SavesKeepLists(saves, s) && s.run.Some?
    ensures PassKeepsLists(ReconcileRun(saves, s, env, now), s)
  {
    var r := s.(lastRun := s.run, run := None, lifecycle := Running, reason := NoReason);
    if env.lookup.RunMissing? {
      EndRunKeepsLists(saves, r.(lastError := Problem(env.lookup.error)), ChildRunMissing, env, now);
    } else if env.lookup.RunFound? && env.lookup.status.RunDone? {
      var error := env.lookup.status.error;
      EndRunKeepsLists(saves, r.(lastSummary := env.lookup.status.summary,
                                  lastError := if error == "" then NoProblem else Problem(error)), ChildRunComplete, env, now);
    }
  }

  lemma FlushSessionKeepsLists(s: State, reply: FlushReply, now: nat)
    requires reply.Flushed?
    ensures SameLists(s, FlushSession(s, reply, now).0)
  {
  }

  lemma ActiveKeepsLists(saves: seq<Save>, s: State, env: ReconcileEnv, now: nat)
    requires SavesKeepLists(saves, s)
    ensures PassKeepsLists(ReconcileActive(saves, s, env, now), s)
  {
    if s.run.Some? {
      RunKeepsLists(saves, s, env, now);
    } else if s.prompt.None? && s.lifecycle.Running? {
      if s.messages != [] {
        FlushKeepsLists(saves, s, env.turn, now);
      } else if env.flush.Flushed? {
        FlushSessionKeepsLists(s, env.flush, now);
      }
    }
  }

  lemma ReconcileKeepsLists(def: Definition, e: Entry, env: ReconcileEnv, now: nat)
    requires SavesKeepLists(e.saves, e.state)
    ensures PassKeepsLists(DoReconcile(def, e, env, now), e.state)
  {
    if e.state.prompt.Some? && e.state.response.Some? {
      var t := Stamp(Enqueue(e.state, HumanResponse, env.text)
                     .(prompt := None, response := None, lifecycle := Running, reason := NoReason), now);
      ActiveKeepsLists(e.saves + [Save(t, Queued(Added(HumanResponse, env.text)))], t, env, now);
    } else {
      ActiveKeepsLists(e.saves, e.state, env, now);
    }
  }

  lemma EnteredKeepsMinute(def: Definition, e: Entry, c: Command, now: nat)
    requires SavesKeepLists(e.saves, e.state) && def.kind.Service? && !c.Tick? && !c.Reset? && !c.SpecChange?
    ensures KeepsMinute(DoEntered(def, e, c, now), e.state.lastScheduleMinute)
  {
    if c.Reconcile? {
      ReconcileKeepsLists(def, e, c.env, now);
    } else if !c.Reflect? {
      PlainKeepsMinute(def, e.state, c, now);
    }
  }

  lemma PlainKeepsMinute(def: Definition, s: State, c: Command, now: nat)
    requires Plain(c) && def.kind.Service? && !c.Tick?
    ensures var effect := DoPlain(def, s, c, now);
      effect.Wrote? ==> effect.state.lastScheduleMinute == s.lastScheduleMinute
  {
  }

  lemma CommandKeepsMinute(def: Definition, s: State, c: Command, now: nat)
    requires def.kind.Service? && !c.Tick? && !c.Reset?
    ensures KeepsMinute(Do(def, s, c, now), s.lastScheduleMinute)
  {
    if !c.SpecChange? && !Skipped(def, c) {
      EnterKeepsMinute(def, s, now);
      EnteredKeepsMinute(def, Enter(def, s, now), c, now);
    }
  }

  /** A tick's own write carries its minute, which it did not have before. */
  lemma TickMovesMinute(def: Definition, s: State, c: Command, now: nat, k: nat)
    requires c.Tick? && k <= |Do(def, s, c, now).saves|
    ensures var done := Do(def, s, c, now).saves[..k];
      var minute := Committed(s, done, k).lastScheduleMinute;
      && (minute == s.lastScheduleMinute || (minute == Some(c.minute) && s.lastScheduleMinute != Some(c.minute)))
      && (Scheduled(c, done) != [] ==> minute != s.lastScheduleMinute)
  {
    if !Skipped(def, c) {
      EnterKeepsMinute(def, s, now);
      var e, p := Enter(def, s, now), Do(def, s, c, now);
      if e.ok {
        TickEffect(def, e.state, c, now);
        var effect := DoTick(def, e.state, c, now);
        assert p.saves == e.saves || (effect.Wrote? && p.saves == e.saves + [Save(Stamp(effect.state, now), effect.note)]);
      }
    }
  }

  lemma TickEffect(def: Definition, s: State, c: Command, now: nat)
    requires c.Tick?
    ensures var effect := DoTick(def, s, c, now);
      effect.Wrote? ==> effect.state.lastScheduleMinute == Some(c.minute) && s.lastScheduleMinute != Some(c.minute)
  {
  }

  function LatestTick(base: nat, acts: seq<Action>): nat {
    if acts == [] then base
    else
      var a, m := acts[|acts| - 1], LatestTick(base, acts[..|acts| - 1]);
      if a.Run? && a.command.Tick? && a.command.minute > m then a.command.minute else m
  }

  /** A service that is not reset and sees no earlier tick again. */
  ghost predicate Ticking(base: nat, acts: seq<Action>) {
    acts != [] ==>
      var n, a := |acts| - 1, acts[|acts| - 1];
      Ticking(base, acts[..n]) && Ticks(a, LatestTick(base, acts[..n]))
  }

  predicate Ticks(a: Action, latest: nat) {
    a.def.kind.Service? && (a.Run? ==> !a.command.Reset? && (a.command.Tick? ==> a.command.minute >= latest))
  }

  ghost predicate NotBefore(m: Option<nat>, n: Option<nat>) {
    m.Some? ==> n.Some? && m.value <= n.value
  }

  /** A tool call that writes its copy. */
  ghost predicate SavesCopy(w: World, a: Action) {
    a.Call? && a.copy < |w.live| && a.writes > 0 && DoTool(a.def, w.live[a.copy], a.tool, a.now).saves != []
  }

  /** It writes a copy that remembers an older minute than the disk. */
  ghost predicate SavesOldMinute(w: World, a: Action) {
    SavesCopy(w, a) && !NotBefore(w.disk.lastScheduleMinute, w.live[a.copy].lastScheduleMinute)
  }

  ghost predicate UpToMinute(s: State, latest: nat) {
    s.lastScheduleMinute.Some? ==> s.lastScheduleMinute.value <= latest
  }

  /** No record remembers a minute that has not come yet. */
  ghost predicate MinutesCame(w: World, latest: nat) {
    UpToMinute(w.disk, latest) && forall i :: 0 <= i < |w.live| ==> UpToMinute(w.live[i], latest)
  }

  lemma ToolKeepsMinute(def: Definition, m: State, tool: Tool, now: nat)
    ensures var p := DoTool(def, m, tool, now);
      p.memory.lastScheduleMinute == m.lastScheduleMinute && (p.saves != [] ==> p.saves[0].state == p.memory)
  {
  }

  /** What one step does to the remembered minute and to the list of scheduled cycles. */
  lemma StepMovesMinute(w: World, a: Action)
    requires a.def.kind.Service? && (a.Run? ==> !a.command.Reset?)
    ensures var before, after := w.disk.lastScheduleMinute, Next(w, a).disk.lastScheduleMinute;
      && (after == before || (a.Run? && a.command.Tick? && after == Some(a.command.minute)) || SavesCopy(w, a))
      && (SavesCopy(w, a) ==> after == w.live[a.copy].lastScheduleMinute)
      && (Next(w, a).cycles == w.cycles ||
          (a.Run? && a.command.Tick? && after != before && Next(w, a).cycles == w.cycles + [a.command.minute]))
  {
    if a.Run? {
      var p := Do(a.def, w.disk, a.command, a.now);
      var k := Min(a.writes, |p.saves|);
      assert k > 0 ==> p.saves[..k][k - 1] == p.saves[k - 1];
      if a.command.Tick? {
        TickMovesMinute(a.def, w.disk, a.command, a.now, k);
      } else {
        CommandKeepsMinute(a.def, w.disk, a.command, a.now);
      }
    } else if a.copy < |w.live| {
      ToolKeepsMinute(a.def, w.live[a.copy], a.tool, a.now);
    }
  }

  lemma TickHoldsNothing(def: Definition, s: State, c: Command, now: nat)
    requires c.Tick?
    ensures Do(def, s, c, now).held.None?
  {
  }

  lemma HeldMinute(w: World, a: Action, latest: nat)
    requires Ticks(a, latest) && MinutesCame(w, latest)
    ensures forall i :: 0 <= i < |Next(w, a).live| ==> UpToMinute(Next(w, a).live[i], latest)
  {
    if a.Call? {
      if a.copy < |w.live| { ToolKeepsMinute(a.def, w.live[a.copy], a.tool, a.now); }
    } else if a.command.Tick? {
      TickHoldsNothing(a.def, w.disk, a.command, a.now);
    } else {
      CommandKeepsMinute(a.def, w.disk, a.command, a.now);
    }
  }

  /** The remembered minute goes back in a step exactly if that saves a copy with an older one. */
  lemma StepKeepsMinuteIff(w: World, a: Action, latest: nat)
    requires Ticks(a, latest) && MinutesCame(w, latest)
    ensures NotBefore(w.disk.lastScheduleMinute, Next(w, a).disk.lastScheduleMinute) <==> !SavesOldMinute(w, a)
    ensures MinutesCame(Next(w, a), if a.Run? && a.command.Tick? then a.command.minute else latest)
  {
    StepMovesMinute(w, a);
    HeldMinute(w, a, latest);
  }

  ghost predicate NeverBack(w: World, acts: seq<Action>) {
    acts != [] ==>
      var n := |acts| - 1;
      var v := Execute(w, acts[..n]);
      NeverBack(w, acts[..n]) && NotBefore(v.disk.lastScheduleMinute, Next(v, acts[n]).disk.lastScheduleMinute)
  }

  ghost predicate NeverOld(w: World, acts: seq<Action>) {
    acts != [] ==>
      var n := |acts| - 1;
      NeverOld(w, acts[..n]) && !SavesOldMinute(Execute(w, acts[..n]), acts[n])
  }

  /**
   Between resets and with ticks that do not go back, the remembered minute never goes back exactly if no
   tool call saves an older one.
   */
  lemma {:induction false} MinuteNeverGoesBackIff(w: World, base: nat, acts: seq<Action>)
    requires MinutesCame(w, base) && Ticking(base, acts)
    ensures NeverBack(w, acts) <==> NeverOld(w, acts)
    ensures MinutesCame(Execute(w, acts), LatestTick(base, acts))
  {
    if acts != [] {
      var n := |acts| - 1;
      MinuteNeverGoesBackIff(w, base, acts[..n]);
      StepKeepsMinuteIff(Execute(w, acts[..n]), acts[n], LatestTick(base, acts[..n]));
    }
  }

  // ----- scheduled cycles

  ghost predicate NonDecreasing(ms: seq<nat>) {
    forall i, j :: 0 <= i < j < |ms| ==> ms[i] <= ms[j]
  }

  ghost predicate StrictlyIncreasing(ms: seq<nat>) {
    forall i, j :: 0 <= i < j < |ms| ==> ms[i] < ms[j]
  }

  ghost predicate InTickOrder(cycles: seq<nat>, latest: nat) {
    NonDecreasing(cycles) && (cycles != [] ==> cycles[|cycles| - 1] <= latest)
  }

  lemma TickOrderExtends(cycles: seq<nat>, latest: nat, tick: nat)
    requires InTickOrder(cycles, latest) && latest <= tick
    ensures InTickOrder(cycles, tick) && InTickOrder(cycles + [tick], tick)
  {
  }

  lemma CyclesStep(w: World, a: Action, latest: nat)
    requires Ticks(a, latest) && InTickOrder(w.cycles, latest)
    ensures InTickOrder(Next(w, a).cycles, if a.Run? && a.command.Tick? then a.command.minute else latest)
  {
    StepMovesMinute(w, a);
    if a.Run? && a.command.Tick? { TickOrderExtends(w.cycles, latest, a.command.minute); }
  }

  /** Whatever copies are saved, scheduled cycles come in the order of their minutes. */
  lemma {:induction false} CyclesInOrder(w: World, base: nat, acts: seq<Action>)
    requires w.cycles == [] && Ticking(base, acts)
    ensures InTickOrder(Execute(w, acts).cycles, LatestTick(base, acts))
  {
    if acts != [] {
      var n := |acts| - 1;
      CyclesInOrder(w, base, acts[..n]);
      CyclesStep(Execute(w, acts[..n]), acts[n], LatestTick(base, acts[..n]));
    }
  }

  ghost predicate InOrder(minute: Option<nat>, cycles: seq<nat>) {
    && StrictlyIncreasing(cycles)
    && (cycles != [] ==> minute.Some? && cycles[|cycles| - 1] <= minute.value)
  }

  lemma InOrderExtends(minute: Option<nat>, cycles: seq<nat>, tick: nat)
    requires InOrder(minute, cycles) && (minute.Some? ==> minute.value <= tick)
    ensures InOrder(Some(tick), cycles)
    ensures minute != Some(tick) ==> InOrder(Some(tick), cycles + [tick])
  {
    if minute != Some(tick) && cycles != [] {
      assert forall i :: 0 <= i < |cycles| ==> cycles[i] <= cycles[|cycles| - 1] < tick;
    }
  }

  lemma StepKeepsSchedule(w: World, a: Action, latest: nat)
    requires Ticks(a, latest) && MinutesCame(w, latest) && !SavesOldMinute(w, a)
    requires InOrder(w.disk.lastScheduleMinute, w.cycles)
    ensures InOrder(Next(w, a).disk.lastScheduleMinute, Next(w, a).cycles)
  {
    StepMovesMinute(w, a);
    StepKeepsMinuteIff(w, a, latest);
    if a.Run? && a.command.Tick? { InOrderExtends(w.disk.lastScheduleMinute, w.cycles, a.command.minute); }
  }

  /** As long as no older minute is saved, at most one scheduled cycle starts per minute, in the order of the minutes. */
  lemma {:induction false} OneScheduledCyclePerMinute(w: World, base: nat, acts: seq<Action>)
    requires w.cycles == [] && MinutesCame(w, base) && Ticking(base, acts) && NeverOld(w, acts)
    ensures var v := Execute(w, acts); InOrder(v.disk.lastScheduleMinute, v.cycles)
  {
    if acts != [] {
      var n := |acts| - 1;
      OneScheduledCyclePerMinute(w, base, acts[..n]);
      MinuteNeverGoesBackIff(w, base, acts[..n]);
      StepKeepsSchedule(Execute(w, acts[..n]), acts[n], LatestTick(base, acts[..n]));
    }
  }

  // ----- two cycles in one minute

  /** A tick that finds the automata configured, due and with nothing going on, in a minute it does not remember. */
  predicate Fires(def: Definition, s: State, c: Command)
    requires c.Tick?
  {
    && !s.lifecycle.Paused? && s.lastScheduleMinute != Some(c.minute) && DueAt(def.schedule, c.minute)
    && Trim(def.standingInstruction) != "" && s.templates != [] && !Busy(s, c.activity) && c.cleanupOk
  }

  /** The tick fires on the loaded record, and its writes succeed. */
  ghost predicate StartsCycle(w: World, a: Action) {
    a.Run? && a.command.Tick? && !Skipped(a.def, a.command) &&
    var e := Enter(a.def, w.disk, a.now);
    e.ok && Fires(a.def, e.state, a.command) && a.writes > |e.saves|
  }

  lemma TickSaves(def: Definition, e: Entry, c: Command, now: nat)
    requires c.Tick?
    ensures var p, effect := DoEntered(def, e, c, now), DoTick(def, e.state, c, now);
      && (effect.Wrote? ==> p.saves == e.saves + [Save(Stamp(effect.state, now), effect.note)])
      && (!effect.Wrote? ==> p.saves == e.saves)
      && (Fires(def, e.state, c) <==> effect.Wrote? && effect.note.Dropped?)
  {
  }

  lemma ScheduledIff(c: Command, first: seq<Save>, p: seq<Save>, last: Option<Save>, writes: nat)
    requires c.Tick? && (first == [] || (|first| == 1 && first[0].note == Queued([])))
    requires p == first + (if last.Some? then [last.value] else [])
    ensures Scheduled(c, p[..Min(writes, |p|)]) ==
      if last.Some? && last.value.note.Dropped? && writes > |first| then [c.minute] else []
  {
  }

  /** A step adds to the scheduled cycles exactly if it is such a tick, and then its minute. */
  lemma CyclesGrowIff(w: World, a: Action)
    ensures Next(w, a).cycles == w.cycles + if StartsCycle(w, a) then [a.command.minute] else []
  {
    if a.Run? && a.command.Tick? && !Skipped(a.def, a.command) {
      var e := Enter(a.def, w.disk, a.now);
      EnterKeepsMinute(a.def, w.disk, a.now);
      if e.ok {
        TickSaves(a.def, e, a.command, a.now);
        var p, effect := Do(a.def, w.disk, a.command, a.now), DoTick(a.def, e.state, a.command, a.now);
        ScheduledIff(a.command, e.saves, p.saves,
                     if effect.Wrote? then Some(Save(Stamp(effect.state, a.now), effect.note)) else None, a.writes);
      }
    }
  }

  /** A cycle starts in the minute of the one before. */
  ghost predicate CycleAgain(w: World, a: Action) {
    StartsCycle(w, a) && w.cycles != [] && w.cycles[|w.cycles| - 1] == a.command.minute
  }

  lemma IncreasingIff(ms: seq<nat>, m: nat)
    requires StrictlyIncreasing(ms) && (ms != [] ==> ms[|ms| - 1] <= m)
    ensures StrictlyIncreasing(ms + [m]) <==> ms == [] || ms[|ms| - 1] != m
  {
    var all := ms + [m];
    if ms != [] {
      assert all[|ms| - 1] == ms[|ms| - 1] && all[|ms|] == m;
      assert forall i :: 0 <= i < |ms| ==> ms[i] <= ms[|ms| - 1];
    }
  }

  /** That happens only after the disk has gone back behind that minute. */
  lemma AgainMeansBack(w: World, a: Action, latest: nat)
    requires CycleAgain(w, a) && Ticks(a, latest) && MinutesCame(w, latest) && InTickOrder(w.cycles, latest)
    ensures !NotBefore(Some(w.cycles[|w.cycles| - 1]), w.disk.lastScheduleMinute)
  {
    EnterKeepsMinute(a.def, w.disk, a.now);
  }

  ghost predicate NeverAgain(w: World, acts: seq<Action>) {
    acts != [] ==>
      var n := |acts| - 1;
      NeverAgain(w, acts[..n]) && !CycleAgain(Execute(w, acts[..n]), acts[n])
  }

  lemma OwnMinutesStep(before: seq<nat>, after: seq<nat>, starts: bool, m: nat)
    requires after == before + (if starts then [m] else []) && (starts && before != [] ==> before[|before| - 1] <= m)
    ensures StrictlyIncreasing(after) <==>
      StrictlyIncreasing(before) && !(starts && before != [] && before[|before| - 1] == m)
  {
    if !StrictlyIncreasing(before) {
      var i, j :| 0 <= i < j < |before| && before[i] >= before[j];
      assert after[i] == before[i] && after[j] == before[j];
    } else if starts {
      IncreasingIff(before, m);
    } else {
      assert after == before;
    }
  }

  lemma OwnMinutesNext(w: World, a: Action, latest: nat)
    requires Ticks(a, latest) && InTickOrder(w.cycles, latest)
    ensures StrictlyIncreasing(Next(w, a).cycles) <==> StrictlyIncreasing(w.cycles) && !CycleAgain(w, a)
  {
    CyclesGrowIff(w, a);
    var minute := if a.Run? && a.command.Tick? then a.command.minute else 0;
    OwnMinutesStep(w.cycles, Next(w, a).cycles, StartsCycle(w, a), minute);
  }

  /** Between resets and with ticks that do not go back, scheduled cycles have minutes of their own exactly if none starts again. */
  lemma {:induction false} OwnMinutesIff(w: World, base: nat, acts: seq<Action>)
    requires w.cycles == [] && Ticking(base, acts)
    ensures StrictlyIncreasing(Execute(w, acts).cycles) <==> NeverAgain(w, acts)
  {
    if acts != [] {
      var n := |acts| - 1;
      OwnMinutesIff(w, base, acts[..n]);
      CyclesInOrder(w, base, acts[..n]);
      OwnMinutesNext(Execute(w, acts[..n]), acts[n], LatestTick(base, acts[..n]));
    }
  }
}
