/**
 The task lists of an automata: every reachable record is accepted when it is loaded
 again, and reordering is a permutation
 (internal/automata/tasklist.go, internal/automata/service_commands.go).
 */
module AutomataTasks {
  import opened Text
  import opened AutomataState
  import opened AutomataSteps
  import opened AutomataRuns
  import opened AutomataProperties

  /** Task ids are fresh random identifiers. */
  ghost predicate FreshId(s: State, c: Command) {
    c.CreateTask? ==> c.id != "" && c.id !in TemplateIds(s.templates) && c.id !in TaskIds(s.tasks)
  }

  lemma TrimmedAccepted(ts: seq<TaskTemplate>, us: seq<Task>)
    requires TemplatesAccepted(ts) && TasksAccepted(us)
    ensures TemplatesAccepted(TrimTemplates(ts)) && TemplateIds(TrimTemplates(ts)) == TemplateIds(ts)
    ensures TasksAccepted(TrimTasks(us)) && TaskIds(TrimTasks(us)) == TaskIds(us)
  {
    forall i | 0 <= i < |ts| ensures !Blank(TrimTemplates(ts)[i].description) {
      assert ts[i] in ts;
      TrimTwice(ts[i].description);
    }
    forall i | 0 <= i < |us| ensures !Blank(TrimTasks(us)[i].description) {
      assert us[i] in us;
      TrimTwice(us[i].description);
    }
    assert TemplateIds(TrimTemplates(ts)) == TemplateIds(ts);
    assert TaskIds(TrimTasks(us)) == TaskIds(us);
  }

  lemma TemplatesOfAccepted(us: seq<Task>)
    requires TasksAccepted(us)
    ensures TemplatesAccepted(TemplatesOf(us)) && TemplateIds(TemplatesOf(us)) == TaskIds(us)
  {
    forall i | 0 <= i < |us| ensures !Blank(TemplatesOf(us)[i].description) && TemplatesOf(us)[i].id != "" {
      assert us[i] in us;
    }
    assert TemplateIds(TemplatesOf(us)) == TaskIds(us);
  }

  lemma NormalizedValid(s: State)
    requires TasksValid(s)
    ensures TasksValid(Normalized(s))
    ensures forall id :: id in TemplateIds(Normalized(s).templates) ==> id in TemplateIds(s.templates) || id in TaskIds(s.tasks)
  {
    TrimmedAccepted(s.templates, s.tasks);
    TemplatesOfAccepted(TrimTasks(s.tasks));
  }

  lemma EnterValid(def: Definition, s: State, now: nat)
    requires TasksValid(s)
    ensures var e := Enter(def, s, now);
      && e.ok && TasksValid(e.state)
      && (forall i :: 0 <= i < |e.saves| ==> e.saves[i].state == e.state)
      && (forall id :: id in TemplateIds(e.state.templates) ==> id in TemplateIds(s.templates) || id in TaskIds(s.tasks))
  {
    NormalizedValid(s);
    assert forall t: State :: AdjustKind(def, t).0.tasks == t.tasks && AdjustKind(def, t).0.templates == t.templates;
  }

  lemma CycleTasksValid(s: State)
    requires TemplatesAccepted(s.templates)
    ensures TasksAccepted(TasksOf(s.templates))
  {
    assert TaskIds(TasksOf(s.templates)) == TemplateIds(s.templates);
  }

  lemma RedescribedAccepted(ts: seq<TaskTemplate>, k: nat, us: seq<Task>, j: nat, description: string, done: bool)
    requires TemplatesAccepted(ts) && TasksAccepted(us) && !Blank(description)
    ensures k < |ts| ==> TemplatesAccepted(ts[k := ts[k].(description := description)])
    ensures j < |us| ==> TasksAccepted(us[j := us[j].(description := description)])
    ensures j < |us| ==> TasksAccepted(us[j := us[j].(done := done)])
  {
    assert forall i :: 0 <= i < |ts| ==> ts[i] in ts;
    assert forall i :: 0 <= i < |us| ==> us[i] in us;
    if k < |ts| { assert TemplateIds(ts[k := ts[k].(description := description)]) == TemplateIds(ts); }
    if j < |us| {
      assert TaskIds(us[j := us[j].(description := description)]) == TaskIds(us);
      assert TaskIds(us[j := us[j].(done := done)]) == TaskIds(us);
    }
  }

  lemma UpdateValid(s: State, c: Command)
    requires TasksValid(s) && c.UpdateTask?
    ensures var effect := DoUpdateTask(s, c); effect.Wrote? ==> TasksValid(effect.state)
  {
    var k, j := FindId(TemplateIds(s.templates), c.id), FindId(TaskIds(s.tasks), c.id);
    if DoUpdateTask(s, c).Wrote? {
      var t := s;
      if c.newDescription.Some? {
        var description := Trim(c.newDescription.value);
        TrimTwice(c.newDescription.value);
        RedescribedAccepted(s.templates, k, s.tasks, if j < 0 then |s.tasks| else j, description, false);
        t := Redescribe(s, k, j, description);
        assert TasksValid(t);
      }
      if c.newDone.Some? {
        RedescribedAccepted(t.templates, k, t.tasks, j, s.templates[k].description, c.newDone.value);
      }
    }
  }

  lemma DeleteValid(s: State, id: string)
    requires TasksValid(s)
    ensures var effect := DoDeleteTask(s, id); effect.Wrote? ==> TasksValid(effect.state)
  {
    var k := FindId(TemplateIds(s.templates), id);
    if k >= 0 {
      RemovedAccepted(s.templates, k);
    }
  }

  lemma RemovedAccepted(ts: seq<TaskTemplate>, k: nat)
    requires TemplatesAccepted(ts) && k < |ts|
    ensures TemplatesAccepted(ts[..k] + ts[k + 1..])
  {
    var us, ids := ts[..k] + ts[k + 1..], TemplateIds(ts);
    assert TemplateIds(us) == ids[..k] + ids[k + 1..];
    forall t | t in us ensures t in ts {
    }
  }

  /** The wanted order, trimmed. */
  function Wanted(ids: seq<string>): (r: seq<string>)
    ensures |r| == |ids| && forall i :: 0 <= i < |ids| ==> r[i] == Trim(ids[i])
  {
    seq(|ids|, i requires 0 <= i < |ids| => Trim(ids[i]))
  }

  /** The ids, trimmed, are distinct ids of templates. */
  ghost predicate Listed(ts: seq<TaskTemplate>, wanted: seq<string>) {
    DistinctIds(wanted) && forall x :: x in wanted ==> x in TemplateIds(ts)
  }

  lemma ListedSnoc(ts: seq<TaskTemplate>, wanted: seq<string>, id: string)
    ensures Listed(ts, wanted + [id]) <==> Listed(ts, wanted) && id !in wanted && id in TemplateIds(ts)
  {
    var all := wanted + [id];
    assert forall i :: 0 <= i < |wanted| ==> all[i] == wanted[i];
    assert all[|wanted|] == id;
    if Listed(ts, all) {
      forall i, j | 0 <= i < j < |wanted| ensures wanted[i] != wanted[j] { assert all[i] != all[j]; }
      forall x | x in wanted ensures x in TemplateIds(ts) { assert x in all; }
      assert id in all;
    }
  }

  lemma NoBlankId(ts: seq<TaskTemplate>)
    requires TemplatesAccepted(ts)
    ensures "" !in TemplateIds(ts)
  {
    forall i | 0 <= i < |ts| ensures TemplateIds(ts)[i] != "" { assert ts[i] in ts; }
  }

  /** A list of ids is taken exactly when, trimmed, they are distinct ids of templates; the result follows it. */
  lemma {:induction false} PickExactly(ts: seq<TaskTemplate>, ids: seq<string>)
    requires TemplatesAccepted(ts)
    ensures Pick(ts, ids).Some? <==> Listed(ts, Wanted(ids))
    ensures Pick(ts, ids).Some? ==>
      var r := Pick(ts, ids).value; TemplateIds(r) == Wanted(ids) && forall t :: t in r ==> t in ts
  {
    if ids != [] {
      var n := |ids| - 1;
      var some, id := Wanted(ids[..n]), Trim(ids[n]);
      PickExactly(ts, ids[..n]);
      assert Wanted(ids) == some + [id];
      ListedSnoc(ts, some, id);
      NoBlankId(ts);
      FindIdFinds(TemplateIds(ts), id);
      if Pick(ts, ids).Some? { PickedSnoc(ts, Pick(ts, ids[..n]).value, FindId(TemplateIds(ts), id)); }
    }
  }

  lemma PickedSnoc(ts: seq<TaskTemplate>, r: seq<TaskTemplate>, k: int)
    requires 0 <= k < |ts| && forall t :: t in r ==> t in ts
    ensures TemplateIds(r + [ts[k]]) == TemplateIds(r) + [TemplateIds(ts)[k]]
    ensures forall t :: t in r + [ts[k]] ==> t in ts
  {
  }

  lemma {:induction false} DistinctCount<T>(xs: seq<T>)
    requires forall i, j :: 0 <= i < j < |xs| ==> xs[i] != xs[j]
    ensures |set x | x in xs| == |xs|
    ensures forall x :: multiset(xs)[x] == if x in xs then 1 else 0
  {
    if xs != [] {
      var init, last := xs[..|xs| - 1], xs[|xs| - 1];
      DistinctCount(init);
      assert xs == init + [last];
      assert (set x | x in xs) == (set x | x in init) + {last};
    }
  }

  lemma SubsetOfSameSize<T>(a: set<T>, b: set<T>)
    requires a <= b && |a| == |b|
    ensures a == b
  {
    assert |b - a| == |b| - |a|;
  }

  lemma SameElements<T>(r: seq<T>, ts: seq<T>)
    requires |r| == |ts| && forall t :: t in r ==> t in ts
    requires forall i, j :: 0 <= i < j < |r| ==> r[i] != r[j]
    requires forall i, j :: 0 <= i < j < |ts| ==> ts[i] != ts[j]
    ensures multiset(r) == multiset(ts)
  {
    DistinctCount(r);
    DistinctCount(ts);
    var rs, all := set t | t in r, set t | t in ts;
    SubsetOfSameSize(rs, all);
    forall t ensures multiset(r)[t] == multiset(ts)[t] {
      assert t in rs <==> t in r;
      assert t in all <==> t in ts;
    }
  }

  lemma DistinctTemplates(ts: seq<TaskTemplate>)
    requires DistinctIds(TemplateIds(ts))
    ensures forall i, j :: 0 <= i < j < |ts| ==> ts[i] != ts[j]
  {
    forall i, j | 0 <= i < j < |ts| ensures ts[i] != ts[j] { assert TemplateIds(ts)[i] != TemplateIds(ts)[j]; }
  }

  /** An accepted reordering has the same templates, in the requested order. */
  lemma ReorderIsPermutation(s: State, ids: seq<string>)
    requires TasksValid(s)
    ensures var effect := DoReorder(s, ids);
      && (effect.Wrote? <==> |ids| == |s.templates| && Listed(s.templates, Wanted(ids)))
      && (effect.Wrote? ==>
            && effect.state == s.(templates := effect.state.templates) && TemplateIds(effect.state.templates) == Wanted(ids)
            && multiset(effect.state.templates) == multiset(s.templates))
  {
    PickExactly(s.templates, ids);
    if DoReorder(s, ids).Wrote? {
      var r := Pick(s.templates, ids).value;
      DistinctTemplates(r);
      DistinctTemplates(s.templates);
      SameElements(r, s.templates);
    }
  }

  lemma ReorderValid(s: State, ids: seq<string>)
    requires TasksValid(s)
    ensures var effect := DoReorder(s, ids); effect.Wrote? ==> TasksValid(effect.state)
  {
    PickExactly(s.templates, ids);
  }

  lemma CreateValid(s: State, c: Command)
    requires TasksValid(s) && c.CreateTask? && c.id != "" && c.id !in TemplateIds(s.templates)
    ensures var effect := DoCreateTask(s, c.id, c.description); effect.Wrote? ==> TasksValid(effect.state)
  {
    TrimTwice(c.description);
    var ts := s.templates + [TaskTemplate(c.id, Trim(c.description))];
    assert TemplateIds(ts) == TemplateIds(s.templates) + [c.id];
  }

  lemma PlainValid(def: Definition, s: State, c: Command, now: nat)
    requires TasksValid(s) && Plain(c) && (c.CreateTask? ==> c.id != "" && c.id !in TemplateIds(s.templates))
    ensures var effect := DoPlain(def, s, c, now); effect.Wrote? ==> TasksValid(effect.state)
  {
    match c {
      case CreateTask(_, _) => CreateValid(s, c);
      case UpdateTask(_, _, _, _) => UpdateValid(s, c);
      case DeleteTask(id) => DeleteValid(s, id);
      case ReorderTasks(ids) => ReorderValid(s, ids);
      case Start(_, _, _, _, _) => CycleTasksValid(s);
      case Message(_, _, _, _) => CycleTasksValid(s);
      case Tick(_, _, _, _, _) => CycleTasksValid(s);
      case Pause =>
      case Resume(_) =>
      case Respond(_, _) =>
    }
  }

  /**
   After the last template is deleted, the next load makes the running tasks the templates. So the deleted
   template is back exactly if it was the last one and is one of the running tasks.
   */
  lemma DeletedTemplateReturns(def: Definition, s: State, id: string, now: nat)
    requires TasksValid(s) && DoDeleteTask(s, id).Wrote?
    ensures var left := DoDeleteTask(s, id).state;
      var again := TemplateIds(Enter(def, left, now).state.templates);
      && again == (if left.templates == [] then TaskIds(left.tasks) else TemplateIds(left.templates))
      && (id in again <==> left.templates == [] && id in TaskIds(s.tasks))
  {
    var left := DoDeleteTask(s, id).state;
    DeleteValid(s, id);
    EnterValid(def, left, now);
    TemplatesReloaded(def, left, now);
    DeletedIsGone(s, id);
  }

  lemma TemplatesReloaded(def: Definition, s: State, now: nat)
    requires TasksValid(s)
    ensures TemplateIds(Enter(def, s, now).state.templates) ==
      if s.templates == [] then TaskIds(s.tasks) else TemplateIds(s.templates)
  {
    TrimmedAccepted(s.templates, s.tasks);
    TemplatesOfAccepted(TrimTasks(s.tasks));
    assert Enter(def, s, now).state.templates == Normalized(s).templates;
  }

  lemma DeletedIsGone(s: State, id: string)
    requires TasksValid(s) && DoDeleteTask(s, id).Wrote?
    ensures id !in TemplateIds(DoDeleteTask(s, id).state.templates)
  {
    var k, ids := FindId(TemplateIds(s.templates), id), TemplateIds(s.templates);
    FindIdFinds(ids, id);
    assert TemplateIds(DoDeleteTask(s, id).state.templates) == ids[..k] + ids[k + 1..];
  }

  // ----- whole runs

  ghost predicate PassValid(p: Pass) {
    (forall i :: 0 <= i < |p.saves| ==> TasksValid(p.saves[i].state)) && (p.held.Some? ==> TasksValid(p.held.value))
  }

  lemma CommandValid(def: Definition, s: State, c: Command, now: nat)
    requires TasksValid(s) && FreshId(s, c)
    ensures PassValid(Do(def, s, c, now))
  {
    if !c.Reset? && !c.SpecChange? && !Skipped(def, c) {
      EnterValid(def, s, now);
      EnteredValid(def, Enter(def, s, now), c, now);
    }
  }

  lemma EnteredValid(def: Definition, e: Entry, c: Command, now: nat)
    requires TasksValid(e.state) && !c.Reset? && !c.SpecChange?
    requires c.CreateTask? ==> c.id != "" && c.id !in TemplateIds(e.state.templates)
    requires forall i :: 0 <= i < |e.saves| ==> e.saves[i].state == e.state
    ensures PassValid(DoEntered(def, e, c, now))
  {
    if c.Reconcile? {
      ReconcileKeepsLists(def, e, c.env, now);
    } else if !c.Reflect? {
      PlainValid(def, e.state, c, now);
    }
  }

  ghost predicate AllFreshIds(w: World, acts: seq<Action>) {
    acts != [] ==>
      var n := |acts| - 1;
      AllFreshIds(w, acts[..n]) && (acts[n].Run? ==> FreshId(Execute(w, acts[..n]).disk, acts[n].command))
  }

  ghost predicate WorldValid(w: World) {
    TasksValid(w.disk) && forall i :: 0 <= i < |w.live| ==> TasksValid(w.live[i])
  }

  lemma NextValid(w: World, a: Action)
    requires WorldValid(w) && (a.Run? ==> FreshId(w.disk, a.command))
    ensures WorldValid(Next(w, a))
  {
    if a.Run? {
      CommandValid(a.def, w.disk, a.command, a.now);
      var p := Do(a.def, w.disk, a.command, a.now);
      var k := Min(a.writes, |p.saves|);
      assert k > 0 ==> p.saves[..k][k - 1] == p.saves[k - 1];
    } else if a.copy < |w.live| {
      var m := w.live[a.copy];
      var p := DoTool(a.def, m, a.tool, a.now);
      assert p.memory.tasks == m.tasks && p.memory.templates == m.templates;
      assert p.saves != [] ==> p.saves[0].state == p.memory;
    }
  }

  /** No run, however it interleaves, leads to a record that the next load rejects. */
  lemma {:induction false} EveryRunCanBeLoaded(now: nat, acts: seq<Action>)
    requires AllFreshIds(Fresh(now), acts)
    ensures var w := Execute(Fresh(now), acts); WorldValid(w) && forall def, t :: Enter(def, w.disk, t).ok
  {
    if acts != [] {
      var n := |acts| - 1;
      EveryRunCanBeLoaded(now, acts[..n]);
      NextValid(Execute(Fresh(now), acts[..n]), acts[n]);
    }
  }
}
