/**
 The edits that the automata service makes on a record in memory, written as the loops and field updates they
 are (internal/automata/tasklist.go, internal/automata/service_commands.go, internal/automata/controller.go).
 Each method is proved against the function of the record that the step functions use.
 */
module AutomataEdits {
  import opened Text
  import opened AutomataState
  import opened AutomataSteps

  // ----- task lists

  lemma TemplatesAcceptedSnoc(ts: seq<TaskTemplate>, t: TaskTemplate)
    ensures TemplateIds(ts + [t]) == TemplateIds(ts) + [t.id]
    ensures TrimTemplates(ts + [t]) == TrimTemplates(ts) + [t.(description := Trim(t.description))]
    ensures TemplatesAccepted(ts + [t]) <==>
      TemplatesAccepted(ts) && !Blank(t.description) && t.id != "" && t.id !in TemplateIds(ts)
  {
    var us := ts + [t];
    assert TemplateIds(us) == TemplateIds(ts) + [t.id];
    assert t in us && forall u :: u in us <==> u in ts || u == t;
    if t.id in TemplateIds(ts) {
      var k :| 0 <= k < |ts| && TemplateIds(ts)[k] == t.id;
      assert TemplateIds(us)[k] == TemplateIds(us)[|ts|];
    }
    if !DistinctIds(TemplateIds(ts)) {
      var a, b :| 0 <= a < b < |ts| && TemplateIds(ts)[a] == TemplateIds(ts)[b];
      assert TemplateIds(us)[a] == TemplateIds(us)[b];
    }
  }

  lemma TemplatesAcceptedPrefix(ts: seq<TaskTemplate>, n: nat)
    requires n <= |ts| && TemplatesAccepted(ts)
    ensures TemplatesAccepted(ts[..n])
  {
    assert TemplateIds(ts[..n]) == TemplateIds(ts)[..n];
  }

  /** Trims every template; fails on the first one without a description, without an id or with a repeated id. */
  method NormalizePersistedTaskTemplates(ts: seq<TaskTemplate>) returns (ok: bool, out: seq<TaskTemplate>)
    ensures ok <==> TemplatesAccepted(ts)
    ensures ok ==> out == TrimTemplates(ts)
  {
    out := [];
    var seen: set<string> := {};
    for i := 0 to |ts|
      invariant TemplatesAccepted(ts[..i]) && out == TrimTemplates(ts[..i])
      invariant forall id :: id in seen <==> id in TemplateIds(ts[..i])
    {
      TemplatesAcceptedSnoc(ts[..i], ts[i]);
      assert ts[..i + 1] == ts[..i] + [ts[i]];
      var description := Trim(ts[i].description);
      if description == "" || ts[i].id == "" || ts[i].id in seen {
        if TemplatesAccepted(ts) { TemplatesAcceptedPrefix(ts, i + 1); }
        return false, out;
      }
      seen := seen + {ts[i].id};
      out := out + [ts[i].(description := description)];
    }
    assert ts[..|ts|] == ts;
    ok := true;
  }

  lemma TasksAcceptedSnoc(ts: seq<Task>, t: Task)
    ensures TaskIds(ts + [t]) == TaskIds(ts) + [t.id]
    ensures TrimTasks(ts + [t]) == TrimTasks(ts) + [t.(description := Trim(t.description))]
    ensures TasksAccepted(ts + [t]) <==>
      TasksAccepted(ts) && !Blank(t.description) && t.id != "" && t.id !in TaskIds(ts)
  {
    var us := ts + [t];
    assert TaskIds(us) == TaskIds(ts) + [t.id];
    assert t in us && forall u :: u in us <==> u in ts || u == t;
    if t.id in TaskIds(ts) {
      var k :| 0 <= k < |ts| && TaskIds(ts)[k] == t.id;
      assert TaskIds(us)[k] == TaskIds(us)[|ts|];
    }
    if !DistinctIds(TaskIds(ts)) {
      var a, b :| 0 <= a < b < |ts| && TaskIds(ts)[a] == TaskIds(ts)[b];
      assert TaskIds(us)[a] == TaskIds(us)[b];
    }
  }

  lemma TasksAcceptedPrefix(ts: seq<Task>, n: nat)
    requires n <= |ts| && TasksAccepted(ts)
    ensures TasksAccepted(ts[..n])
  {
    assert TaskIds(ts[..n]) == TaskIds(ts)[..n];
  }

  method NormalizePersistedTasks(ts: seq<Task>) returns (ok: bool, out: seq<Task>)
    ensures ok <==> TasksAccepted(ts)
    ensures ok ==> out == TrimTasks(ts)
  {
    out := [];
    var seen: set<string> := {};
    for i := 0 to |ts|
      invariant TasksAccepted(ts[..i]) && out == TrimTasks(ts[..i])
      invariant forall id :: id in seen <==> id in TaskIds(ts[..i])
    {
      TasksAcceptedSnoc(ts[..i], ts[i]);
      assert ts[..i + 1] == ts[..i] + [ts[i]];
      var description := Trim(ts[i].description);
      if description == "" || ts[i].id == "" || ts[i].id in seen {
        if TasksAccepted(ts) { TasksAcceptedPrefix(ts, i + 1); }
        return false, out;
      }
      seen := seen + {ts[i].id};
      out := out + [ts[i].(description := description)];
    }
    assert ts[..|ts|] == ts;
    ok := true;
  }

  method CloneTaskTemplatesFromTasks(ts: seq<Task>) returns (out: seq<TaskTemplate>)
    ensures out == TemplatesOf(ts)
  {
    out := [];
    for i := 0 to |ts|
      invariant out == TemplatesOf(ts)[..i]
    {
      out := out + [TaskTemplate(ts[i].id, ts[i].description)];
    }
  }

  method CloneTasksFromTemplates(ts: seq<TaskTemplate>) returns (out: seq<Task>)
    ensures out == TasksOf(ts)
  {
    out := [];
    for i := 0 to |ts|
      invariant out == TasksOf(ts)[..i]
    {
      out := out + [Task(ts[i].id, ts[i].description, false)];
    }
  }

  lemma FirstIsFound(ids: seq<string>, id: string, k: nat)
    requires k < |ids| && ids[k] == id && id !in ids[..k]
    ensures FindId(ids, id) == k
  {
    FindIdFinds(ids, id);
  }

  method FindTaskTemplateIndex(ts: seq<TaskTemplate>, id: string) returns (k: int)
    ensures k == FindId(TemplateIds(ts), id)
  {
    for i := 0 to |ts|
      invariant id !in TemplateIds(ts)[..i]
    {
      if ts[i].id == id {
        FirstIsFound(TemplateIds(ts), id, i);
        return i;
      }
      assert TemplateIds(ts)[..i + 1] == TemplateIds(ts)[..i] + [ts[i].id];
    }
    FindIdFinds(TemplateIds(ts), id);
    assert TemplateIds(ts)[..|ts|] == TemplateIds(ts);
    return -1;
  }

  method FindTaskIndex(ts: seq<Task>, id: string) returns (k: int)
    ensures k == FindId(TaskIds(ts), id)
  {
    for i := 0 to |ts|
      invariant id !in TaskIds(ts)[..i]
    {
      if ts[i].id == id {
        FirstIsFound(TaskIds(ts), id, i);
        return i;
      }
      assert TaskIds(ts)[..i + 1] == TaskIds(ts)[..i] + [ts[i].id];
    }
    FindIdFinds(TaskIds(ts), id);
    assert TaskIds(ts)[..|ts|] == TaskIds(ts);
    return -1;
  }

  /** The templates in the requested order, if every one is named exactly once. */
  method PickTemplates(ts: seq<TaskTemplate>, ids: seq<string>) returns (r: Option<seq<TaskTemplate>>)
    ensures r == Pick(ts, ids)
  {
    var reordered: seq<TaskTemplate> := [];
    var seen: set<string> := {};
    for i := 0 to |ids|
      invariant Pick(ts, ids[..i]) == Some(reordered)
      invariant forall id :: id in seen <==> id in TemplateIds(reordered)
    {
      assert ids[..i + 1][..i] == ids[..i];
      var id := Trim(ids[i]);
      var k := FindTaskTemplateIndex(ts, id);
      if id == "" || id in seen || k < 0 {
        PickFails(ts, ids, i + 1);
        return None;
      }
      FindIdFinds(TemplateIds(ts), id);
      assert TemplateIds(reordered + [ts[k]]) == TemplateIds(reordered) + [id];
      seen := seen + {id};
      reordered := reordered + [ts[k]];
    }
    assert ids[..|ids|] == ids;
    return Some(reordered);
  }

  lemma {:induction false} PickFails(ts: seq<TaskTemplate>, ids: seq<string>, n: nat)
    requires n <= |ids| && Pick(ts, ids[..n]).None?
    ensures Pick(ts, ids).None?
  {
    if n < |ids| {
      assert ids[..n] == ids[..|ids| - 1][..n];
      PickFails(ts, ids[..|ids| - 1], n);
    } else {
      assert ids[..n] == ids;
    }
  }

  /** Edits the template and the running task, and tells a running automata of a ticked or reopened task. */
  method EditTask(s: State, id: string, newDescription: Option<string>, newDone: Option<bool>, text: string)
    returns (err: bool, changed: bool, t: State)
    ensures var effect := DoUpdateTask(s, Command.UpdateTask(id, newDescription, newDone, text));
      err == effect.Refused? && (!err ==> changed == effect.Wrote? && (changed ==> t == effect.state))
  {
    t, changed := s, false;
    var k := FindTaskTemplateIndex(t.templates, id);
    if k < 0 { return true, false, s; }
    var j := FindTaskIndex(t.tasks, id);
    if newDescription.None? && newDone.None? { return true, false, s; }
    if newDescription.Some? {
      var description := Trim(newDescription.value);
      if description == "" { return true, false, s; }
      if description != t.templates[k].description {
        t := t.(templates := t.templates[k := t.templates[k].(description := description)]);
        changed := true;
      }
      if j >= 0 && t.tasks[j].description != description {
        t := t.(tasks := t.tasks[j := t.tasks[j].(description := description)]);
        changed := true;
      }
      assert t == Redescribe(s, k, j, description);
    }
    if newDone.Some? {
      if j < 0 { return true, false, s; }
      if t.tasks[j].done != newDone.value {
        assert t.tasks[j].done == s.tasks[j].done;
        t := t.(tasks := t.tasks[j := t.tasks[j].(done := newDone.value)]);
        changed := true;
        if t.lifecycle.Running? || t.lifecycle.Waiting? || t.lifecycle.Paused? {
          t := QueueTurnMessage(t, TaskListUpdated, text);
        }
      }
    }
    err := false;
  }

  // ----- cycles

  method QueueTurnMessage(s: State, kind: MessageKind, text: string) returns (t: State)
    ensures t == Enqueue(s, kind, text)
  {
    t := s;
    if Trim(text) == "" { return; }
    t := t.(messages := t.messages + [TurnMessage(kind, text)]);
  }

  method ClearCurrentCycleState(s: State) returns (t: State)
    ensures t == ClearCycle(s)
  {
    t := s;
    t := t.(reason := NoReason);
    t := t.(prompt := None);
    t := t.(response := None);
    t := t.(messages := []);
    t := t.(session := "");
    t := t.(run := None);
    t := t.(lastRun := None);
    t := t.(cycle := "");
    t := t.(tasks := []);
    t := t.(startRequestedAt := None);
    t := t.(pausedFrom := None);
    t := t.(finishedAt := None);
    t := t.(reflectingSession := "");
    t := t.(lastSummary := "");
    t := t.(lastError := NoProblem);
  }

  method ResetRuntimeState(s: State) returns (t: State)
    ensures t == ResetRuntime(s)
  {
    t := ClearCurrentCycleState(s);
    t := t.(activatedAt := None);
    t := t.(activatedBy := Nobody);
    t := t.(lastScheduleMinute := None);
  }

  /** A new cycle of a workflow, once its old runtime has been cleaned up. */
  method OpenWorkflowCycle(s: State, instruction: string, cycle: string, now: nat) returns (t: State)
    ensures t == StartWorkflowCycle(s, instruction, cycle, now)
  {
    t := ResetRuntimeState(s);
    var tasks := CloneTasksFromTemplates(t.templates);
    t := t.(tasks := tasks);
    t := t.(cycle := cycle);
    t := t.(lastTriggeredAt := Some(now));
    t := t.(lifecycle := Running);
    t := t.(reason := NoReason);
    t := t.(instruction := instruction);
    t := t.(startRequestedAt := Some(now));
  }

  /** A new cycle of a service, which stays activated by whoever activated it. */
  method OpenServiceCycle(s: State, instruction: string, who: Actor, cycle: string, now: nat) returns (t: State)
    ensures t == StartServiceCycle(s, instruction, who, cycle, now)
  {
    var activatedAt, activatedBy := s.activatedAt, s.activatedBy;
    t := ClearCurrentCycleState(s);
    var tasks := CloneTasksFromTemplates(t.templates);
    t := t.(tasks := tasks);
    t := t.(cycle := cycle);
    t := t.(lastTriggeredAt := Some(now));
    t := t.(lifecycle := Running);
    t := t.(reason := NoReason);
    t := t.(instruction := instruction);
    t := t.(startRequestedAt := Some(now));
    t := t.(activatedAt := if activatedAt.Some? then activatedAt else Some(now));
    if activatedBy != Nobody {
      t := t.(activatedBy := activatedBy);
    } else {
      t := t.(activatedBy := who);
    }
  }

  // ----- agent sessions

  /** Starts a queued follow-up of the session, if there is one. */
  method FlushQueuedSessionTurn(s: State, reply: FlushReply, now: nat) returns (t: State, changed: bool)
    requires reply.Flushed?
    ensures (t, changed) == FlushSession(s, reply, now)
  {
    t, changed := s, false;
    if t.session == "" { return; }
    if reply.session != "" && reply.session != t.session {
      t := t.(session := reply.session);
      changed := true;
    }
    if reply.started {
      t := t.(lastTriggeredAt := Some(now));
      t := t.(lifecycle := Running);
      t := t.(reason := NoReason);
      changed := true;
    }
  }

  /** Finds or creates the session and enqueues the text, once more if the session is gone. */
  method ReachSession(s: State, env: TurnEnv) returns (t: State, queued: bool, error: Option<string>)
    ensures var o := OpenSession(s, env);
      t == o.state && if error.Some? then o.OpenFailed? && o.error == error.value else o == Opened(t, queued)
  {
    t, queued, error := s, false, None;
    if t.session == "" {
      if env.create.CreateError? { return t, false, Some(env.create.error); }
      t := t.(session := env.create.session);
    }
    var reply := env.enqueue;
    if reply.SessionMissing? {
      if env.recreate.CreateError? { return t, false, Some(env.recreate.error); }
      t := t.(session := env.recreate.session);
      reply := env.reenqueue;
    }
    if !reply.Enqueued? { return t, false, Some(reply.error); }
    if reply.session != "" { t := t.(session := reply.session); }
    queued := reply.queued;
  }

  // ----- schedules

  method ScheduleListDueAt(items: seq<iset<nat>>, minute: nat) returns (due: bool)
    ensures due <==> DueAt(items, minute)
  {
    for i := 0 to |items|
      invariant forall k :: 0 <= k < i ==> minute !in items[k]
    {
      if minute in items[i] { return true; }
    }
    return false;
  }

  /** What a tick makes of the loaded record: an error, nothing, or a record to save. */
  method TickRecord(def: Definition, s: State, minute: nat, activity: Activity, cleanupOk: bool, cycle: string, text: string,
                    now: nat) returns (err: bool, changed: bool, t: State)
    ensures var effect := DoTick(def, s, Tick(minute, activity, cleanupOk, cycle, text), now);
      err == effect.Refused? && changed == effect.Wrote? && (changed ==> t == effect.state)
  {
    t := s;
    if t.lifecycle.Paused? || t.lastScheduleMinute == Some(minute) { return false, false, s; }
    var due := ScheduleListDueAt(def.schedule, minute);
    if !due { return false, false, s; }
    t := t.(lastScheduleMinute := Some(minute));
    var standing := Trim(def.standingInstruction);
    if standing == "" {
      t := t.(lastError := ScheduleNeedsInstruction);
      return false, true, t;
    }
    if t.templates == [] {
      t := t.(lastError := ScheduleNeedsTemplates);
      return false, true, t;
    }
    if t.prompt.Some? || t.run.Some? || t.messages != [] { return false, true, t; }
    if t.session != "" && (activity.working || activity.hasPrompt || activity.hasQueued) { return false, true, t; }
    if !cleanupOk { return true, false, s; }
    t := OpenServiceCycle(t, standing, Schedule, cycle, now);
    t := QueueTurnMessage(t, ScheduledTick, text);
    t := t.(lastScheduleMinute := Some(minute));
    return false, true, t;
  }
}
