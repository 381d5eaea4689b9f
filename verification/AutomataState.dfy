/**
 The runtime record of one automata and the invariant that all of its steps keep
 (internal/automata/types.go, internal/automata/service_state.go).
 An unset timestamp is `None`.
 */
module AutomataState {
  import opened Text

  datatype Kind = Workflow | Service
  datatype Lifecycle = Idle | Running | Waiting | Paused | Finished | Reflecting
  datatype Reason = NoReason | HumanInput | DagWait
  datatype Actor = Nobody | Schedule | Operator | User(name: string)
  datatype Prompt = Prompt(id: string, question: string)
  datatype MessageKind =
    | Kickoff | Resumed | HumanResponse | OperatorMessage | TaskListUpdated
    | ConfigUpdated | ScheduledTick | ChildRunMissing | ChildRunComplete
  datatype TurnMessage = TurnMessage(kind: MessageKind, text: string)
  datatype Problem = NoProblem | Problem(text: string) | ScheduleNeedsInstruction | ScheduleNeedsTemplates
  datatype TaskTemplate = TaskTemplate(id: string, description: string)
  datatype Task = Task(id: string, description: string, done: bool)

  /** `schedule` lists, for each cron entry, at which minutes it is due. */
  datatype Definition = Definition(
    kind: Kind, disabled: bool, standingInstruction: string,
    schedule: seq<iset<nat>>, reflectOnFinish: bool)

  datatype State = State(
    lifecycle: Lifecycle, reason: Reason,
    prompt: Option<Prompt>, response: Option<string>, messages: seq<TurnMessage>,
    session: string, run: Option<string>, lastRun: Option<string>, cycle: string,
    instruction: string, templates: seq<TaskTemplate>, tasks: seq<Task>,
    activatedAt: Option<nat>, activatedBy: Actor, startRequestedAt: Option<nat>,
    lastTriggeredAt: Option<nat>, lastScheduleMinute: Option<nat>, lastUpdatedAt: nat,
    pausedFrom: Option<Lifecycle>, finishedAt: Option<nat>, reflectingSession: string,
    lastSummary: string, lastError: Problem)

  function InitialState(now: nat): (s: State)
    ensures Inv(s) && TasksValid(s)
  {
    State(Idle, NoReason, None, None, [], "", None, None, "", "", [], [],
          None, Nobody, None, None, None, now, None, None, "", "", NoProblem)
  }

  predicate Active(l: Lifecycle) { l.Running? || l.Waiting? || l.Paused? }

  predicate Activated(s: State) { s.activatedAt.Some? || Active(s.lifecycle) }

  /** What every reachable record satisfies; no single line of the source says it. */
  ghost predicate Inv(s: State) {
    && !(s.run.Some? && s.prompt.Some?)
    && (s.run.Some? ==> Active(s.lifecycle))
    && (s.prompt.Some? ==> s.lifecycle.Paused? || (s.lifecycle.Waiting? && s.reason.HumanInput?))
    && (!Active(s.lifecycle) ==> s.run.None? && s.prompt.None? && s.messages == [])
    && (s.reason.HumanInput? ==> s.lifecycle.Waiting? && s.prompt.Some?)
    && (s.reason.DagWait? ==> s.lifecycle.Waiting? && s.run.Some?)
    && s.response.None?
  }

  /** A waiting automata knows what it is waiting for. */
  ghost predicate Caused(s: State) {
    s.lifecycle.Waiting? ==> s.prompt.Some? || s.run.Some?
  }

  // ----- task lists

  predicate DistinctIds(ids: seq<string>) {
    forall i, j :: 0 <= i < j < |ids| ==> ids[i] != ids[j]
  }

  function TemplateIds(ts: seq<TaskTemplate>): (ids: seq<string>)
    ensures |ids| == |ts|
  {
    seq(|ts|, i requires 0 <= i < |ts| => ts[i].id)
  }

  function TaskIds(ts: seq<Task>): (ids: seq<string>)
    ensures |ids| == |ts|
  {
    seq(|ts|, i requires 0 <= i < |ts| => ts[i].id)
  }

  /** The conditions under which the persisted lists are accepted on load. */
  predicate TemplatesAccepted(ts: seq<TaskTemplate>) {
    && (forall t :: t in ts ==> !Blank(t.description) && t.id != "")
    && DistinctIds(TemplateIds(ts))
  }

  predicate TasksAccepted(ts: seq<Task>) {
    && (forall t :: t in ts ==> !Blank(t.description) && t.id != "")
    && DistinctIds(TaskIds(ts))
  }

  ghost predicate TasksValid(s: State) {
    TemplatesAccepted(s.templates) && TasksAccepted(s.tasks)
  }

  function TrimTemplates(ts: seq<TaskTemplate>): seq<TaskTemplate> {
    seq(|ts|, i requires 0 <= i < |ts| => ts[i].(description := Trim(ts[i].description)))
  }

  function TrimTasks(ts: seq<Task>): seq<Task> {
    seq(|ts|, i requires 0 <= i < |ts| => ts[i].(description := Trim(ts[i].description)))
  }

  /** A new cycle starts with every template as an open task. */
  function TasksOf(ts: seq<TaskTemplate>): seq<Task> {
    seq(|ts|, i requires 0 <= i < |ts| => Task(ts[i].id, ts[i].description, false))
  }

  function TemplatesOf(ts: seq<Task>): seq<TaskTemplate> {
    seq(|ts|, i requires 0 <= i < |ts| => TaskTemplate(ts[i].id, ts[i].description))
  }

  /** Index of the first entry with the given id, or -1. */
  function FindId(ids: seq<string>, id: string): (k: int)
    ensures -1 <= k < |ids|
  {
    if ids == [] then -1
    else if ids[0] == id then 0
    else var k := FindId(ids[1..], id); if k < 0 then -1 else k + 1
  }

  lemma {:induction false} FindIdFinds(ids: seq<string>, id: string)
    ensures var k := FindId(ids, id);
      (k == -1 <==> id !in ids) && (k >= 0 ==> ids[k] == id && id !in ids[..k])
  {
    if ids != [] && ids[0] != id {
      FindIdFinds(ids[1..], id);
      var k := FindId(ids, id);
      assert k > 0 ==> ids[..k] == [ids[0]] + ids[1..][..k - 1];
    }
  }

  // ----- turn messages

  function Added(kind: MessageKind, text: string): (ms: seq<TurnMessage>)
    ensures ms == [] <==> Blank(text)
  {
    if Blank(text) then [] else [TurnMessage(kind, text)]
  }

  function Enqueue(s: State, kind: MessageKind, text: string): State {
    s.(messages := s.messages + Added(kind, text))
  }

  function Texts(ms: seq<TurnMessage>): seq<string> {
    seq(|ms|, i requires 0 <= i < |ms| => ms[i].text)
  }

  /** The text handed to the agent session for a batch of pending messages. */
  function PendingText(ms: seq<TurnMessage>): string {
    Join(Texts(ms), "\n\n")
  }

  // ----- loading and resets

  /** Trims the task lists; an empty template list is filled again from the running tasks. */
  function Normalized(s: State): State {
    var t := s.(tasks := TrimTasks(s.tasks), templates := TrimTemplates(s.templates));
    if t.templates == [] && t.tasks != [] then t.(templates := TemplatesOf(t.tasks)) else t
  }

  function ClearCycle(s: State): State {
    s.(reason := NoReason, prompt := None, response := None, messages := [], session := "",
       run := None, lastRun := None, cycle := "", tasks := [], startRequestedAt := None,
       pausedFrom := None, finishedAt := None, reflectingSession := "",
       lastSummary := "", lastError := NoProblem)
  }

  function ResetRuntime(s: State): State {
    ClearCycle(s).(activatedAt := None, activatedBy := Nobody, lastScheduleMinute := None)
  }
}
