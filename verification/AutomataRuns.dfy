/**
 Whole runs of an automata. Commands, ticks and reconcile passes load the record from
 disk; agent tool calls change the copy that some controller runtime points at and
 save that copy, so a save may overwrite a newer record. Any write may fail.
 */
module AutomataRuns {
  import opened Text
  import opened AutomataState
  import opened AutomataSteps
  import opened AutomataSafety

  /**
   All messages ever written to disk, and those that left it, in order; `handed` are the positions, among
   those that left it, of the ones handed over.
   */
  datatype Ledger = Ledger(queued: seq<TurnMessage>, removed: seq<TurnMessage>, handed: set<nat>)

  /** A message the agent session accepted, with the position it has, or is about to get, among those that left the disk. */
  datatype Gift = Gift(at: nat, message: TurnMessage)

  /**
   `live` are the records held by controller runtimes, `gifts` what the agent session accepted, in order,
   and `cycles` the minutes of scheduled cycles.
   */
  datatype World = World(disk: State, live: seq<State>, ledger: Ledger, gifts: seq<Gift>, cycles: seq<nat>)

  /** `writes` is how many saves succeed before one fails. */
  datatype Action =
    | Run(def: Definition, command: Command, now: nat, writes: nat)
    | Call(def: Definition, copy: nat, tool: Tool, now: nat, writes: nat)

  function Fresh(now: nat): World { World(InitialState(now), [], Ledger([], [], {}), [], []) }

  function Book(l: Ledger, before: State, note: Note): Ledger {
    match note
    case Queued(added) => l.(queued := l.queued + added)
    case Handed(_) =>
      var from := |l.removed|;
      l.(removed := l.removed + before.messages, handed := l.handed + Positions(from, from + |before.messages|))
    case Dropped(_, next) => l.(queued := l.queued + next, removed := l.removed + before.messages)
  }

  function Positions(lo: nat, hi: nat): set<nat> {
    if hi <= lo then {} else Positions(lo, hi - 1) + {hi - 1}
  }

  function BookAll(l: Ledger, s: State, saves: seq<Save>): Ledger {
    if saves == [] then l
    else
      var n := |saves| - 1;
      Book(BookAll(l, s, saves[..n]), Committed(s, saves, n), saves[n].note)
  }

  function Min(a: nat, b: nat): nat { if a <= b then a else b }

  /** The minutes of the scheduled cycles that the performed writes started. */
  function Scheduled(c: Command, done: seq<Save>): seq<nat> {
    if c.Tick? && done != [] && done[|done| - 1].note.Dropped? then [c.minute] else []
  }

  function Gifts(from: nat, ms: seq<TurnMessage>): seq<Gift> {
    seq(|ms|, i requires 0 <= i < |ms| => Gift(from + i, ms[i]))
  }

  /** All writes of a pass but the last. */
  function Earlier(p: Pass): seq<Save> { if p.saves == [] then [] else p.saves[..|p.saves| - 1] }

  /** A pass reaches its last write if the writes before it succeed. */
  predicate Reached(p: Pass, writes: nat) { |p.saves| <= writes + 1 }

  /** What the session accepts in a pass: the messages pending before its last write, if the pass gets that far. */
  function NewGifts(w: World, p: Pass, writes: nat): seq<Gift> {
    if p.given.Some? && Reached(p, writes)
    then Gifts(|BookAll(w.ledger, w.disk, Earlier(p)).removed|, p.given.value) else []
  }

  function Next(w: World, a: Action): World {
    match a
    case Run(def, c, now, writes) =>
      var p := Do(def, w.disk, c, now);
      var done := p.saves[..Min(writes, |p.saves|)];
      World(Committed(w.disk, done, |done|),
            if p.held.Some? && Reached(p, writes) then w.live + [p.held.value] else w.live,
            BookAll(w.ledger, w.disk, done), w.gifts + NewGifts(w, p, writes), w.cycles + Scheduled(c, done))
    case Call(def, copy, tool, now, writes) =>
      if copy >= |w.live| then w
      else
        var p := DoTool(def, w.live[copy], tool, now);
        var live := w.live[copy := p.memory];
        if writes == 0 || p.saves == [] then w.(live := live)
        else w.(live := live, disk := p.saves[0].state, ledger := Book(w.ledger, w.disk, p.saves[0].note))
  }

  function Execute(w: World, acts: seq<Action>): World {
    if acts == [] then w else Next(Execute(w, acts[..|acts| - 1]), acts[|acts| - 1])
  }

  // ----- the lifecycle invariant

  ghost predicate WorldInv(w: World) {
    Inv(w.disk) && forall i :: 0 <= i < |w.live| ==> Inv(w.live[i])
  }

  lemma NextKeepsInv(w: World, a: Action)
    requires WorldInv(w)
    ensures WorldInv(Next(w, a))
  {
    match a {
      case Run(def, c, now, writes) =>
        CommandSound(def, w.disk, c, now);
        var p := Do(def, w.disk, c, now);
        var k := Min(writes, |p.saves|);
        assert k > 0 ==> p.saves[..k][k - 1] == p.saves[k - 1];
      case Call(def, copy, tool, now, writes) =>
        if copy < |w.live| { ToolSound(def, w.live[copy], tool, now); }
    }
  }

  /**
   In every run from a new record, with any definitions, any answers from outside,
   any failing writes and any stale copies, the invariant holds of the stored record
   and of every copy.
   */
  lemma {:induction false} EveryRunKeepsInvariant(now: nat, acts: seq<Action>)
    ensures WorldInv(Execute(Fresh(now), acts))
  {
    if acts != [] {
      EveryRunKeepsInvariant(now, acts[..|acts| - 1]);
      NextKeepsInv(Execute(Fresh(now), acts[..|acts| - 1]), acts[|acts| - 1]);
    }
  }

  // ----- no queued message is lost

  /** What left the disk, followed by what is pending, is everything that was queued, in order. */
  ghost predicate Balanced(w: World) {
    w.ledger.removed + w.disk.messages == w.ledger.queued
  }

  lemma ChainPrefix(s: State, saves: seq<Save>, n: nat)
    requires Chain(s, saves) && n <= |saves|
    ensures Chain(s, saves[..n]) && Committed(s, saves[..n], n) == Committed(s, saves, n)
  {
    var init := saves[..n];
    forall i {:trigger init[i]} | 0 <= i < n
      ensures Inv(init[i].state) && Lawful(Committed(s, init, i), init[i])
    {
      assert init[i] == saves[i];
      CommittedPrefix(s, saves, n, i);
    }
    CommittedPrefix(s, saves, n, n);
  }

  lemma CommittedPrefix(s: State, saves: seq<Save>, n: nat, k: nat)
    requires k <= n <= |saves|
    ensures Committed(s, saves[..n], k) == Committed(s, saves, k)
  {
  }

  lemma BookBalanced(l: Ledger, before: State, save: Save)
    requires l.removed + before.messages == l.queued && Lawful(before, save)
    ensures var b := Book(l, before, save.note); b.removed + save.state.messages == b.queued
  {
  }

  lemma {:induction false} BookAllBalanced(l: Ledger, s: State, saves: seq<Save>)
    requires Chain(s, saves) && l.removed + s.messages == l.queued
    ensures var b := BookAll(l, s, saves);
      b.removed + Committed(s, saves, |saves|).messages == b.queued
  {
    if saves != [] {
      var n := |saves| - 1;
      var init := saves[..n];
      ChainPrefix(s, saves, n);
      BookAllBalanced(l, s, init);
      BookBalanced(BookAll(l, s, init), Committed(s, saves, n), saves[n]);
    }
  }

  /** A tool call saves a copy that is up to date in its messages, or saves nothing, or finishes. */
  ghost predicate UpToDate(w: World, a: Action) {
    a.Call? && a.copy < |w.live| && a.writes > 0 && !a.tool.Finish? &&
    DoTool(a.def, w.live[a.copy], a.tool, a.now).saves != [] ==>
      w.live[a.copy].messages == w.disk.messages
  }

  /** One step accounts for every message exactly when it does not save an outdated copy. */
  lemma StepBalancedIffUpToDate(w: World, a: Action)
    requires WorldInv(w) && Balanced(w)
    ensures Balanced(Next(w, a)) <==> UpToDate(w, a)
  {
    match a {
      case Run(def, c, now, writes) =>
        CommandSound(def, w.disk, c, now);
        var p := Do(def, w.disk, c, now);
        var done := p.saves[..Min(writes, |p.saves|)];
        ChainPrefix(w.disk, p.saves, |done|);
        BookAllBalanced(w.ledger, w.disk, done);
      case Call(def, copy, tool, now, writes) =>
        if copy < |w.live| {
          ToolSound(def, w.live[copy], tool, now);
          var p := DoTool(def, w.live[copy], tool, now);
          if writes > 0 && p.saves != [] {
            assert p.saves[0].note == if tool.Finish? then Dropped(AutomataFinished, []) else Queued([]);
            var r, mine, theirs := w.ledger.removed, w.live[copy].messages, w.disk.messages;
            assert (r + mine)[|r|..] == mine && (r + theirs)[|r|..] == theirs;
          }
        }
    }
  }

  /** The books balance after every prefix of the run. */
  ghost predicate AlwaysBalanced(w: World, acts: seq<Action>) {
    Balanced(Execute(w, acts)) && (acts != [] ==> AlwaysBalanced(w, acts[..|acts| - 1]))
  }

  ghost predicate AlwaysUpToDate(w: World, acts: seq<Action>) {
    acts != [] ==>
      var n := |acts| - 1;
      AlwaysUpToDate(w, acts[..n]) && UpToDate(Execute(w, acts[..n]), acts[n])
  }

  /** A whole run loses or reorders no message on disk exactly when no outdated copy was saved in it. */
  lemma {:induction false} RunBalancedIffUpToDate(now: nat, acts: seq<Action>)
    ensures AlwaysBalanced(Fresh(now), acts) <==> AlwaysUpToDate(Fresh(now), acts)
  {
    if acts != [] {
      var n := |acts| - 1;
      var w := Execute(Fresh(now), acts[..n]);
      RunBalancedIffUpToDate(now, acts[..n]);
      EveryRunKeepsInvariant(now, acts[..n]);
      if Balanced(w) { StepBalancedIffUpToDate(w, acts[n]); }
    }
  }

  /** Saving a copy that is behind on its messages takes the newer ones off the disk without a trace in the books. */
  lemma OutdatedSaveLosesMessages(w: World, def: Definition, copy: nat, runId: string, now: nat)
    requires WorldInv(w) && Balanced(w) && copy < |w.live|
    requires w.live[copy].messages == [] && w.live[copy].run.None? && w.live[copy].prompt.None?
    requires w.disk.messages != []
    ensures var v := Next(w, Call(def, copy, RunDag(true, true, runId, ""), now, 1));
      v.disk.messages == [] && v.ledger == w.ledger && !Balanced(v)
  {
    StepBalancedIffUpToDate(w, Call(def, copy, RunDag(true, true, runId, ""), now, 1));
  }

  lemma ExecuteOneMore(w: World, acts: seq<Action>, a: Action)
    ensures Execute(w, acts + [a]) == Next(Execute(w, acts), a)
  {
    assert (acts + [a])[..|acts|] == acts;
  }
}
