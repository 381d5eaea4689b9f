/**
 The merged chat queue of a session (internal/agent/session.go), its flush protocol and
 its transfer to a new session manager when the session is rotated (internal/agent/api.go).
 */
module ChatQueue {
  import opened Text

  const SEPARATOR := "\n\n"

  /** The queue part of a session manager. */
  datatype Queue = Queue(texts: seq<string>, flushing: bool)

  predicate HasQueuedInput(q: Queue) { q.flushing || q.texts != [] }

  predicate CanBegin(q: Queue) { !q.flushing && q.texts != [] }

  function Appended(q: Queue, text: string): Queue { q.(texts := q.texts + [text]) }

  /** The queue with a drained text put back in front; nothing is put back for an empty text. */
  function PutBack(q: Queue, text: string): Queue {
    Queue(if text == "" then q.texts else [text] + q.texts, false)
  }

  class SessionManager {
    var queuedChatMessages: seq<string>
    var flushingQueuedChat: bool
    var working: bool

    constructor ()
      ensures Contents() == Queue([], false) && !working
    {
      queuedChatMessages, flushingQueuedChat, working := [], false, false;
    }

    function Contents(): Queue
      reads this
    {
      Queue(queuedChatMessages, flushingQueuedChat)
    }

    /** The text goes on the queue: the agent is busy or other text waits. */
    predicate Merges()
      reads this
    {
      working || HasQueuedInput(Contents())
    }

    /**
     Takes a text. `ready` says whether there is a provider and a loop for it, `prompted` whether an open prompt
     takes the text as its answer, `looped` whether the loop is still there when the text has been queued, and
     `starts` whether it is there when the text has been recorded for a turn at once. A working agent is asked to stop
     for the queued text. `kept` says that the call fails although the session has the text.
     */
    method EnqueueChatMessage(content: string, ready: bool, prompted: bool, looped: bool, starts: bool)
      returns (err: bool, queued: bool, interrupts: bool, ghost kept: bool)
      modifies this`queuedChatMessages
      ensures Contents() == if ready && !prompted && old(Merges()) then Appended(old(Contents()), content) else old(Contents())
      ensures queued <==> ready && !prompted && old(Merges()) && looped
      ensures interrupts <==> queued && working
      ensures err <==> !ready || (!prompted && if old(Merges()) then !looped else !starts)
      ensures kept <==> err && ready
    {
      err, queued, interrupts, kept := false, false, false, false;
      if !ready { return true, false, false, false; }
      if prompted { return; }
      var shouldQueue := working || flushingQueuedChat || |queuedChatMessages| > 0;
      if shouldQueue {
        queuedChatMessages := queuedChatMessages + [content];
        if !looped { return true, false, false, true; }
        return false, true, working, false;
      }
      err, kept := !starts, !starts;
    }

    method BeginQueuedChatFlush() returns (text: string, ok: bool)
      modifies this`queuedChatMessages, this`flushingQueuedChat
      ensures ok <==> CanBegin(old(Contents()))
      ensures ok ==> text == Join(old(queuedChatMessages), SEPARATOR) && Contents() == Queue([], true)
      ensures !ok ==> text == "" && Contents() == old(Contents())
    {
      if flushingQueuedChat || |queuedChatMessages| == 0 { return "", false; }
      flushingQueuedChat := true;
      text, ok := Join(queuedChatMessages, SEPARATOR), true;
      queuedChatMessages := [];
    }

    method CompleteQueuedChatFlush()
      modifies this`flushingQueuedChat
      ensures Contents() == old(Contents()).(flushing := false)
    {
      flushingQueuedChat := false;
    }

    method RestoreQueuedChatInput(text: string)
      modifies this`queuedChatMessages, this`flushingQueuedChat
      ensures Contents() == PutBack(old(Contents()), text)
    {
      if text == "" {
        CompleteQueuedChatFlush();
        return;
      }
      flushingQueuedChat := false;
      queuedChatMessages := [text] + queuedChatMessages;
    }

    /** Copies the queue and the flush marker to the manager that replaces this one. */
    method TransferTo(target: SessionManager)
      requires target != this && target.Contents() == Queue([], false)
      modifies target
      ensures target.Contents() == Contents()
    {
      var texts, flushing := queuedChatMessages, flushingQueuedChat;
      if |texts| > 0 || flushing {
        target.queuedChatMessages := target.queuedChatMessages + texts;
        target.flushingQueuedChat := flushing;
      }
    }
  }

  // ----- the protocol

  /** A drained text: the manager it came from and the one its flush now works on. */
  datatype Flight = Flight(text: string, home: nat, target: nat)

  /**
   All session managers there have been, the one the session is served by, the one being
   prepared to replace it, the flushes under way, and what arrived and was delivered.
   */
  datatype World = World(
    managers: seq<Queue>, live: nat, successor: Option<nat>, flights: seq<Flight>,
    arrived: seq<string>, delivered: seq<string>)

  datatype Action =
    | Enqueue(manager: nat, text: string, working: bool)
    | BeginFlush(manager: nat)
    | CopyQueue
    | Switch(byFlush: bool)
    | AbandonRotation
    | Reactivate
    | Evict
    | FindTarget
    | RestoreHome
    | RestoreTarget
    | Deliver
    | DeliverHalf

  function Set(w: World, m: nat, q: Queue): World
    requires m < |w.managers|
  {
    w.(managers := w.managers[m := q])
  }

  /** Whether the code would take this action now. Only non-empty texts get past the request check. */
  predicate Enabled(w: World, a: Action) {
    match a
    case Enqueue(m, text, working) => m < |w.managers| && text != "" && (working || HasQueuedInput(w.managers[m]))
    case BeginFlush(m) => m < |w.managers| && CanBegin(w.managers[m])
    case CopyQueue => w.live < |w.managers| && w.successor.None?
    case Switch(byFlush) => w.successor.Some? && (byFlush ==> w.flights != [])
    case AbandonRotation => w.successor.Some?
    case Reactivate => true
    case Evict => w.live < |w.managers|
    case FindTarget => w.flights != []
    case RestoreHome => w.flights != [] && w.flights[0].home < |w.managers|
    case RestoreTarget => w.flights != [] && w.flights[0].target < |w.managers|
    case Deliver => w.flights != [] && w.flights[0].target < |w.managers|
    case DeliverHalf => w.flights != [] && w.flights[0].target < |w.managers|
  }

  function Landed(w: World, m: nat): World
    requires w.flights != [] && m < |w.managers|
  {
    Set(w, m, PutBack(w.managers[m], w.flights[0].text)).(flights := w.flights[1..])
  }

  /**
   An evicted manager goes with whatever it holds, and the session is served by a new one. A flush that looks up
   its target gets the manager that serves then. Half delivered is a text that was recorded in the session before
   the loop turned out to be gone, so that it also goes back to the queue.
   */
  function Do(w: World, a: Action): World
    requires Enabled(w, a)
  {
    match a
    case Enqueue(m, text, _) => Set(w, m, Appended(w.managers[m], text)).(arrived := w.arrived + [text])
    case BeginFlush(m) =>
      Set(w, m, Queue([], true)).(flights := w.flights + [Flight(Join(w.managers[m].texts, SEPARATOR), m, m)])
    case CopyQueue => w.(managers := w.managers + [w.managers[w.live]], successor := Some(|w.managers|))
    case Switch(byFlush) =>
      var v := w.(live := w.successor.value, successor := None);
      if byFlush then v.(flights := [w.flights[0].(target := v.live)] + w.flights[1..]) else v
    case AbandonRotation => w.(successor := None)
    case Reactivate => w.(managers := w.managers + [Queue([], false)])
    case Evict => w.(managers := w.managers + [Queue([], false)], live := |w.managers|)
    case FindTarget => w.(flights := [w.flights[0].(target := w.live)] + w.flights[1..])
    case RestoreHome => Landed(w, w.flights[0].home)
    case RestoreTarget => Landed(w, w.flights[0].target)
    case Deliver =>
      var f := w.flights[0];
      Set(w, f.target, w.managers[f.target].(flushing := false)).(flights := w.flights[1..], delivered := w.delivered + [f.text])
    case DeliverHalf => Landed(w, w.flights[0].target).(delivered := w.delivered + [w.flights[0].text])
  }

  /** An action the code would not take changes nothing. */
  function Next(w: World, a: Action): World {
    if Enabled(w, a) then Do(w, a) else w
  }

  function Initial(): World { World([Queue([], false)], 0, None, [], [], []) }

  // ----- conservation

  predicate NonEmpty(texts: seq<string>) { forall i :: 0 <= i < |texts| ==> texts[i] != "" }

  function InFlight(w: World): seq<string> { seq(|w.flights|, i requires 0 <= i < |w.flights| => w.flights[i].text) }

  predicate Placed(w: World) {
    && w.live < |w.managers|
    && (w.successor.Some? ==> w.successor.value < |w.managers|)
    && (forall m :: 0 <= m < |w.managers| ==> NonEmpty(w.managers[m].texts))
    && NonEmpty(w.arrived) && NonEmpty(w.delivered) && NonEmpty(InFlight(w))
    && (forall i :: 0 <= i < |w.flights| ==> w.flights[i].home < |w.managers| && w.flights[i].target < |w.managers|)
  }

  /** What was delivered, what is in flight and what waits, joined, is what arrived, joined. */
  predicate Conserved(w: World)
    requires w.live < |w.managers|
  {
    Join(w.delivered + InFlight(w) + w.managers[w.live].texts, SEPARATOR) == Join(w.arrived, SEPARATOR)
  }

  /** At most one flush is in flight, and the serving manager knows. */
  predicate OneFlight(w: World)
    requires w.live < |w.managers|
  {
    |w.flights| <= 1 && (w.flights != [] <==> w.managers[w.live].flushing)
  }

  predicate Good(w: World) { Placed(w) && Conserved(w) && OneFlight(w) }

  /**
   The action works on the serving manager; a switch finds the copied queue still accurate, an eviction finds
   nothing waiting and no flush, and nothing is half delivered.
   */
  predicate UpToDate(w: World, a: Action)
    requires Placed(w)
  {
    Enabled(w, a) ==>
      match a
      case Enqueue(m, _, _) => m == w.live
      case BeginFlush(m) => m == w.live
      case Switch(_) =>
        var from, to := w.managers[w.live], w.managers[w.successor.value];
        from.flushing == to.flushing && Join(from.texts, SEPARATOR) == Join(to.texts, SEPARATOR)
      case Evict => w.managers[w.live] == Queue([], false)
      case DeliverHalf => false
      case RestoreHome => w.flights[0].home == w.live
      case RestoreTarget => w.flights[0].target == w.live
      case Deliver => w.flights[0].target == w.live
      case _ => true
  }

  // ----- joined texts

  lemma {:induction false} JoinEmpty(parts: seq<string>)
    requires NonEmpty(parts)
    ensures Join(parts, SEPARATOR) == "" <==> parts == []
  {
  }

  lemma NonEmptyConcat(a: seq<string>, b: seq<string>)
    requires NonEmpty(a) && NonEmpty(b)
    ensures NonEmpty(a + b)
  {
  }

  /** Appending the same text to equally joined lists. */
  lemma JoinSnoc(a: seq<string>, b: seq<string>, text: string)
    requires NonEmpty(a) && NonEmpty(b) && Join(a, SEPARATOR) == Join(b, SEPARATOR)
    ensures Join(a + [text], SEPARATOR) == Join(b + [text], SEPARATOR)
  {
    JoinEmpty(a);
    JoinEmpty(b);
    JoinConcat(a, [text], SEPARATOR);
    JoinConcat(b, [text], SEPARATOR);
  }

  lemma JoinQueued(pre: seq<string>, waiting: seq<string>, arrived: seq<string>, text: string)
    requires NonEmpty(pre) && NonEmpty(waiting) && NonEmpty(arrived)
    requires Join(pre + waiting, SEPARATOR) == Join(arrived, SEPARATOR)
    ensures Join(pre + (waiting + [text]), SEPARATOR) == Join(arrived + [text], SEPARATOR)
  {
    NonEmptyConcat(pre, waiting);
    JoinSnoc(pre + waiting, arrived, text);
    assert pre + waiting + [text] == pre + (waiting + [text]);
  }

  /** Leaving a non-empty text out shows. */
  lemma JoinMisses(pre: seq<string>, text: string, post: seq<string>)
    requires text != ""
    ensures Join(pre + [] + post, SEPARATOR) != Join(pre + [text] + post, SEPARATOR)
  {
    assert pre + [] + post == pre + post && pre + [text] + post == pre + ([text] + post);
    JoinConcat(pre, post, SEPARATOR);
    JoinConcat(pre, [text] + post, SEPARATOR);
    JoinConcat([text], post, SEPARATOR);
    assert |Join([text], SEPARATOR)| > 0;
  }

  lemma JoinLonger(a: seq<string>, text: string)
    requires text != ""
    ensures Join(a, SEPARATOR) != Join(a + [text], SEPARATOR)
  {
    JoinConcat(a, [text], SEPARATOR);
    assert Join([text], SEPARATOR) == text;
  }

  /** Two ends after the same beginning. */
  lemma JoinCancels(pre: seq<string>, a: seq<string>, b: seq<string>)
    requires NonEmpty(a) && NonEmpty(b)
    ensures Join(pre + a, SEPARATOR) == Join(pre + b, SEPARATOR) <==> Join(a, SEPARATOR) == Join(b, SEPARATOR)
  {
    JoinEmpty(a);
    JoinEmpty(b);
    JoinConcat(pre, a, SEPARATOR);
    JoinConcat(pre, b, SEPARATOR);
    if pre != [] && a != [] && b != [] {
      var p, x, y := Join(pre, SEPARATOR) + SEPARATOR, Join(a, SEPARATOR), Join(b, SEPARATOR);
      assert (p + x)[|p|..] == x && (p + y)[|p|..] == y;
    }
  }

  // ----- one action

  lemma EnqueuePlaced(w: World, a: Action)
    requires Good(w) && a.Enqueue? && Enabled(w, a) && a.manager == w.live
    ensures Placed(Do(w, a)) && OneFlight(Do(w, a)) && InFlight(Do(w, a)) == InFlight(w)
  {
    assert InFlight(Do(w, a)) == InFlight(w);
  }

  lemma EnqueueLive(w: World, a: Action)
    requires Good(w) && a.Enqueue? && Enabled(w, a) && a.manager == w.live
    ensures Good(Do(w, a))
  {
    EnqueuePlaced(w, a);
    NonEmptyConcat(w.delivered, InFlight(w));
    JoinQueued(w.delivered + InFlight(w), w.managers[w.live].texts, w.arrived, a.text);
  }

  lemma EnqueueStale(w: World, a: Action)
    requires Good(w) && a.Enqueue? && Enabled(w, a) && a.manager != w.live
    ensures !Conserved(Do(w, a))
  {
    assert InFlight(Do(w, a)) == InFlight(w);
    JoinLonger(w.arrived, a.text);
  }

  lemma BeginGoodIff(w: World, a: Action)
    requires Good(w) && a.BeginFlush? && Enabled(w, a)
    ensures Good(Do(w, a)) <==> a.manager == w.live
  {
    var v, texts := Do(w, a), w.managers[a.manager].texts;
    JoinEmpty(texts);
    if a.manager == w.live {
      assert InFlight(w) == [] && InFlight(v) == [Join(texts, SEPARATOR)];
      JoinMerge(w.delivered, texts, [], SEPARATOR);
      assert w.delivered + [] + texts == w.delivered + texts + [];
    }
  }

  lemma SwitchGoodIff(w: World, a: Action)
    requires Good(w) && a.Switch? && Enabled(w, a)
    ensures Good(Do(w, a)) <==> UpToDate(w, a)
  {
    var v := Do(w, a);
    assert InFlight(v) == InFlight(w);
    JoinCancels(w.delivered + InFlight(w), w.managers[w.live].texts, w.managers[w.successor.value].texts);
  }

  lemma LandedPlaced(w: World)
    requires Good(w) && w.flights != []
    ensures Placed(Landed(w, w.live)) && OneFlight(Landed(w, w.live)) && InFlight(Landed(w, w.live)) == []
    ensures w.flights[0].text != "" && InFlight(w) == [w.flights[0].text]
  {
    var text := w.flights[0].text;
    assert InFlight(w) == [text] && text in InFlight(w);
    NonEmptyConcat([text], w.managers[w.live].texts);
  }

  lemma LandedLive(w: World)
    requires Good(w) && w.flights != []
    ensures Good(Landed(w, w.live))
  {
    LandedPlaced(w);
    BetweenMoves(w.delivered, w.flights[0].text, w.managers[w.live].texts);
  }

  lemma BetweenMoves(a: seq<string>, text: string, b: seq<string>)
    ensures a + [text] + b == a + [] + ([text] + b)
  {
  }

  /** A text put back into a manager that serves no more is lost, and the serving manager waits for its flush. */
  lemma LandedStale(w: World, m: nat)
    requires Good(w) && w.flights != [] && m < |w.managers| && m != w.live
    ensures !Conserved(Landed(w, m)) && Landed(w, m).flights == [] && Landed(w, m).managers[w.live].flushing
  {
    var v, text, waiting := Landed(w, m), w.flights[0].text, w.managers[w.live].texts;
    assert InFlight(w) == [text] && InFlight(v) == [];
    assert text in InFlight(w);
    JoinMisses(w.delivered, text, waiting);
  }

  lemma LandedGoodIff(w: World, m: nat)
    requires Good(w) && w.flights != [] && m < |w.managers|
    ensures Good(Landed(w, m)) <==> m == w.live
  {
    if m == w.live { LandedLive(w); } else { LandedStale(w, m); }
  }

  lemma DeliverGoodIff(w: World, a: Action)
    requires Good(w) && a.Deliver? && Enabled(w, a)
    ensures Good(Do(w, a)) <==> w.flights[0].target == w.live
  {
    var v, text, waiting := Do(w, a), w.flights[0].text, w.managers[w.live].texts;
    assert InFlight(w) == [text] && InFlight(v) == [];
    assert w.delivered + [text] + waiting == w.delivered + [text] + [] + waiting;
  }

  /** A text recorded and put back would come twice; put back elsewhere, it leaves the serving manager marked. */
  lemma HalfNeverGood(w: World, a: Action)
    requires Good(w) && a.DeliverHalf? && Enabled(w, a)
    ensures !Good(Do(w, a))
  {
    if w.flights[0].target == w.live {
      LandedPlaced(w);
      HalfTwice(w.delivered, w.flights[0].text, w.managers[w.live].texts);
    }
  }

  lemma HalfTwice(done: seq<string>, text: string, waiting: seq<string>)
    requires text != ""
    ensures Join(done + [text] + [] + ([text] + waiting), SEPARATOR) != Join(done + [text] + waiting, SEPARATOR)
  {
    JoinMisses(done + [text], text, waiting);
    assert done + [text] + [] + ([text] + waiting) == done + [text] + [text] + waiting;
    assert done + [text] + [] + waiting == done + [text] + waiting;
  }

  lemma EvictGoodIff(w: World, a: Action)
    requires Good(w) && a.Evict?
    ensures Good(Do(w, a)) <==> w.managers[w.live] == Queue([], false)
  {
    var texts := w.managers[w.live].texts;
    assert InFlight(Do(w, a)) == InFlight(w);
    JoinEmpty(texts);
    JoinCancels(w.delivered + InFlight(w), texts, []);
  }

  lemma RestGood(w: World, a: Action)
    requires Good(w) && Enabled(w, a) && (a.CopyQueue? || a.AbandonRotation? || a.Reactivate? || a.FindTarget?)
    ensures Good(Do(w, a))
  {
    assert InFlight(Do(w, a)) == InFlight(w);
  }

  /** An action keeps the texts conserved and at most one flush in flight exactly if it is up to date. */
  lemma StepGoodIffUpToDate(w: World, a: Action)
    requires Good(w)
    ensures Good(Next(w, a)) <==> UpToDate(w, a)
  {
    if Enabled(w, a) {
      if a.Enqueue? { if a.manager == w.live { EnqueueLive(w, a); } else { EnqueueStale(w, a); } }
      else if a.BeginFlush? { BeginGoodIff(w, a); }
      else if a.Switch? { SwitchGoodIff(w, a); }
      else if a.RestoreHome? { LandedGoodIff(w, w.flights[0].home); }
      else if a.RestoreTarget? { LandedGoodIff(w, w.flights[0].target); }
      else if a.Deliver? { DeliverGoodIff(w, a); }
      else if a.DeliverHalf? { HalfNeverGood(w, a); }
      else if a.Evict? { EvictGoodIff(w, a); }
      else { RestGood(w, a); }
    }
  }

  // ----- whole runs

  function Run(w: World, actions: seq<Action>): World
    decreases |actions|
  {
    if actions == [] then w else Run(Next(w, actions[0]), actions[1..])
  }

  predicate AlwaysGood(w: World, actions: seq<Action>)
    decreases |actions|
  {
    Good(w) && (actions != [] ==> AlwaysGood(Next(w, actions[0]), actions[1..]))
  }

  /** As long as every action is up to date (one that is not ends the claim, so later ones do not matter). */
  predicate AlwaysUpToDate(w: World, actions: seq<Action>)
    decreases |actions|
  {
    actions != [] ==> Placed(w) && UpToDate(w, actions[0]) && AlwaysUpToDate(Next(w, actions[0]), actions[1..])
  }

  /** Texts are conserved, with at most one flush in flight, throughout a run exactly if all its actions are up to date. */
  lemma {:induction false} RunGoodIffUpToDate(w: World, actions: seq<Action>)
    requires Good(w)
    ensures AlwaysGood(w, actions) <==> AlwaysUpToDate(w, actions)
    decreases |actions|
  {
    if actions != [] {
      StepGoodIffUpToDate(w, actions[0]);
      if UpToDate(w, actions[0]) { RunGoodIffUpToDate(Next(w, actions[0]), actions[1..]); }
    }
  }

  lemma InitialGood()
    ensures Good(Initial()) && Synced(Initial())
  {
    assert InFlight(Initial()) == [];
  }

  // ----- rotation

  /**
   The serving manager is used, nothing touches its queue while its successor is prepared, a flush
   follows a switch, a text is put back where the session is now served, an evicted manager holds nothing, and
   the loop is there when a text is delivered.
   */
  predicate Careful(w: World, a: Action) {
    match a
    case Enqueue(m, _, _) => m == w.live && w.successor.None?
    case BeginFlush(m) => m == w.live && w.successor.None?
    case Switch(byFlush) => byFlush <==> w.flights != []
    case Evict => w.live < |w.managers| && w.managers[w.live] == Queue([], false)
    case DeliverHalf => w.flights == []
    case RestoreHome => w.successor.None? && (w.flights != [] ==> w.flights[0].home == w.live)
    case RestoreTarget => w.successor.None?
    case Deliver => w.successor.None?
    case _ => true
  }

  predicate AlwaysCareful(w: World, actions: seq<Action>)
    decreases |actions|
  {
    actions != [] ==> Careful(w, actions[0]) && AlwaysCareful(Next(w, actions[0]), actions[1..])
  }

  /** The successor's copy is exact and the flush works on the serving manager. */
  predicate Synced(w: World) {
    && Good(w)
    && (w.successor.Some? ==> w.successor.value != w.live && w.managers[w.successor.value] == w.managers[w.live])
    && (w.flights != [] ==> w.flights[0].target == w.live)
  }

  lemma CarefulStep(w: World, a: Action)
    requires Synced(w) && Careful(w, a)
    ensures UpToDate(w, a) && Synced(Next(w, a))
  {
    StepGoodIffUpToDate(w, a);
  }

  /** Any interleaving of enqueue, flush, restore, delivery and rotation, if careful, conserves every text. */
  lemma {:induction false} CarefulRunsConserve(w: World, actions: seq<Action>)
    requires Synced(w) && AlwaysCareful(w, actions)
    ensures AlwaysGood(w, actions) && Synced(Run(w, actions))
    decreases |actions|
  {
    if actions != [] {
      CarefulStep(w, actions[0]);
      CarefulRunsConserve(Next(w, actions[0]), actions[1..]);
    }
  }

  // ----- what goes wrong otherwise

  /** A text queued on the old manager between copy and switch stays behind. */
  lemma LateTextIsLost()
    ensures
      var w := Run(Initial(), [Enqueue(0, "a", true), BeginFlush(0), CopyQueue, Enqueue(0, "b", false), Switch(true), Deliver]);
      w.live == 1 && w.delivered == ["a"] && w.flights == [] && w.managers == [Queue(["b"], true), Queue([], false)]
  {
    var w1 := Begun();
    var w2 := Next(w1, CopyQueue);
    var w3 := Next(w2, Enqueue(0, "b", false));
    var w4 := Next(w3, Switch(true));
    var w5 := Next(w4, Deliver);
    assert w2.managers == [Queue([], true), Queue([], true)];
    assert w2.managers[0].texts + ["b"] == ["b"];
    assert w3.managers == [Queue(["b"], true), Queue([], true)];
    assert w5.managers == [Queue(["b"], true), Queue([], false)];
    RunFrom(Initial(), [Enqueue(0, "a", true), BeginFlush(0)], [CopyQueue, Enqueue(0, "b", false), Switch(true), Deliver]);
    RunFrom(w1, [CopyQueue, Enqueue(0, "b", false)], [Switch(true), Deliver]);
  }

  /** A flush that rotates and then finds no target session puts its text back into the old manager. */
  lemma RestoredTextIsLost()
    ensures
      var w := Run(Initial(), [Enqueue(0, "a", true), BeginFlush(0), CopyQueue, Switch(true), RestoreHome]);
      w.delivered == [] && w.managers == [Queue(["a"], false), Queue([], true)] && Blocked(w)
  {
    var w1 := Begun();
    var w2 := Next(w1, CopyQueue);
    var w3 := Next(w2, Switch(true));
    var w4 := Next(w3, RestoreHome);
    assert w2.managers == [Queue([], true), Queue([], true)];
    assert ["a"] + w3.managers[0].texts == ["a"];
    assert w4.managers == [Queue(["a"], false), Queue([], true)];
    RunFrom(Initial(), [Enqueue(0, "a", true), BeginFlush(0)], [CopyQueue, Switch(true), RestoreHome]);
    RunFrom(w1, [CopyQueue], [Switch(true), RestoreHome]);
  }

  /** A manager is evicted while a text waits in it, though nothing was rotated and nothing put back. */
  lemma EvictedTextIsLost()
    ensures
      var w := Run(Initial(), [Enqueue(0, "a", true), Evict]);
      w.live == 1 && w.delivered == [] && w.flights == [] && w.managers == [Queue(["a"], false), Queue([], false)]
  {
    var w1 := Next(Initial(), Enqueue(0, "a", true));
    assert Initial().managers[0].texts + ["a"] == ["a"];
    assert w1.managers == [Queue(["a"], false)];
    assert Next(w1, Evict).managers == [Queue(["a"], false), Queue([], false)];
  }

  /** The loop is gone when a drained text has been recorded: the text waits again and is then delivered once more. */
  lemma HalfDeliveredComesTwice()
    ensures
      var w := Run(Initial(), [Enqueue(0, "a", true), BeginFlush(0), DeliverHalf, BeginFlush(0), Deliver]);
      w.arrived == ["a"] && w.delivered == ["a", "a"] && w.managers == [Queue([], false)]
  {
    var w1 := Begun();
    var w2 := Next(w1, DeliverHalf);
    assert ["a"] + w1.managers[0].texts == ["a"];
    assert w2.managers == [Queue(["a"], false)] && w2.delivered == ["a"] && w2.flights == [];
    var w3 := Next(w2, BeginFlush(0));
    assert w3.managers == [Queue([], true)] && w3.flights == [Flight("a", 0, 0)];
    var w4 := Next(w3, Deliver);
    assert w4.managers == [Queue([], false)] && w4.delivered == ["a", "a"];
    RunFrom(Initial(), [Enqueue(0, "a", true), BeginFlush(0)], [DeliverHalf, BeginFlush(0), Deliver]);
    RunFrom(w1, [DeliverHalf, BeginFlush(0)], [Deliver]);
    Two(w1, DeliverHalf, BeginFlush(0));
  }

  lemma Two(w: World, a: Action, b: Action)
    ensures Run(w, [a, b]) == Next(Next(w, a), b)
  {
    assert [a, b][1..] == [b] && [b][1..] == [];
    assert Run(Next(w, a), [b]) == Run(Next(Next(w, a), b), []);
  }

  lemma Begun() returns (w: World)
    ensures w == Run(Initial(), [Enqueue(0, "a", true), BeginFlush(0)])
    ensures w == World([Queue([], true)], 0, None, [Flight("a", 0, 0)], ["a"], [])
  {
    var w1 := Next(Initial(), Enqueue(0, "a", true));
    assert Initial().managers[0].texts + ["a"] == ["a"] && Initial().arrived + ["a"] == ["a"];
    assert w1.managers == [Queue(["a"], false)] && w1.arrived == ["a"];
    w := Next(w1, BeginFlush(0));
    assert w.managers == [Queue([], true)];
  }

  lemma {:induction false} RunFrom(w: World, first: seq<Action>, rest: seq<Action>)
    ensures Run(w, first + rest) == Run(Run(w, first), rest)
    decreases |first|
  {
    if first == [] {
      assert first + rest == rest;
    } else {
      assert (first + rest)[1..] == first[1..] + rest;
      RunFrom(Next(w, first[0]), first[1..], rest);
    }
  }

  /** The serving manager is marked as flushing, but there is no flush. */
  predicate Blocked(w: World) {
    && w.live < |w.managers| && w.managers[w.live].flushing && w.flights == []
    && (w.successor.Some? ==> w.successor.value < |w.managers| && w.managers[w.successor.value].flushing)
  }

  predicate OnLive(w: World, a: Action) {
    (a.Enqueue? || a.BeginFlush? ==> a.manager == w.live)
  }

  predicate AlwaysOnLive(w: World, actions: seq<Action>)
    decreases |actions|
  {
    actions != [] ==> OnLive(w, actions[0]) && AlwaysOnLive(Next(w, actions[0]), actions[1..])
  }

  /** Only an eviction ends this. */
  lemma BlockedIff(w: World, a: Action)
    requires Blocked(w) && OnLive(w, a)
    ensures Blocked(Next(w, a)) <==> !a.Evict?
    ensures Next(w, a).delivered == w.delivered
  {
  }

  predicate AlwaysBlocked(w: World, actions: seq<Action>)
    decreases |actions|
  {
    Blocked(w) && (actions != [] ==> AlwaysBlocked(Next(w, actions[0]), actions[1..]))
  }

  /** Whatever is asked of the serving manager, it is blocked throughout, delivering nothing, exactly until it is evicted. */
  lemma {:induction false} BlockedUntilEvicted(w: World, actions: seq<Action>)
    requires Blocked(w) && AlwaysOnLive(w, actions)
    ensures AlwaysBlocked(w, actions) <==> Evict !in actions
    ensures Evict !in actions ==> Run(w, actions).delivered == w.delivered
    decreases |actions|
  {
    if actions != [] {
      BlockedIff(w, actions[0]);
      if !actions[0].Evict? { BlockedUntilEvicted(Next(w, actions[0]), actions[1..]); }
    }
  }
}
