/**
 All interleavings of appending messages to a session, publishing them, subscribing with a
 snapshot, receiving and cancelling, over the publish/subscribe layer.
 */
module SessionStream {
  import opened SubPub

  /** What a subscriber started from, which publications it was on the list for, and what it took so far. */
  datatype View = View(base: nat, snapshot: set<nat>, since: nat, until: nat, taken: seq<Item>)

  /**
   The number this life of the session started from, its last number and stored messages, the numbers drawn
   but not yet published, and those published, in the order in which publishing took effect.
   */
  datatype World = World(
    start: nat, last: nat, stored: set<nat>, pending: set<nat>, published: seq<nat>, hub: Hub, views: map<nat, View>)

  datatype Action =
    | Append(stores: bool)
    | Publish(n: nat)
    | Broadcast(text: string)
    | Subscribe(id: nat)
    | Receive(id: nat)
    | Cancel(id: nat)

  /** A session made active, with what the store had: a new one has nothing, a reactivated one goes on numbering. */
  function Initial(start: nat, stored: set<nat>): World { World(start, start, stored, {}, [], Hub([], map[]), map[]) }

  // ----- the steps

  /** Draws the next number; a message is stored under it, a user-interface action is not. */
  function DoAppend(w: World, stores: bool): World {
    var n := w.last + 1;
    w.(last := n, stored := if stores then w.stored + {n} else w.stored, pending := w.pending + {n})
  }

  /** Whoever stays on the list has been on it for one publication more. */
  function Attended(views: map<nat, View>, list: seq<nat>): map<nat, View> {
    map id | id in views :: if id in list then views[id].(until := views[id].until + 1) else views[id]
  }

  function DoPublish(w: World, n: nat): World
    requires Wired(w.hub)
  {
    var hub := SentRound(w.hub, Numbered(n));
    w.(pending := w.pending - {n}, published := w.published + [n], hub := hub, views := Attended(w.views, hub.list))
  }

  function DoSubscribe(w: World, id: nat): World {
    w.(hub := Hub(w.hub.list + [id], w.hub.subs[id := Subscriber(w.last, [], false, false)]),
       views := w.views[id := View(w.last, w.stored, |w.published|, |w.published|, [])])
  }

  function DoReceive(w: World, id: nat): World
    requires id in w.hub.subs && id in w.views && w.hub.subs[id].channel != []
  {
    var s := w.hub.subs[id];
    w.(hub := w.hub.(subs := w.hub.subs[id := s.(channel := s.channel[1..])]),
       views := w.views[id := w.views[id].(taken := w.views[id].taken + [s.channel[0]])])
  }

  function DoCancel(w: World, id: nat): World
    requires id in w.hub.subs
  {
    w.(hub := w.hub.(subs := w.hub.subs[id := w.hub.subs[id].(cancelled := true)]))
  }

  /** An action that cannot happen now changes nothing. */
  function Next(w: World, a: Action): World {
    match a
    case Append(stores) => DoAppend(w, stores)
    case Publish(n) => if n in w.pending && Wired(w.hub) then DoPublish(w, n) else w
    case Broadcast(text) => if Wired(w.hub) then w.(hub := SentRound(w.hub, Notice(text))) else w
    case Subscribe(id) => if id !in w.hub.subs then DoSubscribe(w, id) else w
    case Receive(id) =>
      if id in w.hub.subs && id in w.views && w.hub.subs[id].channel != [] then DoReceive(w, id) else w
    case Cancel(id) => if id in w.hub.subs then DoCancel(w, id) else w
  }

  function Run(w: World, actions: seq<Action>): World
    decreases |actions|
  {
    if actions == [] then w else Run(Next(w, actions[0]), actions[1..])
  }

  // ----- what a subscriber gets

  function Numbers(items: seq<Item>): seq<nat> {
    if items == [] then []
    else Numbers(items[..|items| - 1]) + if items[|items| - 1].Numbered? then [items[|items| - 1].n] else []
  }

  /** The highest number so far. */
  function Top(base: nat, ps: seq<nat>): nat {
    if ps == [] then base
    else
      var t := Top(base, ps[..|ps| - 1]);
      if ps[|ps| - 1] > t then ps[|ps| - 1] else t
  }

  /** The numbers that are higher than the base and everything before them. */
  function Maxima(base: nat, ps: seq<nat>): seq<nat> {
    if ps == [] then []
    else
      var n, init := ps[|ps| - 1], ps[..|ps| - 1];
      Maxima(base, init) + if n > Top(base, init) then [n] else []
  }

  /** The subscriber got, or has waiting, exactly the record numbers among those published. */
  predicate Matches(base: nat, taken: seq<Item>, s: Subscriber, ps: seq<nat>) {
    Numbers(taken + s.channel) == Maxima(base, ps) && s.seqId == Top(base, ps)
  }

  /** The subscriber's messages are exactly the record numbers published while it was on the list. */
  predicate Fits(published: seq<nat>, listed: bool, v: View, s: Subscriber) {
    && v.since <= v.until <= |published|
    && (listed ==> v.until == |published|)
    && Matches(v.base, v.taken, s, published[v.since..v.until])
  }

  predicate Exact(w: World, id: nat)
    requires id in w.views && id in w.hub.subs
  {
    Fits(w.published, id in w.hub.list, w.views[id], w.hub.subs[id])
  }

  /** The snapshot holds what was stored up to its number; nothing later was published before it. */
  predicate SnapshotRight(w: World, v: View) {
    && w.start <= v.base <= w.last && v.snapshot <= w.stored
    && (forall n :: n in v.snapshot ==> n <= v.base) && (forall n :: n in w.stored && n <= v.base ==> n in v.snapshot)
    && v.since <= |w.published| && (forall i :: 0 <= i < v.since ==> w.published[i] <= v.base)
  }

  predicate Good(w: World) {
    && Wired(w.hub) && w.views.Keys == w.hub.subs.Keys
    && (forall n :: n in w.stored ==> n <= w.last) && (forall n :: n in w.pending ==> n <= w.last)
    && w.start <= w.last && (forall i :: 0 <= i < |w.published| ==> w.published[i] <= w.last)
    && (forall id :: id in w.views ==> Exact(w, id) && SnapshotRight(w, w.views[id]))
  }

  // ----- every step keeps it

  lemma NumbersSnoc(items: seq<Item>, item: Item)
    ensures Numbers(items + [item]) == Numbers(items) + if item.Numbered? then [item.n] else []
  {
    assert (items + [item])[..|items|] == items;
  }

  lemma MaximaSnoc(base: nat, ps: seq<nat>, n: nat)
    ensures Maxima(base, ps + [n]) == Maxima(base, ps) + if n > Top(base, ps) then [n] else []
    ensures Top(base, ps + [n]) == if n > Top(base, ps) then n else Top(base, ps)
  {
    assert (ps + [n])[..|ps|] == ps;
  }

  lemma OfferedMatches(base: nat, taken: seq<Item>, s: Subscriber, ps: seq<nat>, n: nat)
    requires Matches(base, taken, s, ps)
    ensures Stays(s, Numbered(n)) ==> Matches(base, taken, Offered(s, Numbered(n)), ps + [n])
    ensures !Stays(s, Numbered(n)) ==> Matches(base, taken, Offered(s, Numbered(n)), ps)
  {
    MaximaSnoc(base, ps, n);
    NumbersSnoc(taken + s.channel, Numbered(n));
    assert taken + (s.channel + [Numbered(n)]) == taken + s.channel + [Numbered(n)];
  }

  lemma NoticeMatches(base: nat, taken: seq<Item>, s: Subscriber, ps: seq<nat>, text: string)
    requires Matches(base, taken, s, ps)
    ensures Matches(base, taken, Offered(s, Notice(text)), ps)
  {
    NumbersSnoc(taken + s.channel, Notice(text));
    assert taken + (s.channel + [Notice(text)]) == taken + s.channel + [Notice(text)];
  }

  lemma FitsPublished(published: seq<nat>, v: View, s: Subscriber, n: nat)
    requires Fits(published, true, v, s)
    ensures Stays(s, Numbered(n)) ==> Fits(published + [n], true, v.(until := v.until + 1), Offered(s, Numbered(n)))
    ensures !Stays(s, Numbered(n)) ==> Fits(published + [n], false, v, Offered(s, Numbered(n)))
  {
    OfferedMatches(v.base, v.taken, s, published[v.since..v.until], n);
    SlicePublished(published, n, v.since);
  }

  lemma SlicePublished(published: seq<nat>, n: nat, since: nat)
    requires since <= |published|
    ensures (published + [n])[since..|published| + 1] == published[since..|published|] + [n]
    ensures (published + [n])[since..|published|] == published[since..|published|]
  {
  }

  lemma FitsUnlisted(published: seq<nat>, v: View, s: Subscriber, n: nat)
    requires Fits(published, false, v, s)
    ensures Fits(published + [n], false, v, s)
  {
    assert (published + [n])[v.since..v.until] == published[v.since..v.until];
  }

  lemma PublishExact(w: World, n: nat, id: nat)
    requires Wired(w.hub) && id in w.views && id in w.hub.subs && Exact(w, id)
    ensures id in DoPublish(w, n).views && id in DoPublish(w, n).hub.subs && Exact(DoPublish(w, n), id)
  {
    RoundAt(w.hub, Numbered(n), id);
    if id in w.hub.list {
      FitsPublished(w.published, w.views[id], w.hub.subs[id], n);
    } else {
      FitsUnlisted(w.published, w.views[id], w.hub.subs[id], n);
    }
  }

  lemma PublishSnapshot(w: World, n: nat, v: View, until: nat)
    requires Wired(w.hub) && SnapshotRight(w, v)
    ensures SnapshotRight(DoPublish(w, n), v.(until := until))
  {
    var u := DoPublish(w, n);
    assert forall i :: 0 <= i < v.since ==> u.published[i] == w.published[i];
  }

  lemma PublishNumbers(ps: seq<nat>, n: nat, last: nat)
    requires n <= last && forall i :: 0 <= i < |ps| ==> ps[i] <= last
    ensures forall i :: 0 <= i < |ps + [n]| ==> (ps + [n])[i] <= last
  {
  }

  lemma PublishGood(w: World, n: nat)
    requires Good(w) && n in w.pending
    ensures Good(DoPublish(w, n))
  {
    var u := DoPublish(w, n);
    PublishNumbers(w.published, n, w.last);
    SentRoundWired(w.hub, Numbered(n));
    OfferedExactly(w.hub.list, w.hub.subs, Numbered(n));
    forall id | id in u.views ensures Exact(u, id) && SnapshotRight(u, u.views[id]) {
      PublishExact(w, n, id);
      PublishSnapshot(w, n, w.views[id], u.views[id].until);
    }
  }

  lemma BroadcastExact(w: World, text: string, id: nat)
    requires Wired(w.hub) && id in w.views && id in w.hub.subs && Exact(w, id)
    ensures var u := w.(hub := SentRound(w.hub, Notice(text)));
      id in u.hub.subs && Exact(u, id)
  {
    var v := w.views[id];
    RoundAt(w.hub, Notice(text), id);
    NoticeMatches(v.base, v.taken, w.hub.subs[id], w.published[v.since..v.until], text);
  }

  lemma BroadcastGood(w: World, text: string)
    requires Good(w)
    ensures Good(w.(hub := SentRound(w.hub, Notice(text))))
  {
    var u := w.(hub := SentRound(w.hub, Notice(text)));
    SentRoundWired(w.hub, Notice(text));
    OfferedExactly(w.hub.list, w.hub.subs, Notice(text));
    forall id | id in u.views ensures Exact(u, id) && SnapshotRight(u, u.views[id]) {
      BroadcastExact(w, text, id);
    }
  }

  lemma SubscribeWired(h: Hub, id: nat, s: Subscriber)
    requires Wired(h) && id !in h.subs && !s.closed
    ensures Wired(Hub(h.list + [id], h.subs[id := s]))
  {
  }

  lemma SubscribeExact(w: World, id: nat, k: nat)
    requires Good(w) && id !in w.hub.subs && k in DoSubscribe(w, id).views
    ensures var u := DoSubscribe(w, id); k in u.hub.subs && Exact(u, k) && SnapshotRight(u, u.views[k])
  {
    var u := DoSubscribe(w, id);
    if k == id {
      assert u.published[|u.published|..|u.published|] == [];
    } else {
      assert Exact(w, k) && SnapshotRight(w, w.views[k]);
      assert k in u.hub.list <==> k in w.hub.list;
    }
  }

  lemma SubscribeGood(w: World, id: nat)
    requires Good(w) && id !in w.hub.subs
    ensures Good(DoSubscribe(w, id))
  {
    var u := DoSubscribe(w, id);
    SubscribeWired(w.hub, id, Subscriber(w.last, [], false, false));
    forall k | k in u.views ensures Exact(u, k) && SnapshotRight(u, u.views[k]) { SubscribeExact(w, id, k); }
  }

  lemma ReceiveGood(w: World, id: nat)
    requires Good(w) && id in w.views && w.hub.subs[id].channel != []
    ensures Good(DoReceive(w, id))
  {
    var u, v, s := DoReceive(w, id), w.views[id], w.hub.subs[id];
    assert v.taken + s.channel == v.taken + [s.channel[0]] + s.channel[1..];
    forall k | k in u.views ensures Exact(u, k) && SnapshotRight(u, u.views[k]) {
      assert Exact(w, k) && SnapshotRight(w, w.views[k]);
    }
  }

  lemma CancelGood(w: World, id: nat)
    requires Good(w) && id in w.views
    ensures Good(DoCancel(w, id))
  {
    var u := DoCancel(w, id);
    forall k | k in u.views ensures Exact(u, k) && SnapshotRight(u, u.views[k]) {
      assert Exact(w, k) && SnapshotRight(w, w.views[k]);
    }
  }

  lemma AppendGood(w: World, stores: bool)
    requires Good(w)
    ensures Good(DoAppend(w, stores))
  {
    var u := DoAppend(w, stores);
    forall k | k in u.views ensures Exact(u, k) && SnapshotRight(u, u.views[k]) {
      assert Exact(w, k) && SnapshotRight(w, w.views[k]);
    }
  }

  lemma NextGood(w: World, a: Action)
    requires Good(w)
    ensures Good(Next(w, a))
  {
    match a
    case Append(stores) => AppendGood(w, stores);
    case Publish(n) => if n in w.pending { PublishGood(w, n); }
    case Broadcast(text) => BroadcastGood(w, text);
    case Subscribe(id) => if id !in w.hub.subs { SubscribeGood(w, id); }
    case Receive(id) => if id in w.hub.subs && w.hub.subs[id].channel != [] { ReceiveGood(w, id); }
    case Cancel(id) => if id in w.hub.subs { CancelGood(w, id); }
  }

  lemma InitialGood(start: nat, stored: set<nat>)
    requires forall n :: n in stored ==> n <= start
    ensures Good(Initial(start, stored))
  {
  }

  /** Under every interleaving; in particular nobody on the list has a closed channel. */
  lemma {:induction false} EveryRunGood(w: World, actions: seq<Action>)
    requires Good(w)
    ensures Good(Run(w, actions))
    decreases |actions|
  {
    if actions != [] {
      NextGood(w, actions[0]);
      EveryRunGood(Next(w, actions[0]), actions[1..]);
    }
  }

  // ----- what that means for a subscriber

  predicate Increasing(ns: seq<nat>) { forall i, j :: 0 <= i < j < |ns| ==> ns[i] < ns[j] }

  lemma {:induction false} MaximaRise(base: nat, ps: seq<nat>)
    ensures var ms := Maxima(base, ps);
      && Increasing(ms) && (forall i :: 0 <= i < |ms| ==> base < ms[i] <= Top(base, ps))
      && base <= Top(base, ps) && Top(base, ps) == (if ms == [] then base else ms[|ms| - 1])
  {
    if ps != [] {
      MaximaRise(base, ps[..|ps| - 1]);
    }
  }

  lemma {:induction false} NumbersConcat(a: seq<Item>, b: seq<Item>)
    ensures Numbers(a + b) == Numbers(a) + Numbers(b)
  {
    if b == [] {
      assert a + b == a;
    } else {
      assert (a + b)[..|a + b| - 1] == a + b[..|b| - 1];
      NumbersConcat(a, b[..|b| - 1]);
    }
  }

  /** What was taken is a beginning of what will be. */
  lemma TakenIsPrefix(w: World, id: nat)
    requires Good(w) && id in w.views
    ensures var v := w.views[id];
      && v.since <= v.until <= |w.published| && Numbers(v.taken) <= Maxima(v.base, w.published[v.since..v.until])
      && Numbers(v.taken + w.hub.subs[id].channel) == Maxima(v.base, w.published[v.since..v.until])
  {
    NumbersConcat(w.views[id].taken, w.hub.subs[id].channel);
    assert Exact(w, id);
  }

  /** A subscriber never gets a message of its snapshot, nor the same one twice, nor one out of order. */
  lemma StreamFollowsSnapshot(w: World, id: nat)
    requires Good(w) && id in w.views
    ensures var v, got := w.views[id], Numbers(w.views[id].taken);
      Increasing(got) && forall i :: 0 <= i < |got| ==> got[i] > v.base && got[i] !in v.snapshot
  {
    var v := w.views[id];
    TakenIsPrefix(w, id);
    MaximaRise(v.base, w.published[v.since..v.until]);
    assert SnapshotRight(w, v);
  }

  function Above(base: nat, ps: seq<nat>): seq<nat> {
    if ps == [] then []
    else Above(base, ps[..|ps| - 1]) + if ps[|ps| - 1] > base then [ps[|ps| - 1]] else []
  }

  /** A subscriber misses nothing published while it listens exactly if the new numbers were published in order. */
  lemma NothingMissedIffInOrder(w: World, id: nat)
    requires Good(w) && id in w.views
    ensures var v, got := w.views[id], Numbers(w.views[id].taken + w.hub.subs[id].channel);
      && v.since <= v.until <= |w.published|
      && var attended := Above(v.base, w.published[v.since..v.until]);
         got == attended <==> Increasing(attended)
  {
    var v := w.views[id];
    assert Exact(w, id);
    MaximaAreAllIff(v.base, w.published[v.since..v.until]);
  }

  lemma {:induction false} MaximaAreAllIff(base: nat, ps: seq<nat>)
    ensures Maxima(base, ps) == Above(base, ps) <==> Increasing(Above(base, ps))
    ensures |Maxima(base, ps)| <= |Above(base, ps)|
  {
    if ps == [] {
    } else {
      var n, init := ps[|ps| - 1], ps[..|ps| - 1];
      MaximaAreAllIff(base, init);
      MaximaRise(base, ps);
      MaximaRise(base, init);
      if n > base {
        LastInOrder(Maxima(base, init), Above(base, init), n, Top(base, init));
      } else {
        assert Maxima(base, ps) == Maxima(base, init) && Above(base, ps) == Above(base, init);
      }
    }
  }

  /** One number more: kept if it tops what was kept so far. */
  lemma LastInOrder(ms: seq<nat>, above: seq<nat>, n: nat, top: nat)
    requires |ms| <= |above| && (ms == above <==> Increasing(above)) && Increasing(ms)
    requires ms != [] ==> top == ms[|ms| - 1]
    requires ms == [] ==> top < n
    ensures ms + (if n > top then [n] else []) == above + [n] <==> Increasing(above + [n])
  {
    var kept := ms + if n > top then [n] else [];
    if kept == above + [n] {
      assert n > top;
      assert kept[..|ms|] == ms && (above + [n])[..|above|] == above;
      IncreasingSnoc(ms, n);
    }
    if Increasing(above + [n]) {
      IncreasingInit(above, n);
      if above != [] { assert (above + [n])[|above| - 1] < (above + [n])[|above|]; }
    }
  }

  lemma IncreasingSnoc(ns: seq<nat>, n: nat)
    requires Increasing(ns) && (ns != [] ==> ns[|ns| - 1] < n)
    ensures Increasing(ns + [n])
  {
  }

  lemma IncreasingInit(ns: seq<nat>, n: nat)
    requires Increasing(ns + [n])
    ensures Increasing(ns)
  {
    forall i, j | 0 <= i < j < |ns| ensures ns[i] < ns[j] { assert (ns + [n])[i] < (ns + [n])[j]; }
  }

  /** Publishing took effect in the order of the numbers. */
  predicate InOrder(start: nat, published: seq<nat>) {
    forall i :: 0 <= i < |published| ==> published[i] == start + i + 1
  }

  function UpTo(base: nat, top: nat): seq<nat> {
    if top <= base then [] else UpTo(base, top - 1) + [top]
  }

  lemma {:induction false} InOrderGapless(start: nat, base: nat, published: seq<nat>, since: nat, until: nat)
    requires InOrder(start, published) && since <= until <= |published| && start + since <= base
    ensures Maxima(base, published[since..until]) == UpTo(base, start + until)
    ensures Top(base, published[since..until]) == if start + until > base then start + until else base
  {
    var ps := published[since..until];
    if since < until {
      assert ps[..|ps| - 1] == published[since..until - 1];
      InOrderGapless(start, base, published, since, until - 1);
    }
  }

  /** In order, a subscriber gets a gapless beginning of the numbers after its snapshot. */
  lemma StreamIsGapless(w: World, id: nat)
    requires Good(w) && id in w.views && InOrder(w.start, w.published)
    ensures var v, got := w.views[id], Numbers(w.views[id].taken + w.hub.subs[id].channel);
      && v.until <= |w.published| && got == UpTo(v.base, w.start + v.until)
      && Numbers(v.taken) <= UpTo(v.base, w.start + v.until)
  {
    var v := w.views[id];
    TakenIsPrefix(w, id);
    SinceBase(w, v);
    InOrderGapless(w.start, v.base, w.published, v.since, v.until);
  }

  /** In order, what was published before a snapshot is in it. */
  lemma SinceBase(w: World, v: View)
    requires SnapshotRight(w, v) && InOrder(w.start, w.published)
    ensures w.start + v.since <= v.base
  {
    assert v.since > 0 ==> w.published[v.since - 1] == w.start + v.since;
  }

  lemma {:induction false} UpToHolds(base: nat, top: nat, n: nat)
    ensures n in UpTo(base, top) <==> base < n <= top
    decreases top
  {
    if base < top { UpToHolds(base, top - 1, n); }
  }

  /** In order and with nothing left to publish, a subscriber still listed has every stored message exactly once. */
  lemma SnapshotPlusStreamIsAll(w: World, id: nat, n: nat)
    requires Good(w) && id in w.hub.list && n in w.stored
    requires InOrder(w.start, w.published) && w.start + |w.published| == w.last
    ensures id in w.views
    ensures n in w.views[id].snapshot <==> n !in Numbers(w.views[id].taken + w.hub.subs[id].channel)
  {
    var v := w.views[id];
    StreamIsGapless(w, id);
    assert Exact(w, id) && SnapshotRight(w, v);
    UpToHolds(v.base, w.start + v.until, n);
  }

  /** Published out of order, a message is never received: two are appended, the second is published first. */
  lemma OutOfOrderIsMissed()
    ensures
      var w := Run(Initial(0, {}), [Subscribe(7), Append(true), Append(true), Publish(2), Publish(1)]);
      && w.stored == {1, 2} && w.pending == {} && w.hub == Hub([7], map[7 := Subscriber(2, [Numbered(2)], false, false)])
      && w.views == map[7 := View(0, {}, 0, 2, [])]
  {
    var s0, s1 := Subscriber(0, [], false, false), Subscriber(2, [Numbered(2)], false, false);
    var w0 := World(0, 2, {1, 2}, {1, 2}, [], Hub([7], map[7 := s0]), map[7 := View(0, {}, 0, 0, [])]);
    var w1 := World(0, 2, {1, 2}, {1}, [2], Hub([7], map[7 := s1]), map[7 := View(0, {}, 0, 1, [])]);
    var w2 := World(0, 2, {1, 2}, {}, [2, 1], Hub([7], map[7 := s1]), map[7 := View(0, {}, 0, 2, [])]);
    TwoAppended(w0);
    assert Offered(s0, Numbered(2)) == s1 by { assert [] + [Numbered(2)] == [Numbered(2)]; }
    PublishToOne(w0, s0, s1, 0, 2, w1);
    PublishToOne(w1, s1, s1, 1, 1, w2);
    var later := [Publish(2), Publish(1)];
    RunFrom(Initial(0, {}), [Subscribe(7), Append(true), Append(true)], later);
    assert Run(w0, later) == Run(w1, later[1..]) == w2;
  }

  lemma TwoAppended(w: World)
    requires w == World(0, 2, {1, 2}, {1, 2}, [], Hub([7], map[7 := Subscriber(0, [], false, false)]),
                        map[7 := View(0, {}, 0, 0, [])])
    ensures Run(Initial(0, {}), [Subscribe(7), Append(true), Append(true)]) == w
  {
    var w1 := Next(Initial(0, {}), Subscribe(7));
    var w2 := Next(w1, Append(true));
    assert w2.stored == {1} && w2.pending == {1};
    assert Next(w2, Append(true)) == w;
    assert Run(w2, [Append(true)]) == w;
    RunFrom(Initial(0, {}), [Subscribe(7)], [Append(true), Append(true)]);
  }

  lemma PublishToOne(w: World, s: Subscriber, t: Subscriber, seen: nat, n: nat, u: World)
    requires w.hub == Hub([7], map[7 := s]) && w.views == map[7 := View(0, {}, 0, seen, [])]
    requires n in w.pending && !s.closed && Stays(s, Numbered(n)) && t == Offered(s, Numbered(n))
    requires u == World(w.start, w.last, w.stored, w.pending - {n}, w.published + [n], Hub([7], map[7 := t]),
                        map[7 := View(0, {}, 0, seen + 1, [])])
    ensures Next(w, Publish(n)) == u
  {
    RoundOfOne(s, t, Numbered(n));
    AttendedByOne(View(0, {}, 0, seen, []));
  }

  lemma RoundOfOne(s: Subscriber, t: Subscriber, item: Item)
    requires !s.closed && Stays(s, item) && t == Offered(s, item)
    ensures Wired(Hub([7], map[7 := s])) && SentRound(Hub([7], map[7 := s]), item) == Hub([7], map[7 := t])
  {
    var list: seq<nat>, subs: map<nat, Subscriber> := [7], map[7 := s];
    var none := list[..0];
    assert none == [] && list[0] == 7 && subs[7] == s;
    assert Staying(none, subs, item) == [] && OfferedAll(none, subs, item) == subs;
    assert Staying(list, subs, item) == [] + [7];
    assert subs[7 := t] == map[7 := t];
  }

  lemma AttendedByOne(v: View)
    ensures Attended(map[7 := v], [7]) == map[7 := v.(until := v.until + 1)]
  {
  }

  lemma {:induction false} RunFrom(w: World, first: seq<Action>, rest: seq<Action>)
    ensures Run(w, first + rest) == Run(Run(w, first), rest)
    decreases |first|
  {
    if first == [] {
      assert first + rest == rest;
    } else {
      assert (first + rest)[1..] == first[1..] + rest;
      RunFrom(Next(w, first[0]), first[1..], rest);
    }
  }
}
