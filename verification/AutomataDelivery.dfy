/**
 What reaches the agent session: every message handed over was accepted by it, and over a whole run each
 message is given at most once, in order, exactly if no copy is saved that is outdated and no accepted
 text stays pending.
 */
module AutomataDelivery {
  import opened Text
  import opened AutomataState
  import opened AutomataSteps
  import opened AutomataSafety
  import opened AutomataRuns

  // ----- handed over means accepted

  /** Every message that left the disk as handed over is, at its place, among those the session accepted. */
  ghost predicate HandedInGifts(l: Ledger, gifts: seq<Gift>) {
    forall i :: i in l.handed ==> i < |l.removed| && Gift(i, l.removed[i]) in gifts
  }

  ghost predicate HandedWereGiven(w: World) { HandedInGifts(w.ledger, w.gifts) }

  /** The books only grow. */
  ghost predicate Grown(l: Ledger, m: Ledger) { l.queued <= m.queued && l.removed <= m.removed }

  lemma {:induction false} BookAllGrows(l: Ledger, s: State, saves: seq<Save>)
    ensures Grown(l, BookAll(l, s, saves))
  {
    if saves != [] { BookAllGrows(l, s, saves[..|saves| - 1]); }
  }

  lemma {:induction false} NothingHanded(l: Ledger, s: State, saves: seq<Save>)
    requires NoneHanded(saves)
    ensures BookAll(l, s, saves).handed == l.handed
  {
    if saves != [] {
      var n := |saves| - 1;
      NothingHanded(l, s, saves[..n]);
    }
  }

  lemma {:induction false} PositionsHold(lo: nat, hi: nat, i: nat)
    ensures i in Positions(lo, hi) <==> lo <= i < hi
    decreases hi
  {
    if lo < hi { PositionsHold(lo, hi - 1, i); }
  }

  /** Books that grow without a handing over, and further gifts. */
  lemma HandedStays(l: Ledger, m: Ledger, gifts: seq<Gift>, more: seq<Gift>)
    requires HandedInGifts(l, gifts) && m.handed == l.handed && l.removed <= m.removed
    ensures HandedInGifts(m, gifts + more)
  {
  }

  /** The writes of a pass up to its last, and the last one. */
  lemma LastBooked(l: Ledger, s: State, p: Pass)
    requires p.saves != []
    ensures var n := |p.saves| - 1;
      && p.saves[..|p.saves|] == p.saves && Earlier(p) == p.saves[..n]
      && BookAll(l, s, p.saves) == Book(BookAll(l, s, Earlier(p)), Committed(s, p.saves, n), p.saves[n].note)
  {
  }

  lemma PassHandsGiven(w: World, p: Pass, writes: nat, u: World)
    requires GivesPending(w.disk, p) && HandedWereGiven(w)
    requires u.gifts == w.gifts + NewGifts(w, p, writes)
    requires u.ledger == BookAll(w.ledger, w.disk, p.saves[..Min(writes, |p.saves|)])
    ensures HandedWereGiven(u)
  {
    if Min(writes, |p.saves|) == |p.saves| && p.given.Some? {
      LastHandsGiven(w, p, writes, u);
    } else {
      var done := p.saves[..Min(writes, |p.saves|)];
      assert NoneHanded(done);
      NothingHanded(w.ledger, w.disk, done);
      BookAllGrows(w.ledger, w.disk, done);
      HandedStays(w.ledger, u.ledger, w.gifts, NewGifts(w, p, writes));
    }
  }

  lemma LastHandsGiven(w: World, p: Pass, writes: nat, u: World)
    requires GivesPending(w.disk, p) && HandedWereGiven(w) && p.given.Some? && |p.saves| <= writes
    requires u.gifts == w.gifts + NewGifts(w, p, writes) && u.ledger == BookAll(w.ledger, w.disk, p.saves[..|p.saves|])
    ensures HandedWereGiven(u)
  {
    var n, l := |p.saves| - 1, BookAll(w.ledger, w.disk, Earlier(p));
    LastBooked(w.ledger, w.disk, p);
    NothingHanded(w.ledger, w.disk, Earlier(p));
    BookAllGrows(w.ledger, w.disk, Earlier(p));
    HandedStays(w.ledger, l, w.gifts, []);
    assert w.gifts + [] == w.gifts;
    BookHandsGiven(l, Committed(w.disk, p.saves, n), p.saves[n].note, w.gifts);
  }

  /** Whatever the last write is booked as, the messages pending before it were given at the places they now get. */
  lemma BookHandsGiven(l: Ledger, before: State, note: Note, gifts: seq<Gift>)
    requires HandedInGifts(l, gifts)
    ensures HandedInGifts(Book(l, before, note), gifts + Gifts(|l.removed|, before.messages))
  {
    var from, ms, b := |l.removed|, before.messages, Book(l, before, note);
    forall i | i in b.handed ensures i < |b.removed| && Gift(i, b.removed[i]) in gifts + Gifts(from, ms) {
      PositionsHold(from, from + |ms|, i);
      if i !in l.handed { assert Gifts(from, ms)[i - from] == Gift(i, b.removed[i]); }
    }
  }

  lemma RunHandsGiven(w: World, a: Action)
    requires WorldInv(w) && HandedWereGiven(w) && a.Run?
    ensures HandedWereGiven(Next(w, a))
  {
    CommandGives(a.def, w.disk, a.command, a.now);
    PassHandsGiven(w, Do(a.def, w.disk, a.command, a.now), a.writes, Next(w, a));
  }

  lemma CallHandsNothing(w: World, a: Action)
    requires a.Call?
    ensures var u := Next(w, a); u.gifts == w.gifts && u.ledger.handed == w.ledger.handed && Grown(w.ledger, u.ledger)
  {
  }

  lemma CallHandsGiven(w: World, a: Action)
    requires a.Call? && HandedWereGiven(w)
    ensures HandedWereGiven(Next(w, a))
  {
    CallHandsNothing(w, a);
    HandedStays(w.ledger, Next(w, a).ledger, w.gifts, []);
    assert w.gifts + [] == w.gifts;
  }

  /** In every run, with any stale copies and failing writes, each message handed over had been accepted. */
  lemma {:induction false} HandedOverWasAccepted(now: nat, acts: seq<Action>)
    ensures HandedWereGiven(Execute(Fresh(now), acts))
  {
    if acts != [] {
      var init, a := acts[..|acts| - 1], acts[|acts| - 1];
      HandedOverWasAccepted(now, init);
      EveryRunKeepsInvariant(now, init);
      var w := Execute(Fresh(now), init);
      if a.Run? { RunHandsGiven(w, a); } else { CallHandsGiven(w, a); }
    }
  }

  // ----- once, and in order

  ghost predicate Rising(gifts: seq<Gift>) {
    forall i, j :: 0 <= i < j < |gifts| ==> gifts[i].at < gifts[j].at
  }

  /** Every gift is the message queued at its position, and none of them is still pending. */
  ghost predicate GiftsGone(w: World) {
    forall k :: 0 <= k < |w.gifts| ==>
      w.gifts[k].at < |w.ledger.removed| && w.gifts[k].at < |w.ledger.queued| &&
      w.ledger.queued[w.gifts[k].at] == w.gifts[k].message
  }

  /** No message is lost or reordered, none is given twice, and none that was given is still pending. */
  ghost predicate Accounted(w: World) { Balanced(w) && Rising(w.gifts) && GiftsGone(w) }

  /** The session has the text, but a failed enqueue, a failed flush or a failed save leaves the messages pending. */
  predicate StaysPending(p: Pass, writes: nat) {
    && p.given.Some? && p.saves != [] && Reached(p, writes)
    && (writes < |p.saves| || !p.saves[|p.saves| - 1].note.Handed?)
  }

  ghost predicate LeavesPending(w: World, a: Action) {
    a.Run? && StaysPending(Do(a.def, w.disk, a.command, a.now), a.writes)
  }

  /** Gifts that are gone stay so; a gift is gone exactly if its message left the disk. */
  lemma GoneStays(w: World, u: World)
    requires GiftsGone(w) && u.gifts == w.gifts && Grown(w.ledger, u.ledger)
    ensures GiftsGone(u)
  {
  }

  /** The new gifts continue the old ones. */
  lemma GiftsRise(gifts: seq<Gift>, from: nat, ms: seq<TurnMessage>)
    requires Rising(gifts) && forall k :: 0 <= k < |gifts| ==> gifts[k].at < from
    ensures Rising(gifts + Gifts(from, ms))
  {
  }

  /** The books before the last write of a pass. */
  lemma EarlierBooks(w: World, p: Pass)
    requires Chain(w.disk, p.saves) && Balanced(w) && p.saves != []
    ensures var l, m := BookAll(w.ledger, w.disk, Earlier(p)), Committed(w.disk, p.saves, |p.saves| - 1).messages;
      l.removed + m == l.queued && Grown(w.ledger, l)
  {
    var n := |p.saves| - 1;
    ChainPrefix(w.disk, p.saves, n);
    EarlierBalanced(w.ledger, w.disk, p.saves[..n], Committed(w.disk, p.saves, n).messages);
  }

  lemma EarlierBalanced(l: Ledger, s: State, saves: seq<Save>, m: seq<TurnMessage>)
    requires Chain(s, saves) && l.removed + s.messages == l.queued && m == Committed(s, saves, |saves|).messages
    ensures var b := BookAll(l, s, saves); b.removed + m == b.queued && Grown(l, b)
  {
    BookAllBalanced(l, s, saves);
    BookAllGrows(l, s, saves);
  }

  /** A pass whose text was accepted: its gifts are gone exactly if it does not leave the messages pending. */
  lemma GiftsGoneIff(w: World, p: Pass, writes: nat, u: World)
    requires Chain(w.disk, p.saves) && GivesPending(w.disk, p) && Accounted(w) && p.given.Some? && Reached(p, writes)
    requires u.gifts == w.gifts + NewGifts(w, p, writes)
    requires u.ledger == BookAll(w.ledger, w.disk, p.saves[..Min(writes, |p.saves|)])
    ensures Rising(u.gifts) && (GiftsGone(u) <==> !StaysPending(p, writes))
  {
    var l := BookAll(w.ledger, w.disk, Earlier(p));
    EarlierBooks(w, p);
    LastBooked(w.ledger, w.disk, p);
    GiftsRise(w.gifts, |l.removed|, p.given.value);
    PassBooked(w, p, writes);
    if StaysPending(p, writes) {
      GiftsPending(w, l, p.given.value, u);
    } else {
      GiftsJoin(w, l, p.given.value, u);
    }
  }

  /** The books after a pass that gave its text: nothing more has left the disk, or exactly what was given. */
  lemma PassBooked(w: World, p: Pass, writes: nat)
    requires GivesPending(w.disk, p) && p.given.Some? && Reached(p, writes)
    ensures var l, b := BookAll(w.ledger, w.disk, Earlier(p)), BookAll(w.ledger, w.disk, p.saves[..Min(writes, |p.saves|)]);
      if StaysPending(p, writes) then b.removed == l.removed
      else b.removed == l.removed + p.given.value && b.queued == l.queued
  {
    LastBooked(w.ledger, w.disk, p);
  }

  lemma GiftsPending(w: World, l: Ledger, m: seq<TurnMessage>, u: World)
    requires m != [] && u.gifts == w.gifts + Gifts(|l.removed|, m) && u.ledger.removed == l.removed
    ensures !GiftsGone(u)
  {
    assert u.gifts[|w.gifts|] == Gift(|l.removed|, m[0]);
  }

  lemma GiftsJoin(w: World, l: Ledger, m: seq<TurnMessage>, u: World)
    requires GiftsGone(w) && Grown(w.ledger, l) && l.removed + m == l.queued
    requires u.gifts == w.gifts + Gifts(|l.removed|, m) && u.ledger.removed == l.removed + m && u.ledger.queued == l.queued
    ensures GiftsGone(u)
  {
    forall k | 0 <= k < |u.gifts|
      ensures u.gifts[k].at < |u.ledger.removed| && u.gifts[k].at < |u.ledger.queued|
      ensures u.ledger.queued[u.gifts[k].at] == u.gifts[k].message
    {
      if k >= |w.gifts| { assert u.gifts[k] == Gift(|l.removed| + (k - |w.gifts|), m[k - |w.gifts|]); }
    }
  }

  lemma RunAccountedIff(w: World, a: Action)
    requires WorldInv(w) && Accounted(w) && a.Run?
    ensures Accounted(Next(w, a)) <==> !LeavesPending(w, a)
  {
    StepBalancedIffUpToDate(w, a);
    CommandSound(a.def, w.disk, a.command, a.now);
    CommandGives(a.def, w.disk, a.command, a.now);
    var p, u := Do(a.def, w.disk, a.command, a.now), Next(w, a);
    if p.given.Some? && Reached(p, a.writes) {
      GiftsGoneIff(w, p, a.writes, u);
    } else {
      assert u.gifts == w.gifts;
      BookAllGrows(w.ledger, w.disk, p.saves[..Min(a.writes, |p.saves|)]);
      GoneStays(w, u);
    }
  }

  lemma CallAccountedIff(w: World, a: Action)
    requires WorldInv(w) && Accounted(w) && a.Call?
    ensures Accounted(Next(w, a)) <==> UpToDate(w, a)
  {
    StepBalancedIffUpToDate(w, a);
    CallHandsNothing(w, a);
    GoneStays(w, Next(w, a));
  }

  /** One step keeps everything accounted for exactly if it saves no outdated copy and leaves no accepted text pending. */
  lemma StepAccountedIff(w: World, a: Action)
    requires WorldInv(w) && Accounted(w)
    ensures Accounted(Next(w, a)) <==> UpToDate(w, a) && !LeavesPending(w, a)
  {
    if a.Run? { RunAccountedIff(w, a); } else { CallAccountedIff(w, a); }
  }

  ghost predicate AlwaysAccounted(w: World, acts: seq<Action>) {
    Accounted(Execute(w, acts)) && (acts != [] ==> AlwaysAccounted(w, acts[..|acts| - 1]))
  }

  ghost predicate AlwaysWhole(w: World, acts: seq<Action>) {
    acts != [] ==>
      var n := |acts| - 1;
      AlwaysWhole(w, acts[..n]) && !LeavesPending(Execute(w, acts[..n]), acts[n])
  }

  /** A whole run loses, reorders and repeats no message exactly if no step of it is of either kind. */
  lemma {:induction false} RunAccountedIffWhole(now: nat, acts: seq<Action>)
    ensures AlwaysAccounted(Fresh(now), acts) <==> AlwaysUpToDate(Fresh(now), acts) && AlwaysWhole(Fresh(now), acts)
  {
    if acts != [] {
      var init, a := acts[..|acts| - 1], acts[|acts| - 1];
      RunAccountedIffWhole(now, init);
      EveryRunKeepsInvariant(now, init);
      var w := Execute(Fresh(now), init);
      if AlwaysAccounted(Fresh(now), init) { StepAccountedIff(w, a); }
    }
  }
}
