/**
 Idempotent creation of a session under an ID the client chose (internal/agent/api.go), as a
 state machine over concurrent requests for one ID.
 */
module SessionCreate {
  import opened Text

  /** Where a request that claimed the ID stands. */
  datatype Phase =
    | Claimed            // holds the claim, has looked at nothing
    | NotActive          // found no active session
    | Building           // found no stored session either
    | Persisted          // has tried to store the session
    | Active             // has made the session active
    | Ended(outcome: Outcome)

  datatype Outcome = Accepted | AlreadyExists | BadRequest | Failed

  datatype Request = Request(user: string, phase: Phase)

  /** The claim, the active session's owner, the stored session's owner, and the requests. */
  datatype World = World(claimed: bool, active: Option<string>, stored: Option<string>, requests: map<nat, Request>)

  datatype Action =
    | Create(id: nat, user: string)
    | LookActive(id: nat)
    | LookStored(id: nat, readable: bool)
    | BuildFails(id: nat)
    | Persist(id: nat, written: bool)
    | Activate(id: nat)
    | AcceptMessage(id: nat)
    | RejectMessage(id: nat)
    | Evict
    | Reactivate

  function Initial(): World { World(false, None, None, map[]) }

  function To(w: World, id: nat, p: Phase): World
    requires id in w.requests
  {
    w.(requests := w.requests[id := w.requests[id].(phase := p)])
  }

  /** The request ends and gives up its claim. */
  function End(w: World, id: nat, o: Outcome): World
    requires id in w.requests
  {
    To(w, id, Ended(o)).(claimed := false)
  }

  predicate At(w: World, id: nat, p: Phase) { id in w.requests && w.requests[id].phase == p }

  /** What a request does when it finds a session of this owner. */
  function Found(w: World, id: nat, owner: string): World
    requires id in w.requests
  {
    End(w, id, if owner != w.requests[id].user then BadRequest else AlreadyExists)
  }

  /** An action that cannot happen now changes nothing. */
  function Next(w: World, a: Action): World {
    match a
    case Create(id, user) =>
      if id in w.requests then w
      else if w.claimed then w.(requests := w.requests[id := Request(user, Ended(BadRequest))])
      else w.(claimed := true, requests := w.requests[id := Request(user, Claimed)])
    case LookActive(id) =>
      if !At(w, id, Claimed) then w
      else if w.active.Some? then Found(w, id, w.active.value) else To(w, id, NotActive)
    case LookStored(id, readable) =>
      if !At(w, id, NotActive) then w
      else if readable && w.stored.Some? then Found(w, id, w.stored.value) else To(w, id, Building)
    case BuildFails(id) => if At(w, id, Building) then End(w, id, Failed) else w
    case Persist(id, written) =>
      if !At(w, id, Building) then w
      else if written then To(w, id, Persisted).(stored := Some(w.requests[id].user)) else To(w, id, Persisted)
    case Activate(id) => if At(w, id, Persisted) then To(w, id, Active).(active := Some(w.requests[id].user)) else w
    case AcceptMessage(id) => if At(w, id, Active) then End(w, id, Accepted) else w
    case RejectMessage(id) => if At(w, id, Active) then End(w, id, Failed).(active := None) else w
    case Evict => w.(active := None)
    case Reactivate => if w.active.None? && w.stored.Some? then w.(active := w.stored) else w
  }

  function Run(w: World, actions: seq<Action>): World
    decreases |actions|
  {
    if actions == [] then w else Run(Next(w, actions[0]), actions[1..])
  }

  predicate Running(r: Request) { !r.phase.Ended? }

  /** Goes on to create the session, or has created it. */
  predicate Making(r: Request) {
    r.phase == Building || r.phase == Persisted || r.phase == Active || r.phase == Ended(Accepted)
  }

  /** The claim is held while a request runs, and only one does. */
  predicate Exclusive(w: World) {
    && (!w.claimed ==> forall id :: id in w.requests ==> !Running(w.requests[id]))
    && (forall i, j :: i in w.requests && j in w.requests && Running(w.requests[i]) && Running(w.requests[j]) ==> i == j)
  }

  predicate OneMaker(w: World) {
    forall i, j :: i in w.requests && j in w.requests && Making(w.requests[i]) && Making(w.requests[j]) ==> i == j
  }

  // ----- exactly when a session is created once

  predicate SomeAccepted(w: World) { exists k :: k in w.requests && w.requests[k].phase == Ended(Accepted) }

  /** A request does not see in the store, empty or unreadable, a session that was accepted and has left memory. */
  predicate GoesBlind(w: World, a: Action) {
    a.LookStored? && At(w, a.id, NotActive) && !(a.readable && w.stored.Some?) && SomeAccepted(w)
  }

  lemma StaysExclusive(w: World, a: Action)
    requires Exclusive(w)
    ensures Exclusive(Next(w, a))
  {
  }

  lemma BlindMakes(w: World, a: Action)
    requires Exclusive(w) && OneMaker(w) && GoesBlind(w, a)
    ensures !OneMaker(Next(w, a))
  {
    var k :| k in w.requests && w.requests[k].phase == Ended(Accepted);
    var u := Next(w, a);
    assert Making(u.requests[k]) && Making(u.requests[a.id]) && k != a.id;
  }

  lemma SightedLook(w: World, a: Action)
    requires Exclusive(w) && OneMaker(w) && a.LookStored? && At(w, a.id, NotActive) && !GoesBlind(w, a)
    ensures OneMaker(Next(w, a))
  {
    if !(a.readable && w.stored.Some?) {
      forall k | k in w.requests && k != a.id ensures !Making(w.requests[k]) {
        assert Running(w.requests[a.id]);
      }
    }
  }

  /** A step keeps at most one request creating the session exactly if it does not go on blindly. */
  lemma OneMakerIffSighted(w: World, a: Action)
    requires Exclusive(w) && OneMaker(w)
    ensures Exclusive(Next(w, a)) && (OneMaker(Next(w, a)) <==> !GoesBlind(w, a))
  {
    StaysExclusive(w, a);
    if GoesBlind(w, a) {
      BlindMakes(w, a);
    } else if a.LookStored? && At(w, a.id, NotActive) {
      SightedLook(w, a);
    } else {
      forall id | id in Next(w, a).requests && Making(Next(w, a).requests[id])
        ensures id in w.requests && Making(w.requests[id])
      {
      }
    }
  }

  predicate AlwaysOneMaker(w: World, actions: seq<Action>)
    decreases |actions|
  {
    OneMaker(w) && (actions != [] ==> AlwaysOneMaker(Next(w, actions[0]), actions[1..]))
  }

  predicate NeverBlind(w: World, actions: seq<Action>)
    decreases |actions|
  {
    actions != [] ==> !GoesBlind(w, actions[0]) && NeverBlind(Next(w, actions[0]), actions[1..])
  }

  /** Throughout a run at most one request creates the session exactly if none goes on blindly after an acceptance. */
  lemma {:induction false} CreatedOnceIffNeverBlind(w: World, actions: seq<Action>)
    requires Exclusive(w) && OneMaker(w)
    ensures AlwaysOneMaker(w, actions) <==> NeverBlind(w, actions)
    ensures NeverBlind(w, actions) ==> OneMaker(Run(w, actions))
    decreases |actions|
  {
    if actions != [] {
      OneMakerIffSighted(w, actions[0]);
      if !GoesBlind(w, actions[0]) { CreatedOnceIffNeverBlind(Next(w, actions[0]), actions[1..]); }
    }
  }

  /** And one that does is accepted as well, if nothing fails from there on. */
  lemma BlindIsAccepted(w: World, id: nat, readable: bool, written: bool)
    requires GoesBlind(w, LookStored(id, readable))
    ensures var u := Run(w, [LookStored(id, readable), Persist(id, written), Activate(id), AcceptMessage(id)]);
      At(u, id, Ended(Accepted)) && exists k :: k != id && At(u, k, Ended(Accepted))
  {
    var k :| k in w.requests && w.requests[k].phase == Ended(Accepted);
    var v := Next(w, LookStored(id, readable));
    Three(v, Persist(id, written), Activate(id), AcceptMessage(id));
    RunFrom(w, [LookStored(id, readable)], [Persist(id, written), Activate(id), AcceptMessage(id)]);
    assert Run(w, [LookStored(id, readable)]) == v;
    var u := Next(Next(Next(v, Persist(id, written)), Activate(id)), AcceptMessage(id));
    assert At(u, k, Ended(Accepted)) && k != id;
  }

  // ----- with a reliable store

  /** Reads and writes of the session store succeed. */
  predicate Reliable(a: Action) { (a.LookStored? ==> a.readable) && (a.Persist? ==> a.written) }

  predicate Succeeded(r: Request) { r.phase == Ended(Accepted) || r.phase == Ended(AlreadyExists) }

  predicate Creating(r: Request) { r.phase == Persisted || r.phase == Active || r.phase == Ended(Accepted) }

  /**
   A session is stored as soon as a request that goes on to create it has tried to, and its owner is the
   stored owner; so is everyone who was told of success.
   */
  predicate Good(w: World) {
    && Exclusive(w) && OneMaker(w)
    && (forall id :: id in w.requests && (Creating(w.requests[id]) || Succeeded(w.requests[id])) ==>
          w.stored == Some(w.requests[id].user))
    && (forall id :: id in w.requests && w.requests[id].phase == Building ==> w.stored.None?)
    && (w.active.Some? ==> w.active == w.stored)
  }

  lemma OwnersGood(w: World, a: Action)
    requires Good(w) && Reliable(a) && OneMaker(Next(w, a)) && Exclusive(Next(w, a))
    ensures Good(Next(w, a))
  {
  }

  lemma NextGood(w: World, a: Action)
    requires Good(w) && Reliable(a)
    ensures Good(Next(w, a)) && !GoesBlind(w, a)
  {
    OneMakerIffSighted(w, a);
    OwnersGood(w, a);
  }

  lemma {:induction false} EveryRunGood(w: World, actions: seq<Action>)
    requires Good(w) && forall i :: 0 <= i < |actions| ==> Reliable(actions[i])
    ensures Good(Run(w, actions)) && NeverBlind(w, actions)
    decreases |actions|
  {
    if actions != [] {
      assert Reliable(actions[0]);
      NextGood(w, actions[0]);
      EveryRunGood(Next(w, actions[0]), actions[1..]);
    }
  }

  /** However requests for one ID interleave, at most one is accepted, and only the owner is told of success. */
  lemma AcceptedAtMostOnce(actions: seq<Action>, i: nat, j: nat)
    requires forall k :: 0 <= k < |actions| ==> Reliable(actions[k])
    requires var w := Run(Initial(), actions); i in w.requests && j in w.requests
    ensures var w := Run(Initial(), actions);
      && (At(w, i, Ended(Accepted)) && At(w, j, Ended(Accepted)) ==> i == j)
      && (Succeeded(w.requests[i]) ==> w.stored == Some(w.requests[i].user))
      && (Succeeded(w.requests[i]) && Succeeded(w.requests[j]) ==> w.requests[i].user == w.requests[j].user)
  {
    EveryRunGood(Initial(), actions);
    CreatedOnceIffNeverBlind(Initial(), actions);
  }

  /** The actions of one request that finds nothing. */
  function Attempt(id: nat, user: string, written: bool): seq<Action> {
    [Create(id, user), LookActive(id), LookStored(id, true)] + [Persist(id, written), Activate(id), AcceptMessage(id)]
  }

  lemma AttemptAccepted(w: World, id: nat, user: string, written: bool)
    requires !w.claimed && w.active.None? && w.stored.None? && id !in w.requests
    ensures Run(w, Attempt(id, user, written)) ==
            World(false, Some(user), if written then Some(user) else None, w.requests[id := Request(user, Ended(Accepted))])
  {
    var half := w.(claimed := true, requests := w.requests[id := Request(user, Building)]);
    Three(w, Create(id, user), LookActive(id), LookStored(id, true));
    assert Next(Next(Next(w, Create(id, user)), LookActive(id)), LookStored(id, true)) == half;
    Three(half, Persist(id, written), Activate(id), AcceptMessage(id));
    RunFrom(w, [Create(id, user), LookActive(id), LookStored(id, true)], [Persist(id, written), Activate(id), AcceptMessage(id)]);
  }

  lemma Three(w: World, a: Action, b: Action, c: Action)
    ensures Run(w, [a, b, c]) == Next(Next(Next(w, a), b), c)
  {
    assert [a, b, c][1..] == [b, c] && [b, c][1..] == [c] && [c][1..] == [];
    assert Run(Next(Next(w, a), b), [c]) == Next(Next(Next(w, a), b), c);
  }

  /** A write that fails and an eviction: two users are told that the same session was created for them. */
  lemma UnreliableStoreAcceptsTwice(first: string, second: string)
    ensures var w := Run(Initial(), Attempt(1, first, false) + [Evict] + Attempt(2, second, true));
      At(w, 1, Ended(Accepted)) && At(w, 2, Ended(Accepted)) && w.requests[1].user == first && w.requests[2].user == second
  {
    var w1 := Run(Initial(), Attempt(1, first, false));
    AttemptAccepted(Initial(), 1, first, false);
    var w2 := Next(w1, Evict);
    assert Run(w1, [Evict]) == w2;
    AttemptAccepted(w2, 2, second, true);
    RunFrom(Initial(), Attempt(1, first, false), [Evict]);
    RunFrom(Initial(), Attempt(1, first, false) + [Evict], Attempt(2, second, true));
  }

  lemma {:induction false} RunFrom(w: World, first: seq<Action>, rest: seq<Action>)
    ensures Run(w, first + rest) == Run(Run(w, first), rest)
    decreases |first|
  {
    if first == [] {
      assert first + rest == rest;
    } else {
      assert (first + rest)[1..] == first[1..] + rest;
      RunFrom(Next(w, first[0]), first[1..], rest);
    }
  }
}
