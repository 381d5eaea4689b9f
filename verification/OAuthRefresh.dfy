/**
 The double-checked refresh of a stored OAuth credential (internal/agentoauth/manager.go), as a
 state machine over any number of callers. A step is what a caller does between two points at
 which others may run; time passes, logins and logouts happen in between.
 */
module OAuthRefresh {
  import opened Text

  /** A refresh token is identified by a number; none stands for a blank one. */
  datatype Credential = Credential(token: Option<nat>, expires: Option<nat>)

  datatype Phase =
    | Waiting                                            // found the credential due, wants the lock
    | Locked                                             // holds the lock, has not looked again
    | Refreshing(sent: nat)                              // has presented the token to the provider
    | Saving(sent: nat, renewed: Credential)              // has the new credential, not yet stored
    | Returned(result: Option<Credential>)               // done, with a credential or an error

  datatype World = World(
    now: nat, skew: nat, store: Option<Credential>, lock: Option<nat>, callers: map<nat, Phase>,
    issued: set<nat>, presented: seq<nat>, failed: seq<nat>)

  datatype Action =
    | Tick(ticks: nat)
    | Login(cred: Credential)
    | Logout
    | Call(id: nat)
    | Acquire(id: nat)
    | LookAgain(id: nat)
    | Answer(id: nat, cred: Credential)
    | Refuse(id: nat)
    | Save(id: nat)
    | SaveFails(id: nat)
    | ReadFails(id: nat)

  /** A credential without an expiry is never due. */
  predicate Due(c: Credential, now: nat, skew: nat) { c.expires.Some? && c.expires.value <= now + skew }

  function To(w: World, id: nat, p: Phase): World { w.(callers := w.callers[id := p]) }

  function Leave(w: World, id: nat, result: Option<Credential>): World { To(w, id, Returned(result)).(lock := None) }

  /** The provider issues tokens it never issued before. */
  predicate Fresh(w: World, c: Credential) { c.token.Some? ==> c.token.value !in w.issued }

  function Issue(w: World, c: Credential): World {
    if c.token.Some? then w.(issued := w.issued + {c.token.value}) else w
  }

  function DoCall(w: World, id: nat): World {
    if w.store.None? then To(w, id, Returned(None))
    else if !Due(w.store.value, w.now, w.skew) then To(w, id, Returned(w.store))
    else if w.store.value.token.None? then To(w, id, Returned(None))
    else To(w, id, Waiting)
  }

  function DoLookAgain(w: World, id: nat): World {
    if w.store.None? then Leave(w, id, None)
    else if !Due(w.store.value, w.now, w.skew) then Leave(w, id, w.store)
    else if w.store.value.token.None? then Leave(w, id, None)
    else To(w, id, Refreshing(w.store.value.token.value)).(presented := w.presented + [w.store.value.token.value])
  }

  predicate In(w: World, id: nat) { id in w.callers }

  /** The store cannot be read, at the first look or at the second. */
  function DoReadFails(w: World, id: nat): World {
    if id !in w.callers then To(w, id, Returned(None))
    else if w.callers[id].Locked? then Leave(w, id, None)
    else w
  }

  /** An action that cannot happen now changes nothing. */
  function Next(w: World, a: Action): World {
    match a
    case Tick(d) => w.(now := w.now + d)
    case Login(c) => if Fresh(w, c) then Issue(w, c).(store := Some(c)) else w
    case Logout => w.(store := None)
    case Call(id) => if id !in w.callers then DoCall(w, id) else w
    case Acquire(id) =>
      if In(w, id) && w.callers[id].Waiting? && w.lock.None? then To(w, id, Locked).(lock := Some(id)) else w
    case LookAgain(id) => if In(w, id) && w.callers[id].Locked? then DoLookAgain(w, id) else w
    case Answer(id, c) =>
      if In(w, id) && w.callers[id].Refreshing? && Fresh(w, c) then To(Issue(w, c), id, Saving(w.callers[id].sent, c)) else w
    case Refuse(id) =>
      if In(w, id) && w.callers[id].Refreshing? then Leave(w, id, None).(failed := w.failed + [w.callers[id].sent]) else w
    case Save(id) =>
      if In(w, id) && w.callers[id].Saving?
      then Leave(w, id, Some(w.callers[id].renewed)).(store := Some(w.callers[id].renewed)) else w
    case SaveFails(id) =>
      if In(w, id) && w.callers[id].Saving? then Leave(w, id, None).(failed := w.failed + [w.callers[id].sent]) else w
    case ReadFails(id) => DoReadFails(w, id)
  }

  function Run(w: World, actions: seq<Action>): World
    decreases |actions|
  {
    if actions == [] then w else Run(Next(w, actions[0]), actions[1..])
  }

  // ----- at most once

  predicate InCritical(p: Phase) { p.Locked? || p.Refreshing? || p.Saving? }

  predicate Under(p: Phase, token: nat) { (p.Refreshing? || p.Saving?) && p.sent == token }

  function Times(tokens: seq<nat>, token: nat): nat { multiset(tokens)[token] }

  /** The refresh of this token is under way. */
  predicate UnderWay(w: World, token: nat) {
    w.lock.Some? && In(w, w.lock.value) && Under(w.callers[w.lock.value], token)
  }

  /** Whoever is past the lock holds it. */
  predicate Exclusive(w: World) {
    && (forall id :: id in w.callers && InCritical(w.callers[id]) ==> w.lock == Some(id))
    && (w.lock.Some? ==> In(w, w.lock.value) && InCritical(w.callers[w.lock.value]))
  }

  predicate Known(w: World) {
    && (w.store.Some? && w.store.value.token.Some? ==> w.store.value.token.value in w.issued)
    && (forall t :: t in w.presented ==> t in w.issued) && (forall t :: t in w.failed ==> t in w.issued)
    && (forall id :: id in w.callers ==> NewIsNew(w, w.callers[id]))
  }

  /** A new credential waiting to be stored has a token that was neither presented nor stored. */
  predicate NewIsNew(w: World, p: Phase) {
    p.Saving? && p.renewed.token.Some? ==>
      p.renewed.token.value in w.issued && p.renewed.token.value !in w.presented && p.renewed.token.value !in w.failed
  }

  /** Every attempt with a token has failed, is under way, or took the token out of the store. */
  predicate Counted(w: World, token: nat) {
    var tries, fails := Times(w.presented, token), Times(w.failed, token);
    && tries <= fails + 1
    && (UnderWay(w, token) ==> tries == fails + 1)
    && (w.store.Some? && w.store.value.token == Some(token) && !UnderWay(w, token) ==> tries == fails)
  }

  ghost predicate Good(w: World) { Exclusive(w) && Known(w) && forall token :: Counted(w, token) }

  lemma SnocTimes(tokens: seq<nat>, more: nat, token: nat)
    ensures Times(tokens + [more], token) == Times(tokens, token) + if token == more then 1 else 0
  {
    assert multiset(tokens + [more]) == multiset(tokens) + multiset{more};
  }

  lemma LookAgainGood(w: World, id: nat)
    requires Good(w) && In(w, id) && w.callers[id].Locked?
    ensures Good(DoLookAgain(w, id))
  {
    if w.store.Some? && Due(w.store.value, w.now, w.skew) && w.store.value.token.Some? {
      PresentGood(w, id, w.store.value.token.value);
    } else {
      LeaveGood(w, id, DoLookAgain(w, id).callers[id].result);
    }
  }

  /** A caller that leaves the lock without having presented anything. */
  lemma LeaveGood(w: World, id: nat, result: Option<Credential>)
    requires Good(w) && In(w, id) && w.callers[id].Locked?
    ensures Good(Leave(w, id, result))
  {
    var u := Leave(w, id, result);
    assert w.lock == Some(id);
    forall token ensures Counted(u, token) { assert Counted(w, token); }
  }

  /** A caller that presents the stored token. */
  lemma PresentGood(w: World, id: nat, sent: nat)
    requires Good(w) && In(w, id) && w.callers[id].Locked? && w.store.Some? && w.store.value.token == Some(sent)
    ensures Good(To(w, id, Refreshing(sent)).(presented := w.presented + [sent]))
  {
    var u := To(w, id, Refreshing(sent)).(presented := w.presented + [sent]);
    assert w.lock == Some(id);
    PresentKnown(w, id, sent);
    forall token ensures Counted(u, token) {
      assert Counted(w, token);
      SnocTimes(w.presented, sent, token);
    }
  }

  lemma PresentKnown(w: World, id: nat, sent: nat)
    requires Good(w) && In(w, id) && w.callers[id].Locked? && w.store.Some? && w.store.value.token == Some(sent)
    ensures var u := To(w, id, Refreshing(sent)).(presented := w.presented + [sent]); Exclusive(u) && Known(u)
  {
    assert w.lock == Some(id);
  }

  lemma FailGood(w: World, id: nat)
    requires Good(w) && In(w, id) && (w.callers[id].Refreshing? || w.callers[id].Saving?)
    ensures Good(Leave(w, id, None).(failed := w.failed + [w.callers[id].sent]))
  {
    var u := Leave(w, id, None).(failed := w.failed + [w.callers[id].sent]);
    assert Counted(w, w.callers[id].sent) && w.callers[id].sent in multiset(w.presented);
    forall token ensures Counted(u, token) {
      assert Counted(w, token);
      SnocTimes(w.failed, w.callers[id].sent, token);
    }
  }

  lemma SaveGood(w: World, id: nat)
    requires Good(w) && In(w, id) && w.callers[id].Saving?
    ensures Good(Next(w, Save(id)))
  {
    var u := Next(w, Save(id));
    forall token ensures Counted(u, token) { assert Counted(w, token); }
  }

  lemma AnswerGood(w: World, id: nat, c: Credential)
    requires Good(w) && In(w, id) && w.callers[id].Refreshing? && Fresh(w, c)
    ensures Good(Next(w, Answer(id, c)))
  {
    var u := Next(w, Answer(id, c));
    forall token ensures Counted(u, token) { assert Counted(w, token); }
  }

  lemma LoginGood(w: World, c: Credential)
    requires Good(w) && Fresh(w, c)
    ensures Good(Next(w, Login(c)))
  {
    var u := Next(w, Login(c));
    forall token ensures Counted(u, token) { assert Counted(w, token); }
  }

  lemma NewCallerGood(w: World, id: nat, p: Phase)
    requires Good(w) && id !in w.callers && (p.Returned? || p.Waiting?)
    ensures Good(To(w, id, p))
  {
    var u := To(w, id, p);
    forall token ensures Counted(u, token) { assert Counted(w, token); }
  }

  lemma ReadFailsGood(w: World, id: nat)
    requires Good(w)
    ensures Good(DoReadFails(w, id))
  {
    if id !in w.callers {
      NewCallerGood(w, id, Returned(None));
    } else if w.callers[id].Locked? {
      LeaveGood(w, id, None);
    }
  }

  lemma EasyGood(w: World, a: Action)
    requires Good(w) && (a.Tick? || a.Logout? || a.Acquire?)
    ensures Good(Next(w, a))
  {
    var u := Next(w, a);
    forall token ensures Counted(u, token) { assert Counted(w, token); }
  }

  lemma NextGood(w: World, a: Action)
    requires Good(w)
    ensures Good(Next(w, a))
  {
    if a.Login? { if Fresh(w, a.cred) { LoginGood(w, a.cred); } }
    else if a.Call? { if a.id !in w.callers { NewCallerGood(w, a.id, DoCall(w, a.id).callers[a.id]); } }
    else if a.ReadFails? { ReadFailsGood(w, a.id); }
    else if a.LookAgain? { if In(w, a.id) && w.callers[a.id].Locked? { LookAgainGood(w, a.id); } }
    else if a.Answer? {
      if In(w, a.id) && w.callers[a.id].Refreshing? && Fresh(w, a.cred) { AnswerGood(w, a.id, a.cred); }
    }
    else if a.Refuse? { if In(w, a.id) && w.callers[a.id].Refreshing? { FailGood(w, a.id); } }
    else if a.SaveFails? { if In(w, a.id) && w.callers[a.id].Saving? { FailGood(w, a.id); } }
    else if a.Save? { if In(w, a.id) && w.callers[a.id].Saving? { SaveGood(w, a.id); } }
    else { EasyGood(w, a); }
  }

  /** Whatever the callers, the clock and the logins do, a token is presented at most once more than it failed. */
  lemma {:induction false} PresentedAtMostOncePerFailure(w: World, actions: seq<Action>, token: nat)
    requires Good(w)
    ensures Good(Run(w, actions))
    ensures Times(Run(w, actions).presented, token) <= Times(Run(w, actions).failed, token) + 1
    decreases |actions|
  {
    if actions == [] {
      assert Counted(w, token);
    } else {
      NextGood(w, actions[0]);
      PresentedAtMostOncePerFailure(Next(w, actions[0]), actions[1..], token);
    }
  }

  /** Nobody has called yet. */
  predicate Starts(w: World) {
    && w.lock.None? && w.callers == map[] && w.presented == [] && w.failed == []
    && (w.store.Some? && w.store.value.token.Some? ==> w.store.value.token.value in w.issued)
  }

  lemma StartGood(w: World)
    requires Starts(w)
    ensures Good(w)
  {
  }

  predicate Succeeds(a: Action) { !a.Refuse? && !a.SaveFails? }

  lemma {:induction false} NoFailures(w: World, actions: seq<Action>)
    requires forall i :: 0 <= i < |actions| ==> Succeeds(actions[i])
    ensures Run(w, actions).failed == w.failed
    decreases |actions|
  {
    if actions != [] {
      assert Succeeds(actions[0]);
      NoFailures(Next(w, actions[0]), actions[1..]);
    }
  }

  /** With refreshes and store writes succeeding, no token is presented twice. */
  lemma NoTokenTwice(w: World, actions: seq<Action>, token: nat)
    requires Starts(w) && forall i :: 0 <= i < |actions| ==> Succeeds(actions[i])
    ensures Times(Run(w, actions).presented, token) <= 1
  {
    StartGood(w);
    PresentedAtMostOncePerFailure(w, actions, token);
    NoFailures(w, actions);
  }

  // ----- exactly one refresh

  /** Calls only: nobody logs in or out, nothing fails, and what the provider issues is good until `horizon`. */
  predicate Quiet(a: Action, horizon: nat, skew: nat) {
    Succeeds(a) && !a.ReadFails? && !a.Login? && !a.Logout? && (a.Answer? ==> !Due(a.cred, horizon, skew))
  }

  /** A refresh under way is that of c, and its answer is another, good credential. */
  predicate Renews(p: Phase, c: Credential, horizon: nat, skew: nat) {
    && (p.Refreshing? || p.Saving? ==> Some(p.sent) == c.token)
    && (p.Saving? ==> p.renewed.token != c.token && !Due(p.renewed, horizon, skew))
  }

  /** Before the refresh, during it, or after it. */
  predicate OneRefresh(w: World, c: Credential, horizon: nat) {
    && Exclusive(w) && c.token.Some? && c.token.value in w.issued
    && (forall id :: id in w.callers ==> Renews(w.callers[id], c, horizon, w.skew))
    && if w.store == Some(c) then
         w.presented == if UnderWay(w, c.token.value) then [c.token.value] else []
       else
         && w.presented == [c.token.value] && w.store.Some? && !Due(w.store.value, horizon, w.skew)
         && !UnderWay(w, c.token.value)
  }

  lemma LookAgainOnce(w: World, id: nat, c: Credential, horizon: nat)
    requires OneRefresh(w, c, horizon) && w.now <= horizon && In(w, id) && w.callers[id].Locked?
    ensures OneRefresh(DoLookAgain(w, id), c, horizon)
  {
    assert w.lock == Some(id);
    if w.store == Some(c) { assert w.presented + [c.token.value] == [c.token.value]; }
  }

  lemma SaveOnce(w: World, id: nat, c: Credential, horizon: nat)
    requires OneRefresh(w, c, horizon) && In(w, id) && w.callers[id].Saving?
    ensures OneRefresh(Next(w, Save(id)), c, horizon)
  {
    assert w.lock == Some(id) && Renews(w.callers[id], c, horizon, w.skew);
  }

  lemma QuietStep(w: World, a: Action, c: Credential, horizon: nat)
    requires OneRefresh(w, c, horizon) && Quiet(a, horizon, w.skew) && w.now <= horizon
    ensures OneRefresh(Next(w, a), c, horizon) && Next(w, a).skew == w.skew && w.now <= Next(w, a).now
  {
    if a.LookAgain? {
      if In(w, a.id) && w.callers[a.id].Locked? { LookAgainOnce(w, a.id, c, horizon); }
    } else if a.Save? {
      if In(w, a.id) && w.callers[a.id].Saving? { SaveOnce(w, a.id, c, horizon); }
    }
  }

  lemma {:induction false} TimePasses(w: World, actions: seq<Action>)
    ensures w.now <= Run(w, actions).now
    decreases |actions|
  {
    if actions != [] { TimePasses(Next(w, actions[0]), actions[1..]); }
  }

  lemma {:induction false} QuietRun(w: World, actions: seq<Action>, c: Credential, horizon: nat)
    requires OneRefresh(w, c, horizon) && Run(w, actions).now <= horizon
    requires forall i :: 0 <= i < |actions| ==> Quiet(actions[i], horizon, w.skew)
    ensures OneRefresh(Run(w, actions), c, horizon)
    decreases |actions|
  {
    if actions != [] {
      TimePasses(w, actions);
      QuietStep(w, actions[0], c, horizon);
      QuietRun(Next(w, actions[0]), actions[1..], c, horizon);
    }
  }

  /** While c is stored it is due and nobody has returned; afterwards whoever returned has what is stored. */
  predicate Served(w: World, c: Credential) {
    && Due(c, w.now, w.skew)
    && forall id :: id in w.callers && w.callers[id].Returned? ==> w.store != Some(c) && w.callers[id].result == w.store
  }

  lemma ServedStep(w: World, a: Action, c: Credential, horizon: nat)
    requires OneRefresh(w, c, horizon) && Served(w, c) && Quiet(a, horizon, w.skew) && Next(w, a).now <= horizon
    ensures Served(Next(w, a), c)
  {
    if a.Save? && In(w, a.id) && w.callers[a.id].Saving? {
      assert Renews(w.callers[a.id], c, horizon, w.skew);
      assert w.lock == Some(a.id) && UnderWay(w, c.token.value);
    }
  }

  lemma {:induction false} ServedRun(w: World, actions: seq<Action>, c: Credential, horizon: nat)
    requires OneRefresh(w, c, horizon) && Served(w, c) && Run(w, actions).now <= horizon
    requires forall i :: 0 <= i < |actions| ==> Quiet(actions[i], horizon, w.skew)
    ensures Served(Run(w, actions), c)
    decreases |actions|
  {
    if actions != [] {
      TimePasses(w, actions);
      TimePasses(Next(w, actions[0]), actions[1..]);
      QuietStep(w, actions[0], c, horizon);
      ServedStep(w, actions[0], c, horizon);
      ServedRun(Next(w, actions[0]), actions[1..], c, horizon);
    }
  }

  /**
   One credential with callers only, and an answer good to the end of the run: its token is presented
   at most once, exactly once if the stored credential changed, and what is stored then is not due.
   */
  lemma AtMostOneRefresh(w: World, actions: seq<Action>, c: Credential)
    requires Starts(w) && w.store == Some(c) && c.token.Some?
    requires var horizon := Run(w, actions).now;
      forall i :: 0 <= i < |actions| ==> Quiet(actions[i], horizon, w.skew)
    ensures var u := Run(w, actions);
      && |u.presented| <= 1
      && (u.store != w.store ==> u.presented == [c.token.value] && u.store.Some? && !Due(u.store.value, u.now, w.skew))
  {
    QuietRun(w, actions, c, Run(w, actions).now);
    SkewFixed(w, actions);
  }

  /**
   An expired credential causes exactly one refresh: as soon as any caller has returned, its token was
   presented once, another credential is stored that is not due, and every caller that returned has that one.
   */
  lemma ExactlyOneRefresh(w: World, actions: seq<Action>, c: Credential, id: nat)
    requires Starts(w) && w.store == Some(c) && c.token.Some? && Due(c, w.now, w.skew)
    requires var horizon := Run(w, actions).now;
      forall i :: 0 <= i < |actions| ==> Quiet(actions[i], horizon, w.skew)
    requires In(Run(w, actions), id) && Run(w, actions).callers[id].Returned?
    ensures var u := Run(w, actions);
      && u.presented == [c.token.value] && u.callers[id].result == u.store
      && u.store.Some? && u.store != w.store && !Due(u.store.value, u.now, w.skew)
  {
    AtMostOneRefresh(w, actions, c);
    ServedRun(w, actions, c, Run(w, actions).now);
  }

  lemma {:induction false} SkewFixed(w: World, actions: seq<Action>)
    ensures Run(w, actions).skew == w.skew
    decreases |actions|
  {
    if actions != [] { SkewFixed(Next(w, actions[0]), actions[1..]); }
  }

  /** A caller that comes after the refresh, or looks again behind it, gets the new credential without another. */
  lemma LateCallerUsesRenewed(w: World, id: nat, c: Credential)
    requires OneRefresh(w, c, w.now) && w.store != Some(c)
    ensures id !in w.callers ==> DoCall(w, id).callers[id] == Returned(w.store)
    ensures In(w, id) && w.callers[id].Locked? ==>
      DoLookAgain(w, id).callers[id] == Returned(w.store) && DoLookAgain(w, id).presented == w.presented
  {
  }
}
