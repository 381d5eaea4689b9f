/**
 One call of `EnsureValid` (internal/agentoauth/manager.go) as the code performs it, with other
 callers, logins, logouts and the clock running wherever the code gives them the chance.
 Every such call is a run of the protocol in `OAuthRefresh`.
 */
module OAuthManager {
  import opened Text
  import opened OAuthRefresh

  /** The action is not this caller's. */
  predicate Foreign(a: Action, id: nat) {
    a.Tick? || a.Login? || a.Logout? || a.id != id
  }

  predicate AllForeign(actions: seq<Action>, id: nat) {
    forall i :: 0 <= i < |actions| ==> Foreign(actions[i], id)
  }

  lemma ForeignStep(w: World, a: Action, id: nat)
    requires Good(w) && In(w, id) && Foreign(a, id)
    ensures Good(Next(w, a)) && In(Next(w, a), id) && Next(w, a).callers[id] == w.callers[id]
  {
    NextGood(w, a);
  }

  /** Others do not move a caller. */
  lemma {:induction false} ForeignRun(w: World, actions: seq<Action>, id: nat)
    requires Good(w) && In(w, id) && AllForeign(actions, id)
    ensures var u := Run(w, actions); Good(u) && In(u, id) && u.callers[id] == w.callers[id]
    decreases |actions|
  {
    if actions != [] {
      ForeignStep(w, actions[0], id);
      ForeignRun(Next(w, actions[0]), actions[1..], id);
    }
  }

  lemma {:induction false} RunFrom(w: World, first: seq<Action>, rest: seq<Action>)
    ensures Run(w, first + rest) == Run(Run(w, first), rest)
    decreases |first|
  {
    if first == [] {
      assert first + rest == rest;
    } else {
      assert (first + rest)[1..] == first[1..] + rest;
      RunFrom(Next(w, first[0]), first[1..], rest);
    }
  }

  lemma RunOneMore(w: World, trace: seq<Action>, a: Action)
    ensures Run(w, trace + [a]) == Next(Run(w, trace), a)
  {
    RunFrom(w, trace, [a]);
    assert [a][1..] == [];
  }

  lemma GoodOneMore(w: World, trace: seq<Action>, a: Action)
    requires Good(Run(w, trace))
    ensures Run(w, trace + [a]) == Next(Run(w, trace), a) && Good(Run(w, trace + [a]))
  {
    RunOneMore(w, trace, a);
    NextGood(Run(w, trace), a);
  }

  class Manager {
    const skew: nat
    var now: nat
    var store: Option<Credential>
    var lock: Option<nat>
    // where every caller stands, and what the provider has issued, seen and refused
    var callers: map<nat, Phase>
    var issued: set<nat>
    var presented: seq<nat>
    var failed: seq<nat>

    constructor (skew: nat, now: nat, store: Option<Credential>)
      ensures Good(View()) && View().store == store && View().callers == map[]
    {
      this.skew, this.now, this.store := skew, now, store;
      lock, callers, presented, failed := None, map[], [], [];
      issued := if store.Some? && store.value.token.Some? then {store.value.token.value} else {};
    }

    function View(): World
      reads this
    {
      World(now, skew, store, lock, callers, issued, presented, failed)
    }

    method Assign(w: World)
      requires w.skew == skew
      modifies this
      ensures View() == w
    {
      now, store, lock, callers := w.now, w.store, w.lock, w.callers;
      issued, presented, failed := w.issued, w.presented, w.failed;
    }

    /** Others run, one action after the other. */
    method Interfere(actions: seq<Action>)
      modifies this
      ensures View() == Run(old(View()), actions)
    {
      for i := 0 to |actions|
        invariant View() == Run(old(View()), actions[..i])
      {
        RunOneMore(old(View()), actions[..i], actions[i]);
        assert actions[..i + 1] == actions[..i] + [actions[i]];
        Assign(Next(View(), actions[i]));
      }
      assert actions[..|actions|] == actions;
    }

    /** This caller moves on; gives up the lock if it returns from behind it. */
    method Move(id: nat, p: Phase)
      modifies this`callers, this`lock
      ensures View() == if p.Returned? then Leave(old(View()), id, p.result) else To(old(View()), id, p)
    {
      callers := callers[id := p];
      if p.Returned? { lock := None; }
    }

    /** The first look: whether there is anything to refresh. */
    method FirstLook(id: nat, readable: bool) returns (result: Option<Credential>, waits: bool)
      requires id !in callers
      modifies this`callers
      ensures View() == Next(old(View()), if readable then Call(id) else ReadFails(id))
      ensures callers[id] == if waits then Waiting else Returned(result)
    {
      if !readable {
        callers := callers[id := Returned(None)];
        return None, false;
      }
      var cred := store;
      if cred.None? {
        callers := callers[id := Returned(None)];
        return None, false;
      }
      if !Due(cred.value, now, skew) {
        callers := callers[id := Returned(cred)];
        return cred, false;
      }
      if cred.value.token.None? {
        callers := callers[id := Returned(None)];
        return None, false;
      }
      callers := callers[id := Waiting];
      return None, true;
    }

    /** The second look, behind the lock; presents the token if the credential is still due. */
    method SecondLook(id: nat, readable: bool) returns (result: Option<Credential>, refreshes: bool)
      requires id in callers && callers[id].Locked?
      modifies this`callers, this`lock, this`presented
      ensures View() == Next(old(View()), if readable then LookAgain(id) else ReadFails(id))
      ensures if refreshes then callers[id].Refreshing? else callers[id] == Returned(result)
    {
      if !readable {
        Move(id, Returned(None));
        return None, false;
      }
      var latest := store;
      if latest.Some? && !Due(latest.value, now, skew) {
        Move(id, Returned(latest));
        return latest, false;
      }
      if latest.None? || latest.value.token.None? {
        Move(id, Returned(None));
        return None, false;
      }
      presented := presented + [latest.value.token.value];
      Move(id, Refreshing(latest.value.token.value));
      return None, true;
    }

    /** The provider's answer: none is a refusal, and it never answers with a token it issued before. */
    method TakeAnswer(id: nat, reply: Option<Credential>) returns (ok: bool, ghost a: Action)
      requires id in callers && callers[id].Refreshing?
      modifies this
      ensures View() == Next(old(View()), a)
      ensures ok == (reply.Some? && Fresh(old(View()), reply.value)) && a == if ok then Answer(id, reply.value) else Refuse(id)
      ensures callers[id] == if ok then Saving(old(callers)[id].sent, reply.value) else Returned(None)
    {
      if reply.None? || !Fresh(View(), reply.value) {
        failed := failed + [callers[id].sent];
        Move(id, Returned(None));
        return false, Refuse(id);
      }
      if reply.value.token.Some? { issued := issued + {reply.value.token.value}; }
      Move(id, Saving(callers[id].sent, reply.value));
      return true, Answer(id, reply.value);
    }

    method SaveAnswer(id: nat, writable: bool) returns (result: Option<Credential>, ghost a: Action)
      requires id in callers && callers[id].Saving?
      modifies this
      ensures View() == Next(old(View()), a) && a == if writable then Save(id) else SaveFails(id)
      ensures callers[id] == Returned(result) && result == if writable then Some(old(callers)[id].renewed) else None
    {
      var p := callers[id];
      if !writable {
        failed := failed + [p.sent];
        Move(id, Returned(None));
        return None, SaveFails(id);
      }
      store := Some(p.renewed);
      Move(id, Returned(store));
      return Some(p.renewed), Save(id);
    }

    /** A caller waiting for a lock that is free. */
    method Lock(id: nat)
      requires id in callers && callers[id].Waiting? && lock.None?
      modifies this`callers, this`lock
      ensures View() == Next(old(View()), Acquire(id)) && callers[id].Locked?
    {
      lock := Some(id);
      Move(id, Locked);
    }

    /**
     A whole call. `others(n)` is what happens at the n-th point where others may run, and `readable(n)` says whether
     the n-th look can read the store.
     The call returns, or still waits for a lock that others hold.
     */
    method EnsureValid(id: nat, others: nat -> seq<Action>, readable: nat -> bool, reply: Option<Credential>, writable: bool)
      returns (result: Option<Credential>, returned: bool, ghost trace: seq<Action>)
      requires Good(View()) && id !in callers && forall n :: AllForeign(others(n), id)
      modifies this
      ensures View() == Run(old(View()), trace) && Good(View())
      ensures id in callers && callers[id] == if returned then Returned(result) else Waiting
    {
      ghost var start := View();
      var waits;
      ghost var look := if readable(0) then Call(id) else ReadFails(id);
      result, waits := FirstLook(id, readable(0));
      trace := [] + [look];
      GoodOneMore(start, [], look);
      if !waits { return result, true, trace; }
      trace := Pass(id, others(0), start, trace);
      if lock.Some? { return None, false, trace; }
      GoodOneMore(start, trace, Acquire(id));
      Lock(id);
      trace := trace + [Acquire(id)];
      trace := Pass(id, others(1), start, trace);
      result, trace := Refresh(id, others, readable(1), reply, writable, start, trace);
      returned := true;
    }

    /** Others run while this caller stands still. */
    method Pass(id: nat, actions: seq<Action>, ghost start: World, ghost trace: seq<Action>) returns (ghost more: seq<Action>)
      requires Good(View()) && id in callers && AllForeign(actions, id) && View() == Run(start, trace)
      modifies this
      ensures Good(View()) && id in callers && callers[id] == old(callers)[id] && View() == Run(start, more)
    {
      ForeignRun(View(), actions, id);
      RunFrom(start, trace, actions);
      Interfere(actions);
      more := trace + actions;
    }

    /** The part behind the lock. */
    method Refresh(id: nat, others: nat -> seq<Action>, readable: bool, reply: Option<Credential>, writable: bool,
                   ghost start: World, ghost before: seq<Action>)
      returns (result: Option<Credential>, ghost trace: seq<Action>)
      requires Good(View()) && id in callers && callers[id].Locked? && View() == Run(start, before)
      requires forall n :: AllForeign(others(n), id)
      modifies this
      ensures View() == Run(start, trace) && Good(View()) && id in callers && callers[id] == Returned(result)
    {
      ghost var look := if readable then LookAgain(id) else ReadFails(id);
      GoodOneMore(start, before, look);
      var refreshes;
      result, refreshes := SecondLook(id, readable);
      trace := before + [look];
      if refreshes {
        trace := Pass(id, others(2), start, trace);
        result, trace := Renew(id, others(3), reply, writable, start, trace);
      }
    }

    /** The part behind the provider's answer. */
    method Renew(id: nat, others: seq<Action>, reply: Option<Credential>, writable: bool,
                 ghost start: World, ghost before: seq<Action>)
      returns (result: Option<Credential>, ghost trace: seq<Action>)
      requires Good(View()) && id in callers && callers[id].Refreshing? && View() == Run(start, before) && AllForeign(others, id)
      modifies this
      ensures View() == Run(start, trace) && Good(View()) && id in callers && callers[id] == Returned(result)
    {
      var ok;
      ghost var a;
      ok, a := TakeAnswer(id, reply);
      GoodOneMore(start, before, a);
      trace := before + [a];
      if !ok { return None, trace; }
      trace := Pass(id, others, start, trace);
      result, a := SaveAnswer(id, writable);
      GoodOneMore(start, trace, a);
      trace := trace + [a];
    }
  }
}
