/**
 One call of `CreateSession` with a chosen ID (internal/agent/api.go) as the code performs it, with
 other requests, evictions and reactivations running between its steps. Every such call is a run of
 the protocol in `SessionCreate`.
 */
module SessionApi {
  import opened Text
  import opened SessionCreate

  predicate Foreign(a: Action, id: nat) { a.Evict? || a.Reactivate? || a.id != id }

  predicate AllForeign(actions: seq<Action>, id: nat) {
    forall i :: 0 <= i < |actions| ==> Foreign(actions[i], id)
  }

  /** Others do not move a request. */
  lemma {:induction false} ForeignRun(w: World, actions: seq<Action>, id: nat)
    requires id in w.requests && AllForeign(actions, id)
    ensures id in Run(w, actions).requests && Run(w, actions).requests[id] == w.requests[id]
    decreases |actions|
  {
    if actions != [] {
      assert Foreign(actions[0], id);
      ForeignRun(Next(w, actions[0]), actions[1..], id);
    }
  }

  lemma RunOneMore(w: World, trace: seq<Action>, a: Action)
    ensures Run(w, trace + [a]) == Next(Run(w, trace), a)
  {
    RunFrom(w, trace, [a]);
    assert [a][1..] == [];
  }

  /** What the stores, the provider and the first message come to. */
  datatype Luck = Luck(readable: bool, builds: bool, written: bool, accepts: bool)

  predicate AllReliable(actions: seq<Action>) {
    forall i :: 0 <= i < |actions| ==> Reliable(actions[i])
  }

  lemma ReliableConcat(a: seq<Action>, b: seq<Action>)
    requires AllReliable(a) && AllReliable(b)
    ensures AllReliable(a + b)
  {
  }

  lemma ReliableOneMore(a: seq<Action>, x: Action)
    requires AllReliable(a) && Reliable(x)
    ensures AllReliable(a + [x])
  {
  }

  class Api {
    var claimed: bool
    var active: Option<string>
    var stored: Option<string>
    // where every request stands
    var requests: map<nat, Request>

    constructor ()
      ensures View() == Initial()
    {
      claimed, active, stored, requests := false, None, None, map[];
    }

    function View(): World
      reads this
    {
      World(claimed, active, stored, requests)
    }

    /** Others run, one action after the other, while this request stands still. */
    method Pass(id: nat, actions: seq<Action>, ghost start: World, ghost trace: seq<Action>) returns (ghost more: seq<Action>)
      requires id in requests && AllForeign(actions, id) && View() == Run(start, trace)
      modifies this
      ensures id in requests && requests[id] == old(requests)[id] && View() == Run(start, more)
      ensures AllReliable(trace) && AllReliable(actions) ==> AllReliable(more)
    {
      ghost var w := View();
      ForeignRun(w, actions, id);
      RunFrom(start, trace, actions);
      for i := 0 to |actions|
        invariant View() == Run(w, actions[..i])
      {
        RunOneMore(w, actions[..i], actions[i]);
        assert actions[..i + 1] == actions[..i] + [actions[i]];
        var v := Next(View(), actions[i]);
        claimed, active, stored, requests := v.claimed, v.active, v.stored, v.requests;
      }
      assert actions[..|actions|] == actions;
      more := trace + actions;
      if AllReliable(trace) && AllReliable(actions) { ReliableConcat(trace, actions); }
    }

    method Advance(id: nat, p: Phase)
      requires id in requests
      modifies this`requests, this`claimed
      ensures View() == if p.Ended? then End(old(View()), id, p.outcome) else To(old(View()), id, p)
    {
      requests := requests[id := requests[id].(phase := p)];
      if p.Ended? { claimed := false; }
    }

    /** Claims the ID, or finds it claimed. */
    method Claim(id: nat, user: string) returns (ok: bool)
      requires id !in requests
      modifies this`requests, this`claimed
      ensures View() == Next(old(View()), Create(id, user))
      ensures requests[id] == Request(user, if ok then Claimed else Ended(BadRequest))
    {
      if claimed {
        requests := requests[id := Request(user, Ended(BadRequest))];
        return false;
      }
      claimed := true;
      requests := requests[id := Request(user, Claimed)];
      return true;
    }

    /** Looks for an active session, then, after others had a chance, for a stored one. */
    method LookUp(id: nat, others: seq<Action>, readable: bool, ghost start: World, ghost before: seq<Action>)
      returns (found: bool, outcome: Outcome, ghost trace: seq<Action>)
      requires At(View(), id, Claimed) && AllForeign(others, id) && View() == Run(start, before)
      modifies this
      ensures View() == Run(start, trace) && id in requests && requests[id].user == old(requests)[id].user
      ensures requests[id].phase == if found then Ended(outcome) else Building
      ensures AllReliable(before) && AllReliable(others) && readable ==> AllReliable(trace)
    {
      RunOneMore(start, before, LookActive(id));
      trace := before + [LookActive(id)];
      if AllReliable(before) { ReliableOneMore(before, LookActive(id)); }
      if active.Some? {
        outcome := if active.value != requests[id].user then BadRequest else AlreadyExists;
        Advance(id, Ended(outcome));
        return true, outcome, trace;
      }
      Advance(id, NotActive);
      trace := Pass(id, others, start, trace);
      RunOneMore(start, trace, LookStored(id, readable));
      if AllReliable(trace) && readable { ReliableOneMore(trace, LookStored(id, readable)); }
      trace := trace + [LookStored(id, readable)];
      if readable && stored.Some? {
        outcome := if stored.value != requests[id].user then BadRequest else AlreadyExists;
        Advance(id, Ended(outcome));
        return true, outcome, trace;
      }
      Advance(id, Building);
      return false, Failed, trace;
    }

    /** Stores the session if the store lets it, then makes it active. */
    method Publish(id: nat, others: seq<Action>, written: bool, ghost start: World, ghost before: seq<Action>)
      returns (ghost trace: seq<Action>)
      requires At(View(), id, Building) && AllForeign(others, id) && View() == Run(start, before)
      modifies this
      ensures View() == Run(start, trace) && At(View(), id, Active) && requests[id].user == old(requests)[id].user
      ensures AllReliable(before) && AllReliable(others) && written ==> AllReliable(trace)
    {
      RunOneMore(start, before, Persist(id, written));
      if AllReliable(before) && written { ReliableOneMore(before, Persist(id, written)); }
      if written { stored := Some(requests[id].user); }
      Advance(id, Persisted);
      trace := before + [Persist(id, written)];
      trace := Pass(id, others, start, trace);
      RunOneMore(start, trace, Activate(id));
      if AllReliable(trace) { ReliableOneMore(trace, Activate(id)); }
      active := Some(requests[id].user);
      Advance(id, Active);
      trace := trace + [Activate(id)];
    }

    /** The first message is accepted, or the session is taken down again. */
    method FirstMessage(id: nat, accepts: bool, ghost start: World, ghost before: seq<Action>)
      returns (outcome: Outcome, ghost trace: seq<Action>)
      requires At(View(), id, Active) && View() == Run(start, before)
      modifies this
      ensures View() == Run(start, trace) && requests == old(requests)[id := Request(old(requests)[id].user, Ended(outcome))]
      ensures AllReliable(before) ==> AllReliable(trace)
      ensures outcome == if accepts then Accepted else Failed
    {
      var a := if accepts then AcceptMessage(id) else RejectMessage(id);
      RunOneMore(start, before, a);
      trace := before + [a];
      if AllReliable(before) { ReliableOneMore(before, a); }
      outcome := if accepts then Accepted else Failed;
      if !accepts { active := None; }
      Advance(id, Ended(outcome));
    }

    /** A whole call; `others(n)` is what happens at the n-th point where others may run. */
    method CreateSession(id: nat, user: string, others: nat -> seq<Action>, luck: Luck)
      returns (outcome: Outcome, ghost trace: seq<Action>)
      requires id !in requests && forall n :: AllForeign(others(n), id)
      modifies this
      ensures View() == Run(old(View()), trace)
      ensures id in requests && requests[id] == Request(user, Ended(outcome))
      ensures luck.readable && luck.written && (forall n :: AllReliable(others(n))) ==> AllReliable(trace)
    {
      ghost var start := View();
      RunOneMore(start, [], Create(id, user));
      trace := [] + [Create(id, user)];
      var ok := Claim(id, user);
      if !ok { return BadRequest, trace; }
      trace := Pass(id, others(0), start, trace);
      var found;
      found, outcome, trace := LookUp(id, others(1), luck.readable, start, trace);
      if found { return; }
      trace := Pass(id, others(2), start, trace);
      if !luck.builds {
        RunOneMore(start, trace, BuildFails(id));
        if AllReliable(trace) { ReliableOneMore(trace, BuildFails(id)); }
        Advance(id, Ended(Failed));
        return Failed, trace + [BuildFails(id)];
      }
      trace := Publish(id, others(3), luck.written, start, trace);
      trace := Pass(id, others(4), start, trace);
      outcome, trace := FirstMessage(id, luck.accepts, start, trace);
    }
  }
}
