/** What the repair of a stored history guarantees (internal/agent/session.go). */
module AgentRepair {
  import opened AgentHistory

  /** Some result for this call stands in the run, whatever its id. */
  ghost predicate Answered(run: seq<Message>, c: Call) {
    exists k :: 0 <= k < |run| && run[k].ToolResult? && run[k].callId == c.id
  }

  ghost predicate AllIn(run: seq<Message>, calls: seq<Call>) {
    forall k :: 0 <= k < |calls| ==> Answered(run, calls[k])
  }

  ghost predicate IdsSet(calls: seq<Call>) {
    forall k :: 0 <= k < |calls| ==> calls[k].id != ""
  }

  /** Every tool call is answered in the run of results right after its message. */
  ghost predicate AllAnswered(h: seq<Message>) {
    h == [] || (AllIn(ToolRun(h[1..]), Calls(h[0])) && AllAnswered(h[1..]))
  }

  ghost predicate AllIdsSet(h: seq<Message>) {
    h == [] || (IdsSet(Calls(h[0])) && AllIdsSet(h[1..]))
  }

  /** `r` is `h` with nothing but cancelled results put in. */
  ghost predicate OnlyCancelledAdded(h: seq<Message>, r: seq<Message>) {
    if r == [] then h == []
    else
      || (h != [] && h[0] == r[0] && OnlyCancelledAdded(h[1..], r[1..]))
      || (r[0].ToolResult? && r[0].output.Cancelled? && OnlyCancelledAdded(h, r[1..]))
  }

  /** How many of the calls have no answer that counts. */
  function Unanswered(calls: seq<Call>, run: seq<Message>): nat {
    if calls == [] then 0 else (if HasAnswer(run, calls[0].id) then 0 else 1) + Unanswered(calls[1..], run)
  }

  function Orphans(h: seq<Message>): nat {
    if h == [] then 0 else Unanswered(Calls(h[0]), ToolRun(h[1..])) + Orphans(h[1..])
  }

  // ----- moving along a history

  /** Tool results say nothing about the answers of others. */
  lemma {:induction false} Drop(p: seq<Message>, h: seq<Message>)
    requires forall k :: 0 <= k < |p| ==> p[k].ToolResult?
    ensures AllAnswered(p + h) <==> AllAnswered(h)
    ensures AllIdsSet(p + h) <==> AllIdsSet(h)
    ensures Orphans(p + h) == Orphans(h)
  {
    if p == [] {
      assert p + h == h;
    } else {
      Drop(p[1..], h);
      assert (p + h)[1..] == p[1..] + h;
    }
  }

  /** The first message with its results, and the rest. */
  lemma Block(h: seq<Message>)
    requires h != []
    ensures AllAnswered(h) <==> AllIn(Run(h), Calls(h[0])) && AllAnswered(Rest(h))
    ensures AllIdsSet(h) <==> IdsSet(Calls(h[0])) && AllIdsSet(Rest(h))
    ensures Orphans(h) == |Synthesized(Calls(h[0]), Run(h))| + Orphans(Rest(h))
  {
    SynthesizedLength(Calls(h[0]), Run(h));
    Split(h);
    Drop(Run(h), Rest(h));
  }

  lemma {:induction false} SynthesizedLength(calls: seq<Call>, run: seq<Message>)
    ensures |Synthesized(calls, run)| == Unanswered(calls, run)
  {
    if calls != [] { SynthesizedLength(calls[1..], run); }
  }

  lemma {:induction false} SynthesizedCount(calls: seq<Call>, run: seq<Message>)
    ensures Synthesized(calls, run) == [] <==> IdsSet(calls) && AllIn(run, calls)
  {
    if calls != [] {
      SynthesizedCount(calls[1..], run);
      assert HasAnswer(run, calls[0].id) <==> calls[0].id != "" && Answered(run, calls[0]);
      assert forall k :: 0 < k < |calls| ==> calls[k] == calls[1..][k - 1];
      if IdsSet(calls[1..]) && AllIn(run, calls[1..]) && HasAnswer(run, calls[0].id) {
        forall k | 0 <= k < |calls| ensures calls[k].id != "" && Answered(run, calls[k]) {
          if k > 0 { assert Answered(run, calls[1..][k - 1]) && calls[1..][k - 1].id != ""; }
        }
      }
      if IdsSet(calls) && AllIn(run, calls) {
        forall k | 0 <= k < |calls[1..]| ensures calls[1..][k].id != "" && Answered(run, calls[1..][k]) {
          assert Answered(run, calls[k + 1]) && calls[k + 1].id != "";
        }
      }
    }
  }

  /** The run and the results made up for it answer every call. */
  lemma {:induction false} SynthesizedAnswers(calls: seq<Call>, run: seq<Message>, made: seq<Message>)
    requires forall m :: m in Synthesized(calls, run) ==> m in made
    ensures AllIn(run + made, calls)
  {
    forall k | 0 <= k < |calls| ensures Answered(run + made, calls[k]) {
      if HasAnswer(run, calls[k].id) {
        var i :| 0 <= i < |run| && run[i].ToolResult? && run[i].callId == calls[k].id;
        assert (run + made)[i] == run[i];
      } else {
        SynthesizedHas(calls, run, k);
        var m := ToolResult(calls[k].id, Cancelled);
        var i :| 0 <= i < |made| && made[i] == m;
        assert (run + made)[|run| + i] == m;
      }
    }
  }

  lemma {:induction false} SynthesizedHas(calls: seq<Call>, run: seq<Message>, k: nat)
    requires k < |calls| && !HasAnswer(run, calls[k].id)
    ensures ToolResult(calls[k].id, Cancelled) in Synthesized(calls, run)
  {
    if k > 0 { SynthesizedHas(calls[1..], run, k - 1); }
  }

  lemma {:induction false} SynthesizedCancelled(calls: seq<Call>, run: seq<Message>, k: nat)
    requires k < |Synthesized(calls, run)|
    ensures Synthesized(calls, run)[k].ToolResult? && Synthesized(calls, run)[k].output.Cancelled?
  {
    var n := if HasAnswer(run, calls[0].id) then 0 else 1;
    if k >= n { SynthesizedCancelled(calls[1..], run, k - n); }
  }

  // ----- the guarantees

  lemma {:induction false} RepairLength(h: seq<Message>)
    ensures |Repair(h)| == |h| + Orphans(h)
    decreases |h|
  {
    if h != [] {
      Split(h);
      Block(h);
      RepairLength(Rest(h));
    }
  }

  /** A block put together as by a repair is unchanged exactly if nothing was made up and the rest is unchanged. */
  lemma BlockUnchangedIff<T>(m: T, run: seq<T>, made: seq<T>, repaired: seq<T>, rest: seq<T>)
    requires |repaired| >= |rest|
    ensures [m] + (run + (made + repaired)) == [m] + (run + rest) <==> made == [] && repaired == rest
  {
    if [m] + (run + (made + repaired)) == [m] + (run + rest) {
      CancelFront([m], run + (made + repaired), run + rest);
      CancelFront(run, made + repaired, rest);
      assert |made + repaired| == |made| + |repaired|;
      assert made == [];
      assert made + repaired == repaired;
    }
    if made == [] { assert made + repaired == repaired; }
  }

  /** Repair leaves a history alone exactly when every call has an id and an answer in its place. */
  lemma {:induction false} RepairChangesNothingIff(h: seq<Message>)
    ensures Repair(h) == h <==> AllAnswered(h) && AllIdsSet(h)
    decreases |h|
  {
    if h != [] {
      var made, repaired := Synthesized(Calls(h[0]), Run(h)), Repair(Rest(h));
      Split(h);
      Block(h);
      RepairChangesNothingIff(Rest(h));
      SynthesizedCount(Calls(h[0]), Run(h));
      RepairLength(Rest(h));
      BlockUnchangedIff(h[0], Run(h), made, repaired, Rest(h));
    }
  }

  lemma CancelFront<T>(a: seq<T>, b: seq<T>, c: seq<T>)
    requires a + b == a + c
    ensures b == c
  {
    assert (a + b)[|a|..] == b && (a + c)[|a|..] == c;
  }

  /** Telling the first block from what follows it. */
  lemma FirstBlock(m: Message, run: seq<Message>, rest: seq<Message>)
    requires Calls(m) == [] ==> run == []
    requires Calls(m) != [] ==> (forall k :: 0 <= k < |run| ==> run[k].ToolResult?) && (rest != [] ==> !rest[0].ToolResult?)
    ensures var h := [m] + (run + rest); Run(h) == run && Rest(h) == rest
  {
    var h := [m] + (run + rest);
    assert h[1..] == run + rest;
    if Calls(m) != [] {
      ToolRunIs(run + rest, |run|);
      assert (run + rest)[..|run|] == run;
    }
    assert h[1 + |run|..] == rest;
  }

  lemma SynthesizedAreResults(calls: seq<Call>, run: seq<Message>)
    requires forall k :: 0 <= k < |run| ==> run[k].ToolResult?
    ensures forall k :: 0 <= k < |run + Synthesized(calls, run)| ==> (run + Synthesized(calls, run))[k].ToolResult?
  {
    forall k | 0 <= k < |Synthesized(calls, run)| ensures Synthesized(calls, run)[k].ToolResult? {
      SynthesizedCancelled(calls, run, k);
    }
  }

  /** The first block of a repaired history is the first block of the history, completed. */
  lemma RepairedBlock(h: seq<Message>)
    requires h != []
    ensures var r := Repair(h);
      r != [] && r[0] == h[0] && Run(r) == Run(h) + Synthesized(Calls(h[0]), Run(h)) && Rest(r) == Repair(Rest(h))
  {
    var made, rest := Synthesized(Calls(h[0]), Run(h)), Repair(Rest(h));
    Split(h);
    Assoc(Run(h), made, rest);
    SynthesizedAreResults(Calls(h[0]), Run(h));
    RepairFront(Rest(h));
    FirstBlock(h[0], Run(h) + made, rest);
  }

  lemma RepairFront(h: seq<Message>)
    ensures Repair(h) == [] <==> h == []
    ensures h != [] ==> Repair(h)[0] == h[0]
  {
  }

  /** After repair every tool call is answered right after its message; ids are neither added nor lost. */
  lemma {:induction false} RepairAnswersEverything(h: seq<Message>)
    ensures AllAnswered(Repair(h)) && (AllIdsSet(Repair(h)) <==> AllIdsSet(h))
    decreases |h|
  {
    if h != [] {
      RepairedBlock(h);
      Block(h);
      Block(Repair(h));
      RepairAnswersEverything(Rest(h));
      SynthesizedAnswers(Calls(h[0]), Run(h), Synthesized(Calls(h[0]), Run(h)));
    }
  }

  /** A second repair changes nothing exactly when no tool call has an empty id. */
  lemma RepairIdempotentIff(h: seq<Message>)
    ensures Repair(Repair(h)) == Repair(h) <==> AllIdsSet(h)
  {
    RepairAnswersEverything(h);
    RepairChangesNothingIff(Repair(h));
  }

  lemma {:induction false} AddedPrefix(p: seq<Message>, h: seq<Message>, r: seq<Message>)
    requires OnlyCancelledAdded(h, r)
    ensures OnlyCancelledAdded(p + h, p + r)
  {
    if p == [] {
      assert p + h == h && p + r == r;
    } else {
      AddedPrefix(p[1..], h, r);
      assert (p + h)[1..] == p[1..] + h && (p + r)[1..] == p[1..] + r;
    }
  }

  lemma {:induction false} AddedCancelled(made: seq<Message>, h: seq<Message>, r: seq<Message>)
    requires OnlyCancelledAdded(h, r) && forall k :: 0 <= k < |made| ==> made[k].ToolResult? && made[k].output.Cancelled?
    ensures OnlyCancelledAdded(h, made + r)
  {
    if made == [] {
      assert made + r == r;
    } else {
      AddedCancelled(made[1..], h, r);
      assert (made + r)[1..] == made[1..] + r;
    }
  }

  /** Repair keeps the input in order and only puts in cancelled results, one for each orphaned call. */
  lemma {:induction false} RepairOnlyAdds(h: seq<Message>)
    ensures OnlyCancelledAdded(h, Repair(h)) && |Repair(h)| == |h| + Orphans(h)
    decreases |h|
  {
    RepairLength(h);
    if h != [] {
      var made := Synthesized(Calls(h[0]), Run(h));
      Split(h);
      RepairOnlyAdds(Rest(h));
      forall k | 0 <= k < |made| ensures made[k].ToolResult? && made[k].output.Cancelled? {
        SynthesizedCancelled(Calls(h[0]), Run(h), k);
      }
      AddedCancelled(made, Rest(h), Repair(Rest(h)));
      AddedPrefix(Run(h), Rest(h), made + Repair(Rest(h)));
      AddedPrefix([h[0]], Run(h) + Rest(h), Run(h) + (made + Repair(Rest(h))));
    }
  }

  // ----- repair and the turn loop

  /** The first block of a well-formed history. */
  lemma WellFormedBlock(h: seq<Message>)
    requires WellFormed(h) && h != []
    ensures Answers(Calls(h[0]), Run(h)) && WellFormed(Rest(h)) && AllIn(Run(h), Calls(h[0]))
  {
    var run, rest := WellFormedParts(h);
    FirstBlock(h[0], run, rest);
    AnswersAreIn(Calls(h[0]), run);
  }

  lemma WellFormedParts(h: seq<Message>) returns (run: seq<Message>, rest: seq<Message>)
    requires WellFormed(h) && h != []
    ensures h == [h[0]] + (run + rest) && Answers(Calls(h[0]), run) && WellFormed(rest)
    ensures rest != [] ==> !rest[0].ToolResult?
  {
    var n := |Calls(h[0])| + 1;
    run, rest := h[1..n], h[n..];
  }

  lemma AnswersAreIn(calls: seq<Call>, run: seq<Message>)
    requires Answers(calls, run)
    ensures AllIn(run, calls)
  {
    forall k | 0 <= k < |calls| ensures Answered(run, calls[k]) { assert run[k].callId == calls[k].id; }
  }

  lemma {:induction false} WellFormedIsAnswered(h: seq<Message>)
    requires WellFormed(h)
    ensures AllAnswered(h)
    decreases |h|
  {
    if h != [] {
      WellFormedBlock(h);
      Block(h);
      WellFormedIsAnswered(Rest(h));
    }
  }

  /** Repair leaves a well-formed history with call ids alone. */
  lemma RepairKeepsWellFormed(h: seq<Message>)
    requires WellFormed(h) && AllIdsSet(h)
    ensures Repair(h) == h
  {
    WellFormedIsAnswered(h);
    RepairChangesNothingIff(h);
  }

  /** A history whose last tool calls were never answered becomes well formed, every call cancelled in order. */
  lemma RepairMendsUnansweredTail(a: seq<Message>, m: Message)
    requires WellFormed(a) && AllIdsSet(a) && m.Assistant?
    ensures Repair(a + [m]) == a + ([m] + Synthesized(m.calls, [])) && WellFormed(Repair(a + [m]))
  {
    RepairTail(a, m);
    AllSynthesized(m.calls);
    BlockWellFormed(m, Synthesized(m.calls, []));
    WellFormedConcat(a, [m] + Synthesized(m.calls, []));
  }

  lemma {:induction false} AllSynthesized(calls: seq<Call>)
    ensures Answers(calls, Synthesized(calls, []))
  {
    if calls != [] {
      AllSynthesized(calls[1..]);
      var s := Synthesized(calls, []);
      assert s == [ToolResult(calls[0].id, Cancelled)] + Synthesized(calls[1..], []);
      forall k | 0 <= k < |calls| ensures s[k].ToolResult? && s[k].callId == calls[k].id {
        if k > 0 { assert s[k] == Synthesized(calls[1..], [])[k - 1]; }
      }
    }
  }

  lemma {:induction false} RepairTail(a: seq<Message>, m: Message)
    requires WellFormed(a) && AllIdsSet(a) && m.Assistant?
    ensures Repair(a + [m]) == a + ([m] + Synthesized(m.calls, []))
    decreases |a|
  {
    if a == [] {
      RepairLone(m);
      assert a + [m] == [m] && a + ([m] + Synthesized(m.calls, [])) == [m] + Synthesized(m.calls, []);
    } else {
      WellFormedBlock(a);
      Block(a);
      RepairTail(Rest(a), m);
      SynthesizedCount(Calls(a[0]), Run(a));
      RepairAnswered(a, m, [m] + Synthesized(m.calls, []));
    }
  }

  lemma RepairLone(m: Message)
    requires m.Assistant?
    ensures Repair([m]) == [m] + Synthesized(m.calls, [])
  {
    var h, made := [m], Synthesized(m.calls, []);
    assert h == [m] + ([] + []);
    FirstBlock(m, [], []);
    assert made + [] == made && [] + made == made;
  }

  /** A first block that is answered stays as it is. */
  lemma RepairAnswered(a: seq<Message>, m: Message, tail: seq<Message>)
    requires a != [] && !m.ToolResult? && Synthesized(Calls(a[0]), Run(a)) == [] && Repair(Rest(a) + [m]) == Rest(a) + tail
    ensures Repair(a + [m]) == a + tail
  {
    BlockBefore(a, m);
    Split(a);
    assert (a + [m])[0] == a[0];
    assert [] + (Rest(a) + tail) == Rest(a) + tail;
    Assoc(Run(a), Rest(a), tail);
    Assoc([a[0]], Run(a) + Rest(a), tail);
  }

  lemma BlockBefore(a: seq<Message>, m: Message)
    requires a != [] && !m.ToolResult?
    ensures Run(a + [m]) == Run(a) && Rest(a + [m]) == Rest(a) + [m]
  {
    BlockAhead(a, [m]);
  }

  lemma BlockAhead(a: seq<Message>, b: seq<Message>)
    requires a != [] && (b != [] ==> !b[0].ToolResult?)
    ensures Run(a + b) == Run(a) && Rest(a + b) == Rest(a) + b
  {
    Split(a);
    Assoc(Run(a), Rest(a), b);
    Assoc([a[0]], Run(a) + Rest(a), b);
    FirstBlock(a[0], Run(a), Rest(a) + b);
  }

  // ----- what the turn loop leaves behind

  /** Every message is followed by exactly the results of its calls, in order, or by none of them. */
  ghost predicate Loose(h: seq<Message>)
    decreases |h|
  {
    h == [] ||
    (!h[0].ToolResult? && (Run(h) == [] || Answers(Calls(h[0]), Run(h))) && Loose(Rest(h)))
  }

  /** No call that has its result has an empty id. */
  ghost predicate AnsweredIdsSet(h: seq<Message>)
    decreases |h|
  {
    h == [] || ((Run(h) == [] || IdsSet(Calls(h[0]))) && AnsweredIdsSet(Rest(h)))
  }

  lemma WellFormedByBlock(h: seq<Message>)
    requires h != [] && !h[0].ToolResult?
    ensures WellFormed(h) <==> Answers(Calls(h[0]), Run(h)) && WellFormed(Rest(h))
  {
    if WellFormed(h) { WellFormedBlock(h); }
    if Answers(Calls(h[0]), Run(h)) {
      Split(h);
      Assoc([h[0]], Run(h), Rest(h));
      BlockWellFormed(h[0], Run(h));
      WellFormedConcat([h[0]] + Run(h), Rest(h));
    }
  }

  /** Completing one block of a loose history answers it in order, unless an answered call has no id. */
  lemma BlockMendedIff(calls: seq<Call>, run: seq<Message>)
    requires run == [] || Answers(calls, run)
    ensures Answers(calls, run + Synthesized(calls, run)) <==> run == [] || IdsSet(calls)
  {
    if run == [] {
      AllSynthesized(calls);
      assert run + Synthesized(calls, run) == Synthesized(calls, []);
    } else {
      AnswersAreIn(calls, run);
      SynthesizedCount(calls, run);
      assert |run + Synthesized(calls, run)| == |run| + |Synthesized(calls, run)|;
      if IdsSet(calls) { assert run + Synthesized(calls, run) == run; }
    }
  }

  /** The repair of a loose history is well formed exactly when no answered call has an empty id. */
  lemma {:induction false} RepairMendsIff(h: seq<Message>)
    requires Loose(h)
    ensures WellFormed(Repair(h)) <==> AnsweredIdsSet(h)
    decreases |h|
  {
    if h != [] {
      RepairedBlock(h);
      WellFormedByBlock(Repair(h));
      BlockMendedIff(Calls(h[0]), Run(h));
      RepairMendsIff(Rest(h));
    }
  }

  lemma {:induction false} WellFormedIsLoose(h: seq<Message>)
    requires WellFormed(h)
    ensures Loose(h)
    decreases |h|
  {
    if h != [] {
      WellFormedBlock(h);
      WellFormedIsLoose(Rest(h));
    }
  }

  lemma {:induction false} LooseConcat(a: seq<Message>, b: seq<Message>)
    requires Loose(a) && Loose(b)
    ensures Loose(a + b)
    decreases |a|
  {
    if a == [] {
      assert a + b == b;
    } else {
      BlockAhead(a, b);
      LooseConcat(Rest(a), b);
      assert (a + b)[0] == a[0];
    }
  }

  lemma LoneIsLoose(m: Message)
    requires !m.ToolResult?
    ensures Loose([m])
  {
    assert [m] == [m] + ([] + []);
    FirstBlock(m, [], []);
  }
}
