/**
 The model-facing history of an agent session, what makes it well formed, and the
 repair of stored histories (internal/agent/session.go).
 */
module AgentHistory {

  datatype Call = Call(id: string, name: string)
  datatype Output = Output(text: string) | Cancelled
  datatype Message =
    | System(content: string)
    | User(content: string)
    | Assistant(content: string, calls: seq<Call>)
    | ToolResult(callId: string, output: Output)

  function Calls(m: Message): seq<Call> { if m.Assistant? then m.calls else [] }

  // ----- well-formed histories

  /** One result per call, in call order. */
  predicate Answers(calls: seq<Call>, results: seq<Message>) {
    |results| == |calls| &&
    forall k :: 0 <= k < |calls| ==> results[k].ToolResult? && results[k].callId == calls[k].id
  }

  /** Every message is followed at once by exactly the results of its calls, and there are no other results. */
  predicate WellFormed(h: seq<Message>) {
    h == [] ||
    (!h[0].ToolResult? &&
     var n := |Calls(h[0])| + 1;
     n <= |h| && Answers(Calls(h[0]), h[1..n]) && WellFormed(h[n..]))
  }

  /** The same, said of one position: its results follow at once, and then something else. */
  ghost predicate FollowedByResults(h: seq<Message>, i: nat)
    requires i < |h|
  {
    var calls := Calls(h[i]);
    && i + |calls| < |h|
    && (forall k :: i < k <= i + |calls| ==> h[k].ToolResult? && h[k].callId == calls[k - i - 1].id)
    && (i + |calls| + 1 < |h| ==> !h[i + |calls| + 1].ToolResult?)
  }

  lemma {:induction false} WellFormedAt(h: seq<Message>, i: nat)
    requires WellFormed(h) && i < |h| && !h[i].ToolResult?
    ensures FollowedByResults(h, i)
  {
    var n := |Calls(h[0])| + 1;
    assert forall k :: 1 <= k < n ==> h[k] == h[1..n][k - 1];
    if i >= n {
      WellFormedAt(h[n..], i - n);
      ResultsBehind(h, n, i);
    }
  }

  lemma ResultsBehind(h: seq<Message>, n: nat, i: nat)
    requires n <= i < |h| && FollowedByResults(h[n..], i - n)
    ensures FollowedByResults(h, i)
  {
    assert forall k :: n <= k < |h| ==> h[k] == h[n..][k - n];
  }

  lemma {:induction false} WellFormedConcat(a: seq<Message>, b: seq<Message>)
    requires WellFormed(a)
    ensures WellFormed(a + b) <==> WellFormed(b)
  {
    if a == [] {
      assert a + b == b;
    } else {
      var n := |Calls(a[0])| + 1;
      WellFormedConcat(a[n..], b);
      assert (a + b)[n..] == a[n..] + b && (a + b)[1..n] == a[1..n];
    }
  }

  lemma {:induction false} PlainWellFormed(h: seq<Message>)
    requires forall i :: 0 <= i < |h| ==> !h[i].ToolResult? && Calls(h[i]) == []
    ensures WellFormed(h)
  {
    if h != [] {
      PlainWellFormed(h[1..]);
      assert h[1..1] == [];
    }
  }

  /** A message with all its results. */
  lemma BlockWellFormed(m: Message, results: seq<Message>)
    requires !m.ToolResult? && Answers(Calls(m), results)
    ensures WellFormed([m] + results)
  {
    var h := [m] + results;
    assert h[1..|h|] == results && h[|h|..] == [];
  }

  /** Tool calls left without results, with something else after them, cannot be mended by appending. */
  lemma UnansweredStaysMalformed(a: seq<Message>, m: Message, b: seq<Message>)
    requires WellFormed(a) && !m.ToolResult? && Calls(m) != [] && (b != [] ==> !b[0].ToolResult?)
    ensures !WellFormed(a + [m] + b)
  {
    assert a + [m] + b == a + ([m] + b);
    WellFormedConcat(a, [m] + b);
    FrontMalformed(m, b);
  }

  lemma FrontMalformed(m: Message, b: seq<Message>)
    requires Calls(m) != [] && (b != [] ==> !b[0].ToolResult?)
    ensures !WellFormed([m] + b)
  {
    var h := [m] + b;
    assert b != [] ==> h[1] == b[0];
    if WellFormed(h) { WellFormedAt(h, 0); }
  }

  // ----- repair

  /** The tool results at the very front. */
  function ToolRun(h: seq<Message>): seq<Message> {
    if h != [] && h[0].ToolResult? then [h[0]] + ToolRun(h[1..]) else []
  }

  lemma {:induction false} ToolRunIs(h: seq<Message>, n: nat)
    requires n <= |h| && (forall k :: 0 <= k < n ==> h[k].ToolResult?) && (n < |h| ==> !h[n].ToolResult?)
    ensures ToolRun(h) == h[..n]
  {
    if n > 0 {
      ToolRunIs(h[1..], n - 1);
      assert h[..n] == [h[0]] + h[1..][..n - 1];
    }
  }

  lemma {:induction false} ToolRunPrefix(h: seq<Message>)
    ensures var n := |ToolRun(h)|;
      n <= |h| && ToolRun(h) == h[..n] && (forall k :: 0 <= k < n ==> h[k].ToolResult?) && (n < |h| ==> !h[n].ToolResult?)
  {
    if h != [] && h[0].ToolResult? {
      ToolRunPrefix(h[1..]);
      assert forall k :: 0 < k < |h| ==> h[k] == h[1..][k - 1];
    }
  }

  predicate HasAnswer(run: seq<Message>, id: string) {
    id != "" && exists k :: 0 <= k < |run| && run[k].ToolResult? && run[k].callId == id
  }

  function Synthesized(calls: seq<Call>, run: seq<Message>): seq<Message> {
    if calls == [] then []
    else (if HasAnswer(run, calls[0].id) then [] else [ToolResult(calls[0].id, Cancelled)]) + Synthesized(calls[1..], run)
  }

  /** The results right after the first message, if it has calls. */
  function Run(h: seq<Message>): seq<Message>
    requires h != []
  {
    if Calls(h[0]) == [] then [] else ToolRun(h[1..])
  }

  /** What follows the first message and its results. */
  function Rest(h: seq<Message>): (r: seq<Message>)
    requires h != []
    ensures |r| < |h|
  {
    var n := 1 + |Run(h)|;
    if n <= |h| then h[n..] else []
  }

  lemma Split(h: seq<Message>)
    requires h != []
    ensures h == [h[0]] + (Run(h) + Rest(h)) && h[1..] == Run(h) + Rest(h)
    ensures Calls(h[0]) != [] && Rest(h) != [] ==> !Rest(h)[0].ToolResult?
    ensures forall k :: 0 <= k < |Run(h)| ==> Run(h)[k].ToolResult?
  {
    var rest := h[1..];
    assert h == [h[0]] + rest;
    if Calls(h[0]) == [] {
      assert rest == [] + rest;
    } else {
      ToolRunPrefix(rest);
      var n := |ToolRun(rest)|;
      assert rest == rest[..n] + rest[n..] && rest[n..] == h[1 + n..];
    }
  }

  /** The stored history with a cancelled result for every call that has none. */
  function Repair(h: seq<Message>): seq<Message>
    decreases |h|
  {
    if h == [] then []
    else [h[0]] + (Run(h) + (Synthesized(Calls(h[0]), Run(h)) + Repair(Rest(h))))
  }

  method RepairOrphanedToolCalls(history: seq<Message>) returns (result: seq<Message>)
    ensures result == Repair(history)
  {
    result := [];
    var i := 0;
    while i < |history|
      invariant i <= |history|
      invariant result + Repair(history[i..]) == Repair(history)
    {
      var msg := history[i];
      ghost var h := history[i..];
      assert h[0] == msg && h[1..] == history[i + 1..];
      var j, answered := i + 1, {};
      if Calls(msg) != [] {
        j, answered := CollectAnswered(history, i + 1);
      }
      assert Run(h) == history[i + 1..j] && Rest(h) == history[j..];
      var missing := CancelUnanswered(Calls(msg), answered, Run(h));
      Assoc(result, [msg], history[i + 1..j] + (missing + Repair(history[j..])));
      Assoc(result + [msg], history[i + 1..j], missing + Repair(history[j..]));
      Assoc(result + [msg] + history[i + 1..j], missing, Repair(history[j..]));
      result := result + [msg] + history[i + 1..j] + missing;
      i := j;
    }
    assert history[i..] == [];
  }

  /** Runs over the tool results from `i` on, remembering the ids they answer. */
  method CollectAnswered(history: seq<Message>, i: nat) returns (j: nat, answered: set<string>)
    requires i <= |history|
    ensures i <= j <= |history| && history[i..j] == ToolRun(history[i..])
    ensures forall id :: id in answered <==> HasAnswer(history[i..j], id)
  {
    j, answered := i, {};
    while j < |history| && history[j].ToolResult?
      invariant i <= j <= |history|
      invariant forall k :: i <= k < j ==> history[k].ToolResult?
      invariant forall id :: id in answered <==> HasAnswer(history[i..j], id)
    {
      AnswerSnoc(history[i..j], history[j], answered);
      assert history[i..j + 1] == history[i..j] + [history[j]];
      if history[j].callId != "" { answered := answered + {history[j].callId}; }
      j := j + 1;
    }
    ToolRunIs(history[i..], j - i);
    assert history[i..][..j - i] == history[i..j];
  }

  lemma AnswerSnoc(run: seq<Message>, m: Message, answered: set<string>)
    requires m.ToolResult? && forall id :: id in answered <==> HasAnswer(run, id)
    ensures forall id :: id in (if m.callId == "" then answered else answered + {m.callId}) <==> HasAnswer(run + [m], id)
  {
    forall id ensures id in (if m.callId == "" then answered else answered + {m.callId}) <==> HasAnswer(run + [m], id) {
      if HasAnswer(run, id) {
        var k :| 0 <= k < |run| && run[k].ToolResult? && run[k].callId == id;
        assert (run + [m])[k] == run[k];
      }
      if id != "" && m.callId == id { assert (run + [m])[|run|] == m; }
    }
  }

  method CancelUnanswered(calls: seq<Call>, answered: set<string>, ghost run: seq<Message>) returns (missing: seq<Message>)
    requires forall id :: id in answered <==> HasAnswer(run, id)
    ensures missing == Synthesized(calls, run)
  {
    missing := [];
    for k := 0 to |calls|
      invariant missing + Synthesized(calls[k..], run) == Synthesized(calls, run)
    {
      assert calls[k..][1..] == calls[k + 1..] && calls[k..][0] == calls[k];
      var more := if calls[k].id !in answered then [ToolResult(calls[k].id, Cancelled)] else [];
      Assoc(missing, more, Synthesized(calls[k + 1..], run));
      missing := missing + more;
    }
  }

  lemma Assoc<T>(a: seq<T>, b: seq<T>, c: seq<T>)
    ensures a + b + c == a + (b + c)
  {
  }
}
