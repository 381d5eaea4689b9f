/**
 The publish/subscribe layer that joins a session's snapshot to its live stream
 (internal/agent/subpub.go, internal/agent/session.go).
 */
module SubPub {

  const BUFFER: nat := 10

  /** A numbered message of the session, or a notice outside the numbering. */
  datatype Item = Numbered(n: nat) | Notice(text: string)

  datatype Subscriber = Subscriber(seqId: nat, channel: seq<Item>, closed: bool, cancelled: bool)

  /** The list of subscribers, by handle, and the state of every subscriber there has been. */
  datatype Hub = Hub(list: seq<nat>, subs: map<nat, Subscriber>)

  /** The subscriber has this message or a later one. */
  predicate HasSeen(s: Subscriber, item: Item) { item.Numbered? && s.seqId >= item.n }

  predicate HasRoom(s: Subscriber) { |s.channel| < BUFFER }

  /** Whether the subscriber stays on the list when the item is sent round. */
  predicate Stays(s: Subscriber, item: Item) { !s.cancelled && (HasSeen(s, item) || HasRoom(s)) }

  function Offered(s: Subscriber, item: Item): Subscriber {
    if s.cancelled then s.(closed := true)
    else if HasSeen(s, item) then s
    else if !HasRoom(s) then s.(closed := true, cancelled := true)
    else s.(channel := s.channel + [item], seqId := if item.Numbered? then item.n else s.seqId)
  }

  predicate Distinct(list: seq<nat>) { forall i, j :: 0 <= i < j < |list| ==> list[i] != list[j] }

  /** Everyone on the list exists and has an open channel. */
  predicate Wired(h: Hub) {
    Distinct(h.list) && forall i :: 0 <= i < |h.list| ==> h.list[i] in h.subs && !h.subs[h.list[i]].closed
  }

  /** Those who stay, in their order. */
  function Staying(list: seq<nat>, subs: map<nat, Subscriber>, item: Item): seq<nat>
    requires forall i :: 0 <= i < |list| ==> list[i] in subs
  {
    if list == [] then []
    else
      var last := list[|list| - 1];
      Staying(list[..|list| - 1], subs, item) + if Stays(subs[last], item) then [last] else []
  }

  /** The subscribers after each one on the list has been offered the item. */
  function OfferedAll(list: seq<nat>, subs: map<nat, Subscriber>, item: Item): map<nat, Subscriber>
    requires forall i :: 0 <= i < |list| ==> list[i] in subs
  {
    if list == [] then subs
    else
      var last := list[|list| - 1];
      OfferedAll(list[..|list| - 1], subs, item)[last := Offered(subs[last], item)]
  }

  function SentRound(h: Hub, item: Item): Hub
    requires Wired(h)
  {
    Hub(Staying(h.list, h.subs, item), OfferedAll(h.list, h.subs, item))
  }

  lemma {:induction false} OfferedExactly(list: seq<nat>, subs: map<nat, Subscriber>, item: Item)
    requires forall i :: 0 <= i < |list| ==> list[i] in subs
    ensures OfferedAll(list, subs, item).Keys == subs.Keys
    ensures forall id :: id in subs ==>
      OfferedAll(list, subs, item)[id] == if id in list then Offered(subs[id], item) else subs[id]
  {
    if list != [] {
      OfferedExactly(list[..|list| - 1], subs, item);
      assert list == list[..|list| - 1] + [list[|list| - 1]];
    }
  }

  lemma {:induction false} StayingExactly(list: seq<nat>, subs: map<nat, Subscriber>, item: Item)
    requires Distinct(list) && forall i :: 0 <= i < |list| ==> list[i] in subs
    ensures var r := Staying(list, subs, item);
      Distinct(r) && |r| <= |list| && forall id :: id in r <==> id in list && Stays(subs[id], item)
  {
    if list != [] {
      var init, last := list[..|list| - 1], list[|list| - 1];
      StayingExactly(init, subs, item);
      assert list == init + [last];
      assert last !in init;
    }
  }

  /** The positions on the old list of those who stay, in increasing order. */
  lemma {:induction false} StayingInOrder(list: seq<nat>, subs: map<nat, Subscriber>, item: Item) returns (at: seq<nat>)
    requires forall i :: 0 <= i < |list| ==> list[i] in subs
    ensures var r := Staying(list, subs, item);
      |at| == |r| && forall k :: 0 <= k < |at| ==> at[k] < |list| && r[k] == list[at[k]]
    ensures forall j, k :: 0 <= j < k < |at| ==> at[j] < at[k]
  {
    at := [];
    if list != [] {
      at := StayingInOrder(list[..|list| - 1], subs, item);
      if Stays(subs[list[|list| - 1]], item) { at := at + [|list| - 1]; }
    }
  }

  lemma NotYetOffered(list: seq<nat>, subs: map<nat, Subscriber>, item: Item, i: nat)
    requires Wired(Hub(list, subs)) && i < |list|
    ensures OfferedAll(list[..i], subs, item).Keys == subs.Keys && OfferedAll(list[..i], subs, item)[list[i]] == subs[list[i]]
    ensures Staying(list[..i + 1], subs, item) ==
            Staying(list[..i], subs, item) + if Stays(subs[list[i]], item) then [list[i]] else []
    ensures OfferedAll(list[..i + 1], subs, item) == OfferedAll(list[..i], subs, item)[list[i] := Offered(subs[list[i]], item)]
  {
    OfferedExactly(list[..i], subs, item);
    assert list[..i + 1][..i] == list[..i];
  }

  lemma SentRoundWired(h: Hub, item: Item)
    requires Wired(h)
    ensures Wired(SentRound(h, item))
  {
    StayingExactly(h.list, h.subs, item);
    OfferedExactly(h.list, h.subs, item);
    var r := SentRound(h, item);
    forall i | 0 <= i < |r.list| ensures r.list[i] in r.subs && !r.subs[r.list[i]].closed {
      assert r.list[i] in r.list;
      assert r.list[i] in h.list;
    }
  }

  lemma RoundAt(h: Hub, item: Item, id: nat)
    requires Wired(h) && id in h.subs
    ensures id in SentRound(h, item).list <==> id in h.list && Stays(h.subs[id], item)
    ensures id in SentRound(h, item).subs
    ensures SentRound(h, item).subs[id] == if id in h.list then Offered(h.subs[id], item) else h.subs[id]
  {
    StayingExactly(h.list, h.subs, item);
    OfferedExactly(h.list, h.subs, item);
  }

  class Publisher {
    var slots: array<nat>
    var count: nat
    var subs: map<nat, Subscriber>

    ghost predicate Valid()
      reads this, slots
    {
      count <= slots.Length && Wired(Hub(slots[..count], subs))
    }

    ghost function Contents(): Hub
      requires count <= slots.Length
      reads this, slots
    {
      Hub(slots[..count], subs)
    }

    constructor ()
      ensures Valid() && fresh(slots) && Contents() == Hub([], map[])
    {
      slots := new nat[0];
      count, subs := 0, map[];
    }

    /** Appends to the list, in a larger array if this one is full. */
    method Subscribe(id: nat, seqId: nat)
      requires Valid() && id !in subs
      modifies this, slots
      ensures Valid() && (slots == old(slots) || fresh(slots))
      ensures Contents() == Hub(old(slots[..count]) + [id], old(subs)[id := Subscriber(seqId, [], false, false)])
    {
      if count == slots.Length { slots := Grown(slots); }
      slots[count] := id;
      assert slots[..count + 1] == old(slots[..count]) + [id];
      count := count + 1;
      subs := subs[id := Subscriber(seqId, [], false, false)];
    }

    static method Grown(a: array<nat>) returns (larger: array<nat>)
      ensures fresh(larger) && larger.Length > a.Length && larger[..a.Length] == a[..]
    {
      larger := new nat[2 * a.Length + 1];
      for i := 0 to a.Length
        invariant larger[..i] == a[..i]
      {
        larger[i] := a[i];
      }
    }

    /** Notices a cancelled subscriber and closes its channel. */
    method IsDone(id: nat) returns (done: bool)
      requires id in subs
      modifies this`subs
      ensures done == old(subs[id]).cancelled
      ensures subs == old(subs)[id := if done then old(subs[id]).(closed := true) else old(subs[id])]
    {
      done := subs[id].cancelled;
      subs := subs[id := if done then subs[id].(closed := true) else subs[id]];
    }

    /** Sends without blocking; the channel must be open. A subscriber with a full channel is disconnected. */
    method Send(id: nat, item: Item) returns (ok: bool)
      requires id in subs && !subs[id].closed
      modifies this`subs
      ensures ok == HasRoom(old(subs[id]))
      ensures subs == old(subs)[id := if ok then old(subs[id]).(channel := old(subs[id]).channel + [item])
                                      else old(subs[id]).(closed := true, cancelled := true)]
    {
      ok := |subs[id].channel| < BUFFER;
      subs := subs[id := if ok then subs[id].(channel := subs[id].channel + [item])
                         else subs[id].(closed := true, cancelled := true)];
    }

    /** What happens to one subscriber when an item is sent round. */
    method Visit(id: nat, item: Item) returns (stays: bool)
      requires id in subs && !subs[id].closed
      modifies this`subs
      ensures stays == Stays(old(subs[id]), item)
      ensures subs == old(subs)[id := Offered(old(subs[id]), item)]
    {
      var done := IsDone(id);
      if done { return false; }
      if item.Numbered? && subs[id].seqId >= item.n { return true; }
      stays := Send(id, item);
      if stays && item.Numbered? { subs := subs[id := subs[id].(seqId := item.n)]; }
    }

    static method Store(a: array<nat>, n: nat, id: nat)
      requires n < a.Length
      modifies a
      ensures a[..n + 1] == old(a[..n]) + [id] && forall k :: n < k < a.Length ==> a[k] == old(a[k])
    {
      a[n] := id;
      assert a[..n] == old(a[..n]);
    }

    /** Offers the item to everyone and moves those who stay to the front of the array. */
    method Compact(item: Item) returns (kept: nat)
      requires count <= slots.Length && Wired(Contents())
      modifies this`subs, slots
      ensures kept <= count && slots[..kept] == Staying(old(slots[..count]), old(subs), item)
      ensures subs == OfferedAll(old(slots[..count]), old(subs), item)
    {
      ghost var list, before := slots[..count], subs;
      kept := 0;
      for i := 0 to count
        invariant kept <= i <= count <= slots.Length
        invariant (forall k :: i <= k < count ==> slots[k] == list[k]) && slots[..kept] == Staying(list[..i], before, item)
        invariant subs == OfferedAll(list[..i], before, item)
      {
        var id := slots[i];
        NotYetOffered(list, before, item, i);
        var stays := Visit(id, item);
        if stays {
          Store(slots, kept, id);
          kept := kept + 1;
        }
      }
      assert list[..count] == list;
    }

    /** Sends the item round and keeps those who stay. */
    method SendRound(item: Item)
      requires Valid()
      modifies this, slots
      ensures Valid() && slots == old(slots)
      ensures Contents() == SentRound(old(Contents()), item)
    {
      SentRoundWired(Contents(), item);
      count := Compact(item);
    }

    method Publish(n: nat)
      requires Valid()
      modifies this, slots
      ensures Valid() && slots == old(slots) && Contents() == SentRound(old(Contents()), Numbered(n))
    {
      SendRound(Numbered(n));
    }

    method Broadcast(text: string)
      requires Valid()
      modifies this, slots
      ensures Valid() && slots == old(slots) && Contents() == SentRound(old(Contents()), Notice(text))
    {
      SendRound(Notice(text));
    }
  }
}
