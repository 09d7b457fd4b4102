/** What the write queue stands for, without its links and counters. */
module QueueSpec {
  import opened Wrappers

  datatype WriteResult = Accepted | Backpressured | Closed | Failed

  /** A request's bytes; those before `offset` have been written. */
  datatype Entry = Entry(id: nat, bytes: seq<Byte>, offset: nat) {
    function Left(): nat {
      if offset <= |bytes| then |bytes| - offset else 0
    }

    function Rest(): (r: seq<Byte>)
      ensures |r| == Left()
    {
      if offset <= |bytes| then bytes[offset..] else []
    }
  }

  /** A chunk outside the queue: its owner may have written part of it, while
      the queue still accounts for what it had when it was dequeued. */
  datatype Held = Held(entry: Entry, accounted: nat)

  datatype Queue = Queue(limit: nat, queued: seq<Entry>, held: seq<Held>)

  function Bytes(entries: seq<Entry>): nat {
    if entries == [] then 0 else entries[0].Left() + Bytes(entries[1..])
  }

  function Accounted(held: seq<Held>): nat {
    if held == [] then 0 else held[0].accounted + Accounted(held[1..])
  }

  function Pending(q: Queue): nat {
    Bytes(q.queued) + Accounted(q.held)
  }

  /** The bound the queue is for. */
  predicate Bounded(q: Queue) {
    && Pending(q) <= q.limit <= U64_MAX
    && forall i | 0 <= i < |q.held| :: q.held[i].entry.Left() <= q.held[i].accounted
  }

  predicate Admits(q: Queue, length: nat) {
    Pending(q) + length <= q.limit
  }

  /** try_enqueue's result for a non-empty request. */
  function Answer(q: Queue, length: nat, memory: bool): WriteResult {
    if length > q.limit then Backpressured
    else if !memory then Failed
    else if Admits(q, length) then Accepted else Backpressured
  }

  function Enqueue(q: Queue, entry: Entry): Queue {
    q.(queued := q.queued + [entry])
  }

  function Dequeue(q: Queue): Queue
    requires q.queued != []
  {
    q.(queued := q.queued[1..], held := q.held + [Held(q.queued[0], q.queued[0].Left())])
  }

  /** The owner of a held chunk writes its next `count` bytes. */
  function Advance(q: Queue, i: nat, count: nat): Queue
    requires i < |q.held| && count <= q.held[i].entry.Left()
  {
    q.(held := q.held[i := q.held[i].(entry := q.held[i].entry.(offset := q.held[i].entry.offset + count))])
  }

  function RequeueFront(q: Queue, i: nat): Queue
    requires i < |q.held|
  {
    q.(queued := [q.held[i].entry] + q.queued, held := Without(q.held, i))
  }

  function Complete(q: Queue, i: nat): Queue
    requires i < |q.held|
  {
    q.(held := Without(q.held, i))
  }

  lemma {:induction false} BytesConcat(a: seq<Entry>, b: seq<Entry>)
    ensures Bytes(a + b) == Bytes(a) + Bytes(b)
  {
    if a == [] {
      assert a + b == b;
    } else {
      assert (a + b)[1..] == a[1..] + b;
      BytesConcat(a[1..], b);
    }
  }

  lemma {:induction false} AccountedConcat(a: seq<Held>, b: seq<Held>)
    ensures Accounted(a + b) == Accounted(a) + Accounted(b)
  {
    if a == [] {
      assert a + b == b;
    } else {
      assert (a + b)[1..] == a[1..] + b;
      AccountedConcat(a[1..], b);
    }
  }

  lemma {:induction false} AccountedWithout(held: seq<Held>, i: nat)
    requires i < |held|
    ensures Accounted(held) == held[i].accounted + Accounted(Without(held, i))
  {
    var front, back := held[..i], held[i + 1..];
    var rest := [held[i]] + back;
    assert held == front + rest;
    assert rest[1..] == back;
    AccountedConcat(front, rest);
    AccountedConcat(front, back);
  }

  lemma {:induction false} AccountedUpdate(held: seq<Held>, i: nat, h: Held)
    requires i < |held| && h.accounted == held[i].accounted
    ensures Accounted(held[i := h]) == Accounted(held)
  {
    assert Without(held[i := h], i) == Without(held, i);
    AccountedWithout(held, i);
    AccountedWithout(held[i := h], i);
  }

  // ---------------------------------------------------------- the counters

  /** The process-wide statistics, three 64-bit counters. */
  datatype Counters = Counters(chunks: nat, pending: nat, inflight: nat)

  function CountEnqueued(c: Counters, bytes: nat): Counters {
    Counters(Wrap64(c.chunks + 1), Wrap64(c.pending + bytes), c.inflight)
  }

  function CountStarted(c: Counters, bytes: nat): Counters {
    Counters(c.chunks, Wrap64(c.pending - bytes), Wrap64(c.inflight + bytes))
  }

  function CountRequeued(c: Counters, inflightBytes: nat, queuedBytes: nat): Counters {
    Counters(c.chunks, Wrap64(c.pending + queuedBytes), Wrap64(c.inflight - inflightBytes))
  }

  function CountCompleted(c: Counters, bytes: nat): Counters {
    Counters(Wrap64(c.chunks - 1), c.pending, Wrap64(c.inflight - bytes))
  }

  function CountDiscarded(c: Counters, bytes: nat): Counters {
    Counters(Wrap64(c.chunks - 1), Wrap64(c.pending - bytes), c.inflight)
  }

  /** What one queue contributes to them. */
  function Weight(q: Queue): Counters {
    Counters(|q.queued| + |q.held|, Bytes(q.queued), Accounted(q.held))
  }

  /** The counters after one queue went from `before` to `after`. */
  function Shifted(c: Counters, before: Counters, after: Counters): Counters {
    Counters(Wrap64(c.chunks + after.chunks - before.chunks),
             Wrap64(c.pending + after.pending - before.pending),
             Wrap64(c.inflight + after.inflight - before.inflight))
  }

  function Plus(a: Counters, b: Counters): Counters {
    Counters(a.chunks + b.chunks, a.pending + b.pending, a.inflight + b.inflight)
  }

  function TotalWeight(queues: seq<Queue>): Counters {
    if queues == [] then Counters(0, 0, 0) else Plus(Weight(queues[0]), TotalWeight(queues[1..]))
  }

  function Wrapped(c: Counters): Counters {
    Counters(Wrap64(c.chunks), Wrap64(c.pending), Wrap64(c.inflight))
  }

  lemma {:induction false} TotalConcat(a: seq<Queue>, b: seq<Queue>)
    ensures TotalWeight(a + b) == Plus(TotalWeight(a), TotalWeight(b))
  {
    if a == [] {
      assert a + b == b;
    } else {
      assert (a + b)[1..] == a[1..] + b;
      TotalConcat(a[1..], b);
    }
  }

  /** If every operation shifts the counters by the change of its own queue,
      they are always the sums over all live queues, wrapped. */
  lemma {:induction false} CountersAreSums(counters: Counters, queues: seq<Queue>, i: nat, after: Queue)
    requires i < |queues| && counters == Wrapped(TotalWeight(queues))
    ensures Shifted(counters, Weight(queues[i]), Weight(after)) == Wrapped(TotalWeight(queues[i := after]))
  {
    TotalSplit(queues, i);
    TotalSplit(queues[i := after], i);
    assert Without(queues[i := after], i) == Without(queues, i);
    ShiftedIsSum(TotalWeight(queues), TotalWeight(queues[i := after]), Weight(queues[i]), Weight(after),
                 TotalWeight(Without(queues, i)));
  }

  lemma ShiftedIsSum(total: Counters, total': Counters, w: Counters, w': Counters, rest: Counters)
    requires total == Plus(w, rest) && total' == Plus(w', rest)
    ensures Shifted(Wrapped(total), w, w') == Wrapped(total')
  {
    ShiftIsSum(total.chunks, w.chunks, w'.chunks);
    ShiftIsSum(total.pending, w.pending, w'.pending);
    ShiftIsSum(total.inflight, w.inflight, w'.inflight);
  }

  lemma ShiftIsSum(total: nat, before: nat, after: nat)
    ensures Wrap64(Wrap64(total) + after - before) == Wrap64(total + after - before)
  {
    WrapOfSum(after - before, total);
  }

  lemma {:induction false} TotalSplit(queues: seq<Queue>, i: nat)
    requires i < |queues|
    ensures TotalWeight(queues) == Plus(Weight(queues[i]), TotalWeight(Without(queues, i)))
  {
    var front, back := queues[..i], queues[i + 1..];
    var rest := [queues[i]] + back;
    assert queues == front + rest;
    assert rest[1..] == back;
    TotalConcat(front, rest);
    TotalConcat(front, back);
  }

  function CountDiscardedAll(c: Counters, entries: seq<Entry>): Counters
    decreases |entries|
  {
    if entries == [] then c else CountDiscardedAll(CountDiscarded(c, entries[0].Left()), entries[1..])
  }

  /** Each operation's own updates shift the counters by its queue's change. */
  lemma EnqueueCounts(c: Counters, q: Queue, entry: Entry)
    requires c == Wrapped(c)
    ensures CountEnqueued(c, entry.Left()) == Shifted(c, Weight(q), Weight(Enqueue(q, entry)))
  {
    BytesConcat(q.queued, [entry]);
  }

  lemma DequeueCounts(c: Counters, q: Queue)
    requires c == Wrapped(c) && q.queued != []
    ensures CountStarted(c, q.queued[0].Left()) == Shifted(c, Weight(q), Weight(Dequeue(q)))
  {
    AccountedConcat(q.held, [Held(q.queued[0], q.queued[0].Left())]);
  }

  lemma RequeueCounts(c: Counters, q: Queue, i: nat)
    requires c == Wrapped(c) && i < |q.held|
    ensures CountRequeued(c, q.held[i].accounted, q.held[i].entry.Left())
         == Shifted(c, Weight(q), Weight(RequeueFront(q, i)))
  {
    AccountedWithout(q.held, i);
  }

  lemma CompleteCounts(c: Counters, q: Queue, i: nat)
    requires c == Wrapped(c) && i < |q.held|
    ensures CountCompleted(c, q.held[i].accounted) == Shifted(c, Weight(q), Weight(Complete(q, i)))
  {
    AccountedWithout(q.held, i);
  }

  lemma {:induction false} DisposeCounts(c: Counters, q: Queue)
    requires c == Wrapped(c)
    ensures CountDiscardedAll(c, q.queued) == Shifted(c, Weight(q), Weight(q.(queued := [])))
  {
    DiscardedAll(c, q.queued);
  }

  lemma {:induction false} DiscardedAll(c: Counters, entries: seq<Entry>)
    requires c == Wrapped(c)
    ensures CountDiscardedAll(c, entries)
         == Counters(Wrap64(c.chunks - |entries|), Wrap64(c.pending - Bytes(entries)), c.inflight)
    decreases |entries|
  {
    if entries != [] {
      DiscardedAll(CountDiscarded(c, entries[0].Left()), entries[1..]);
      ShiftTwice(c.chunks, 1, |entries[1..]|);
      ShiftTwice(c.pending, entries[0].Left(), Bytes(entries[1..]));
    }
  }

  lemma ShiftTwice(c: int, first: int, then': int)
    ensures Wrap64(Wrap64(c - first) - then') == Wrap64(c - first - then')
  {
    WrapOfSum(-then', c - first);
  }

  /** An empty queue comes and goes without a trace in the counters. */
  lemma {:induction false} EmptyQueueIsWeightless(queues: seq<Queue>, limit: nat)
    ensures TotalWeight([Queue(limit, [], [])] + queues) == TotalWeight(queues)
  {
    var all := [Queue(limit, [], [])] + queues;
    assert all[1..] == queues;
    assert Weight(all[0]) == Counters(0, 0, 0);
    assert TotalWeight(all) == Plus(Weight(all[0]), TotalWeight(all[1..]));
  }
}

module WriteQueue {
  import opened Wrappers
  import opened QueueSpec

  /** The global counters; every update is an addition modulo 2^64. */
  class DebugStats {
    var chunks: nat
    var pending: nat
    var inflight: nat

    ghost function Value(): Counters
      reads this
    {
      Counters(chunks, pending, inflight)
    }

    constructor ()
      ensures Value() == Counters(0, 0, 0)
    {
      chunks, pending, inflight := 0, 0, 0;
    }

    method Enqueued(bytes: nat)
      modifies this
      ensures Value() == CountEnqueued(old(Value()), bytes)
    {
      chunks := Wrap64(chunks + 1);
      pending := Wrap64(pending + bytes);
    }

    method Started(bytes: nat)
      modifies this
      ensures Value() == CountStarted(old(Value()), bytes)
    {
      WrapOfSum(pending, 0 - bytes);
      pending := Wrap64(pending + Wrap64(0 - bytes));
      inflight := Wrap64(inflight + bytes);
    }

    method Requeued(inflightBytes: nat, queuedBytes: nat)
      modifies this
      ensures Value() == CountRequeued(old(Value()), inflightBytes, queuedBytes)
    {
      WrapOfSum(inflight, 0 - inflightBytes);
      inflight := Wrap64(inflight + Wrap64(0 - inflightBytes));
      pending := Wrap64(pending + queuedBytes);
    }

    method Completed(bytes: nat)
      modifies this
      ensures Value() == CountCompleted(old(Value()), bytes)
    {
      WrapOfSum(chunks, -1);
      WrapOfSum(inflight, 0 - bytes);
      chunks := Wrap64(chunks + Wrap64(-1));
      inflight := Wrap64(inflight + Wrap64(0 - bytes));
    }

    method Discarded(bytes: nat)
      modifies this
      ensures Value() == CountDiscarded(old(Value()), bytes)
    {
      WrapOfSum(chunks, -1);
      WrapOfSum(pending, 0 - bytes);
      chunks := Wrap64(chunks + Wrap64(-1));
      pending := Wrap64(pending + Wrap64(0 - bytes));
    }
  }

  class WriteChunk {
    const id: nat
    const bytes: seq<Byte>
    var offset: nat
    var accounted: nat
    var next: WriteChunk?

    constructor (id: nat, bytes: seq<Byte>)
      ensures this.id == id && this.bytes == bytes
      ensures offset == 0 && accounted == 0 && next == null
    {
      this.id, this.bytes := id, bytes;
      offset, accounted, next := 0, 0, null;
    }
  }

  /** What the links of a queue amount to: the chunks they visit and those
      handed to a caller, what they stand for, and where each one stands (the
      first queued chunk at `base`). */
  datatype View = View(chunks: seq<WriteChunk>, queued: seq<Entry>, handed: seq<WriteChunk>, held: seq<Held>,
                       place: map<WriteChunk, int>, base: int, slot: map<WriteChunk, int>)
  {
    ghost function Value(limit: nat): Queue {
      Queue(limit, queued, held)
    }

    lemma TakeFirstValue(limit: nat)
      requires chunks != [] && queued != []
      ensures TakeFirst().Value(limit) == QueueSpec.Dequeue(Value(limit))
    {
    }

    lemma DropValue(limit: nat, i: nat)
      requires i < |handed| == |held|
      ensures Drop(i).Value(limit) == QueueSpec.Complete(Value(limit), i) && Drop(i).handed == Without(handed, i)
    {
    }

    lemma PutFirstValue(limit: nat, i: nat)
      requires i < |handed| == |held|
      ensures PutFirst(i).Value(limit) == QueueSpec.RequeueFront(Value(limit), i)
      ensures PutFirst(i).handed == Without(handed, i)
    {
    }

    /** Where a chunk stands among those handed out. */
    ghost function SlotOf(chunk: WriteChunk): nat {
      if chunk in slot && slot[chunk] >= 0 then slot[chunk] else 0
    }

    ghost function Append(chunk: WriteChunk): View {
      this.(chunks := chunks + [chunk],
            queued := queued + [Entry(chunk.id, chunk.bytes, 0)],
            place := place[chunk := base + |chunks|])
    }

    /** The first chunk goes to the caller, accounted with what is left of it. */
    ghost function TakeFirst(): View
      requires chunks != [] && queued != []
    {
      this.(chunks := chunks[1..], queued := queued[1..], base := base + 1,
            place := place - {chunks[0]},
            handed := handed + [chunks[0]], held := held + [Held(queued[0], queued[0].Left())],
            slot := slot[chunks[0] := |handed|])
    }

    /** A chunk leaves the caller; those handed out later move up one slot. */
    ghost function Drop(i: nat): View
      requires i < |handed| && i < |held|
    {
      this.(handed := Without(handed, i), held := Without(held, i),
            slot := map c | c in slot && c != handed[i] :: if slot[c] > i then slot[c] - 1 else slot[c])
    }

    /** A chunk returns to the front, in its present state. */
    ghost function PutFirst(i: nat): View
      requires i < |handed| && i < |held|
    {
      Drop(i).(chunks := [handed[i]] + chunks, queued := [held[i].entry] + queued, base := base - 1,
               place := place[handed[i] := base - 1])
    }

    ghost function Moved(i: nat, count: nat): View
      requires i < |held|
    {
      this.(held := held[i := held[i].(entry := held[i].entry.(offset := held[i].entry.offset + count))])
    }
  }

  class WriteQueue {
    const limit: nat
    const stats: DebugStats
    var head: WriteChunk?
    var tail: WriteChunk?
    var queuedBytes: nat
    var inflightBytes: nat
    var initialized: bool
    ghost var view: View

    ghost function Abs(): Queue
      reads this
    {
      view.Value(limit)
    }

    ghost function Last(): set<WriteChunk>
      reads this
    {
      if tail == null then {} else {tail}
    }

    ghost predicate Linked()
      reads this, view.chunks
    {
      && head == (if view.chunks == [] then null else view.chunks[0])
      && tail == (if view.chunks == [] then null else view.chunks[|view.chunks| - 1])
      && forall i {:trigger view.chunks[i].next} | 0 <= i < |view.chunks| ::
           view.chunks[i].next == if i + 1 < |view.chunks| then view.chunks[i + 1] else null
    }

    ghost predicate Distinct()
      reads this
    {
      && (forall i | 0 <= i < |view.chunks| ::
            view.chunks[i] in view.place && view.place[view.chunks[i]] == view.base + i)
      && (forall i | 0 <= i < |view.handed| ::
            view.handed[i] !in view.place && view.handed[i] in view.slot && view.slot[view.handed[i]] == i)
    }

    ghost predicate QueuedRepresented()
      reads this, view.chunks
    {
      && |view.queued| == |view.chunks|
      && (forall i | 0 <= i < |view.chunks| ::
            var c, e := view.chunks[i], view.queued[i];
            e.id == c.id && e.bytes == c.bytes && e.offset == c.offset <= |c.bytes|)
    }

    ghost predicate HeldRepresented()
      reads this, view.handed
    {
      && |view.held| == |view.handed|
      && (forall i | 0 <= i < |view.handed| ::
            var c, h := view.handed[i], view.held[i];
            && h.entry.id == c.id && h.entry.bytes == c.bytes && h.entry.offset == c.offset <= |c.bytes|
            && h.accounted == c.accounted)
    }

    ghost predicate Represents()
      reads this, view.chunks, view.handed
    {
      QueuedRepresented() && HeldRepresented()
    }

    ghost predicate Counted()
      reads this
    {
      && queuedBytes == Bytes(view.queued)
      && inflightBytes == Accounted(view.held)
      && Bounded(Abs())
      && (!initialized ==> view.chunks == view.handed == [])
    }

    ghost predicate Valid()
      reads this, view.chunks, view.handed
    {
      Linked() && Distinct() && Represents() && Counted()
    }

    constructor (limit: nat, stats: DebugStats)
      requires limit <= U64_MAX
      ensures Valid() && initialized && this.stats == stats
      ensures Abs() == Queue(limit, [], [])
    {
      this.limit, this.stats := limit, stats;
      head, tail, queuedBytes, inflightBytes, initialized := null, null, 0, 0, true;
      view := View([], [], [], [], map[], 0, map[]);
    }

    /** `memory` is the allocator's answer. */
    method TryEnqueue(bytes: seq<Byte>, id: nat, memory: bool) returns (result: WriteResult)
      requires Valid() && |bytes| <= U64_MAX
      modifies this, Last()`next, stats
      ensures Valid() && initialized == old(initialized)
      ensures result == if !initialized then Failed
                        else if bytes == [] then Accepted
                        else old(Answer(Abs(), |bytes|, memory))
      ensures result == Accepted && bytes != [] ==>
                && Abs() == old(Enqueue(Abs(), Entry(id, bytes, 0)))
                && view.handed == old(view.handed)
                && stats.Value() == CountEnqueued(old(stats.Value()), |bytes|)
      ensures result != Accepted || bytes == [] ==>
                view == old(view) && stats.Value() == old(stats.Value())
    {
      if !initialized {
        return Failed;
      }
      if |bytes| == 0 {
        return Accepted;
      }
      if |bytes| > limit {
        return Backpressured;
      }
      if !memory {
        return Failed;
      }
      var chunk := new WriteChunk(id, bytes);
      assert chunk !in view.place && chunk !in view.handed;
      if queuedBytes > limit || inflightBytes > limit - queuedBytes || |bytes| > limit - queuedBytes - inflightBytes {
        return Backpressured;
      }
      Append(chunk);
      result := Accepted;
    }

    /** Appending writes one link and the ends; nothing else moves. */
    twostate lemma Appended(chunk: WriteChunk)
      requires old(Valid()) && old(initialized) && initialized && old(Admits(Abs(), |chunk.bytes|))
      requires chunk !in old(view.place) && chunk !in old(view.handed)
      requires chunk.offset == 0 && chunk.next == null && tail == chunk
      requires if old(tail) == null then head == chunk else head == old(head) && old(tail).next == chunk
      requires forall c | c in old(view.chunks) ::
                 c.offset == old(c.offset) && (c != old(tail) ==> c.next == old(c.next))
      requires forall c | c in old(view.handed) :: c.offset == old(c.offset) && c.accounted == old(c.accounted)
      requires queuedBytes == old(queuedBytes) + |chunk.bytes| && inflightBytes == old(inflightBytes)
      requires view == old(view).Append(chunk)
      ensures Valid()
    {
      BytesConcat(old(view.queued), [Entry(chunk.id, chunk.bytes, 0)]);
      assert Counted();
      assert Linked();
      assert Distinct();
      assert Represents();
    }

    /** The links and the byte count of an accepted chunk. */
    method Append(chunk: WriteChunk)
      requires Valid() && initialized && Admits(Abs(), |chunk.bytes|)
      requires chunk !in view.place && chunk !in view.handed && chunk.offset == 0 && chunk.next == null
      modifies this, Last()`next, stats
      ensures Valid() && initialized
      ensures Abs() == old(Enqueue(Abs(), Entry(chunk.id, chunk.bytes, 0))) && view.handed == old(view.handed)
      ensures stats.Value() == CountEnqueued(old(stats.Value()), |chunk.bytes|)
    {
      if tail == null {
        head := chunk;
      } else {
        tail.next := chunk;
      }
      tail := chunk;
      queuedBytes := Wrap64(queuedBytes + |chunk.bytes|);
      stats.Enqueued(|chunk.bytes|);
      view := view.Append(chunk);
      Appended(chunk);
    }

    /** Dequeuing reads the first link and clears it. */
    twostate predicate FirstTaken(chunk: WriteChunk)
      reads *
    {
      && old(Valid()) && old(initialized) && initialized && old(head) == chunk
      && head == old(chunk.next) && tail == (if head == null then null else old(tail))
      && chunk.next == null && chunk.offset == old(chunk.offset) && chunk.accounted == |chunk.bytes| - chunk.offset
      && (forall c | c in old(view.chunks) && c != chunk :: c.offset == old(c.offset) && c.next == old(c.next))
      && (forall c | c in old(view.handed) :: c.offset == old(c.offset) && c.accounted == old(c.accounted))
      && queuedBytes == old(queuedBytes) - chunk.accounted && inflightBytes == old(inflightBytes) + chunk.accounted
      && view == old(view).TakeFirst()
    }

    twostate lemma TookFirstLinked(chunk: WriteChunk)
      requires FirstTaken(chunk)
      ensures Linked()
    {
    }

    twostate lemma TookFirstDistinct(chunk: WriteChunk)
      requires FirstTaken(chunk)
      ensures Distinct()
    {
    }

    twostate lemma TookFirstRepresents(chunk: WriteChunk)
      requires FirstTaken(chunk)
      ensures Represents()
      ensures chunk.accounted == old(view.queued)[0].Left()
    {
    }

    twostate lemma TookFirstCounted(chunk: WriteChunk)
      requires FirstTaken(chunk)
      ensures Counted()
    {
      AccountedConcat(old(view.held), [Held(old(view.queued)[0], chunk.accounted)]);
    }

    method UnlinkHead() returns (chunk: WriteChunk)
      requires head != null
      modifies this`head, this`tail, head`next
      ensures chunk == old(head) && head == old(head.next) && chunk.next == null
      ensures tail == if head == null then null else old(tail)
    {
      chunk := head;
      head := chunk.next;
      if head == null {
        tail := null;
      }
      chunk.next := null;
    }

    method CountTaken(chunk: WriteChunk)
      requires chunk.offset <= |chunk.bytes| && |chunk.bytes| - chunk.offset <= queuedBytes
      requires queuedBytes + inflightBytes <= U64_MAX
      modifies this`queuedBytes, this`inflightBytes, chunk`accounted, stats
      ensures chunk.accounted == |chunk.bytes| - chunk.offset
      ensures queuedBytes == old(queuedBytes) - chunk.accounted && inflightBytes == old(inflightBytes) + chunk.accounted
      ensures stats.Value() == CountStarted(old(stats.Value()), chunk.accounted)
    {
      var remaining := |chunk.bytes| - chunk.offset;
      queuedBytes := Wrap64(queuedBytes - remaining);
      inflightBytes := Wrap64(inflightBytes + remaining);
      chunk.accounted := remaining;
      stats.Started(remaining);
    }

    /** The caller owns the chunk it gets, and the byte counts move with it. */
    method Dequeue() returns (chunk: WriteChunk?)
      requires Valid()
      modifies this, head, stats
      ensures Valid() && initialized == old(initialized)
      ensures chunk == null <==> old(view.chunks) == []
      ensures chunk == null ==> view == old(view) && stats.Value() == old(stats.Value())
      ensures chunk != null ==>
                && Abs() == QueueSpec.Dequeue(old(Abs()))
                && view == old(view).TakeFirst() && chunk == old(view.chunks)[0]
                && chunk.accounted == old(view.queued)[0].Left()
                && stats.Value() == CountStarted(old(stats.Value()), chunk.accounted)
    {
      if !initialized || head == null {
        return null;
      }
      view.TakeFirstValue(limit);
      chunk := UnlinkHead();
      CountTaken(chunk);
      view := view.TakeFirst();
      assert FirstTaken(chunk);
      TookFirstLinked(chunk);
      TookFirstDistinct(chunk);
      TookFirstRepresents(chunk);
      TookFirstCounted(chunk);
    }

    /** A step that touches neither links nor any chunk but the caller's. */
    twostate predicate OnlyHanded(chunk: WriteChunk)
      reads *
    {
      && old(Valid()) && old(initialized) && initialized && chunk in old(view.handed)
      && head == old(head) && tail == old(tail)
      && (forall c | c in old(view.chunks) :: c.offset == old(c.offset) && c.next == old(c.next))
      && (forall c | c in old(view.handed) && c != chunk :: c.offset == old(c.offset) && c.accounted == old(c.accounted))
    }

    twostate predicate Advanced(chunk: WriteChunk)
      reads *
    {
      && OnlyHanded(chunk)
      && old(chunk.offset) <= chunk.offset <= |chunk.bytes| && chunk.accounted == old(chunk.accounted)
      && queuedBytes == old(queuedBytes) && inflightBytes == old(inflightBytes)
      && view == old(view).Moved(old(view).SlotOf(chunk), chunk.offset - old(chunk.offset))
    }

    twostate lemma AdvancedValid(chunk: WriteChunk)
      requires Advanced(chunk)
      ensures Valid()
    {
      var i := old(view).SlotOf(chunk);
      AccountedUpdate(old(view.held), i, view.held[i]);
      assert Counted();
      assert Linked();
      assert Distinct();
    }

    /** The chunk's owner wrote its next `count` bytes. */
    method Advance(chunk: WriteChunk, ghost i: nat, count: nat)
      requires Valid() && i < |view.handed| && view.handed[i] == chunk
      requires count <= |chunk.bytes| - chunk.offset
      modifies this`view, chunk`offset
      ensures Valid() && initialized == old(initialized)
      ensures Abs() == QueueSpec.Advance(old(Abs()), i, count) && view.handed == old(view.handed)
    {
      assert initialized && view.SlotOf(chunk) == i;
      chunk.offset := chunk.offset + count;
      view := view.Moved(i, count);
      AdvancedValid(chunk);
    }

    twostate predicate Completed(chunk: WriteChunk)
      reads *
    {
      && OnlyHanded(chunk)
      && queuedBytes == old(queuedBytes) && inflightBytes == old(inflightBytes) - old(chunk.accounted)
      && view == old(view).Drop(old(view).SlotOf(chunk))
    }

    twostate lemma CompletedCounted(chunk: WriteChunk)
      requires Completed(chunk)
      ensures Linked() && Counted()
    {
      AccountedWithout(old(view.held), old(view).SlotOf(chunk));
    }

    twostate lemma CompletedDistinct(chunk: WriteChunk)
      requires Completed(chunk)
      ensures Distinct()
    {
    }

    twostate lemma CompletedRepresents(chunk: WriteChunk)
      requires Completed(chunk)
      ensures Represents()
    {
    }

    method CountCompleted(chunk: WriteChunk)
      requires initialized && chunk.accounted <= inflightBytes <= U64_MAX
      modifies this`inflightBytes, chunk`accounted, stats
      ensures inflightBytes == old(inflightBytes) - old(chunk.accounted)
      ensures stats.Value() == QueueSpec.CountCompleted(old(stats.Value()), old(chunk.accounted))
    {
      var accounted := chunk.accounted;
      if initialized {
        if accounted > inflightBytes {
          accounted := inflightBytes;
        }
        inflightBytes := Wrap64(inflightBytes - accounted);
        chunk.accounted := 0;
      }
      stats.Completed(accounted);
    }

    method DropHanded(chunk: WriteChunk, ghost i: nat)
      requires Valid() && i < |view.handed| && view.handed[i] == chunk
      modifies this, chunk, stats
      ensures Completed(chunk)
      ensures stats.Value() == old(QueueSpec.CountCompleted(stats.Value(), chunk.accounted))
    {
      HandedFits(i);
      CountCompleted(chunk);
      view := view.Drop(i);
    }

    /** The owner gives the chunk up; all it was accounted with becomes free:
        the clamp never fires. */
    method CompleteChunk(chunk: WriteChunk?, ghost i: nat)
      requires Valid() && (chunk != null ==> i < |view.handed| && view.handed[i] == chunk)
      modifies this, chunk, stats
      ensures Valid() && initialized == old(initialized)
      ensures chunk == null ==> view == old(view) && stats.Value() == old(stats.Value())
      ensures chunk != null ==>
                && Abs() == Complete(old(Abs()), i) && view.handed == Without(old(view.handed), i)
                && stats.Value() == QueueSpec.CountCompleted(old(stats.Value()), old(view.held[i]).accounted)
    {
      if chunk == null {
        return;
      }
      HandedFits(i);
      view.DropValue(limit, i);
      DropHanded(chunk, i);
      CompletedCounted(chunk);
      CompletedDistinct(chunk);
      CompletedRepresents(chunk);
    }

    method LinkFirst(chunk: WriteChunk)
      modifies this`head, this`tail, chunk`next
      ensures head == chunk && chunk.next == old(head)
      ensures tail == if old(tail) == null then chunk else old(tail)
    {
      chunk.next := head;
      head := chunk;
      if tail == null {
        tail := chunk;
      }
    }

    twostate predicate FrontPut(chunk: WriteChunk)
      reads *
    {
      && old(Valid()) && old(initialized) && initialized && chunk in old(view.handed)
      && head == chunk && chunk.next == old(head) && tail == (if old(tail) == null then chunk else old(tail))
      && chunk.offset == old(chunk.offset)
      && (forall c | c in old(view.chunks) :: c.offset == old(c.offset) && c.next == old(c.next))
      && (forall c | c in old(view.handed) && c != chunk :: c.offset == old(c.offset) && c.accounted == old(c.accounted))
      && queuedBytes == old(queuedBytes) + (|chunk.bytes| - chunk.offset)
      && inflightBytes == old(inflightBytes) - old(chunk.accounted)
      && view == old(view).PutFirst(old(view).SlotOf(chunk))
    }

    twostate lemma FrontPutLinked(chunk: WriteChunk)
      requires FrontPut(chunk)
      ensures Linked()
    {
    }

    twostate lemma FrontPutDistinct(chunk: WriteChunk)
      requires FrontPut(chunk)
      ensures Distinct()
    {
    }

    twostate lemma FrontPutQueued(chunk: WriteChunk)
      requires FrontPut(chunk)
      ensures QueuedRepresented()
    {
    }

    twostate lemma FrontPutHeld(chunk: WriteChunk)
      requires FrontPut(chunk)
      ensures HeldRepresented()
    {
    }

    twostate lemma FrontPutCounted(chunk: WriteChunk)
      requires FrontPut(chunk)
      ensures Counted()
    {
      AccountedWithout(old(view.held), old(view).SlotOf(chunk));
    }

    method CountRequeued(chunk: WriteChunk)
      requires chunk.offset <= |chunk.bytes| && |chunk.bytes| - chunk.offset <= chunk.accounted <= inflightBytes
      requires queuedBytes + inflightBytes <= U64_MAX
      modifies this`queuedBytes, this`inflightBytes, chunk`accounted, stats
      ensures inflightBytes == old(inflightBytes) - old(chunk.accounted)
      ensures queuedBytes == old(queuedBytes) + (|chunk.bytes| - chunk.offset)
      ensures stats.Value()
           == QueueSpec.CountRequeued(old(stats.Value()), old(chunk.accounted), |chunk.bytes| - chunk.offset)
    {
      var remaining := |chunk.bytes| - chunk.offset;
      inflightBytes := Wrap64(inflightBytes - chunk.accounted);
      queuedBytes := Wrap64(queuedBytes + remaining);
      stats.Requeued(chunk.accounted, remaining);
      chunk.accounted := remaining;
    }

    /** What the byte counts say about a chunk outside the queue. */
    lemma HandedFits(i: nat)
      requires Valid() && i < |view.handed|
      ensures initialized && i < |view.held| && view.SlotOf(view.handed[i]) == i
      ensures var c := view.handed[i];
              && c.offset <= |c.bytes| && |c.bytes| - c.offset <= c.accounted <= inflightBytes
              && view.held[i].accounted == c.accounted && view.held[i].entry.Left() == |c.bytes| - c.offset
      ensures queuedBytes + inflightBytes <= U64_MAX
    {
      AccountedWithout(view.held, i);
    }

    method PutFirst(chunk: WriteChunk, ghost i: nat)
      requires Valid() && initialized && chunk in view.handed && view.SlotOf(chunk) == i < |view.handed|
      requires chunk.offset <= |chunk.bytes| && |chunk.bytes| - chunk.offset <= chunk.accounted <= inflightBytes
      requires queuedBytes + inflightBytes <= U64_MAX
      modifies this, chunk, stats
      ensures FrontPut(chunk)
      ensures stats.Value() == old(QueueSpec.CountRequeued(stats.Value(), chunk.accounted, |chunk.bytes| - chunk.offset))
    {
      LinkFirst(chunk);
      CountRequeued(chunk);
      view := view.PutFirst(i);
    }

    method PutBack(chunk: WriteChunk, ghost i: nat)
      requires Valid() && i < |view.handed| && view.handed[i] == chunk
      modifies this, chunk, stats
      ensures Valid() && initialized == old(initialized)
      ensures Abs() == QueueSpec.RequeueFront(old(Abs()), i) && view.handed == Without(old(view.handed), i)
      ensures stats.Value() == old(QueueSpec.CountRequeued(stats.Value(), chunk.accounted, |chunk.bytes| - chunk.offset))
    {
      HandedFits(i);
      view.PutFirstValue(limit, i);
      PutFirst(chunk, i);
      FrontPutLinked(chunk);
      FrontPutDistinct(chunk);
      FrontPutQueued(chunk);
      FrontPutHeld(chunk);
      FrontPutCounted(chunk);
    }

    /** A partly written chunk goes back in front of everything queued since.
        Neither guard can reject a chunk this queue handed out. */
    method RequeueFront(chunk: WriteChunk?, ghost i: nat) returns (result: WriteResult)
      requires Valid() && (chunk != null ==> i < |view.handed| && view.handed[i] == chunk)
      modifies this, chunk, stats
      ensures Valid() && initialized == old(initialized)
      ensures result == if chunk == null then Failed else Accepted
      ensures chunk == null ==> view == old(view) && stats.Value() == old(stats.Value())
      ensures chunk != null ==>
                && Abs() == QueueSpec.RequeueFront(old(Abs()), i) && view.handed == Without(old(view.handed), i)
                && stats.Value() == QueueSpec.CountRequeued(old(stats.Value()), old(view.held[i]).accounted,
                                                            old(view.held[i]).entry.Left())
    {
      if !initialized || chunk == null {
        return Failed;
      }
      HandedFits(i);
      result := if chunk.offset > |chunk.bytes| then Failed
                else if chunk.accounted < |chunk.bytes| - chunk.offset || inflightBytes < chunk.accounted then Backpressured
                else Accepted;
      if result == Accepted {
        PutBack(chunk, i);
      }
    }

    method DiscardChunks(first: WriteChunk?)
      requires Valid() && first == head
      modifies stats
      ensures stats.Value() == CountDiscardedAll(old(stats.Value()), view.queued)
    {
      var chunk := first;
      ghost var k := 0;
      while chunk != null
        invariant k <= |view.chunks|
        invariant chunk == if k < |view.chunks| then view.chunks[k] else null
        invariant CountDiscardedAll(stats.Value(), view.queued[k..]) == CountDiscardedAll(old(stats.Value()), view.queued)
        decreases |view.chunks| - k
      {
        var next := chunk.next;
        assert view.queued[k..][1..] == view.queued[k + 1..];
        stats.Discarded(|chunk.bytes| - chunk.offset);
        chunk := next;
        k := k + 1;
      }
      assert view.queued[k..] == [];
    }

    /** Frees what is still queued, once no chunk is outside the queue. */
    method Dispose()
      requires Valid() && view.handed == []
      modifies this, stats
      ensures Valid() && !initialized && Abs() == old(Abs()).(queued := [])
      ensures stats.Value() == CountDiscardedAll(old(stats.Value()), old(view.queued))
    {
      if !initialized {
        return;
      }
      DiscardChunks(head);
      head, tail, queuedBytes, initialized := null, null, 0, false;
      view := view.(chunks := [], queued := []);
    }

    method PendingBytes() returns (pending: nat)
      requires Valid()
      ensures pending == Pending(Abs())
    {
      if !initialized {
        return 0;
      }
      pending := Wrap64(queuedBytes + inflightBytes);
    }
  }
}
