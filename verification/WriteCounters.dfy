/** The process-wide write statistics over the whole life of all queues: the
    counters never drift from what is really queued and handed out. */
module WriteCounters {
  import opened Wrappers
  import opened QueueSpec

  /** The live queues, and the chunks still out when theirs was disposed of. */
  datatype System = System(counters: Counters, queues: seq<Queue>, orphans: seq<Held>)

  datatype Label =
    | Create(limit: nat)
    | Enqueued(i: nat, entry: Entry)
    | Dequeued(i: nat)
    | Advanced(i: nat, j: nat, count: nat)
    | Requeued(i: nat, j: nat)
    | Completed(i: nat, j: nat)
    | Disposed(i: nat)
    | OrphanCompleted(j: nat)

  predicate Enabled(s: System, l: Label) {
    match l
    case Create(_) => true
    case Enqueued(i, entry) => i < |s.queues| && 0 < |entry.bytes| && entry.offset == 0 && Admits(s.queues[i], |entry.bytes|)
    case Dequeued(i) => i < |s.queues| && s.queues[i].queued != []
    case Advanced(i, j, count) => i < |s.queues| && j < |s.queues[i].held| && count <= s.queues[i].held[j].entry.Left()
    case Requeued(i, j) => i < |s.queues| && j < |s.queues[i].held|
    case Completed(i, j) => i < |s.queues| && j < |s.queues[i].held|
    case Disposed(i) => i < |s.queues|
    case OrphanCompleted(j) => j < |s.orphans|
  }

  function Replaced(s: System, counters: Counters, i: nat, q: Queue): System
    requires i < |s.queues|
  {
    s.(counters := counters, queues := s.queues[i := q])
  }

  /** Each operation updates the counters by its own amounts. */
  function Next(s: System, l: Label): System
    requires Enabled(s, l)
  {
    match l
    case Create(limit) => s.(queues := s.queues + [Queue(limit, [], [])])
    case Enqueued(i, entry) => Replaced(s, CountEnqueued(s.counters, |entry.bytes|), i, Enqueue(s.queues[i], entry))
    case Dequeued(i) => Replaced(s, CountStarted(s.counters, s.queues[i].queued[0].Left()), i, Dequeue(s.queues[i]))
    case Advanced(i, j, count) => Replaced(s, s.counters, i, Advance(s.queues[i], j, count))
    case Requeued(i, j) =>
      var h := s.queues[i].held[j];
      Replaced(s, CountRequeued(s.counters, h.accounted, h.entry.Left()), i, RequeueFront(s.queues[i], j))
    case Completed(i, j) =>
      Replaced(s, CountCompleted(s.counters, s.queues[i].held[j].accounted), i, Complete(s.queues[i], j))
    case Disposed(i) =>
      s.(counters := CountDiscardedAll(s.counters, s.queues[i].queued), queues := Without(s.queues, i),
         orphans := s.orphans + s.queues[i].held)
    case OrphanCompleted(j) =>
      s.(counters := CountCompleted(s.counters, s.orphans[j].accounted), orphans := Without(s.orphans, j))
  }

  /** The orphans weigh as much as an empty queue that handed them out. */
  function Orphanage(s: System): Queue {
    Queue(0, [], s.orphans)
  }

  function Everything(s: System): seq<Queue> {
    [Orphanage(s)] + s.queues
  }

  predicate Exact(s: System) {
    s.counters == Wrapped(TotalWeight(Everything(s)))
  }

  // ---------------------------------------------------------- step by step

  lemma WrappedTwice(c: Counters)
    ensures Wrapped(Wrapped(c)) == Wrapped(c)
  {
    WrapOfSum(0, c.chunks);
    WrapOfSum(0, c.pending);
    WrapOfSum(0, c.inflight);
  }

  /** One queue changes and the counters shift by just that. */
  lemma ShiftKeeps(s: System, i: nat, q: Queue)
    requires Exact(s) && i < |s.queues|
    ensures Exact(Replaced(s, Shifted(s.counters, Weight(s.queues[i]), Weight(q)), i, q))
  {
    var all := Everything(s);
    CountersAreSums(s.counters, all, i + 1, q);
    assert all[i + 1 := q] == [Orphanage(s)] + s.queues[i := q];
  }

  lemma CreateKeeps(s: System, limit: nat)
    requires Exact(s)
    ensures Exact(Next(s, Create(limit)))
  {
    var created := Queue(limit, [], []);
    assert Everything(Next(s, Create(limit))) == Everything(s) + [created];
    TotalConcat(Everything(s), [created]);
    EmptyQueueIsWeightless([], limit);
    assert [created] + [] == [created];
  }

  lemma ShiftedByNothing(c: Counters, w: Counters)
    requires c == Wrapped(c)
    ensures Shifted(c, w, w) == c
  {
  }

  lemma AdvanceKeeps(s: System, i: nat, j: nat, count: nat)
    requires Exact(s) && Enabled(s, Advanced(i, j, count))
    ensures Exact(Next(s, Advanced(i, j, count)))
  {
    var q := s.queues[i];
    var h := q.held[j];
    AccountedUpdate(q.held, j, h.(entry := h.entry.(offset := h.entry.offset + count)));
    WrappedTwice(TotalWeight(Everything(s)));
    ShiftedByNothing(s.counters, Weight(q));
    ShiftKeeps(s, i, Advance(q, j, count));
  }

  /** The queue's chunks are dropped and those handed out become orphans. */
  lemma DisposeMoves(s: System, i: nat, t: System)
    requires i < |s.queues| && t.queues == Without(s.queues, i) && t.orphans == s.orphans + s.queues[i].held
    ensures TotalWeight(Everything(t)) == TotalWeight(Everything(s)[i + 1 := s.queues[i].(queued := [])])
  {
    var q := s.queues[i].(queued := []);
    var all := Everything(s)[i + 1 := q];
    TotalSplit(all, i + 1);
    assert Without(all, i + 1) == Everything(s.(queues := t.queues));
    AccountedConcat(s.orphans, q.held);
    var rest := s.(queues := t.queues);
    assert Everything(rest)[1..] == t.queues && Everything(t)[1..] == t.queues;
  }

  lemma DisposeKeeps(s: System, i: nat)
    requires Exact(s) && i < |s.queues|
    ensures Exact(Next(s, Disposed(i)))
  {
    var q := s.queues[i];
    WrappedTwice(TotalWeight(Everything(s)));
    DisposeCounts(s.counters, q);
    CountersAreSums(s.counters, Everything(s), i + 1, q.(queued := []));
    DisposeMoves(s, i, Next(s, Disposed(i)));
  }

  lemma OrphanKeeps(s: System, j: nat)
    requires Exact(s) && j < |s.orphans|
    ensures Exact(Next(s, OrphanCompleted(j)))
  {
    WrappedTwice(TotalWeight(Everything(s)));
    CompleteCounts(s.counters, Orphanage(s), j);
    CountersAreSums(s.counters, Everything(s), 0, Complete(Orphanage(s), j));
    assert Everything(s)[0 := Complete(Orphanage(s), j)] == Everything(Next(s, OrphanCompleted(j)));
  }

  lemma NextExact(s: System, l: Label)
    requires Exact(s) && Enabled(s, l)
    ensures Exact(Next(s, l))
  {
    WrappedTwice(TotalWeight(Everything(s)));
    match l
    case Create(limit) => CreateKeeps(s, limit);
    case Enqueued(i, entry) =>
      EnqueueCounts(s.counters, s.queues[i], entry);
      ShiftKeeps(s, i, Enqueue(s.queues[i], entry));
    case Dequeued(i) =>
      DequeueCounts(s.counters, s.queues[i]);
      ShiftKeeps(s, i, Dequeue(s.queues[i]));
    case Advanced(i, j, count) => AdvanceKeeps(s, i, j, count);
    case Requeued(i, j) =>
      RequeueCounts(s.counters, s.queues[i], j);
      ShiftKeeps(s, i, RequeueFront(s.queues[i], j));
    case Completed(i, j) =>
      CompleteCounts(s.counters, s.queues[i], j);
      ShiftKeeps(s, i, Complete(s.queues[i], j));
    case Disposed(i) => DisposeKeeps(s, i);
    case OrphanCompleted(j) => OrphanKeeps(s, j);
  }

  // ------------------------------------------------------------- the runs

  predicate Possible(s: System, labels: seq<Label>)
    decreases |labels|
  {
    labels == [] || (Enabled(s, labels[0]) && Possible(Next(s, labels[0]), labels[1..]))
  }

  function After(s: System, labels: seq<Label>): System
    requires Possible(s, labels)
    decreases |labels|
  {
    if labels == [] then s else After(Next(s, labels[0]), labels[1..])
  }

  function Initial(): System {
    System(Counters(0, 0, 0), [], [])
  }

  lemma {:induction false} RunsAreExact(s: System, labels: seq<Label>)
    requires Exact(s) && Possible(s, labels)
    ensures Exact(After(s, labels))
    decreases |labels|
  {
    if labels != [] {
      NextExact(s, labels[0]);
      RunsAreExact(Next(s, labels[0]), labels[1..]);
    }
  }

  lemma InitialExact()
    ensures Exact(Initial())
  {
    EmptyQueueIsWeightless([], 0);
    assert Everything(Initial()) == [Queue(0, [], [])] + [];
  }

  lemma EverythingWeighs(s: System)
    ensures TotalWeight(Everything(s)) == Plus(Counters(|s.orphans|, 0, Accounted(s.orphans)), TotalWeight(s.queues))
  {
    assert Everything(s)[1..] == s.queues;
    assert Weight(Orphanage(s)) == Counters(|s.orphans|, 0, Accounted(s.orphans));
  }

  /** The counters are, modulo 2^64, the chunks, the queued bytes and the bytes
      handed out of all live queues and of the chunks that outlived theirs. */
  predicate Truthful(s: System) {
    && s.counters == Wrapped(Plus(Counters(|s.orphans|, 0, Accounted(s.orphans)), TotalWeight(s.queues)))
    && (s.orphans == [] ==> s.counters == Wrapped(TotalWeight(s.queues)))
    && (s.orphans == [] && s.queues == [] ==> s.counters == Counters(0, 0, 0))
  }

  lemma NoOrphansWeigh(orphans: seq<Held>, c: Counters)
    requires orphans == []
    ensures Plus(Counters(|orphans|, 0, Accounted(orphans)), c) == c
  {
  }

  lemma NoQueuesWeigh(queues: seq<Queue>)
    requires queues == []
    ensures Wrapped(TotalWeight(queues)) == Counters(0, 0, 0)
  {
  }

  lemma ExactIsTruthful(s: System)
    requires Exact(s)
    ensures Truthful(s)
  {
    EverythingWeighs(s);
    if s.orphans == [] {
      NoOrphansWeigh(s.orphans, TotalWeight(s.queues));
      if s.queues == [] {
        NoQueuesWeigh(s.queues);
      }
    }
  }

  /** However queues come, go and interleave, the counters never drift. */
  lemma CountersNeverDrift(labels: seq<Label>)
    requires Possible(Initial(), labels)
    ensures Truthful(After(Initial(), labels))
  {
    InitialExact();
    RunsAreExact(Initial(), labels);
    ExactIsTruthful(After(Initial(), labels));
  }
}
