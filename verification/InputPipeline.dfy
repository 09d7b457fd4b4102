/** Input end to end on Unix: the isolate's controller, the native write queue
    under the platform mutex, the reactor's flush loop and the event port, as
    one machine whose steps are the critical sections and system calls. */
module InputPipeline {
  import opened Wrappers
  import opened QueueSpec
  import I = InputSpec

  datatype Message = WriteComplete(id: nat) | WritableMessage | InputClosedMessage

  /** Where the reactor is: `out` says whether it asked poll about writing and,
      once polled, whether it may flush; with `more` it goes on flushing; after
      the `last` closing it ends. */
  datatype Pc =
    | Top
    | Polling(out: bool)
    | Polled(out: bool)
    | Flushing
    | Writing
    | Completing
    | Freeing
    | Checking(more: bool)
    | Waking(more: bool)
    | Failing
    | Closing(last: bool)
    | Announcing(last: bool)
    | Discarding
    | Dropping
    | Finished

  /** `written`, `lost` and `ends` are history: what the terminal took, whether
      anything accepted was thrown away, and where in the stream each accepted
      chunk ends. */
  datatype State = State(
    dart: I.Controller, owesWake: bool,
    queue: Queue, pressed: bool, inputClosed: bool, stopping: bool, abandoned: bool,
    port: seq<Message>, wake: bool, pc: Pc,
    written: seq<Byte>, lost: bool, ends: map<nat, nat>)

  datatype Turn = ToFlush | ToHangUp | ToExit | ToTop

  /** The isolate's steps, each native call one of them. */
  datatype DartLabel =
    | Submit(bytes: seq<Byte>)
    | Admit
    | Offer(memory: bool)
    | TryWrite(bytes: seq<Byte>, memory: bool)
    | CloseDart
    | Receive
    | WakeUp

  datatype ReactorLabel =
    | Snapshot
    | Leave
    | PollReturns(drained: bool)
    | Go(turn: Turn)
    | Dequeue
    | Write(n: nat)
    | Interrupted
    | WouldBlock
    | WriteFails
    | AllWritten
    | PostComplete(ok: bool)
    | Free
    | Check
    | PostWritable(ok: bool)
    | FreeFailed
    | MarkClosed
    | PostClosed(ok: bool)
    | Discard
    | Drop

  /** Stop is a close request, whoever makes it. */
  datatype Label = Dart(d: DartLabel) | Reactor(r: ReactorLabel) | Stop

  /** pty_session_try_write's answer. */
  function Answered(s: State, length: nat, memory: bool): WriteResult {
    if s.stopping || s.inputClosed then Closed else Answer(s.queue, length, memory)
  }

  /** Its effect on the native side. */
  function Offered(s: State, id: nat, bytes: seq<Byte>, result: WriteResult): State {
    match result
    case Accepted =>
      s.(queue := Enqueue(s.queue, Entry(id, bytes, 0)), owesWake := true,
         ends := s.ends[id := |s.dart.sent| + |bytes|])
    case Backpressured => s.(pressed := true)
    case _ => s
  }

  /** A failed post abandons the session; nothing is posted after that. */
  function Post(s: State, m: Message, ok: bool): (t: State)
    ensures t.dart == s.dart
  {
    if s.abandoned then s
    else if ok then s.(port := s.port + [m])
    else s.(abandoned := true)
  }

  function Chunk(c: I.Controller): seq<Byte>
    requires c.waiting != []
  {
    var r := c.waiting[0];
    var n := I.ChunkLength(c, r);
    if 0 <= n <= |r.data| - r.offset then r.data[r.offset..][..n] else []
  }

  function InHand(s: State): Entry
    requires s.queue.held != []
  {
    s.queue.held[0].entry
  }

  ghost predicate DartEnabled(s: State, l: DartLabel) {
    match l
    case Submit(bytes) => !s.owesWake && I.Enabled(s.dart, I.Submit(bytes))
    case Admit => !s.owesWake && I.Enabled(s.dart, I.Admit)
    case Offer(_) => !s.owesWake && I.Enabled(s.dart, I.Offer(Accepted))
    case TryWrite(bytes, _) => !s.owesWake && I.Enabled(s.dart, I.TryWrite(bytes, Accepted))
    case CloseDart => !s.owesWake
    case Receive => !s.owesWake && s.port != []
    case WakeUp => s.owesWake
  }

  predicate ReactorEnabled(s: State, l: ReactorLabel) {
    match l
    case Snapshot => s.pc == Top
    case Leave => s.pc == Top && s.stopping
    case PollReturns(_) => s.pc.Polling?
    case Go(turn) => s.pc.Polled? && (turn == ToFlush ==> s.pc.out)
    case Dequeue => s.pc == Flushing
    case Write(n) => s.pc == Writing && s.queue.held != [] && 0 < n <= InHand(s).Left()
    case Interrupted => s.pc == Writing
    case WouldBlock => s.pc == Writing && s.queue.held != [] && 0 < InHand(s).Left()
    case WriteFails => s.pc == Writing && s.queue.held != [] && 0 < InHand(s).Left()
    case AllWritten => s.pc == Writing && s.queue.held != [] && InHand(s).Left() == 0
    case PostComplete(_) => s.pc == Completing && s.queue.held != []
    case Free => s.pc == Freeing && s.queue.held != []
    case Check => s.pc.Checking?
    case PostWritable(_) => s.pc.Waking?
    case FreeFailed => s.pc == Failing && s.queue.held != []
    case MarkClosed => s.pc.Closing?
    case PostClosed(_) => s.pc.Announcing?
    case Discard => s.pc == Discarding
    case Drop => s.pc == Dropping && s.queue.held != []
  }

  ghost predicate Enabled(s: State, l: Label) {
    match l
    case Dart(d) => DartEnabled(s, d)
    case Reactor(r) => ReactorEnabled(s, r)
    case Stop => true
  }

  function OnMessage(c: I.Controller, m: Message): I.Controller {
    match m
    case WriteComplete(id) => I.Completed(c, id)
    case WritableMessage => if c.closed then c else c.(blocked := false)
    case InputClosedMessage => I.Closing(c)
  }

  ghost function Tendered(s: State, memory: bool): State
    requires DartEnabled(s, Offer(memory))
  {
    var result := Answered(s, |Chunk(s.dart)|, memory);
    Offered(s, I.OfferId(s.dart, s.dart.waiting[0]), Chunk(s.dart), result).(dart := I.Offered(s.dart, result))
  }

  function Tried(s: State, bytes: seq<Byte>, memory: bool): State {
    var result := Answered(s, |bytes|, memory);
    Offered(s, s.dart.nextId, bytes, result).(dart := I.Tried(s.dart, bytes, result))
  }

  ghost function DartNext(s: State, l: DartLabel): State
    requires DartEnabled(s, l)
  {
    match l
    case Submit(bytes) => s.(dart := I.Submitted(s.dart, bytes))
    case Admit => s.(dart := I.Next(s.dart, I.Admit))
    case Offer(memory) => Tendered(s, memory)
    case TryWrite(bytes, memory) => Tried(s, bytes, memory)
    case CloseDart => s.(dart := I.Closing(s.dart))
    case Receive => s.(dart := OnMessage(s.dart, s.port[0]), port := s.port[1..])
    case WakeUp => s.(owesWake := false, wake := true)
  }

  function Moved(s: State, pc: Pc): (t: State)
    ensures t.dart == s.dart
  {
    s.(pc := pc)
  }

  function TookChunk(s: State, pc: Pc): (t: State)
    requires s.queue.queued != []
    ensures t.dart == s.dart
  {
    s.(queue := QueueSpec.Dequeue(s.queue), pc := pc)
  }

  function Wrote(s: State, n: nat): (t: State)
    requires s.queue.held != [] && n <= InHand(s).Left()
    ensures t.dart == s.dart
  {
    s.(queue := Advance(s.queue, 0, n), written := s.written + InHand(s).Rest()[..n])
  }

  function PutBack(s: State): (t: State)
    requires s.queue.held != []
    ensures t.dart == s.dart
  {
    s.(queue := RequeueFront(s.queue, 0), pc := Checking(false))
  }

  function Freed(s: State): (t: State)
    requires s.queue.held != []
    ensures t.dart == s.dart
  {
    s.(queue := Complete(s.queue, 0), pc := Checking(true))
  }

  function Lost(s: State, pc: Pc): (t: State)
    requires s.queue.held != []
    ensures t.dart == s.dart
  {
    s.(queue := Complete(s.queue, 0), lost := true, pc := pc)
  }

  function Posted(s: State, m: Message, ok: bool, pc: Pc): (t: State)
    ensures t.dart == s.dart
  {
    Post(s, m, ok).(pc := pc)
  }

  function Relieved(s: State): (t: State)
    requires s.pc.Checking?
    ensures t.dart == s.dart
  {
    s.(pressed := false, pc := Waking(s.pc.more))
  }

  function Sealed(s: State): (t: State)
    requires s.pc.Closing?
    ensures t.dart == s.dart
  {
    s.(inputClosed := true, pc := Announcing(s.pc.last))
  }

  function Resume(more: bool): Pc {
    if more then Flushing else Polled(false)
  }

  function Sequel(last: bool): Pc {
    if last then Finished else Discarding
  }

  function Branch(turn: Turn): Pc {
    match turn
    case ToFlush => Flushing
    case ToHangUp => Closing(false)
    case ToExit => Closing(true)
    case ToTop => Top
  }

  function ReactorNext(s: State, l: ReactorLabel): (t: State)
    requires ReactorEnabled(s, l)
    ensures t.dart == s.dart
  {
    match l
    case Snapshot => Moved(s, Polling(s.queue.queued != []))
    case Leave => Moved(s, Closing(true))
    case PollReturns(drained) => Moved(s.(wake := s.wake && !drained), Polled(s.pc.out))
    case Go(turn) => Moved(s, Branch(turn))
    case Dequeue => if s.queue.queued == [] then Moved(s, Polled(false)) else TookChunk(s, Writing)
    case Write(n) => Wrote(s, n)
    case Interrupted => s
    case WouldBlock => PutBack(s)
    case WriteFails => Moved(s, Failing)
    case AllWritten => Moved(s, Completing)
    case PostComplete(ok) => Posted(s, WriteComplete(InHand(s).id), ok, Freeing)
    case Free => Freed(s)
    case Check =>
      if s.pressed && Pending(s.queue) <= s.queue.limit / 2 then Relieved(s) else Moved(s, Resume(s.pc.more))
    case PostWritable(ok) => Posted(s, WritableMessage, ok, Resume(s.pc.more))
    case FreeFailed => Lost(s, Closing(false))
    case MarkClosed => if s.inputClosed then Moved(s, Sequel(s.pc.last)) else Sealed(s)
    case PostClosed(ok) => Posted(s, InputClosedMessage, ok, Sequel(s.pc.last))
    case Discard => if s.queue.queued == [] then Moved(s, Polled(false)) else TookChunk(s, Dropping)
    case Drop => Lost(s, Discarding)
  }

  ghost function Next(s: State, l: Label): State
    requires Enabled(s, l)
  {
    match l
    case Dart(d) => DartNext(s, d)
    case Reactor(r) => ReactorNext(s, r)
    case Stop => s.(stopping := true)
  }

  function Initial(limit: nat, maxChunk: nat): State {
    State(I.Initial(maxChunk, limit), false, Queue(limit, [], []), false, false, false, false,
          [], false, Top, [], false, map[])
  }

  // ------------------------------------------------------- the invariants

  function Chunks(s: State): seq<Entry> {
    (if s.queue.held == [] then [] else [s.queue.held[0].entry]) + s.queue.queued
  }

  function Rests(entries: seq<Entry>): seq<Byte> {
    if entries == [] then [] else entries[0].Rest() + Rests(entries[1..])
  }

  predicate HoldsOne(pc: Pc) {
    pc == Writing || pc == Completing || pc == Freeing || pc == Failing || pc == Dropping
  }

  /** One chunk is out of the queue exactly while the reactor works on it, and
      both ends of the pipeline share the limit. */
  predicate Native(s: State) {
    && Bounded(s.queue) && s.queue.limit == s.dart.maxPending
    && |s.queue.held| == (if HoldsOne(s.pc) then 1 else 0)
    && (forall e <- s.queue.queued :: e.Left() > 0)
    && (s.pc == Completing || s.pc == Freeing ==> InHand(s).Left() == 0)
    && (s.pc == Failing ==> InHand(s).Left() > 0)
  }

  /** Whatever was thrown away, nothing is written after it. */
  predicate Sealing(s: State) {
    && (s.pc.Announcing? || s.pc == Discarding || s.pc == Dropping || s.pc == Finished ==> s.inputClosed)
    && (s.lost ==>
          || s.pc == Closing(false)
          || (s.inputClosed && (s.pc == Announcing(false) || s.pc == Discarding || s.pc == Dropping))
          || (s.inputClosed && s.queue.queued == [] && s.queue.held == []))
  }

  /** Nothing accepted is missing, doubled or out of order. */
  predicate Content(s: State) {
    && s.written <= s.dart.sent
    && (!s.lost ==> s.written + Rests(Chunks(s)) == s.dart.sent)
  }

  /** Each chunk ends where `ends` says, counted from what is written. */
  predicate Positions(entries: seq<Entry>, base: nat, ends: map<nat, nat>) {
    entries == [] || (
      && entries[0].id in ends && ends[entries[0].id] == base + entries[0].Left()
      && Positions(entries[1..], base + entries[0].Left(), ends))
  }

  /** No number in use is handed out again, and Dart's pieces are known. */
  predicate Numbered(s: State) {
    && (forall id <- s.ends :: id < s.dart.nextId)
    && (s.dart.waiting != [] && s.dart.waiting[0].retry.Some? ==> s.dart.waiting[0].retry.value !in s.ends)
    && (forall p <- s.dart.inflight :: p.id in s.ends && s.ends[p.id] == p.end)
  }

  /** What Dart is told is written has been written. */
  predicate Truthful(s: State) {
    && (forall m <- s.port | m.WriteComplete? :: m.id in s.ends && s.ends[m.id] <= |s.written|)
    && s.dart.acked <= |s.written|
    && (!s.lost ==> Positions(Chunks(s), |s.written|, s.ends))
  }

  predicate Alive(s: State) {
    !s.dart.closed && !s.stopping && !s.inputClosed && !s.abandoned
  }

  /** While Dart waits for WRITABLE, one is in the port or about to be posted,
      or input is about to be closed, or the native side still has to notice
      and something is left to do that will make it. */
  predicate WillWake(s: State) {
    Alive(s) && s.dart.blocked ==>
      || WritableMessage in s.port
      || s.pc.Waking? || s.pc.Closing?
      || (s.pressed && (Pending(s.queue) > 0 || s.pc.Checking?))
  }

  /** A reactor asleep without interest in writing has nothing to write, or a
      wake-up is coming. */
  predicate WillFlush(s: State) {
    s.pc == Polling(false) && s.queue.queued != [] ==> s.wake || s.owesWake
  }

  /** Everything but the controller's own invariant. */
  predicate Linked(s: State) {
    Native(s) && Sealing(s) && Content(s) && Numbered(s) && Truthful(s) && WillWake(s) && WillFlush(s)
  }

  predicate Inv(s: State) {
    I.Inv(s.dart) && Linked(s)
  }

  // ------------------------------------------------------- the reactor

  lemma OneHeld(h: Held)
    ensures Accounted([h]) == h.accounted && Accounted([]) == 0
  {
    assert [h][1..] == [];
  }

  lemma DequeueBounded(q: Queue)
    requires Bounded(q) && q.held == [] && q.queued != []
    ensures Bounded(QueueSpec.Dequeue(q)) && Pending(QueueSpec.Dequeue(q)) == Pending(q)
    ensures |QueueSpec.Dequeue(q).held| == 1
  {
    OneHeld(Held(q.queued[0], q.queued[0].Left()));
    assert QueueSpec.Dequeue(q).held == [Held(q.queued[0], q.queued[0].Left())];
  }

  lemma HeldBounded(q: Queue)
    requires Bounded(q) && |q.held| == 1
    ensures Bounded(Complete(q, 0)) && Pending(Complete(q, 0)) + q.held[0].accounted == Pending(q)
    ensures Complete(q, 0).held == []
    ensures Bounded(RequeueFront(q, 0)) && Pending(RequeueFront(q, 0)) >= q.held[0].entry.Left()
    ensures RequeueFront(q, 0).held == []
    ensures forall n: nat | n <= q.held[0].entry.Left() :: Bounded(Advance(q, 0, n)) && |Advance(q, 0, n).held| == 1
  {
    assert q.held == [q.held[0]];
    OneHeld(q.held[0]);
    assert RequeueFront(q, 0).queued[1..] == q.queued;
    forall n: nat | n <= q.held[0].entry.Left()
      ensures Bounded(Advance(q, 0, n)) && |Advance(q, 0, n).held| == 1
    {
      var q' := Advance(q, 0, n);
      assert q'.held == [q'.held[0]];
      OneHeld(q'.held[0]);
    }
  }

  /** A step that only moves on. */
  lemma MoveKeeps(s: State, pc: Pc)
    requires Linked(s) && HoldsOne(pc) == HoldsOne(s.pc) && Sealing(Moved(s, pc))
    requires pc == Completing ==> InHand(s).Left() == 0
    requires pc == Failing ==> InHand(s).Left() > 0
    requires pc != Freeing && !s.pc.Waking? && (s.pc.Closing? ==> s.inputClosed)
    requires s.pc.Checking? && s.pressed ==> Pending(s.queue) > 0
    requires pc == Polling(false) ==> s.queue.queued == []
    ensures Linked(Moved(s, pc))
  {
    assert Chunks(Moved(s, pc)) == Chunks(s);
  }

  lemma TakeKeeps(s: State, pc: Pc)
    requires Linked(s) && s.queue.held == [] && s.queue.queued != []
    requires (s.pc == Flushing && pc == Writing) || (s.pc == Discarding && pc == Dropping)
    ensures Linked(TookChunk(s, pc))
  {
    DequeueBounded(s.queue);
    assert Chunks(TookChunk(s, pc)) == Chunks(s);
  }

  lemma RestsFirst(e: Entry, entries: seq<Entry>)
    ensures Rests([e] + entries) == e.Rest() + Rests(entries)
  {
    assert ([e] + entries)[1..] == entries;
  }

  lemma PositionsFirst(e: Entry, entries: seq<Entry>, base: nat, ends: map<nat, nat>)
    ensures Positions([e] + entries, base, ends) <==>
              e.id in ends && ends[e.id] == base + e.Left() && Positions(entries, base + e.Left(), ends)
  {
    assert ([e] + entries)[1..] == entries;
  }

  /** The chunk in hand comes before the queue. */
  lemma HandFirst(s: State)
    requires s.queue.held != []
    ensures Rests(Chunks(s)) == InHand(s).Rest() + Rests(s.queue.queued)
    ensures Positions(Chunks(s), |s.written|, s.ends) <==>
              && InHand(s).id in s.ends && s.ends[InHand(s).id] == |s.written| + InHand(s).Left()
              && Positions(s.queue.queued, |s.written| + InHand(s).Left(), s.ends)
  {
    RestsFirst(InHand(s), s.queue.queued);
    PositionsFirst(InHand(s), s.queue.queued, |s.written|, s.ends);
  }

  lemma WriteMovesBytes(s: State, n: nat)
    requires s.queue.held != [] && n <= InHand(s).Left()
    ensures Wrote(s, n).written + Rests(Chunks(Wrote(s, n))) == s.written + Rests(Chunks(s))
    ensures Positions(Chunks(s), |s.written|, s.ends) ==> Positions(Chunks(Wrote(s, n)), |s.written| + n, s.ends)
  {
    var e, rest := InHand(s), s.queue.queued;
    var e' := e.(offset := e.offset + n);
    assert Chunks(Wrote(s, n)) == [e'] + rest;
    AdvanceMovesBytes(e, n, s.written, Rests(rest));
    RestsFirst(e, rest);
    RestsFirst(e', rest);
    AdvanceMovesEnds(e, e', rest, |s.written|, n, s.ends);
  }

  lemma AdvanceMovesEnds(e: Entry, e': Entry, rest: seq<Entry>, base: nat, n: nat, ends: map<nat, nat>)
    requires e'.id == e.id && n <= e.Left() && e'.Left() == e.Left() - n
    ensures Positions([e] + rest, base, ends) ==> Positions([e'] + rest, base + n, ends)
  {
    PositionsFirst(e, rest, base, ends);
    PositionsFirst(e', rest, base + n, ends);
  }

  lemma Regroup(a: seq<Byte>, b: seq<Byte>, c: seq<Byte>, d: seq<Byte>)
    ensures a + b + (c + d) == a + ((b + c) + d)
  {
  }

  lemma AdvanceMovesBytes(e: Entry, n: nat, written: seq<Byte>, rest: seq<Byte>)
    requires n <= e.Left()
    ensures var e' := e.(offset := e.offset + n);
            && e'.Left() == e.Left() - n
            && written + e.Rest()[..n] + (e'.Rest() + rest) == written + (e.Rest() + rest)
  {
    var e' := e.(offset := e.offset + n);
    if e.offset <= |e.bytes| {
      assert e'.Rest() == e.Rest()[n..];
    }
    assert e.Rest() == e.Rest()[..n] + e'.Rest();
    Regroup(written, e.Rest()[..n], e'.Rest(), rest);
  }

  lemma WriteKeepsBytes(s: State, n: nat)
    requires Native(s) && Sealing(s) && Content(s) && Truthful(s) && s.pc == Writing && n <= InHand(s).Left()
    ensures Content(Wrote(s, n)) && Truthful(Wrote(s, n))
  {
    WriteMovesBytes(s, n);
  }

  lemma WriteKeeps(s: State, n: nat)
    requires Linked(s) && s.pc == Writing && n <= InHand(s).Left()
    ensures Linked(Wrote(s, n))
  {
    HeldBounded(s.queue);
    HeldAfterAdvance(s.queue, n);
    WriteKeepsBytes(s, n);
  }

  lemma HeldAfterAdvance(q: Queue, n: nat)
    requires |q.held| == 1 && n <= q.held[0].entry.Left()
    ensures Pending(Advance(q, 0, n)) == Pending(q)
  {
    AccountedUpdate(q.held, 0, Advance(q, 0, n).held[0]);
  }

  lemma PutBackKeeps(s: State)
    requires Linked(s) && s.pc == Writing && 0 < InHand(s).Left()
    ensures Linked(PutBack(s))
  {
    HeldBounded(s.queue);
    assert Chunks(PutBack(s)) == Chunks(s);
  }

  lemma FreeLeavesQueue(s: State)
    requires s.queue.held != [] && |s.queue.held| == 1 && InHand(s).Left() == 0
    ensures Chunks(Freed(s)) == s.queue.queued && Rests(Chunks(s)) == Rests(s.queue.queued)
    ensures Positions(Chunks(s), |s.written|, s.ends) ==> Positions(s.queue.queued, |s.written|, s.ends)
  {
    HandFirst(s);
    assert Complete(s.queue, 0).held == [];
    assert InHand(s).Rest() == [];
  }

  lemma FreeKeepsBytes(s: State)
    requires Native(s) && Content(s) && Truthful(s) && s.pc == Freeing
    ensures Content(Freed(s)) && Truthful(Freed(s))
  {
    FreeLeavesQueue(s);
  }

  lemma FreeKeeps(s: State)
    requires Linked(s) && s.pc == Freeing
    ensures Linked(Freed(s))
  {
    HeldBounded(s.queue);
    FreeKeepsBytes(s);
  }

  lemma LoseKeeps(s: State, pc: Pc)
    requires Linked(s) && ((s.pc == Failing && pc == Closing(false)) || (s.pc == Dropping && pc == Discarding))
    ensures Linked(Lost(s, pc))
  {
    HeldBounded(s.queue);
  }

  predicate PostStep(s: State, m: Message, pc: Pc) {
    || (s.pc == Completing && pc == Freeing && s.queue.held != [] && m == WriteComplete(InHand(s).id))
    || (s.pc.Waking? && pc == Resume(s.pc.more) && m == WritableMessage)
    || (s.pc.Announcing? && pc == Sequel(s.pc.last) && m == InputClosedMessage)
  }

  lemma DeliverKeeps(s: State, m: Message, pc: Pc)
    requires Linked(s) && HoldsOne(pc) == HoldsOne(s.pc) && Sealing(Moved(s, pc)) && PostStep(s, m, pc)
    ensures Linked(s.(port := s.port + [m], pc := pc))
  {
    assert Chunks(s.(port := s.port + [m], pc := pc)) == Chunks(s);
    if s.queue.held != [] {
      HandFirst(s);
    }
  }

  lemma MuteKeeps(s: State, m: Message, pc: Pc)
    requires Linked(s) && HoldsOne(pc) == HoldsOne(s.pc) && Sealing(Moved(s, pc)) && PostStep(s, m, pc)
    ensures Linked(s.(abandoned := true, pc := pc))
  {
    assert Chunks(s.(abandoned := true, pc := pc)) == Chunks(s);
  }

  lemma PostKeeps(s: State, m: Message, ok: bool, pc: Pc)
    requires Linked(s) && HoldsOne(pc) == HoldsOne(s.pc) && Sealing(Moved(s, pc)) && PostStep(s, m, pc)
    ensures Linked(Posted(s, m, ok, pc))
  {
    if s.abandoned || !ok {
      MuteKeeps(s, m, pc);
      assert s.abandoned ==> Posted(s, m, ok, pc) == s.(abandoned := true, pc := pc);
    } else {
      DeliverKeeps(s, m, pc);
    }
  }

  lemma RelieveKeeps(s: State)
    requires Linked(s) && s.pc.Checking?
    ensures Linked(Relieved(s))
  {
    assert Chunks(Relieved(s)) == Chunks(s);
  }

  lemma SealKeeps(s: State)
    requires Linked(s) && s.pc.Closing?
    ensures Linked(Sealed(s))
  {
    assert Chunks(Sealed(s)) == Chunks(s);
  }

  lemma PollKeeps(s: State, drained: bool)
    requires Linked(s) && s.pc.Polling?
    ensures Linked(Moved(s.(wake := s.wake && !drained), Polled(s.pc.out)))
  {
    assert Chunks(Moved(s.(wake := s.wake && !drained), Polled(s.pc.out))) == Chunks(s);
  }

  // One lemma a label, each about what that label does.

  lemma SnapshotKeeps(s: State)
    requires Linked(s) && s.pc == Top
    ensures Linked(ReactorNext(s, Snapshot))
  {
    MoveKeeps(s, Polling(s.queue.queued != []));
  }

  lemma LeaveKeeps(s: State)
    requires Linked(s) && s.pc == Top && s.stopping
    ensures Linked(ReactorNext(s, Leave))
  {
    MoveKeeps(s, Closing(true));
  }

  lemma GoKeeps(s: State, turn: Turn)
    requires Linked(s) && ReactorEnabled(s, Go(turn))
    ensures Linked(ReactorNext(s, Go(turn)))
  {
    MoveKeeps(s, Branch(turn));
  }

  lemma DequeueKeeps(s: State)
    requires Linked(s) && s.pc == Flushing
    ensures Linked(ReactorNext(s, Dequeue))
  {
    if s.queue.queued == [] {
      MoveKeeps(s, Polled(false));
    } else {
      TakeKeeps(s, Writing);
    }
  }

  lemma DiscardKeeps(s: State)
    requires Linked(s) && s.pc == Discarding
    ensures Linked(ReactorNext(s, Discard))
  {
    if s.queue.queued == [] {
      MoveKeeps(s, Polled(false));
    } else {
      TakeKeeps(s, Dropping);
    }
  }

  lemma EndOfWriteKeeps(s: State, l: ReactorLabel)
    requires Linked(s) && ReactorEnabled(s, l) && (l == WriteFails || l == AllWritten)
    ensures Linked(ReactorNext(s, l))
  {
    MoveKeeps(s, if l == WriteFails then Failing else Completing);
  }

  lemma CheckKeeps(s: State)
    requires Linked(s) && s.pc.Checking?
    ensures Linked(ReactorNext(s, Check))
  {
    if s.pressed && Pending(s.queue) <= s.queue.limit / 2 {
      RelieveKeeps(s);
    } else {
      MoveKeeps(s, Resume(s.pc.more));
    }
  }

  lemma MarkKeeps(s: State)
    requires Linked(s) && s.pc.Closing?
    ensures Linked(ReactorNext(s, MarkClosed))
  {
    if s.inputClosed {
      MoveKeeps(s, Sequel(s.pc.last));
    } else {
      SealKeeps(s);
    }
  }

  lemma PostWritableKeeps(s: State, ok: bool)
    requires Linked(s) && s.pc.Waking?
    ensures Linked(Posted(s, WritableMessage, ok, Resume(s.pc.more)))
  {
    PostKeeps(s, WritableMessage, ok, Resume(s.pc.more));
  }

  lemma PostClosedKeeps(s: State, ok: bool)
    requires Linked(s) && s.pc.Announcing?
    ensures Linked(Posted(s, InputClosedMessage, ok, Sequel(s.pc.last)))
  {
    PostKeeps(s, InputClosedMessage, ok, Sequel(s.pc.last));
  }

  lemma PostCompleteKeeps(s: State, ok: bool)
    requires Linked(s) && s.pc == Completing
    ensures s.queue.held != [] && Linked(Posted(s, WriteComplete(InHand(s).id), ok, Freeing))
  {
    PostKeeps(s, WriteComplete(InHand(s).id), ok, Freeing);
  }

  lemma ReactorKeeps(s: State, l: ReactorLabel)
    requires Linked(s) && ReactorEnabled(s, l)
    ensures Linked(ReactorNext(s, l))
  {
    match l
    case Snapshot => SnapshotKeeps(s);
    case Leave => LeaveKeeps(s);
    case PollReturns(drained) => PollKeeps(s, drained);
    case Go(turn) => GoKeeps(s, turn);
    case Dequeue => DequeueKeeps(s);
    case Write(n) => WriteKeeps(s, n);
    case Interrupted =>
    case WouldBlock => PutBackKeeps(s);
    case WriteFails => EndOfWriteKeeps(s, l);
    case AllWritten => EndOfWriteKeeps(s, l);
    case PostComplete(ok) => PostCompleteKeeps(s, ok);
    case Free => FreeKeeps(s);
    case Check => CheckKeeps(s);
    case PostWritable(ok) => PostWritableKeeps(s, ok);
    case FreeFailed => LoseKeeps(s, Closing(false));
    case MarkClosed => MarkKeeps(s);
    case PostClosed(ok) => PostClosedKeeps(s, ok);
    case Discard => DiscardKeeps(s);
    case Drop => LoseKeeps(s, Discarding);
  }

  // ------------------------------------------------------- the isolate

  /** A step of the controller that hands nothing over. */
  lemma QuietKeeps(s: State, d: I.Controller)
    requires Linked(s) && d.maxPending == s.dart.maxPending && d.sent == s.dart.sent && d.acked == s.dart.acked
    requires d.nextId >= s.dart.nextId && forall p <- d.inflight :: p in s.dart.inflight
    requires d.waiting != [] && d.waiting[0].retry.Some? ==> d.waiting[0].retry.value !in s.ends
    requires !d.closed && d.blocked ==> !s.dart.closed && s.dart.blocked
    ensures Linked(s.(dart := d))
  {
    assert Chunks(s.(dart := d)) == Chunks(s);
  }

  lemma {:induction false} RestsConcat(a: seq<Entry>, b: seq<Entry>)
    ensures Rests(a + b) == Rests(a) + Rests(b)
  {
    if a == [] {
      assert a + b == b;
    } else {
      assert (a + b)[1..] == a[1..] + b;
      RestsConcat(a[1..], b);
    }
  }

  lemma {:induction false} PositionsGrow(entries: seq<Entry>, e: Entry, base: nat, ends: map<nat, nat>)
    requires Positions(entries, base, ends) && e.id !in ends
    ensures Positions(entries + [e], base, ends[e.id := base + |Rests(entries)| + e.Left()])
  {
    if entries == [] {
      assert [e][1..] == [];
      assert entries + [e] == [e];
    } else {
      assert (entries + [e])[1..] == entries[1..] + [e];
      PositionsGrow(entries[1..], e, base + entries[0].Left(), ends);
    }
  }

  /** What the controller does when a chunk of its is accepted. */
  ghost predicate Sends(c: I.Controller, d: I.Controller, id: nat, bytes: seq<Byte>) {
    && d.maxPending == c.maxPending && d.sent == c.sent + bytes && d.acked == c.acked
    && c.nextId <= d.nextId && id < d.nextId && d.closed == c.closed && d.blocked == c.blocked
    && (forall p <- d.inflight :: p in c.inflight || (p.id == id && p.end == |c.sent| + |bytes|))
    && (d.waiting != [] ==> d.waiting[0].retry.None?)
  }

  function Accept(s: State, id: nat, bytes: seq<Byte>): State {
    Offered(s, id, bytes, Accepted)
  }

  lemma AcceptAppends(s: State, id: nat, bytes: seq<Byte>, d: I.Controller)
    ensures Chunks(Accept(s, id, bytes).(dart := d)) == Chunks(s) + [Entry(id, bytes, 0)]
    ensures Rests(Chunks(s) + [Entry(id, bytes, 0)]) == Rests(Chunks(s)) + bytes
  {
    var e := Entry(id, bytes, 0);
    assert Chunks(Accept(s, id, bytes).(dart := d)) == Chunks(s) + [e];
    RestsConcat(Chunks(s), [e]);
    assert e.Rest() == bytes;
    assert [e][1..] == [];
  }

  lemma AcceptKeepsContent(s: State, id: nat, bytes: seq<Byte>, d: I.Controller)
    requires Content(s) && Sends(s.dart, d, id, bytes)
    ensures Content(Accept(s, id, bytes).(dart := d))
  {
    AcceptAppends(s, id, bytes, d);
  }

  lemma AcceptKeepsTruth(s: State, id: nat, bytes: seq<Byte>, d: I.Controller)
    requires Content(s) && Truthful(s) && id !in s.ends && Sends(s.dart, d, id, bytes)
    ensures Truthful(Accept(s, id, bytes).(dart := d))
  {
    AcceptAppends(s, id, bytes, d);
    if !s.lost {
      PositionsGrow(Chunks(s), Entry(id, bytes, 0), |s.written|, s.ends);
    }
  }

  lemma AcceptKeeps(s: State, id: nat, bytes: seq<Byte>, d: I.Controller)
    requires Linked(s) && id !in s.ends && bytes != [] && Sends(s.dart, d, id, bytes)
    requires !s.inputClosed && Admits(s.queue, |bytes|)
    ensures Linked(Accept(s, id, bytes).(dart := d))
  {
    AcceptKeepsContent(s, id, bytes, d);
    AcceptKeepsTruth(s, id, bytes, d);
    BytesConcat(s.queue.queued, [Entry(id, bytes, 0)]);
    assert [Entry(id, bytes, 0)][1..] == [];
  }

  lemma PressKeeps(s: State, d: I.Controller)
    requires Linked(s) && d.maxPending == s.dart.maxPending && d.sent == s.dart.sent && d.acked == s.dart.acked
    requires d.nextId >= s.dart.nextId && forall p <- d.inflight :: p in s.dart.inflight
    requires d.waiting != [] && d.waiting[0].retry.Some? ==> d.waiting[0].retry.value !in s.ends
    requires Pending(s.queue) > 0
    ensures Linked(s.(pressed := true, dart := d))
  {
    assert Chunks(s.(pressed := true, dart := d)) == Chunks(s);
  }

  /** The chunk a `write` offers next, and the number it goes under. */
  lemma ChunkFacts(c: I.Controller)
    requires I.Inv(c) && I.Enabled(c, I.Offer(Accepted))
    ensures 0 < |Chunk(c)| == I.ChunkLength(c, c.waiting[0]) <= c.maxPending
    ensures forall result :: I.Offered(c, result).maxPending == c.maxPending
  {
    I.OfferedPrefix(c);
  }

  lemma FreshNumber(s: State, c: I.Controller)
    requires Numbered(s) && c == s.dart && c.waiting != []
    ensures I.OfferId(c, c.waiting[0]) !in s.ends
  {
  }

  lemma AcceptedOfferKeeps(s: State, memory: bool)
    requires I.Inv(s.dart) && Linked(s) && DartEnabled(s, Offer(memory))
    requires Answered(s, |Chunk(s.dart)|, memory) == Accepted
    ensures Linked(Tendered(s, memory))
  {
    ChunkFacts(s.dart);
    FreshNumber(s, s.dart);
    OfferSends(s.dart);
    AcceptKeeps(s, I.OfferId(s.dart, s.dart.waiting[0]), Chunk(s.dart), I.Offered(s.dart, Accepted));
  }

  /** A refused chunk keeps its number; for lack of room there must be bytes
      in the way. */
  lemma RefusedOfferKeeps(s: State, memory: bool)
    requires I.Inv(s.dart) && Linked(s) && DartEnabled(s, Offer(memory))
    requires Answered(s, |Chunk(s.dart)|, memory) != Accepted
    ensures Linked(Tendered(s, memory))
  {
    ChunkFacts(s.dart);
    FreshNumber(s, s.dart);
    var result := Answered(s, |Chunk(s.dart)|, memory);
    if result == Backpressured {
      PressKeeps(s, I.Offered(s.dart, result));
    } else {
      QuietKeeps(s, I.Offered(s.dart, result));
    }
  }

  lemma OfferKeeps(s: State, memory: bool)
    requires I.Inv(s.dart) && Linked(s) && DartEnabled(s, Offer(memory))
    ensures Linked(Tendered(s, memory))
  {
    if Answered(s, |Chunk(s.dart)|, memory) == Accepted {
      AcceptedOfferKeeps(s, memory);
    } else {
      RefusedOfferKeeps(s, memory);
    }
  }

  lemma OfferSends(c: I.Controller)
    requires I.Inv(c) && I.Enabled(c, I.Offer(Accepted))
    ensures Sends(c, I.Offered(c, Accepted), I.OfferId(c, c.waiting[0]), Chunk(c))
  {
    ChunkFacts(c);
  }

  lemma TrySends(c: I.Controller, bytes: seq<Byte>)
    requires I.Inv(c) && I.Enabled(c, I.TryWrite(bytes, Accepted))
    ensures Sends(c, I.Tried(c, bytes, Accepted), c.nextId, bytes)
    ensures 0 < |bytes| <= c.maxPending
  {
  }

  lemma AcceptedTryKeeps(s: State, bytes: seq<Byte>, memory: bool)
    requires I.Inv(s.dart) && Linked(s) && DartEnabled(s, TryWrite(bytes, memory))
    requires Answered(s, |bytes|, memory) == Accepted
    ensures Linked(Tried(s, bytes, memory))
  {
    TrySends(s.dart, bytes);
    AcceptKeeps(s, s.dart.nextId, bytes, I.Tried(s.dart, bytes, Accepted));
  }

  lemma RefusedTryKeeps(s: State, bytes: seq<Byte>, memory: bool)
    requires I.Inv(s.dart) && Linked(s) && DartEnabled(s, TryWrite(bytes, memory))
    requires Answered(s, |bytes|, memory) != Accepted
    ensures Linked(Tried(s, bytes, memory))
  {
    TrySends(s.dart, bytes);
    var result := Answered(s, |bytes|, memory);
    if result == Backpressured {
      PressKeeps(s, I.Tried(s.dart, bytes, result));
    } else {
      QuietKeeps(s, I.Tried(s.dart, bytes, result));
    }
  }

  lemma TryWriteKeeps(s: State, bytes: seq<Byte>, memory: bool)
    requires I.Inv(s.dart) && Linked(s) && DartEnabled(s, TryWrite(bytes, memory))
    ensures Linked(Tried(s, bytes, memory))
  {
    if Answered(s, |bytes|, memory) == Accepted {
      AcceptedTryKeeps(s, bytes, memory);
    } else {
      RefusedTryKeeps(s, bytes, memory);
    }
  }

  lemma SubmitKeeps(s: State, bytes: seq<Byte>)
    requires I.Inv(s.dart) && Linked(s) && DartEnabled(s, Submit(bytes))
    ensures Linked(DartNext(s, Submit(bytes)))
  {
    QuietKeeps(s, I.Submitted(s.dart, bytes));
  }

  lemma AdmitKeeps(s: State)
    requires I.Inv(s.dart) && Linked(s) && DartEnabled(s, Admit)
    ensures Linked(DartNext(s, Admit))
  {
    QuietKeeps(s, I.Next(s.dart, I.Admit));
  }

  lemma CloseKeeps(s: State)
    requires Linked(s)
    ensures Linked(s.(dart := I.Closing(s.dart)))
  {
    QuietKeeps(s, I.Closing(s.dart));
  }

  lemma WakeKeeps(s: State)
    requires Linked(s) && s.owesWake
    ensures Linked(s.(owesWake := false, wake := true))
  {
    assert Chunks(s.(owesWake := false, wake := true)) == Chunks(s);
  }

  lemma StopKeeps(s: State)
    requires Linked(s)
    ensures Linked(s.(stopping := true))
  {
    assert Chunks(s.(stopping := true)) == Chunks(s);
  }

  lemma DropMessageKeeps(s: State)
    requires Linked(s) && s.port != [] && !s.port[0].WritableMessage?
    ensures Linked(s.(port := s.port[1..]))
  {
    assert Chunks(s.(port := s.port[1..])) == Chunks(s);
    assert s.port == [s.port[0]] + s.port[1..];
  }

  /** WRITABLE unblocks the controller in the same step. */
  lemma WritableKeeps(s: State)
    requires Linked(s) && s.port != [] && s.port[0].WritableMessage?
    ensures Linked(s.(dart := OnMessage(s.dart, WritableMessage), port := s.port[1..]))
  {
    assert Chunks(s.(dart := OnMessage(s.dart, WritableMessage), port := s.port[1..])) == Chunks(s);
  }

  /** What WRITE_COMPLETE tells the controller is true. */
  lemma CompletedKeeps(s: State, id: nat)
    requires I.Inv(s.dart) && Linked(s) && id in s.ends && s.ends[id] <= |s.written|
    ensures Linked(s.(dart := I.Completed(s.dart, id)))
  {
    var i := I.IndexOf(s.dart.inflight, id);
    if i < |s.dart.inflight| {
      I.WithoutOne(s.dart.inflight, i);
      assert s.dart.inflight[i] in s.dart.inflight;
      CompletedIsTrue(s, id, I.Completed(s.dart, id));
    }
  }

  lemma CompletedIsTrue(s: State, id: nat, d: I.Controller)
    requires Linked(s) && id in s.ends && s.ends[id] <= |s.written|
    requires d.maxPending == s.dart.maxPending && d.sent == s.dart.sent && d.nextId == s.dart.nextId
    requires d.acked <= s.dart.acked || d.acked == s.ends[id]
    requires forall p <- d.inflight :: p in s.dart.inflight
    requires d.waiting != [] ==> s.dart.waiting != [] && d.waiting[0].retry == s.dart.waiting[0].retry
    requires d.closed == s.dart.closed && d.blocked == s.dart.blocked
    ensures Linked(s.(dart := d))
  {
    assert Chunks(s.(dart := d)) == Chunks(s);
  }

  lemma ReceiveKeeps(s: State)
    requires I.Inv(s.dart) && Linked(s) && DartEnabled(s, Receive)
    ensures Linked(DartNext(s, Receive))
  {
    var m := s.port[0];
    match m
    case WriteComplete(id) =>
      assert m in s.port;
      DropMessageKeeps(s);
      CompletedKeeps(s.(port := s.port[1..]), id);
    case WritableMessage => WritableKeeps(s);
    case InputClosedMessage =>
      DropMessageKeeps(s);
      CloseKeeps(s.(port := s.port[1..]));
  }

  lemma DartKeeps(s: State, l: DartLabel)
    requires I.Inv(s.dart) && Linked(s) && DartEnabled(s, l)
    ensures Linked(DartNext(s, l))
  {
    match l
    case Submit(bytes) => SubmitKeeps(s, bytes);
    case Admit => AdmitKeeps(s);
    case Offer(memory) => OfferKeeps(s, memory);
    case TryWrite(bytes, memory) => TryWriteKeeps(s, bytes, memory);
    case CloseDart => CloseKeeps(s);
    case Receive => ReceiveKeeps(s);
    case WakeUp => WakeKeeps(s);
  }

  /** The controller's part of a step is one of its own steps, or none. */
  function ControllerStep(s: State, l: DartLabel): Option<I.Step> {
    match l
    case Submit(bytes) => Some(I.Submit(bytes))
    case Admit => Some(I.Admit)
    case Offer(memory) =>
      if s.dart.waiting == [] then None else Some(I.Offer(Answered(s, |Chunk(s.dart)|, memory)))
    case TryWrite(bytes, memory) => Some(I.TryWrite(bytes, Answered(s, |bytes|, memory)))
    case CloseDart => Some(I.Close)
    case Receive => if s.port == [] then None else MessageStep(s.dart, s.port[0])
    case WakeUp => None
  }

  function MessageStep(c: I.Controller, m: Message): Option<I.Step> {
    match m
    case WriteComplete(id) => Some(I.Complete(id))
    case WritableMessage => if c.closed then None else Some(I.Writable)
    case InputClosedMessage => Some(I.Close)
  }

  lemma DartRefines(s: State, l: DartLabel)
    requires DartEnabled(s, l)
    ensures match ControllerStep(s, l)
            case Some(step) => I.Enabled(s.dart, step) && DartNext(s, l).dart == I.Next(s.dart, step)
            case None => DartNext(s, l).dart == s.dart
  {
    match l
    case Submit(bytes) =>
    case Admit =>
    case Offer(memory) =>
    case TryWrite(bytes, memory) =>
    case CloseDart =>
    case Receive =>
    case WakeUp =>
  }

  lemma DartInv(s: State, l: DartLabel)
    requires I.Inv(s.dart) && DartEnabled(s, l)
    ensures I.Inv(DartNext(s, l).dart) && DartNext(s, l).dart.maxPending == s.dart.maxPending
  {
    DartRefines(s, l);
    match ControllerStep(s, l)
    case Some(step) =>
      I.NextInv(s.dart, step);
      I.NextGrows(s.dart, step);
    case None =>
  }

  // ------------------------------------------------------------- the runs

  lemma NextInv(s: State, l: Label)
    requires Inv(s) && Enabled(s, l)
    ensures Inv(Next(s, l)) && Next(s, l).dart.maxPending == s.dart.maxPending
  {
    match l
    case Dart(d) =>
      DartKeeps(s, d);
      DartInv(s, d);
    case Reactor(r) =>
      ReactorKeeps(s, r);
    case Stop => StopKeeps(s);
  }

  ghost predicate Possible(s: State, labels: seq<Label>)
    decreases |labels|
  {
    labels == [] || (Enabled(s, labels[0]) && Possible(Next(s, labels[0]), labels[1..]))
  }

  ghost function After(s: State, labels: seq<Label>): State
    requires Possible(s, labels)
    decreases |labels|
  {
    if labels == [] then s else After(Next(s, labels[0]), labels[1..])
  }

  lemma {:induction false} RunsKeepInv(s: State, labels: seq<Label>)
    requires Inv(s) && Possible(s, labels)
    ensures Inv(After(s, labels)) && After(s, labels).dart.maxPending == s.dart.maxPending
    decreases |labels|
  {
    if labels != [] {
      NextInv(s, labels[0]);
      RunsKeepInv(Next(s, labels[0]), labels[1..]);
    }
  }

  lemma InitialInv(limit: nat, maxChunk: nat)
    requires 0 < limit <= U64_MAX && maxChunk > 0
    ensures Inv(Initial(limit, maxChunk))
  {
    I.InitialInv(maxChunk, limit);
  }

  /** End to end, in every run: what reaches the terminal is a prefix of what
      was submitted; until something is thrown away, written bytes, the rest of
      the chunk in hand and the queue are exactly what was accepted; a future
      that succeeded had all its bytes, and all before them, written; and both
      ends stay within the limit. */
  lemma EveryRun(limit: nat, maxChunk: nat, labels: seq<Label>)
    requires 0 < limit <= U64_MAX && maxChunk > 0 && Possible(Initial(limit, maxChunk), labels)
    ensures var s := After(Initial(limit, maxChunk), labels);
            && s.written <= s.dart.sent <= I.Stream(s.dart.data)
            && (!s.lost ==> s.written + Rests(Chunks(s)) == s.dart.sent)
            && |s.dart.outcomes| == |s.dart.data|
            && (forall n | 0 <= n < |s.dart.data| && s.dart.outcomes[n].Done? ::
                  I.Start(s.dart.data, n + 1) <= |s.written|)
            && Pending(s.queue) <= limit && s.dart.owned <= limit
  {
    InitialInv(limit, maxChunk);
    RunsKeepInv(Initial(limit, maxChunk), labels);
  }

  /** No wake-up is lost: if Dart waits for WRITABLE while nobody is closing,
      then one is in the port or about to be posted, or the reactor still
      works on a chunk or will look at the queue again before it sleeps for
      good, or it sleeps until the terminal takes more or a wake-up comes. */
  lemma NoLostWakeUp(limit: nat, maxChunk: nat, labels: seq<Label>)
    requires 0 < limit <= U64_MAX && maxChunk > 0 && Possible(Initial(limit, maxChunk), labels)
    ensures var s := After(Initial(limit, maxChunk), labels);
            Alive(s) && s.dart.blocked ==>
              || WritableMessage in s.port || s.pc.Waking? || s.pc.Closing?
              || (s.pressed && (s.pc.Checking? || HoldsOne(s.pc)))
              || (s.pressed && s.queue.queued != [] && (s.pc == Polling(false) ==> s.wake || s.owesWake))
  {
    InitialInv(limit, maxChunk);
    RunsKeepInv(Initial(limit, maxChunk), labels);
    var s := After(Initial(limit, maxChunk), labels);
    if s.queue.queued == [] && s.queue.held == [] {
      assert Pending(s.queue) == 0;
    }
  }
}
