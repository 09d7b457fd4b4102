/** Output end to end on Unix: the terminal, the reactor's reads under a credit
    window, the event port and the isolate's acknowledgements, as one machine
    whose steps are the critical sections and system calls. */
module OutputPipeline {
  import opened Wrappers

  type Chunk = seq<Byte>

  const BUFFER_SIZE: nat := 16 * 1024

  /** The terminal. Bytes come out in the order written; once every slave
      descriptor is closed none comes back. */
  datatype Terminal = Terminal(produced: seq<Byte>, buffered: seq<Byte>, programOpen: bool, retained: bool) {
    predicate HungUp() {
      !programOpen && !retained
    }
  }

  datatype ReadResult = Closed | Empty | Data | Exhausted

  /** Which of the reactor's three calls of read_output is running. */
  datatype Site = Draining | AtPoll | AtHangUp

  /** What poll reported. */
  datatype Round = Round(readable: bool, hungUp: bool)

  /** Where the reactor is; within read_output with what it has seen so far. */
  datatype Pc =
    | Top
    | Polling(want: bool)
    | Polled(want: bool, woken: bool, round: Round)
    | Looking(site: Site, round: Round)
    | Reading(site: Site, round: Round, dropping: bool, capacity: nat)
    | Debiting(site: Site, round: Round, bytes: Chunk)
    | Posting(site: Site, round: Round, bytes: Chunk)
    | Failing(site: Site, round: Round)
    | Drained(round: Round)
    | ClosingSlave(next: Pc)
    | HasRead(result: ReadResult, attempted: bool, round: Round)
    | Leaving
    | Finished

  /** The state under the platform mutex. */
  datatype Native = Native(credit: nat, discard: bool, stopping: bool, exited: bool, hungUp: bool)

  /** The wake pipe, and how many callers changed something and have yet to
      write to it. */
  datatype WakePipe = WakePipe(full: bool, owed: nat)

  /** The isolate: `held` are the chunks received and not yet acknowledged, in
      the controller's queue or with the listener, and `received` is all that
      came. */
  datatype Isolate = Isolate(port: seq<Chunk>, held: seq<Chunk>, armed: bool, received: seq<Byte>)

  /** `posted` and `dropped` are history: all output posted, and the bytes
      debited and then dropped; `spoiled` says that output was stopped,
      discarded, cut off by an error or not postable. */
  datatype State = State(
    terminal: Terminal, native: Native, wakes: WakePipe, isolate: Isolate, abandoned: bool, pc: Pc,
    posted: seq<Byte>, dropped: nat, spoiled: bool)

  datatype Label =
    | Produce(bytes: Chunk)
    | CloseProgram
    | Exited
    | Stop
    | Discard
    | Receive
    | Acknowledge(i: nat)
    | Disarm
    | WakeUp
    | Snapshot
    | PollReturns(woken: bool, round: Round)
    | PollFails
    | Check
    | Look
    | ReadBytes(n: nat)
    | ReadNothing
    | ReadEnds
    | ReadFails
    | PostError
    | Debit
    | Post(ok: bool)
    | CloseSlave
    | AfterDrain(flushed: bool)
    | AfterRead
    | PostClosed

  function CreditAfterAck(credit: nat, limit: nat, bytes: nat): nat {
    if credit >= limit || bytes > limit - credit then limit else credit + bytes
  }

  function CreditAfterRead(credit: nat, bytes: nat): nat {
    if credit >= bytes then credit - bytes else 0
  }

  function Capacity(credit: nat, discard: bool): nat {
    if !discard && credit < BUFFER_SIZE then credit else BUFFER_SIZE
  }

  /** Where a read's result sends the reactor. */
  function Result(site: Site, round: Round, result: ReadResult): Pc {
    match site
    case Draining => (
      match result
      case Data => Looking(Draining, round)
      case Empty => ClosingSlave(Drained(round))
      case Closed => Leaving
      case Exhausted => Drained(round))
    case AtPoll => if result == Closed then Leaving else HasRead(result, true, round)
    case AtHangUp => if result == Closed || result == Empty then Leaving else Top
  }

  function Bytes(chunks: seq<Chunk>): nat {
    if chunks == [] then 0 else |chunks[0]| + Bytes(chunks[1..])
  }

  predicate Enabled(s: State, l: Label) {
    match l
    case Produce(_) => s.terminal.programOpen
    case CloseProgram => s.terminal.programOpen
    case Exited => true
    case Stop => true
    case Discard => true
    case Receive => s.isolate.port != []
    case Acknowledge(i) => i < |s.isolate.held| && s.isolate.armed
    case Disarm => true
    case WakeUp => s.wakes.owed > 0
    case Snapshot => s.pc == Top
    case PollReturns(woken, round) =>
      s.pc.Polling? && (woken ==> s.wakes.full) && (round.readable ==> s.pc.want) && (round.hungUp ==> s.terminal.HungUp())
    case PollFails => s.pc.Polling?
    case Check => s.pc.Polled?
    case Look => s.pc.Looking?
    case ReadBytes(n) => s.pc.Reading? && 0 < n <= s.pc.capacity && n <= |s.terminal.buffered|
    case ReadNothing => s.pc.Reading? && s.terminal.buffered == []
    case ReadEnds => s.pc.Reading? && s.terminal.buffered == [] && s.terminal.HungUp()
    case ReadFails => s.pc.Reading?
    case PostError => s.pc.Failing?
    case Debit => s.pc.Debiting?
    case Post(_) => s.pc.Posting?
    case CloseSlave => s.pc.ClosingSlave?
    case AfterDrain(_) => s.pc.Drained?
    case AfterRead => s.pc.HasRead?
    case PostClosed => s.pc == Leaving
  }

  function At(s: State, pc: Pc): State {
    s.(pc := pc)
  }

  /** Bytes the program and its children write. */
  function Produced(s: State, bytes: Chunk): State {
    s.(terminal := s.terminal.(produced := s.terminal.produced + bytes, buffered := s.terminal.buffered + bytes))
  }

  function ProgramClosed(s: State): State {
    s.(terminal := s.terminal.(programOpen := false))
  }

  function Owe(w: WakePipe): WakePipe {
    w.(owed := w.owed + 1)
  }

  /** The next chunk reaches the isolate. */
  function Received(s: State): State
    requires s.isolate.port != []
  {
    s.(isolate := s.isolate.(port := s.isolate.port[1..], held := s.isolate.held + [s.isolate.port[0]],
                                received := s.isolate.received + s.isolate.port[0]))
  }

  /** pty_session_ack_output for one of the chunks held. */
  function Acknowledged(s: State, i: nat, window: nat): State
    requires i < |s.isolate.held|
  {
    s.(isolate := s.isolate.(held := Without(s.isolate.held, i)),
       native := s.native.(credit := CreditAfterAck(s.native.credit, window, |s.isolate.held[i]|)),
       wakes := Owe(s.wakes))
  }

  function PolledWith(s: State, woken: bool, round: Round): State
    requires s.pc.Polling?
  {
    At(s, Polled(s.pc.want, woken, round)).(wakes := s.wakes.(full := s.wakes.full && !woken))
  }

  function Checked(s: State): State
    requires s.pc.Polled?
  {
    if s.native.stopping then At(s, Leaving)
    else if s.pc.woken && s.native.exited && s.pc.want then At(s, Looking(Draining, s.pc.round))
    else At(s, Drained(s.pc.round))
  }

  function Looked(s: State): State
    requires s.pc.Looking?
  {
    if !s.native.discard && s.native.credit == 0 then At(s, Result(s.pc.site, s.pc.round, Exhausted))
    else At(s, Reading(s.pc.site, s.pc.round, s.native.discard, Capacity(s.native.credit, s.native.discard)))
  }

  /** Bytes leave the terminal; if output is being discarded they are gone. */
  function Took(s: State, n: nat): State
    requires s.pc.Reading? && n <= |s.terminal.buffered|
  {
    var bytes := s.terminal.buffered[..n];
    var t := s.(terminal := s.terminal.(buffered := s.terminal.buffered[n..]));
    if s.pc.dropping then At(t, Result(s.pc.site, s.pc.round, Data)).(spoiled := true)
    else At(t, Debiting(s.pc.site, s.pc.round, bytes))
  }

  function Debited(s: State): State
    requires s.pc.Debiting?
  {
    if s.native.discard then At(s, Result(s.pc.site, s.pc.round, Data)).(spoiled := true)
    else At(s, Posting(s.pc.site, s.pc.round, s.pc.bytes))
           .(native := s.native.(credit := CreditAfterRead(s.native.credit, |s.pc.bytes|)))
  }

  /** A post that fails, or finds the session abandoned, drops the bytes and
      ends reading. */
  function Posted(s: State, ok: bool): State
    requires s.pc.Posting?
  {
    var bytes := s.pc.bytes;
    if ok && !s.abandoned
    then At(s, Result(s.pc.site, s.pc.round, Data))
           .(isolate := s.isolate.(port := s.isolate.port + [bytes]), posted := s.posted + bytes)
    else At(s, Result(s.pc.site, s.pc.round, Closed))
           .(native := s.native.(discard := true), abandoned := true, dropped := s.dropped + |bytes|, spoiled := true)
  }

  function SlaveClosed(s: State): State
    requires s.pc.ClosingSlave?
  {
    At(s, s.pc.next).(terminal := s.terminal.(retained := false))
  }

  /** The write queue is flushed here; a failed flush starts the next round. */
  function AfterDrained(s: State, flushed: bool): State
    requires s.pc.Drained?
  {
    if !flushed then At(s, Top)
    else if s.pc.round.readable then At(s, Looking(AtPoll, s.pc.round))
    else At(s, HasRead(Empty, false, s.pc.round))
  }

  function RoundEnded(s: State): State
    requires s.pc.HasRead?
  {
    var t := s.(native := s.native.(hungUp := s.native.hungUp || s.pc.round.hungUp));
    if s.pc.round.hungUp then
      if s.pc.result != Data && s.pc.result != Exhausted then At(t, Looking(AtHangUp, s.pc.round)) else At(t, Top)
    else if s.pc.attempted && s.pc.result == Empty && s.native.exited then At(t, ClosingSlave(Top))
    else At(t, Top)
  }

  function Next(window: nat, s: State, l: Label): State
    requires Enabled(s, l)
  {
    match l
    case Produce(bytes) => Produced(s, bytes)
    case CloseProgram => ProgramClosed(s)
    case Exited => s.(native := s.native.(exited := true), wakes := Owe(s.wakes))
    case Stop => s.(native := s.native.(stopping := true), wakes := Owe(s.wakes), spoiled := true)
    case Discard => s.(native := s.native.(discard := true), wakes := Owe(s.wakes), spoiled := true)
    case Receive => Received(s)
    case Acknowledge(i) => Acknowledged(s, i, window)
    case Disarm => s.(isolate := s.isolate.(armed := false))
    case WakeUp => s.(wakes := if s.wakes.owed == 0 then s.wakes else WakePipe(true, s.wakes.owed - 1))
    case Snapshot => At(s, if s.native.stopping then Leaving else Polling(s.native.discard || s.native.credit > 0))
    case PollReturns(woken, round) => PolledWith(s, woken, round)
    case PollFails => At(s, Leaving).(spoiled := true)
    case Check => Checked(s)
    case Look => Looked(s)
    case ReadBytes(n) => Took(s, n)
    case ReadNothing => At(s, Result(s.pc.site, s.pc.round, Empty))
    case ReadEnds => At(s, Result(s.pc.site, s.pc.round, Closed))
    case ReadFails => At(s, Failing(s.pc.site, s.pc.round)).(spoiled := true)
    case PostError => At(s, Result(s.pc.site, s.pc.round, Closed))
    case Debit => Debited(s)
    case Post(ok) => Posted(s, ok)
    case CloseSlave => SlaveClosed(s)
    case AfterDrain(flushed) => AfterDrained(s, flushed)
    case AfterRead => RoundEnded(s)
    case PostClosed => At(s, Finished)
  }

  function Initial(window: nat): State {
    State(Terminal([], [], true, true), Native(window, false, false, false, false), WakePipe(false, 0),
          Isolate([], [], true, []), false, Top, [], 0, false)
  }

  // ------------------------------------------------------- the invariants

  /** Bytes read for the isolate and not yet posted. */
  function InHand(pc: Pc): Chunk {
    if pc.Debiting? || pc.Posting? then pc.bytes else []
  }

  /** Of these, the ones paid for with credit. */
  function Owed(pc: Pc): nat {
    if pc.Posting? then |pc.bytes| else 0
  }

  /** What reduces the window: bytes on the way to the isolate, with it, or
      dropped after they were paid for. */
  function Outstanding(s: State): nat {
    Owed(s.pc) + Bytes(s.isolate.port) + Bytes(s.isolate.held) + s.dropped
  }

  /** Credit is neither made nor lost while the isolate acknowledges. */
  predicate Conserved(window: nat, s: State) {
    s.native.credit + Outstanding(s) == window
  }

  /** The reactor never has more in its hands than it found credit for. */
  predicate Covered(s: State) {
    && (s.pc.Reading? && !s.pc.dropping ==> s.pc.capacity <= s.native.credit)
    && (s.pc.Debiting? ==> |s.pc.bytes| <= s.native.credit)
  }

  /** No output is lost or reordered as long as nothing spoils it. */
  predicate Whole(s: State) {
    !s.spoiled ==> s.posted + InHand(s.pc) + s.terminal.buffered == s.terminal.produced
  }

  /** A hang-up once seen stays, and the reactor leaves only at the end. */
  predicate Honest(s: State) {
    && (s.pc.Polled? || s.pc.Drained? || s.pc.HasRead? ==> (s.pc.round.hungUp ==> s.terminal.HungUp()))
    && (s.pc.Looking? || s.pc.Reading? || s.pc.Debiting? || s.pc.Posting? ==> (s.pc.round.hungUp ==> s.terminal.HungUp()))
    && (s.pc.Looking? || s.pc.Reading? || s.pc.Debiting? || s.pc.Posting? || s.pc.Failing? ==>
          (s.pc.site == AtHangUp ==> s.pc.round.hungUp))
    && (s.pc.ClosingSlave? ==> s.pc.next == Top || (s.pc.next.Drained? && (s.pc.next.round.hungUp ==> s.terminal.HungUp())))
    && (s.pc.Failing? ==> s.spoiled)
    && ((s.pc == Leaving || s.pc == Finished) && !s.spoiled ==> s.terminal.HungUp() && s.terminal.buffered == [])
    && (s.native.stopping ==> s.spoiled) && (s.native.discard ==> s.spoiled) && (s.abandoned ==> s.spoiled)
    && (s.pc.Reading? && s.pc.dropping ==> s.spoiled)
  }

  function Concat(chunks: seq<Chunk>): seq<Byte> {
    if chunks == [] then [] else chunks[0] + Concat(chunks[1..])
  }

  /** The port delivers what was posted, in order. */
  predicate InOrder(s: State) {
    s.isolate.received + Concat(s.isolate.port) == s.posted
  }

  /** A reactor asleep has nothing to read for, or a wake-up is coming. */
  predicate Awake(s: State) {
    && (s.pc == Polling(false) && (s.native.credit > 0 || s.native.discard) ==> s.wakes.full || s.wakes.owed > 0)
    && (s.pc.Polling? && s.native.stopping ==> s.wakes.full || s.wakes.owed > 0)
  }

  predicate Inv(window: nat, s: State) {
    Conserved(window, s) && Covered(s) && Whole(s) && Honest(s) && InOrder(s) && Awake(s)
  }

  // ------------------------------------------------------- step by step

  lemma {:induction false} BytesConcat(a: seq<Chunk>, b: seq<Chunk>)
    ensures Bytes(a + b) == Bytes(a) + Bytes(b)
  {
    if a == [] {
      assert a + b == b;
    } else {
      assert (a + b)[1..] == a[1..] + b;
      BytesConcat(a[1..], b);
    }
  }

  lemma {:induction false} ConcatConcat(a: seq<Chunk>, b: seq<Chunk>)
    ensures Concat(a + b) == Concat(a) + Concat(b)
  {
    if a == [] {
      assert a + b == b;
    } else {
      assert (a + b)[1..] == a[1..] + b;
      ConcatConcat(a[1..], b);
    }
  }

  lemma BytesOfOne(bytes: Chunk)
    ensures Bytes([bytes]) == |bytes| && Concat([bytes]) == bytes
  {
    assert [bytes][1..] == [];
  }

  lemma {:induction false} BytesWithout(chunks: seq<Chunk>, i: nat)
    requires i < |chunks|
    ensures Bytes(chunks) == |chunks[i]| + Bytes(Without(chunks, i))
  {
    assert chunks == chunks[..i] + ([chunks[i]] + chunks[i + 1..]);
    BytesConcat(chunks[..i], [chunks[i]] + chunks[i + 1..]);
    BytesConcat([chunks[i]], chunks[i + 1..]);
    BytesConcat(chunks[..i], chunks[i + 1..]);
    BytesOfOne(chunks[i]);
  }

  lemma ProduceKeeps(window: nat, s: State, bytes: Chunk)
    requires Inv(window, s) && Enabled(s, Produce(bytes))
    ensures Inv(window, Produced(s, bytes))
  {
  }

  lemma ReceiveKeeps(window: nat, s: State)
    requires Inv(window, s) && Enabled(s, Receive)
    ensures Inv(window, Received(s))
  {
    BytesConcat(s.isolate.held, [s.isolate.port[0]]);
    BytesOfOne(s.isolate.port[0]);
  }

  lemma AcknowledgeKeeps(window: nat, s: State, i: nat)
    requires Inv(window, s) && Enabled(s, Acknowledge(i))
    ensures Inv(window, Acknowledged(s, i, window))
  {
    BytesWithout(s.isolate.held, i);
  }

  lemma CheckKeeps(window: nat, s: State)
    requires Inv(window, s) && Enabled(s, Check)
    ensures Inv(window, Checked(s))
  {
  }

  lemma LookKeeps(window: nat, s: State)
    requires Inv(window, s) && Enabled(s, Look)
    ensures Inv(window, Looked(s))
  {
  }

  lemma ReadBytesKeeps(window: nat, s: State, n: nat)
    requires Inv(window, s) && Enabled(s, ReadBytes(n))
    ensures Inv(window, Took(s, n))
  {
    assert s.terminal.buffered == s.terminal.buffered[..n] + s.terminal.buffered[n..];
  }

  lemma ReadNothingKeeps(window: nat, s: State)
    requires Inv(window, s) && Enabled(s, ReadNothing)
    ensures Inv(window, At(s, Result(s.pc.site, s.pc.round, Empty)))
  {
  }

  lemma ReadEndsKeeps(window: nat, s: State)
    requires Inv(window, s) && Enabled(s, ReadEnds)
    ensures Inv(window, At(s, Result(s.pc.site, s.pc.round, Closed)))
  {
  }

  lemma PostErrorKeeps(window: nat, s: State)
    requires Inv(window, s) && Enabled(s, PostError)
    ensures Inv(window, At(s, Result(s.pc.site, s.pc.round, Closed)))
  {
  }

  lemma DebitKeeps(window: nat, s: State)
    requires Inv(window, s) && Enabled(s, Debit)
    ensures Inv(window, Debited(s))
  {
  }

  lemma PostedConserves(window: nat, s: State)
    requires Conserved(window, s) && s.pc.Posting? && !s.abandoned
    ensures Conserved(window, Posted(s, true))
  {
    BytesConcat(s.isolate.port, [s.pc.bytes]);
    BytesOfOne(s.pc.bytes);
  }

  lemma Associates(a: seq<Byte>, b: seq<Byte>, c: seq<Byte>)
    ensures a + (b + c) == (a + b) + c
  {
  }

  lemma PostedInOrder(s: State)
    requires InOrder(s) && s.pc.Posting? && !s.abandoned
    ensures InOrder(Posted(s, true))
  {
    ConcatConcat(s.isolate.port, [s.pc.bytes]);
    BytesOfOne(s.pc.bytes);
    Associates(s.isolate.received, Concat(s.isolate.port), s.pc.bytes);
  }

  lemma PostedWhole(s: State)
    requires Whole(s) && s.pc.Posting? && !s.abandoned
    ensures Whole(Posted(s, true))
  {
    assert InHand(Posted(s, true).pc) == [];
    assert s.posted + s.pc.bytes + [] == s.posted + s.pc.bytes;
  }

  lemma PostedKeeps(window: nat, s: State)
    requires Inv(window, s) && s.pc.Posting? && !s.abandoned
    ensures Inv(window, Posted(s, true))
  {
    PostedConserves(window, s);
    PostedInOrder(s);
    PostedWhole(s);
  }

  lemma NotPostedKeeps(window: nat, s: State, ok: bool)
    requires Inv(window, s) && s.pc.Posting? && (!ok || s.abandoned)
    ensures Inv(window, Posted(s, ok))
  {
  }

  lemma CloseSlaveKeeps(window: nat, s: State)
    requires Inv(window, s) && Enabled(s, CloseSlave)
    ensures Inv(window, SlaveClosed(s))
  {
  }

  lemma AfterDrainKeeps(window: nat, s: State, flushed: bool)
    requires Inv(window, s) && Enabled(s, AfterDrain(flushed))
    ensures Inv(window, AfterDrained(s, flushed))
  {
  }

  lemma HangUpKeeps(window: nat, s: State, hungUp: bool)
    requires Inv(window, s)
    ensures Inv(window, s.(native := s.native.(hungUp := hungUp)))
  {
  }

  lemma LeaveRoundKeeps(window: nat, s: State, pc: Pc)
    requires Inv(window, s) && s.pc.HasRead?
    requires pc == Top || pc == ClosingSlave(Top) || (s.pc.round.hungUp && pc == Looking(AtHangUp, s.pc.round))
    ensures Inv(window, At(s, pc))
  {
  }

  lemma AfterReadKeeps(window: nat, s: State)
    requires Inv(window, s) && s.pc.HasRead?
    ensures Inv(window, RoundEnded(s))
  {
    var hungUp := s.native.hungUp || s.pc.round.hungUp;
    HangUpKeeps(window, s, hungUp);
    LeaveRoundKeeps(window, s.(native := s.native.(hungUp := hungUp)), RoundEnded(s).pc);
  }

  lemma EasyKeeps(window: nat, s: State, l: Label)
    requires Inv(window, s) && Enabled(s, l)
    requires l.CloseProgram? || l.Exited? || l.Stop? || l.Discard? || l.Disarm? || l.WakeUp?
    ensures Inv(window, Next(window, s, l))
  {
    match l
    case CloseProgram =>
    case Exited =>
    case Stop =>
    case Discard =>
    case Disarm =>
    case WakeUp =>
  }

  lemma MovesKeep(window: nat, s: State, l: Label)
    requires Inv(window, s) && Enabled(s, l)
    requires l.Snapshot? || l.PollReturns? || l.PollFails? || l.ReadFails? || l.PostClosed?
    ensures Inv(window, Next(window, s, l))
  {
    match l
    case Snapshot =>
    case PollReturns(woken, round) =>
    case PollFails =>
    case ReadFails =>
    case PostClosed =>
  }

  lemma NextInv(window: nat, s: State, l: Label)
    requires Inv(window, s) && Enabled(s, l)
    ensures Inv(window, Next(window, s, l))
  {
    match l
    case Produce(bytes) => ProduceKeeps(window, s, bytes);
    case CloseProgram => EasyKeeps(window, s, l);
    case Exited => EasyKeeps(window, s, l);
    case Stop => EasyKeeps(window, s, l);
    case Discard => EasyKeeps(window, s, l);
    case Receive => ReceiveKeeps(window, s);
    case Acknowledge(i) => AcknowledgeKeeps(window, s, i);
    case Disarm => EasyKeeps(window, s, l);
    case WakeUp => EasyKeeps(window, s, l);
    case Snapshot => MovesKeep(window, s, l);
    case PollReturns(woken, round) => MovesKeep(window, s, l);
    case PollFails => MovesKeep(window, s, l);
    case Check => CheckKeeps(window, s);
    case Look => LookKeeps(window, s);
    case ReadBytes(n) => ReadBytesKeeps(window, s, n);
    case ReadNothing => ReadNothingKeeps(window, s);
    case ReadEnds => ReadEndsKeeps(window, s);
    case ReadFails => MovesKeep(window, s, l);
    case PostError => PostErrorKeeps(window, s);
    case Debit => DebitKeeps(window, s);
    case Post(ok) => if ok && !s.abandoned { PostedKeeps(window, s); } else { NotPostedKeeps(window, s, ok); }
    case CloseSlave => CloseSlaveKeeps(window, s);
    case AfterDrain(flushed) => AfterDrainKeeps(window, s, flushed);
    case AfterRead => AfterReadKeeps(window, s);
    case PostClosed => MovesKeep(window, s, l);
  }

  // ------------------------------------------------------------- the runs

  predicate Possible(window: nat, s: State, labels: seq<Label>)
    decreases |labels|
  {
    labels == [] || (Enabled(s, labels[0]) && Possible(window, Next(window, s, labels[0]), labels[1..]))
  }

  function After(window: nat, s: State, labels: seq<Label>): State
    requires Possible(window, s, labels)
    decreases |labels|
  {
    if labels == [] then s else After(window, Next(window, s, labels[0]), labels[1..])
  }

  lemma {:induction false} RunsKeepInv(window: nat, s: State, labels: seq<Label>)
    requires Inv(window, s) && Possible(window, s, labels)
    ensures Inv(window, After(window, s, labels))
    decreases |labels|
  {
    if labels != [] {
      NextInv(window, s, labels[0]);
      RunsKeepInv(window, Next(window, s, labels[0]), labels[1..]);
    }
  }

  /** In every run the credit, the bytes on the way or with the isolate and
      those dropped after a failed post make up the window, so buffering is
      bounded by it; neither saturating branch is ever taken; and the isolate
      has received the beginning of what was posted. */
  lemma EveryRun(window: nat, labels: seq<Label>)
    requires Possible(window, Initial(window), labels)
    ensures var s := After(window, Initial(window), labels);
            && s.native.credit + Outstanding(s) == window
            && Bytes(s.isolate.port) + Bytes(s.isolate.held) <= window
            && (s.pc.Debiting? ==> CreditAfterRead(s.native.credit, |s.pc.bytes|) == s.native.credit - |s.pc.bytes|)
            && (forall i | 0 <= i < |s.isolate.held| ::
                  CreditAfterAck(s.native.credit, window, |s.isolate.held[i]|) == s.native.credit + |s.isolate.held[i]|)
            && s.isolate.received <= s.posted
  {
    RunsKeepInv(window, Initial(window), labels);
    var s := After(window, Initial(window), labels);
    forall i | 0 <= i < |s.isolate.held|
      ensures CreditAfterAck(s.native.credit, window, |s.isolate.held[i]|) == s.native.credit + |s.isolate.held[i]|
    {
      BytesWithout(s.isolate.held, i);
    }
  }

  /** No output is lost: when the reactor comes to post OUTPUT_CLOSED, and
      nobody stopped it, discarded output, failed a read or a post, then all
      slave descriptors are closed and what was posted is exactly what was
      written to the terminal. The isolate then gets just that. */
  lemma NoOutputLost(window: nat, labels: seq<Label>)
    requires Possible(window, Initial(window), labels)
    ensures var s := After(window, Initial(window), labels);
            (s.pc == Leaving || s.pc == Finished) && !s.spoiled ==>
              && s.posted == s.terminal.produced && s.terminal.HungUp()
              && s.isolate.received + Concat(s.isolate.port) == s.terminal.produced
  {
    RunsKeepInv(window, Initial(window), labels);
  }

  /** An acknowledgement is never slept through: a reactor that polls without
      asking for output has no credit, or will be woken. */
  lemma NoLostCredit(window: nat, labels: seq<Label>)
    requires Possible(window, Initial(window), labels)
    ensures var s := After(window, Initial(window), labels);
            s.pc == Polling(false) && !s.wakes.full && s.wakes.owed == 0 ==>
              !s.native.stopping && !s.native.discard && s.native.credit == 0 && Outstanding(s) == window
  {
    RunsKeepInv(window, Initial(window), labels);
  }
}
