/** Startup, shutdown and reference counting of a Unix session: the bootstrap,
    reactor, waiter and close workers, the isolate and its finalizer, as one
    machine. A step is an atomic access, a critical section, a post, or an
    attempt to start a thread. */
module UnixSession {
  import opened Wrappers

  datatype Lifecycle = Starting | Running | Closing | Closed

  /** Exit stands for PROCESS_EXIT or the error of a failed wait. */
  datatype Event = Spawned | SpawnFailed | OutputClosed | InputClosed | Exit | Traffic | SessionClosed

  datatype Who = Boot | Reactor | Waiter | Closer | Isolate | Finalizer

  /** How a post, a thread start or a setup goes. A post is skipped when the
      session is seen to be abandoned. */
  datatype Outcome = Good | Bad | Skipped

  /** Calls in progress, one operation at a time. begin_close goes through
      BeginClose, LoadPlatform, CloseCheck, Retain1, Retain2, CreateCloser and
      either DropRef or FailDrop2, FailDrop1, FailSection, MaybeCheck; abandon
      through Abandon, begin_close and DropOwner; maybe_post_session_closed
      through MaybeCheck, Claimed and PostClosed. */
  datatype Op =
    | Post(event: Event)
    | PostClosed
    | Abandon
    | MarkClosing
    | MarkClosed
    | MaybeCheck
    | Claimed
    | BeginClose
    | LoadPlatform
    | CloseCheck
    | Retain1
    | Retain2
    | CreateCloser
    | FailDrop2
    | FailDrop1
    | FailSection
    | DropRef
    | DropOwner

  datatype BootPc =
    | Spawning
    | Preparing
    | Publishing
    | Checking
    | Cancelling
    | RetainingReactor
    | CreatingReactor
    | ReactorFailed
    | RetainingWaiter
    | CreatingWaiter
    | WaiterFailed
    | GoingOn
    | Late
    | BootLeaving
    | BootGone

  datatype ReactorPc = NoReactor | Reacting | MarkingOutput | MarkingInput | ReactorMarking | ReactorLeaving | ReactorGone
  datatype WaiterPc = NoWaiter | Awaiting | WaiterMarking | WaiterLeaving | WaiterGone
  datatype CloserPc = NoCloser | Stopping | CloserMarking | CloserLeaving | CloserGone

  /** The flags under the platform mutex. */
  datatype Flags = Flags(
    stopping: bool, reactorDone: bool, waiterDone: bool, closeStarted: bool, closeDone: bool,
    outputClosed: bool, inputClosed: bool, closedPosted: bool)

  /** `owner` is the isolate's reference; `detached` says the isolate gave it
      back itself; `frees` counts how often the session was freed. */
  datatype Memory = Memory(refs: int, owner: bool, abandoned: bool, detached: bool, frees: nat)

  /** Every attempt to post, in order, how often SESSION_CLOSED was attempted,
      and whether somebody has taken that on. */
  datatype History = History(claimed: bool, attempts: nat, log: seq<Event>)

  datatype State = State(
    lifecycle: Lifecycle, platform: bool, flags: Flags, memory: Memory, history: History,
    boot: BootPc, reactor: ReactorPc, waiter: WaiterPc, closer: CloserPc, calls: map<Who, seq<Op>>)

  /** A thread does the next operation of its call, or goes on in its body;
      the isolate closes or releases, or its finalizer runs. */
  datatype Label = Call(who: Who, how: Outcome) | Body(who: Who, how: Outcome) | Close | Release | Finalize

  function Initial(): State {
    State(Starting, false, Flags(false, false, false, false, false, false, false, false),
          Memory(2, true, false, false, 0), History(false, 0, []),
          Spawning, NoReactor, NoWaiter, NoCloser,
          map[Boot := [], Reactor := [], Waiter := [], Closer := [], Isolate := [], Finalizer := []])
  }

  predicate Total(calls: map<Who, seq<Op>>) {
    forall w: Who :: w in calls
  }

  // --------------------------------------------------------- the operations

  function Dropped(m: Memory): Memory {
    m.(refs := m.refs - 1, frees := m.frees + if m.refs == 1 then 1 else 0)
  }

  function Retained(m: Memory): Memory {
    m.(refs := m.refs + 1)
  }

  function Attempted(h: History, event: Event): History {
    h.(log := h.log + [event], attempts := h.attempts + if event == SessionClosed then 1 else 0)
  }

  predicate AllDone(f: Flags) {
    f.stopping && f.reactorDone && f.waiterDone && f.closeDone
  }

  /** What maybe_post_session_closed looks for under the mutex. */
  predicate Due(s: State) {
    AllDone(s.flags) && !s.flags.closedPosted
  }

  /** What an operation does, but for the calls it makes. */
  function Effect(s: State, op: Op, how: Outcome): State {
    match op
    case Post(event) => s.(history := Attempted(s.history, event))
    case PostClosed => s.(history := Attempted(s.history, SessionClosed))
    case Abandon => s.(memory := s.memory.(abandoned := true))
    case MarkClosing => s.(lifecycle := Closing)
    case MarkClosed => s.(lifecycle := Closed)
    case MaybeCheck =>
      if Due(s) then s.(flags := s.flags.(closedPosted := true), history := s.history.(claimed := true)) else s
    case Claimed => s.(lifecycle := Closed)
    case BeginClose => if s.lifecycle == Closed then s else s.(lifecycle := Closing)
    case LoadPlatform => s
    case CloseCheck =>
      if s.flags.closeStarted || s.flags.closeDone then s else s.(flags := s.flags.(closeStarted := true))
    case Retain1 => s.(memory := Retained(s.memory))
    case Retain2 => s.(memory := Retained(s.memory))
    case CreateCloser => if how == Good then s.(closer := Stopping) else s
    case FailDrop2 => s.(memory := Dropped(s.memory))
    case FailDrop1 => s.(memory := Dropped(s.memory))
    case FailSection => s.(flags := s.flags.(stopping := true, closeDone := true))
    case DropRef => s.(memory := Dropped(s.memory))
    case DropOwner => s.(memory := Dropped(s.memory).(owner := false))
  }

  /** The operation it goes on with, if any. */
  function NextOp(s: State, op: Op, how: Outcome): Option<Op> {
    match op
    case Post(_) => if how == Bad then Some(Abandon) else None
    case PostClosed => if how == Bad then Some(Abandon) else None
    case Abandon => if s.memory.abandoned then None else Some(BeginClose)
    case MaybeCheck => if Due(s) then Some(Claimed) else None
    case Claimed => Some(PostClosed)
    case BeginClose => if s.lifecycle == Running || s.lifecycle == Closing then Some(LoadPlatform) else None
    case LoadPlatform => if s.platform then Some(CloseCheck) else None
    case CloseCheck => if s.flags.closeStarted || s.flags.closeDone then None else Some(Retain1)
    case Retain1 => Some(Retain2)
    case Retain2 => Some(CreateCloser)
    case CreateCloser => if how == Good then Some(DropRef) else Some(FailDrop2)
    case FailDrop2 => Some(FailDrop1)
    case FailDrop1 => Some(FailSection)
    case FailSection => Some(MaybeCheck)
    case MarkClosing => None
    case MarkClosed => None
    case DropRef => None
    case DropOwner => None
  }

  /** What comes before the rest of the caller's operations: only the first to
      abandon the session closes it and drops the owner's reference. */
  function Pushed(s: State, op: Op, how: Outcome): seq<Op> {
    match NextOp(s, op, how)
    case None => []
    case Some(next) => if op == Abandon then [next, DropOwner] else [next]
  }

  function CallNext(s: State, w: Who, how: Outcome): State
    requires Total(s.calls) && s.calls[w] != []
  {
    var op := s.calls[w][0];
    Effect(s, op, how).(calls := s.calls[w := Pushed(s, op, how) + s.calls[w][1..]])
  }

  /** Posts can only be skipped once the session is abandoned, and do not fail
      any more when the isolate has given its reference back. */
  predicate Allows(s: State, op: Op, how: Outcome) {
    op.Post? || op.PostClosed? ==> (how == Skipped ==> s.memory.abandoned) && (how == Bad ==> !s.memory.detached)
  }

  /** An owner's reference is not dropped under a call of the isolate. */
  predicate CallEnabled(s: State, w: Who, how: Outcome) {
    && Total(s.calls) && s.calls[w] != [] && Allows(s, s.calls[w][0], how)
    && (s.calls[w][0] == DropOwner ==> w == Isolate || s.calls[Isolate] == [])
  }

  // ------------------------------------------------------- the workers' bodies

  /** Startup failed before there was a platform; SESSION_CLOSED is ours. */
  function Bare(s: State): State {
    s.(boot := BootLeaving, history := s.history.(claimed := true))
  }

  /** The section of finish_unstarted_close. */
  function Cancelled(s: State): State {
    s.(boot := BootLeaving, history := s.history.(claimed := true),
       flags := s.flags.(stopping := true, reactorDone := true, waiterDone := true, closeDone := true,
                         outputClosed := true, closedPosted := true))
  }

  /** The section after the reactor could not be started. */
  function WithoutReactor(s: State): State {
    var f := s.flags.(stopping := true, reactorDone := true, waiterDone := true, outputClosed := true);
    if s.flags.closeStarted then s.(boot := BootLeaving, flags := f)
    else s.(boot := BootLeaving, history := s.history.(claimed := true),
            flags := f.(closeStarted := true, closeDone := true, closedPosted := true))
  }

  /** Whoever comes first keeps others from starting a close worker. */
  function Reserved(f: Flags): Flags {
    if f.closeStarted then f.(stopping := true) else f.(stopping := true, closeStarted := true, closeDone := true)
  }

  predicate Cancel(s: State) {
    s.flags.stopping || s.lifecycle == Closing
  }

  function BootNext(s: State, how: Outcome): State
    requires s.boot != BootGone
  {
    match s.boot
    case Spawning => if how == Good then s.(boot := Preparing) else Bare(s)
    case Preparing => if how == Good then s.(boot := Publishing) else Bare(s)
    case Publishing => s.(platform := true, boot := Checking)
    case Checking => s.(boot := if Cancel(s) then Cancelling else RetainingReactor)
    case Cancelling => Cancelled(s)
    case RetainingReactor => s.(boot := CreatingReactor, memory := Retained(s.memory))
    case CreatingReactor =>
      if how == Good then s.(boot := RetainingWaiter, reactor := Reacting) else s.(boot := ReactorFailed)
    case ReactorFailed => WithoutReactor(s)
    case RetainingWaiter => s.(boot := CreatingWaiter, memory := Retained(s.memory))
    case CreatingWaiter =>
      if how == Good then s.(boot := GoingOn, waiter := Awaiting) else s.(boot := WaiterFailed)
    case WaiterFailed => s.(boot := BootLeaving, flags := Reserved(s.flags).(waiterDone := true))
    case GoingOn => if s.lifecycle == Starting then s.(boot := BootLeaving, lifecycle := Running) else s.(boot := Late)
    case Late => s.(boot := BootLeaving, flags := Reserved(s.flags))
    case BootLeaving => s.(boot := BootGone, memory := Dropped(s.memory))
  }

  /** What the bootstrap calls on the way. */
  function BootCalls(s: State, how: Outcome): seq<Op> {
    match s.boot
    case Spawning =>
      if how == Good then [] else [Post(SpawnFailed), Post(OutputClosed), MarkClosing, MarkClosed, PostClosed]
    case Preparing => if how == Good then [] else [Post(SpawnFailed), MarkClosing, MarkClosed, PostClosed]
    case Cancelling => [Post(SpawnFailed), MarkClosed, Post(OutputClosed), PostClosed]
    case CreatingReactor => if how == Good then [] else [DropRef, MarkClosing]
    case ReactorFailed =>
      if s.flags.closeStarted then [Post(SpawnFailed), Post(OutputClosed), MaybeCheck]
      else [Post(SpawnFailed), Post(OutputClosed), MarkClosed, PostClosed]
    case CreatingWaiter => if how == Good then [] else [DropRef]
    case WaiterFailed => [MarkClosing, Post(SpawnFailed), MaybeCheck]
    case GoingOn => if s.lifecycle == Starting then [Post(Spawned)] else []
    case Late => [Post(SpawnFailed), MaybeCheck]
    case _ => []
  }

  /** The reactor posts what it reads and writes until it stops; it may mark
      input closed on the way. */
  function ReactorNext(s: State, how: Outcome): State
    requires s.reactor != NoReactor && s.reactor != ReactorGone
  {
    match s.reactor
    case Reacting =>
      if how == Good then s
      else if how == Skipped then s.(flags := s.flags.(inputClosed := true))
      else s.(reactor := MarkingOutput)
    case MarkingOutput => s.(reactor := MarkingInput, flags := s.flags.(outputClosed := true))
    case MarkingInput => s.(reactor := ReactorMarking, flags := s.flags.(inputClosed := true))
    case ReactorMarking => s.(reactor := ReactorLeaving, flags := s.flags.(reactorDone := true))
    case ReactorLeaving => s.(reactor := ReactorGone, memory := Dropped(s.memory))
  }

  function ReactorCalls(s: State, how: Outcome): seq<Op> {
    match s.reactor
    case Reacting =>
      if how == Good then [Post(Traffic)]
      else if how == Skipped && !s.flags.inputClosed then [Post(InputClosed)] else []
    case MarkingOutput => if s.flags.outputClosed then [] else [Post(OutputClosed)]
    case MarkingInput => if s.flags.inputClosed then [] else [Post(InputClosed)]
    case ReactorMarking => [MaybeCheck]
    case _ => []
  }

  function WaiterNext(s: State): State
    requires s.waiter != NoWaiter && s.waiter != WaiterGone
  {
    match s.waiter
    case Awaiting => s.(waiter := WaiterMarking)
    case WaiterMarking => s.(waiter := WaiterLeaving, flags := s.flags.(waiterDone := true))
    case WaiterLeaving => s.(waiter := WaiterGone, memory := Dropped(s.memory))
  }

  function WaiterCalls(s: State): seq<Op> {
    if s.waiter == Awaiting then [Post(Exit)] else if s.waiter == WaiterMarking then [MaybeCheck] else []
  }

  function CloserNext(s: State): State
    requires s.closer != NoCloser && s.closer != CloserGone
  {
    match s.closer
    case Stopping => s.(closer := CloserMarking, flags := s.flags.(stopping := true))
    case CloserMarking => s.(closer := CloserLeaving, flags := s.flags.(closeDone := true))
    case CloserLeaving => s.(closer := CloserGone, memory := Dropped(s.memory))
  }

  function CloserCalls(s: State): seq<Op> {
    if s.closer == CloserMarking then [MaybeCheck] else []
  }

  predicate Alive(s: State, w: Who) {
    match w
    case Boot => s.boot != BootGone
    case Reactor => s.reactor != NoReactor && s.reactor != ReactorGone
    case Waiter => s.waiter != NoWaiter && s.waiter != WaiterGone
    case Closer => s.closer != NoCloser && s.closer != CloserGone
    case Isolate => false
    case Finalizer => false
  }

  function BodyEffect(s: State, w: Who, how: Outcome): State
    requires Alive(s, w)
  {
    match w
    case Boot => BootNext(s, how)
    case Reactor => ReactorNext(s, how)
    case Waiter => WaiterNext(s)
    case Closer => CloserNext(s)
  }

  function BodyCalls(s: State, w: Who, how: Outcome): seq<Op>
    requires Alive(s, w)
  {
    match w
    case Boot => BootCalls(s, how)
    case Reactor => ReactorCalls(s, how)
    case Waiter => WaiterCalls(s)
    case Closer => CloserCalls(s)
  }

  predicate Enabled(s: State, l: Label) {
    Total(s.calls) &&
    match l
    case Call(w, how) => CallEnabled(s, w, how)
    case Body(w, _) => s.calls[w] == [] && Alive(s, w)
    // The isolate calls while it has its reference, one call at a time.
    case Close => s.calls[Isolate] == [] && s.memory.owner
    // close() gives the reference back after SESSION_CLOSED, if nothing has
    // abandoned the session or is about to.
    case Release =>
      && s.calls[Isolate] == [] && s.memory.owner && !s.memory.abandoned
      && SessionClosed in s.history.log && (forall w :: Abandon !in s.calls[w])
    // The finalizer runs on a session that is still there, when the isolate
    // is in no call.
    case Finalize =>
      s.calls[Isolate] == [] && s.calls[Finalizer] == [] && !s.memory.detached && s.memory.frees == 0
  }

  function Next(s: State, l: Label): State
    requires Enabled(s, l)
  {
    match l
    case Call(w, how) => CallNext(s, w, how)
    case Body(w, how) => BodyEffect(s, w, how).(calls := s.calls[w := BodyCalls(s, w, how)])
    case Close => s.(calls := s.calls[Isolate := [BeginClose]])
    case Release => s.(memory := Dropped(s.memory).(owner := false, detached := true))
    case Finalize =>
      Effect(s, Abandon, Good).(calls := s.calls[Finalizer := Pushed(s, Abandon, Good)])
  }

  // ------------------------------------------------------- the invariants

  /** What the operations still to be done amount to: references held,
      owner's drops, abandons, posts of SESSION_CLOSED, looks at the done
      flags, steps towards a close worker, requests for one, requests that
      know of a platform, lifecycle stores, and posts that must not be. */
  datatype Tally = Tally(
    refs: int, drops: int, abandons: int, tickets: int, checks: int, closing: int, asking: int, informed: int,
    marksClosing: int, marksClosed: int, stray: int)

  function Worth(op: Op): Tally {
    match op
    case Post(event) => if event == SessionClosed then Tally(0, 0, 0, 0, 0, 0, 0, 0, 0, 0, 1) else Nothing()
    case PostClosed => Tally(0, 0, 0, 1, 0, 0, 0, 0, 0, 0, 0)
    case Abandon => Tally(0, 0, 1, 0, 0, 0, 0, 0, 0, 0, 0)
    case MarkClosing => Tally(0, 0, 0, 0, 0, 0, 0, 0, 1, 0, 0)
    case MarkClosed => Tally(0, 0, 0, 0, 0, 0, 0, 0, 0, 1, 0)
    case MaybeCheck => Tally(0, 0, 0, 0, 1, 0, 0, 0, 0, 0, 0)
    case Claimed => Tally(0, 0, 0, 1, 0, 0, 0, 1, 0, 0, 0)
    case BeginClose => Nothing()
    case LoadPlatform => Tally(0, 0, 0, 0, 0, 0, 1, 0, 0, 0, 0)
    case CloseCheck => Tally(0, 0, 0, 0, 0, 0, 1, 1, 0, 0, 0)
    case Retain1 => Tally(0, 0, 0, 0, 0, 1, 0, 0, 0, 0, 0)
    case Retain2 => Tally(1, 0, 0, 0, 0, 1, 0, 0, 0, 0, 0)
    case CreateCloser => Tally(2, 0, 0, 0, 0, 1, 0, 0, 0, 0, 0)
    case FailDrop2 => Tally(2, 0, 0, 0, 0, 1, 0, 0, 0, 0, 0)
    case FailDrop1 => Tally(1, 0, 0, 0, 0, 1, 0, 0, 0, 0, 0)
    case FailSection => Tally(0, 0, 0, 0, 0, 1, 0, 0, 0, 0, 0)
    case DropRef => Tally(1, 0, 0, 0, 0, 0, 0, 0, 0, 0, 0)
    case DropOwner => Tally(0, 1, 0, 0, 0, 0, 0, 0, 0, 0, 0)
  }

  function Nothing(): Tally {
    Tally(0, 0, 0, 0, 0, 0, 0, 0, 0, 0, 0)
  }

  function Plus(a: Tally, b: Tally): Tally {
    Tally(a.refs + b.refs, a.drops + b.drops, a.abandons + b.abandons, a.tickets + b.tickets, a.checks + b.checks,
          a.closing + b.closing, a.asking + b.asking, a.informed + b.informed,
          a.marksClosing + b.marksClosing, a.marksClosed + b.marksClosed, a.stray + b.stray)
  }

  function Minus(a: Tally, b: Tally): Tally {
    Tally(a.refs - b.refs, a.drops - b.drops, a.abandons - b.abandons, a.tickets - b.tickets, a.checks - b.checks,
          a.closing - b.closing, a.asking - b.asking, a.informed - b.informed,
          a.marksClosing - b.marksClosing, a.marksClosed - b.marksClosed, a.stray - b.stray)
  }

  predicate AtLeast(a: Tally, b: Tally) {
    && a.refs >= b.refs && a.drops >= b.drops && a.abandons >= b.abandons && a.tickets >= b.tickets
    && a.checks >= b.checks && a.closing >= b.closing && a.asking >= b.asking && a.informed >= b.informed
    && a.marksClosing >= b.marksClosing && a.marksClosed >= b.marksClosed && a.stray >= b.stray
  }

  function Worths(ops: seq<Op>): Tally {
    Sum(multiset(ops))
  }

  function Sum(m: multiset<Op>): Tally {
    Tally(m[Retain2] + 2 * m[CreateCloser] + 2 * m[FailDrop2] + m[FailDrop1] + m[DropRef],
          m[DropOwner], m[Abandon], m[PostClosed] + m[Claimed], m[MaybeCheck],
          m[Retain1] + m[Retain2] + m[CreateCloser] + m[FailDrop2] + m[FailDrop1] + m[FailSection],
          m[LoadPlatform] + m[CloseCheck], m[CloseCheck] + m[Claimed], m[MarkClosing], m[MarkClosed], m[Post(SessionClosed)])
  }

  /** All operations still to be done, by whomever. */
  function All(calls: map<Who, seq<Op>>): Tally
    requires Total(calls)
  {
    AllOf(map w: Who | w in calls :: Worths(calls[w]))
  }

  function AllOf(each: map<Who, Tally>): Tally
    requires forall w: Who :: w in each
  {
    Six(each[Boot], each[Reactor], each[Waiter], each[Closer], each[Isolate], each[Finalizer])
  }

  function Six(a: Tally, b: Tally, c: Tally, d: Tally, e: Tally, f: Tally): Tally {
    Plus(Plus(Plus(a, b), Plus(c, d)), Plus(e, f))
  }

  /** References of the workers, and of the bootstrap for one it is starting. */
  function BodyRefs(s: State): nat {
    (if s.boot == BootGone then 0 else if s.boot == CreatingReactor || s.boot == CreatingWaiter then 2 else 1)
    + (if s.reactor == NoReactor || s.reactor == ReactorGone then 0 else 1)
    + (if s.waiter == NoWaiter || s.waiter == WaiterGone then 0 else 1)
    + (if s.closer == NoCloser || s.closer == CloserGone then 0 else 1)
  }

  /** Every reference is somebody's. */
  predicate Counted(s: State, t: Tally) {
    && s.memory.refs == (if s.memory.owner then 1 else 0) + BodyRefs(s) + t.refs
    && s.memory.frees == (if s.memory.refs == 0 then 1 else 0)
  }

  /** The owner's reference is dropped once, by who abandoned the session or by
      the isolate. */
  predicate Owned(s: State, t: Tally) {
    && t.drops == (if s.memory.abandoned && s.memory.owner then 1 else 0)
    && (!s.memory.owner ==> s.memory.abandoned || s.memory.detached)
    && (s.memory.detached ==> !s.memory.owner && !s.memory.abandoned && t.abandons == 0)
  }

  /** A call is made by a worker that is alive, or under the owner's reference. */
  predicate Callers(s: State) {
    && Total(s.calls)
    && (forall w: Who :: s.calls[w] != [] && w != Isolate && w != Finalizer ==> Alive(s, w))
    && (s.calls[Isolate] != [] ==> s.memory.owner)
    && |s.calls[Isolate]| <= 2 && (|s.calls[Isolate]| == 2 ==> s.calls[Isolate][1] == DropOwner)
    && |s.calls[Finalizer]| <= 2
    && (s.calls[Finalizer] != [] ==> s.calls[Finalizer][|s.calls[Finalizer]| - 1] == DropOwner)
  }

  predicate BeforeReactor(pc: BootPc) {
    pc == Spawning || pc == Preparing || pc == Publishing || pc == Checking || pc == Cancelling
    || pc == RetainingReactor || pc == CreatingReactor || pc == ReactorFailed
  }

  predicate BeforeWaiter(pc: BootPc) {
    pc == RetainingWaiter || pc == CreatingWaiter || pc == WaiterFailed
  }

  predicate Decided(pc: BootPc) {
    pc == BootLeaving || pc == BootGone
  }

  /** The done flags follow the workers, or the bootstrap that has none. */
  predicate Workers(s: State) {
    var f := s.flags;
    && (BeforeReactor(s.boot) ==>
          s.reactor == NoReactor && s.waiter == NoWaiter && !f.reactorDone && !f.waiterDone && !f.outputClosed)
    && (BeforeWaiter(s.boot) ==> s.reactor != NoReactor && s.waiter == NoWaiter && !f.waiterDone)
    && (s.boot == GoingOn || s.boot == Late ==> s.reactor != NoReactor && s.waiter != NoWaiter)
    && (s.waiter != NoWaiter ==> s.reactor != NoReactor)
    && (s.reactor != NoReactor ==> (f.reactorDone <==> s.reactor == ReactorLeaving || s.reactor == ReactorGone))
    && (s.waiter != NoWaiter ==> (f.waiterDone <==> s.waiter == WaiterLeaving || s.waiter == WaiterGone))
    && (s.reactor == Reacting || s.reactor == MarkingOutput ==> !f.outputClosed)
    && (Decided(s.boot) && s.platform ==>
          (s.reactor == NoReactor ==> f.reactorDone) && (s.waiter == NoWaiter ==> f.waiterDone))
  }

  predicate AtLeastClosing(l: Lifecycle) {
    l == Closing || l == Closed
  }

  /** A close once asked for is on its way. */
  predicate Closers(s: State, t: Tally) {
    var f := s.flags;
    && (s.closer != NoCloser ==> f.closeStarted && AtLeastClosing(s.lifecycle))
    && (s.closer == CloserMarking ==> f.stopping)
    && (s.closer == CloserLeaving || s.closer == CloserGone ==> f.closeDone)
    && (f.closeDone ==> f.stopping)
    && (f.closeStarted && !f.closeDone ==> s.closer == Stopping || s.closer == CloserMarking || t.closing > 0)
    && (t.closing + t.asking > 0 ==> AtLeastClosing(s.lifecycle))
    && (t.closing > 0 ==> t.closing == 1 && f.closeStarted && s.platform && s.closer == NoCloser)
  }

  /** Startup notices a close, or hands the session over running. */
  predicate Startup(s: State, t: Tally) {
    var f := s.flags;
    && (s.platform || s.boot == Spawning || s.boot == Preparing || s.boot == Publishing || Decided(s.boot))
    && (s.boot == Spawning || s.boot == Preparing || s.boot == Publishing ==> !s.platform)
    && (!s.platform ==>
          && f == Flags(false, false, false, false, false, false, false, false)
          && s.reactor == NoReactor && s.waiter == NoWaiter && s.closer == NoCloser && t.informed == 0)
    && (s.lifecycle == Running ==> Decided(s.boot) && s.platform)
    && (s.boot == Cancelling || s.boot == Late ==> AtLeastClosing(s.lifecycle))
    && (BeforeReactor(s.boot) && f.stopping ==> AtLeastClosing(s.lifecycle))
    && (Decided(s.boot) || s.boot == ReactorFailed ==> s.lifecycle != Starting || t.marksClosing > 0)
    && (Decided(s.boot) && s.platform ==>
          s.lifecycle == Running || f.closeStarted || f.closeDone || t.asking > 0)
  }

  /** The stores of failed startups come when no close can be overtaken. */
  predicate Marks(s: State, t: Tally) {
    && (t.marksClosing > 0 ==> s.lifecycle != Running && (s.boot == ReactorFailed || Decided(s.boot)))
    && (t.marksClosing > 0 && Decided(s.boot) && s.platform ==>
          s.flags.closeStarted && s.reactor != NoReactor && s.waiter == NoWaiter)
    && (t.marksClosed > 0 ==> s.history.claimed)
    && (s.lifecycle == Closed ==> s.history.claimed && (s.platform || t.marksClosing == 0))
  }

  /** SESSION_CLOSED is one thread's to post; when all is done somebody has
      taken it on or, as Watched says, is about to look. */
  predicate Tickets(s: State, t: Tally) {
    && t.tickets + s.history.attempts == (if s.history.claimed then 1 else 0)
    && (s.history.claimed <==> s.flags.closedPosted || (!s.platform && Decided(s.boot)))
    && (s.flags.closedPosted ==> AllDone(s.flags))
  }

  predicate Watched(s: State, t: Tally) {
    Due(s) ==> t.checks > 0
  }

  predicate Follows(log: seq<Event>) {
    forall i | 0 <= i < |log| && log[i] == SessionClosed :: OutputClosed in log[..i] && Exit in log[..i]
  }

  /** What was attempted before what. */
  predicate Ordered(s: State, t: Tally) {
    var log := s.history.log;
    && t.stray == 0
    && (SessionClosed in log ==> s.history.attempts > 0)
    && (s.reactor == ReactorMarking || s.reactor == ReactorLeaving || s.reactor == ReactorGone ==> OutputClosed in log)
    && (s.waiter == WaiterLeaving || s.waiter == WaiterGone ==> Exit in log)
    && (s.reactor != NoReactor && s.waiter != NoWaiter ==> Follows(log))
  }

  /** Reactor and waiter have reported, or it is the call they are in. */
  predicate Reported(s: State) {
    && Total(s.calls)
    && (s.reactor == MarkingInput ==> OutputClosed in s.history.log || s.calls[Reactor] == [] || Post(OutputClosed) in s.calls[Reactor])
    && (s.reactor == MarkingInput && s.calls[Reactor] == [] ==> OutputClosed in s.history.log)
    && (s.waiter == WaiterMarking && s.calls[Waiter] == [] ==> Exit in s.history.log)
    && (s.waiter == WaiterMarking ==> Exit in s.history.log || s.calls[Waiter] == [] || Post(Exit) in s.calls[Waiter])
  }

  /** Everything about fields and operations to be done. */
  predicate Shape(s: State, t: Tally) {
    Front(s, t) && Back(s, t)
  }

  predicate Front(s: State, t: Tally) {
    Held(s, t) && Led(s, t)
  }

  predicate Held(s: State, t: Tally) {
    Counted(s, t) && Owned(s, t) && Workers(s)
  }

  predicate Led(s: State, t: Tally) {
    Closers(s, t) && Startup(s, t)
  }

  predicate Back(s: State, t: Tally) {
    Marks(s, t) && Tickets(s, t) && Watched(s, t) && Ordered(s, t)
  }

  /** The stores of a failed startup are the bootstrap's, CLOSING first. */
  predicate Stores(s: State) {
    && Total(s.calls)
    && (forall w: Who | w != Boot :: MarkClosing !in s.calls[w] && MarkClosed !in s.calls[w])
    && (forall i, j | 0 <= i < j < |s.calls[Boot]| && s.calls[Boot][i] == MarkClosed :: s.calls[Boot][j] != MarkClosing)
  }

  predicate Inv(s: State) {
    Callers(s) && Reported(s) && Stores(s) && Shape(s, All(s.calls))
  }

  // ------------------------------------------------------- one operation

  /** What the operation pushes amounts to. */
  function PushWorth(s: State, op: Op, how: Outcome): Tally {
    if op == Abandon then (if s.memory.abandoned then Nothing() else Worth(DropOwner))
    else
      match NextOp(s, op, how)
      case None => Nothing()
      case Some(next) => Worth(next)
  }

  lemma SumOfBoth(a: multiset<Op>, b: multiset<Op>)
    ensures Sum(a + b) == Plus(Sum(a), Sum(b))
  {
  }

  lemma SumOfOne(op: Op)
    ensures Sum(multiset{op}) == Worth(op)
  {
    match op
    case Post(event) =>
    case PostClosed =>
    case Abandon =>
    case MarkClosing =>
    case MarkClosed =>
    case MaybeCheck =>
    case Claimed =>
    case BeginClose =>
    case LoadPlatform =>
    case CloseCheck =>
    case Retain1 =>
    case Retain2 =>
    case CreateCloser =>
    case FailDrop2 =>
    case FailDrop1 =>
    case FailSection =>
    case DropRef =>
    case DropOwner =>
  }

  lemma WorthOfTwo()
    ensures Worths([BeginClose, DropOwner]) == Worth(DropOwner)
  {
  }

  lemma WorthOfPushed(s: State, op: Op, how: Outcome)
    ensures Worths(Pushed(s, op, how)) == PushWorth(s, op, how)
  {
    match NextOp(s, op, how)
    case None => WorthOfNoCalls();
    case Some(next) =>
      if op == Abandon {
        WorthOfTwo();
      } else {
        assert multiset([next]) == multiset{next};
        SumOfOne(next);
      }
  }

  /** What is left to do after an operation and what it pushes. */
  function Swap(t: Tally, op: Op, push: Tally): Tally {
    Plus(Minus(t, Worth(op)), push)
  }

  function After1(t: Tally, s: State, op: Op, how: Outcome): Tally {
    Swap(t, op, PushWorth(s, op, how))
  }

  /** Whoever does an operation is counted. */
  predicate Secure(s: State, t: Tally, op: Op) {
    AtLeast(Minus(t, Worth(op)), Nothing()) && s.memory.refs > 0
  }

  lemma LogGrows(log: seq<Event>, event: Event)
    requires Follows(log) && (event == SessionClosed ==> OutputClosed in log && Exit in log)
    ensures Follows(log + [event])
  {
    forall i | 0 <= i <= |log| && (log + [event])[i] == SessionClosed
      ensures OutputClosed in (log + [event])[..i] && Exit in (log + [event])[..i]
    {
      assert (log + [event])[..i] == log[..i];
    }
  }

  // One lemma an operation, about what that operation does.

  lemma PostKeeps(s: State, t: Tally, op: Op, event: Event, push: Tally)
    requires Secure(s, t, op) && Shape(s, t)
    requires op == if event == SessionClosed then PostClosed else Post(event)
    requires push == Nothing() || (push == Worth(Abandon) && !s.memory.detached)
    ensures Shape(s.(history := Attempted(s.history, event)), Swap(t, op, push))
  {
    if s.reactor != NoReactor && s.waiter != NoWaiter {
      LogGrows(s.history.log, event);
    }
  }

  lemma AbandonAgainKeeps(s: State, t: Tally)
    requires Secure(s, t, Abandon) && Shape(s, t)
    requires s.memory.abandoned
    ensures Shape(s.(memory := s.memory.(abandoned := true)), Swap(t, Abandon, Nothing()))
  {
  }

  lemma AbandonKeeps(s: State, t: Tally)
    requires Secure(s, t, Abandon) && Shape(s, t)
    requires !s.memory.abandoned
    ensures Shape(s.(memory := s.memory.(abandoned := true)), Swap(t, Abandon, Worth(DropOwner)))
  {
  }

  lemma MarkClosingKeeps(s: State, t: Tally)
    requires Secure(s, t, MarkClosing) && Shape(s, t)
    ensures Shape(s.(lifecycle := Closing), Swap(t, MarkClosing, Nothing()))
  {
  }

  lemma MarkClosedKeeps(s: State, t: Tally)
    requires Secure(s, t, MarkClosed) && Shape(s, t)
    requires t.marksClosing == 0
    ensures Shape(s.(lifecycle := Closed), Swap(t, MarkClosed, Nothing()))
  {
  }

  lemma ClaimKeeps(s: State, t: Tally)
    requires Secure(s, t, MaybeCheck) && Shape(s, t)
    requires Due(s)
    ensures Shape(s.(flags := s.flags.(closedPosted := true), history := s.history.(claimed := true)),
                  Swap(t, MaybeCheck, Worth(Claimed)))
  {
  }

  lemma NoClaimKeeps(s: State, t: Tally)
    requires Secure(s, t, MaybeCheck) && Shape(s, t)
    requires !Due(s)
    ensures Shape(s, Swap(t, MaybeCheck, Nothing()))
  {
  }

  lemma ClaimedKeeps(s: State, t: Tally)
    requires Secure(s, t, Claimed) && Shape(s, t)
    ensures Shape(s.(lifecycle := Closed), Swap(t, Claimed, Worth(PostClosed)))
  {
  }

  lemma BeginCloseKeeps(s: State, t: Tally)
    requires Secure(s, t, BeginClose) && Shape(s, t)
    requires s.lifecycle != Closed
    ensures Shape(s.(lifecycle := Closing), Swap(t, BeginClose, if s.lifecycle == Starting then Nothing() else Worth(LoadPlatform)))
  {
  }

  lemma TooLateToCloseKeeps(s: State, t: Tally)
    requires Secure(s, t, BeginClose) && Shape(s, t)
    ensures Shape(s, Swap(t, BeginClose, Nothing()))
  {
  }

  lemma LoadPlatformKeeps(s: State, t: Tally)
    requires Secure(s, t, LoadPlatform) && Shape(s, t)
    ensures Shape(s, Swap(t, LoadPlatform, if s.platform then Worth(CloseCheck) else Nothing()))
  {
  }

  lemma CloseCheckKeeps(s: State, t: Tally)
    requires Secure(s, t, CloseCheck) && Shape(s, t)
    requires !s.flags.closeStarted && !s.flags.closeDone
    ensures Shape(s.(flags := s.flags.(closeStarted := true)), Swap(t, CloseCheck, Worth(Retain1)))
  {
  }

  lemma CloseCheckedKeeps(s: State, t: Tally)
    requires Secure(s, t, CloseCheck) && Shape(s, t)
    requires s.flags.closeStarted || s.flags.closeDone
    ensures Shape(s, Swap(t, CloseCheck, Nothing()))
  {
  }

  lemma RetainKeeps(s: State, t: Tally, op: Op, next: Op)
    requires Secure(s, t, op) && Shape(s, t)
    requires (op == Retain1 && next == Retain2) || (op == Retain2 && next == CreateCloser)
    ensures Shape(s.(memory := Retained(s.memory)), Swap(t, op, Worth(next)))
  {
  }

  lemma CreateCloserKeeps(s: State, t: Tally)
    requires Secure(s, t, CreateCloser) && Shape(s, t)
    ensures Shape(s.(closer := Stopping), Swap(t, CreateCloser, Worth(DropRef)))
  {
  }

  lemma CannotCreateKeeps(s: State, t: Tally)
    requires Secure(s, t, CreateCloser) && Shape(s, t)
    ensures Shape(s, Swap(t, CreateCloser, Worth(FailDrop2)))
  {
  }

  lemma DropKeeps(s: State, t: Tally, op: Op, push: Tally)
    requires Secure(s, t, op) && Shape(s, t)
    requires (op == FailDrop2 && push == Worth(FailDrop1)) || (op == FailDrop1 && push == Worth(FailSection)) || (op == DropRef && push == Nothing())
    ensures Shape(s.(memory := Dropped(s.memory)), Swap(t, op, push))
  {
  }

  lemma FailSectionKeeps(s: State, t: Tally)
    requires Secure(s, t, FailSection) && Shape(s, t)
    ensures Shape(s.(flags := s.flags.(stopping := true, closeDone := true)), Swap(t, FailSection, Worth(MaybeCheck)))
  {
  }

  lemma DropOwnerKeeps(s: State, t: Tally)
    requires Secure(s, t, DropOwner) && Shape(s, t)
    ensures Shape(s.(memory := Dropped(s.memory).(owner := false)), Swap(t, DropOwner, Nothing()))
  {
  }

  predicate Posts(op: Op) {
    op.Post? || op == PostClosed || op == Abandon
  }

  lemma PostsShape(s: State, t: Tally, op: Op, how: Outcome)
    requires Secure(s, t, op) && Allows(s, op, how) && Shape(s, t) && Posts(op)
    ensures Shape(Effect(s, op, how), After1(t, s, op, how))
  {
    match op
    case Post(event) =>
      PostIsNotClosed(s, t, event);
      PostKeeps(s, t, op, event, PushWorth(s, op, how));
    case PostClosed => PostKeeps(s, t, op, SessionClosed, PushWorth(s, op, how));
    case Abandon => if s.memory.abandoned { AbandonAgainKeeps(s, t); } else { AbandonKeeps(s, t); }
  }

  lemma PostIsNotClosed(s: State, t: Tally, event: Event)
    requires Secure(s, t, Post(event)) && Ordered(s, t)
    ensures event != SessionClosed
  {
  }

  predicate Stores1(op: Op) {
    op == MarkClosing || op == MarkClosed || op == MaybeCheck || op == Claimed
  }

  lemma StoresShape(s: State, t: Tally, op: Op, how: Outcome)
    requires Secure(s, t, op) && Shape(s, t) && Stores1(op) && (op == MarkClosed ==> t.marksClosing == 0)
    ensures Shape(Effect(s, op, how), After1(t, s, op, how))
  {
    match op
    case MarkClosing => MarkClosingKeeps(s, t);
    case MarkClosed => MarkClosedKeeps(s, t);
    case MaybeCheck => if Due(s) { ClaimKeeps(s, t); } else { NoClaimKeeps(s, t); }
    case Claimed => ClaimedKeeps(s, t);
  }

  lemma BeginCloseShape(s: State, t: Tally, how: Outcome)
    requires Secure(s, t, BeginClose) && Shape(s, t)
    ensures Shape(Effect(s, BeginClose, how), After1(t, s, BeginClose, how))
  {
    if s.lifecycle == Closed {
      TooLateToCloseKeeps(s, t);
    } else {
      BeginCloseKeeps(s, t);
    }
  }

  lemma CloseCheckShape(s: State, t: Tally, how: Outcome)
    requires Secure(s, t, CloseCheck) && Shape(s, t)
    ensures Shape(Effect(s, CloseCheck, how), After1(t, s, CloseCheck, how))
  {
    if s.flags.closeStarted || s.flags.closeDone {
      CloseCheckedKeeps(s, t);
    } else {
      CloseCheckKeeps(s, t);
    }
  }

  predicate Creates(op: Op) {
    op == Retain1 || op == Retain2 || op == CreateCloser
  }

  lemma CreatesShape(s: State, t: Tally, op: Op, how: Outcome)
    requires Secure(s, t, op) && Shape(s, t) && Creates(op)
    ensures Shape(Effect(s, op, how), After1(t, s, op, how))
  {
    match op
    case Retain1 => RetainKeeps(s, t, op, Retain2);
    case Retain2 => RetainKeeps(s, t, op, CreateCloser);
    case CreateCloser => if how == Good { CreateCloserKeeps(s, t); } else { CannotCreateKeeps(s, t); }
  }

  predicate Drops(op: Op) {
    op == FailDrop2 || op == FailDrop1 || op == FailSection || op == DropRef || op == DropOwner
  }

  lemma DropsShape(s: State, t: Tally, op: Op, how: Outcome)
    requires Secure(s, t, op) && Shape(s, t) && Drops(op)
    ensures Shape(Effect(s, op, how), After1(t, s, op, how))
  {
    match op
    case FailDrop2 => DropKeeps(s, t, op, Worth(FailDrop1));
    case FailDrop1 => DropKeeps(s, t, op, Worth(FailSection));
    case FailSection => FailSectionKeeps(s, t);
    case DropRef => DropKeeps(s, t, op, Nothing());
    case DropOwner => DropOwnerKeeps(s, t);
  }

  lemma EffectShape(s: State, t: Tally, op: Op, how: Outcome)
    requires Secure(s, t, op) && Allows(s, op, how) && Shape(s, t) && (op == MarkClosed ==> t.marksClosing == 0)
    ensures Shape(Effect(s, op, how), After1(t, s, op, how))
  {
    if Posts(op) {
      PostsShape(s, t, op, how);
    } else if Stores1(op) {
      StoresShape(s, t, op, how);
    } else if op == BeginClose {
      BeginCloseShape(s, t, how);
    } else if op == LoadPlatform {
      LoadPlatformKeeps(s, t);
    } else if op == CloseCheck {
      CloseCheckShape(s, t, how);
    } else if Creates(op) {
      CreatesShape(s, t, op, how);
    } else {
      DropsShape(s, t, op, how);
    }
  }

  /** Only posts touch the log. */
  lemma EffectKeepsLog(s: State, op: Op, how: Outcome)
    requires !op.Post? && op != PostClosed
    ensures var s' := Effect(s, op, how);
            s'.history.log == s.history.log && s'.reactor == s.reactor && s'.waiter == s.waiter
  {
    match op
    case Abandon =>
    case MarkClosing =>
    case MarkClosed =>
    case MaybeCheck =>
    case Claimed =>
    case BeginClose =>
    case LoadPlatform =>
    case CloseCheck =>
    case Retain1 =>
    case Retain2 =>
    case CreateCloser =>
    case FailDrop2 =>
    case FailDrop1 =>
    case FailSection =>
    case DropRef =>
    case DropOwner =>
  }

  // ------------------------------------------------------- one step of a body

  /** What the bootstrap's calls amount to. */
  function BootWorth(s: State, how: Outcome): Tally {
    match s.boot
    case Spawning => if how == Good then Nothing() else Tally(0, 0, 0, 1, 0, 0, 0, 0, 1, 1, 0)
    case Preparing => if how == Good then Nothing() else Tally(0, 0, 0, 1, 0, 0, 0, 0, 1, 1, 0)
    case Cancelling => Tally(0, 0, 0, 1, 0, 0, 0, 0, 0, 1, 0)
    case CreatingReactor => if how == Good then Nothing() else Tally(1, 0, 0, 0, 0, 0, 0, 0, 1, 0, 0)
    case ReactorFailed =>
      if s.flags.closeStarted then Tally(0, 0, 0, 0, 1, 0, 0, 0, 0, 0, 0) else Tally(0, 0, 0, 1, 0, 0, 0, 0, 0, 1, 0)
    case CreatingWaiter => if how == Good then Nothing() else Tally(1, 0, 0, 0, 0, 0, 0, 0, 0, 0, 0)
    case WaiterFailed => Tally(0, 0, 0, 0, 1, 0, 0, 0, 1, 0, 0)
    case Late => Tally(0, 0, 0, 0, 1, 0, 0, 0, 0, 0, 0)
    case _ => Nothing()
  }

  lemma WorthOfSpawnFailed()
    ensures Worths([Post(SpawnFailed), Post(OutputClosed), MarkClosing, MarkClosed, PostClosed]) == Tally(0, 0, 0, 1, 0, 0, 0, 0, 1, 1, 0)
  {
  }

  lemma WorthOfSetupFailed()
    ensures Worths([Post(SpawnFailed), MarkClosing, MarkClosed, PostClosed]) == Tally(0, 0, 0, 1, 0, 0, 0, 0, 1, 1, 0)
  {
  }

  lemma WorthOfCancelled()
    ensures Worths([Post(SpawnFailed), MarkClosed, Post(OutputClosed), PostClosed]) == Tally(0, 0, 0, 1, 0, 0, 0, 0, 0, 1, 0)
  {
  }

  lemma WorthOfNoReactor()
    ensures Worths([Post(SpawnFailed), Post(OutputClosed), MarkClosed, PostClosed]) == Tally(0, 0, 0, 1, 0, 0, 0, 0, 0, 1, 0)
  {
  }

  lemma WorthOfNoReactorClosing()
    ensures Worths([Post(SpawnFailed), Post(OutputClosed), MaybeCheck]) == Tally(0, 0, 0, 0, 1, 0, 0, 0, 0, 0, 0)
  {
  }

  lemma WorthOfNoWaiter()
    ensures Worths([MarkClosing, Post(SpawnFailed), MaybeCheck]) == Tally(0, 0, 0, 0, 1, 0, 0, 0, 1, 0, 0)
  {
  }

  lemma WorthOfLate()
    ensures Worths([Post(SpawnFailed), MaybeCheck]) == Tally(0, 0, 0, 0, 1, 0, 0, 0, 0, 0, 0)
  {
  }

  lemma WorthOfGivingUp()
    ensures Worths([DropRef, MarkClosing]) == Tally(1, 0, 0, 0, 0, 0, 0, 0, 1, 0, 0)
  {
  }

  lemma WorthOfDrop()
    ensures Worths([DropRef]) == Tally(1, 0, 0, 0, 0, 0, 0, 0, 0, 0, 0)
  {
  }

  lemma WorthOfSpawned()
    ensures Worths([Post(Spawned)]) == Nothing()
  {
  }

  lemma WorthOfNoCalls()
    ensures Worths([]) == Nothing()
  {
  }

  lemma WorthInSpawning(s: State, how: Outcome)
    requires s.boot == Spawning
    ensures Worths(BootCalls(s, how)) == BootWorth(s, how)
  {
    WorthOfSpawnFailed();
  }

  lemma WorthInPreparing(s: State, how: Outcome)
    requires s.boot == Preparing
    ensures Worths(BootCalls(s, how)) == BootWorth(s, how)
  {
    WorthOfSetupFailed();
  }

  lemma WorthInCancelling(s: State, how: Outcome)
    requires s.boot == Cancelling
    ensures Worths(BootCalls(s, how)) == BootWorth(s, how)
  {
    WorthOfCancelled();
  }

  lemma WorthInCreatingReactor(s: State, how: Outcome)
    requires s.boot == CreatingReactor
    ensures Worths(BootCalls(s, how)) == BootWorth(s, how)
  {
    WorthOfGivingUp();
  }

  lemma WorthInReactorFailed(s: State, how: Outcome)
    requires s.boot == ReactorFailed
    ensures Worths(BootCalls(s, how)) == BootWorth(s, how)
  {
    WorthOfNoReactor();
    WorthOfNoReactorClosing();
  }

  lemma WorthInCreatingWaiter(s: State, how: Outcome)
    requires s.boot == CreatingWaiter
    ensures Worths(BootCalls(s, how)) == BootWorth(s, how)
  {
    WorthOfDrop();
  }

  lemma WorthInWaiterFailed(s: State, how: Outcome)
    requires s.boot == WaiterFailed
    ensures Worths(BootCalls(s, how)) == BootWorth(s, how)
  {
    WorthOfNoWaiter();
  }

  lemma WorthInGoingOn(s: State, how: Outcome)
    requires s.boot == GoingOn
    ensures Worths(BootCalls(s, how)) == BootWorth(s, how)
  {
    WorthOfSpawned();
  }

  lemma WorthInLate(s: State, how: Outcome)
    requires s.boot == Late
    ensures Worths(BootCalls(s, how)) == BootWorth(s, how)
  {
    WorthOfLate();
  }

  lemma WorthOfBootCalls(s: State, how: Outcome)
    ensures Worths(BootCalls(s, how)) == BootWorth(s, how)
  {
    match s.boot
    case Spawning => WorthInSpawning(s, how);
    case Preparing => WorthInPreparing(s, how);
    case Cancelling => WorthInCancelling(s, how);
    case CreatingReactor => WorthInCreatingReactor(s, how);
    case ReactorFailed => WorthInReactorFailed(s, how);
    case CreatingWaiter => WorthInCreatingWaiter(s, how);
    case WaiterFailed => WorthInWaiterFailed(s, how);
    case GoingOn => WorthInGoingOn(s, how);
    case Late => WorthInLate(s, how);
    case Publishing => WorthOfNoCalls();
    case Checking => WorthOfNoCalls();
    case RetainingReactor => WorthOfNoCalls();
    case RetainingWaiter => WorthOfNoCalls();
    case BootLeaving => WorthOfNoCalls();
    case BootGone => WorthOfNoCalls();
  }

  /** The bootstrap goes on, alive and counted. */
  predicate Steady(s: State, t: Tally) {
    AtLeast(t, Nothing()) && s.memory.refs > 0
  }

  lemma SpawnKeeps(s: State, t: Tally)
    requires Steady(s, t) && Shape(s, t) && s.boot == Spawning
    ensures Shape(s.(boot := Preparing), Plus(t, Nothing()))
  {
  }

  lemma SpawnFailsKeeps(s: State, t: Tally)
    requires Steady(s, t) && Shape(s, t) && s.boot == Spawning
    ensures Shape(Bare(s), Plus(t, Tally(0, 0, 0, 1, 0, 0, 0, 0, 1, 1, 0)))
  {
  }

  lemma PrepareKeeps(s: State, t: Tally)
    requires Steady(s, t) && Shape(s, t) && s.boot == Preparing
    ensures Shape(s.(boot := Publishing), Plus(t, Nothing()))
  {
  }

  lemma PrepareFailsKeeps(s: State, t: Tally)
    requires Steady(s, t) && Shape(s, t) && s.boot == Preparing
    ensures Shape(Bare(s), Plus(t, Tally(0, 0, 0, 1, 0, 0, 0, 0, 1, 1, 0)))
  {
  }

  lemma PublishKeeps(s: State, t: Tally)
    requires Steady(s, t) && Shape(s, t) && s.boot == Publishing
    ensures Shape(s.(platform := true, boot := Checking), Plus(t, Nothing()))
  {
  }

  lemma CheckKeeps(s: State, t: Tally)
    requires Steady(s, t) && Shape(s, t) && s.boot == Checking
    ensures Shape(s.(boot := if Cancel(s) then Cancelling else RetainingReactor), Plus(t, Nothing()))
  {
  }

  lemma CancelKeeps(s: State, t: Tally)
    requires Steady(s, t) && Shape(s, t) && s.boot == Cancelling
    ensures Shape(Cancelled(s), Plus(t, Tally(0, 0, 0, 1, 0, 0, 0, 0, 0, 1, 0)))
  {
  }

  lemma RetainReactorKeeps(s: State, t: Tally)
    requires Steady(s, t) && Shape(s, t) && s.boot == RetainingReactor
    ensures Shape(s.(boot := CreatingReactor, memory := Retained(s.memory)), Plus(t, Nothing()))
  {
  }

  lemma CreateReactorKeeps(s: State, t: Tally)
    requires Steady(s, t) && Shape(s, t) && s.boot == CreatingReactor
    ensures Shape(s.(boot := RetainingWaiter, reactor := Reacting), Plus(t, Nothing()))
  {
  }

  lemma NoReactorKeeps(s: State, t: Tally)
    requires Steady(s, t) && Shape(s, t) && s.boot == CreatingReactor
    ensures Shape(s.(boot := ReactorFailed), Plus(t, Tally(1, 0, 0, 0, 0, 0, 0, 0, 1, 0, 0)))
  {
  }

  lemma WithoutReactorKeeps(s: State, t: Tally)
    requires Steady(s, t) && Shape(s, t) && s.boot == ReactorFailed
    requires !s.flags.closeStarted && t.marksClosing == 0
    ensures Shape(WithoutReactor(s), Plus(t, Tally(0, 0, 0, 1, 0, 0, 0, 0, 0, 1, 0)))
  {
  }

  lemma WithoutReactorClosingKeeps(s: State, t: Tally)
    requires Steady(s, t) && Shape(s, t) && s.boot == ReactorFailed
    requires s.flags.closeStarted && t.marksClosing == 0
    ensures Shape(WithoutReactor(s), Plus(t, Tally(0, 0, 0, 0, 1, 0, 0, 0, 0, 0, 0)))
  {
  }

  lemma RetainWaiterKeeps(s: State, t: Tally)
    requires Steady(s, t) && Shape(s, t) && s.boot == RetainingWaiter
    ensures Shape(s.(boot := CreatingWaiter, memory := Retained(s.memory)), Plus(t, Nothing()))
  {
  }

  lemma CreateWaiterKeeps(s: State, t: Tally)
    requires Steady(s, t) && Shape(s, t) && s.boot == CreatingWaiter
    ensures Shape(s.(boot := GoingOn, waiter := Awaiting), Plus(t, Nothing()))
  {
  }

  lemma NoWaiterKeeps(s: State, t: Tally)
    requires Steady(s, t) && Shape(s, t) && s.boot == CreatingWaiter
    ensures Shape(s.(boot := WaiterFailed), Plus(t, Tally(1, 0, 0, 0, 0, 0, 0, 0, 0, 0, 0)))
  {
  }

  lemma WithoutWaiterKeeps(s: State, t: Tally)
    requires Steady(s, t) && Shape(s, t) && s.boot == WaiterFailed
    ensures Shape(s.(boot := BootLeaving, flags := Reserved(s.flags).(waiterDone := true)), Plus(t, Tally(0, 0, 0, 0, 1, 0, 0, 0, 1, 0, 0)))
  {
  }

  lemma GoOnKeeps(s: State, t: Tally)
    requires Steady(s, t) && Shape(s, t) && s.boot == GoingOn
    requires s.lifecycle == Starting
    ensures Shape(s.(boot := BootLeaving, lifecycle := Running), Plus(t, Nothing()))
  {
  }

  lemma BeLateKeeps(s: State, t: Tally)
    requires Steady(s, t) && Shape(s, t) && s.boot == GoingOn
    requires s.lifecycle != Starting
    ensures Shape(s.(boot := Late), Plus(t, Nothing()))
  {
  }

  lemma LateKeeps(s: State, t: Tally)
    requires Steady(s, t) && Shape(s, t) && s.boot == Late
    ensures Shape(s.(boot := BootLeaving, flags := Reserved(s.flags)), Plus(t, Tally(0, 0, 0, 0, 1, 0, 0, 0, 0, 0, 0)))
  {
  }

  lemma BootLeaveKeeps(s: State, t: Tally)
    requires Steady(s, t) && Shape(s, t) && s.boot == BootLeaving
    ensures Shape(s.(boot := BootGone, memory := Dropped(s.memory)), Plus(t, Nothing()))
  {
  }

  lemma EarlyShape(s: State, t: Tally, how: Outcome)
    requires Steady(s, t) && Shape(s, t) && (s.boot == Spawning || s.boot == Preparing || s.boot == Publishing || s.boot == Checking)
    ensures Shape(BootNext(s, how), Plus(t, BootWorth(s, how)))
  {
    match s.boot
    case Spawning => if how == Good { SpawnKeeps(s, t); } else { SpawnFailsKeeps(s, t); }
    case Preparing => if how == Good { PrepareKeeps(s, t); } else { PrepareFailsKeeps(s, t); }
    case Publishing => PublishKeeps(s, t);
    case Checking => CheckKeeps(s, t);
  }

  lemma ReactorStartShape(s: State, t: Tally, how: Outcome)
    requires Steady(s, t) && Shape(s, t) && (s.boot == Cancelling || s.boot == RetainingReactor || s.boot == CreatingReactor || s.boot == ReactorFailed)
    requires s.boot == ReactorFailed ==> t.marksClosing == 0
    ensures Shape(BootNext(s, how), Plus(t, BootWorth(s, how)))
  {
    match s.boot
    case Cancelling => CancelKeeps(s, t);
    case RetainingReactor => RetainReactorKeeps(s, t);
    case CreatingReactor => if how == Good { CreateReactorKeeps(s, t); } else { NoReactorKeeps(s, t); }
    case ReactorFailed => if s.flags.closeStarted { WithoutReactorClosingKeeps(s, t); } else { WithoutReactorKeeps(s, t); }
  }

  lemma WaiterStartShape(s: State, t: Tally, how: Outcome)
    requires Steady(s, t) && Shape(s, t) && BeforeWaiter(s.boot)
    ensures Shape(BootNext(s, how), Plus(t, BootWorth(s, how)))
  {
    match s.boot
    case RetainingWaiter => RetainWaiterKeeps(s, t);
    case CreatingWaiter => if how == Good { CreateWaiterKeeps(s, t); } else { NoWaiterKeeps(s, t); }
    case WaiterFailed => WithoutWaiterKeeps(s, t);
  }

  lemma LateShape(s: State, t: Tally, how: Outcome)
    requires Steady(s, t) && Shape(s, t) && (s.boot == GoingOn || s.boot == Late || s.boot == BootLeaving)
    ensures Shape(BootNext(s, how), Plus(t, BootWorth(s, how)))
  {
    match s.boot
    case GoingOn => if s.lifecycle == Starting { GoOnKeeps(s, t); } else { BeLateKeeps(s, t); }
    case Late => LateKeeps(s, t);
    case BootLeaving => BootLeaveKeeps(s, t);
  }

  lemma BootShape(s: State, t: Tally, how: Outcome)
    requires Steady(s, t) && Shape(s, t) && s.boot != BootGone && (s.boot == ReactorFailed ==> t.marksClosing == 0)
    ensures Shape(BootNext(s, how), Plus(t, BootWorth(s, how)))
  {
    if s.boot == Spawning || s.boot == Preparing || s.boot == Publishing || s.boot == Checking {
      EarlyShape(s, t, how);
    } else if BeforeReactor(s.boot) {
      ReactorStartShape(s, t, how);
    } else if BeforeWaiter(s.boot) {
      WaiterStartShape(s, t, how);
    } else {
      LateShape(s, t, how);
    }
  }

  /** The other workers call at most one post or one look at the flags. */
  function LookWorth(looks: bool): Tally {
    if looks then Worth(MaybeCheck) else Nothing()
  }

  lemma ReactKeeps(s: State, t: Tally)
    requires Steady(s, t) && Shape(s, t) && s.reactor == Reacting
    ensures Shape(s.(flags := s.flags.(inputClosed := true)), Plus(t, Nothing()))
  {
  }

  lemma SameKeeps(s: State, t: Tally)
    requires Steady(s, t) && Shape(s, t) && true
    ensures Shape(s, Plus(t, Nothing()))
  {
  }

  lemma StopReactingKeeps(s: State, t: Tally)
    requires Steady(s, t) && Shape(s, t) && s.reactor == Reacting
    ensures Shape(s.(reactor := MarkingOutput), Plus(t, Nothing()))
  {
  }

  lemma OutputKeeps(s: State, t: Tally)
    requires Steady(s, t) && Shape(s, t) && s.reactor == MarkingOutput
    ensures Shape(s.(reactor := MarkingInput, flags := s.flags.(outputClosed := true)), Plus(t, Nothing()))
  {
  }

  lemma InputKeeps(s: State, t: Tally)
    requires Steady(s, t) && Shape(s, t) && s.reactor == MarkingInput && OutputClosed in s.history.log
    ensures Shape(s.(reactor := ReactorMarking, flags := s.flags.(inputClosed := true)), Plus(t, Nothing()))
  {
  }

  lemma ReactorMarkKeeps(s: State, t: Tally)
    requires Steady(s, t) && Shape(s, t) && s.reactor == ReactorMarking
    ensures Shape(s.(reactor := ReactorLeaving, flags := s.flags.(reactorDone := true)), Plus(t, Worth(MaybeCheck)))
  {
  }

  lemma ReactorLeaveKeeps(s: State, t: Tally)
    requires Steady(s, t) && Shape(s, t) && s.reactor == ReactorLeaving
    ensures Shape(s.(reactor := ReactorGone, memory := Dropped(s.memory)), Plus(t, Nothing()))
  {
  }

  lemma ReactorShape(s: State, t: Tally, how: Outcome)
    requires Steady(s, t) && Shape(s, t) && Alive(s, Reactor)
    requires s.reactor == MarkingInput ==> OutputClosed in s.history.log
    ensures Shape(ReactorNext(s, how), Plus(t, LookWorth(s.reactor == ReactorMarking)))
  {
    match s.reactor
    case Reacting =>
      match how {
        case Good => SameKeeps(s, t);
        case Skipped => ReactKeeps(s, t);
        case Bad => StopReactingKeeps(s, t);
      }
    case MarkingOutput => OutputKeeps(s, t);
    case MarkingInput => InputKeeps(s, t);
    case ReactorMarking => ReactorMarkKeeps(s, t);
    case ReactorLeaving => ReactorLeaveKeeps(s, t);
  }

  lemma AwaitKeeps(s: State, t: Tally)
    requires Steady(s, t) && Shape(s, t) && s.waiter == Awaiting
    ensures Shape(s.(waiter := WaiterMarking), Plus(t, Nothing()))
  {
  }

  lemma WaiterMarkKeeps(s: State, t: Tally)
    requires Steady(s, t) && Shape(s, t) && s.waiter == WaiterMarking && Exit in s.history.log
    ensures Shape(s.(waiter := WaiterLeaving, flags := s.flags.(waiterDone := true)), Plus(t, Worth(MaybeCheck)))
  {
  }

  lemma WaiterLeaveKeeps(s: State, t: Tally)
    requires Steady(s, t) && Shape(s, t) && s.waiter == WaiterLeaving
    ensures Shape(s.(waiter := WaiterGone, memory := Dropped(s.memory)), Plus(t, Nothing()))
  {
  }

  lemma WaiterShape(s: State, t: Tally)
    requires Steady(s, t) && Shape(s, t) && Alive(s, Waiter)
    requires s.waiter == WaiterMarking ==> Exit in s.history.log
    ensures Shape(WaiterNext(s), Plus(t, LookWorth(s.waiter == WaiterMarking)))
  {
    match s.waiter
    case Awaiting => AwaitKeeps(s, t);
    case WaiterMarking => WaiterMarkKeeps(s, t);
    case WaiterLeaving => WaiterLeaveKeeps(s, t);
  }

  lemma StopKeeps(s: State, t: Tally)
    requires Steady(s, t) && Shape(s, t) && s.closer == Stopping
    ensures Shape(s.(closer := CloserMarking, flags := s.flags.(stopping := true)), Plus(t, Nothing()))
  {
  }

  lemma CloserMarkKeeps(s: State, t: Tally)
    requires Steady(s, t) && Shape(s, t) && s.closer == CloserMarking
    ensures Shape(s.(closer := CloserLeaving, flags := s.flags.(closeDone := true)), Plus(t, Worth(MaybeCheck)))
  {
  }

  lemma CloserLeaveKeeps(s: State, t: Tally)
    requires Steady(s, t) && Shape(s, t) && s.closer == CloserLeaving
    ensures Shape(s.(closer := CloserGone, memory := Dropped(s.memory)), Plus(t, Nothing()))
  {
  }

  lemma CloserShape(s: State, t: Tally)
    requires Steady(s, t) && Shape(s, t) && Alive(s, Closer)
    ensures Shape(CloserNext(s), Plus(t, LookWorth(s.closer == CloserMarking)))
  {
    match s.closer
    case Stopping => StopKeeps(s, t);
    case CloserMarking => CloserMarkKeeps(s, t);
    case CloserLeaving => CloserLeaveKeeps(s, t);
  }

  // ------------------------------------------------------- whole steps

  lemma SumIsNatural(ops: seq<Op>)
    ensures AtLeast(Worths(ops), Nothing())
  {
  }

  lemma AllIsNatural(calls: map<Who, seq<Op>>)
    requires Total(calls)
    ensures AtLeast(All(calls), Nothing())
  {
    SumIsNatural(calls[Boot]);
    SumIsNatural(calls[Reactor]);
    SumIsNatural(calls[Waiter]);
    SumIsNatural(calls[Closer]);
    SumIsNatural(calls[Isolate]);
    SumIsNatural(calls[Finalizer]);
  }

  lemma SixReplaced(a: Tally, b: Tally, c: Tally, d: Tally, e: Tally, f: Tally, x: Tally)
    ensures Six(x, b, c, d, e, f) == Plus(Minus(Six(a, b, c, d, e, f), a), x)
    ensures Six(a, x, c, d, e, f) == Plus(Minus(Six(a, b, c, d, e, f), b), x)
    ensures Six(a, b, x, d, e, f) == Plus(Minus(Six(a, b, c, d, e, f), c), x)
    ensures Six(a, b, c, x, e, f) == Plus(Minus(Six(a, b, c, d, e, f), d), x)
    ensures Six(a, b, c, d, x, f) == Plus(Minus(Six(a, b, c, d, e, f), e), x)
    ensures Six(a, b, c, d, e, x) == Plus(Minus(Six(a, b, c, d, e, f), f), x)
  {
  }

  lemma ReplacedOf(each: map<Who, Tally>, w: Who, x: Tally)
    requires forall v: Who :: v in each
    ensures AllOf(each[w := x]) == Plus(Minus(AllOf(each), each[w]), x)
  {
    SixReplaced(each[Boot], each[Reactor], each[Waiter], each[Closer], each[Isolate], each[Finalizer], x);
    match w
    case Boot =>
    case Reactor =>
    case Waiter =>
    case Closer =>
    case Isolate =>
    case Finalizer =>
  }

  /** One thread's calls change, and the total by just that. */
  lemma Replaced(calls: map<Who, seq<Op>>, w: Who, ops: seq<Op>)
    requires Total(calls)
    ensures Total(calls[w := ops])
    ensures All(calls[w := ops]) == Plus(Minus(All(calls), Worths(calls[w])), Worths(ops))
  {
    var each := map v: Who | v in calls :: Worths(calls[v]);
    var calls' := calls[w := ops];
    assert (map v: Who | v in calls' :: Worths(calls'[v])) == each[w := Worths(ops)];
    ReplacedOf(each, w, Worths(ops));
  }

  lemma OthersRemain(calls: map<Who, seq<Op>>, w: Who)
    requires Total(calls)
    ensures AtLeast(Minus(All(calls), Worths(calls[w])), Nothing())
  {
    Replaced(calls, w, []);
    AllIsNatural(calls[w := []]);
    WorthOfNoCalls();
  }

  lemma HeadAndRest(ops: seq<Op>)
    requires ops != []
    ensures Worths(ops) == Plus(Worth(ops[0]), Worths(ops[1..]))
  {
    var head, rest := multiset{ops[0]}, multiset(ops[1..]);
    assert ops == [ops[0]] + ops[1..];
    SumOfBoth(head, rest);
    SumOfOne(ops[0]);
  }

  lemma WorthsOfConcat(a: seq<Op>, b: seq<Op>)
    ensures Worths(a + b) == Plus(Worths(a), Worths(b))
  {
    SumOfBoth(multiset(a), multiset(b));
  }

  lemma PlusMinus(all: Tally, head: Tally, rest: Tally, push: Tally)
    ensures Plus(Minus(all, Plus(head, rest)), Plus(push, rest)) == Plus(Minus(all, head), push)
    ensures AtLeast(Minus(all, Plus(head, rest)), Nothing()) && AtLeast(rest, Nothing()) ==> AtLeast(Minus(all, head), Nothing())
  {
  }

  lemma CallTally(s: State, w: Who, how: Outcome)
    requires Total(s.calls) && s.calls[w] != []
    ensures Total(CallNext(s, w, how).calls)
    ensures All(CallNext(s, w, how).calls) == After1(All(s.calls), s, s.calls[w][0], how)
    ensures AtLeast(Minus(All(s.calls), Worth(s.calls[w][0])), Nothing())
  {
    var op, rest := s.calls[w][0], s.calls[w][1..];
    Replaced(s.calls, w, Pushed(s, op, how) + rest);
    HeadAndRest(s.calls[w]);
    WorthsOfConcat(Pushed(s, op, how), rest);
    WorthOfPushed(s, op, how);
    OthersRemain(s.calls, w);
    SumIsNatural(rest);
    PlusMinus(All(s.calls), Worth(op), Worths(rest), PushWorth(s, op, how));
  }

  /** Whoever is in a call, or alive, has the session kept for it. */
  lemma SomeoneIsCounted(s: State, t: Tally, w: Who)
    requires Callers(s) && Counted(s, t) && Owned(s, t) && AtLeast(t, Nothing())
    requires s.calls[w] != [] || Alive(s, w)
    requires w == Finalizer ==> t.drops > 0
    ensures s.memory.refs > 0 && s.memory.frees == 0
  {
    match w
    case Boot =>
    case Reactor =>
    case Waiter =>
    case Closer =>
    case Isolate =>
    case Finalizer =>
  }

  lemma DropsAreCounted(calls: map<Who, seq<Op>>, w: Who)
    requires Total(calls) && DropOwner in calls[w]
    ensures All(calls).drops > 0
  {
    OthersRemain(calls, w);
  }

  lemma CallerIsCounted(s: State, w: Who)
    requires Total(s.calls) && s.calls[w] != [] && Inv(s)
    ensures s.memory.refs > 0 && s.memory.frees == 0
  {
    AllIsNatural(s.calls);
    if w == Finalizer {
      DropsAreCounted(s.calls, w);
    }
    SomeoneIsCounted(s, All(s.calls), w);
  }

  function DropsIn(ops: seq<Op>): nat {
    multiset(ops)[DropOwner]
  }

  lemma DropsAdd(calls: map<Who, seq<Op>>)
    requires Total(calls)
    ensures All(calls).drops == DropsIn(calls[Boot]) + DropsIn(calls[Reactor]) + DropsIn(calls[Waiter])
                              + DropsIn(calls[Closer]) + DropsIn(calls[Isolate]) + DropsIn(calls[Finalizer])
  {
  }

  lemma FirstDrop(ops: seq<Op>)
    requires ops != [] && ops[0] == DropOwner
    ensures DropsIn(ops) == 1 + DropsIn(ops[1..])
  {
    assert ops == [DropOwner] + ops[1..];
  }

  lemma NoDropIn(ops: seq<Op>)
    requires DropsIn(ops) == 0
    ensures DropOwner !in ops
  {
  }

  lemma OthersDropNothing(calls: map<Who, seq<Op>>, w: Who, v: Who)
    requires Total(calls) && All(calls).drops <= 1 && DropsIn(calls[w]) == 1 && v != w
    ensures DropsIn(calls[v]) == 0
  {
    DropsAdd(calls);
  }

  lemma OneDrop(calls: map<Who, seq<Op>>, w: Who)
    requires Total(calls) && All(calls).drops <= 1 && calls[w] != [] && calls[w][0] == DropOwner
    ensures DropOwner !in calls[w][1..]
    ensures forall v: Who | v != w :: DropOwner !in calls[v]
  {
    FirstDrop(calls[w]);
    DropsAdd(calls);
    assert DropsIn(calls[w]) == 1;
    NoDropIn(calls[w][1..]);
    forall v: Who | v != w ensures DropOwner !in calls[v] {
      OthersDropNothing(calls, w, v);
      NoDropIn(calls[v]);
    }
  }

  lemma NothingDrops(calls: map<Who, seq<Op>>, v: Who)
    requires Total(calls) && All(calls).drops == 0
    ensures DropsIn(calls[v]) == 0
  {
    DropsAdd(calls);
  }

  lemma NoDrop(calls: map<Who, seq<Op>>)
    requires Total(calls) && All(calls).drops == 0
    ensures forall v: Who :: DropOwner !in calls[v]
  {
    forall v: Who ensures DropOwner !in calls[v] {
      NothingDrops(calls, v);
      NoDropIn(calls[v]);
    }
  }

  /** The owner's reference is dropped when nobody relies on it any more, and
      only the first to abandon the session promises to. */
  lemma CallCallers(s: State, w: Who, how: Outcome)
    requires Callers(s) && Owned(s, All(s.calls)) && CallEnabled(s, w, how)
    ensures Callers(CallNext(s, w, how))
  {
    var op := s.calls[w][0];
    if op == DropOwner {
      OneDrop(s.calls, w);
      DropLeavesCallers(s, w, how);
    } else if op == Abandon {
      if !s.memory.abandoned {
        NoDrop(s.calls);
      }
      AbandonLeavesCallers(s, w, how);
    } else {
      OtherCallers(s, w, how);
    }
  }

  lemma DropLeavesCallers(s: State, w: Who, how: Outcome)
    requires Callers(s) && CallEnabled(s, w, how) && s.calls[w][0] == DropOwner
    requires DropOwner !in s.calls[w][1..] && forall v: Who | v != w :: DropOwner !in s.calls[v]
    ensures Callers(CallNext(s, w, how))
  {
  }

  lemma AbandonLeavesCallers(s: State, w: Who, how: Outcome)
    requires Callers(s) && CallEnabled(s, w, how) && s.calls[w][0] == Abandon
    requires !s.memory.abandoned ==> forall v: Who :: DropOwner !in s.calls[v]
    ensures Callers(CallNext(s, w, how))
  {
  }

  lemma OtherCallers(s: State, w: Who, how: Outcome)
    requires Callers(s) && CallEnabled(s, w, how) && s.calls[w][0] != DropOwner && s.calls[w][0] != Abandon
    ensures Callers(CallNext(s, w, how))
  {
    EffectKeepsAlive(s, s.calls[w][0], how);
  }

  lemma EffectKeepsAlive(s: State, op: Op, how: Outcome)
    ensures op != DropOwner ==> Effect(s, op, how).memory.owner == s.memory.owner
    ensures forall w: Who :: Alive(s, w) ==> Alive(Effect(s, op, how), w)
    ensures |Pushed(s, op, how)| <= if op == Abandon then 2 else 1
  {
    match op
    case Post(event) =>
    case PostClosed =>
    case Abandon =>
    case MarkClosing =>
    case MarkClosed =>
    case MaybeCheck =>
    case Claimed =>
    case BeginClose =>
    case LoadPlatform =>
    case CloseCheck =>
    case Retain1 =>
    case Retain2 =>
    case CreateCloser =>
    case FailDrop2 =>
    case FailDrop1 =>
    case FailSection =>
    case DropRef =>
    case DropOwner =>
  }

  lemma CallReported(s: State, w: Who, how: Outcome)
    requires Reported(s) && CallEnabled(s, w, how)
    ensures Reported(CallNext(s, w, how))
  {
    var op := s.calls[w][0];
    if op.Post? || op == PostClosed {
      assert s.calls[w] == [op] + s.calls[w][1..];
    } else {
      EffectKeepsLog(s, op, how);
      assert s.calls[w] == [op] + s.calls[w][1..];
    }
  }

  /** Shape says nothing about whose calls they are. */
  lemma ShapeIgnoresCalls(s: State, t: Tally, calls: map<Who, seq<Op>>)
    requires Shape(s, t)
    ensures Shape(s.(calls := calls), t)
  {
  }

  lemma MarksAdd(calls: map<Who, seq<Op>>)
    requires Total(calls)
    ensures All(calls).marksClosing == multiset(calls[Boot])[MarkClosing] + multiset(calls[Reactor])[MarkClosing]
                                     + multiset(calls[Waiter])[MarkClosing] + multiset(calls[Closer])[MarkClosing]
                                     + multiset(calls[Isolate])[MarkClosing] + multiset(calls[Finalizer])[MarkClosing]
  {
  }

  /** Only the bootstrap has CLOSING to store. */
  lemma NoMarks(s: State)
    requires Stores(s) && MarkClosing !in s.calls[Boot]
    ensures All(s.calls).marksClosing == 0
  {
    MarksAdd(s.calls);
  }

  lemma SomeMark(calls: map<Who, seq<Op>>)
    requires Total(calls) && MarkClosing in calls[Boot]
    ensures All(calls).marksClosing > 0
  {
    MarksAdd(calls);
  }

  /** CLOSED is stored when no CLOSING of a failed startup is left. */
  lemma MarkClosedIsLast(s: State, w: Who)
    requires Stores(s) && s.calls[w] != [] && s.calls[w][0] == MarkClosed
    ensures All(s.calls).marksClosing == 0
  {
    assert w == Boot;
    forall j | 0 <= j < |s.calls[Boot]| ensures s.calls[Boot][j] != MarkClosing {
    }
    NoMarks(s);
  }

  lemma PushesNoStore(s: State, op: Op, how: Outcome)
    ensures MarkClosing !in Pushed(s, op, how) && MarkClosed !in Pushed(s, op, how)
  {
    match op
    case Post(event) =>
    case PostClosed =>
    case Abandon =>
    case MarkClosing =>
    case MarkClosed =>
    case MaybeCheck =>
    case Claimed =>
    case BeginClose =>
    case LoadPlatform =>
    case CloseCheck =>
    case Retain1 =>
    case Retain2 =>
    case CreateCloser =>
    case FailDrop2 =>
    case FailDrop1 =>
    case FailSection =>
    case DropRef =>
    case DropOwner =>
  }

  lemma CallStores(s: State, w: Who, how: Outcome)
    requires CallEnabled(s, w, how) && Stores(s)
    ensures Stores(CallNext(s, w, how))
  {
    var push, rest := Pushed(s, s.calls[w][0], how), s.calls[w][1..];
    PushesNoStore(s, s.calls[w][0], how);
    assert CallNext(s, w, how).calls[w] == push + rest;
    forall i, j | 0 <= i < j < |push + rest| && (push + rest)[i] == MarkClosed && w == Boot
      ensures (push + rest)[j] != MarkClosing
    {
      assert (push + rest)[i] == s.calls[Boot][i - |push| + 1];
      assert (push + rest)[j] == s.calls[Boot][j - |push| + 1];
    }
  }

  lemma CallShape(s: State, w: Who, how: Outcome)
    requires CallEnabled(s, w, how) && Inv(s)
    ensures Total(CallNext(s, w, how).calls) && Shape(CallNext(s, w, how), All(CallNext(s, w, how).calls))
  {
    var op := s.calls[w][0];
    CallTally(s, w, how);
    CallerIsCounted(s, w);
    if op == MarkClosed {
      MarkClosedIsLast(s, w);
    }
    EffectShape(s, All(s.calls), op, how);
    ShapeIgnoresCalls(Effect(s, op, how), After1(All(s.calls), s, op, how), CallNext(s, w, how).calls);
  }

  lemma CallKeeps(s: State, w: Who, how: Outcome)
    requires CallEnabled(s, w, how) && Inv(s)
    ensures Inv(CallNext(s, w, how))
  {
    CallShape(s, w, how);
    CallCallers(s, w, how);
    CallReported(s, w, how);
    CallStores(s, w, how);
  }

  /** A worker between calls makes new ones. */
  lemma BodyTally(s: State, w: Who, push: seq<Op>, worth: Tally)
    requires Total(s.calls) && s.calls[w] == [] && Worths(push) == worth
    ensures Total(s.calls[w := push]) && All(s.calls[w := push]) == Plus(All(s.calls), worth)
  {
    Replaced(s.calls, w, push);
    WorthOfNoCalls();
  }

  lemma WorthOfLook(looks: bool)
    ensures Worths(if looks then [MaybeCheck] else []) == LookWorth(looks)
  {
  }

  lemma WorthOfOnePost(event: Event)
    requires event != SessionClosed
    ensures Worths([Post(event)]) == Nothing()
  {
  }

  lemma WorthOfReactorCalls(s: State, how: Outcome)
    requires Alive(s, Reactor)
    ensures Worths(ReactorCalls(s, how)) == LookWorth(s.reactor == ReactorMarking)
  {
    WorthOfNoCalls();
    WorthOfLook(true);
    WorthOfOnePost(Traffic);
    WorthOfOnePost(InputClosed);
    WorthOfOnePost(OutputClosed);
  }

  lemma WorthOfWaiterCalls(s: State)
    ensures Worths(WaiterCalls(s)) == LookWorth(s.waiter == WaiterMarking)
  {
    WorthOfNoCalls();
    WorthOfLook(true);
    WorthOfOnePost(Exit);
  }

  /** What a body needs to know of its own calls. */
  predicate Ready(s: State, t: Tally) {
    && Total(s.calls) && Steady(s, t) && Shape(s, t)
    && (s.boot == ReactorFailed && s.calls[Boot] == [] ==> t.marksClosing == 0)
  }

  lemma BodyShapeOf(s: State, t: Tally, w: Who, how: Outcome)
    requires Total(s.calls) && s.calls[w] == [] && Alive(s, w) && Ready(s, t) && Reported(s)
    ensures Shape(BodyEffect(s, w, how), Plus(t, BodyWorth(s, w, how)))
  {
    match w
    case Boot => BootShape(s, t, how);
    case Reactor => ReactorShape(s, t, how);
    case Waiter => WaiterShape(s, t);
    case Closer => CloserShape(s, t);
  }

  function BodyWorth(s: State, w: Who, how: Outcome): Tally {
    match w
    case Boot => BootWorth(s, how)
    case Reactor => LookWorth(s.reactor == ReactorMarking)
    case Waiter => LookWorth(s.waiter == WaiterMarking)
    case Closer => LookWorth(s.closer == CloserMarking)
    case _ => Nothing()
  }

  lemma WorthOfBodyCalls(s: State, w: Who, how: Outcome)
    requires Alive(s, w)
    ensures Worths(BodyCalls(s, w, how)) == BodyWorth(s, w, how)
  {
    match w
    case Boot => WorthOfBootCalls(s, how);
    case Reactor => WorthOfReactorCalls(s, how);
    case Waiter => WorthOfWaiterCalls(s);
    case Closer => WorthOfLook(s.closer == CloserMarking);
  }

  lemma IsReady(s: State, w: Who)
    requires Total(s.calls) && s.calls[w] == [] && Alive(s, w) && Inv(s)
    ensures Ready(s, All(s.calls))
  {
    AllIsNatural(s.calls);
    SomeoneIsCounted(s, All(s.calls), w);
    if s.calls[Boot] == [] {
      NoMarks(s);
    }
  }

  lemma BodyShape(s: State, w: Who, how: Outcome)
    requires Enabled(s, Body(w, how)) && Inv(s)
    ensures Total(s.calls[w := BodyCalls(s, w, how)])
    ensures Shape(BodyEffect(s, w, how), All(s.calls[w := BodyCalls(s, w, how)]))
  {
    IsReady(s, w);
    WorthOfBodyCalls(s, w, how);
    BodyTally(s, w, BodyCalls(s, w, how), BodyWorth(s, w, how));
    BodyShapeOf(s, All(s.calls), w, how);
  }

  /** What the callers need of a body's step: it ends nobody else, and not
      itself when it calls something. */
  predicate LeavesOthers(s: State, w: Who, s': State, push: seq<Op>) {
    && s'.memory.owner == s.memory.owner
    && (forall v: Who :: v != w && Alive(s, v) ==> Alive(s', v))
    && (push != [] ==> Alive(s', w))
  }

  lemma BootLeavesOthers(s: State, how: Outcome)
    requires Alive(s, Boot)
    ensures LeavesOthers(s, Boot, BootNext(s, how), BootCalls(s, how))
    ensures BootNext(s, how).history.log == s.history.log
    ensures BootNext(s, how).reactor == s.reactor || BootNext(s, how).reactor == Reacting
    ensures BootNext(s, how).waiter == s.waiter || BootNext(s, how).waiter == Awaiting
  {
    match s.boot
    case Spawning =>
    case Preparing =>
    case Publishing =>
    case Checking =>
    case Cancelling =>
    case RetainingReactor =>
    case CreatingReactor =>
    case ReactorFailed =>
    case RetainingWaiter =>
    case CreatingWaiter =>
    case WaiterFailed =>
    case GoingOn =>
    case Late =>
    case BootLeaving =>
  }

  lemma ReactorLeavesOthers(s: State, how: Outcome)
    requires Alive(s, Reactor)
    ensures LeavesOthers(s, Reactor, ReactorNext(s, how), ReactorCalls(s, how))
    ensures ReactorNext(s, how).history.log == s.history.log && ReactorNext(s, how).waiter == s.waiter
  {
    match s.reactor
    case Reacting =>
    case MarkingOutput =>
    case MarkingInput =>
    case ReactorMarking =>
    case ReactorLeaving =>
  }

  lemma WaiterLeavesOthers(s: State)
    requires Alive(s, Waiter)
    ensures LeavesOthers(s, Waiter, WaiterNext(s), WaiterCalls(s))
    ensures WaiterNext(s).history.log == s.history.log && WaiterNext(s).reactor == s.reactor
  {
    match s.waiter
    case Awaiting =>
    case WaiterMarking =>
    case WaiterLeaving =>
  }

  lemma CloserLeavesOthers(s: State)
    requires Alive(s, Closer)
    ensures LeavesOthers(s, Closer, CloserNext(s), CloserCalls(s))
    ensures CloserNext(s).history.log == s.history.log
    ensures CloserNext(s).reactor == s.reactor && CloserNext(s).waiter == s.waiter
  {
    match s.closer
    case Stopping =>
    case CloserMarking =>
    case CloserLeaving =>
  }

  lemma BodyLeavesOthers(s: State, w: Who, how: Outcome)
    requires Alive(s, w)
    ensures LeavesOthers(s, w, BodyEffect(s, w, how), BodyCalls(s, w, how))
    ensures BodyEffect(s, w, how).history.log == s.history.log
  {
    match w
    case Boot => BootLeavesOthers(s, how);
    case Reactor => ReactorLeavesOthers(s, how);
    case Waiter => WaiterLeavesOthers(s);
    case Closer => CloserLeavesOthers(s);
  }

  lemma LeavesCallers(s: State, w: Who, s': State, push: seq<Op>)
    requires Callers(s) && s.calls[w] == [] && w != Isolate && w != Finalizer && LeavesOthers(s, w, s', push)
    ensures Callers(s'.(calls := s.calls[w := push]))
  {
  }

  lemma ReactorStaysReported(s: State, how: Outcome)
    requires Reported(s) && Workers(s) && s.calls[Reactor] == [] && Alive(s, Reactor)
    ensures Reported(ReactorNext(s, how).(calls := s.calls[Reactor := ReactorCalls(s, how)]))
  {
    ReactorLeavesOthers(s, how);
    match s.reactor
    case Reacting =>
    case MarkingOutput =>
    case MarkingInput =>
    case ReactorMarking =>
    case ReactorLeaving =>
  }

  lemma BootStaysReported(s: State, how: Outcome)
    requires Reported(s) && s.calls[Boot] == [] && Alive(s, Boot)
    ensures Reported(BootNext(s, how).(calls := s.calls[Boot := BootCalls(s, how)]))
  {
    BootLeavesOthers(s, how);
  }

  lemma WaiterStaysReported(s: State)
    requires Reported(s) && s.calls[Waiter] == [] && Alive(s, Waiter)
    ensures Reported(WaiterNext(s).(calls := s.calls[Waiter := WaiterCalls(s)]))
  {
    WaiterLeavesOthers(s);
    match s.waiter
    case Awaiting =>
    case WaiterMarking =>
    case WaiterLeaving =>
  }

  lemma CloserStaysReported(s: State)
    requires Reported(s) && s.calls[Closer] == [] && Alive(s, Closer)
    ensures Reported(CloserNext(s).(calls := s.calls[Closer := CloserCalls(s)]))
  {
    CloserLeavesOthers(s);
  }

  lemma BodyReported(s: State, w: Who, how: Outcome)
    requires Reported(s) && Workers(s) && s.calls[w] == [] && Alive(s, w)
    ensures Reported(BodyEffect(s, w, how).(calls := s.calls[w := BodyCalls(s, w, how)]))
  {
    match w
    case Boot => BootStaysReported(s, how);
    case Reactor => ReactorStaysReported(s, how);
    case Waiter => WaiterStaysReported(s);
    case Closer => CloserStaysReported(s);
  }

  lemma BodyCallsStore(s: State, w: Who, how: Outcome)
    requires Alive(s, w)
    ensures w != Boot ==> MarkClosing !in BodyCalls(s, w, how) && MarkClosed !in BodyCalls(s, w, how)
    ensures w == Boot ==> forall i, j | 0 <= i < j < |BootCalls(s, how)| && BootCalls(s, how)[i] == MarkClosed ::
                            BootCalls(s, how)[j] != MarkClosing
  {
    match w
    case Boot =>
      match s.boot {
        case Spawning =>
        case Preparing =>
        case Publishing =>
        case Checking =>
        case Cancelling =>
        case RetainingReactor =>
        case CreatingReactor =>
        case ReactorFailed =>
        case RetainingWaiter =>
        case CreatingWaiter =>
        case WaiterFailed =>
        case GoingOn =>
        case Late =>
        case BootLeaving =>
      }
    case Reactor =>
    case Waiter =>
    case Closer =>
  }

  lemma BodyStores(s: State, w: Who, how: Outcome)
    requires Stores(s) && s.calls[w] == [] && Alive(s, w)
    ensures Stores(BodyEffect(s, w, how).(calls := s.calls[w := BodyCalls(s, w, how)]))
  {
    BodyCallsStore(s, w, how);
  }

  lemma BodyRest(s: State, w: Who, how: Outcome)
    requires Callers(s) && Reported(s) && Workers(s) && Stores(s) && s.calls[w] == [] && Alive(s, w)
    ensures var t := BodyEffect(s, w, how).(calls := s.calls[w := BodyCalls(s, w, how)]);
            Callers(t) && Reported(t) && Stores(t)
  {
    BodyLeavesOthers(s, w, how);
    LeavesCallers(s, w, BodyEffect(s, w, how), BodyCalls(s, w, how));
    BodyReported(s, w, how);
    BodyStores(s, w, how);
  }

  lemma BodyKeeps(s: State, w: Who, how: Outcome)
    requires Enabled(s, Body(w, how)) && Inv(s)
    ensures Inv(Next(s, Body(w, how)))
  {
    BodyShape(s, w, how);
    ShapeIgnoresCalls(BodyEffect(s, w, how), All(s.calls[w := BodyCalls(s, w, how)]), s.calls[w := BodyCalls(s, w, how)]);
    BodyRest(s, w, how);
  }

  lemma WorthOfClose()
    ensures Worths([BeginClose]) == Nothing()
  {
  }

  lemma PlusNothing(a: Tally)
    ensures Plus(a, Nothing()) == a
  {
  }

  lemma CloseCallers(s: State)
    requires Callers(s) && Reported(s) && Stores(s) && s.calls[Isolate] == [] && s.memory.owner
    ensures var t := s.(calls := s.calls[Isolate := [BeginClose]]); Callers(t) && Reported(t) && Stores(t)
  {
  }

  lemma CloseShape(s: State)
    requires Total(s.calls) && s.calls[Isolate] == [] && Shape(s, All(s.calls))
    ensures var calls := s.calls[Isolate := [BeginClose]]; Total(calls) && Shape(s.(calls := calls), All(calls))
  {
    WorthOfClose();
    BodyTally(s, Isolate, [BeginClose], Nothing());
    PlusNothing(All(s.calls));
    ShapeIgnoresCalls(s, All(s.calls), s.calls[Isolate := [BeginClose]]);
  }

  lemma CloseKeeps(s: State)
    requires Enabled(s, Close) && Inv(s)
    ensures Inv(Next(s, Close))
  {
    CloseShape(s);
    CloseCallers(s);
  }

  lemma NoAbandons(calls: map<Who, seq<Op>>)
    requires Total(calls) && forall w: Who :: Abandon !in calls[w]
    ensures All(calls).abandons == 0
  {
  }

  lemma ReleaseKeeps(s: State)
    requires Enabled(s, Release) && Inv(s)
    ensures Inv(Next(s, Release))
  {
    NoAbandons(s.calls);
    AllIsNatural(s.calls);
    ReleaseShape(s, All(s.calls));
    ReleaseCallers(s);
  }

  lemma ReleaseCallers(s: State)
    requires Callers(s) && Reported(s) && Stores(s) && s.calls[Isolate] == []
    ensures Callers(s.(memory := Dropped(s.memory).(owner := false, detached := true)))
    ensures Reported(s.(memory := Dropped(s.memory).(owner := false, detached := true)))
    ensures Stores(s.(memory := Dropped(s.memory).(owner := false, detached := true)))
  {
  }

  lemma ReleaseShape(s: State, t: Tally)
    requires Shape(s, t) && s.memory.owner && !s.memory.abandoned && t.abandons == 0 && AtLeast(t, Nothing())
    ensures Shape(s.(memory := Dropped(s.memory).(owner := false, detached := true)), t)
  {
  }

  /** The finalizer's abandon is one more, taken at once. */
  lemma FinalizeShape(s: State, t: Tally)
    requires Shape(s, t) && AtLeast(t, Nothing()) && !s.memory.detached && s.memory.refs > 0
    ensures Shape(Effect(s, Abandon, Good), Plus(t, PushWorth(s, Abandon, Good)))
  {
    var more := Plus(t, Worth(Abandon));
    MoreAbandons(s, t, more);
    EffectShape(s, more, Abandon, Good);
    assert Plus(Minus(more, Worth(Abandon)), PushWorth(s, Abandon, Good)) == Plus(t, PushWorth(s, Abandon, Good));
  }

  lemma MoreAbandons(s: State, t: Tally, more: Tally)
    requires Shape(s, t) && !s.memory.detached && more == t.(abandons := more.abandons)
    ensures Shape(s, more)
  {
  }

  lemma FinalizeCallers(s: State, push: seq<Op>)
    requires Callers(s) && Reported(s) && Stores(s) && (push == [] || push == [BeginClose, DropOwner])
    ensures Stores(s.(memory := s.memory.(abandoned := true), calls := s.calls[Finalizer := push]))
    ensures Callers(s.(memory := s.memory.(abandoned := true), calls := s.calls[Finalizer := push]))
    ensures Reported(s.(memory := s.memory.(abandoned := true), calls := s.calls[Finalizer := push]))
  {
  }

  lemma FinalizeTally(s: State)
    requires Total(s.calls) && s.calls[Finalizer] == []
    ensures Total(s.calls[Finalizer := Pushed(s, Abandon, Good)])
    ensures All(s.calls[Finalizer := Pushed(s, Abandon, Good)]) == Plus(All(s.calls), PushWorth(s, Abandon, Good))
  {
    WorthOfPushed(s, Abandon, Good);
    BodyTally(s, Finalizer, Pushed(s, Abandon, Good), PushWorth(s, Abandon, Good));
  }

  lemma StillThere(s: State, t: Tally)
    requires Counted(s, t) && AtLeast(t, Nothing()) && s.memory.frees == 0
    ensures s.memory.refs > 0
  {
  }

  lemma FinalizeShapeOf(s: State)
    requires Total(s.calls) && s.calls[Finalizer] == [] && !s.memory.detached && s.memory.frees == 0
    requires Shape(s, All(s.calls))
    ensures var calls := s.calls[Finalizer := Pushed(s, Abandon, Good)];
            Total(calls) && Shape(Effect(s, Abandon, Good).(calls := calls), All(calls))
  {
    var t, push := All(s.calls), Pushed(s, Abandon, Good);
    AllIsNatural(s.calls);
    StillThere(s, t);
    FinalizeTally(s);
    FinalizeShape(s, t);
    ShapeIgnoresCalls(Effect(s, Abandon, Good), All(s.calls[Finalizer := push]), s.calls[Finalizer := push]);
  }

  function Finalized(s: State): State
    requires Total(s.calls)
  {
    Effect(s, Abandon, Good).(calls := s.calls[Finalizer := Pushed(s, Abandon, Good)])
  }

  lemma FinalizeRest(s: State)
    requires Callers(s) && Reported(s) && Stores(s)
    ensures Callers(Finalized(s)) && Reported(Finalized(s)) && Stores(Finalized(s))
  {
    FinalizeCallers(s, Pushed(s, Abandon, Good));
  }

  lemma FinalizeKeeps(s: State)
    requires Enabled(s, Finalize) && Inv(s)
    ensures Inv(Next(s, Finalize))
  {
    FinalizeShapeOf(s);
    FinalizeRest(s);
    assert Next(s, Finalize) == Finalized(s);
  }

  lemma NextInv(s: State, l: Label)
    requires Enabled(s, l) && Inv(s)
    ensures Inv(Next(s, l))
  {
    match l
    case Call(w, how) => CallKeeps(s, w, how);
    case Body(w, how) => BodyKeeps(s, w, how);
    case Close => CloseKeeps(s);
    case Release => ReleaseKeeps(s);
    case Finalize => FinalizeKeeps(s);
  }

  // ------------------------------------------------------------- the runs

  predicate Possible(s: State, labels: seq<Label>)
    decreases |labels|
  {
    labels == [] || (Enabled(s, labels[0]) && Possible(Next(s, labels[0]), labels[1..]))
  }

  function After(s: State, labels: seq<Label>): State
    requires Possible(s, labels)
    decreases |labels|
  {
    if labels == [] then s else After(Next(s, labels[0]), labels[1..])
  }

  lemma {:induction false} RunsKeepInv(s: State, labels: seq<Label>)
    requires Possible(s, labels) && Inv(s)
    ensures Inv(After(s, labels))
    decreases |labels|
  {
    if labels != [] {
      NextInv(s, labels[0]);
      RunsKeepInv(Next(s, labels[0]), labels[1..]);
    }
  }

  lemma InitialTotal()
    ensures Total(Initial().calls) && forall w: Who :: Initial().calls[w] == []
  {
    forall w: Who ensures w in Initial().calls && Initial().calls[w] == [] {
      match w
      case Boot =>
      case Reactor =>
      case Waiter =>
      case Closer =>
      case Isolate =>
      case Finalizer =>
    }
  }

  lemma InitialShape()
    ensures Shape(Initial(), Nothing())
  {
  }

  lemma InitialInv()
    ensures Inv(Initial())
  {
    InitialTotal();
    NothingToDo(Initial().calls);
    InitialShape();
    InitialCallers();
  }

  lemma InitialCallers()
    ensures Callers(Initial()) && Reported(Initial()) && Stores(Initial())
  {
    InitialTotal();
  }

  lemma NothingToDo(calls: map<Who, seq<Op>>)
    requires Total(calls) && forall w: Who :: calls[w] == []
    ensures All(calls) == Nothing()
  {
    WorthOfNoCalls();
  }

  /** Nobody is in a call, and every worker that was started has ended. */
  predicate Quiet(s: State) {
    Total(s.calls) && forall w: Who :: s.calls[w] == [] && !Alive(s, w)
  }

  lemma QuietTally(s: State)
    requires Quiet(s)
    ensures All(s.calls) == Nothing() && s.boot == BootGone
    ensures !Alive(s, Reactor) && !Alive(s, Waiter) && !Alive(s, Closer)
  {
    NothingToDo(s.calls);
    assert !Alive(s, Boot);
  }

  lemma OneTicket(s: State, t: Tally)
    requires Tickets(s, t) && AtLeast(t, Nothing())
    ensures s.history.attempts <= 1
  {
  }

  lemma ClosedWhenQuiet(s: State)
    requires Shape(s, Nothing()) && s.boot == BootGone
    requires !Alive(s, Reactor) && !Alive(s, Waiter) && !Alive(s, Closer)
    ensures s.lifecycle != Starting && (AtLeastClosing(s.lifecycle) ==> s.history.attempts == 1)
  {
  }

  lemma ClosedOnceIn(s: State)
    requires Total(s.calls) && Shape(s, All(s.calls))
    ensures s.history.attempts <= 1
    ensures Quiet(s) ==> s.lifecycle != Starting && (AtLeastClosing(s.lifecycle) ==> s.history.attempts == 1)
  {
    AllIsNatural(s.calls);
    OneTicket(s, All(s.calls));
    if Quiet(s) {
      QuietTally(s);
      ClosedWhenQuiet(s);
    }
  }

  /** SESSION_CLOSED is attempted at most once, over every race of closes with
      startup and every choice of failing thread creation; and exactly once
      when all have ended after a close request or a failed startup. */
  lemma ClosedOnce(labels: seq<Label>)
    requires Possible(Initial(), labels)
    ensures var s := After(Initial(), labels);
            && s.history.attempts <= 1
            && (Quiet(s) ==> s.lifecycle != Starting && (AtLeastClosing(s.lifecycle) ==> s.history.attempts == 1))
  {
    InitialInv();
    RunsKeepInv(Initial(), labels);
    ClosedOnceIn(After(Initial(), labels));
  }

  /** If reactor and waiter were both started, SESSION_CLOSED comes after
      OUTPUT_CLOSED and after the exit or the error of the wait. */
  lemma ClosedComesLast(labels: seq<Label>)
    requires Possible(Initial(), labels)
    ensures var s := After(Initial(), labels);
            s.reactor != NoReactor && s.waiter != NoWaiter ==> Follows(s.history.log)
  {
    InitialInv();
    RunsKeepInv(Initial(), labels);
  }

  lemma NobodyAfterFree(s: State, t: Tally, w: Who)
    requires Callers(s) && Counted(s, t) && Owned(s, t) && AtLeast(t, Nothing()) && s.memory.frees > 0
    requires s.calls[Finalizer] != [] ==> t.drops > 0
    ensures s.calls[w] == [] && !Alive(s, w)
  {
    if s.calls[w] != [] || Alive(s, w) {
      SomeoneIsCounted(s, t, w);
    }
  }

  lemma FinalizerDrops(s: State)
    requires Callers(s) && s.calls[Finalizer] != []
    ensures All(s.calls).drops > 0
  {
    DropsAreCounted(s.calls, Finalizer);
  }

  lemma CountIn(s: State)
    requires Callers(s) && Shape(s, All(s.calls))
    ensures s.memory.frees > 0 ==> Quiet(s) && !s.memory.owner
    ensures Quiet(s) && !s.memory.owner ==> s.memory.frees == 1
  {
    if s.memory.frees > 0 {
      AllIsNatural(s.calls);
      if s.calls[Finalizer] != [] {
        FinalizerDrops(s);
      }
      forall w: Who ensures s.calls[w] == [] && !Alive(s, w) {
        NobodyAfterFree(s, All(s.calls), w);
      }
      NoOwnerAfterFree(s, All(s.calls));
    }
    if Quiet(s) && !s.memory.owner {
      QuietTally(s);
      FreedWhenQuiet(s);
    }
  }

  lemma NoOwnerAfterFree(s: State, t: Tally)
    requires Counted(s, t) && AtLeast(t, Nothing()) && s.memory.frees > 0
    ensures !s.memory.owner
  {
  }

  lemma FreedWhenQuiet(s: State)
    requires Counted(s, Nothing()) && s.boot == BootGone && !s.memory.owner
    requires !Alive(s, Reactor) && !Alive(s, Waiter) && !Alive(s, Closer)
    ensures s.memory.frees == 1
  {
  }

  /** The reference count is always the owner's, the live workers' and the
      creators'; the session is freed once, when all these are gone, and then
      nobody is left to do anything with it. */
  lemma CountIsExact(labels: seq<Label>)
    requires Possible(Initial(), labels)
    ensures var s := After(Initial(), labels);
            && Total(s.calls)
            && s.memory.refs == (if s.memory.owner then 1 else 0) + BodyRefs(s) + All(s.calls).refs
            && s.memory.frees == (if s.memory.refs == 0 then 1 else 0)
            && (s.memory.frees > 0 ==> Quiet(s) && !s.memory.owner)
            && (Quiet(s) && !s.memory.owner ==> s.memory.frees == 1)
  {
    InitialInv();
    RunsKeepInv(Initial(), labels);
    CountIn(After(Initial(), labels));
  }

  /** Once closing, always at least closing. */
  lemma NeverReopens(s: State, l: Label)
    requires Enabled(s, l) && AtLeastClosing(s.lifecycle)
    ensures AtLeastClosing(Next(s, l).lifecycle)
  {
    match l
    case Call(w, how) => CallStaysClosing(s, s.calls[w][0], how);
    case Body(w, how) => BodyStaysClosing(s, w, how);
    case Close =>
    case Release =>
    case Finalize =>
  }

  lemma CallStaysClosing(s: State, op: Op, how: Outcome)
    requires AtLeastClosing(s.lifecycle)
    ensures AtLeastClosing(Effect(s, op, how).lifecycle)
  {
    match op
    case Post(event) =>
    case PostClosed =>
    case Abandon =>
    case MarkClosing =>
    case MarkClosed =>
    case MaybeCheck =>
    case Claimed =>
    case BeginClose =>
    case LoadPlatform =>
    case CloseCheck =>
    case Retain1 =>
    case Retain2 =>
    case CreateCloser =>
    case FailDrop2 =>
    case FailDrop1 =>
    case FailSection =>
    case DropRef =>
    case DropOwner =>
  }

  lemma BodyStaysClosing(s: State, w: Who, how: Outcome)
    requires Alive(s, w) && AtLeastClosing(s.lifecycle)
    ensures AtLeastClosing(BodyEffect(s, w, how).lifecycle)
  {
    if w == Boot {
      match s.boot {
        case Spawning =>
        case Preparing =>
        case Publishing =>
        case Checking =>
        case Cancelling =>
        case RetainingReactor =>
        case CreatingReactor =>
        case ReactorFailed =>
        case RetainingWaiter =>
        case CreatingWaiter =>
        case WaiterFailed =>
        case GoingOn =>
        case Late =>
        case BootLeaving =>
      }
    }
  }

  lemma OneStep(s: State, labels: seq<Label>)
    requires labels != [] && Enabled(s, labels[0]) && Possible(Next(s, labels[0]), labels[1..])
    ensures Possible(s, labels) && After(s, labels) == After(Next(s, labels[0]), labels[1..])
  {
  }

  // ------------------------------------------- when CLOSED is overwritten

  /** The guard of the only branch that can: reactor started, waiter not, and
      the bootstrap past that. */
  predicate WaiterNotCreated(s: State) {
    s.reactor != NoReactor && s.waiter == NoWaiter && Decided(s.boot)
  }

  /** The bootstrap is about to store CLOSING. */
  predicate StoresClosing(s: State, l: Label) {
    Total(s.calls) && l.Call? && l.who == Boot && s.calls[Boot] != [] && s.calls[Boot][0] == MarkClosing
  }

  lemma ClosedCall(s: State, op: Op, how: Outcome)
    requires s.lifecycle == Closed
    ensures Effect(s, op, how).lifecycle == if op == MarkClosing then Closing else Closed
  {
    match op
    case Post(event) =>
    case PostClosed =>
    case Abandon =>
    case MarkClosing =>
    case MarkClosed =>
    case MaybeCheck =>
    case Claimed =>
    case BeginClose =>
    case LoadPlatform =>
    case CloseCheck =>
    case Retain1 =>
    case Retain2 =>
    case CreateCloser =>
    case FailDrop2 =>
    case FailDrop1 =>
    case FailSection =>
    case DropRef =>
    case DropOwner =>
  }

  /** A bootstrap that sees CLOSED leaves it, and starts nobody any more. */
  lemma ClosedBody(s: State, t: Tally, w: Who, how: Outcome)
    requires Shape(s, t) && Alive(s, w) && s.lifecycle == Closed
    ensures BodyEffect(s, w, how).lifecycle == Closed
    ensures BodyEffect(s, w, how).reactor == NoReactor <==> s.reactor == NoReactor
    ensures BodyEffect(s, w, how).waiter == NoWaiter <==> s.waiter == NoWaiter
  {
    ClosedIsPast(s, t);
    match w
    case Boot =>
      match s.boot {
        case GoingOn =>
        case Late =>
        case BootLeaving =>
      }
    case Reactor => ReactorLeavesOthers(s, how);
    case Waiter => WaiterLeavesOthers(s);
    case Closer => CloserLeavesOthers(s);
  }

  lemma ClosedIsPast(s: State, t: Tally)
    requires Shape(s, t) && s.lifecycle == Closed
    ensures s.boot == GoingOn || s.boot == Late || Decided(s.boot)
    ensures s.boot == GoingOn || s.boot == Late ==> s.waiter != NoWaiter
  {
  }

  lemma MarksMeanNoWaiter(s: State, t: Tally)
    requires Shape(s, t) && s.lifecycle == Closed && t.marksClosing > 0
    ensures WaiterNotCreated(s) && s.platform
  {
    ClosedIsPast(s, t);
  }

  lemma StoringMeansNoWaiter(s: State)
    requires Total(s.calls) && Inv(s) && s.lifecycle == Closed && MarkClosing in s.calls[Boot]
    ensures WaiterNotCreated(s)
  {
    SomeMark(s.calls);
    MarksMeanNoWaiter(s, All(s.calls));
  }

  lemma OnlyBootStores(s: State, w: Who)
    requires Stores(s) && s.calls[w] != [] && s.calls[w][0] == MarkClosing
    ensures w == Boot && MarkClosing in s.calls[Boot]
  {
  }

  lemma CallOverwrites(s: State, w: Who, how: Outcome)
    requires CallEnabled(s, w, how) && Stores(s) && s.lifecycle == Closed
    ensures CallNext(s, w, how).lifecycle == if StoresClosing(s, Call(w, how)) then Closing else Closed
  {
    ClosedCall(s, s.calls[w][0], how);
    if s.calls[w][0] == MarkClosing {
      OnlyBootStores(s, w);
    }
  }

  lemma BodyLeavesClosed(s: State, w: Who, how: Outcome)
    requires Total(s.calls) && Alive(s, w) && Shape(s, All(s.calls)) && s.lifecycle == Closed
    ensures BodyEffect(s, w, how).lifecycle == Closed
    ensures WaiterOrNoReactor(BodyEffect(s, w, how)) <==> WaiterOrNoReactor(s)
  {
    ClosedBody(s, All(s.calls), w, how);
  }

  predicate WaiterOrNoReactor(s: State) {
    s.reactor == NoReactor || s.waiter != NoWaiter
  }

  lemma InvParts(s: State)
    requires Inv(s)
    ensures Total(s.calls) && Stores(s) && Shape(s, All(s.calls))
  {
  }

  lemma ClaimedIsDecided(s: State, t: Tally)
    requires Workers(s) && Startup(s, t) && Tickets(s, t) && s.history.claimed
    ensures s.reactor != NoReactor && s.waiter == NoWaiter ==> Decided(s.boot)
  {
    if s.flags.closedPosted {
      assert s.flags.waiterDone && s.platform;
    }
  }

  /** CLOSED is only reached once the bootstrap knows whether there will be a
      waiter: either there is one or no reactor, or it could not be created. */
  lemma ClosedIsDecided(s: State)
    requires Inv(s) && s.lifecycle == Closed
    ensures WaiterOrNoReactor(s) <==> !WaiterNotCreated(s)
  {
    InvParts(s);
    ClaimedIsDecided(s, All(s.calls));
  }

  lemma QuietStepLeavesClosed(s: State, l: Label)
    requires Enabled(s, l) && s.lifecycle == Closed && (l == Close || l == Release || l == Finalize)
    ensures Next(s, l).lifecycle == Closed
  {
  }

  lemma OverwrittenExactly(s: State, l: Label)
    requires Enabled(s, l) && Stores(s) && Shape(s, All(s.calls)) && s.lifecycle == Closed
    ensures Next(s, l).lifecycle == if StoresClosing(s, l) then Closing else Closed
  {
    if l.Call? {
      CallOverwrites(s, l.who, l.how);
    } else if l.Body? {
      BodyLeavesClosed(s, l.who, l.how);
    } else {
      QuietStepLeavesClosed(s, l);
    }
  }

  /** Exactly when a step leaves CLOSED: when it is the bootstrap's store of
      CLOSING, and then the waiter could not be created. */
  lemma ClosedIsOverwrittenExactly(s: State, l: Label)
    requires Enabled(s, l) && Inv(s) && s.lifecycle == Closed
    ensures Next(s, l).lifecycle == if StoresClosing(s, l) then Closing else Closed
    ensures StoresClosing(s, l) ==> WaiterNotCreated(s)
  {
    if StoresClosing(s, l) {
      StoringMeansNoWaiter(s);
    }
    InvParts(s);
    OverwrittenExactly(s, l);
  }

  lemma CallKeepsPresence(s: State, op: Op, how: Outcome)
    ensures Effect(s, op, how).reactor == s.reactor && Effect(s, op, how).waiter == s.waiter
    ensures Effect(s, op, how).boot == s.boot
  {
    match op
    case Post(event) =>
    case PostClosed =>
    case Abandon =>
    case MarkClosing =>
    case MarkClosed =>
    case MaybeCheck =>
    case Claimed =>
    case BeginClose =>
    case LoadPlatform =>
    case CloseCheck =>
    case Retain1 =>
    case Retain2 =>
    case CreateCloser =>
    case FailDrop2 =>
    case FailDrop1 =>
    case FailSection =>
    case DropRef =>
    case DropOwner =>
  }

  lemma PresenceStays(s: State, l: Label)
    requires Enabled(s, l) && Shape(s, All(s.calls)) && s.lifecycle == Closed && WaiterOrNoReactor(s)
    ensures WaiterOrNoReactor(Next(s, l))
  {
    match l
    case Call(w, how) => CallKeepsPresence(s, s.calls[w][0], how);
    case Body(w, how) => BodyLeavesClosed(s, w, how);
    case Close =>
    case Release =>
    case Finalize => CallKeepsPresence(s, Abandon, Good);
  }

  lemma ClosedStep(s: State, l: Label)
    requires Enabled(s, l) && Inv(s) && s.lifecycle == Closed && WaiterOrNoReactor(s)
    ensures Next(s, l).lifecycle == Closed && WaiterOrNoReactor(Next(s, l))
  {
    ClosedIsOverwrittenExactly(s, l);
    InvParts(s);
    PresenceStays(s, l);
  }

  lemma {:induction false} ClosedRun(s: State, labels: seq<Label>)
    requires Possible(s, labels) && Inv(s) && s.lifecycle == Closed && WaiterOrNoReactor(s)
    ensures After(s, labels).lifecycle == Closed
    decreases |labels|
  {
    if labels != [] {
      ClosedStep(s, labels[0]);
      NextInv(s, labels[0]);
      ClosedRun(Next(s, labels[0]), labels[1..]);
    }
  }

  /** In every run in which the waiter is created, or creating it is never
      tried because there is no reactor, CLOSED is final. */
  lemma ClosedIsFinal(before: seq<Label>, after: seq<Label>)
    requires Possible(Initial(), before) && Possible(After(Initial(), before), after)
    requires After(Initial(), before).lifecycle == Closed
    requires !WaiterNotCreated(After(Initial(), before))
    ensures After(After(Initial(), before), after).lifecycle == Closed
  {
    InitialInv();
    RunsKeepInv(Initial(), before);
    ClosedIsDecided(After(Initial(), before));
    ClosedRun(After(Initial(), before), after);
  }

  /** And whenever a run comes to CLOSED, the next step overwrites it exactly
      under that condition. */
  lemma EveryOverwriteIsTheWaiters(labels: seq<Label>, l: Label)
    requires Possible(Initial(), labels) && Enabled(After(Initial(), labels), l)
    requires After(Initial(), labels).lifecycle == Closed
    ensures var s := After(Initial(), labels);
            && (Next(s, l).lifecycle != Closed <==> StoresClosing(s, l))
            && (StoresClosing(s, l) ==> WaiterNotCreated(s))
  {
    InitialInv();
    RunsKeepInv(Initial(), labels);
    ClosedIsOverwrittenExactly(After(Initial(), labels), l);
  }

  ghost predicate Leads(s: State, d: State) {
    exists labels :: Possible(s, labels) && After(s, labels) == d
  }

  lemma LeadsTo(s: State, l: Label, d: State)
    requires Enabled(s, l) && Next(s, l) == d
    ensures Leads(s, d)
  {
    assert [l][1..] == [];
    assert Possible(d, []) && After(d, []) == d;
    OneStep(s, [l]);
  }

  lemma LeadsJoin(s: State, d: State, e: State)
    requires Leads(s, d) && Leads(d, e)
    ensures Leads(s, e)
  {
    var a :| Possible(s, a) && After(s, a) == d;
    var b :| Possible(d, b) && After(d, b) == e;
    RunsJoin(s, a, b);
  }

  lemma {:induction false} RunsJoin(s: State, a: seq<Label>, b: seq<Label>)
    requires Possible(s, a) && Possible(After(s, a), b)
    ensures Possible(s, a + b) && After(s, a + b) == After(After(s, a), b)
    decreases |a|
  {
    if a == [] {
      assert a + b == b;
    } else {
      assert (a + b)[0] == a[0] && (a + b)[1..] == a[1..] + b;
      RunsJoin(Next(s, a[0]), a[1..], b);
    }
  }

  lemma LeadsThrough(s: State, l: Label, d: State, m: Label, e: State)
    requires Enabled(s, l) && Next(s, l) == d && Enabled(d, m) && Next(d, m) == e
    ensures Leads(s, e)
  {
    LeadsTo(s, l, d);
    LeadsTo(d, m, e);
    LeadsJoin(s, d, e);
  }

  /** The bootstrap at one of its steps, with nothing else going on. */
  function Booting(boot: BootPc, platform: bool, refs: int, reactor: ReactorPc): State {
    Initial().(boot := boot, platform := platform, memory := Memory(refs, true, false, false, 0), reactor := reactor)
  }

  lemma StartsReactor()
    ensures Leads(Initial(), Booting(RetainingWaiter, true, 3, Reacting))
  {
    InitialTotal();
    var s1, s2 := Booting(Publishing, false, 2, NoReactor), Booting(RetainingReactor, true, 2, NoReactor);
    LeadsThrough(Initial(), Body(Boot, Good), Booting(Preparing, false, 2, NoReactor), Body(Boot, Good), s1);
    LeadsThrough(s1, Body(Boot, Good), Booting(Checking, true, 2, NoReactor), Body(Boot, Good), s2);
    LeadsJoin(Initial(), s1, s2);
    LeadsThrough(s2, Body(Boot, Good), Booting(CreatingReactor, true, 3, NoReactor), Body(Boot, Good),
                 Booting(RetainingWaiter, true, 3, Reacting));
    LeadsJoin(Initial(), s2, Booting(RetainingWaiter, true, 3, Reacting));
  }

  /** The reactor at the end of its life, while the bootstrap, whose waiter
      could not be started, has still to store CLOSING. */
  function Ending(reactor: ReactorPc, flags: Flags, log: seq<Event>, ops: seq<Op>, claimed: bool, lifecycle: Lifecycle): State {
    State(lifecycle, true, flags, Memory(3, true, false, false, 0), History(claimed, 0, log),
          BootLeaving, reactor, NoWaiter, NoCloser,
          Initial().calls[Boot := [MarkClosing, Post(SpawnFailed), MaybeCheck]][Reactor := ops])
  }

  function Reserving(reactorDone: bool, outputClosed: bool, inputClosed: bool, closedPosted: bool): Flags {
    Flags(true, reactorDone, true, true, true, outputClosed, inputClosed, closedPosted)
  }

  /** The waiter's creation failed, its reference still to be dropped. */
  function Dropping(): State {
    Booting(WaiterFailed, true, 4, Reacting).(calls := Initial().calls[Boot := [DropRef]])
  }

  lemma WaiterFails()
    ensures Leads(Booting(RetainingWaiter, true, 3, Reacting), Dropping())
  {
    InitialTotal();
    LeadsThrough(Booting(RetainingWaiter, true, 3, Reacting), Body(Boot, Good),
                 Booting(CreatingWaiter, true, 4, Reacting), Body(Boot, Bad), Dropping());
  }

  lemma WaiterIsDropped()
    ensures Leads(Dropping(), Booting(WaiterFailed, true, 3, Reacting))
  {
    InitialTotal();
    assert [] + [DropRef][1..] == [];
    assert Initial().calls[Boot := [DropRef]][Boot := []] == Initial().calls;
    LeadsTo(Dropping(), Call(Boot, Good), Booting(WaiterFailed, true, 3, Reacting));
  }

  lemma CloseIsReserved()
    ensures Leads(Booting(WaiterFailed, true, 3, Reacting),
                  Ending(Reacting, Reserving(false, false, false, false), [], [], false, Starting))
  {
    InitialTotal();
    var calls := Initial().calls[Boot := [MarkClosing, Post(SpawnFailed), MaybeCheck]];
    assert calls[Reactor := []] == calls;
    LeadsTo(Booting(WaiterFailed, true, 3, Reacting), Body(Boot, Good),
            Ending(Reacting, Reserving(false, false, false, false), [], [], false, Starting));
  }

  lemma ReactorReports()
    ensures Leads(Ending(Reacting, Reserving(false, false, false, false), [], [], false, Starting),
                  Ending(MarkingInput, Reserving(false, true, false, false), [OutputClosed], [], false, Starting))
  {
    InitialTotal();
    var f := Reserving(false, false, false, false);
    var s1 := Ending(Reacting, f, [], [], false, Starting);
    var s2 := Ending(MarkingOutput, f, [], [], false, Starting);
    var s3 := Ending(MarkingInput, Reserving(false, true, false, false), [], [Post(OutputClosed)], false, Starting);
    var s4 := Ending(MarkingInput, Reserving(false, true, false, false), [OutputClosed], [], false, Starting);
    assert [] + [Post(OutputClosed)][1..] == [];
    LeadsThrough(s1, Body(Reactor, Bad), s2, Body(Reactor, Good), s3);
    LeadsTo(s3, Call(Reactor, Good), s4);
    LeadsJoin(s1, s3, s4);
  }

  lemma ReactorLeaves()
    ensures Leads(Ending(MarkingInput, Reserving(false, true, false, false), [OutputClosed], [], false, Starting),
                  Ending(ReactorLeaving, Reserving(true, true, true, false), [OutputClosed, InputClosed], [MaybeCheck],
                         false, Starting))
  {
    InitialTotal();
    var f, log := Reserving(false, true, true, false), [OutputClosed, InputClosed];
    var s1 := Ending(MarkingInput, Reserving(false, true, false, false), [OutputClosed], [], false, Starting);
    var s2 := Ending(ReactorMarking, f, [OutputClosed], [Post(InputClosed)], false, Starting);
    var s3 := Ending(ReactorMarking, f, log, [], false, Starting);
    var s4 := Ending(ReactorLeaving, Reserving(true, true, true, false), log, [MaybeCheck], false, Starting);
    assert [] + [Post(InputClosed)][1..] == [];
    LeadsThrough(s1, Body(Reactor, Good), s2, Call(Reactor, Good), s3);
    LeadsTo(s3, Body(Reactor, Good), s4);
    LeadsJoin(s1, s3, s4);
  }

  lemma ReactorStoresClosed()
    ensures Leads(Ending(ReactorLeaving, Reserving(true, true, true, false), [OutputClosed, InputClosed], [MaybeCheck],
                         false, Starting),
                  Ending(ReactorLeaving, Reserving(true, true, true, true), [OutputClosed, InputClosed], [PostClosed],
                         true, Closed))
  {
    InitialTotal();
    var log := [OutputClosed, InputClosed];
    assert [Claimed] + [MaybeCheck][1..] == [Claimed];
    assert [PostClosed] + [Claimed][1..] == [PostClosed];
    LeadsThrough(Ending(ReactorLeaving, Reserving(true, true, true, false), log, [MaybeCheck], false, Starting),
                 Call(Reactor, Good),
                 Ending(ReactorLeaving, Reserving(true, true, true, true), log, [Claimed], true, Starting),
                 Call(Reactor, Good),
                 Ending(ReactorLeaving, Reserving(true, true, true, true), log, [PostClosed], true, Closed));
  }

  lemma BootStoresClosing(s: State)
    requires s == Ending(ReactorLeaving, Reserving(true, true, true, true), [OutputClosed, InputClosed], [PostClosed], true, Closed)
    ensures Enabled(s, Call(Boot, Good)) && s.lifecycle == Closed && Next(s, Call(Boot, Good)).lifecycle == Closing
  {
    InitialTotal();
  }

  /** The reactor stores CLOSED and the bootstrap CLOSING after it. */
  lemma ClosedCanBeOverwritten()
    ensures exists s: State, l ::
              Leads(Initial(), s) && Enabled(s, l) && s.lifecycle == Closed && Next(s, l).lifecycle == Closing
  {
    var log := [OutputClosed, InputClosed];
    var s1, s2, s3 := Booting(RetainingWaiter, true, 3, Reacting), Dropping(), Booting(WaiterFailed, true, 3, Reacting);
    var s4 := Ending(Reacting, Reserving(false, false, false, false), [], [], false, Starting);
    var s5 := Ending(MarkingInput, Reserving(false, true, false, false), [OutputClosed], [], false, Starting);
    var s6 := Ending(ReactorLeaving, Reserving(true, true, true, false), log, [MaybeCheck], false, Starting);
    var s7 := Ending(ReactorLeaving, Reserving(true, true, true, true), log, [PostClosed], true, Closed);
    StartsReactor();
    WaiterFails();
    LeadsJoin(Initial(), s1, s2);
    WaiterIsDropped();
    LeadsJoin(Initial(), s2, s3);
    CloseIsReserved();
    LeadsJoin(Initial(), s3, s4);
    ReactorReports();
    LeadsJoin(Initial(), s4, s5);
    ReactorLeaves();
    LeadsJoin(Initial(), s5, s6);
    ReactorStoresClosed();
    LeadsJoin(Initial(), s6, s7);
    BootStoresClosing(s7);
  }
}
