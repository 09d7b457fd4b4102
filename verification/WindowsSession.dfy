/** A Windows session: who owns the pseudo console, and how startup and
    shutdown end. Bootstrap, reader, writer, waiter, close worker, console
    worker, isolate and abandonment are threads of one machine; a step is an
    atomic access, a critical section, a system call, a post, or an attempt to
    start a thread. */
module WindowsSession {
  import opened Wrappers

  datatype Lifecycle = Starting | Running | Closing | Closed

  datatype ConsoleState = Owned | Releasing | Released | Shutting | Shut

  /** Abandoner is whoever abandons first: a finalizer or a failed post. */
  datatype Who = Boot | Reader | Writer | Waiter | Closer | Console | Isolate | Abandoner

  /** How a post, a system call or a thread start goes. A post is skipped when
      the session is seen to be abandoned. */
  datatype Outcome = Good | Bad | Skipped

  /** What follows windows_start_pseudo_console_close_worker: the waiter
      returns, the others wait for the close, and begin_close then looks
      whether the session has closed. */
  datatype Then = Return | Wait | WaitAndLook

  /** The routine a thread is in. begin_close goes from BeginClose to
      CreateCloser and ends with Published or goes on from FailDrop2; `blocking`
      is its second argument. Closing the console goes from Checking to Waiting,
      maybe_post_closed from Looking to Announcing. */
  datatype Sub =
    | Idle
    | BeginClose(blocking: bool)
    | LoadPlatform(blocking: bool)
    | CloseCheck(blocking: bool)
    | Retain1(blocking: bool)
    | Retain2(blocking: bool)
    | CreateCloser(blocking: bool)
    | Published
    | FailDrop2(blocking: bool)
    | FailDrop1(blocking: bool)
    | FailSection(blocking: bool)
    | DropOwner
    | Checking(next: Then)
    | Retaining(next: Then)
    | Creating(next: Then)
    | Dropping(next: Then)
    | Calling(next: Then)
    | Marking(next: Then)
    | Waiting(next: Then)
    | Looking
    | Storing
    | Announcing

  /** Why startup does not end in a running session. */
  datatype Failure = Cancel | WorkerFailure | TooLate

  /** How startup ends: without a platform, cancelled, with a look whether the
      session has closed, or with SPAWNED. */
  datatype Finale = Bare | Cancelled | Looked | Started

  /** `sync` says that the bootstrap itself stands in for a close worker. */
  datatype BootPc =
    | Spawning
    | Publishing
    | CheckingClose
    | RetainFor(w: Who)
    | CreateFor(w: Who)
    | DropFor(w: Who)
    | Deciding
    | GoingOn
    | Resuming
    | Reserving(why: Failure)
    | Stopping(why: Failure, sync: bool)
    | Joining(why: Failure, sync: bool)
    | Consoling(why: Failure, sync: bool)
    | Sectioning(why: Failure, sync: bool)
    | Posting(left: nat, finale: Finale)
    | StoringClosing(finale: Finale)
    | StoringClosed
    | Attempting
    | LookingUp
    | BootLeaving
    | BootGone

  /** Reader and writer serve until they mark themselves done; the waiter also
      gives the console up. */
  datatype WorkerPc = Absent | Serving | Owning | Giving | Flagging | Leaving | Gone

  datatype CloserPc = NoCloser | CloserStopping | CloserConsoling | CloserFlagging | CloserLeaving | CloserGone

  datatype ConsolePc = NoWorker | WorkerCalling | WorkerMarking | WorkerLeaving | WorkerGone

  datatype Flags = Flags(
    stopping: bool, readerDone: bool, writerDone: bool, waiterDone: bool,
    closeStarted: bool, closeDone: bool, closedPosted: bool)

  /** `closes` counts calls of ClosePseudoConsole; `atFree` is the state the
      freeing of the session found. */
  datatype ConPty = ConPty(state: ConsoleState, closes: nat, atFree: Option<ConsoleState>)

  datatype Memory = Memory(refs: int, owner: bool, abandoned: bool, detached: bool, frees: nat)

  /** How often SESSION_CLOSED was attempted, and whether it is taken on. */
  datatype History = History(claimed: bool, attempts: nat)

  datatype Threads = Threads(boot: BootPc, reader: WorkerPc, writer: WorkerPc, waiter: WorkerPc, closer: CloserPc, console: ConsolePc)

  datatype State = State(
    lifecycle: Lifecycle, platform: bool, flags: Flags, conpty: ConPty, memory: Memory, history: History,
    threads: Threads, subs: map<Who, Sub>)

  /** A thread goes on in its routine, or in its body; the isolate closes or
      releases, or its finalizer runs. */
  datatype Label = Routine(who: Who, how: Outcome) | Body(who: Who, how: Outcome) | Close | Release | Finalize

  function Initial(): State {
    State(Starting, false, Flags(false, false, false, false, false, false, false), ConPty(Owned, 0, None),
          Memory(2, true, false, false, 0), History(false, 0),
          Threads(Spawning, Absent, Absent, Absent, NoCloser, NoWorker),
          map[Boot := Idle, Reader := Idle, Writer := Idle, Waiter := Idle, Closer := Idle, Console := Idle,
              Isolate := Idle, Abandoner := Idle])
  }

  predicate Total(subs: map<Who, Sub>) {
    forall w: Who :: w in subs
  }

  // --------------------------------------------------------- shared effects

  /** A reference is dropped; with the last one the session is freed, and a
      console still open is closed. */
  function Dropped(s: State): State {
    s.(memory := Less(s.memory), conpty := Freed(s.platform && s.memory.refs == 1, s.conpty))
  }

  function Less(m: Memory): Memory {
    m.(refs := m.refs - 1, frees := m.frees + if m.refs == 1 then 1 else 0)
  }

  function Freed(last: bool, c: ConPty): ConPty {
    if !last then c
    else if c.state == Owned || c.state == Released then ConPty(Shut, c.closes + 1, Some(c.state))
    else c.(atFree := Some(c.state))
  }

  function Retained(s: State): State {
    s.(memory := s.memory.(refs := s.memory.refs + 1))
  }

  /** A failed post abandons the session, once. */
  function PostDone(s: State, how: Outcome): State
    requires Total(s.subs)
  {
    if how == Bad && !s.memory.abandoned
    then s.(memory := s.memory.(abandoned := true), subs := s.subs[Abandoner := BeginClose(false)])
    else s
  }

  predicate MayPost(s: State, how: Outcome) {
    (how == Skipped ==> s.memory.abandoned) && (how == Bad ==> !s.memory.detached)
  }

  predicate AllDone(s: State) {
    && s.flags.stopping && s.flags.readerDone && s.flags.writerDone && s.flags.waiterDone && s.flags.closeDone
    && s.conpty.state == Shut
  }

  /** What windows_maybe_post_closed looks for. */
  predicate Due(s: State) {
    AllDone(s) && !s.flags.closedPosted
  }

  // --------------------------------------------------------- the routines

  function Effect(s: State, sub: Sub, how: Outcome): State {
    match sub
    case Idle => s
    case BeginClose(_) => if s.lifecycle == Closed then s else s.(lifecycle := Closing)
    case LoadPlatform(_) => s
    case CloseCheck(_) =>
      if s.flags.closeStarted || s.flags.closeDone then s else s.(flags := s.flags.(closeStarted := true))
    case Retain1(_) => Retained(s)
    case Retain2(_) => Retained(s)
    case CreateCloser(_) => if how == Good then s.(threads := s.threads.(closer := CloserStopping)) else s
    case Published => Dropped(s)
    case FailDrop2(_) => Dropped(s)
    case FailDrop1(_) => Dropped(s)
    case FailSection(_) => s.(flags := s.flags.(stopping := true, closeDone := true))
    case DropOwner => Dropped(s.(memory := s.memory.(owner := false)))
    case Checking(_) =>
      if s.conpty.state == Shut || s.conpty.state == Shutting then s
      else s.(conpty := s.conpty.(state := Shutting))
    case Retaining(_) => Retained(s)
    case Creating(_) => if how == Good then s.(threads := s.threads.(console := WorkerCalling)) else s
    case Dropping(_) => Dropped(s)
    case Calling(_) => s.(conpty := s.conpty.(closes := s.conpty.closes + 1))
    case Marking(_) => s.(conpty := s.conpty.(state := Shut))
    case Waiting(_) => s
    case Looking =>
      if Due(s) then s.(flags := s.flags.(closedPosted := true), history := s.history.(claimed := true)) else s
    case Storing => s.(lifecycle := Closed)
    case Announcing => s.(history := s.history.(attempts := s.history.attempts + 1))
  }

  /** What follows a finished close of the console. */
  function AfterStart(next: Then): Sub {
    if next == Return then Idle else Waiting(next)
  }

  /** Where the routine goes; Idle when it is over. */
  function NextSub(s: State, sub: Sub, how: Outcome): Sub {
    match sub
    case Idle => Idle
    case BeginClose(b) => if s.lifecycle == Running || s.lifecycle == Closing then LoadPlatform(b) else Idle
    case LoadPlatform(b) => if s.platform then CloseCheck(b) else Idle
    case CloseCheck(b) => if s.flags.closeStarted || s.flags.closeDone then Idle else Retain1(b)
    case Retain1(b) => Retain2(b)
    case Retain2(b) => CreateCloser(b)
    case CreateCloser(b) => if how == Good then Published else FailDrop2(b)
    case Published => Idle
    case FailDrop2(b) => FailDrop1(b)
    case FailDrop1(b) => FailSection(b)
    case FailSection(b) => if b then Checking(WaitAndLook) else Idle
    case DropOwner => Idle
    case Checking(next) =>
      if s.conpty.state == Shut || s.conpty.state == Shutting then AfterStart(next) else Retaining(next)
    case Retaining(next) => Creating(next)
    case Creating(next) => if how == Good then AfterStart(next) else Dropping(next)
    case Dropping(next) => Calling(next)
    case Calling(next) => Marking(next)
    case Marking(next) => AfterStart(next)
    case Waiting(next) => if next == WaitAndLook then Looking else Idle
    case Looking => if Due(s) then Storing else Idle
    case Storing => Announcing
    case Announcing => Idle
  }

  /** The abandoner ends by dropping the owner's reference. */
  function Ended(w: Who, sub: Sub, next: Sub): Sub {
    if w == Abandoner && next == Idle && sub != DropOwner then DropOwner else next
  }

  function RoutineNext(s: State, w: Who, how: Outcome): State
    requires Total(s.subs)
  {
    var sub := s.subs[w];
    var t := Effect(s, sub, how).(subs := s.subs[w := Ended(w, sub, NextSub(s, sub, how))]);
    if sub == Announcing then PostDone(t, how) else t
  }

  /** Critical sections that wait: a release or a close of the console in
      progress, and a call of the isolate under the owner's reference. */
  predicate RoutineEnabled(s: State, w: Who, how: Outcome) {
    && Total(s.subs) && s.subs[w] != Idle
    && (s.subs[w].Checking? ==> s.conpty.state != Releasing)
    && (s.subs[w].Waiting? ==> s.conpty.state != Shutting)
    && (s.subs[w] == DropOwner ==> s.subs[Isolate] == Idle)
    && (s.subs[w] == Announcing ==> MayPost(s, how))
  }

  // --------------------------------------------------------- the bodies

  predicate Alive(s: State, w: Who) {
    match w
    case Boot => s.threads.boot != BootGone
    case Reader => s.threads.reader != Absent && s.threads.reader != Gone
    case Writer => s.threads.writer != Absent && s.threads.writer != Gone
    case Waiter => s.threads.waiter != Absent && s.threads.waiter != Gone
    case Closer => s.threads.closer != NoCloser && s.threads.closer != CloserGone
    case Console => s.threads.console != NoWorker && s.threads.console != WorkerGone
    case Isolate => false
    case Abandoner => false
  }

  predicate Joined(pc: WorkerPc) {
    pc == Absent || pc == Gone
  }

  predicate IsWorker(w: Who) {
    w == Reader || w == Writer || w == Waiter
  }

  function PcOf(th: Threads, w: Who): WorkerPc {
    if w == Reader then th.reader else if w == Writer then th.writer else th.waiter
  }

  function WithPc(th: Threads, w: Who, pc: WorkerPc): Threads {
    if w == Reader then th.(reader := pc) else if w == Writer then th.(writer := pc) else th.(waiter := pc)
  }

  function WithDone(f: Flags, w: Who): Flags {
    if w == Reader then f.(readerDone := true)
    else if w == Writer then f.(writerDone := true) else f.(waiterDone := true)
  }

  /** The bootstrap goes on. */
  function Booted(s: State, pc: BootPc): State {
    s.(threads := s.threads.(boot := pc))
  }

  /** It takes the post of SESSION_CLOSED on. */
  function Claimed(s: State, pc: BootPc): State {
    s.(threads := s.threads.(boot := pc), history := s.history.(claimed := true))
  }

  /** The thread of a worker starts. */
  function Employed(s: State, w: Who): State {
    s.(threads := WithPc(s.threads, w, Serving).(boot := AfterWorker(w)))
  }

  function AfterWorker(w: Who): BootPc {
    if w == Reader then RetainFor(Writer) else if w == Writer then RetainFor(Waiter) else Deciding
  }

  function AfterPosts(finale: Finale): BootPc {
    match finale
    case Bare => StoringClosing(Bare)
    case Cancelled => StoringClosed
    case Looked => LookingUp
    case Started => BootLeaving
  }

  predicate Incomplete(th: Threads) {
    th.reader == Absent || th.writer == Absent || th.waiter == Absent
  }

  /** The last section of a startup that is cancelled, that lacks a worker or
      cannot resume the process, or that comes too late. */
  function Cancels(s: State): State {
    Claimed(s, Posting(3, Cancelled))
      .(flags := s.flags.(readerDone := true, writerDone := true, waiterDone := true, closeDone := true, closedPosted := true))
  }

  function GivesUp(s: State, sync: bool): State {
    Booted(s, StoringClosing(Looked))
      .(flags := s.flags.(readerDone := s.flags.readerDone || s.threads.reader == Absent,
                          writerDone := s.flags.writerDone || s.threads.writer == Absent,
                          waiterDone := s.flags.waiterDone || s.threads.waiter == Absent,
                          closeDone := s.flags.closeDone || sync))
  }

  function ComesTooLate(s: State, sync: bool): State {
    Booted(s, Posting(1, Looked)).(flags := s.flags.(closeDone := s.flags.closeDone || sync))
  }

  /** What a step of the bootstrap does, but for the routine it enters and the
      failure of its posts. */
  function BootNext(s: State, how: Outcome): State {
    match s.threads.boot
    case Spawning => if how == Good then Booted(s, Publishing) else Claimed(s, Posting(2, Bare))
    case Publishing => Booted(s, CheckingClose).(platform := true)
    case CheckingClose => Booted(s, if s.lifecycle == Closing then Stopping(Cancel, true) else RetainFor(Reader))
    case RetainFor(w) => Booted(Retained(s), CreateFor(w))
    case CreateFor(w) => if how == Good then Employed(s, w) else Booted(s, DropFor(w))
    case DropFor(w) => Booted(Dropped(s), AfterWorker(w))
    case Deciding => Booted(s, if Incomplete(s.threads) then Reserving(WorkerFailure) else GoingOn)
    case GoingOn =>
      if s.lifecycle == Starting then Booted(s, Resuming).(lifecycle := Running) else Booted(s, Reserving(TooLate))
    case Resuming => Booted(s, if how == Good then Posting(1, Started) else Reserving(WorkerFailure))
    case Reserving(why) => Booted(s, Stopping(why, !s.flags.closeStarted)).(flags := s.flags.(closeStarted := true))
    case Stopping(why, sync) => Booted(s, Joining(why, sync)).(flags := s.flags.(stopping := true))
    case Joining(why, sync) => Booted(s, Consoling(why, sync))
    case Consoling(why, sync) => Booted(s, Sectioning(why, sync))
    case Sectioning(why, sync) => (
      match why
      case Cancel => Cancels(s)
      case WorkerFailure => GivesUp(s, sync)
      case TooLate => ComesTooLate(s, sync))
    case Posting(left, finale) => Booted(s, if left <= 1 then AfterPosts(finale) else Posting(left - 1, finale))
    case StoringClosing(finale) =>
      Booted(s, if finale == Bare then StoringClosed else Posting(3, Looked)).(lifecycle := Closing)
    case StoringClosed => Booted(s, Attempting).(lifecycle := Closed)
    case Attempting => Booted(s, BootLeaving).(history := s.history.(attempts := s.history.attempts + 1))
    case LookingUp => Booted(s, BootLeaving)
    case BootLeaving => Booted(Dropped(s), BootGone)
    case BootGone => s
  }

  /** The bootstrap joins the workers of a failed startup before it goes on. */
  predicate BootEnabled(s: State, how: Outcome) {
    && (s.threads.boot.Joining? ==> Joined(s.threads.reader) && Joined(s.threads.writer) && Joined(s.threads.waiter))
    && (s.threads.boot.Posting? || s.threads.boot == Attempting ==> (how == Skipped ==> s.memory.abandoned))
  }

  // Reader, writer and waiter post until they stop and mark themselves done.

  function Moved(s: State, w: Who, pc: WorkerPc): State {
    s.(threads := WithPc(s.threads, w, pc))
  }

  function Flagged(s: State, w: Who): State {
    s.(threads := WithPc(s.threads, w, Leaving), flags := WithDone(s.flags, w))
  }

  function Left(s: State, w: Who): State {
    Moved(Dropped(s), w, Gone)
  }

  /** ReleasePseudoConsole is called, and comes back. */
  function Gives(s: State): State {
    s.(threads := s.threads.(waiter := Giving), conpty := s.conpty.(state := Releasing))
  }

  function Gave(s: State, how: Outcome): State {
    s.(threads := s.threads.(waiter := Flagging), conpty := s.conpty.(state := if how == Good then Released else Owned))
  }

  /** After its posts the waiter gives the console up: with
      ReleasePseudoConsole if there is one and it succeeds, else by closing;
      not at all if the wait failed. */
  function WorkerNext(s: State, w: Who, how: Outcome): State {
    match PcOf(s.threads, w)
    case Serving => Moved(s, w, if how != Skipped then Serving else if w == Waiter then Owning else Flagging)
    case Owning => if s.conpty.state == Owned && how == Good then Gives(s) else Moved(s, w, Flagging)
    case Giving => Gave(s, how)
    case Flagging => Flagged(s, w)
    case Leaving => Left(s, w)
    case Absent => s
    case Gone => s
  }

  function CloserNext(s: State): State {
    match s.threads.closer
    case CloserStopping => s.(threads := s.threads.(closer := CloserConsoling), flags := s.flags.(stopping := true))
    case CloserConsoling => s.(threads := s.threads.(closer := CloserFlagging))
    case CloserFlagging => s.(threads := s.threads.(closer := CloserLeaving), flags := s.flags.(closeDone := true))
    case CloserLeaving => Dropped(s).(threads := s.threads.(closer := CloserGone))
    case _ => s
  }

  /** The console worker calls ClosePseudoConsole. */
  function ConsoleNext(s: State): State {
    match s.threads.console
    case WorkerCalling =>
      s.(threads := s.threads.(console := WorkerMarking), conpty := s.conpty.(closes := s.conpty.closes + 1))
    case WorkerMarking => s.(threads := s.threads.(console := WorkerLeaving), conpty := s.conpty.(state := Shut))
    case WorkerLeaving => Dropped(s).(threads := s.threads.(console := WorkerGone))
    case _ => s
  }

  function BodyEffect(s: State, w: Who, how: Outcome): State
    requires Alive(s, w)
  {
    match w
    case Boot => BootNext(s, how)
    case Closer => CloserNext(s)
    case Console => ConsoleNext(s)
    case _ => WorkerNext(s, w, how)
  }

  /** The routine a thread enters. */
  function BodySub(s: State, w: Who, how: Outcome): Sub {
    match w
    case Boot => if s.threads.boot.Consoling? then Checking(Wait) else if s.threads.boot == LookingUp then Looking else Idle
    case Closer =>
      if s.threads.closer == CloserConsoling then Checking(Wait)
      else if s.threads.closer == CloserFlagging then Looking else Idle
    case Console => Idle
    case _ =>
      if PcOf(s.threads, w) == Flagging then Looking
      else if Closes(PcOf(s.threads, w), s.conpty.state, how) then Checking(Return) else Idle
  }

  /** The waiter has to close the console itself. */
  predicate Closes(pc: WorkerPc, state: ConsoleState, how: Outcome) {
    (pc == Owning && state == Owned && how == Bad) || (pc == Giving && how != Good)
  }

  predicate BodyPosts(s: State, w: Who) {
    match w
    case Boot => s.threads.boot.Posting? || s.threads.boot == Attempting
    case Reader => s.threads.reader == Serving
    case Writer => s.threads.writer == Serving
    case Waiter => s.threads.waiter == Serving
    case _ => false
  }

  function BodyNext(s: State, w: Who, how: Outcome): State
    requires Total(s.subs) && Alive(s, w)
  {
    var t := BodyEffect(s, w, how).(subs := s.subs[w := BodySub(s, w, how)]);
    if BodyPosts(s, w) then PostDone(t, how) else t
  }

  predicate Enabled(s: State, l: Label) {
    Total(s.subs) &&
    match l
    case Routine(w, how) => RoutineEnabled(s, w, how)
    case Body(w, how) =>
      && s.subs[w] == Idle && Alive(s, w) && (w == Boot ==> BootEnabled(s, how))
      && (BodyPosts(s, w) && how == Bad ==> !s.memory.detached)
    // The isolate calls while it has its reference, one call at a time.
    case Close => s.subs[Isolate] == Idle && s.memory.owner
    // close() gives the reference back after SESSION_CLOSED, unless the
    // session is abandoned.
    case Release => s.subs[Isolate] == Idle && s.memory.owner && !s.memory.abandoned && s.history.attempts > 0
    // The finalizer runs on a session that is still there.
    case Finalize => s.subs[Isolate] == Idle && !s.memory.detached && s.memory.frees == 0
  }

  function Next(s: State, l: Label): State
    requires Enabled(s, l)
  {
    match l
    case Routine(w, how) => RoutineNext(s, w, how)
    case Body(w, how) => BodyNext(s, w, how)
    case Close => s.(subs := s.subs[Isolate := BeginClose(true)])
    case Release => Dropped(s.(memory := s.memory.(owner := false, detached := true)))
    case Finalize => PostDone(s, Bad)
  }

  // ------------------------------------------------------- the invariants

  /** What the routines in progress amount to: references held, holds on the
      closing of the console, calls of ClosePseudoConsole not yet marked, posts
      of SESSION_CLOSED, looks to come, steps towards a close worker, requests
      for one, and requests that know of a platform. */
  datatype Tally = Tally(
    refs: int, tokens: int, marks: int, tickets: int, looks: int, closing: int, asking: int, informed: int)

  function Nothing(): Tally {
    Tally(0, 0, 0, 0, 0, 0, 0, 0)
  }

  function Look(next: Then): nat {
    if next == WaitAndLook then 1 else 0
  }

  function Worth(sub: Sub): Tally {
    match sub
    case Idle => Nothing()
    case BeginClose(_) => Nothing()
    case LoadPlatform(_) => Tally(0, 0, 0, 0, 0, 0, 1, 0)
    case CloseCheck(_) => Tally(0, 0, 0, 0, 0, 0, 1, 1)
    case Retain1(_) => Tally(0, 0, 0, 0, 0, 1, 0, 1)
    case Retain2(_) => Tally(1, 0, 0, 0, 0, 1, 0, 1)
    case CreateCloser(_) => Tally(2, 0, 0, 0, 0, 1, 0, 1)
    case Published => Tally(1, 0, 0, 0, 0, 0, 0, 0)
    case FailDrop2(_) => Tally(2, 0, 0, 0, 0, 1, 0, 1)
    case FailDrop1(_) => Tally(1, 0, 0, 0, 0, 1, 0, 1)
    case FailSection(_) => Tally(0, 0, 0, 0, 0, 1, 0, 1)
    case DropOwner => Nothing()
    case Checking(next) => Tally(0, 0, 0, 0, Look(next), 0, 0, 1)
    case Retaining(next) => Tally(0, 1, 0, 0, Look(next), 0, 0, 1)
    case Creating(next) => Tally(1, 1, 0, 0, Look(next), 0, 0, 1)
    case Dropping(next) => Tally(1, 1, 0, 0, Look(next), 0, 0, 1)
    case Calling(next) => Tally(0, 1, 0, 0, Look(next), 0, 0, 1)
    case Marking(next) => Tally(0, 1, 1, 0, Look(next), 0, 0, 1)
    case Waiting(next) => Tally(0, 0, 0, 0, Look(next), 0, 0, 1)
    case Looking => Tally(0, 0, 0, 0, 1, 0, 0, 0)
    case Storing => Tally(0, 0, 0, 1, 0, 0, 0, 0)
    case Announcing => Tally(0, 0, 0, 1, 0, 0, 0, 0)
  }

  function Plus(a: Tally, b: Tally): Tally {
    Tally(a.refs + b.refs, a.tokens + b.tokens, a.marks + b.marks, a.tickets + b.tickets, a.looks + b.looks,
          a.closing + b.closing, a.asking + b.asking, a.informed + b.informed)
  }

  function Minus(a: Tally, b: Tally): Tally {
    Tally(a.refs - b.refs, a.tokens - b.tokens, a.marks - b.marks, a.tickets - b.tickets, a.looks - b.looks,
          a.closing - b.closing, a.asking - b.asking, a.informed - b.informed)
  }

  predicate Natural(t: Tally) {
    && t.refs >= 0 && t.tokens >= 0 && t.marks >= 0 && t.tickets >= 0 && t.looks >= 0
    && t.closing >= 0 && t.asking >= 0 && t.informed >= 0 && t.marks <= t.tokens
  }

  /** All routines in progress. */
  function All(subs: map<Who, Sub>): Tally
    requires Total(subs)
  {
    SumOver(Everybody(), subs)
  }

  function Everybody(): seq<Who> {
    [Boot, Reader, Writer, Waiter, Closer, Console, Isolate, Abandoner]
  }

  function SumOver(threads: seq<Who>, subs: map<Who, Sub>): Tally
    requires Total(subs)
  {
    if threads == [] then Nothing() else Plus(Worth(subs[threads[0]]), SumOver(threads[1..], subs))
  }

  function One(b: bool): nat {
    if b then 1 else 0
  }

  function BootRefs(pc: BootPc): nat {
    match pc
    case BootGone => 0
    case CreateFor(_) => 2
    case DropFor(_) => 2
    case _ => 1
  }

  function BodyRefs(th: Threads): nat {
    BootRefs(th.boot) + One(!Joined(th.reader)) + One(!Joined(th.writer)) + One(!Joined(th.waiter))
    + One(th.closer != NoCloser && th.closer != CloserGone) + One(th.console != NoWorker && th.console != WorkerGone)
  }

  /** Posts of SESSION_CLOSED the bootstrap has taken on. */
  function BootTickets(pc: BootPc): nat {
    match pc
    case Posting(_, finale) => if finale == Bare || finale == Cancelled then 1 else 0
    case StoringClosing(finale) => if finale == Bare then 1 else 0
    case StoringClosed => 1
    case Attempting => 1
    case _ => 0
  }

  function BootLooks(pc: BootPc): nat {
    match pc
    case Posting(_, finale) => if finale == Looked then 1 else 0
    case StoringClosing(finale) => if finale == Looked then 1 else 0
    case LookingUp => 1
    case _ => 0
  }

  predicate BootStores(pc: BootPc) {
    pc.StoringClosing? || (pc.Posting? && pc.finale == Bare)
  }

  /** How far startup is: before the reader, writer, waiter; before the last
      section of a failure; after it. */
  function Stage(pc: BootPc): nat {
    match pc
    case Spawning => 0
    case Publishing => 0
    case CheckingClose => 0
    case RetainFor(w) => Rank(w)
    case CreateFor(w) => Rank(w)
    case DropFor(w) => Rank(w) + 1
    case Posting(_, _) => 4
    case StoringClosing(_) => 4
    case StoringClosed => 4
    case Attempting => 4
    case LookingUp => 4
    case BootLeaving => 4
    case BootGone => 4
    case _ => 3
  }

  function Rank(w: Who): nat {
    if w == Reader then 0 else if w == Writer then 1 else 2
  }

  predicate WellFormed(pc: BootPc) {
    && (pc.StoringClosing? ==> pc.finale == Bare || pc.finale == Looked)
    && (pc.Reserving? ==> pc.why != Cancel)
    && (pc.RetainFor? || pc.CreateFor? || pc.DropFor? ==> IsWorker(pc.w))
  }

  predicate Why(pc: BootPc, why: Failure) {
    match pc
    case Reserving(y) => y == why
    case Stopping(y, _) => y == why
    case Joining(y, _) => y == why
    case Consoling(y, _) => y == why
    case Sectioning(y, _) => y == why
    case _ => false
  }

  /** The bootstrap stands in for a close worker. */
  predicate Sync(pc: BootPc) {
    match pc
    case Stopping(why, sync) => why != Cancel && sync
    case Joining(why, sync) => why != Cancel && sync
    case Consoling(why, sync) => why != Cancel && sync
    case Sectioning(why, sync) => why != Cancel && sync
    case _ => false
  }

  /** Every reference is somebody's. */
  predicate Counted(s: State, t: Tally) {
    && s.memory.refs == One(s.memory.owner) + BodyRefs(s.threads) + t.refs
    && s.memory.frees == One(s.memory.refs == 0)
  }

  /** The console is closed by whoever holds its closing, once, and never
      while it is being released. */
  predicate Shuts(s: State, t: Tally) {
    var c, worker := s.conpty, s.threads.console;
    && t.tokens + One(worker == WorkerCalling || worker == WorkerMarking) == One(c.state == Shutting)
    && (c.state == Releasing <==> s.threads.waiter == Giving)
    && c.closes == One(c.state == Shut) + t.marks + One(worker == WorkerMarking)
    && (t.tokens > 0 ==> worker == NoWorker)
    && (worker == WorkerLeaving || worker == WorkerGone ==> c.state == Shut)
    && (c.atFree.Some? <==> s.platform && s.memory.frees > 0)
    && (c.atFree.Some? ==> c.state == Shut && (c.atFree.value == Owned || c.atFree.value == Released || c.atFree.value == Shut))
  }

  /** A done flag follows its worker, or the bootstrap that could not start it. */
  predicate WorkerOk(pc: WorkerPc, done: bool, givenUp: bool) {
    if pc == Absent then done <==> givenUp else done <==> pc == Leaving || pc == Gone
  }

  predicate OnlyWaiterGives(th: Threads) {
    th.reader != Owning && th.reader != Giving && th.writer != Owning && th.writer != Giving
  }

  /** Which workers there are, and which are done. */
  predicate Workers(s: State) {
    var th, f, stage := s.threads, s.flags, Stage(s.threads.boot);
    && WellFormed(th.boot)
    && (stage <= 0 ==> th.reader == Absent) && (stage <= 1 ==> th.writer == Absent) && (stage <= 2 ==> th.waiter == Absent)
    && (Why(th.boot, Cancel) ==> th.reader == Absent && th.writer == Absent && th.waiter == Absent)
    && (th.boot == GoingOn || th.boot == Resuming || Why(th.boot, TooLate) ==>
          th.reader != Absent && th.writer != Absent && th.waiter != Absent)
    && WorkerOk(th.reader, f.readerDone, stage == 4 && s.platform)
    && WorkerOk(th.writer, f.writerDone, stage == 4 && s.platform)
    && WorkerOk(th.waiter, f.waiterDone, stage == 4 && s.platform)
    && OnlyWaiterGives(th)
  }

  predicate AtLeastClosing(l: Lifecycle) {
    l == Closing || l == Closed
  }

  /** A close once asked for is on its way. */
  predicate Closers(s: State, t: Tally) {
    var f, th := s.flags, s.threads;
    && (th.closer != NoCloser ==> f.closeStarted && AtLeastClosing(s.lifecycle) && !Sync(th.boot))
    && (th.closer == CloserConsoling || th.closer == CloserFlagging ==> f.stopping)
    && (th.closer == CloserLeaving || th.closer == CloserGone ==> f.closeDone)
    && (f.closeDone ==> f.stopping)
    && (th.boot.Joining? || th.boot.Consoling? || th.boot.Sectioning? ==> f.stopping)
    && (BootLooks(th.boot) > 0 ==> f.closeStarted)
    && (Sync(th.boot) || (!th.boot.Reserving? && (Why(th.boot, WorkerFailure) || Why(th.boot, TooLate))) ==> f.closeStarted)
    && (f.closeStarted && !f.closeDone ==>
          th.closer == CloserStopping || th.closer == CloserConsoling || th.closer == CloserFlagging
          || t.closing > 0 || Sync(th.boot))
    && (t.closing + t.asking > 0 ==> AtLeastClosing(s.lifecycle))
    && (t.closing > 0 ==> t.closing == 1 && f.closeStarted && s.platform && th.closer == NoCloser && !Sync(th.boot))
  }

  /** Startup notices a close, or hands the session over running. */
  predicate Startup(s: State, t: Tally) {
    var f, th := s.flags, s.threads;
    && (th.boot == Spawning || th.boot == Publishing ==> !s.platform)
    && (s.platform || th.boot == Spawning || th.boot == Publishing || Stage(th.boot) == 4)
    && (!s.platform ==>
          && f == Flags(false, false, false, false, false, false, false) && s.conpty == ConPty(Owned, 0, None)
          && th.reader == Absent && th.writer == Absent && th.waiter == Absent && th.closer == NoCloser
          && th.console == NoWorker && t.informed == 0)
    && (s.lifecycle == Running ==> s.platform && (th.boot == Resuming || Why(th.boot, WorkerFailure) || Stage(th.boot) == 4))
    && (Why(th.boot, Cancel) || Why(th.boot, TooLate) ==> AtLeastClosing(s.lifecycle))
    && (s.lifecycle == Starting ==> th.boot != Resuming && (Stage(th.boot) < 4 || BootStores(th.boot)))
    && (s.platform && (Stage(th.boot) == 4 || th.boot == Resuming) ==>
          s.lifecycle == Running || f.closeStarted || f.closeDone || t.asking > 0)
  }

  /** SESSION_CLOSED is one thread's to post, when all four workers are done
      and the console is closed. */
  predicate Tickets(s: State, t: Tally) {
    && t.tickets + BootTickets(s.threads.boot) + s.history.attempts == One(s.history.claimed)
    && (s.history.claimed <==> s.flags.closedPosted || (!s.platform && Stage(s.threads.boot) == 4))
    && (s.flags.closedPosted ==> AllDone(s)) && (s.memory.detached ==> s.history.attempts > 0)
  }

  /** When all is done somebody has taken it on or is about to look. */
  predicate Watched(s: State, t: Tally) {
    Due(s) && !s.memory.abandoned ==> t.looks + BootLooks(s.threads.boot) > 0
  }

  /** The owner's reference is dropped once, at the end of the abandonment. */
  predicate Abandons(s: State) {
    && Total(s.subs)
    && (s.subs[Abandoner] != Idle <==> s.memory.abandoned && s.memory.owner)
    && (!s.memory.owner ==> s.memory.abandoned || s.memory.detached)
    && (s.memory.detached ==> !s.memory.owner && !s.memory.abandoned)
  }

  predicate ClosesConsole(sub: Sub, next: Then) {
    sub == Checking(next) || sub == Retaining(next) || sub == Creating(next) || sub == Dropping(next)
    || sub == Calling(next) || sub == Marking(next) || sub == Waiting(next)
  }

  predicate Looks(sub: Sub) {
    sub == Looking || sub == Storing || sub == Announcing
  }

  predicate Begins(sub: Sub, blocking: bool) {
    sub == BeginClose(blocking) || sub == LoadPlatform(blocking) || sub == CloseCheck(blocking)
    || sub == Retain1(blocking) || sub == Retain2(blocking) || sub == CreateCloser(blocking) || sub == Published
    || sub == FailDrop2(blocking) || sub == FailDrop1(blocking) || sub == FailSection(blocking)
  }

  /** Which thread can be in which routine. */
  predicate Fits(w: Who, sub: Sub) {
    sub == Idle ||
    match w
    case Boot => ClosesConsole(sub, Wait) || Looks(sub)
    case Reader => Looks(sub)
    case Writer => Looks(sub)
    case Waiter => ClosesConsole(sub, Return) || Looks(sub)
    case Closer => ClosesConsole(sub, Wait) || Looks(sub)
    case Console => false
    case Isolate => Begins(sub, true) || ClosesConsole(sub, WaitAndLook) || Looks(sub)
    case Abandoner => Begins(sub, false) || sub == DropOwner
  }

  /** A routine belongs to a thread that is alive, or runs under the owner's
      reference. */
  predicate Placed(s: State) {
    && Total(s.subs)
    && (forall w: Who :: Fits(w, s.subs[w]))
    && (forall w: Who :: s.subs[w] != Idle && w != Isolate && w != Abandoner ==> Alive(s, w))
    && (s.subs[Isolate] != Idle ==> s.memory.owner)
  }

  /** A thread past the start of the closing waits for it. */
  predicate Settled(sub: Sub, state: ConsoleState) {
    sub.Checking? || state == Shut
    || (state == Shutting && (sub.Retaining? || sub.Creating? || sub.Dropping? || sub.Calling? || sub.Marking? || sub.Waiting?))
  }

  /** Nobody reports the close done before the console is closed. */
  predicate Waits(s: State) {
    && Total(s.subs)
    && (s.threads.closer == CloserFlagging ==> Settled(s.subs[Closer], s.conpty.state))
    && (s.threads.boot.Sectioning? ==> Settled(s.subs[Boot], s.conpty.state))
    && (ClosesConsole(s.subs[Isolate], WaitAndLook) ==> Settled(s.subs[Isolate], s.conpty.state))
    && (s.flags.closeDone && !s.memory.abandoned ==>
          s.conpty.state == Shut || ClosesConsole(s.subs[Isolate], WaitAndLook))
  }

  /** Everything about fields and what the routines amount to. */
  predicate Shape(s: State, t: Tally) {
    Front(s, t) && Back(s, t)
  }

  predicate Front(s: State, t: Tally) {
    Held(s, t) && Led(s, t)
  }

  predicate Held(s: State, t: Tally) {
    Counted(s, t) && Shuts(s, t)
  }

  predicate Led(s: State, t: Tally) {
    Workers(s) && Closers(s, t)
  }

  predicate Back(s: State, t: Tally) {
    Startup(s, t) && Tickets(s, t) && Watched(s, t)
  }

  predicate Inv(s: State) {
    Abandons(s) && Placed(s) && Waits(s) && Shape(s, All(s.subs))
  }

  // ------------------------------------------------------- one step of a routine

  /** What is left when a routine went from one operation to another. */
  function Swap(t: Tally, a: Sub, b: Sub): Tally {
    Plus(Minus(t, Worth(a)), Worth(b))
  }

  function After1(t: Tally, s: State, sub: Sub, how: Outcome): Tally {
    Swap(t, sub, NextSub(s, sub, how))
  }

  predicate Drops(sub: Sub) {
    sub == Published || sub.FailDrop2? || sub.FailDrop1? || sub == DropOwner || sub.Dropping?
  }

  /** Nobody has a hold on the console. */
  predicate Loose(s: State, t: Tally) {
    && t.tokens == 0 && s.threads.console != WorkerCalling && s.threads.console != WorkerMarking
    && s.threads.waiter != Giving
  }

  /** Who goes on in a routine is counted, and alone if it drops the last
      reference. */
  predicate Secure(s: State, t: Tally, sub: Sub) {
    && Natural(Minus(t, Worth(sub))) && s.memory.refs > 0
    && (sub == DropOwner ==> s.memory.owner)
    && (sub.Checking? ==> s.conpty.state != Releasing)
    && (Drops(sub) && s.memory.refs == 1 ==> sub == DropOwner && s.memory.abandoned && Loose(s, t))
  }

  lemma BeginCloseKeepsFront(s: State, t: Tally, b: bool)
    requires Secure(s, t, BeginClose(b)) && Shape(s, t)
    ensures Front(if s.lifecycle == Closed then s else s.(lifecycle := Closing),
                  Swap(t, BeginClose(b), if s.lifecycle == Running || s.lifecycle == Closing then LoadPlatform(b) else Idle))
  {
  }

  lemma BeginCloseKeepsBack(s: State, t: Tally, b: bool)
    requires Secure(s, t, BeginClose(b)) && Shape(s, t)
    ensures Back(if s.lifecycle == Closed then s else s.(lifecycle := Closing),
                  Swap(t, BeginClose(b), if s.lifecycle == Running || s.lifecycle == Closing then LoadPlatform(b) else Idle))
  {
  }

  lemma BeginCloseKeeps(s: State, t: Tally, b: bool)
    requires Secure(s, t, BeginClose(b)) && Shape(s, t)
    ensures Shape(if s.lifecycle == Closed then s else s.(lifecycle := Closing),
                  Swap(t, BeginClose(b), if s.lifecycle == Running || s.lifecycle == Closing then LoadPlatform(b) else Idle))
  {
    BeginCloseKeepsFront(s, t, b);
    BeginCloseKeepsBack(s, t, b);
  }

  lemma LoadPlatformKeeps(s: State, t: Tally, b: bool)
    requires Secure(s, t, LoadPlatform(b)) && Shape(s, t)
    ensures Shape(s, Swap(t, LoadPlatform(b), if s.platform then CloseCheck(b) else Idle))
  {
  }

  lemma CloseCheckKeeps(s: State, t: Tally, b: bool)
    requires Secure(s, t, CloseCheck(b)) && Shape(s, t)
    ensures s.flags.closeStarted || s.flags.closeDone ==> Shape(s, Swap(t, CloseCheck(b), Idle))
    ensures !s.flags.closeStarted && !s.flags.closeDone ==>
              Shape(s.(flags := s.flags.(closeStarted := true)), Swap(t, CloseCheck(b), Retain1(b)))
  {
  }

  lemma RetainKeepsFront(s: State, t: Tally, a: Sub, b: Sub)
    requires Secure(s, t, a) && Shape(s, t) && Worth(b) == Worth(a).(refs := Worth(a).refs + 1)
    ensures Front(Retained(s), Swap(t, a, b))
  {
  }

  lemma RetainKeepsBack(s: State, t: Tally, a: Sub, b: Sub)
    requires Secure(s, t, a) && Shape(s, t) && Worth(b) == Worth(a).(refs := Worth(a).refs + 1)
    ensures Back(Retained(s), Swap(t, a, b))
  {
  }

  lemma RetainKeeps(s: State, t: Tally, a: Sub, b: Sub)
    requires Secure(s, t, a) && Shape(s, t) && Worth(b) == Worth(a).(refs := Worth(a).refs + 1)
    ensures Shape(Retained(s), Swap(t, a, b))
  {
    RetainKeepsFront(s, t, a, b);
    RetainKeepsBack(s, t, a, b);
  }

  lemma CreateCloserKeepsHeld(s: State, t: Tally, b: bool)
    requires Secure(s, t, CreateCloser(b)) && Shape(s, t)
    ensures Held(s.(threads := s.threads.(closer := CloserStopping)), Swap(t, CreateCloser(b), Published))
    ensures Held(s, Swap(t, CreateCloser(b), FailDrop2(b)))
  {
  }

  lemma CreateCloserKeepsLed(s: State, t: Tally, b: bool)
    requires Secure(s, t, CreateCloser(b)) && Shape(s, t)
    ensures Led(s.(threads := s.threads.(closer := CloserStopping)), Swap(t, CreateCloser(b), Published))
    ensures Led(s, Swap(t, CreateCloser(b), FailDrop2(b)))
  {
  }

  lemma CreateCloserKeepsBack(s: State, t: Tally, b: bool)
    requires Secure(s, t, CreateCloser(b)) && Shape(s, t)
    ensures Back(s.(threads := s.threads.(closer := CloserStopping)), Swap(t, CreateCloser(b), Published))
    ensures Back(s, Swap(t, CreateCloser(b), FailDrop2(b)))
  {
  }

  lemma CreateCloserKeeps(s: State, t: Tally, b: bool)
    requires Secure(s, t, CreateCloser(b)) && Shape(s, t)
    ensures Shape(s.(threads := s.threads.(closer := CloserStopping)), Swap(t, CreateCloser(b), Published))
    ensures Shape(s, Swap(t, CreateCloser(b), FailDrop2(b)))
  {
    CreateCloserKeepsHeld(s, t, b);
    CreateCloserKeepsLed(s, t, b);
    CreateCloserKeepsBack(s, t, b);
  }

  lemma DropKeepsHeld(s: State, t: Tally, a: Sub, b: Sub)
    requires Secure(s, t, a) && Shape(s, t) && Drops(a) && a != DropOwner
    requires Worth(b) == Worth(a).(refs := Worth(a).refs - 1)
    ensures Held(Dropped(s), Swap(t, a, b))
  {
  }

  lemma DropKeepsLed(s: State, t: Tally, a: Sub, b: Sub)
    requires Secure(s, t, a) && Shape(s, t) && Drops(a) && a != DropOwner
    requires Worth(b) == Worth(a).(refs := Worth(a).refs - 1)
    ensures Led(Dropped(s), Swap(t, a, b))
  {
  }

  lemma DropKeepsBack(s: State, t: Tally, a: Sub, b: Sub)
    requires Secure(s, t, a) && Shape(s, t) && Drops(a) && a != DropOwner
    requires Worth(b) == Worth(a).(refs := Worth(a).refs - 1)
    ensures Back(Dropped(s), Swap(t, a, b))
  {
  }

  lemma DropKeeps(s: State, t: Tally, a: Sub, b: Sub)
    requires Secure(s, t, a) && Shape(s, t) && Drops(a) && a != DropOwner
    requires Worth(b) == Worth(a).(refs := Worth(a).refs - 1)
    ensures Shape(Dropped(s), Swap(t, a, b))
  {
    DropKeepsHeld(s, t, a, b);
    DropKeepsLed(s, t, a, b);
    DropKeepsBack(s, t, a, b);
  }

  lemma FailSectionKeepsFront(s: State, t: Tally, b: bool)
    requires Secure(s, t, FailSection(b)) && Shape(s, t)
    requires b || s.memory.abandoned
    ensures Front(s.(flags := s.flags.(stopping := true, closeDone := true)),
                  Swap(t, FailSection(b), if b then Checking(WaitAndLook) else Idle))
  {
  }

  lemma FailSectionKeepsBack(s: State, t: Tally, b: bool)
    requires Secure(s, t, FailSection(b)) && Shape(s, t)
    requires b || s.memory.abandoned
    ensures Back(s.(flags := s.flags.(stopping := true, closeDone := true)),
                  Swap(t, FailSection(b), if b then Checking(WaitAndLook) else Idle))
  {
  }

  lemma FailSectionKeeps(s: State, t: Tally, b: bool)
    requires Secure(s, t, FailSection(b)) && Shape(s, t)
    requires b || s.memory.abandoned
    ensures Shape(s.(flags := s.flags.(stopping := true, closeDone := true)),
                  Swap(t, FailSection(b), if b then Checking(WaitAndLook) else Idle))
  {
    FailSectionKeepsFront(s, t, b);
    FailSectionKeepsBack(s, t, b);
  }

  lemma DropOwnerKeepsFront(s: State, t: Tally)
    requires Secure(s, t, DropOwner) && Shape(s, t)
    ensures Front(Dropped(s.(memory := s.memory.(owner := false))), Swap(t, DropOwner, Idle))
  {
  }

  lemma DropOwnerKeepsBack(s: State, t: Tally)
    requires Secure(s, t, DropOwner) && Shape(s, t)
    ensures Back(Dropped(s.(memory := s.memory.(owner := false))), Swap(t, DropOwner, Idle))
  {
  }

  lemma DropOwnerKeeps(s: State, t: Tally)
    requires Secure(s, t, DropOwner) && Shape(s, t)
    ensures Shape(Dropped(s.(memory := s.memory.(owner := false))), Swap(t, DropOwner, Idle))
  {
    DropOwnerKeepsFront(s, t);
    DropOwnerKeepsBack(s, t);
  }

  lemma CheckingLateKeepsHeld(s: State, t: Tally, next: Then)
    requires Secure(s, t, Checking(next)) && Shape(s, t)
    ensures Held(s, Swap(t, Checking(next), AfterStart(next)))
  {
  }

  lemma CheckingLateKeepsLed(s: State, t: Tally, next: Then)
    requires Secure(s, t, Checking(next)) && Shape(s, t)
    ensures Led(s, Swap(t, Checking(next), AfterStart(next)))
  {
  }

  lemma CheckingLateKeepsBack(s: State, t: Tally, next: Then)
    requires Secure(s, t, Checking(next)) && Shape(s, t)
    ensures Back(s, Swap(t, Checking(next), AfterStart(next)))
  {
  }

  lemma CheckingLateKeeps(s: State, t: Tally, next: Then)
    requires Secure(s, t, Checking(next)) && Shape(s, t)
    ensures Shape(s, Swap(t, Checking(next), AfterStart(next)))
  {
    CheckingLateKeepsHeld(s, t, next);
    CheckingLateKeepsLed(s, t, next);
    CheckingLateKeepsBack(s, t, next);
  }

  lemma CheckingKeepsFront(s: State, t: Tally, next: Then)
    requires Secure(s, t, Checking(next)) && Shape(s, t) && s.conpty.state != Shut && s.conpty.state != Shutting
    ensures Front(s.(conpty := s.conpty.(state := Shutting)), Swap(t, Checking(next), Retaining(next)))
  {
  }

  lemma CheckingKeepsBack(s: State, t: Tally, next: Then)
    requires Secure(s, t, Checking(next)) && Shape(s, t) && s.conpty.state != Shut && s.conpty.state != Shutting
    ensures Back(s.(conpty := s.conpty.(state := Shutting)), Swap(t, Checking(next), Retaining(next)))
  {
  }

  lemma CheckingKeeps(s: State, t: Tally, next: Then)
    requires Secure(s, t, Checking(next)) && Shape(s, t) && s.conpty.state != Shut && s.conpty.state != Shutting
    ensures Shape(s.(conpty := s.conpty.(state := Shutting)), Swap(t, Checking(next), Retaining(next)))
  {
    CheckingKeepsFront(s, t, next);
    CheckingKeepsBack(s, t, next);
  }

  lemma CreatingKeepsHeld(s: State, t: Tally, next: Then)
    requires Secure(s, t, Creating(next)) && Shape(s, t)
    ensures Held(s.(threads := s.threads.(console := WorkerCalling)), Swap(t, Creating(next), AfterStart(next)))
  {
  }

  lemma CreatingKeepsLed(s: State, t: Tally, next: Then)
    requires Secure(s, t, Creating(next)) && Shape(s, t)
    ensures Led(s.(threads := s.threads.(console := WorkerCalling)), Swap(t, Creating(next), AfterStart(next)))
  {
  }

  lemma CreatingKeepsBack(s: State, t: Tally, next: Then)
    requires Secure(s, t, Creating(next)) && Shape(s, t)
    ensures Back(s.(threads := s.threads.(console := WorkerCalling)), Swap(t, Creating(next), AfterStart(next)))
  {
  }

  lemma CreatingKeeps(s: State, t: Tally, next: Then)
    requires Secure(s, t, Creating(next)) && Shape(s, t)
    ensures Shape(s.(threads := s.threads.(console := WorkerCalling)), Swap(t, Creating(next), AfterStart(next)))
  {
    CreatingKeepsHeld(s, t, next);
    CreatingKeepsLed(s, t, next);
    CreatingKeepsBack(s, t, next);
  }

  lemma CannotCreateKeepsFront(s: State, t: Tally, next: Then)
    requires Secure(s, t, Creating(next)) && Shape(s, t)
    ensures Front(s, Swap(t, Creating(next), Dropping(next)))
  {
  }

  lemma CannotCreateKeepsBack(s: State, t: Tally, next: Then)
    requires Secure(s, t, Creating(next)) && Shape(s, t)
    ensures Back(s, Swap(t, Creating(next), Dropping(next)))
  {
  }

  lemma CannotCreateKeeps(s: State, t: Tally, next: Then)
    requires Secure(s, t, Creating(next)) && Shape(s, t)
    ensures Shape(s, Swap(t, Creating(next), Dropping(next)))
  {
    CannotCreateKeepsFront(s, t, next);
    CannotCreateKeepsBack(s, t, next);
  }

  lemma CallingKeepsHeld(s: State, t: Tally, next: Then)
    requires Secure(s, t, Calling(next)) && Shape(s, t)
    ensures Held(s.(conpty := s.conpty.(closes := s.conpty.closes + 1)), Swap(t, Calling(next), Marking(next)))
  {
  }

  lemma CallingKeepsLed(s: State, t: Tally, next: Then)
    requires Secure(s, t, Calling(next)) && Shape(s, t)
    ensures Led(s.(conpty := s.conpty.(closes := s.conpty.closes + 1)), Swap(t, Calling(next), Marking(next)))
  {
  }

  lemma CallingKeepsBack(s: State, t: Tally, next: Then)
    requires Secure(s, t, Calling(next)) && Shape(s, t)
    ensures Back(s.(conpty := s.conpty.(closes := s.conpty.closes + 1)), Swap(t, Calling(next), Marking(next)))
  {
  }

  lemma CallingKeeps(s: State, t: Tally, next: Then)
    requires Secure(s, t, Calling(next)) && Shape(s, t)
    ensures Shape(s.(conpty := s.conpty.(closes := s.conpty.closes + 1)), Swap(t, Calling(next), Marking(next)))
  {
    CallingKeepsHeld(s, t, next);
    CallingKeepsLed(s, t, next);
    CallingKeepsBack(s, t, next);
  }

  lemma MarkingKeepsHeld(s: State, t: Tally, next: Then)
    requires Secure(s, t, Marking(next)) && Shape(s, t)
    requires s.flags.closeDone && !s.memory.abandoned ==> t.looks > Look(next) || next == WaitAndLook
    ensures Held(s.(conpty := s.conpty.(state := Shut)), Swap(t, Marking(next), AfterStart(next)))
  {
  }

  lemma MarkingKeepsLed(s: State, t: Tally, next: Then)
    requires Secure(s, t, Marking(next)) && Shape(s, t)
    requires s.flags.closeDone && !s.memory.abandoned ==> t.looks > Look(next) || next == WaitAndLook
    ensures Led(s.(conpty := s.conpty.(state := Shut)), Swap(t, Marking(next), AfterStart(next)))
  {
  }

  lemma MarkingKeepsBack(s: State, t: Tally, next: Then)
    requires Secure(s, t, Marking(next)) && Shape(s, t)
    requires s.flags.closeDone && !s.memory.abandoned ==> t.looks > Look(next) || next == WaitAndLook
    ensures Back(s.(conpty := s.conpty.(state := Shut)), Swap(t, Marking(next), AfterStart(next)))
  {
  }

  lemma MarkingKeeps(s: State, t: Tally, next: Then)
    requires Secure(s, t, Marking(next)) && Shape(s, t)
    requires s.flags.closeDone && !s.memory.abandoned ==> t.looks > Look(next) || next == WaitAndLook
    ensures Shape(s.(conpty := s.conpty.(state := Shut)), Swap(t, Marking(next), AfterStart(next)))
  {
    MarkingKeepsHeld(s, t, next);
    MarkingKeepsLed(s, t, next);
    MarkingKeepsBack(s, t, next);
  }

  lemma WaitingKeepsFront(s: State, t: Tally, next: Then)
    requires Secure(s, t, Waiting(next)) && Shape(s, t)
    ensures Front(s, Swap(t, Waiting(next), if next == WaitAndLook then Looking else Idle))
  {
  }

  lemma WaitingKeepsBack(s: State, t: Tally, next: Then)
    requires Secure(s, t, Waiting(next)) && Shape(s, t)
    ensures Back(s, Swap(t, Waiting(next), if next == WaitAndLook then Looking else Idle))
  {
  }

  lemma WaitingKeeps(s: State, t: Tally, next: Then)
    requires Secure(s, t, Waiting(next)) && Shape(s, t)
    ensures Shape(s, Swap(t, Waiting(next), if next == WaitAndLook then Looking else Idle))
  {
    WaitingKeepsFront(s, t, next);
    WaitingKeepsBack(s, t, next);
  }

  lemma LookingKeepsFront(s: State, t: Tally)
    requires Secure(s, t, Looking) && Shape(s, t)
    ensures Due(s) ==> Front(s.(flags := s.flags.(closedPosted := true), history := s.history.(claimed := true)),
                              Swap(t, Looking, Storing))
    ensures !Due(s) ==> Front(s, Swap(t, Looking, Idle))
  {
  }

  lemma LookingKeepsBack(s: State, t: Tally)
    requires Secure(s, t, Looking) && Shape(s, t)
    ensures Due(s) ==> Back(s.(flags := s.flags.(closedPosted := true), history := s.history.(claimed := true)),
                              Swap(t, Looking, Storing))
    ensures !Due(s) ==> Back(s, Swap(t, Looking, Idle))
  {
  }

  lemma LookingKeeps(s: State, t: Tally)
    requires Secure(s, t, Looking) && Shape(s, t)
    ensures Due(s) ==> Shape(s.(flags := s.flags.(closedPosted := true), history := s.history.(claimed := true)),
                              Swap(t, Looking, Storing))
    ensures !Due(s) ==> Shape(s, Swap(t, Looking, Idle))
  {
    LookingKeepsFront(s, t);
    LookingKeepsBack(s, t);
  }

  lemma StoringKeepsFront(s: State, t: Tally)
    requires Secure(s, t, Storing) && Shape(s, t)
    ensures Front(s.(lifecycle := Closed), Swap(t, Storing, Announcing))
  {
  }

  lemma StoringKeepsBack(s: State, t: Tally)
    requires Secure(s, t, Storing) && Shape(s, t)
    ensures Back(s.(lifecycle := Closed), Swap(t, Storing, Announcing))
  {
  }

  lemma StoringKeeps(s: State, t: Tally)
    requires Secure(s, t, Storing) && Shape(s, t)
    ensures Shape(s.(lifecycle := Closed), Swap(t, Storing, Announcing))
  {
    StoringKeepsFront(s, t);
    StoringKeepsBack(s, t);
  }

  lemma AnnouncingKeepsFront(s: State, t: Tally)
    requires Secure(s, t, Announcing) && Shape(s, t)
    ensures Front(s.(history := s.history.(attempts := s.history.attempts + 1)), Swap(t, Announcing, Idle))
  {
  }

  lemma AnnouncingKeepsBack(s: State, t: Tally)
    requires Secure(s, t, Announcing) && Shape(s, t)
    ensures Back(s.(history := s.history.(attempts := s.history.attempts + 1)), Swap(t, Announcing, Idle))
  {
  }

  lemma AnnouncingKeeps(s: State, t: Tally)
    requires Secure(s, t, Announcing) && Shape(s, t)
    ensures Shape(s.(history := s.history.(attempts := s.history.attempts + 1)), Swap(t, Announcing, Idle))
  {
    AnnouncingKeepsFront(s, t);
    AnnouncingKeepsBack(s, t);
  }

  predicate AsksClose(sub: Sub) {
    sub.BeginClose? || sub.LoadPlatform? || sub.CloseCheck?
  }

  lemma AsksCloseShape(s: State, t: Tally, sub: Sub, how: Outcome)
    requires Secure(s, t, sub) && Shape(s, t) && AsksClose(sub)
    ensures Shape(Effect(s, sub, how), After1(t, s, sub, how))
  {
    match sub
    case BeginClose(b) => BeginCloseKeeps(s, t, b);
    case LoadPlatform(b) => LoadPlatformKeeps(s, t, b);
    case CloseCheck(b) => CloseCheckKeeps(s, t, b);
  }

  predicate StartsClose(sub: Sub) {
    sub.Retain1? || sub.Retain2? || sub.CreateCloser?
  }

  lemma StartsCloseShape(s: State, t: Tally, sub: Sub, how: Outcome)
    requires Secure(s, t, sub) && Shape(s, t) && StartsClose(sub)
    ensures Shape(Effect(s, sub, how), After1(t, s, sub, how))
  {
    if sub.CreateCloser? {
      CreateCloserKeeps(s, t, sub.blocking);
    } else {
      RetainsCloseShape(s, t, sub, how);
    }
  }

  lemma RetainsCloseShape(s: State, t: Tally, sub: Sub, how: Outcome)
    requires Secure(s, t, sub) && Shape(s, t) && (sub.Retain1? || sub.Retain2?)
    ensures Shape(Effect(s, sub, how), After1(t, s, sub, how))
  {
    RetainKeeps(s, t, sub, if sub.Retain1? then Retain2(sub.blocking) else CreateCloser(sub.blocking));
  }

  predicate DropsCloseRefs(sub: Sub) {
    sub == Published || sub.FailDrop2? || sub.FailDrop1?
  }

  lemma DropsCloseShape(s: State, t: Tally, sub: Sub, how: Outcome)
    requires Secure(s, t, sub) && Shape(s, t) && DropsCloseRefs(sub)
    ensures Shape(Effect(s, sub, how), After1(t, s, sub, how))
  {
    match sub
    case Published => DropKeeps(s, t, sub, Idle);
    case FailDrop2(b) => DropKeeps(s, t, sub, FailDrop1(b));
    case FailDrop1(b) => DropKeeps(s, t, sub, FailSection(b));
  }

  lemma EndsCloseShape(s: State, t: Tally, sub: Sub, how: Outcome)
    requires Secure(s, t, sub) && Shape(s, t) && (sub.FailSection? || sub == DropOwner)
    requires sub.FailSection? ==> sub.blocking || s.memory.abandoned
    ensures Shape(Effect(s, sub, how), After1(t, s, sub, how))
  {
    match sub
    case FailSection(b) => FailSectionKeeps(s, t, b);
    case DropOwner => DropOwnerKeeps(s, t);
  }

  predicate StartsConsole(sub: Sub) {
    sub.Checking? || sub.Retaining? || sub.Creating?
  }

  lemma StartsConsoleShape(s: State, t: Tally, sub: Sub, how: Outcome)
    requires Secure(s, t, sub) && Shape(s, t) && StartsConsole(sub)
    ensures Shape(Effect(s, sub, how), After1(t, s, sub, how))
  {
    match sub
    case Checking(next) =>
      if s.conpty.state == Shut || s.conpty.state == Shutting {
        CheckingLateKeeps(s, t, next);
      } else {
        CheckingKeeps(s, t, next);
      }
    case Retaining(next) => RetainKeeps(s, t, sub, Creating(next));
    case Creating(next) => if how == Good { CreatingKeeps(s, t, next); } else { CannotCreateKeeps(s, t, next); }
  }

  predicate ShutsItself(sub: Sub) {
    sub.Dropping? || sub.Calling?
  }

  lemma ShutsItselfShape(s: State, t: Tally, sub: Sub, how: Outcome)
    requires Secure(s, t, sub) && Shape(s, t) && ShutsItself(sub)
    ensures Shape(Effect(s, sub, how), After1(t, s, sub, how))
  {
    match sub
    case Dropping(next) => DropKeeps(s, t, sub, Calling(next));
    case Calling(next) => CallingKeeps(s, t, next);
  }

  predicate FinishesConsole(sub: Sub) {
    sub.Marking? || sub.Waiting?
  }

  lemma FinishesConsoleShape(s: State, t: Tally, sub: Sub, how: Outcome)
    requires Secure(s, t, sub) && Shape(s, t) && FinishesConsole(sub)
    requires sub.Marking? && s.flags.closeDone && !s.memory.abandoned ==> t.looks > Worth(sub).looks || sub.next == WaitAndLook
    ensures Shape(Effect(s, sub, how), After1(t, s, sub, how))
  {
    match sub
    case Marking(next) => MarkingKeeps(s, t, next);
    case Waiting(next) => WaitingKeeps(s, t, next);
  }

  lemma LooksShape(s: State, t: Tally, sub: Sub, how: Outcome)
    requires Secure(s, t, sub) && Shape(s, t) && Looks(sub)
    ensures Shape(Effect(s, sub, how), After1(t, s, sub, how))
  {
    match sub
    case Looking => LookingKeeps(s, t);
    case Storing => StoringKeeps(s, t);
    case Announcing => AnnouncingKeeps(s, t);
  }

  lemma EffectShape(s: State, t: Tally, sub: Sub, how: Outcome)
    requires Secure(s, t, sub) && Shape(s, t)
    requires sub.FailSection? ==> sub.blocking || s.memory.abandoned
    requires sub.Marking? && s.flags.closeDone && !s.memory.abandoned ==> t.looks > Worth(sub).looks || sub.next == WaitAndLook
    ensures Shape(Effect(s, sub, how), After1(t, s, sub, how))
  {
    if AsksClose(sub) {
      AsksCloseShape(s, t, sub, how);
    } else if StartsClose(sub) {
      StartsCloseShape(s, t, sub, how);
    } else if DropsCloseRefs(sub) {
      DropsCloseShape(s, t, sub, how);
    } else if sub.FailSection? || sub == DropOwner {
      EndsCloseShape(s, t, sub, how);
    } else if StartsConsole(sub) {
      StartsConsoleShape(s, t, sub, how);
    } else if ShutsItself(sub) {
      ShutsItselfShape(s, t, sub, how);
    } else if FinishesConsole(sub) {
      FinishesConsoleShape(s, t, sub, how);
    } else if Looks(sub) {
      LooksShape(s, t, sub, how);
    } else {
      PlusNothing(t);
    }
  }

  // ------------------------------------------------------- one step of a body

  /** The body's next step drops a reference. */
  predicate Last(s: State, w: Who) {
    match w
    case Boot => s.threads.boot == BootLeaving || s.threads.boot.DropFor?
    case Closer => s.threads.closer == CloserLeaving
    case Console => s.threads.console == WorkerLeaving
    case _ => IsWorker(w) && PcOf(s.threads, w) == Leaving
  }

  /** A body goes on only while its thread is counted, and is alone when it
      drops the last reference. */
  predicate Sound(s: State, t: Tally, w: Who) {
    && Natural(t) && s.memory.refs > 0 && Alive(s, w)
    && (s.memory.refs == 1 && Last(s, w) ==> Loose(s, t) && (s.memory.abandoned || s.memory.detached))
    && (w == Boot && s.threads.boot.Sectioning? ==> s.conpty.state == Shut)
  }

  lemma SpawnKeeps(s: State, t: Tally)
    requires Sound(s, t, Boot) && Shape(s, t) && s.threads.boot == Spawning
    ensures Shape(Booted(s, Publishing), t) && Shape(Claimed(s, Posting(2, Bare)), t)
  {
  }

  lemma PublishKeeps(s: State, t: Tally)
    requires Sound(s, t, Boot) && Shape(s, t) && s.threads.boot == Publishing
    ensures Shape(Booted(s, CheckingClose).(platform := true), t)
  {
  }

  lemma CheckCloseKeeps(s: State, t: Tally)
    requires Sound(s, t, Boot) && Shape(s, t) && s.threads.boot == CheckingClose
    ensures Shape(Booted(s, if s.lifecycle == Closing then Stopping(Cancel, true) else RetainFor(Reader)), t)
  {
  }

  lemma RetainForKeeps(s: State, t: Tally, w: Who)
    requires Sound(s, t, Boot) && Shape(s, t) && s.threads.boot == RetainFor(w)
    ensures Shape(Booted(Retained(s), CreateFor(w)), t)
  {
  }

  lemma EmployKeepsFront(s: State, t: Tally, w: Who)
    requires Sound(s, t, Boot) && Shape(s, t) && s.threads.boot == CreateFor(w)
    ensures Front(Employed(s, w), t)
  {
  }

  lemma EmployKeepsBack(s: State, t: Tally, w: Who)
    requires Sound(s, t, Boot) && Shape(s, t) && s.threads.boot == CreateFor(w)
    ensures Back(Employed(s, w), t)
  {
  }

  lemma EmployKeeps(s: State, t: Tally, w: Who)
    requires Sound(s, t, Boot) && Shape(s, t) && s.threads.boot == CreateFor(w)
    ensures Shape(Employed(s, w), t)
  {
    EmployKeepsFront(s, t, w);
    EmployKeepsBack(s, t, w);
  }

  lemma CannotEmployKeeps(s: State, t: Tally, w: Who)
    requires Sound(s, t, Boot) && Shape(s, t) && s.threads.boot == CreateFor(w)
    ensures Shape(Booted(s, DropFor(w)), t)
  {
  }

  lemma DropForKeepsHeld(s: State, t: Tally, w: Who)
    requires Sound(s, t, Boot) && Shape(s, t) && s.threads.boot == DropFor(w)
    ensures Held(Booted(Dropped(s), AfterWorker(w)), t)
  {
  }

  lemma DropForKeepsLed(s: State, t: Tally, w: Who)
    requires Sound(s, t, Boot) && Shape(s, t) && s.threads.boot == DropFor(w)
    ensures Led(Booted(Dropped(s), AfterWorker(w)), t)
  {
  }

  lemma DropForKeepsBack(s: State, t: Tally, w: Who)
    requires Sound(s, t, Boot) && Shape(s, t) && s.threads.boot == DropFor(w)
    ensures Back(Booted(Dropped(s), AfterWorker(w)), t)
  {
  }

  lemma DropForKeeps(s: State, t: Tally, w: Who)
    requires Sound(s, t, Boot) && Shape(s, t) && s.threads.boot == DropFor(w)
    ensures Shape(Booted(Dropped(s), AfterWorker(w)), t)
  {
    DropForKeepsHeld(s, t, w);
    DropForKeepsLed(s, t, w);
    DropForKeepsBack(s, t, w);
  }

  lemma DecideKeepsFront(s: State, t: Tally)
    requires Sound(s, t, Boot) && Shape(s, t) && s.threads.boot == Deciding
    ensures Front(Booted(s, if Incomplete(s.threads) then Reserving(WorkerFailure) else GoingOn), t)
  {
  }

  lemma DecideKeepsBack(s: State, t: Tally)
    requires Sound(s, t, Boot) && Shape(s, t) && s.threads.boot == Deciding
    ensures Back(Booted(s, if Incomplete(s.threads) then Reserving(WorkerFailure) else GoingOn), t)
  {
  }

  lemma DecideKeeps(s: State, t: Tally)
    requires Sound(s, t, Boot) && Shape(s, t) && s.threads.boot == Deciding
    ensures Shape(Booted(s, if Incomplete(s.threads) then Reserving(WorkerFailure) else GoingOn), t)
  {
    DecideKeepsFront(s, t);
    DecideKeepsBack(s, t);
  }

  lemma GoOnKeepsHeld(s: State, t: Tally)
    requires Sound(s, t, Boot) && Shape(s, t) && s.threads.boot == GoingOn
    ensures s.lifecycle == Starting ==> Held(Booted(s, Resuming).(lifecycle := Running), t)
    ensures s.lifecycle != Starting ==> Held(Booted(s, Reserving(TooLate)), t)
  {
  }

  lemma GoOnKeepsLed(s: State, t: Tally)
    requires Sound(s, t, Boot) && Shape(s, t) && s.threads.boot == GoingOn
    ensures s.lifecycle == Starting ==> Led(Booted(s, Resuming).(lifecycle := Running), t)
    ensures s.lifecycle != Starting ==> Led(Booted(s, Reserving(TooLate)), t)
  {
  }

  lemma GoOnKeepsBack(s: State, t: Tally)
    requires Sound(s, t, Boot) && Shape(s, t) && s.threads.boot == GoingOn
    ensures s.lifecycle == Starting ==> Back(Booted(s, Resuming).(lifecycle := Running), t)
    ensures s.lifecycle != Starting ==> Back(Booted(s, Reserving(TooLate)), t)
  {
  }

  lemma GoOnKeeps(s: State, t: Tally)
    requires Sound(s, t, Boot) && Shape(s, t) && s.threads.boot == GoingOn
    ensures s.lifecycle == Starting ==> Shape(Booted(s, Resuming).(lifecycle := Running), t)
    ensures s.lifecycle != Starting ==> Shape(Booted(s, Reserving(TooLate)), t)
  {
    GoOnKeepsHeld(s, t);
    GoOnKeepsLed(s, t);
    GoOnKeepsBack(s, t);
  }

  lemma ResumeKeepsFront(s: State, t: Tally)
    requires Sound(s, t, Boot) && Shape(s, t) && s.threads.boot == Resuming
    ensures Front(Booted(s, Posting(1, Started)), t)
  {
  }

  lemma ResumeKeepsBack(s: State, t: Tally)
    requires Sound(s, t, Boot) && Shape(s, t) && s.threads.boot == Resuming
    ensures Back(Booted(s, Posting(1, Started)), t)
  {
  }

  lemma ResumeKeeps(s: State, t: Tally)
    requires Sound(s, t, Boot) && Shape(s, t) && s.threads.boot == Resuming
    ensures Shape(Booted(s, Posting(1, Started)), t)
  {
    ResumeKeepsFront(s, t);
    ResumeKeepsBack(s, t);
  }

  lemma CannotResumeKeepsFront(s: State, t: Tally)
    requires Sound(s, t, Boot) && Shape(s, t) && s.threads.boot == Resuming
    ensures Front(Booted(s, Reserving(WorkerFailure)), t)
  {
  }

  lemma CannotResumeKeepsBack(s: State, t: Tally)
    requires Sound(s, t, Boot) && Shape(s, t) && s.threads.boot == Resuming
    ensures Back(Booted(s, Reserving(WorkerFailure)), t)
  {
  }

  lemma CannotResumeKeeps(s: State, t: Tally)
    requires Sound(s, t, Boot) && Shape(s, t) && s.threads.boot == Resuming
    ensures Shape(Booted(s, Reserving(WorkerFailure)), t)
  {
    CannotResumeKeepsFront(s, t);
    CannotResumeKeepsBack(s, t);
  }

  lemma ReserveKeepsFront(s: State, t: Tally, why: Failure)
    requires Sound(s, t, Boot) && Shape(s, t) && s.threads.boot == Reserving(why)
    ensures Front(Booted(s, Stopping(why, !s.flags.closeStarted)).(flags := s.flags.(closeStarted := true)), t)
  {
  }

  lemma ReserveKeepsBack(s: State, t: Tally, why: Failure)
    requires Sound(s, t, Boot) && Shape(s, t) && s.threads.boot == Reserving(why)
    ensures Back(Booted(s, Stopping(why, !s.flags.closeStarted)).(flags := s.flags.(closeStarted := true)), t)
  {
  }

  lemma ReserveKeeps(s: State, t: Tally, why: Failure)
    requires Sound(s, t, Boot) && Shape(s, t) && s.threads.boot == Reserving(why)
    ensures Shape(Booted(s, Stopping(why, !s.flags.closeStarted)).(flags := s.flags.(closeStarted := true)), t)
  {
    ReserveKeepsFront(s, t, why);
    ReserveKeepsBack(s, t, why);
  }

  lemma StopKeepsFront(s: State, t: Tally, why: Failure, sync: bool)
    requires Sound(s, t, Boot) && Shape(s, t) && s.threads.boot == Stopping(why, sync)
    ensures Front(Booted(s, Joining(why, sync)).(flags := s.flags.(stopping := true)), t)
  {
  }

  lemma StopKeepsBack(s: State, t: Tally, why: Failure, sync: bool)
    requires Sound(s, t, Boot) && Shape(s, t) && s.threads.boot == Stopping(why, sync)
    ensures Back(Booted(s, Joining(why, sync)).(flags := s.flags.(stopping := true)), t)
  {
  }

  lemma StopKeeps(s: State, t: Tally, why: Failure, sync: bool)
    requires Sound(s, t, Boot) && Shape(s, t) && s.threads.boot == Stopping(why, sync)
    ensures Shape(Booted(s, Joining(why, sync)).(flags := s.flags.(stopping := true)), t)
  {
    StopKeepsFront(s, t, why, sync);
    StopKeepsBack(s, t, why, sync);
  }

  lemma JoinKeeps(s: State, t: Tally, why: Failure, sync: bool)
    requires Sound(s, t, Boot) && Shape(s, t) && s.threads.boot == Joining(why, sync)
    ensures Shape(Booted(s, Consoling(why, sync)), t)
  {
  }

  lemma ConsolingKeepsFront(s: State, t: Tally, why: Failure, sync: bool)
    requires Sound(s, t, Boot) && Shape(s, t) && s.threads.boot == Consoling(why, sync)
    ensures Front(Booted(s, Sectioning(why, sync)), Plus(t, Worth(Checking(Wait))))
  {
  }

  lemma ConsolingKeepsBack(s: State, t: Tally, why: Failure, sync: bool)
    requires Sound(s, t, Boot) && Shape(s, t) && s.threads.boot == Consoling(why, sync)
    ensures Back(Booted(s, Sectioning(why, sync)), Plus(t, Worth(Checking(Wait))))
  {
  }

  lemma ConsolingKeeps(s: State, t: Tally, why: Failure, sync: bool)
    requires Sound(s, t, Boot) && Shape(s, t) && s.threads.boot == Consoling(why, sync)
    ensures Shape(Booted(s, Sectioning(why, sync)), Plus(t, Worth(Checking(Wait))))
  {
    ConsolingKeepsFront(s, t, why, sync);
    ConsolingKeepsBack(s, t, why, sync);
  }

  lemma CancelKeepsFront(s: State, t: Tally, sync: bool)
    requires Sound(s, t, Boot) && Shape(s, t) && s.threads.boot == Sectioning(Cancel, sync)
    ensures Front(Cancels(s), t)
  {
  }

  lemma CancelKeepsBack(s: State, t: Tally, sync: bool)
    requires Sound(s, t, Boot) && Shape(s, t) && s.threads.boot == Sectioning(Cancel, sync)
    ensures Back(Cancels(s), t)
  {
  }

  lemma CancelKeeps(s: State, t: Tally, sync: bool)
    requires Sound(s, t, Boot) && Shape(s, t) && s.threads.boot == Sectioning(Cancel, sync)
    ensures Shape(Cancels(s), t)
  {
    CancelKeepsFront(s, t, sync);
    CancelKeepsBack(s, t, sync);
  }

  lemma GiveUpKeepsHeld(s: State, t: Tally, sync: bool)
    requires Sound(s, t, Boot) && Shape(s, t) && s.threads.boot == Sectioning(WorkerFailure, sync)
    ensures Held(GivesUp(s, sync), t)
  {
  }

  lemma GiveUpKeepsLed(s: State, t: Tally, sync: bool)
    requires Sound(s, t, Boot) && Shape(s, t) && s.threads.boot == Sectioning(WorkerFailure, sync)
    ensures Led(GivesUp(s, sync), t)
  {
  }

  lemma GiveUpKeepsBack(s: State, t: Tally, sync: bool)
    requires Sound(s, t, Boot) && Shape(s, t) && s.threads.boot == Sectioning(WorkerFailure, sync)
    ensures Back(GivesUp(s, sync), t)
  {
  }

  lemma GiveUpKeeps(s: State, t: Tally, sync: bool)
    requires Sound(s, t, Boot) && Shape(s, t) && s.threads.boot == Sectioning(WorkerFailure, sync)
    ensures Shape(GivesUp(s, sync), t)
  {
    GiveUpKeepsHeld(s, t, sync);
    GiveUpKeepsLed(s, t, sync);
    GiveUpKeepsBack(s, t, sync);
  }

  lemma TooLateKeepsHeld(s: State, t: Tally, sync: bool)
    requires Sound(s, t, Boot) && Shape(s, t) && s.threads.boot == Sectioning(TooLate, sync)
    ensures Held(ComesTooLate(s, sync), t)
  {
  }

  lemma TooLateKeepsLed(s: State, t: Tally, sync: bool)
    requires Sound(s, t, Boot) && Shape(s, t) && s.threads.boot == Sectioning(TooLate, sync)
    ensures Led(ComesTooLate(s, sync), t)
  {
  }

  lemma TooLateKeepsBack(s: State, t: Tally, sync: bool)
    requires Sound(s, t, Boot) && Shape(s, t) && s.threads.boot == Sectioning(TooLate, sync)
    ensures Back(ComesTooLate(s, sync), t)
  {
  }

  lemma TooLateKeeps(s: State, t: Tally, sync: bool)
    requires Sound(s, t, Boot) && Shape(s, t) && s.threads.boot == Sectioning(TooLate, sync)
    ensures Shape(ComesTooLate(s, sync), t)
  {
    TooLateKeepsHeld(s, t, sync);
    TooLateKeepsLed(s, t, sync);
    TooLateKeepsBack(s, t, sync);
  }

  lemma PostingKeeps(s: State, t: Tally, left: nat, finale: Finale)
    requires Sound(s, t, Boot) && Shape(s, t) && s.threads.boot == Posting(left, finale) && left > 1
    ensures Shape(Booted(s, Posting(left - 1, finale)), t)
  {
  }

  lemma LastPostKeepsHeld(s: State, t: Tally, left: nat, finale: Finale)
    requires Sound(s, t, Boot) && Shape(s, t) && s.threads.boot == Posting(left, finale)
    ensures Held(Booted(s, AfterPosts(finale)), t)
  {
    match finale
    case Bare =>
    case Cancelled =>
    case Looked =>
    case Started =>
  }

  lemma LastPostKeepsLed(s: State, t: Tally, left: nat, finale: Finale)
    requires Sound(s, t, Boot) && Shape(s, t) && s.threads.boot == Posting(left, finale)
    ensures Led(Booted(s, AfterPosts(finale)), t)
  {
    match finale
    case Bare =>
    case Cancelled =>
    case Looked =>
    case Started =>
  }

  lemma LastPostKeepsBack(s: State, t: Tally, left: nat, finale: Finale)
    requires Sound(s, t, Boot) && Shape(s, t) && s.threads.boot == Posting(left, finale)
    ensures Back(Booted(s, AfterPosts(finale)), t)
  {
    match finale
    case Bare =>
    case Cancelled =>
    case Looked =>
    case Started =>
  }

  lemma LastPostKeeps(s: State, t: Tally, left: nat, finale: Finale)
    requires Sound(s, t, Boot) && Shape(s, t) && s.threads.boot == Posting(left, finale)
    ensures Shape(Booted(s, AfterPosts(finale)), t)
  {
    LastPostKeepsHeld(s, t, left, finale);
    LastPostKeepsLed(s, t, left, finale);
    LastPostKeepsBack(s, t, left, finale);
  }

  lemma StoreClosingKeepsFront(s: State, t: Tally, finale: Finale)
    requires Sound(s, t, Boot) && Shape(s, t) && s.threads.boot == StoringClosing(finale)
    ensures Front(Booted(s, if finale == Bare then StoringClosed else Posting(3, Looked)).(lifecycle := Closing), t)
  {
  }

  lemma StoreClosingKeepsBack(s: State, t: Tally, finale: Finale)
    requires Sound(s, t, Boot) && Shape(s, t) && s.threads.boot == StoringClosing(finale)
    ensures Back(Booted(s, if finale == Bare then StoringClosed else Posting(3, Looked)).(lifecycle := Closing), t)
  {
  }

  lemma StoreClosingKeeps(s: State, t: Tally, finale: Finale)
    requires Sound(s, t, Boot) && Shape(s, t) && s.threads.boot == StoringClosing(finale)
    ensures Shape(Booted(s, if finale == Bare then StoringClosed else Posting(3, Looked)).(lifecycle := Closing), t)
  {
    StoreClosingKeepsFront(s, t, finale);
    StoreClosingKeepsBack(s, t, finale);
  }

  lemma StoreClosedKeeps(s: State, t: Tally)
    requires Sound(s, t, Boot) && Shape(s, t) && s.threads.boot == StoringClosed
    ensures Shape(Booted(s, Attempting).(lifecycle := Closed), t)
  {
  }

  lemma AttemptKeeps(s: State, t: Tally)
    requires Sound(s, t, Boot) && Shape(s, t) && s.threads.boot == Attempting
    ensures Shape(Booted(s, BootLeaving).(history := s.history.(attempts := s.history.attempts + 1)), t)
  {
  }

  lemma LookUpKeepsHeld(s: State, t: Tally)
    requires Sound(s, t, Boot) && Shape(s, t) && s.threads.boot == LookingUp
    ensures Held(Booted(s, BootLeaving), Plus(t, Worth(Looking)))
  {
  }

  lemma LookUpKeepsLed(s: State, t: Tally)
    requires Sound(s, t, Boot) && Shape(s, t) && s.threads.boot == LookingUp
    ensures Led(Booted(s, BootLeaving), Plus(t, Worth(Looking)))
  {
  }

  lemma LookUpKeepsBack(s: State, t: Tally)
    requires Sound(s, t, Boot) && Shape(s, t) && s.threads.boot == LookingUp
    ensures Back(Booted(s, BootLeaving), Plus(t, Worth(Looking)))
  {
  }

  lemma LookUpKeeps(s: State, t: Tally)
    requires Sound(s, t, Boot) && Shape(s, t) && s.threads.boot == LookingUp
    ensures Shape(Booted(s, BootLeaving), Plus(t, Worth(Looking)))
  {
    LookUpKeepsHeld(s, t);
    LookUpKeepsLed(s, t);
    LookUpKeepsBack(s, t);
  }

  lemma BootLeaveKeepsHeld(s: State, t: Tally)
    requires Sound(s, t, Boot) && Shape(s, t) && s.threads.boot == BootLeaving
    ensures Held(Booted(Dropped(s), BootGone), t)
  {
  }

  lemma BootLeaveKeepsLed(s: State, t: Tally)
    requires Sound(s, t, Boot) && Shape(s, t) && s.threads.boot == BootLeaving
    ensures Led(Booted(Dropped(s), BootGone), t)
  {
  }

  lemma BootLeaveKeepsBack(s: State, t: Tally)
    requires Sound(s, t, Boot) && Shape(s, t) && s.threads.boot == BootLeaving
    ensures Back(Booted(Dropped(s), BootGone), t)
  {
  }

  lemma BootLeaveKeeps(s: State, t: Tally)
    requires Sound(s, t, Boot) && Shape(s, t) && s.threads.boot == BootLeaving
    ensures Shape(Booted(Dropped(s), BootGone), t)
  {
    BootLeaveKeepsHeld(s, t);
    BootLeaveKeepsLed(s, t);
    BootLeaveKeepsBack(s, t);
  }

  lemma EarlyShape(s: State, t: Tally, how: Outcome)
    requires Sound(s, t, Boot) && Shape(s, t) && Stage(s.threads.boot) <= 2
    ensures Shape(BootNext(s, how), t)
  {
    match s.threads.boot
    case Spawning => SpawnKeeps(s, t);
    case Publishing => PublishKeeps(s, t);
    case CheckingClose => CheckCloseKeeps(s, t);
    case RetainFor(w) => RetainForKeeps(s, t, w);
    case CreateFor(w) => if how == Good { EmployKeeps(s, t, w); } else { CannotEmployKeeps(s, t, w); }
    case DropFor(w) => DropForKeeps(s, t, w);
  }

  lemma MiddleShape(s: State, t: Tally, how: Outcome)
    requires Sound(s, t, Boot) && Shape(s, t) && Stage(s.threads.boot) == 3 && !Fails(s.threads.boot)
    ensures Shape(BootNext(s, how), t)
  {
    match s.threads.boot
    case DropFor(w) => DropForKeeps(s, t, w);
    case Deciding => DecideKeeps(s, t);
    case GoingOn => GoOnKeeps(s, t);
    case Resuming => if how == Good { ResumeKeeps(s, t); } else { CannotResumeKeeps(s, t); }
  }

  predicate Fails(pc: BootPc) {
    pc.Reserving? || pc.Stopping? || pc.Joining? || pc.Consoling? || pc.Sectioning?
  }

  lemma FailingShape(s: State, t: Tally, how: Outcome)
    requires Sound(s, t, Boot) && Shape(s, t) && Fails(s.threads.boot) && !s.threads.boot.Consoling?
    ensures Shape(BootNext(s, how), t)
  {
    match s.threads.boot
    case Reserving(why) => ReserveKeeps(s, t, why);
    case Stopping(why, sync) => StopKeeps(s, t, why, sync);
    case Joining(why, sync) => JoinKeeps(s, t, why, sync);
    case Sectioning(why, sync) => SectionKeeps(s, t, why, sync, how);
  }

  lemma LateShape(s: State, t: Tally, how: Outcome)
    requires Sound(s, t, Boot) && Shape(s, t) && Stage(s.threads.boot) == 4 && s.threads.boot != LookingUp
    ensures Shape(BootNext(s, how), t)
  {
    match s.threads.boot
    case Posting(left, finale) => if left > 1 { PostingKeeps(s, t, left, finale); } else { LastPostKeeps(s, t, left, finale); }
    case StoringClosing(finale) => StoreClosingKeeps(s, t, finale);
    case StoringClosed => StoreClosedKeeps(s, t);
    case Attempting => AttemptKeeps(s, t);
    case BootLeaving => BootLeaveKeeps(s, t);
  }

  lemma QuietBootShape(s: State, t: Tally, how: Outcome)
    requires Sound(s, t, Boot) && Shape(s, t) && !s.threads.boot.Consoling? && s.threads.boot != LookingUp
    ensures Shape(BootNext(s, how), t)
  {
    if Fails(s.threads.boot) {
      FailingShape(s, t, how);
    } else if Stage(s.threads.boot) <= 2 {
      EarlyShape(s, t, how);
    } else if Stage(s.threads.boot) == 3 {
      MiddleShape(s, t, how);
    } else {
      LateShape(s, t, how);
    }
  }

  lemma BootShape(s: State, t: Tally, how: Outcome)
    requires Sound(s, t, Boot) && Shape(s, t)
    ensures Shape(BootNext(s, how), Plus(t, Worth(BodySub(s, Boot, how))))
  {
    if s.threads.boot.Consoling? {
      ConsolingKeeps(s, t, s.threads.boot.why, s.threads.boot.sync);
    } else if s.threads.boot == LookingUp {
      LookUpKeeps(s, t);
    } else {
      PlusNothing(t);
      QuietBootShape(s, t, how);
    }
  }

  lemma SectionKeeps(s: State, t: Tally, why: Failure, sync: bool, how: Outcome)
    requires Sound(s, t, Boot) && Shape(s, t) && s.threads.boot == Sectioning(why, sync)
    ensures Shape(BootNext(s, how), t)
  {
    match why
    case Cancel => CancelKeeps(s, t, sync);
    case WorkerFailure => GiveUpKeeps(s, t, sync);
    case TooLate => TooLateKeeps(s, t, sync);
  }

  // Reader, writer and waiter, whichever w is.

  lemma MovedKeepsFront(s: State, t: Tally, w: Who, pc: WorkerPc)
    requires Sound(s, t, w) && Shape(s, t) && IsWorker(w)
    requires PcOf(s.threads, w) == Serving || PcOf(s.threads, w) == Owning
    requires pc == Serving || pc == Flagging || (pc == Owning && w == Waiter)
    ensures Front(Moved(s, w, pc), t)
  {
  }

  lemma MovedKeepsBack(s: State, t: Tally, w: Who, pc: WorkerPc)
    requires Sound(s, t, w) && Shape(s, t) && IsWorker(w)
    requires PcOf(s.threads, w) == Serving || PcOf(s.threads, w) == Owning
    requires pc == Serving || pc == Flagging || (pc == Owning && w == Waiter)
    ensures Back(Moved(s, w, pc), t)
  {
  }

  lemma MovedKeeps(s: State, t: Tally, w: Who, pc: WorkerPc)
    requires Sound(s, t, w) && Shape(s, t) && IsWorker(w)
    requires PcOf(s.threads, w) == Serving || PcOf(s.threads, w) == Owning
    requires pc == Serving || pc == Flagging || (pc == Owning && w == Waiter)
    ensures Shape(Moved(s, w, pc), t)
  {
    MovedKeepsFront(s, t, w, pc);
    MovedKeepsBack(s, t, w, pc);
  }

  lemma FlaggedKeepsHeld(s: State, t: Tally, w: Who)
    requires Sound(s, t, w) && Shape(s, t) && IsWorker(w) && PcOf(s.threads, w) == Flagging
    ensures Held(Flagged(s, w), Plus(t, Worth(Looking)))
  {
  }

  lemma FlaggedKeepsLed(s: State, t: Tally, w: Who)
    requires Sound(s, t, w) && Shape(s, t) && IsWorker(w) && PcOf(s.threads, w) == Flagging
    ensures Led(Flagged(s, w), Plus(t, Worth(Looking)))
  {
  }

  lemma FlaggedKeepsBack(s: State, t: Tally, w: Who)
    requires Sound(s, t, w) && Shape(s, t) && IsWorker(w) && PcOf(s.threads, w) == Flagging
    ensures Back(Flagged(s, w), Plus(t, Worth(Looking)))
  {
  }

  lemma FlaggedKeeps(s: State, t: Tally, w: Who)
    requires Sound(s, t, w) && Shape(s, t) && IsWorker(w) && PcOf(s.threads, w) == Flagging
    ensures Shape(Flagged(s, w), Plus(t, Worth(Looking)))
  {
    FlaggedKeepsHeld(s, t, w);
    FlaggedKeepsLed(s, t, w);
    FlaggedKeepsBack(s, t, w);
  }

  lemma LeftKeepsFront(s: State, t: Tally, w: Who)
    requires Sound(s, t, w) && Shape(s, t) && IsWorker(w) && PcOf(s.threads, w) == Leaving
    ensures Front(Left(s, w), t)
  {
  }

  lemma LeftKeepsBack(s: State, t: Tally, w: Who)
    requires Sound(s, t, w) && Shape(s, t) && IsWorker(w) && PcOf(s.threads, w) == Leaving
    ensures Back(Left(s, w), t)
  {
  }

  lemma LeftKeeps(s: State, t: Tally, w: Who)
    requires Sound(s, t, w) && Shape(s, t) && IsWorker(w) && PcOf(s.threads, w) == Leaving
    ensures Shape(Left(s, w), t)
  {
    LeftKeepsFront(s, t, w);
    LeftKeepsBack(s, t, w);
  }

  lemma GivesKeepsFront(s: State, t: Tally)
    requires Sound(s, t, Waiter) && Shape(s, t) && s.threads.waiter == Owning && s.conpty.state == Owned
    ensures Front(Gives(s), t)
  {
  }

  lemma GivesKeepsBack(s: State, t: Tally)
    requires Sound(s, t, Waiter) && Shape(s, t) && s.threads.waiter == Owning && s.conpty.state == Owned
    ensures Back(Gives(s), t)
  {
  }

  lemma GivesKeeps(s: State, t: Tally)
    requires Sound(s, t, Waiter) && Shape(s, t) && s.threads.waiter == Owning && s.conpty.state == Owned
    ensures Shape(Gives(s), t)
  {
    GivesKeepsFront(s, t);
    GivesKeepsBack(s, t);
  }

  lemma GaveKeepsFront(s: State, t: Tally, how: Outcome)
    requires Sound(s, t, Waiter) && Shape(s, t) && s.threads.waiter == Giving
    ensures Front(Gave(s, how), t)
  {
  }

  lemma GaveKeepsBack(s: State, t: Tally, how: Outcome)
    requires Sound(s, t, Waiter) && Shape(s, t) && s.threads.waiter == Giving
    ensures Back(Gave(s, how), t)
  {
  }

  lemma GaveKeeps(s: State, t: Tally, how: Outcome)
    requires Sound(s, t, Waiter) && Shape(s, t) && s.threads.waiter == Giving
    ensures Shape(Gave(s, how), t)
  {
    GaveKeepsFront(s, t, how);
    GaveKeepsBack(s, t, how);
  }

  /** A thread that knows the platform may start to close the console. */
  lemma ChecksKeeps(s: State, t: Tally)
    requires Shape(s, t) && s.platform
    ensures Shape(s, Plus(t, Worth(Checking(Return))))
  {
  }

  lemma WorkerHasPlatform(s: State, t: Tally, w: Who)
    requires IsWorker(w) && Alive(s, w) && Startup(s, t)
    ensures s.platform
  {
  }

  lemma WorkerGoesOn(s: State, t: Tally, w: Who, how: Outcome)
    requires IsWorker(w) && Sound(s, t, w) && Shape(s, t) && PcOf(s.threads, w) != Flagging
    ensures Shape(WorkerNext(s, w, how), t)
  {
    match PcOf(s.threads, w)
    case Serving => MovedKeeps(s, t, w, if how != Skipped then Serving else if w == Waiter then Owning else Flagging);
    case Owning => if s.conpty.state == Owned && how == Good { GivesKeeps(s, t); } else { MovedKeeps(s, t, w, Flagging); }
    case Giving => GaveKeeps(s, t, how);
    case Leaving => LeftKeeps(s, t, w);
  }

  lemma WorkerShape(s: State, t: Tally, w: Who, how: Outcome)
    requires IsWorker(w) && Sound(s, t, w) && Shape(s, t)
    ensures Shape(WorkerNext(s, w, how), Plus(t, Worth(BodySub(s, w, how))))
  {
    PlusNothing(t);
    if PcOf(s.threads, w) == Flagging {
      FlaggedKeeps(s, t, w);
    } else {
      WorkerGoesOn(s, t, w, how);
      WorkerHasPlatform(s, t, w);
      ChecksKeeps(WorkerNext(s, w, how), t);
    }
  }

  lemma CloserStopKeeps(s: State, t: Tally)
    requires Sound(s, t, Closer) && Shape(s, t) && s.threads.closer == CloserStopping
    ensures Shape(CloserNext(s), t)
  {
  }

  lemma CloserConsoleKeepsFront(s: State, t: Tally)
    requires Sound(s, t, Closer) && Shape(s, t) && s.threads.closer == CloserConsoling
    ensures Front(CloserNext(s), Plus(t, Worth(Checking(Wait))))
  {
  }

  lemma CloserConsoleKeepsBack(s: State, t: Tally)
    requires Sound(s, t, Closer) && Shape(s, t) && s.threads.closer == CloserConsoling
    ensures Back(CloserNext(s), Plus(t, Worth(Checking(Wait))))
  {
  }

  lemma CloserConsoleKeeps(s: State, t: Tally)
    requires Sound(s, t, Closer) && Shape(s, t) && s.threads.closer == CloserConsoling
    ensures Shape(CloserNext(s), Plus(t, Worth(Checking(Wait))))
  {
    CloserConsoleKeepsFront(s, t);
    CloserConsoleKeepsBack(s, t);
  }

  lemma CloserFlagKeepsFront(s: State, t: Tally)
    requires Sound(s, t, Closer) && Shape(s, t) && s.threads.closer == CloserFlagging
    requires s.conpty.state == Shut
    ensures Front(CloserNext(s), Plus(t, Worth(Looking)))
  {
  }

  lemma CloserFlagKeepsBack(s: State, t: Tally)
    requires Sound(s, t, Closer) && Shape(s, t) && s.threads.closer == CloserFlagging
    requires s.conpty.state == Shut
    ensures Back(CloserNext(s), Plus(t, Worth(Looking)))
  {
  }

  lemma CloserFlagKeeps(s: State, t: Tally)
    requires Sound(s, t, Closer) && Shape(s, t) && s.threads.closer == CloserFlagging
    requires s.conpty.state == Shut
    ensures Shape(CloserNext(s), Plus(t, Worth(Looking)))
  {
    CloserFlagKeepsFront(s, t);
    CloserFlagKeepsBack(s, t);
  }

  lemma CloserLeaveKeeps(s: State, t: Tally)
    requires Sound(s, t, Closer) && Shape(s, t) && s.threads.closer == CloserLeaving
    ensures Shape(CloserNext(s), t)
  {
  }

  lemma CloserShape(s: State, t: Tally)
    requires Sound(s, t, Closer) && Shape(s, t)
    requires s.threads.closer == CloserFlagging ==> s.conpty.state == Shut
    ensures Shape(CloserNext(s), Plus(t, Worth(BodySub(s, Closer, Good))))
  {
    PlusNothing(t);
    match s.threads.closer
    case CloserStopping => CloserStopKeeps(s, t);
    case CloserConsoling => CloserConsoleKeeps(s, t);
    case CloserFlagging => CloserFlagKeeps(s, t);
    case CloserLeaving => CloserLeaveKeeps(s, t);
  }

  lemma WorkerCallKeeps(s: State, t: Tally)
    requires Sound(s, t, Console) && Shape(s, t) && s.threads.console == WorkerCalling
    ensures Shape(ConsoleNext(s), t)
  {
  }

  lemma WorkerMarkKeeps(s: State, t: Tally)
    requires Sound(s, t, Console) && Shape(s, t) && s.threads.console == WorkerMarking
    requires s.flags.closeDone && !s.memory.abandoned ==> t.looks > 0
    ensures Shape(ConsoleNext(s), t)
  {
  }

  lemma WorkerLeaveKeeps(s: State, t: Tally)
    requires Sound(s, t, Console) && Shape(s, t) && s.threads.console == WorkerLeaving
    ensures Shape(ConsoleNext(s), t)
  {
  }

  lemma ConsoleShape(s: State, t: Tally)
    requires Sound(s, t, Console) && Shape(s, t)
    requires s.threads.console == WorkerMarking && s.flags.closeDone && !s.memory.abandoned ==> t.looks > 0
    ensures Shape(ConsoleNext(s), Plus(t, Worth(BodySub(s, Console, Good))))
  {
    PlusNothing(t);
    match s.threads.console
    case WorkerCalling => WorkerCallKeeps(s, t);
    case WorkerMarking => WorkerMarkKeeps(s, t);
    case WorkerLeaving => WorkerLeaveKeeps(s, t);
  }

  // ------------------------------------------------------- sums

  lemma WorthIsNatural(sub: Sub)
    ensures Natural(Worth(sub))
  {
  }

  lemma PlusNatural(a: Tally, b: Tally)
    requires Natural(a) && Natural(b)
    ensures Natural(Plus(a, b))
  {
  }

  lemma {:induction false} SumIsNatural(threads: seq<Who>, subs: map<Who, Sub>)
    requires Total(subs)
    ensures Natural(SumOver(threads, subs))
  {
    if threads != [] {
      WorthIsNatural(subs[threads[0]]);
      SumIsNatural(threads[1..], subs);
      PlusNatural(Worth(subs[threads[0]]), SumOver(threads[1..], subs));
    }
  }

  lemma AllIsNatural(subs: map<Who, Sub>)
    requires Total(subs)
    ensures Natural(All(subs))
  {
    SumIsNatural(Everybody(), subs);
  }

  lemma {:induction false} SumElsewhere(threads: seq<Who>, subs: map<Who, Sub>, w: Who, sub: Sub)
    requires Total(subs) && w !in threads
    ensures Total(subs[w := sub]) && SumOver(threads, subs[w := sub]) == SumOver(threads, subs)
  {
    if threads != [] {
      SumElsewhere(threads[1..], subs, w, sub);
    }
  }

  lemma PlusReplaced(head: Tally, rest: Tally, was: Tally, x: Tally)
    ensures Plus(x, rest) == Plus(Minus(Plus(head, rest), head), x)
    ensures Plus(head, Plus(Minus(rest, was), x)) == Plus(Minus(Plus(head, rest), was), x)
  {
  }

  lemma {:induction false} SumReplaced(threads: seq<Who>, subs: map<Who, Sub>, w: Who, sub: Sub)
    requires Total(subs) && w in threads
    requires forall i, j | 0 <= i < j < |threads| :: threads[i] != threads[j]
    ensures Total(subs[w := sub])
    ensures SumOver(threads, subs[w := sub]) == Plus(Minus(SumOver(threads, subs), Worth(subs[w])), Worth(sub))
  {
    var head, rest := Worth(subs[threads[0]]), SumOver(threads[1..], subs);
    if threads[0] == w {
      SumElsewhere(threads[1..], subs, w, sub);
    } else {
      SumReplaced(threads[1..], subs, w, sub);
    }
    PlusReplaced(head, rest, Worth(subs[w]), Worth(sub));
  }

  lemma Everywhere(w: Who)
    ensures w in Everybody() && forall i, j | 0 <= i < j < |Everybody()| :: Everybody()[i] != Everybody()[j]
  {
    assert Everybody()[Index(w)] == w;
    assert forall i | 0 <= i < |Everybody()| :: Index(Everybody()[i]) == i;
  }

  function Index(w: Who): nat {
    match w
    case Boot => 0
    case Reader => 1
    case Writer => 2
    case Waiter => 3
    case Closer => 4
    case Console => 5
    case Isolate => 6
    case Abandoner => 7
  }

  /** One thread's routine changes, and the total by just that. */
  lemma Replaced(subs: map<Who, Sub>, w: Who, sub: Sub)
    requires Total(subs)
    ensures Total(subs[w := sub]) && All(subs[w := sub]) == Plus(Minus(All(subs), Worth(subs[w])), Worth(sub))
  {
    Everywhere(w);
    SumReplaced(Everybody(), subs, w, sub);
  }

  lemma PlusNothing(t: Tally)
    ensures Plus(t, Nothing()) == t && Plus(Minus(t, Nothing()), Nothing()) == t
  {
  }

  lemma OthersRemain(subs: map<Who, Sub>, w: Who)
    requires Total(subs)
    ensures Natural(Minus(All(subs), Worth(subs[w])))
  {
    Replaced(subs, w, Idle);
    AllIsNatural(subs[w := Idle]);
    PlusNothing(Minus(All(subs), Worth(subs[w])));
  }

  lemma {:induction false} SumOfNothing(threads: seq<Who>, subs: map<Who, Sub>)
    requires Total(subs) && forall w: Who :: Worth(subs[w]) == Nothing()
    ensures SumOver(threads, subs) == Nothing()
  {
    if threads != [] {
      SumOfNothing(threads[1..], subs);
    }
  }

  lemma NothingToDo(subs: map<Who, Sub>)
    requires Total(subs) && forall w: Who :: Worth(subs[w]) == Nothing()
    ensures All(subs) == Nothing()
  {
    SumOfNothing(Everybody(), subs);
  }

  /** The isolate that waits for the close will look. */
  lemma IsolateLooks(subs: map<Who, Sub>)
    requires Total(subs) && ClosesConsole(subs[Isolate], WaitAndLook)
    ensures All(subs).looks > 0
  {
    OthersRemain(subs, Isolate);
  }

  // ------------------------------------------------------- whole steps

  /** The abandonment starts where there was no routine to speak of. */
  lemma AbandonTally(s: State, how: Outcome)
    requires Total(s.subs) && (how == Bad && !s.memory.abandoned ==> s.subs[Abandoner] == Idle)
    ensures Total(PostDone(s, how).subs) && All(PostDone(s, how).subs) == All(s.subs)
  {
    if how == Bad && !s.memory.abandoned {
      Replaced(s.subs, Abandoner, BeginClose(false));
      PlusNothing(All(s.subs));
    }
  }

  lemma PostShape(s: State, t: Tally, how: Outcome)
    requires Total(s.subs) && Shape(s, t)
    ensures Shape(PostDone(s, how), t)
  {
  }

  lemma ShapeIgnoresSubs(s: State, t: Tally, subs: map<Who, Sub>)
    requires Shape(s, t)
    ensures Shape(s.(subs := subs), t)
  {
  }

  lemma EndedWorth(w: Who, sub: Sub, next: Sub)
    ensures Worth(Ended(w, sub, next)) == Worth(next)
  {
  }

  /** Whoever is alive or in a routine is counted. */
  lemma SomeoneIsCounted(s: State, t: Tally, w: Who)
    requires Placed(s) && Abandons(s) && Counted(s, t) && Natural(t)
    requires s.subs[w] != Idle || Alive(s, w)
    ensures s.memory.refs > 0 && s.memory.frees == 0
  {
    match w
    case Boot =>
    case Reader =>
    case Writer =>
    case Waiter =>
    case Closer =>
    case Console =>
    case Isolate =>
    case Abandoner =>
  }

  /** Under the owner's reference alone, nobody is alive; without it, one
      thread at most is. */
  lemma NobodyAlive(s: State, t: Tally)
    requires Counted(s, t) && Natural(t) && s.memory.owner && s.memory.refs == 1
    ensures forall w: Who :: !Alive(s, w)
  {
  }

  lemma NobodyElseAlive(s: State, t: Tally, w: Who)
    requires Counted(s, t) && Natural(t) && s.memory.refs == 1 && Alive(s, w)
    ensures !s.memory.owner && forall v: Who :: v != w ==> !Alive(s, v)
  {
    match w
    case Boot =>
    case Reader =>
    case Writer =>
    case Waiter =>
    case Closer =>
    case Console =>
  }

  lemma NothingAtDrop(s: State, t: Tally)
    requires Placed(s) && Counted(s, t) && Natural(t) && s.memory.owner && s.memory.refs == 1
    requires s.subs[Abandoner] == DropOwner && s.subs[Isolate] == Idle
    ensures forall w: Who :: Worth(s.subs[w]) == Nothing()
    ensures !Alive(s, Waiter) && !Alive(s, Console)
  {
    NobodyAlive(s, t);
    forall w: Who ensures Worth(s.subs[w]) == Nothing() {
      assert s.subs[w] == Idle || w == Abandoner || w == Isolate || Alive(s, w);
    }
  }

  lemma NothingAtEnd(s: State, t: Tally, w: Who)
    requires Placed(s) && Abandons(s) && Counted(s, t) && Natural(t) && s.memory.refs == 1
    requires s.subs[w] == Idle && Alive(s, w)
    ensures forall v: Who :: Worth(s.subs[v]) == Nothing()
    ensures w != Waiter ==> !Alive(s, Waiter)
    ensures w != Console ==> !Alive(s, Console)
    ensures s.memory.abandoned || s.memory.detached
  {
    NobodyElseAlive(s, t, w);
    forall v: Who ensures Worth(s.subs[v]) == Nothing() {
      assert s.subs[v] == Idle || v == Abandoner || v == Isolate || Alive(s, v);
    }
  }

  /** A routine's own reference comes on top of the caller's. */
  lemma TwoAreCounted(s: State, t: Tally, w: Who)
    requires Placed(s) && Abandons(s) && Counted(s, t) && Natural(t) && s.subs[w] != Idle
    requires t.refs > 0
    ensures s.memory.refs > 1
  {
    match w
    case Boot =>
    case Reader =>
    case Writer =>
    case Waiter =>
    case Closer =>
    case Console =>
    case Isolate =>
    case Abandoner =>
  }

  lemma OwnRef(sub: Sub)
    requires Drops(sub) && sub != DropOwner
    ensures Worth(sub).refs > 0
  {
  }

  lemma SecureIn(s: State, t: Tally, w: Who, how: Outcome)
    requires RoutineEnabled(s, w, how) && Placed(s) && Abandons(s) && Counted(s, t)
    requires Natural(t) && Natural(Minus(t, Worth(s.subs[w])))
    requires s.subs[w] == DropOwner && s.memory.refs == 1 ==> Loose(s, t)
    ensures Secure(s, t, s.subs[w])
  {
    SomeoneIsCounted(s, t, w);
    assert Fits(w, s.subs[w]);
    if Drops(s.subs[w]) && s.subs[w] != DropOwner {
      OwnRef(s.subs[w]);
      TwoAreCounted(s, t, w);
    }
  }

  lemma LooseIfNothing(s: State)
    requires Total(s.subs) && (forall w: Who :: Worth(s.subs[w]) == Nothing()) && !Alive(s, Waiter) && !Alive(s, Console)
    ensures Loose(s, All(s.subs))
  {
    NothingToDo(s.subs);
  }

  lemma DropIsLoose(s: State, w: Who)
    requires Placed(s) && Abandons(s) && Counted(s, All(s.subs)) && s.memory.refs == 1
    requires s.subs[w] == DropOwner && s.subs[Isolate] == Idle
    ensures Loose(s, All(s.subs))
  {
    var t := All(s.subs);
    AllIsNatural(s.subs);
    OnlyAbandonerDrops(s, w);
    NothingAtDrop(s, t);
    LooseIfNothing(s);
  }

  lemma RoutineSecure(s: State, w: Who, how: Outcome)
    requires RoutineEnabled(s, w, how) && Placed(s) && Abandons(s) && Counted(s, All(s.subs))
    ensures Secure(s, All(s.subs), s.subs[w])
  {
    AllIsNatural(s.subs);
    OthersRemain(s.subs, w);
    if s.subs[w] == DropOwner && s.memory.refs == 1 {
      DropIsLoose(s, w);
    }
    SecureIn(s, All(s.subs), w, how);
  }

  lemma OnlyAbandonerDrops(s: State, w: Who)
    requires Placed(s) && Abandons(s) && s.subs[w] == DropOwner
    ensures w == Abandoner && s.memory.owner && s.memory.abandoned
  {
    assert Fits(w, s.subs[w]);
  }

  lemma RoutineTally(s: State, w: Who, how: Outcome)
    requires RoutineEnabled(s, w, how)
    ensures var subs := s.subs[w := Ended(w, s.subs[w], NextSub(s, s.subs[w], how))];
            Total(subs) && All(subs) == After1(All(s.subs), s, s.subs[w], how)
  {
    var sub := s.subs[w];
    Replaced(s.subs, w, Ended(w, sub, NextSub(s, sub, how)));
    EndedWorth(w, sub, NextSub(s, sub, how));
  }

  /** A close that is marked while the close request is done is looked for. */
  lemma MarkIsLookedFor(s: State, t: Tally, w: Who)
    requires Placed(s) && Waits(s) && Shuts(s, t) && s.subs[w].Marking?
    requires Natural(t) && Natural(Minus(t, Worth(s.subs[w])))
    requires ClosesConsole(s.subs[Isolate], WaitAndLook) ==> t.looks > 0
    requires s.flags.closeDone && !s.memory.abandoned
    ensures t.looks > Worth(s.subs[w]).looks || s.subs[w].next == WaitAndLook
  {
    assert Fits(w, s.subs[w]);
  }

  // ------------------------------------------- where the routines belong

  lemma BeginsNext(s: State, sub: Sub, blocking: bool, how: Outcome)
    requires Begins(sub, blocking)
    ensures var n := NextSub(s, sub, how); n == Idle || Begins(n, blocking) || (blocking && n == Checking(WaitAndLook))
  {
    match sub
    case BeginClose(b) =>
    case LoadPlatform(b) =>
    case CloseCheck(b) =>
    case Retain1(b) =>
    case Retain2(b) =>
    case CreateCloser(b) =>
    case Published =>
    case FailDrop2(b) =>
    case FailDrop1(b) =>
    case FailSection(b) =>
  }

  lemma ClosesNext(s: State, sub: Sub, next: Then, how: Outcome)
    requires ClosesConsole(sub, next)
    ensures var n := NextSub(s, sub, how); n == Idle || ClosesConsole(n, next) || (next == WaitAndLook && n == Looking)
  {
    match sub
    case Checking(n) =>
    case Retaining(n) =>
    case Creating(n) =>
    case Dropping(n) =>
    case Calling(n) =>
    case Marking(n) =>
    case Waiting(n) =>
  }

  lemma LooksNext(s: State, sub: Sub, how: Outcome)
    requires Looks(sub)
    ensures NextSub(s, sub, how) == Idle || Looks(NextSub(s, sub, how))
  {
    match sub
    case Looking =>
    case Storing =>
    case Announcing =>
  }

  lemma FitsNext(s: State, w: Who, sub: Sub, how: Outcome)
    requires Fits(w, sub) && sub != Idle
    ensures Fits(w, Ended(w, sub, NextSub(s, sub, how)))
  {
    if Looks(sub) {
      LooksNext(s, sub, how);
    } else if sub == DropOwner {
      assert NextSub(s, sub, how) == Idle;
    } else if Begins(sub, true) && w == Isolate {
      BeginsNext(s, sub, true, how);
    } else if Begins(sub, false) && w == Abandoner {
      BeginsNext(s, sub, false, how);
    } else {
      ClosesNext(s, sub, if w == Isolate then WaitAndLook else if w == Waiter then Return else Wait, how);
    }
  }

  /** No routine ends a thread, and only the abandoner touches the owner. */
  lemma EffectKeepsAlive(s: State, sub: Sub, how: Outcome)
    ensures forall w: Who :: Alive(s, w) ==> Alive(Effect(s, sub, how), w)
    ensures sub != DropOwner ==> Effect(s, sub, how).memory.owner == s.memory.owner
    ensures sub == DropOwner ==> !Effect(s, sub, how).memory.owner
    ensures Effect(s, sub, how).memory.abandoned == s.memory.abandoned
    ensures Effect(s, sub, how).memory.detached == s.memory.detached
  {
    match sub
    case Idle =>
    case BeginClose(b) =>
    case LoadPlatform(b) =>
    case CloseCheck(b) =>
    case Retain1(b) =>
    case Retain2(b) =>
    case CreateCloser(b) =>
    case Published =>
    case FailDrop2(b) =>
    case FailDrop1(b) =>
    case FailSection(b) =>
    case DropOwner =>
    case Checking(next) =>
    case Retaining(next) =>
    case Creating(next) =>
    case Dropping(next) =>
    case Calling(next) =>
    case Marking(next) =>
    case Waiting(next) =>
    case Looking =>
    case Storing =>
    case Announcing =>
  }

  /** The state once a routine went on, before its post may have failed. */
  function Went(s: State, w: Who, how: Outcome): State
    requires Total(s.subs)
  {
    var sub := s.subs[w];
    Effect(s, sub, how).(subs := s.subs[w := Ended(w, sub, NextSub(s, sub, how))])
  }

  lemma WentPlaced(s: State, w: Who, how: Outcome)
    requires RoutineEnabled(s, w, how) && Placed(s) && Abandons(s)
    ensures Placed(Went(s, w, how))
  {
    FitsNext(s, w, s.subs[w], how);
    EffectKeepsAlive(s, s.subs[w], how);
  }

  lemma WentAbandons(s: State, w: Who, how: Outcome)
    requires RoutineEnabled(s, w, how) && Placed(s) && Abandons(s)
    ensures Abandons(Went(s, w, how))
  {
    assert Fits(w, s.subs[w]);
    EffectKeepsAlive(s, s.subs[w], how);
    if w == Abandoner {
      AbandonerGoesOn(s, s.subs[w], how);
    }
  }

  lemma AbandonerGoesOn(s: State, sub: Sub, how: Outcome)
    requires sub != Idle
    ensures Ended(Abandoner, sub, NextSub(s, sub, how)) == Idle <==> sub == DropOwner
  {
    match sub
    case Idle =>
    case BeginClose(b) =>
    case LoadPlatform(b) =>
    case CloseCheck(b) =>
    case Retain1(b) =>
    case Retain2(b) =>
    case CreateCloser(b) =>
    case Published =>
    case FailDrop2(b) =>
    case FailDrop1(b) =>
    case FailSection(b) =>
    case DropOwner =>
    case Checking(next) =>
    case Retaining(next) =>
    case Creating(next) =>
    case Dropping(next) =>
    case Calling(next) =>
    case Marking(next) =>
    case Waiting(next) =>
    case Looking =>
    case Storing =>
    case Announcing =>
  }

  /** A console on its way to be closed stays on it. */
  lemma EffectSettles(s: State, sub: Sub, how: Outcome)
    ensures var c, c' := s.conpty.state, Effect(s, sub, how).conpty.state;
            (c == Shutting ==> c' == Shutting || c' == Shut) && (c == Shut ==> c' == Shut)
    ensures sub.Checking? && s.conpty.state != Releasing ==>
              Effect(s, sub, how).conpty.state == Shutting || Effect(s, sub, how).conpty.state == Shut
    ensures Effect(s, sub, how).threads.boot == s.threads.boot
    ensures s.threads.closer != CloserFlagging ==> Effect(s, sub, how).threads.closer != CloserFlagging
    ensures Effect(s, sub, how).flags.closeDone <==> s.flags.closeDone || sub.FailSection?
  {
    match sub
    case Idle =>
    case BeginClose(b) =>
    case LoadPlatform(b) =>
    case CloseCheck(b) =>
    case Retain1(b) =>
    case Retain2(b) =>
    case CreateCloser(b) =>
    case Published =>
    case FailDrop2(b) =>
    case FailDrop1(b) =>
    case FailSection(b) =>
    case DropOwner =>
    case Checking(next) =>
    case Retaining(next) =>
    case Creating(next) =>
    case Dropping(next) =>
    case Calling(next) =>
    case Marking(next) =>
    case Waiting(next) =>
    case Looking =>
    case Storing =>
    case Announcing =>
  }

  /** In the routine that closes the console, from the check on. */
  lemma SubSettles(s: State, sub: Sub, next: Then, how: Outcome)
    requires ClosesConsole(sub, next) && Settled(sub, s.conpty.state)
    requires (sub.Checking? ==> s.conpty.state != Releasing) && (sub.Waiting? ==> s.conpty.state != Shutting)
    ensures var n, c := NextSub(s, sub, how), Effect(s, sub, how).conpty.state;
            if ClosesConsole(n, next) then Settled(n, c) else next != Return ==> c == Shut
  {
    match sub
    case Checking(n) =>
    case Retaining(n) =>
    case Creating(n) =>
    case Dropping(n) =>
    case Calling(n) =>
    case Marking(n) =>
    case Waiting(n) =>
  }

  lemma SettledStays(s: State, sub: Sub, how: Outcome, v: Sub)
    requires Settled(v, s.conpty.state)
    ensures Settled(v, Effect(s, sub, how).conpty.state)
  {
    EffectSettles(s, sub, how);
  }

  /** A thread that waits for the close still does, or has it. */
  lemma StaysInStep(s: State, w: Who, how: Outcome, v: Who, next: Then)
    requires RoutineEnabled(s, w, how) && next != Return && Settled(s.subs[v], s.conpty.state)
    requires v == w && InConsole(s.subs[w]) ==> ClosesConsole(s.subs[w], next)
    ensures Settled(Went(s, w, how).subs[v], Went(s, w, how).conpty.state)
  {
    if v != w {
      SettledStays(s, s.subs[w], how, s.subs[v]);
    } else if InConsole(s.subs[w]) {
      SubSettles(s, s.subs[w], next, how);
    } else {
      EffectSettles(s, s.subs[w], how);
    }
  }

  predicate InConsole(sub: Sub) {
    sub.Checking? || sub.Retaining? || sub.Creating? || sub.Dropping? || sub.Calling? || sub.Marking? || sub.Waiting?
  }

  lemma IsolateInStep(s: State, w: Who, how: Outcome)
    requires RoutineEnabled(s, w, how) && Fits(w, s.subs[w])
    requires ClosesConsole(s.subs[Isolate], WaitAndLook) ==> Settled(s.subs[Isolate], s.conpty.state)
    ensures var s' := Went(s, w, how);
            && (ClosesConsole(s'.subs[Isolate], WaitAndLook) ==> Settled(s'.subs[Isolate], s'.conpty.state))
            && (ClosesConsole(s.subs[Isolate], WaitAndLook) ==>
                  ClosesConsole(s'.subs[Isolate], WaitAndLook) || s'.conpty.state == Shut)
            && (w == Isolate && s.subs[w].FailSection? ==> ClosesConsole(s'.subs[Isolate], WaitAndLook))
  {
    var sub := s.subs[w];
    if w == Isolate {
      if ClosesConsole(sub, WaitAndLook) {
        SubSettles(s, sub, WaitAndLook, how);
      } else if Begins(sub, true) {
        BeginsNext(s, sub, true, how);
      } else {
        LooksNext(s, sub, how);
      }
    } else if ClosesConsole(s.subs[Isolate], WaitAndLook) {
      SettledStays(s, sub, how, s.subs[Isolate]);
    }
  }

  lemma WentWaits(s: State, w: Who, how: Outcome)
    requires RoutineEnabled(s, w, how) && Placed(s) && Abandons(s) && Waits(s)
    ensures Waits(Went(s, w, how))
  {
    var sub := s.subs[w];
    assert Fits(w, sub);
    EffectSettles(s, sub, how);
    EffectKeepsAlive(s, sub, how);
    IsolateInStep(s, w, how);
    if s.threads.closer == CloserFlagging {
      StaysInStep(s, w, how, Closer, Wait);
    }
    if s.threads.boot.Sectioning? {
      StaysInStep(s, w, how, Boot, Wait);
    }
  }

  // ------------------------------------------------------- a routine's step

  lemma PostKeepsRest(s: State, how: Outcome)
    requires Placed(s) && Waits(s) && Abandons(s) && (how == Bad ==> !s.memory.detached)
    ensures Placed(PostDone(s, how)) && Waits(PostDone(s, how)) && Abandons(PostDone(s, how))
  {
  }

  lemma WentShape(s: State, w: Who, how: Outcome)
    requires RoutineEnabled(s, w, how) && Inv(s)
    ensures Total(Went(s, w, how).subs) && Shape(Went(s, w, how), All(Went(s, w, how).subs))
  {
    var t, sub := All(s.subs), s.subs[w];
    RoutineSecure(s, w, how);
    RoutineTally(s, w, how);
    AllIsNatural(s.subs);
    if sub.Marking? && s.flags.closeDone && !s.memory.abandoned {
      if ClosesConsole(s.subs[Isolate], WaitAndLook) {
        IsolateLooks(s.subs);
      }
      MarkIsLookedFor(s, t, w);
    }
    if sub.FailSection? {
      FailsFittingly(s, w);
    }
    EffectShape(s, t, sub, how);
    ShapeIgnoresSubs(Effect(s, sub, how), After1(t, s, sub, how), Went(s, w, how).subs);
  }

  lemma FailsFittingly(s: State, w: Who)
    requires Placed(s) && Abandons(s) && s.subs[w].FailSection?
    ensures s.subs[w].blocking || s.memory.abandoned
  {
    assert Fits(w, s.subs[w]);
  }

  lemma RoutineKeeps(s: State, w: Who, how: Outcome)
    requires RoutineEnabled(s, w, how) && Inv(s)
    ensures Inv(RoutineNext(s, w, how))
  {
    var t := Went(s, w, how);
    WentShape(s, w, how);
    WentPlaced(s, w, how);
    WentAbandons(s, w, how);
    WentWaits(s, w, how);
    if s.subs[w] == Announcing {
      AfterAnnouncing(t, how);
    }
  }

  lemma AfterAnnouncing(t: State, how: Outcome)
    requires Inv(t) && MayPost(t, how)
    ensures Inv(PostDone(t, how))
  {
    AbandonTally(t, how);
    PostShape(t, All(t.subs), how);
    PostKeepsRest(t, how);
  }

  // ------------------------------------------------------- a body's step

  function BodyWent(s: State, w: Who, how: Outcome): State
    requires Total(s.subs) && Alive(s, w)
  {
    BodyEffect(s, w, how).(subs := s.subs[w := BodySub(s, w, how)])
  }

  lemma BodyTally(s: State, w: Who, how: Outcome)
    requires Total(s.subs) && s.subs[w] == Idle && Alive(s, w)
    ensures Total(BodyWent(s, w, how).subs)
    ensures All(BodyWent(s, w, how).subs) == Plus(All(s.subs), Worth(BodySub(s, w, how)))
  {
    Replaced(s.subs, w, BodySub(s, w, how));
    PlusNothing(All(s.subs));
    assert Minus(All(s.subs), Nothing()) == All(s.subs);
  }

  lemma BodyLoose(s: State, w: Who)
    requires Placed(s) && Abandons(s) && Counted(s, All(s.subs)) && Shuts(s, All(s.subs)) && s.memory.refs == 1
    requires s.subs[w] == Idle && Alive(s, w)
    requires Last(s, w)
    ensures Loose(s, All(s.subs)) && (s.memory.abandoned || s.memory.detached)
  {
    AllIsNatural(s.subs);
    NothingAtEnd(s, All(s.subs), w);
    NothingToDo(s.subs);
  }

  lemma IsSound(s: State, w: Who)
    requires Placed(s) && Abandons(s) && Waits(s) && Counted(s, All(s.subs)) && Shuts(s, All(s.subs))
    requires s.subs[w] == Idle && Alive(s, w)
    ensures Sound(s, All(s.subs), w)
  {
    AllIsNatural(s.subs);
    SomeoneIsCounted(s, All(s.subs), w);
    if s.memory.refs == 1 && Last(s, w) {
      BodyLoose(s, w);
    }
  }

  lemma WorkerIsLookedFor(s: State)
    requires Waits(s) && Shuts(s, All(s.subs)) && Natural(All(s.subs))
    requires s.threads.console == WorkerMarking && s.flags.closeDone && !s.memory.abandoned
    ensures All(s.subs).looks > 0
  {
    IsolateLooks(s.subs);
  }

  lemma BodyShape(s: State, w: Who, how: Outcome)
    requires Total(s.subs) && s.subs[w] == Idle && Alive(s, w) && Inv(s)
    ensures Shape(BodyEffect(s, w, how), Plus(All(s.subs), Worth(BodySub(s, w, how))))
  {
    var t := All(s.subs);
    IsSound(s, w);
    match w
    case Boot => BootShape(s, t, how);
    case Reader => WorkerShape(s, t, w, how);
    case Writer => WorkerShape(s, t, w, how);
    case Waiter => WorkerShape(s, t, w, how);
    case Closer => CloserShape(s, t);
    case Console =>
      if s.threads.console == WorkerMarking && s.flags.closeDone && !s.memory.abandoned {
        WorkerIsLookedFor(s);
      }
      ConsoleShape(s, t);
  }

  /** A body touches neither the owner nor other threads' lives. */
  lemma BootKeepsOthers(s: State, how: Outcome)
    requires Alive(s, Boot)
    ensures var m, m' := s.memory, BodyEffect(s, Boot, how).memory;
            m'.owner == m.owner && m'.abandoned == m.abandoned && m'.detached == m.detached
    ensures forall v: Who :: v != Boot && Alive(s, v) ==> Alive(BodyEffect(s, Boot, how), v)
    ensures BodySub(s, Boot, how) != Idle ==> Alive(BodyEffect(s, Boot, how), Boot)
    ensures Fits(Boot, BodySub(s, Boot, how))
  {
  }

  /** What placing the routines needs of a body's step. */
  predicate LeavesOthers(s: State, w: Who, s': State, sub: Sub) {
    && s'.memory.owner == s.memory.owner && s'.memory.abandoned == s.memory.abandoned
    && s'.memory.detached == s.memory.detached
    && (forall v: Who :: v != w && Alive(s, v) ==> Alive(s', v))
    && (sub != Idle ==> Alive(s', w)) && Fits(w, sub)
  }

  lemma WorkerLeavesOthers(s: State, w: Who, how: Outcome)
    requires Alive(s, w) && IsWorker(w) && OnlyWaiterGives(s.threads)
    ensures LeavesOthers(s, w, WorkerNext(s, w, how), BodySub(s, w, how))
  {
    match PcOf(s.threads, w)
    case Serving =>
    case Owning =>
    case Giving =>
    case Flagging =>
    case Leaving =>
  }

  lemma CloserLeavesOthers(s: State, how: Outcome)
    requires Alive(s, Closer)
    ensures LeavesOthers(s, Closer, CloserNext(s), BodySub(s, Closer, how))
  {
    match s.threads.closer
    case CloserStopping =>
    case CloserConsoling =>
    case CloserFlagging =>
    case CloserLeaving =>
  }

  lemma ConsoleLeavesOthers(s: State, how: Outcome)
    requires Alive(s, Console)
    ensures LeavesOthers(s, Console, ConsoleNext(s), BodySub(s, Console, how))
  {
    match s.threads.console
    case WorkerCalling =>
    case WorkerMarking =>
    case WorkerLeaving =>
  }

  lemma BodyLeavesOthers(s: State, w: Who, how: Outcome)
    requires Alive(s, w) && OnlyWaiterGives(s.threads)
    ensures LeavesOthers(s, w, BodyEffect(s, w, how), BodySub(s, w, how))
  {
    match w
    case Boot => BootKeepsOthers(s, how);
    case Reader => WorkerLeavesOthers(s, w, how);
    case Writer => WorkerLeavesOthers(s, w, how);
    case Waiter => WorkerLeavesOthers(s, w, how);
    case Closer => CloserLeavesOthers(s, how);
    case Console => ConsoleLeavesOthers(s, how);
  }

  lemma LeavesPlaces(s: State, w: Who, s': State, sub: Sub)
    requires Placed(s) && Abandons(s) && s.subs[w] == Idle && w != Isolate && w != Abandoner
    requires LeavesOthers(s, w, s', sub)
    ensures Placed(s'.(subs := s.subs[w := sub])) && Abandons(s'.(subs := s.subs[w := sub]))
  {
  }

  lemma BodyKeepsPlaces(s: State, w: Who, how: Outcome)
    requires Placed(s) && Abandons(s) && OnlyWaiterGives(s.threads) && s.subs[w] == Idle && Alive(s, w)
    ensures Placed(BodyWent(s, w, how)) && Abandons(BodyWent(s, w, how))
  {
    BodyLeavesOthers(s, w, how);
    LeavesPlaces(s, w, BodyEffect(s, w, how), BodySub(s, w, how));
  }

  /** What a body does to the console and to whom it makes wait. */
  lemma BootSettles(s: State, how: Outcome)
    requires Alive(s, Boot)
    ensures var s' := BodyEffect(s, Boot, how);
            && (s'.conpty.state == s.conpty.state || s'.conpty.state == Shut)
            && s'.threads.closer == s.threads.closer
            && (s'.threads.boot.Sectioning? ==> s.threads.boot.Consoling? && BodySub(s, Boot, how).Checking?)
            && (s'.flags.closeDone ==> s.flags.closeDone || s.threads.boot.Sectioning?)
  {
    match s.threads.boot
    case Spawning =>
    case Publishing =>
    case CheckingClose =>
    case RetainFor(v) =>
    case CreateFor(v) =>
    case DropFor(v) =>
    case Deciding =>
    case GoingOn =>
    case Resuming =>
    case Reserving(why) =>
    case Stopping(why, sync) =>
    case Joining(why, sync) =>
    case Consoling(why, sync) =>
    case Sectioning(why, sync) =>
    case Posting(left, finale) =>
    case StoringClosing(finale) =>
    case StoringClosed =>
    case Attempting =>
    case LookingUp =>
    case BootLeaving =>
  }

  lemma BodySettles(s: State, w: Who, how: Outcome)
    requires Alive(s, w) && w != Boot && OnlyWaiterGives(s.threads)
    ensures var s', c := BodyEffect(s, w, how), s.conpty.state;
            && (s'.conpty.state == c || s'.conpty.state == Shut || c == Owned || c == Releasing || s.threads.waiter == Giving)
            && s'.threads.boot == s.threads.boot
            && (s'.threads.closer == CloserFlagging ==>
                  s.threads.closer == CloserFlagging || (w == Closer && BodySub(s, w, how).Checking?))
            && (s'.flags.closeDone ==> s.flags.closeDone || (w == Closer && s.threads.closer == CloserFlagging))
  {
    if IsWorker(w) {
      match PcOf(s.threads, w) {
        case Serving =>
        case Owning =>
        case Giving =>
        case Flagging =>
        case Leaving =>
      }
    } else if w == Closer {
      match s.threads.closer {
        case CloserStopping =>
        case CloserConsoling =>
        case CloserFlagging =>
        case CloserLeaving =>
      }
    } else {
      match s.threads.console {
        case WorkerCalling =>
        case WorkerMarking =>
        case WorkerLeaving =>
      }
    }
  }

  lemma BodyKeepsWaits(s: State, w: Who, how: Outcome)
    requires Placed(s) && Abandons(s) && Waits(s) && OnlyWaiterGives(s.threads) && s.subs[w] == Idle && Alive(s, w)
    requires s.threads.waiter == Giving ==> s.conpty.state == Releasing
    ensures Waits(BodyWent(s, w, how))
  {
    if w == Boot {
      BootSettles(s, how);
    } else {
      BodySettles(s, w, how);
    }
    BodyLeavesOthers(s, w, how);
  }

  lemma BodyWentInv(s: State, w: Who, how: Outcome)
    requires Total(s.subs) && s.subs[w] == Idle && Alive(s, w) && Inv(s)
    ensures Inv(BodyWent(s, w, how))
  {
    var t := BodyWent(s, w, how);
    BodyShape(s, w, how);
    BodyTally(s, w, how);
    ShapeIgnoresSubs(BodyEffect(s, w, how), All(t.subs), t.subs);
    BodyKeepsPlaces(s, w, how);
    BodyKeepsWaits(s, w, how);
  }

  lemma BodyKeeps(s: State, w: Who, how: Outcome)
    requires Enabled(s, Body(w, how)) && Inv(s)
    ensures Inv(Next(s, Body(w, how)))
  {
    BodyWentInv(s, w, how);
    if BodyPosts(s, w) {
      EffectLeavesDetached(s, w, how);
      BodyPostKeeps(BodyWent(s, w, how), how);
    }
  }

  lemma EffectLeavesDetached(s: State, w: Who, how: Outcome)
    requires Alive(s, w) && BodyPosts(s, w)
    ensures BodyEffect(s, w, how).memory == s.memory
  {
  }

  lemma BodyPostKeeps(t: State, how: Outcome)
    requires Inv(t) && (how == Bad ==> !t.memory.detached)
    ensures Inv(PostDone(t, how))
  {
    AbandonTally(t, how);
    PostShape(t, All(t.subs), how);
    PostKeepsRest(t, how);
  }

  // ------------------------------------------------------- the isolate's steps

  lemma CloseKeeps(s: State)
    requires Enabled(s, Close) && Inv(s)
    ensures Inv(Next(s, Close))
  {
    Replaced(s.subs, Isolate, BeginClose(true));
    PlusNothing(All(s.subs));
    ShapeIgnoresSubs(s, All(s.subs), s.subs[Isolate := BeginClose(true)]);
    CloseKeepsRest(s);
  }

  lemma CloseKeepsRest(s: State)
    requires Placed(s) && Abandons(s) && Waits(s) && s.subs[Isolate] == Idle && s.memory.owner
    ensures var t := s.(subs := s.subs[Isolate := BeginClose(true)]); Placed(t) && Abandons(t) && Waits(t)
  {
  }

  lemma ReleaseIsLoose(s: State)
    requires Placed(s) && Abandons(s) && Counted(s, All(s.subs)) && s.memory.refs == 1
    requires s.subs[Isolate] == Idle && s.memory.owner && !s.memory.abandoned
    ensures Loose(s, All(s.subs))
  {
    AllIsNatural(s.subs);
    NobodyAlive(s, All(s.subs));
    NothingInRelease(s);
    LooseIfNothing(s);
  }

  lemma NothingInRelease(s: State)
    requires Placed(s) && Abandons(s) && s.subs[Isolate] == Idle && !s.memory.abandoned
    requires forall w: Who :: !Alive(s, w)
    ensures forall w: Who :: Worth(s.subs[w]) == Nothing()
  {
    forall w: Who ensures Worth(s.subs[w]) == Nothing() {
      assert s.subs[w] == Idle || w == Abandoner || w == Isolate || Alive(s, w);
    }
  }

  function Given(s: State): State {
    Dropped(s.(memory := s.memory.(owner := false, detached := true)))
  }

  lemma ReleaseShape(s: State, t: Tally)
    requires Shape(s, t) && Natural(t) && s.memory.owner && !s.memory.abandoned && s.history.attempts > 0
    requires s.memory.refs == 1 ==> Loose(s, t)
    ensures Shape(Given(s), t)
  {
  }

  lemma ReleaseKeepsRest(s: State)
    requires Placed(s) && Abandons(s) && Waits(s) && s.subs[Isolate] == Idle && s.memory.owner && !s.memory.abandoned
    ensures Placed(Given(s)) && Abandons(Given(s)) && Waits(Given(s))
  {
  }

  lemma ReleaseKeeps(s: State)
    requires Enabled(s, Release) && Inv(s)
    ensures Inv(Next(s, Release))
  {
    AllIsNatural(s.subs);
    if s.memory.refs == 1 {
      ReleaseIsLoose(s);
    }
    ReleaseShape(s, All(s.subs));
    ReleaseKeepsRest(s);
  }

  lemma FinalizeKeeps(s: State)
    requires Enabled(s, Finalize) && Inv(s)
    ensures Inv(Next(s, Finalize))
  {
    BodyPostKeeps(s, Bad);
  }

  lemma NextInv(s: State, l: Label)
    requires Enabled(s, l) && Inv(s)
    ensures Inv(Next(s, l))
  {
    match l
    case Routine(w, how) => RoutineKeeps(s, w, how);
    case Body(w, how) => BodyKeeps(s, w, how);
    case Close => CloseKeeps(s);
    case Release => ReleaseKeeps(s);
    case Finalize => FinalizeKeeps(s);
  }

  // ------------------------------------------------------------- the runs

  predicate Possible(s: State, labels: seq<Label>)
    decreases |labels|
  {
    labels == [] || (Enabled(s, labels[0]) && Possible(Next(s, labels[0]), labels[1..]))
  }

  function After(s: State, labels: seq<Label>): State
    requires Possible(s, labels)
    decreases |labels|
  {
    if labels == [] then s else After(Next(s, labels[0]), labels[1..])
  }

  lemma {:induction false} RunsKeepInv(s: State, labels: seq<Label>)
    requires Possible(s, labels) && Inv(s)
    ensures Inv(After(s, labels))
    decreases |labels|
  {
    if labels != [] {
      NextInv(s, labels[0]);
      RunsKeepInv(Next(s, labels[0]), labels[1..]);
    }
  }

  lemma InitialIdle()
    ensures Total(Initial().subs) && forall w: Who :: Initial().subs[w] == Idle
  {
    forall w: Who ensures w in Initial().subs && Initial().subs[w] == Idle {
      match w
      case Boot =>
      case Reader =>
      case Writer =>
      case Waiter =>
      case Closer =>
      case Console =>
      case Isolate =>
      case Abandoner =>
    }
  }

  lemma InitialShape()
    ensures Shape(Initial(), Nothing())
  {
  }

  lemma InitialInv()
    ensures Inv(Initial())
  {
    InitialIdle();
    NothingToDo(Initial().subs);
    InitialShape();
    InitialRest();
  }

  lemma InitialRest()
    ensures Placed(Initial()) && Abandons(Initial()) && Waits(Initial())
  {
    InitialIdle();
  }

  lemma EveryRunKeepsInv(labels: seq<Label>)
    requires Possible(Initial(), labels)
    ensures Inv(After(Initial(), labels))
  {
    InitialInv();
    RunsKeepInv(Initial(), labels);
  }

  /** ClosePseudoConsole is called at most once in every run, and never before
      a release in progress has come back; when the session is freed nothing is
      in progress, and it has been called exactly once. */
  lemma ConsoleIsClosedOnce(labels: seq<Label>)
    requires Possible(Initial(), labels)
    ensures var s := After(Initial(), labels);
            && s.conpty.closes <= 1
            && (s.conpty.state == Releasing || s.conpty.state == Owned || s.conpty.state == Released ==> s.conpty.closes == 0)
            && (s.memory.frees > 0 && s.platform ==> s.conpty.closes == 1 && s.conpty.atFree.Some?)
            && (s.conpty.atFree.Some? ==> s.conpty.atFree.value != Releasing && s.conpty.atFree.value != Shutting)
  {
    EveryRunKeepsInv(labels);
    ConsoleFacts(After(Initial(), labels));
  }

  lemma ConsoleFacts(s: State)
    requires Inv(s)
    ensures s.conpty.closes <= 1
    ensures s.conpty.state == Releasing || s.conpty.state == Owned || s.conpty.state == Released ==> s.conpty.closes == 0
    ensures s.memory.frees > 0 && s.platform ==> s.conpty.closes == 1 && s.conpty.atFree.Some?
    ensures s.conpty.atFree.Some? ==> s.conpty.atFree.value != Releasing && s.conpty.atFree.value != Shutting
  {
    AllIsNatural(s.subs);
    ConsoleFactsOf(s, All(s.subs));
  }

  lemma ConsoleFactsOf(s: State, t: Tally)
    requires Shape(s, t) && Natural(t)
    ensures s.conpty.closes <= 1
    ensures s.conpty.state == Releasing || s.conpty.state == Owned || s.conpty.state == Released ==> s.conpty.closes == 0
    ensures s.memory.frees > 0 && s.platform ==> s.conpty.closes == 1 && s.conpty.atFree.Some?
    ensures s.conpty.atFree.Some? ==> s.conpty.atFree.value != Releasing && s.conpty.atFree.value != Shutting
  {
  }

  /** Nobody is in a routine, and every thread that was started has ended. */
  predicate Quiet(s: State) {
    Total(s.subs) && forall w: Who :: s.subs[w] == Idle && !Alive(s, w)
  }

  /** Reader, writer or waiter has marked itself done or was never started. */
  predicate Ended3(th: Threads) {
    && (th.reader == Absent || th.reader == Leaving || th.reader == Gone)
    && (th.writer == Absent || th.writer == Leaving || th.writer == Gone)
    && (th.waiter == Absent || th.waiter == Leaving || th.waiter == Gone)
  }

  /** SESSION_CLOSED is attempted at most once; if there is a platform, only
      when reader, writer and waiter are done, a close was carried through and
      the console is closed; and if nothing abandons the session, then whenever
      all that holds and nobody has taken the post on, some thread has still to
      look. */
  lemma ClosedOnce(labels: seq<Label>)
    requires Possible(Initial(), labels)
    ensures var s := After(Initial(), labels);
            && s.history.attempts <= 1
            && (s.platform && s.history.claimed ==> Ended3(s.threads) && s.flags.closeDone && s.conpty.state == Shut)
            && (Due(s) && !s.memory.abandoned ==> Total(s.subs) && All(s.subs).looks + BootLooks(s.threads.boot) > 0)
  {
    EveryRunKeepsInv(labels);
    ClosedFacts(After(Initial(), labels));
  }

  lemma ClosedFacts(s: State)
    requires Inv(s)
    ensures s.history.attempts <= 1
    ensures s.platform && s.history.claimed ==> Ended3(s.threads) && s.flags.closeDone && s.conpty.state == Shut
    ensures Due(s) && !s.memory.abandoned ==> Total(s.subs) && All(s.subs).looks + BootLooks(s.threads.boot) > 0
  {
    AllIsNatural(s.subs);
    ClosedFactsOf(s, All(s.subs));
  }

  lemma ClosedFactsOf(s: State, t: Tally)
    requires Shape(s, t) && Natural(t)
    ensures s.history.attempts <= 1
    ensures s.platform && s.history.claimed ==> Ended3(s.threads) && s.flags.closeDone && s.conpty.state == Shut
  {
  }

  /** When all have ended and nothing abandoned the session, a close request or
      a failed startup has led to exactly one attempt. */
  lemma ClosedWhenQuiet(labels: seq<Label>)
    requires Possible(Initial(), labels)
    ensures var s := After(Initial(), labels);
            Quiet(s) && !s.memory.abandoned ==>
              s.lifecycle != Starting && (AtLeastClosing(s.lifecycle) ==> s.history.attempts == 1)
  {
    EveryRunKeepsInv(labels);
    QuietFacts(After(Initial(), labels));
  }

  lemma QuietFacts(s: State)
    requires Inv(s)
    ensures Quiet(s) && !s.memory.abandoned ==>
              s.lifecycle != Starting && (AtLeastClosing(s.lifecycle) ==> s.history.attempts == 1)
  {
    if Quiet(s) && !s.memory.abandoned {
      QuietSubs(s);
      QuietCloses(s);
    }
  }

  lemma QuietSubs(s: State)
    requires Quiet(s)
    ensures All(s.subs) == Nothing() && s.threads.boot == BootGone
    ensures !Alive(s, Reader) && !Alive(s, Writer) && !Alive(s, Waiter) && !Alive(s, Closer) && s.subs[Isolate] == Idle
  {
    NothingToDo(s.subs);
    assert !Alive(s, Boot);
  }

  lemma QuietCloses(s: State)
    requires Shape(s, Nothing()) && Waits(s) && s.threads.boot == BootGone && !s.memory.abandoned
    requires !Alive(s, Reader) && !Alive(s, Writer) && !Alive(s, Waiter) && !Alive(s, Closer) && s.subs[Isolate] == Idle
    ensures s.lifecycle != Starting && (AtLeastClosing(s.lifecycle) ==> s.history.attempts == 1)
  {
  }

  /** The reference count is the owner's, the threads' and the creators'; the
      session is freed once, when nobody is left. */
  lemma CountIsExact(labels: seq<Label>)
    requires Possible(Initial(), labels)
    ensures var s := After(Initial(), labels);
            && Total(s.subs) && s.memory.refs == One(s.memory.owner) + BodyRefs(s.threads) + All(s.subs).refs
            && s.memory.frees == One(s.memory.refs == 0)
            && (s.memory.frees > 0 <==> Quiet(s) && !s.memory.owner)
  {
    EveryRunKeepsInv(labels);
    FreedIsQuiet(After(Initial(), labels));
  }

  lemma NobodyAfterFree(s: State, t: Tally, w: Who)
    requires Placed(s) && Abandons(s) && Counted(s, t) && Natural(t) && s.memory.frees > 0
    ensures s.subs[w] == Idle && !Alive(s, w) && !s.memory.owner
  {
    if s.subs[w] != Idle || Alive(s, w) {
      SomeoneIsCounted(s, t, w);
    }
  }

  lemma FreedWhenQuiet(s: State)
    requires Counted(s, Nothing()) && s.threads.boot == BootGone && !s.memory.owner
    requires !Alive(s, Reader) && !Alive(s, Writer) && !Alive(s, Waiter) && !Alive(s, Closer) && !Alive(s, Console)
    ensures s.memory.frees == 1
  {
  }

  lemma FreedIsQuiet(s: State)
    requires Inv(s)
    ensures Total(s.subs) && s.memory.refs == One(s.memory.owner) + BodyRefs(s.threads) + All(s.subs).refs
    ensures s.memory.frees == One(s.memory.refs == 0)
    ensures s.memory.frees > 0 <==> Quiet(s) && !s.memory.owner
  {
    if s.memory.frees > 0 {
      AllIsNatural(s.subs);
      forall w: Who ensures s.subs[w] == Idle && !Alive(s, w) && !s.memory.owner {
        NobodyAfterFree(s, All(s.subs), w);
      }
      assert !s.memory.owner by {
        NobodyAfterFree(s, All(s.subs), Boot);
      }
    }
    if Quiet(s) && !s.memory.owner {
      QuietSubs(s);
      assert !Alive(s, Console);
      FreedWhenQuiet(s);
    }
  }
}
