/** The launcher, its supervisor, the program and the session that signals it:
    who may reap whom, and when the program's pid stays reserved until nobody
    in the session can signal it any more. */
module Supervisor {
  import opened Wrappers

  datatype Exit = Exit(signaled: bool, value: int)

  datatype Life = Unborn | Running | Zombie(exit: Exit) | Gone

  datatype Who = TheHost | Launcher | Supervisor | Program | Init

  /** A zombie is reaped by its parent only. */
  datatype Process = Process(life: Life, parent: Who)

  datatype SupervisorPc = Starting | Naming | Watching | Reporting(exit: Exit) | Holding | Reaping

  datatype Reaper = ByInit | BySupervisor

  /** The kernel's side. `named` says that the program's pid is in the exit pipe,
      `readFailed` that the supervisor gave up waiting for its release, `ended`
      how the program ended and `reaper` who took it. */
  datatype Kernel = Kernel(
    launcher: Process, supervisor: Process, program: Process, pc: SupervisorPc,
    named: bool, readFailed: bool, ended: Option<Exit>, reaper: Option<Reaper>)

  /** One end of a pipe held by the session: by the platform, in local copies
      about to be closed, or closed. */
  datatype Descriptor = Descriptor(platform: bool, local: nat, closes: nat)

  datatype Status = EndOfFile | ChildError | Invalid

  /** Where pty_unix_spawn is. */
  datatype SpawnPc =
    | AwaitLauncher
    | AwaitStatus
    | AwaitPid(valid: bool)
    | Configuring
    | Misconfigured
    | Abandoning
    | Spawned
    | NotSpawned

  /** The critical section of stop_process or send_signal, if somebody is in
      it: either it will signal, or it found the process out of bounds. */
  datatype Section = Free | Signalling(byWaiter: bool) | Leaving(byWaiter: bool)

  datatype WaiterPc =
    | NotStarted
    | Waiting
    | Stopping
    | Stopped
    | Recording(result: Option<Exit>)
    | Releasing(result: Option<Exit>)
    | Closing(result: Option<Exit>)
    | Posting(result: Option<Exit>)
    | Finished

  /** The session. `posted` is what the waiter posted, a value for an exit and
      None for an error; `stray` counts signals that met a reused pid. */
  datatype Session = Session(
    published: bool, section: Section, exited: bool, released: bool,
    waiter: WaiterPc, posted: Option<Option<Exit>>, freed: bool, stray: nat)

  datatype State = State(
    kernel: Kernel, report: Option<Exit>, releasePipe: Descriptor, exitPipe: Descriptor, spawn: SpawnPc, session: Session)

  datatype Label =
    | LauncherForks
    | LauncherExits(exit: Exit)
    | SupervisorForks
    | SupervisorNames
    | ProgramEnds(exit: Exit)
    | SupervisorSees
    | SupervisorReports
    | SupervisorReleased
    | ReleaseReadFails
    | SupervisorReaps
    | SupervisorDies(exit: Exit)
    | InitReaps(who: Who)
    | HostReaps(who: Who)
    | HostWaits
    | ReadStatus(status: Status)
    | ReadPid(ok: bool)
    | Configure(ok: bool)
    | LateSignal
    | GiveUp
    | CleanupSignal
    | Publish
    | Enter
    | Signal
    | Leave
    | StartWaiter
    | WaiterReads
    | WaiterFails
    | WaiterEnters
    | WaiterGoesOn
    | Record
    | WaiterReleases
    | WaiterClosed
    | Post
    | Release
    | CloseRelease
    | CloseExit
    | FreeSession

  /** The launcher has just been forked. */
  function Initial(): State {
    State(Kernel(Process(Running, TheHost), Process(Unborn, Launcher), Process(Unborn, Supervisor), Starting,
                 false, false, None, None),
          None, Descriptor(true, 0, 0), Descriptor(true, 0, 0), AwaitLauncher,
          Session(false, Free, false, false, NotStarted, None, false, 0))
  }

  function Find(k: Kernel, who: Who): Process {
    match who
    case Launcher => k.launcher
    case Supervisor => k.supervisor
    case Program => k.program
    case _ => Process(Running, Init)
  }

  /** The supervisor's release read sees end of file when the session's end,
      the only one, is closed. */
  predicate EndOfRelease(s: State) {
    s.releasePipe.closes > 0
  }

  /** The supervisor lives and is at this point of its body. */
  predicate At(k: Kernel, pc: SupervisorPc) {
    k.supervisor.life.Running? && k.pc == pc
  }

  predicate Reapable(k: Kernel, who: Who, parent: Who) {
    (who == Launcher || who == Supervisor || who == Program) && Find(k, who).life.Zombie? && Find(k, who).parent == parent
  }

  predicate BothClosed(s: State) {
    s.releasePipe.local == 0 && s.exitPipe.local == 0
  }

  /** The session owns the program and nobody gave that up yet. */
  predicate Owning(s: State) {
    s.spawn.Spawned? && !s.session.released && !s.session.freed
  }

  predicate KernelEnabled(s: State, l: Label) {
    match l
    case LauncherForks => s.kernel.launcher.life.Running? && s.kernel.supervisor.life.Unborn?
    case LauncherExits(_) => s.kernel.launcher.life.Running?
    case SupervisorForks => At(s.kernel, Starting)
    case SupervisorNames => At(s.kernel, Naming) && s.exitPipe.closes == 0
    case ProgramEnds(_) => s.kernel.program.life.Running?
    case SupervisorSees => At(s.kernel, Watching) && s.kernel.program.life.Zombie?
    case SupervisorReports => s.kernel.supervisor.life.Running? && s.kernel.pc.Reporting?
    case SupervisorReleased => At(s.kernel, Holding) && EndOfRelease(s)
    case ReleaseReadFails => At(s.kernel, Holding)
    case SupervisorReaps => At(s.kernel, Reaping) && Reapable(s.kernel, Program, Supervisor)
    case SupervisorDies(_) => s.kernel.supervisor.life.Running?
    case InitReaps(who) => Reapable(s.kernel, who, Init)
    case HostReaps(who) => Reapable(s.kernel, who, TheHost)
    case _ => false
  }

  predicate SpawnEnabled(s: State, l: Label) {
    match l
    case HostWaits => s.spawn.AwaitLauncher? && (s.kernel.launcher.life.Zombie? || s.kernel.launcher.life.Gone?)
    case ReadStatus(status) => s.spawn.AwaitStatus? && (status.EndOfFile? ==> !At(s.kernel, Starting))
    case ReadPid(ok) => s.spawn.AwaitPid? && (ok ==> s.kernel.named)
    case Configure(_) => s.spawn.Configuring?
    case LateSignal => s.spawn.Abandoning? && BothClosed(s)
    case GiveUp => s.spawn.Misconfigured? || (s.spawn.Abandoning? && BothClosed(s))
    case CleanupSignal => s.spawn.Misconfigured? || (Owning(s) && !s.session.published)
    case _ => false
  }

  predicate SessionEnabled(s: State, l: Label) {
    match l
    case Publish => Owning(s) && !s.session.published
    case Enter => s.session.section.Free? && s.session.published && !s.session.freed
    case Signal => s.session.section.Signalling?
    case Leave => !s.session.section.Free?
    case StartWaiter => Owning(s) && s.session.published && s.session.waiter.NotStarted?
    case WaiterReads => s.session.waiter.Waiting? && s.report.Some?
    case WaiterFails => s.session.waiter.Waiting?
    case WaiterEnters => s.session.waiter.Stopping? && s.session.section.Free?
    case WaiterGoesOn => s.session.waiter.Stopped?
    case Record => s.session.waiter.Recording? && s.session.section.Free?
    case WaiterReleases => s.session.waiter.Releasing? && s.session.section.Free?
    case WaiterClosed => s.session.waiter.Closing? && BothClosed(s)
    case Post => s.session.waiter.Posting?
    case Release => s.spawn.Spawned? && s.session.waiter.NotStarted? && s.session.section.Free? && !s.session.freed
    case CloseRelease => s.releasePipe.local > 0
    case CloseExit => s.exitPipe.local > 0
    case FreeSession =>
      && (s.spawn.Spawned? || s.spawn.NotSpawned?) && !s.session.freed && s.session.section.Free? && BothClosed(s)
      && (s.session.waiter.Finished? || s.session.waiter.NotStarted?)
    case _ => false
  }

  predicate Enabled(s: State, l: Label) {
    KernelEnabled(s, l) || SpawnEnabled(s, l) || SessionEnabled(s, l)
  }

  /** A descriptor leaves the platform for the caller's stack. */
  function Taken(d: Descriptor): Descriptor {
    if d.platform then Descriptor(false, d.local + 1, d.closes) else d
  }

  function ClosedLocal(d: Descriptor): Descriptor {
    if d.local == 0 then d else Descriptor(d.platform, d.local - 1, d.closes + 1)
  }

  function ClosedAtFree(d: Descriptor): Descriptor {
    if d.platform then Descriptor(false, d.local, d.closes + 1) else d
  }

  /** The children of the dead are adopted by init. */
  function Orphaned(p: Process): Process {
    p.(parent := Init)
  }

  function Reaped(k: Kernel, who: Who): Kernel {
    match who
    case Launcher => k.(launcher := k.launcher.(life := Gone))
    case Supervisor => k.(supervisor := k.supervisor.(life := Gone))
    case Program => k.(program := k.program.(life := Gone), reaper := Some(ByInit))
    case _ => k
  }

  function KernelNext(s: State, l: Label): State
    requires KernelEnabled(s, l)
  {
    var k := s.kernel;
    match l
    case LauncherForks => s.(kernel := k.(supervisor := Process(Running, Launcher)))
    case LauncherExits(exit) =>
      s.(kernel := k.(launcher := k.launcher.(life := Zombie(exit)), supervisor := Orphaned(k.supervisor)))
    case SupervisorForks => s.(kernel := k.(program := Process(Running, Supervisor), pc := Naming))
    case SupervisorNames => s.(kernel := k.(named := true, pc := Watching))
    case ProgramEnds(exit) => s.(kernel := k.(program := k.program.(life := Zombie(exit)), ended := Some(exit)))
    case SupervisorSees => s.(kernel := k.(pc := Reporting(k.program.life.exit)))
    case SupervisorReports => s.(kernel := k.(pc := Holding), report := if s.exitPipe.closes > 0 then s.report else Some(k.pc.exit))
    case SupervisorReleased => s.(kernel := k.(pc := Reaping))
    case ReleaseReadFails => s.(kernel := k.(pc := Reaping, readFailed := true))
    case SupervisorReaps =>
      s.(kernel := k.(program := k.program.(life := Gone, parent := Init), reaper := Some(BySupervisor),
                      supervisor := k.supervisor.(life := Zombie(Exit(false, 0)))))
    case SupervisorDies(exit) =>
      s.(kernel := k.(supervisor := k.supervisor.(life := Zombie(exit)), program := Orphaned(k.program)))
    case InitReaps(who) => s.(kernel := Reaped(k, who))
    case HostReaps(who) => s.(kernel := Reaped(k, who))
  }

  /** A signal to the program's pid; if that pid is free, someone else's. */
  function Signalled(s: State): State {
    s.(session := s.session.(stray := s.session.stray + if s.kernel.program.life.Gone? then 1 else 0))
  }

  /** Both pipes are on their way to being closed. */
  function LetGo(s: State): State {
    s.(releasePipe := Taken(s.releasePipe), exitPipe := Taken(s.exitPipe))
  }

  /** Without a valid status the pid is still looked for, to stop the program;
      by the time it is signalled the release pipe is closed. */
  function SpawnNext(s: State, l: Label): State
    requires SpawnEnabled(s, l)
  {
    match l
    case HostWaits =>
      s.(kernel := s.kernel.(launcher := s.kernel.launcher.(life := Gone)), spawn := AwaitStatus)
    case ReadStatus(status) => (
      match status
      case EndOfFile => s.(spawn := AwaitPid(true))
      case ChildError => LetGo(s).(spawn := NotSpawned)
      case Invalid => s.(spawn := AwaitPid(false)))
    case ReadPid(ok) =>
      if ok && s.spawn.valid then s.(spawn := Configuring)
      else LetGo(s).(spawn := if ok then Abandoning else NotSpawned)
    case Configure(ok) => s.(spawn := if ok then Spawned else Misconfigured)
    case LateSignal => Signalled(s)
    case GiveUp => LetGo(s).(spawn := NotSpawned)
    case CleanupSignal => Signalled(s)
  }

  /** stop_process enters its section. */
  function Entered(s: State, byWaiter: bool): State {
    var out := s.session.released || s.session.exited;
    s.(session := s.session.(section := if out then Leaving(byWaiter) else Signalling(byWaiter)))
  }

  function Left(s: State): State {
    var byWaiter := if s.session.section.Free? then false else s.session.section.byWaiter;
    s.(session := s.session.(section := Free, waiter := if byWaiter then Stopped else s.session.waiter))
  }

  /** The section of release_process. */
  function Released(s: State): State {
    LetGo(s).(session := s.session.(released := true))
  }

  function Waiter(s: State, waiter: WaiterPc): State {
    s.(session := s.session.(waiter := waiter))
  }

  function SessionNext(s: State, l: Label): State
    requires SessionEnabled(s, l)
  {
    match l
    case Publish => s.(session := s.session.(published := true))
    case Enter => Entered(s, false)
    case Signal => Signalled(s)
    case Leave => Left(s)
    case StartWaiter => Waiter(s, Waiting)
    case WaiterReads => Waiter(s, Recording(s.report))
    case WaiterFails => Waiter(s, Stopping)
    case WaiterEnters => Entered(s, true)
    case WaiterGoesOn => Waiter(s, Recording(None))
    case Record => s.(session := s.session.(exited := true, waiter := Releasing(s.session.waiter.result)))
    case WaiterReleases => Waiter(Released(s), Closing(s.session.waiter.result))
    case WaiterClosed => Waiter(s, Posting(s.session.waiter.result))
    case Post => s.(session := s.session.(waiter := Finished, posted := Some(s.session.waiter.result)))
    case Release => Released(s)
    case CloseRelease => s.(releasePipe := ClosedLocal(s.releasePipe))
    case CloseExit => s.(exitPipe := ClosedLocal(s.exitPipe))
    case FreeSession =>
      s.(releasePipe := ClosedAtFree(s.releasePipe), exitPipe := ClosedAtFree(s.exitPipe), session := s.session.(freed := true))
  }

  function Next(s: State, l: Label): State
    requires Enabled(s, l)
  {
    if KernelEnabled(s, l) then KernelNext(s, l)
    else if SpawnEnabled(s, l) then SpawnNext(s, l)
    else SessionNext(s, l)
  }

  // ------------------------------------------------------- the invariants

  predicate ClosedOnce(d: Descriptor) {
    (if d.platform then 1 else 0) + d.local + d.closes == 1
  }

  /** Nobody signals once the descriptors are taken. */
  predicate Guarded(s: State) {
    && ClosedOnce(s.releasePipe) && ClosedOnce(s.exitPipe)
    && (s.spawn.NotSpawned? || s.spawn.Abandoning? || s.session.released ==> !s.releasePipe.platform && !s.exitPipe.platform)
    && (!s.spawn.NotSpawned? && !s.spawn.Abandoning? && !s.session.released && !s.session.freed ==>
          s.releasePipe.platform && s.exitPipe.platform)
    && (s.session.section.Signalling? ==> Owning(s) && !s.session.exited)
    && (!s.spawn.Spawned? ==> !s.session.published && !s.session.released && s.session.waiter.NotStarted? && s.session.section.Free?)
    && (s.session.freed ==> (s.spawn.Spawned? || s.spawn.NotSpawned?) && s.session.section.Free?
                            && s.releasePipe.closes == 1 && s.exitPipe.closes == 1)
  }

  /** The launcher is the host's child and nobody else is. */
  predicate Family(s: State) {
    && s.kernel.launcher.parent == TheHost && !s.kernel.launcher.life.Unborn?
    && s.kernel.supervisor.parent == (if s.kernel.launcher.life.Running? then Launcher else Init)
    && s.kernel.program.parent ==
       (if s.kernel.supervisor.life.Running? || s.kernel.supervisor.life.Unborn? then Supervisor else Init)
    && (s.kernel.supervisor.life.Unborn? || s.kernel.pc.Starting? ==> s.kernel.program.life.Unborn?)
    && (!s.kernel.program.life.Unborn? ==> !s.kernel.pc.Starting?)
    && (s.kernel.named || Named(s) ==> !s.kernel.program.life.Unborn?)
    && (s.kernel.supervisor.life.Unborn? ==> s.kernel.pc.Starting?)
    && (s.kernel.supervisor.life.Running? && !s.kernel.pc.Starting? ==> !s.kernel.program.life.Unborn? && !s.kernel.program.life.Gone?)
    && (s.kernel.supervisor.life.Running? && (s.kernel.pc.Reporting? || s.kernel.pc.Holding? || s.kernel.pc.Reaping?) ==>
          s.kernel.program.life.Zombie?)
  }

  /** The pid was read. */
  predicate Named(s: State) {
    s.spawn.Configuring? || s.spawn.Misconfigured? || s.spawn.Abandoning? || s.spawn.Spawned?
  }

  /** Who took the program, and what allowed it. */
  predicate Reserved(s: State) {
    && (s.kernel.program.life.Gone? <==> s.kernel.reaper.Some?)
    && (s.kernel.reaper == Some(ByInit) ==> !s.kernel.supervisor.life.Running?)
    && (s.kernel.reaper == Some(BySupervisor) || s.kernel.pc.Reaping? ==> s.kernel.readFailed || EndOfRelease(s))
    && (s.kernel.readFailed || s.kernel.reaper == Some(BySupervisor) ==> s.kernel.pc.Reaping?)
  }

  /** What is reported, read and posted is how the program really ended. */
  predicate Faithful(s: State) {
    && (s.kernel.program.life.Zombie? || s.kernel.program.life.Gone? <==> s.kernel.ended.Some?)
    && (s.kernel.program.life.Zombie? ==> s.kernel.ended == Some(s.kernel.program.life.exit))
    && (s.kernel.pc.Reporting? ==> s.kernel.ended == Some(s.kernel.pc.exit))
    && (s.report.Some? ==> s.report == s.kernel.ended)
    && (s.session.posted.Some? && s.session.posted.value.Some? ==> s.session.posted.value == s.kernel.ended)
    && (s.session.waiter.Recording? || s.session.waiter.Releasing? || s.session.waiter.Closing? || s.session.waiter.Posting? ==>
          s.session.waiter.result.None? || s.session.waiter.result == s.kernel.ended)
  }

  /** The waiter does one thing after the other. */
  predicate Ordered(s: State) {
    && (s.session.waiter.Closing? || s.session.waiter.Posting? || s.session.waiter.Finished? ==> s.session.released && s.session.exited)
    && (s.session.section.Signalling? || s.session.section.Leaving? ==>
          (s.session.section.byWaiter ==> s.session.waiter.Stopping?))
    && (s.session.posted.Some? ==> s.session.waiter.Finished?)
    && (s.session.waiter.Posting? || s.session.waiter.Finished? ==> s.releasePipe.closes == 1 && s.exitPipe.closes == 1)
    && (!s.session.waiter.NotStarted? && !s.session.waiter.Closing? && !s.session.waiter.Posting? && !s.session.waiter.Finished? ==>
          !s.session.released && !s.session.freed)
    && (s.session.waiter.Releasing? ==> s.session.exited)
    && (s.session.freed ==> s.session.waiter.NotStarted? || s.session.waiter.Finished?)
  }

  predicate Inv(s: State) {
    Guarded(s) && Family(s) && Reserved(s) && Faithful(s) && Ordered(s)
  }

  // ------------------------------------------------------- step by step

  /** The launcher, the supervisor and the program up to its end. */
  lemma FamilyKeeps(s: State, l: Label)
    requires Inv(s) && KernelEnabled(s, l)
    requires l.LauncherForks? || l.LauncherExits? || l.SupervisorForks? || l.SupervisorNames? || l.ProgramEnds?
    ensures Inv(KernelNext(s, l))
  {
  }

  lemma SupervisorKeeps(s: State, l: Label)
    requires Inv(s) && KernelEnabled(s, l)
    requires l.SupervisorSees? || l.SupervisorReports? || l.SupervisorReleased? || l.ReleaseReadFails?
    ensures Inv(KernelNext(s, l))
  {
  }

  lemma DeathsKeep(s: State, l: Label)
    requires Inv(s) && KernelEnabled(s, l)
    requires l.SupervisorReaps? || l.SupervisorDies? || l.InitReaps? || l.HostReaps?
    ensures Inv(KernelNext(s, l))
  {
  }

  lemma SpawnKeeps(s: State, l: Label)
    requires Inv(s) && SpawnEnabled(s, l)
    ensures Inv(SpawnNext(s, l))
  {
  }

  /** The signals and their sections. */
  lemma SignalsKeep(s: State, l: Label)
    requires Inv(s) && SessionEnabled(s, l)
    requires l.Publish? || l.Enter? || l.Signal? || l.Leave?
    ensures Inv(SessionNext(s, l))
  {
  }

  lemma WaiterKeeps(s: State, l: Label)
    requires Inv(s) && SessionEnabled(s, l)
    requires l.StartWaiter? || l.WaiterReads? || l.WaiterFails? || l.WaiterEnters? || l.WaiterGoesOn? || l.Record?
    ensures Inv(SessionNext(s, l))
  {
  }

  /** Releasing, closing and posting. */
  lemma ClosesKeep(s: State, l: Label)
    requires Inv(s) && SessionEnabled(s, l)
    requires l.WaiterReleases? || l.WaiterClosed? || l.Post? || l.Release? || l.CloseRelease? || l.CloseExit? || l.FreeSession?
    ensures Inv(SessionNext(s, l))
  {
  }

  lemma NextInv(s: State, l: Label)
    requires Inv(s) && Enabled(s, l)
    ensures Inv(Next(s, l))
  {
    if KernelEnabled(s, l) {
      if l.SupervisorReaps? || l.SupervisorDies? || l.InitReaps? || l.HostReaps? {
        DeathsKeep(s, l);
      } else if l.SupervisorSees? || l.SupervisorReports? || l.SupervisorReleased? || l.ReleaseReadFails? {
        SupervisorKeeps(s, l);
      } else {
        FamilyKeeps(s, l);
      }
    } else if SpawnEnabled(s, l) {
      SpawnKeeps(s, l);
    } else if l.Publish? || l.Enter? || l.Signal? || l.Leave? {
      SignalsKeep(s, l);
    } else if l.StartWaiter? || l.WaiterReads? || l.WaiterFails? || l.WaiterEnters? || l.WaiterGoesOn? || l.Record? {
      WaiterKeeps(s, l);
    } else {
      ClosesKeep(s, l);
    }
  }

  // ------------------------------------------------------------- the runs

  predicate Possible(s: State, labels: seq<Label>)
    decreases |labels|
  {
    labels == [] || (Enabled(s, labels[0]) && Possible(Next(s, labels[0]), labels[1..]))
  }

  function After(s: State, labels: seq<Label>): State
    requires Possible(s, labels)
    decreases |labels|
  {
    if labels == [] then s else After(Next(s, labels[0]), labels[1..])
  }

  lemma {:induction false} RunsKeepInv(s: State, labels: seq<Label>)
    requires Inv(s) && Possible(s, labels)
    ensures Inv(After(s, labels))
    decreases |labels|
  {
    if labels != [] {
      NextInv(s, labels[0]);
      RunsKeepInv(Next(s, labels[0]), labels[1..]);
    }
  }

  /** The last step of a run. */
  lemma {:induction false} LastStep(s: State, labels: seq<Label>, l: Label)
    requires Possible(s, labels + [l])
    ensures Possible(s, labels) && Enabled(After(s, labels), l)
    ensures After(s, labels + [l]) == Next(After(s, labels), l)
    decreases |labels|
  {
    if labels == [] {
      assert labels + [l] == [l] && [l][1..] == [];
    } else {
      assert (labels + [l])[0] == labels[0] && (labels + [l])[1..] == labels[1..] + [l];
      LastStep(Next(s, labels[0]), labels[1..], l);
    }
  }

  /** Init took the program, or the supervisor did after its release read
      failed. */
  predicate EarlyReaped(labels: seq<Label>) {
    InitReaps(Program) in labels || (ReleaseReadFails in labels && SupervisorReaps in labels)
  }

  predicate ReapedAtAll(labels: seq<Label>) {
    InitReaps(Program) in labels || SupervisorReaps in labels
  }

  /** A signal that comes too late: one under the session's control after the
      program was reaped early; or one of a failed spawn after it was reaped. */
  predicate ComesLate(before: seq<Label>, l: Label) {
    || ((l.Signal? || l.CleanupSignal?) && EarlyReaped(before))
    || (l.LateSignal? && ReapedAtAll(before))
  }

  predicate SomeComesLate(labels: seq<Label>) {
    exists i :: 0 <= i < |labels| && ComesLate(labels[..i], labels[i])
  }

  /** The run's reaping, as the kernel remembers it. */
  predicate Remembers(k: Kernel, labels: seq<Label>) {
    && (k.reaper == Some(ByInit) <==> InitReaps(Program) in labels)
    && (k.reaper == Some(BySupervisor) <==> SupervisorReaps in labels)
    && (k.readFailed <==> ReleaseReadFails in labels)
  }

  lemma KernelRemembers(s: State, labels: seq<Label>, l: Label)
    requires Reserved(s) && Family(s) && KernelEnabled(s, l) && Remembers(s.kernel, labels)
    ensures Remembers(KernelNext(s, l).kernel, labels + [l])
  {
  }

  /** What else happens reaps no program. */
  lemma OthersRemember(s: State, labels: seq<Label>, l: Label)
    requires Enabled(s, l) && !KernelEnabled(s, l) && Remembers(s.kernel, labels)
    ensures Remembers(Next(s, l).kernel, labels + [l])
  {
  }

  lemma StepRemembers(s: State, labels: seq<Label>, l: Label)
    requires Inv(s) && Enabled(s, l) && Remembers(s.kernel, labels)
    ensures Remembers(Next(s, l).kernel, labels + [l])
  {
    if KernelEnabled(s, l) {
      KernelRemembers(s, labels, l);
    } else {
      OthersRemember(s, labels, l);
    }
  }

  predicate EarlyReaper(k: Kernel) {
    k.reaper == Some(ByInit) || (k.reaper == Some(BySupervisor) && k.readFailed)
  }

  /** While the session may signal, the pid is free exactly if init took the
      program or the supervisor's release read had failed. */
  lemma GoneWhileSignalling(s: State)
    requires Inv(s) && (s.session.section.Signalling? || SpawnEnabled(s, CleanupSignal))
    ensures s.kernel.program.life.Gone? <==> EarlyReaper(s.kernel)
  {
    assert !EndOfRelease(s);
    match s.kernel.reaper
    case None =>
    case Some(ByInit) =>
    case Some(BySupervisor) =>
  }

  predicate Signals(l: Label) {
    l.Signal? || l.CleanupSignal? || l.LateSignal?
  }

  lemma OnlySignalsStray(s: State, l: Label)
    requires Enabled(s, l)
    ensures Next(s, l).session.stray == if Signals(l) then Signalled(s).session.stray else s.session.stray
  {
  }

  /** A signal that comes too late meets a free pid. */
  lemma LateMeansGone(s: State, labels: seq<Label>, l: Label)
    requires Inv(s) && Enabled(s, l) && Signals(l) && Remembers(s.kernel, labels)
    ensures s.kernel.program.life.Gone? <==> ComesLate(labels, l)
  {
    if !l.LateSignal? {
      GoneWhileSignalling(s);
    }
    match s.kernel.reaper
    case None =>
    case Some(ByInit) =>
    case Some(BySupervisor) =>
  }

  lemma StepStrays(s: State, labels: seq<Label>, l: Label)
    requires Inv(s) && Enabled(s, l) && Remembers(s.kernel, labels)
    ensures Next(s, l).session.stray == s.session.stray + if ComesLate(labels, l) then 1 else 0
  {
    OnlySignalsStray(s, l);
    if Signals(l) {
      LateMeansGone(s, labels, l);
    }
  }

  lemma LateOneMore(labels: seq<Label>, l: Label)
    ensures SomeComesLate(labels + [l]) <==> SomeComesLate(labels) || ComesLate(labels, l)
  {
    var all := labels + [l];
    assert all[..|labels|] == labels && all[|labels|] == l;
    forall i | 0 <= i < |labels| ensures ComesLate(labels[..i], labels[i]) <==> ComesLate(all[..i], all[i]) {
      assert labels[..i] == all[..i];
    }
    if SomeComesLate(labels) {
      var i :| 0 <= i < |labels| && ComesLate(labels[..i], labels[i]);
      assert ComesLate(all[..i], all[i]);
    }
    if ComesLate(labels, l) {
      assert ComesLate(all[..|labels|], all[|labels|]);
    }
    if SomeComesLate(all) {
      var i :| 0 <= i < |all| && ComesLate(all[..i], all[i]);
      assert i < |labels| ==> ComesLate(labels[..i], labels[i]);
    }
  }

  lemma {:induction false} StraysCounted(labels: seq<Label>)
    requires Possible(Initial(), labels)
    ensures Remembers(After(Initial(), labels).kernel, labels)
    ensures After(Initial(), labels).session.stray > 0 <==> SomeComesLate(labels)
    decreases |labels|
  {
    if labels != [] {
      var front, l := labels[..|labels| - 1], labels[|labels| - 1];
      assert labels == front + [l];
      LastStep(Initial(), front, l);
      StraysCounted(front);
      RunsKeepInv(Initial(), front);
      StepRemembers(After(Initial(), front), front, l);
      StepStrays(After(Initial(), front), front, l);
      LateOneMore(front, l);
    }
  }

  /** In every run a signal meets a reused pid exactly if it is sent after init
      took the program or the supervisor's release read failed, or while
      giving up a spawn whose status was invalid. */
  lemma StraySignalsExactly(labels: seq<Label>)
    requires Possible(Initial(), labels)
    ensures After(Initial(), labels).session.stray > 0 <==> SomeComesLate(labels)
  {
    StraysCounted(labels);
  }

  /** Only a death, or the reaping of the program, stops a supervisor. */
  predicate Halted(k: Kernel) {
    k.supervisor.life.Zombie? || k.supervisor.life.Gone?
  }

  /** Nobody has halted the supervisor but the end of its own work. */
  predicate HaltedByReaping(k: Kernel) {
    Halted(k) ==> k.reaper == Some(BySupervisor)
  }

  lemma KernelHalts(s: State, l: Label)
    requires Reserved(s) && Family(s) && KernelEnabled(s, l) && !l.SupervisorDies? && HaltedByReaping(s.kernel)
    ensures l != InitReaps(Program) && HaltedByReaping(KernelNext(s, l).kernel)
  {
  }

  lemma StepHalts(s: State, l: Label)
    requires Inv(s) && Enabled(s, l) && !l.SupervisorDies? && HaltedByReaping(s.kernel)
    ensures l != InitReaps(Program) && HaltedByReaping(Next(s, l).kernel)
  {
    if KernelEnabled(s, l) {
      KernelHalts(s, l);
    }
  }

  lemma {:induction false} RunHalts(s: State, labels: seq<Label>)
    requires Inv(s) && HaltedByReaping(s.kernel) && Possible(s, labels) && forall l <- labels :: !l.SupervisorDies?
    ensures InitReaps(Program) !in labels && HaltedByReaping(After(s, labels).kernel)
    decreases |labels|
  {
    if labels != [] {
      NextInv(s, labels[0]);
      StepHalts(s, labels[0]);
      RunHalts(Next(s, labels[0]), labels[1..]);
      assert labels == [labels[0]] + labels[1..];
    }
  }

  /** Init takes the program only from a supervisor that died. */
  lemma InitWaitsForDeath(labels: seq<Label>)
    requires Possible(Initial(), labels) && forall l <- labels :: !l.SupervisorDies?
    ensures InitReaps(Program) !in labels
  {
    RunHalts(Initial(), labels);
  }

  /** As long as the supervisor neither dies nor fails to read and the spawn's
      status is valid, no signal meets a reused pid, and whoever is about to
      signal has the pid reserved. */
  lemma NoStraySignal(labels: seq<Label>)
    requires Possible(Initial(), labels)
    requires forall l <- labels :: !l.SupervisorDies? && !l.ReleaseReadFails? && !l.LateSignal?
    ensures var s := After(Initial(), labels);
            && s.session.stray == 0
            && (s.session.section.Signalling? || Enabled(s, CleanupSignal) ==> !s.kernel.program.life.Gone?)
  {
    InitWaitsForDeath(labels);
    StraysCounted(labels);
    RunsKeepInv(Initial(), labels);
    NothingLate(labels);
    var s := After(Initial(), labels);
    if s.session.section.Signalling? || SpawnEnabled(s, CleanupSignal) {
      GoneWhileSignalling(s);
    }
  }

  lemma NothingLate(labels: seq<Label>)
    requires InitReaps(Program) !in labels && ReleaseReadFails !in labels && LateSignal !in labels
    ensures !SomeComesLate(labels)
  {
    forall i | 0 <= i < |labels| ensures !ComesLate(labels[..i], labels[i]) {
      assert forall l <- labels[..i] :: l in labels;
      assert labels[i] in labels;
    }
  }

  /** Whatever children the host's runtime reaps, it is the launcher at most:
      neither the supervisor nor the program is ever the host's child. */
  lemma HostReapsTheLauncherOnly(labels: seq<Label>, who: Who)
    requires Possible(Initial(), labels) && Enabled(After(Initial(), labels), HostReaps(who))
    ensures who == Launcher
    ensures Next(After(Initial(), labels), HostReaps(who)).kernel.program == After(Initial(), labels).kernel.program
  {
    RunsKeepInv(Initial(), labels);
  }

  /** In every run each descriptor is closed at most once, exactly once when the
      session is freed or the waiter has posted; and a posted exit is how the
      program ended, whoever reaped it. */
  lemma ClosedAndReportedOnce(labels: seq<Label>)
    requires Possible(Initial(), labels)
    ensures var s := After(Initial(), labels);
            && s.releasePipe.closes <= 1 && s.exitPipe.closes <= 1
            && (s.session.freed || s.session.posted.Some? ==> s.releasePipe.closes == 1 && s.exitPipe.closes == 1)
            && (s.session.posted.Some? && s.session.posted.value.Some? ==> s.session.posted.value == s.kernel.ended)
  {
    RunsKeepInv(Initial(), labels);
  }

  // ------------------------------------------------------------ what happens

  lemma {:induction false} OneMore(s: State, labels: seq<Label>, l: Label)
    requires Possible(s, labels) && Enabled(After(s, labels), l)
    ensures Possible(s, labels + [l]) && After(s, labels + [l]) == Next(After(s, labels), l)
    decreases |labels|
  {
    if labels == [] {
      assert labels + [l] == [l] && [l][1..] == [];
    } else {
      assert (labels + [l])[0] == labels[0] && (labels + [l])[1..] == labels[1..] + [l];
      OneMore(Next(s, labels[0]), labels[1..], l);
    }
  }

  ghost predicate Reachable(s: State) {
    exists labels :: Possible(Initial(), labels) && After(Initial(), labels) == s
  }

  lemma Reach(s: State, l: Label)
    requires Reachable(s) && Enabled(s, l)
    ensures Reachable(Next(s, l))
  {
    var labels :| Possible(Initial(), labels) && After(Initial(), labels) == s;
    OneMore(Initial(), labels, l);
  }

  lemma ReachByKernel(s: State, l: Label) returns (t: State)
    requires Reachable(s) && KernelEnabled(s, l)
    ensures t == KernelNext(s, l) && Reachable(t)
  {
    Reach(s, l);
    t := Next(s, l);
  }

  lemma ReachBySpawn(s: State, l: Label) returns (t: State)
    requires Reachable(s) && SpawnEnabled(s, l)
    ensures t == SpawnNext(s, l) && Reachable(t)
  {
    Reach(s, l);
    t := Next(s, l);
  }

  lemma ReachBySession(s: State, l: Label) returns (t: State)
    requires Reachable(s) && SessionEnabled(s, l)
    ensures t == SessionNext(s, l) && Reachable(t)
  {
    Reach(s, l);
    t := Next(s, l);
  }

  lemma Start()
    ensures Reachable(Initial())
  {
    assert Possible(Initial(), []) && After(Initial(), []) == Initial();
  }

  /** The program runs under its supervisor; the host's runtime has reaped the
      launcher before pty_unix_spawn waited for it. */
  function Adopted(): State {
    Initial().(kernel := Kernel(Process(Gone, TheHost), Process(Running, Init), Process(Running, Supervisor), Watching,
                                true, false, None, None))
  }

  lemma AdoptedIsReached()
    ensures Reachable(Adopted())
  {
    Start();
    var s := ReachByKernel(Initial(), LauncherForks);
    s := ReachByKernel(s, LauncherExits(Exit(false, 0)));
    s := ReachByKernel(s, HostReaps(Launcher));
    s := ReachByKernel(s, SupervisorForks);
    s := ReachByKernel(s, SupervisorNames);
  }

  /** Published, with a waiter. */
  function Watched(): State {
    Adopted().(spawn := Spawned, session := Initial().session.(published := true, waiter := Waiting))
  }

  lemma WatchedIsReached()
    ensures Reachable(Watched())
  {
    AdoptedIsReached();
    var s := ReachBySpawn(Adopted(), HostWaits);
    s := ReachBySpawn(s, ReadStatus(EndOfFile));
    s := ReachBySpawn(s, ReadPid(true));
    s := ReachBySpawn(s, Configure(true));
    s := ReachBySession(s, Publish);
    s := ReachBySession(s, StartWaiter);
  }

  /** The supervisor died, then the program ended. */
  function Unsupervised(): State {
    Watched().(kernel := Kernel(Process(Gone, TheHost), Process(Zombie(Exit(true, 9)), Init), Process(Gone, Init), Watching,
                                true, false, Some(Exit(false, 0)), Some(ByInit)))
  }

  lemma UnsupervisedIsReached()
    ensures Reachable(Unsupervised())
  {
    WatchedIsReached();
    var s := ReachByKernel(Watched(), SupervisorDies(Exit(true, 9)));
    s := ReachByKernel(s, ProgramEnds(Exit(false, 0)));
    s := ReachByKernel(s, InitReaps(Program));
  }

  /** A supervisor that dies takes the reservation with it: init reaps the
      program, and the waiter that finds no report signals a reused pid. */
  lemma DeadSupervisorReservesNothing()
    ensures exists s :: Reachable(s) && s.session.stray > 0 && s.kernel.reaper == Some(ByInit)
  {
    UnsupervisedIsReached();
    var s := ReachBySession(Unsupervised(), WaiterFails);
    s := ReachBySession(s, WaiterEnters);
    s := ReachBySession(s, Signal);
  }

  /** So does one whose release read fails. */
  lemma FailedReadReservesNothing()
    ensures exists s :: Reachable(s) && s.session.stray > 0 && s.kernel.readFailed
  {
    WatchedIsReached();
    var s := ReachByKernel(Watched(), ProgramEnds(Exit(false, 0)));
    s := ReachByKernel(s, SupervisorSees);
    s := ReachByKernel(s, SupervisorReports);
    s := ReachByKernel(s, ReleaseReadFails);
    s := ReachByKernel(s, SupervisorReaps);
    s := ReachBySession(s, Enter);
    s := ReachBySession(s, Signal);
  }

  /** A spawn that read an invalid status, then the pid, has closed both pipes. */
  function GivenUp(): State {
    Adopted().(spawn := Abandoning, releasePipe := Descriptor(false, 0, 1), exitPipe := Descriptor(false, 0, 1))
  }

  lemma GivenUpIsReached()
    ensures Reachable(GivenUp())
  {
    AdoptedIsReached();
    var s := ReachBySpawn(Adopted(), HostWaits);
    s := ReachBySpawn(s, ReadStatus(Invalid));
    s := ReachBySpawn(s, ReadPid(true));
    s := ReachBySession(s, CloseExit);
    s := ReachBySession(s, CloseRelease);
  }

  /** It signals the program only after releasing it. */
  lemma FailedSpawnSignalsTooLate()
    ensures exists s :: Reachable(s) && s.session.stray > 0 && s.spawn.Abandoning? && !EarlyReaper(s.kernel)
  {
    GivenUpIsReached();
    var s := ReachByKernel(GivenUp(), ProgramEnds(Exit(false, 0)));
    s := ReachByKernel(s, SupervisorSees);
    s := ReachByKernel(s, SupervisorReports);
    s := ReachByKernel(s, SupervisorReleased);
    s := ReachByKernel(s, SupervisorReaps);
    s := ReachBySpawn(s, LateSignal);
  }
}
