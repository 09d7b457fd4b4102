/** The controller's methods as whole turns of the isolate: what each makes of
    the controller's value, and when a queued `write` is left behind. */
module InputHandlers {
  import opened Wrappers
  import opened QueueSpec
  import opened InputSpec

  /** How `tryWrite` can end; TooLong throws an argument error. */
  datatype TryResult = Result(result: WriteResult) | TooLong

  datatype Event =
    | OnWrite(data: seq<Byte>)
    | OnTryWrite(bytes: seq<Byte>, outcome: TryResult)
    | OnComplete(id: nat)
    | OnWritable
    | OnClose

  /** n offers, whatever the native side answers, lead from c to d. */
  ghost predicate OffersLead(c: Controller, d: Controller, n: nat)
    decreases n
  {
    if n == 0 then d == c
    else exists b, result :: OffersLead(c, b, n - 1) && Enabled(b, Offer(result)) && d == Offered(b, result)
  }

  /** Nothing is left to offer now. */
  ghost predicate Settled(c: Controller) {
    !Enabled(c, Offer(Accepted))
  }

  ghost predicate Offering(c: Controller, d: Controller) {
    exists n: nat :: OffersLead(c, d, n)
  }

  /** `_pump` offers chunks for as long as it can. */
  ghost predicate PumpedTo(c: Controller, d: Controller) {
    Settled(d) && Offering(c, d)
  }

  /** `_pumpAdmissions` starts one queued write if the window has room. */
  ghost predicate AdmitsTo(c: Controller, d: Controller) {
    if Enabled(c, Admit) then PumpedTo(Next(c, Admit), d) else d == c
  }

  ghost predicate TriesTo(c: Controller, bytes: seq<Byte>, outcome: TryResult, d: Controller) {
    if c.closed then outcome == Result(Closed) && d == c
    else if bytes == [] then outcome == Result(Accepted) && d == c
    else if |bytes| > c.maxChunk then outcome == TooLong && d == c
    else if !Enabled(c, TryWrite(bytes, Accepted)) then outcome == Result(Backpressured) && d == c
    else outcome.Result? && d == Tried(c, bytes, outcome.result)
  }

  /** Queued writes move on only when a `write` has finished. */
  ghost predicate CompletesTo(c: Controller, id: nat, d: Controller) {
    var i := IndexOf(c.inflight, id);
    if i == |c.inflight| then d == c
    else if Finishes(c, c.inflight[i]) then exists m :: AdmitsTo(Completed(c, id), m) && PumpedTo(m, d)
    else PumpedTo(Completed(c, id), d)
  }

  /** What each method makes of the controller. */
  ghost predicate Handles(c: Controller, e: Event, d: Controller) {
    match e
    case OnWrite(data) => if c.closed || data == [] then d == c else AdmitsTo(Submitted(c, data), d)
    case OnTryWrite(bytes, outcome) => TriesTo(c, bytes, outcome, d)
    case OnComplete(id) => CompletesTo(c, id, d)
    case OnWritable => if c.closed then d == c else PumpedTo(c.(blocked := false), d)
    case OnClose => d == Closing(c)
  }

  /** The states between the turns of a run. */
  ghost predicate IsRun(states: seq<Controller>, events: seq<Event>) {
    |states| == |events| + 1 && forall i | 0 <= i < |events| :: Handles(states[i], events[i], states[i + 1])
  }

  /** Writes are queued, none is started, and only another `write` with room in
      the window, or closing, will change that. */
  predicate Starving(c: Controller) {
    !c.closed && c.admissions != [] && c.waiting == []
  }

  /** A `write` that finds the window full and no other `write` at work. */
  predicate LeavesBehind(c: Controller, e: Event) {
    e.OnWrite? && e.data != [] && !c.closed && c.waiting == [] && c.owned >= c.maxPending
  }

  /** What ends it. */
  predicate Relieves(c: Controller, e: Event) {
    e.OnClose? || (e.OnWrite? && e.data != [] && c.owned < c.maxPending)
  }

  // -------------------------------------------------- turns are runs of steps

  lemma OfferingStarts(c: Controller)
    ensures Offering(c, c)
  {
    assert OffersLead(c, c, 0);
  }

  lemma OfferingGoesOn(c: Controller, d: Controller, result: WriteResult)
    requires Offering(c, d) && Enabled(d, Offer(result))
    ensures Offering(c, Offered(d, result))
  {
    var n: nat :| OffersLead(c, d, n);
    assert OffersLead(c, Offered(d, result), n + 1);
  }

  lemma {:induction false} OffersAreSteps(c: Controller, d: Controller, n: nat)
    requires OffersLead(c, d, n)
    ensures Leads(c, d)
    decreases n
  {
    if n == 0 {
      LeadsNowhere(c);
    } else {
      var b, result :| OffersLead(c, b, n - 1) && Enabled(b, Offer(result)) && d == Offered(b, result);
      OffersAreSteps(c, b, n - 1);
      LeadsOn(c, b, Offer(result));
    }
  }

  lemma PumpIsSteps(c: Controller, d: Controller)
    requires PumpedTo(c, d)
    ensures Leads(c, d)
  {
    var n: nat :| OffersLead(c, d, n);
    OffersAreSteps(c, d, n);
  }

  lemma StepLeads(c: Controller, step: Step)
    requires Enabled(c, step)
    ensures Leads(c, Next(c, step))
  {
    LeadsNowhere(c);
    LeadsOn(c, c, step);
  }

  lemma AdmitIsSteps(c: Controller, d: Controller)
    requires AdmitsTo(c, d)
    ensures Leads(c, d)
  {
    LeadsNowhere(c);
    if Enabled(c, Admit) {
      StepLeads(c, Admit);
      PumpIsSteps(Next(c, Admit), d);
      LeadsJoin(c, Next(c, Admit), d);
    }
  }

  lemma WriteIsSteps(c: Controller, data: seq<Byte>, d: Controller)
    requires Handles(c, OnWrite(data), d)
    ensures Leads(c, d)
  {
    LeadsNowhere(c);
    if !c.closed && data != [] {
      StepLeads(c, Submit(data));
      AdmitIsSteps(Submitted(c, data), d);
      LeadsJoin(c, Submitted(c, data), d);
    }
  }

  lemma TryIsSteps(c: Controller, bytes: seq<Byte>, outcome: TryResult, d: Controller)
    requires TriesTo(c, bytes, outcome, d)
    ensures Leads(c, d)
  {
    LeadsNowhere(c);
    if d != c {
      StepLeads(c, TryWrite(bytes, outcome.result));
    }
  }

  lemma CompleteIsSteps(c: Controller, id: nat, d: Controller)
    requires CompletesTo(c, id, d)
    ensures Leads(c, d)
  {
    var c1 := Completed(c, id);
    StepLeads(c, Complete(id));
    LeadsNowhere(c);
    var i := IndexOf(c.inflight, id);
    if i < |c.inflight| {
      if Finishes(c, c.inflight[i]) {
        var m :| AdmitsTo(c1, m) && PumpedTo(m, d);
        AdmitIsSteps(c1, m);
        PumpIsSteps(m, d);
        LeadsJoin(c1, m, d);
      } else {
        PumpIsSteps(c1, d);
      }
      LeadsJoin(c, c1, d);
    }
  }

  lemma HandlesIsSteps(c: Controller, e: Event, d: Controller)
    requires Handles(c, e, d)
    ensures Leads(c, d)
  {
    match e
    case OnWrite(data) => WriteIsSteps(c, data, d);
    case OnTryWrite(bytes, outcome) => TryIsSteps(c, bytes, outcome, d);
    case OnComplete(id) => CompleteIsSteps(c, id, d);
    case OnWritable =>
      LeadsNowhere(c);
      if !c.closed {
        StepLeads(c, Writable);
        PumpIsSteps(c.(blocked := false), d);
        LeadsJoin(c, c.(blocked := false), d);
      }
    case OnClose => StepLeads(c, Close);
  }

  // ------------------------------------------------------ what pumping keeps

  /** Either the native side was closed, or the queue stands as it did. */
  ghost predicate Kept(c: Controller, d: Controller) {
    && d.maxPending == c.maxPending
    && (if d.closed then c.closed || (d.admissions == [] && d.waiting == [])
        else d.admissions == c.admissions && (d.waiting == [] <==> c.waiting == []))
    && (c.closed || c.waiting == [] ==> d == c)
    && (OnlyWrites(c) ==> OnlyWrites(d))
  }

  /** No bytes of a `tryWrite` are in flight. */
  predicate OnlyWrites(c: Controller) {
    forall p <- c.inflight :: p.byRequest
  }

  lemma OfferKeeps(c: Controller, result: WriteResult)
    requires Enabled(c, Offer(result))
    ensures Kept(c, Offered(c, result))
  {
    if OnlyWrites(c) && result.Accepted? {
      var d := Offered(c, result);
      assert forall i | 0 <= i < |d.inflight| :: i < |c.inflight| ==> d.inflight[i] == c.inflight[i];
    }
  }

  lemma KeptJoins(c: Controller, b: Controller, d: Controller)
    requires Kept(c, b) && Kept(b, d)
    ensures Kept(c, d)
  {
  }

  lemma {:induction false} OffersKeep(c: Controller, d: Controller, n: nat)
    requires OffersLead(c, d, n)
    ensures Kept(c, d)
    decreases n
  {
    if n > 0 {
      var b, result :| OffersLead(c, b, n - 1) && Enabled(b, Offer(result)) && d == Offered(b, result);
      OffersKeep(c, b, n - 1);
      OfferKeeps(b, result);
      KeptJoins(c, b, d);
    }
  }

  lemma PumpKeeps(c: Controller, d: Controller)
    requires PumpedTo(c, d)
    ensures Kept(c, d)
  {
    var n: nat :| OffersLead(c, d, n);
    OffersKeep(c, d, n);
  }

  /** With room and nothing waiting, no queued write stays behind. */
  lemma AdmitStarts(c: Controller, d: Controller)
    requires AdmitsTo(c, d) && Settled(c)
    ensures Settled(d) && (OnlyWrites(c) ==> OnlyWrites(d))
    ensures Starving(d) <==> Starving(c) && c.owned >= c.maxPending
  {
    if Enabled(c, Admit) {
      PumpKeeps(Next(c, Admit), d);
    }
  }

  /** The numbers a finished write leaves: it held the window open. */
  lemma FinishedMakesRoom(c: Controller, id: nat)
    requires Inv(c) && IndexOf(c.inflight, id) < |c.inflight|
    ensures Completed(c, id).owned < c.maxPending == Completed(c, id).maxPending && !c.closed
    ensures Finishes(c, c.inflight[IndexOf(c.inflight, id)]) ==> Completed(c, id).waiting == []
  {
    var i := IndexOf(c.inflight, id);
    assert PieceOk(c, c.inflight[i]);
  }

  lemma CompletedOnlyWrites(c: Controller, id: nat)
    requires OnlyWrites(c)
    ensures OnlyWrites(Completed(c, id))
  {
    var i := IndexOf(c.inflight, id);
    if i < |c.inflight| {
      WithoutOne(c.inflight, i);
    }
  }

  lemma CompletedQueue(c: Controller, id: nat)
    requires Inv(c) && IndexOf(c.inflight, id) < |c.inflight|
    requires !Finishes(c, c.inflight[IndexOf(c.inflight, id)])
    ensures Completed(c, id).waiting == [] <==> c.waiting == []
    ensures Completed(c, id).admissions == c.admissions && Completed(c, id).closed == c.closed
  {
  }

  lemma CompleteStarves(c: Controller, id: nat, d: Controller)
    requires Inv(c) && Settled(c) && CompletesTo(c, id, d)
    ensures Settled(d) && (OnlyWrites(c) ==> OnlyWrites(d))
    ensures Starving(d) <==> Starving(c)
  {
    var i := IndexOf(c.inflight, id);
    if i < |c.inflight| {
      if OnlyWrites(c) {
        CompletedOnlyWrites(c, id);
      }
      FinishedMakesRoom(c, id);
      if Finishes(c, c.inflight[i]) {
        var m :| AdmitsTo(Completed(c, id), m) && PumpedTo(m, d);
        AdmitStarts(Completed(c, id), m);
        PumpKeeps(m, d);
      } else {
        CompletedQueue(c, id);
        PumpKeeps(Completed(c, id), d);
      }
    }
  }

  lemma WriteStarves(c: Controller, data: seq<Byte>, d: Controller)
    requires Settled(c) && !c.closed && data != [] && AdmitsTo(Submitted(c, data), d)
    ensures Settled(d) && (OnlyWrites(c) ==> OnlyWrites(d))
    ensures Starving(d) <==> c.waiting == [] && c.owned >= c.maxPending
  {
    AdmitStarts(Submitted(c, data), d);
  }

  /** One turn leaves writes behind exactly if it is a `write` that finds the
      window full of `tryWrite` data, or they were left behind before and it
      is neither a `write` with room nor a close. */
  lemma StarvesExactly(c: Controller, e: Event, d: Controller)
    requires Inv(c) && Settled(c) && Handles(c, e, d)
    ensures Settled(d)
    ensures Starving(d) <==> LeavesBehind(c, e) || (Starving(c) && !Relieves(c, e))
  {
    match e
    case OnWrite(data) =>
      if !c.closed && data != [] {
        WriteStarves(c, data, d);
      }
    case OnTryWrite(bytes, outcome) =>
    case OnComplete(id) => CompleteStarves(c, id, d);
    case OnWritable =>
      if !c.closed {
        PumpKeeps(c.(blocked := false), d);
      }
    case OnClose =>
  }

  lemma OnlyWritesStays(c: Controller, e: Event, d: Controller)
    requires Inv(c) && Settled(c) && OnlyWrites(c) && Handles(c, e, d)
    requires !(e.OnTryWrite? && e.bytes != [] && e.outcome == Result(Accepted))
    ensures OnlyWrites(d)
  {
    match e
    case OnWrite(data) =>
      if !c.closed && data != [] {
        WriteStarves(c, data, d);
      }
    case OnTryWrite(bytes, outcome) =>
    case OnComplete(id) => CompleteStarves(c, id, d);
    case OnWritable =>
      if !c.closed {
        PumpKeeps(c.(blocked := false), d);
      }
    case OnClose =>
  }

  /** Only `tryWrite` data can fill the window without a `write` at work. */
  lemma FullWindowIsTryWrites(c: Controller)
    requires Inv(c) && c.waiting == []
    ensures forall p <- c.inflight :: !p.byRequest
    ensures OnlyWrites(c) ==> c.owned == 0 && c.inflight == []
  {
    forall p <- c.inflight ensures !p.byRequest {
      var i :| 0 <= i < |c.inflight| && c.inflight[i] == p;
      assert PieceOk(c, c.inflight[i]);
    }
    if c.inflight != [] {
      assert c.inflight[0] in c.inflight;
    }
  }

  // ------------------------------------------------------------------- runs

  lemma {:induction false} RunsAreSettled(states: seq<Controller>, events: seq<Event>, k: nat)
    requires IsRun(states, events) && Inv(states[0]) && Settled(states[0]) && k <= |events|
    ensures Inv(states[k]) && Settled(states[k])
  {
    if k > 0 {
      RunsAreSettled(states, events, k - 1);
      assert Handles(states[k - 1], events[k - 1], states[k]);
      HandlesIsSteps(states[k - 1], events[k - 1], states[k]);
      LeadsSafely(states[k - 1], states[k]);
      StarvesExactly(states[k - 1], events[k - 1], states[k]);
    }
  }

  /** Between turns, an unfinished future has bytes in flight or a WRITABLE to
      wait for, unless writes were left behind. */
  lemma NotStarvingMeansProgress(c: Controller)
    requires Inv(c) && Settled(c) && !Starving(c)
    ensures forall n | 0 <= n < |c.outcomes| && c.outcomes[n].Waiting? :: c.blocked || c.inflight != []
  {
    if c.waiting != [] {
      WaitingHasProgress(c);
    }
  }

  lemma WaitingHasProgress(c: Controller)
    requires Shape(c) && Pieces(c) && Settled(c) && c.waiting != []
    ensures c.blocked || c.inflight != []
  {
    assert WaitingShape(c, c.waiting[0]);
  }

  /** Write-only runs: as long as no `tryWrite` is accepted, no write is ever
      left behind, so every unfinished one has bytes in flight or waits for
      WRITABLE. */
  lemma {:induction false} WritesAloneNeverStarve(states: seq<Controller>, events: seq<Event>, k: nat)
    requires IsRun(states, events) && Inv(states[0]) && Settled(states[0]) && k <= |events|
    requires OnlyWrites(states[0]) && !Starving(states[0])
    requires forall i | 0 <= i < |events| ::
               !(events[i].OnTryWrite? && events[i].bytes != [] && events[i].outcome == Result(Accepted))
    ensures OnlyWrites(states[k]) && !Starving(states[k])
    ensures forall n | 0 <= n < |states[k].outcomes| && states[k].outcomes[n].Waiting? ::
              states[k].blocked || states[k].inflight != []
  {
    RunsAreSettled(states, events, k);
    if k > 0 {
      WritesAloneNeverStarve(states, events, k - 1);
      RunsAreSettled(states, events, k - 1);
      var c, e, d := states[k - 1], events[k - 1], states[k];
      assert Handles(c, e, d);
      StarvesExactly(c, e, d);
      OnlyWritesStays(c, e, d);
      if c.waiting == [] {
        FullWindowIsTryWrites(c);
      }
    }
    NotStarvingMeansProgress(states[k]);
  }

  /** Turn i left writes behind and none up to k relieved them. */
  predicate LeftSince(states: seq<Controller>, events: seq<Event>, i: nat, k: nat)
    requires |states| == |events| + 1 && i < k <= |events|
  {
    LeavesBehind(states[i], events[i]) && forall j | i < j < k :: !Relieves(states[j], events[j])
  }

  predicate Left(states: seq<Controller>, events: seq<Event>, k: nat)
    requires |states| == |events| + 1 && k <= |events|
  {
    exists i: nat | i < k :: LeftSince(states, events, i, k)
  }

  lemma LeftOneMore(states: seq<Controller>, events: seq<Event>, k: nat)
    requires |states| == |events| + 1 && k < |events|
    ensures Left(states, events, k + 1) <==>
              LeavesBehind(states[k], events[k]) || (Left(states, events, k) && !Relieves(states[k], events[k]))
  {
    if Left(states, events, k + 1) {
      var i: nat :| i < k + 1 && LeftSince(states, events, i, k + 1);
      assert i < k ==> LeftSince(states, events, i, k);
    }
    if LeavesBehind(states[k], events[k]) {
      assert LeftSince(states, events, k, k + 1);
    }
    if Left(states, events, k) && !Relieves(states[k], events[k]) {
      var i: nat :| i < k && LeftSince(states, events, i, k);
      assert LeftSince(states, events, i, k + 1);
    }
  }

  predicate TurnStarves(states: seq<Controller>, events: seq<Event>, k: nat)
    requires |states| == |events| + 1 && k < |events|
  {
    Starving(states[k + 1]) <==>
      LeavesBehind(states[k], events[k]) || (Starving(states[k]) && !Relieves(states[k], events[k]))
  }

  lemma EveryTurnStarves(states: seq<Controller>, events: seq<Event>, k: nat)
    requires IsRun(states, events) && Inv(states[0]) && Settled(states[0]) && k < |events|
    ensures TurnStarves(states, events, k)
  {
    RunsAreSettled(states, events, k);
    StarvesExactly(states[k], events[k], states[k + 1]);
  }

  lemma {:induction false} TurnsAddUp(states: seq<Controller>, events: seq<Event>, k: nat)
    requires |states| == |events| + 1 && k <= |events| && !Starving(states[0])
    requires forall i | 0 <= i < |events| :: TurnStarves(states, events, i)
    ensures Starving(states[k]) <==> Left(states, events, k)
  {
    if k > 0 {
      TurnsAddUp(states, events, k - 1);
      LeftOneMore(states, events, k - 1);
      assert TurnStarves(states, events, k - 1);
    }
  }

  /** In every run writes are left behind exactly if some `write` found the
      window full of `tryWrite` data and nothing has relieved them since. */
  lemma StarvingRuns(states: seq<Controller>, events: seq<Event>, k: nat)
    requires IsRun(states, events) && Inv(states[0]) && Settled(states[0]) && !Starving(states[0]) && k <= |events|
    ensures Starving(states[k]) <==> Left(states, events, k)
  {
    forall i | 0 <= i < |events| ensures TurnStarves(states, events, i) {
      EveryTurnStarves(states, events, i);
    }
    TurnsAddUp(states, events, k);
  }

  /** Left behind with nothing in flight, they stay so until the next `write`
      or the end. */
  lemma StarvedStays(c: Controller, e: Event, d: Controller)
    requires Inv(c) && Settled(c) && Starving(c) && c.inflight == [] && Handles(c, e, d)
    requires !(e.OnWrite? && e.data != []) && !e.OnClose?
    ensures Starving(d) && d.inflight == [] && d.outcomes == c.outcomes && d.sent == c.sent
  {
    match e
    case OnWrite(data) =>
    case OnTryWrite(bytes, outcome) =>
    case OnComplete(id) =>
    case OnWritable => PumpKeeps(c.(blocked := false), d);
    case OnClose =>
  }

  lemma {:induction false} StarvedUntilNextWrite(states: seq<Controller>, events: seq<Event>, k: nat)
    requires IsRun(states, events) && Inv(states[0]) && Settled(states[0]) && k <= |events|
    requires Starving(states[0]) && states[0].inflight == []
    requires forall i | 0 <= i < |events| :: !(events[i].OnWrite? && events[i].data != []) && !events[i].OnClose?
    ensures Starving(states[k]) && states[k].inflight == []
    ensures states[k].outcomes == states[0].outcomes && states[k].sent == states[0].sent
  {
    if k > 0 {
      StarvedUntilNextWrite(states, events, k - 1);
      RunsAreSettled(states, events, k - 1);
      assert Handles(states[k - 1], events[k - 1], states[k]);
      StarvedStays(states[k - 1], events[k - 1], states[k]);
    }
  }

  function FullWindow(b: Byte): Controller {
    Tried(Initial(1, 1), [b], Accepted)
  }

  lemma QueuedBehind(b: Byte)
    ensures Handles(Initial(1, 1), OnTryWrite([b], Result(Accepted)), FullWindow(b))
    ensures Handles(FullWindow(b), OnWrite([b]), Submitted(FullWindow(b), [b]))
  {
    assert Enabled(Initial(1, 1), TryWrite([b], Accepted));
    assert !Enabled(Submitted(FullWindow(b), [b]), Admit);
  }

  lemma NothingStarts(b: Byte)
    ensures var c := Submitted(FullWindow(b), [b]);
            var d := Completed(c, 1);
            Handles(c, OnComplete(1), d) && Starving(d) && d.inflight == [] && d.outcomes == [Done, Waiting] && !d.blocked
  {
    var c := Submitted(FullWindow(b), [b]);
    var d := Completed(c, 1);
    assert c.inflight == [Piece(1, 0, false, 1, 1)];
    assert IndexOf(c.inflight, 1) == 0;
    assert d.inflight == [] && d.outcomes == [Done, Waiting];
    OfferingStarts(d);
    assert PumpedTo(d, d);
  }

  /** It happens: a `tryWrite` fills a window of one byte, a `write` is queued
      behind it, and the completion of the former starts nothing. */
  lemma AWriteIsLeftBehind(b: Byte)
    ensures exists states: seq<Controller>, events: seq<Event> :: IsRun(states, events) && states[0] == Initial(1, 1)
                && |events| == 3 && Starving(states[3]) && states[3].inflight == []
                && states[3].outcomes == [Done, Waiting] && !states[3].blocked
  {
    var c := FullWindow(b);
    var states := [Initial(1, 1), c, Submitted(c, [b]), Completed(Submitted(c, [b]), 1)];
    var events := [OnTryWrite([b], Result(Accepted)), OnWrite([b]), OnComplete(1)];
    QueuedBehind(b);
    NothingStarts(b);
    assert IsRun(states, events);
    assert Starving(states[3]);
  }
}
