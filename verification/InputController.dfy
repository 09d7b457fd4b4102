/** The Dart input flow controller: requests, completers and pieces in flight as
    objects, each method a run of the small steps of InputSpec. */
module InputController {
  import opened Wrappers
  import opened QueueSpec
  import opened InputSpec
  import opened InputHandlers

  /** A future's completer; completing it twice would throw. */
  class Completer {
    ghost const number: nat
    var outcome: Outcome

    constructor (ghost number: nat)
      ensures this.number == number && outcome == Waiting
    {
      this.number, outcome := number, Waiting;
    }

    method Finish(how: Outcome)
      requires outcome == Waiting
      modifies this
      ensures outcome == how
    {
      outcome := how;
    }
  }

  class WriteRequest {
    const data: seq<Byte>
    const completer: Completer
    var offset: nat
    var inflightBytes: int
    var retryRequestId: Option<nat>

    constructor (data: seq<Byte>, completer: Completer)
      ensures this.data == data && this.completer == completer
      ensures offset == inflightBytes == 0 && retryRequestId == None
    {
      this.data, this.completer := data, completer;
      offset, inflightBytes, retryRequestId := 0, 0, None;
    }
  }

  class PendingWrite {
    const id: nat
    const bytes: nat
    const request: WriteRequest?
    const completer: Completer

    constructor (id: nat, bytes: nat, request: WriteRequest?, completer: Completer)
      ensures this.id == id && this.bytes == bytes && this.request == request && this.completer == completer
    {
      this.id, this.bytes, this.request, this.completer := id, bytes, request, completer;
    }
  }

  /** pty_session_try_write as the isolate sees it; it may answer anything. */
  class NativeInput {
    ghost var accepted: seq<Byte>

    constructor ()
      ensures accepted == []
    {
      accepted := [];
    }

    method TryWrite(id: nat, bytes: seq<Byte>) returns (result: WriteResult)
      modifies this
      ensures accepted == if result.Accepted? then old(accepted) + bytes else old(accepted)
    {
      result := *;
      if result.Accepted? {
        accepted := accepted + bytes;
      }
    }
  }

  /** How `write` can start; Refused throws PtyClosedException. */
  datatype WriteStart = Refused | NothingToDo | Started(future: Completer)

  function Min(x: int, y: int): int {
    if x < y then x else y
  }

  class InputFlowController {
    const native: NativeInput
    const maxChunkSize: nat
    const maxPendingBytes: nat
    var admissions: seq<WriteRequest>
    var waiting: seq<WriteRequest>
    /** Keyed by id, in insertion order. */
    var inflight: seq<PendingWrite>
    var nextRequestId: nat
    var ownedPendingBytes: int
    var waitingForWritable: bool
    var closed: bool
    /** What all this stands for. */
    ghost var ctl: Controller
    ghost var completers: seq<Completer>
    ghost var objects: set<object>

    ghost predicate RequestIs(r: WriteRequest, v: Request)
      reads this, objects
    {
      && r in objects && r.data == v.data && r.offset == v.offset && r.inflightBytes == v.inflight
      && r.retryRequestId == v.retry && v.future < |completers| && r.completer == completers[v.future]
    }

    ghost predicate PendingIs(p: PendingWrite, v: Piece)
      reads this
    {
      && p.id == v.id && p.bytes == v.size
      && (if v.byRequest then waiting != [] && p.request == waiting[0]
          else p.request == null && v.future < |completers| && p.completer == completers[v.future])
    }

    /** Completer n is that of submission n, so no two are the same. */
    ghost predicate CompletersAre(outcomes: seq<Outcome>)
      reads this, objects
    {
      && |completers| == |outcomes|
      && (forall n | 0 <= n < |completers| :: completers[n] in objects && completers[n].number == n)
      && (forall n | 0 <= n < |completers| :: completers[n].outcome == outcomes[n])
    }

    ghost predicate CompletersStand()
      reads this, objects
    {
      CompletersAre(ctl.outcomes)
    }

    ghost predicate RequestsStand()
      reads this, objects
    {
      && |admissions| == |ctl.admissions| && |waiting| == |ctl.waiting|
      && (forall i | 0 <= i < |admissions| :: RequestIs(admissions[i], ctl.admissions[i]))
      && (forall i | 0 <= i < |waiting| :: RequestIs(waiting[i], ctl.waiting[i]))
    }

    ghost predicate PiecesStand()
      reads this
    {
      && |inflight| == |ctl.inflight|
      && forall i | 0 <= i < |inflight| :: PendingIs(inflight[i], ctl.inflight[i])
    }

    ghost predicate ScalarsStand()
      reads this, native
    {
      && maxChunkSize == ctl.maxChunk && maxPendingBytes == ctl.maxPending
      && nextRequestId == ctl.nextId && ownedPendingBytes == ctl.owned
      && waitingForWritable == ctl.blocked && closed == ctl.closed && native.accepted == ctl.sent
    }

    ghost predicate Stands()
      reads this, objects, native
    {
      CompletersStand() && RequestsStand() && PiecesStand() && ScalarsStand() && native !in objects
    }

    ghost predicate Valid()
      reads this, objects, native
    {
      && Stands() && maxChunkSize > 0 && maxPendingBytes > 0
      && Leads(Initial(maxChunkSize, maxPendingBytes), ctl)
    }

    lemma InvHolds()
      requires maxChunkSize > 0 && maxPendingBytes > 0 && Leads(Initial(maxChunkSize, maxPendingBytes), ctl)
      ensures Inv(ctl)
    {
      LeadsSafely(Initial(maxChunkSize, maxPendingBytes), ctl);
    }

    /** Between turns nothing is left to offer. */
    ghost predicate AtRest()
      reads this
    {
      Settled(ctl)
    }

    lemma LengthsMatch()
      requires maxChunkSize > 0 && maxPendingBytes > 0 && Leads(Initial(maxChunkSize, maxPendingBytes), ctl)
      ensures |ctl.outcomes| == |ctl.data|
    {
      InvHolds();
    }

    constructor (native: NativeInput, maxChunkSize: nat, maxPendingBytes: nat)
      requires native.accepted == [] && maxChunkSize > 0 && maxPendingBytes > 0
      ensures Valid() && AtRest() && this.native == native && objects == {} && !closed
      ensures this.maxChunkSize == maxChunkSize && this.maxPendingBytes == maxPendingBytes
      ensures ctl == Initial(maxChunkSize, maxPendingBytes)
    {
      this.native, this.maxChunkSize, this.maxPendingBytes := native, maxChunkSize, maxPendingBytes;
      admissions, waiting, inflight := [], [], [];
      nextRequestId, ownedPendingBytes, waitingForWritable, closed := 1, 0, false, false;
      ctl := Initial(maxChunkSize, maxPendingBytes);
      LeadsNowhere(Initial(maxChunkSize, maxPendingBytes));
      completers, objects := [], {};
    }

    /** One more step of the run. */
    ghost method Take(step: Step)
      requires Leads(Initial(maxChunkSize, maxPendingBytes), ctl) && Enabled(ctl, step)
      modifies this`ctl
      ensures ctl == Next(old(ctl), step)
      ensures Leads(Initial(maxChunkSize, maxPendingBytes), ctl)
    {
      LeadsOn(Initial(maxChunkSize, maxPendingBytes), ctl, step);
      ctl := Next(ctl, step);
    }

    /** A completer for the next submission. */
    method NewFuture() returns (future: Completer)
      requires CompletersStand() && RequestsStand() && PiecesStand() && native !in objects
      modifies this`completers, this`objects
      ensures CompletersAre(ctl.outcomes + [Waiting]) && RequestsStand() && PiecesStand() && native !in objects
      ensures fresh(future) && future in objects && completers == old(completers) + [future]
      ensures fresh(objects - old(objects)) && old(objects) <= objects
    {
      future := new Completer(|completers|);
      completers := completers + [future];
      objects := objects + {future};
    }

    /** Queues a request with a new future. */
    method Enqueue(bytes: seq<Byte>) returns (future: Completer)
      requires Valid() && !closed && bytes != []
      modifies this
      ensures Valid() && fresh(objects - old(objects)) && old(objects) <= objects
      ensures ctl == Submitted(old(ctl), bytes)
      ensures future in objects && fresh(future) && completers == old(completers) + [future]
      ensures waiting == old(waiting) && inflight == old(inflight) && |admissions| == |old(admissions)| + 1
    {
      LengthsMatch();
      future := NewFuture();
      LeadsOn(Initial(maxChunkSize, maxPendingBytes), ctl, Submit(bytes));
      QueueRequest(bytes, future);
    }

    method QueueRequest(bytes: seq<Byte>, future: Completer)
      requires CompletersAre(ctl.outcomes + [Waiting]) && RequestsStand() && PiecesStand() && ScalarsStand()
      requires native !in objects && |ctl.outcomes| == |ctl.data| && completers[|ctl.data|] == future
      modifies this`admissions, this`objects, this`ctl
      ensures Stands() && ctl == Submitted(old(ctl), bytes)
      ensures fresh(objects - old(objects)) && old(objects) <= objects && |admissions| == |old(admissions)| + 1
    {
      var request := new WriteRequest(bytes, future);
      objects := objects + {request};
      admissions := admissions + [request];
      ctl := Submitted(ctl, bytes);
    }

    /** Makes the first queued request the waiting one. */
    method AdmitFirst()
      requires Valid() && Enabled(ctl, Admit)
      modifies this`ctl, this`admissions, this`waiting
      ensures Valid() && ctl == Next(old(ctl), Admit)
      ensures waiting == [old(admissions)[0]] && admissions == old(admissions)[1..]
    {
      InvHolds();
      NoRequestsInFlight();
      Take(Admit);
      waiting := [admissions[0]];
      admissions := admissions[1..];
    }

    /** Without a waiting request only tryWrite pieces are in flight. */
    lemma NoRequestsInFlight()
      requires Inv(ctl)
      ensures forall i | 0 <= i < |ctl.inflight| && ctl.inflight[i].byRequest :: ctl.waiting != []
    {
      forall i | 0 <= i < |ctl.inflight| && ctl.inflight[i].byRequest ensures ctl.waiting != [] {
        assert PieceOk(ctl, ctl.inflight[i]);
      }
    }

    /** The futures of these submissions have failed if they were open. */
    ghost predicate FailedAre(failed: set<nat>)
      reads this, objects
    {
      && |completers| == |ctl.outcomes|
      && (forall n | 0 <= n < |completers| :: completers[n] in objects && completers[n].number == n)
      && (forall n | 0 <= n < |completers| ::
            completers[n].outcome == if n in failed && ctl.outcomes[n].Waiting? then Errored else ctl.outcomes[n])
    }

    method FailIfOpen(completer: Completer, ghost failed: set<nat>) returns (ghost failed': set<nat>)
      requires FailedAre(failed)
      requires completer.number < |completers| && completers[completer.number] == completer
      modifies completer
      ensures failed' == failed + {completer.number} && FailedAre(failed')
    {
      failed' := failed + {completer.number};
      if completer.outcome.Waiting? {
        completer.Finish(Errored);
      }
    }

    method FailRequests(requests: seq<WriteRequest>, ghost futures: seq<Request>, ghost failed: set<nat>)
      returns (ghost failed': set<nat>)
      requires FailedAre(failed) && |requests| == |futures|
      requires forall i | 0 <= i < |requests| :: RequestIs(requests[i], futures[i])
      modifies completers
      ensures FailedAre(failed') && failed <= failed' && forall r <- futures :: r.future in failed'
    {
      failed' := failed;
      for i := 0 to |requests|
        invariant FailedAre(failed') && failed <= failed'
        invariant forall j | 0 <= j < i :: futures[j].future in failed'
        invariant forall j | 0 <= j < |requests| :: RequestIs(requests[j], futures[j])
      {
        assert RequestIs(requests[i], futures[i]);
        failed' := FailIfOpen(requests[i].completer, failed');
      }
    }

    method FailPieces(ghost failed: set<nat>) returns (ghost failed': set<nat>)
      requires FailedAre(failed) && PiecesStand()
      modifies completers
      ensures FailedAre(failed') && failed <= failed'
      ensures forall p <- ctl.inflight | !p.byRequest :: p.future in failed'
    {
      failed' := failed;
      for i := 0 to |inflight|
        invariant FailedAre(failed') && failed <= failed'
        invariant forall j | 0 <= j < i && !ctl.inflight[j].byRequest :: ctl.inflight[j].future in failed'
      {
        assert PendingIs(inflight[i], ctl.inflight[i]);
        if inflight[i].request == null {
          failed' := FailIfOpen(inflight[i].completer, failed');
        }
      }
    }

    method FailAll() returns (ghost failed: set<nat>)
      requires Stands()
      requires forall n | 0 <= n < |ctl.outcomes| && ctl.outcomes[n].Waiting? :: Owed(ctl, n)
      modifies this`admissions, completers
      ensures FailedAre(failed) && forall n | 0 <= n < |ctl.outcomes| && ctl.outcomes[n].Waiting? :: n in failed
      ensures admissions == []
    {
      failed := FailRequests(admissions, ctl.admissions, {});
      admissions := [];
      failed := FailRequests(waiting, ctl.waiting, failed);
      failed := FailPieces(failed);
    }

    /** Fails every future still open and forgets everything. */
    method Shut()
      requires Stands() && !closed
      requires forall n | 0 <= n < |ctl.outcomes| && ctl.outcomes[n].Waiting? :: Owed(ctl, n)
      modifies this, completers
      ensures Stands() && ctl == Closing(old(ctl)) && completers == old(completers) && objects == old(objects)
    {
      ghost var failed := FailAll();
      closed := true;
      waiting, inflight, ownedPendingBytes := [], [], 0;
      ctl := Closing(ctl);
    }

    method CloseWithError()
      requires Valid()
      modifies this, completers
      ensures Valid() && Handles(old(ctl), OnClose, ctl) && completers == old(completers) && objects == old(objects)
    {
      if closed {
        return;
      }
      InvCovers();
      LeadsOn(Initial(maxChunkSize, maxPendingBytes), ctl, Close);
      Shut();
    }

    /** What an offer may rely on. */
    lemma OfferFacts()
      requires Valid() && Enabled(ctl, Offer(Accepted))
      ensures |ctl.waiting| == 1 && 0 < ChunkLength(ctl, ctl.waiting[0]) <= |ctl.waiting[0].data| - ctl.waiting[0].offset
      ensures waiting[0] !in admissions
      ensures forall n | 0 <= n < |ctl.outcomes| && ctl.outcomes[n].Waiting? :: Owed(ctl, n)
    {
      InvHolds();
      InvCovers();
      forall i | 0 <= i < |admissions| ensures admissions[i] != waiting[0] {
        assert RequestIs(admissions[i], ctl.admissions[i]) && RequestIs(waiting[0], ctl.waiting[0]);
        assert ctl.admissions[i].future != ctl.waiting[0].future;
      }
    }

    /** The waiting request's number for this chunk, kept over retries. */
    method ChooseId(request: WriteRequest) returns (id: nat)
      requires Stands() && waiting == [request] && request !in admissions
      modifies this`nextRequestId, this`ctl, request`retryRequestId
      ensures Stands() && id == OfferId(old(ctl), old(ctl).waiting[0])
      ensures ctl == Chosen(old(ctl))
    {
      assert RequestIs(request, ctl.waiting[0]);
      if request.retryRequestId.None? {
        request.retryRequestId := Some(nextRequestId);
        nextRequestId := nextRequestId + 1;
      }
      id := request.retryRequestId.value;
      ctl := Chosen(ctl);
    }

    /** The native side took `length` bytes of the waiting request. */
    method Accept(request: WriteRequest, id: nat, length: nat, ghost before: Controller)
      requires CompletersStand() && RequestsStand() && PiecesStand() && native !in objects
      requires maxChunkSize == ctl.maxChunk && maxPendingBytes == ctl.maxPending && nextRequestId == ctl.nextId
      requires ownedPendingBytes == ctl.owned && waitingForWritable == ctl.blocked && closed == ctl.closed
      requires waiting == [request] && request !in admissions && Enabled(before, Offer(Accepted))
      requires ctl == Chosen(before) && id == OfferId(before, before.waiting[0])
      requires 0 < length == ChunkLength(before, before.waiting[0]) <= |before.waiting[0].data| - before.waiting[0].offset
      requires native.accepted == before.sent + before.waiting[0].data[before.waiting[0].offset..][..length]
      modifies this`ownedPendingBytes, this`inflight, this`ctl, request
      ensures Stands() && ctl == Offered(before, Accepted) && inflight != []
    {
      assert RequestIs(request, ctl.waiting[0]);
      request.retryRequestId := None;
      request.offset := request.offset + length;
      request.inflightBytes := request.inflightBytes + length;
      ownedPendingBytes := ownedPendingBytes + length;
      var unused := new Completer(0);
      var pending := new PendingWrite(id, length, request, unused);
      inflight := inflight + [pending];
      ctl := Offered(before, Accepted);
    }

    method NextChunk(request: WriteRequest) returns (chunk: seq<Byte>)
      requires ScalarsStand() && waiting == [request] && |ctl.waiting| == 1 && RequestIs(request, ctl.waiting[0])
      requires 0 < ChunkLength(ctl, ctl.waiting[0]) <= |request.data| - request.offset
      ensures chunk == request.data[request.offset..][..ChunkLength(ctl, ctl.waiting[0])]
    {
      var available := maxPendingBytes - ownedPendingBytes;
      var end := Min(request.offset + maxChunkSize, Min(|request.data|, request.offset + available));
      chunk := request.data[request.offset..end];
    }

    /** Offers the next chunk of the waiting request, one more since `start`. */
    method OfferChunk(ghost start: Controller) returns (result: WriteResult)
      requires Valid() && Enabled(ctl, Offer(Accepted)) && Offering(start, ctl)
      modifies this, objects, native
      ensures Valid() && Offering(start, ctl)
      ensures if result.Accepted? then !closed && !waitingForWritable && ChunkTaken(old(ctl), ctl)
              else closed || waitingForWritable
      ensures completers == old(completers) && objects == old(objects)
      ensures !closed ==> waiting == old(waiting) && admissions == old(admissions)
    {
      OfferFacts();
      ghost var before := ctl;
      result := OfferTo(waiting[0]);
      LeadsOn(Initial(maxChunkSize, maxPendingBytes), before, Offer(result));
      OfferingGoesOn(start, before, result);
    }

    /** An accepted offer brings the waiting request forward. */
    ghost predicate ChunkTaken(c: Controller, d: Controller) {
      && c.waiting != [] && d.waiting != [] && d.waiting[0].data == c.waiting[0].data
      && c.waiting[0].offset < d.waiting[0].offset <= |d.waiting[0].data|
    }

    method OfferTo(request: WriteRequest) returns (result: WriteResult)
      requires Stands() && Enabled(ctl, Offer(Accepted)) && waiting == [request] && request !in admissions
      requires 0 < ChunkLength(ctl, ctl.waiting[0]) <= |ctl.waiting[0].data| - ctl.waiting[0].offset
      requires forall n | 0 <= n < |ctl.outcomes| && ctl.outcomes[n].Waiting? :: Owed(ctl, n)
      modifies this, objects, native
      ensures Stands() && ctl == Offered(old(ctl), result)
      ensures completers == old(completers) && objects == old(objects)
      ensures result.Accepted? ==> inflight != []
      ensures result.Accepted? || result.Backpressured? ==> waiting == old(waiting) && admissions == old(admissions)
    {
      ghost var before := ctl;
      assert RequestIs(request, ctl.waiting[0]);
      var chunk := NextChunk(request);
      var id := ChooseId(request);
      result := native.TryWrite(id, chunk);
      if result.Accepted? {
        Accept(request, id, |chunk|, before);
      } else {
        Refuse(result, before);
      }
    }

    /** The native side is full, or closed. */
    method Refuse(result: WriteResult, ghost before: Controller)
      requires Stands() && !closed && !result.Accepted?
      requires Enabled(before, Offer(Accepted)) && ctl == Chosen(before)
      requires forall n | 0 <= n < |ctl.outcomes| && ctl.outcomes[n].Waiting? :: Owed(ctl, n)
      modifies this, completers
      ensures Stands() && ctl == Offered(before, result)
      ensures completers == old(completers) && objects == old(objects)
      ensures result.Backpressured? ==> waiting == old(waiting) && admissions == old(admissions)
    {
      if result.Backpressured? {
        waitingForWritable := true;
        ctl := Offered(before, result);
      } else {
        Shut();
      }
    }

    /** The waiting request, as Pump finds it. */
    lemma WaitingFacts()
      requires Valid() && waiting != []
      ensures !closed && |waiting| == |ctl.waiting| == 1 && RequestIs(waiting[0], ctl.waiting[0])
      ensures waiting[0].offset <= |waiting[0].data| && ownedPendingBytes <= maxPendingBytes
      ensures waiting[0].offset == |waiting[0].data| ==> waiting[0].inflightBytes > 0 && inflight != []
      ensures ownedPendingBytes == maxPendingBytes ==> inflight != []
    {
      InvHolds();
      assert RequestIs(waiting[0], ctl.waiting[0]);
    }

    lemma ClosedIsEmpty()
      requires Valid()
      ensures closed ==> admissions == waiting == [] && inflight == []
    {
      InvHolds();
    }

    /** Offers chunks of the waiting request until it is done, the window is
        full or the native side wants to be left alone. */
    method Pump()
      requires Valid()
      modifies this, objects, native
      ensures Valid() && PumpedTo(old(ctl), ctl)
      ensures completers == old(completers) && objects == old(objects)
      ensures if closed then admissions == waiting == [] else waiting == old(waiting) && admissions == old(admissions)
    {
      OfferingStarts(ctl);
      ClosedIsEmpty();
      if closed || waitingForWritable {
        return;
      }
      while waiting != []
        invariant Valid() && Offering(old(ctl), ctl) && !closed && !waitingForWritable
        invariant completers == old(completers) && objects == old(objects)
        invariant waiting == old(waiting) && admissions == old(admissions)
        decreases if waiting == [] then 0 else |waiting[0].data| - waiting[0].offset
      {
        WaitingFacts();
        var request := waiting[0];
        if request.offset >= |request.data| {
          if request.inflightBytes == 0 {
            assert false;
          }
          return;
        }
        if maxPendingBytes - ownedPendingBytes == 0 {
          return;
        }
        var result := OfferChunk(old(ctl));
        ClosedIsEmpty();
        if !result.Accepted? {
          return;
        }
        WaitingFacts();
      }
    }

    /** Starts queued requests while the window is open; one is enough to fill
        what there is to fill. */
    method PumpAdmissions()
      requires Valid() && AtRest()
      modifies this, objects, native
      ensures Valid() && AtRest() && AdmitsTo(old(ctl), ctl)
      ensures completers == old(completers) && objects == old(objects)
    {
      if closed {
        return;
      }
      while admissions != []
        invariant Valid() && AtRest() && completers == old(completers) && objects == old(objects)
        invariant if closed then admissions == [] && AdmitsTo(old(ctl), ctl) else ctl == old(ctl)
        decreases |admissions|
      {
        var request := admissions[0];
        if waiting != [] || ownedPendingBytes >= maxPendingBytes {
          return;
        }
        AdmitFirst();
        Pump();
        if waiting != [] && waiting[0] == request {
          return;
        }
      }
    }

    /** `write`: queues the data and starts it if the window is open. */
    method Write(data: seq<Byte>) returns (start: WriteStart)
      requires Valid() && AtRest()
      modifies this, objects, native
      ensures Valid() && AtRest() && fresh(objects - old(objects))
      ensures start.Refused? <==> old(closed)
      ensures start.NothingToDo? <==> !old(closed) && data == []
      ensures Handles(old(ctl), OnWrite(data), ctl)
      ensures completers == if start.Started? then old(completers) + [start.future] else old(completers)
    {
      if closed {
        return Refused;
      }
      if data == [] {
        return NothingToDo;
      }
      var future := Enqueue(data);
      PumpAdmissions();
      start := Started(future);
    }

    /** `tryWrite`: offers the data at once or not at all. */
    method TryWrite(data: seq<Byte>) returns (outcome: TryResult)
      requires Valid() && AtRest()
      modifies this, objects, native
      ensures Valid() && AtRest() && fresh(objects - old(objects))
      ensures Handles(old(ctl), OnTryWrite(data, outcome), ctl)
    {
      if closed {
        return Result(Closed);
      }
      if data == [] {
        return Result(Accepted);
      }
      if |data| > maxChunkSize {
        return TooLong;
      }
      if admissions != [] || waiting != [] || waitingForWritable {
        return Result(Backpressured);
      }
      if |data| > maxPendingBytes - ownedPendingBytes {
        return Result(Backpressured);
      }
      var result := OfferData(data);
      outcome := Result(result);
    }

    /** The native part of `tryWrite`. */
    method OfferData(data: seq<Byte>) returns (result: WriteResult)
      requires Valid() && AtRest() && Enabled(ctl, Step.TryWrite(data, Accepted))
      modifies this, objects, native
      ensures Valid() && AtRest() && fresh(objects - old(objects)) && ctl == Tried(old(ctl), data, result)
    {
      ghost var before := ctl;
      LengthsMatch();
      InvCovers();
      var id := nextRequestId;
      nextRequestId := nextRequestId + 1;
      ctl := ctl.(nextId := ctl.nextId + 1);
      result := native.TryWrite(id, data);
      if result.Accepted? {
        Launch(id, data, before);
      } else if !result.Backpressured? {
        Shut();
      }
      LeadsOn(Initial(maxChunkSize, maxPendingBytes), before, Step.TryWrite(data, result));
    }

    /** Accepted data goes in flight with a future of its own. */
    method Launch(id: nat, data: seq<Byte>, ghost before: Controller)
      requires CompletersStand() && RequestsStand() && PiecesStand() && native !in objects
      requires maxChunkSize == ctl.maxChunk && maxPendingBytes == ctl.maxPending && nextRequestId == ctl.nextId
      requires ownedPendingBytes == ctl.owned && waitingForWritable == ctl.blocked && closed == ctl.closed
      requires native.accepted == before.sent + data && waiting == [] && |ctl.outcomes| == |ctl.data|
      requires id == before.nextId && ctl == before.(nextId := id + 1)
      modifies this`ownedPendingBytes, this`inflight, this`completers, this`objects, this`ctl
      ensures Stands() && ctl == Tried(before, data, Accepted) && fresh(objects - old(objects))
    {
      var future := NewFuture();
      ownedPendingBytes := ownedPendingBytes + |data|;
      var pending := new PendingWrite(id, |data|, null, future);
      inflight := inflight + [pending];
      ctl := Tried(before, data, Accepted);
    }

    lemma InvCovers()
      requires Valid()
      ensures forall n | 0 <= n < |ctl.outcomes| && ctl.outcomes[n].Waiting? :: Owed(ctl, n)
    {
      InvHolds();
      forall n | 0 <= n < |ctl.outcomes| && ctl.outcomes[n].Waiting? ensures Owed(ctl, n) {
        OutstandingIsOwed(ctl, n);
      }
    }

    /** Room was made natively. */
    method HandleWritable()
      requires Valid() && AtRest()
      modifies this, objects, native
      ensures Valid() && AtRest() && completers == old(completers) && objects == old(objects)
      ensures Handles(old(ctl), OnWritable, ctl)
    {
      if closed {
        return;
      }
      waitingForWritable := false;
      Take(Writable);
      Pump();
    }

    /** What WRITE_COMPLETE for a piece in flight may rely on. */
    lemma PieceFacts(i: nat)
      requires Valid() && i < |inflight|
      ensures PendingIs(inflight[i], ctl.inflight[i]) && IndexOf(ctl.inflight, inflight[i].id) == i
      ensures !closed && 0 < inflight[i].bytes && ownedPendingBytes <= maxPendingBytes && |ctl.waiting| <= 1
      ensures ctl.inflight[i].future < |completers|
      ensures !ctl.inflight[i].byRequest ==> inflight[i].completer.outcome == Waiting
      ensures ctl.inflight[i].byRequest ==>
                waiting == [inflight[i].request] && ctl.inflight[i].future == ctl.waiting[0].future
                && inflight[i].request.completer.outcome == Waiting && waiting[0] !in admissions
      ensures Finishes(ctl, ctl.inflight[i]) ==> forall p <- Without(ctl.inflight, i) :: !p.byRequest
    {
      InvHolds();
      assert PendingIs(inflight[i], ctl.inflight[i]) && PieceOk(ctl, ctl.inflight[i]);
      RemovedPieces(ctl, i);
      if ctl.inflight[i].byRequest {
        assert RequestIs(waiting[0], ctl.waiting[0]);
        assert Outstanding(ctl, ctl.waiting[0].future);
        forall k | 0 <= k < |admissions| ensures admissions[k] != waiting[0] {
          assert RequestIs(admissions[k], ctl.admissions[k]);
          assert ctl.admissions[k].future != ctl.waiting[0].future;
        }
      } else {
        assert Flying(ctl.inflight, ctl.inflight[i].future);
      }
    }

    lemma PiecesLeft(i: nat)
      requires PiecesStand() && i < |inflight|
      ensures forall k | 0 <= k < |inflight| - 1 :: PendingIs(Without(inflight, i)[k], Without(ctl.inflight, i)[k])
    {
    }

    /** A piece of a `tryWrite` is out. */
    method SettlePiece(pending: PendingWrite, i: nat)
      requires Valid() && i < |inflight| && pending == inflight[i] && pending.request == null
      modifies this`inflight, this`ownedPendingBytes, this`ctl, pending.completer
      ensures Stands() && ctl == Completed(old(ctl), pending.id)
    {
      PieceFacts(i);
      PiecesLeft(i);
      inflight := Without(inflight, i);
      ownedPendingBytes := ownedPendingBytes - pending.bytes;
      if pending.completer.outcome.Waiting? {
        pending.completer.Finish(Done);
      }
      ctl := Completed(ctl, pending.id);
    }

    method FinishRequest(request: WriteRequest)
      modifies this`waiting, request.completer
      ensures waiting == if old(waiting) != [] && old(waiting)[0] == request then old(waiting)[1..] else old(waiting)
      ensures request.completer.outcome == if old(request.completer.outcome).Waiting? then Done
                                           else old(request.completer.outcome)
    {
      if waiting != [] && waiting[0] == request {
        waiting := waiting[1..];
      }
      if request.completer.outcome.Waiting? {
        request.completer.Finish(Done);
      }
    }

    /** A piece of the waiting `write` is out, perhaps the last. */
    method CreditRequest(request: WriteRequest, pending: PendingWrite, i: nat) returns (finished: bool)
      requires Valid() && i < |inflight| && pending == inflight[i] && pending.request == request
      modifies this`waiting, this`inflight, this`ownedPendingBytes, this`ctl, request, request.completer
      ensures Stands() && ctl == Completed(old(ctl), pending.id)
      ensures waiting == if finished then [] else old(waiting)
      ensures finished ==> old(waiting) != []
    {
      PieceFacts(i);
      PiecesLeft(i);
      assert RequestIs(request, ctl.waiting[0]);
      inflight := Without(inflight, i);
      ownedPendingBytes := ownedPendingBytes - pending.bytes;
      request.inflightBytes := request.inflightBytes - pending.bytes;
      finished := request.offset >= |request.data| && request.inflightBytes == 0;
      if finished {
        FinishRequest(request);
      }
      ctl := Completed(ctl, pending.id);
    }

    /** The piece is out, and its future done if that was the last of it. */
    method RemovePiece(i: nat) returns (finished: bool)
      requires Valid() && i < |inflight|
      modifies this, objects
      ensures Valid() && ctl == Completed(old(ctl), old(inflight[i].id)) && ownedPendingBytes < maxPendingBytes
      ensures completers == old(completers) && objects == old(objects)
      ensures !closed && admissions == old(admissions) && waiting == if finished then [] else old(waiting)
      ensures finished ==> old(waiting) != []
    {
      var pending := inflight[i];
      PieceFacts(i);
      LeadsOn(Initial(maxChunkSize, maxPendingBytes), ctl, Complete(pending.id));
      finished := false;
      match pending.request {
        case null => SettlePiece(pending, i);
        case request => finished := CreditRequest(request, pending, i);
      }
    }

    function Lookup(pieces: seq<PendingWrite>, id: nat): (i: nat)
      ensures i <= |pieces| && (i < |pieces| ==> pieces[i].id == id)
    {
      if pieces == [] || pieces[0].id == id then 0 else Lookup(pieces[1..], id) + 1
    }

    lemma {:induction false} LookupMisses(pieces: seq<PendingWrite>, id: nat)
      requires Lookup(pieces, id) == |pieces|
      ensures forall k | 0 <= k < |pieces| :: pieces[k].id != id
    {
      if pieces != [] {
        LookupMisses(pieces[1..], id);
      }
    }

    /** WRITE_COMPLETE. A number that is not in flight is ignored; queued
        writes move on only after a `write` finished. */
    method HandleWriteComplete(requestId: nat)
      requires Valid() && AtRest()
      modifies this, objects, native
      ensures Valid() && AtRest() && completers == old(completers) && objects == old(objects)
      ensures Handles(old(ctl), OnComplete(requestId), ctl)
    {
      var i := Lookup(inflight, requestId);
      if i == |inflight| {
        LookupMisses(inflight, requestId);
        Unknown(requestId);
        return;
      }
      var finished := RemovePiece(i);
      if finished {
        PumpAdmissions();
      }
      Pump();
    }

    lemma Unknown(id: nat)
      requires PiecesStand() && forall k | 0 <= k < |inflight| :: inflight[k].id != id
      ensures Completed(ctl, id) == ctl
    {
      var i := IndexOf(ctl.inflight, id);
      assert i < |inflight| ==> PendingIs(inflight[i], ctl.inflight[i]);
    }

    /** A queued or waiting request's future is open. */
    lemma RequestsAreOpen()
      requires Valid()
      ensures forall i | 0 <= i < |admissions| :: IsOpen(admissions[i].completer)
      ensures forall i | 0 <= i < |waiting| :: IsOpen(waiting[i].completer)
      ensures forall i | 0 <= i < |inflight| && inflight[i].request == null :: IsOpen(inflight[i].completer)
    {
      InvHolds();
      forall i | 0 <= i < |admissions| ensures IsOpen(admissions[i].completer) {
        assert RequestIs(admissions[i], ctl.admissions[i]);
        assert Outstanding(ctl, ctl.admissions[i].future);
      }
      forall i | 0 <= i < |waiting| ensures IsOpen(waiting[i].completer) {
        assert RequestIs(waiting[i], ctl.waiting[i]);
        assert Outstanding(ctl, ctl.waiting[i].future);
      }
      forall i | 0 <= i < |inflight| && inflight[i].request == null ensures IsOpen(inflight[i].completer) {
        PieceFacts(i);
      }
    }

    ghost predicate IsOpen(future: Completer)
      reads this, objects
    {
      && future in objects && future.number < |completers| && completers[future.number] == future
      && future.outcome.Waiting?
    }

    /** `flush` waits for exactly the futures that are still open. */
    method Flush() returns (futures: seq<Completer>)
      requires Valid()
      ensures forall n | 0 <= n < |completers| :: completers[n].outcome.Waiting? <==> completers[n] in futures
      ensures forall f <- futures :: f in completers
    {
      RequestsAreOpen();
      futures := seq(|admissions|, i requires 0 <= i < |admissions| reads this => admissions[i].completer)
              + seq(|waiting|, i requires 0 <= i < |waiting| reads this => waiting[i].completer);
      ghost var requests := futures;
      assert forall i | 0 <= i < |admissions| :: requests[i] == admissions[i].completer;
      assert forall i | 0 <= i < |waiting| :: requests[|admissions| + i] == waiting[i].completer;
      for i := 0 to |inflight|
        invariant forall f <- futures :: IsOpen(f)
        invariant forall f <- requests :: f in futures
        invariant forall j | 0 <= j < i && inflight[j].request == null :: inflight[j].completer in futures
      {
        if inflight[i].request == null {
          futures := futures + [inflight[i].completer];
        }
      }
      AllAreListed(futures);
    }

    lemma AllAreListed(futures: seq<Completer>)
      requires Valid() && forall f <- futures :: IsOpen(f)
      requires forall i | 0 <= i < |admissions| :: admissions[i].completer in futures
      requires forall i | 0 <= i < |waiting| :: waiting[i].completer in futures
      requires forall i | 0 <= i < |inflight| && inflight[i].request == null :: inflight[i].completer in futures
      ensures forall n | 0 <= n < |completers| :: completers[n].outcome.Waiting? <==> completers[n] in futures
    {
      InvCovers();
      forall n | 0 <= n < |completers| && completers[n].outcome.Waiting? ensures completers[n] in futures {
        if r :| r in ctl.admissions && r.future == n {
          var i :| 0 <= i < |ctl.admissions| && ctl.admissions[i] == r;
          assert RequestIs(admissions[i], r);
        } else if r :| r in ctl.waiting && r.future == n {
          var i :| 0 <= i < |ctl.waiting| && ctl.waiting[i] == r;
          assert RequestIs(waiting[i], r);
        } else {
          assert Flying(ctl.inflight, n);
          var i :| 0 <= i < |ctl.inflight| && !ctl.inflight[i].byRequest && ctl.inflight[i].future == n;
          assert PendingIs(inflight[i], ctl.inflight[i]);
        }
      }
    }
  }
}