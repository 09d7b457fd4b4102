/** The Dart side of input as a value: what the controller holds, and the small
    steps its methods are made of. */
module InputSpec {
  import opened Wrappers
  import opened QueueSpec

  datatype Outcome = Waiting | Done | Errored

  /** A `write`: its future's number and what has been handed over. */
  datatype Request = Request(future: nat, data: seq<Byte>, offset: nat, inflight: int, retry: Option<nat>)

  /** Accepted natively, completion still to come; `end` is where it ends in the
      stream of everything submitted. */
  datatype Piece = Piece(id: nat, future: nat, byRequest: bool, end: nat, size: nat)

  /** Future number n belongs to the n-th submission, whose data is data[n].
      `sent` is what the native side accepted, and all of its first `acked`
      bytes were reported written. */
  datatype Controller = Controller(
    maxChunk: nat, maxPending: nat,
    data: seq<seq<Byte>>, outcomes: seq<Outcome>,
    admissions: seq<Request>, waiting: seq<Request>, inflight: seq<Piece>,
    owned: int, blocked: bool, closed: bool, nextId: nat,
    sent: seq<Byte>, acked: nat)

  datatype Step =
    | Submit(bytes: seq<Byte>)
    | TryWrite(bytes: seq<Byte>, result: WriteResult)
    | Admit
    | Offer(result: WriteResult)
    | Complete(id: nat)
    | Writable
    | Close

  function Stream(data: seq<seq<Byte>>): seq<Byte> {
    if data == [] then [] else data[0] + Stream(data[1..])
  }

  /** Where submission n starts and ends in the stream. */
  function Start(data: seq<seq<Byte>>, n: nat): nat
    requires n <= |data|
  {
    |Stream(data[..n])|
  }

  function Sizes(pieces: seq<Piece>): nat {
    if pieces == [] then 0 else pieces[0].size + Sizes(pieces[1..])
  }

  function RequestSizes(pieces: seq<Piece>): nat {
    if pieces == [] then 0
    else (if pieces[0].byRequest then pieces[0].size else 0) + RequestSizes(pieces[1..])
  }

  function IndexOf(pieces: seq<Piece>, id: nat): (i: nat)
    ensures i <= |pieces|
    ensures i < |pieces| ==> pieces[i].id == id
    ensures i == |pieces| ==> forall k | 0 <= k < |pieces| :: pieces[k].id != id
  {
    if pieces == [] || pieces[0].id == id then 0 else IndexOf(pieces[1..], id) + 1
  }

  function Settle(outcomes: seq<Outcome>, n: nat, outcome: Outcome): (r: seq<Outcome>)
    ensures |r| == |outcomes|
  {
    if n < |outcomes| && outcomes[n].Waiting? then outcomes[n := outcome] else outcomes
  }

  function FailAll(outcomes: seq<Outcome>): (r: seq<Outcome>)
    ensures |r| == |outcomes|
  {
    seq(|outcomes|, n requires 0 <= n < |outcomes| => if outcomes[n].Waiting? then Errored else outcomes[n])
  }

  function Closing(c: Controller): Controller {
    if c.closed then c
    else c.(closed := true, outcomes := FailAll(c.outcomes), admissions := [], waiting := [], inflight := [], owned := 0)
  }

  /** The piece `write` offers next. */
  function ChunkLength(c: Controller, r: Request): int {
    var available := c.maxPending - c.owned;
    var left := |r.data| - r.offset;
    var fits := if left < available then left else available;
    if c.maxChunk < fits then c.maxChunk else fits
  }

  function OfferId(c: Controller, r: Request): nat {
    if r.retry.Some? then r.retry.value else c.nextId
  }

  ghost predicate Enabled(c: Controller, step: Step) {
    match step
    case Submit(bytes) => !c.closed && bytes != []
    case TryWrite(bytes, _) =>
      && !c.closed && 0 < |bytes| <= c.maxChunk && c.admissions == [] && c.waiting == [] && !c.blocked
      && |bytes| <= c.maxPending - c.owned
    case Admit => !c.closed && c.admissions != [] && c.waiting == [] && c.owned < c.maxPending
    case Offer(_) =>
      && !c.closed && !c.blocked && c.waiting != [] && c.waiting[0].offset < |c.waiting[0].data|
      && c.owned < c.maxPending
    case Complete(_) => true
    case Writable => !c.closed
    case Close => true
  }

  function Submitted(c: Controller, bytes: seq<Byte>): Controller {
    c.(data := c.data + [bytes], outcomes := c.outcomes + [Waiting],
       admissions := c.admissions + [Request(|c.data|, bytes, 0, 0, None)])
  }

  function Tried(c: Controller, bytes: seq<Byte>, result: WriteResult): Controller {
    var c1 := c.(nextId := c.nextId + 1);
    match result
    case Accepted =>
      c1.(owned := c.owned + |bytes|, data := c.data + [bytes], outcomes := c.outcomes + [Waiting],
          sent := c.sent + bytes,
          inflight := c.inflight + [Piece(c.nextId, |c.data|, false, |c.sent| + |bytes|, |bytes|)])
    case Backpressured => c1
    case _ => Closing(c1)
  }

  /** The number a chunk is offered under stays with it until it is accepted. */
  function Chosen(c: Controller): Controller
    requires c.waiting != []
  {
    var r := c.waiting[0];
    c.(nextId := if r.retry.Some? then c.nextId else c.nextId + 1, waiting := [r.(retry := Some(OfferId(c, r)))])
  }

  ghost function Offered(c: Controller, result: WriteResult): Controller
    requires Enabled(c, Offer(result))
  {
    var r := c.waiting[0];
    var id := OfferId(c, r);
    var c1 := Chosen(c);
    match result
    case Accepted =>
      var n := if ChunkLength(c, r) < 0 then 0 else ChunkLength(c, r);
      c1.(waiting := [r.(retry := None, offset := r.offset + n, inflight := r.inflight + n)],
          owned := c.owned + n,
          sent := c.sent + r.data[r.offset..][..if n <= |r.data| - r.offset then n else 0],
          inflight := c.inflight + [Piece(id, r.future, true, |c.sent| + n, n)])
    case Backpressured => c1.(blocked := true)
    case _ => Closing(c1)
  }

  function Completed(c: Controller, id: nat): Controller {
    var i := IndexOf(c.inflight, id);
    if i == |c.inflight| then c
    else
      var p := c.inflight[i];
      var c1 := c.(inflight := Without(c.inflight, i), owned := c.owned - p.size,
                   acked := if c.acked < p.end then p.end else c.acked);
      if !p.byRequest then c1.(outcomes := Settle(c.outcomes, p.future, Done))
      else if c.waiting == [] then c1
      else
        var r := c.waiting[0].(inflight := c.waiting[0].inflight - p.size);
        if r.offset >= |r.data| && r.inflight == 0
        then c1.(waiting := c.waiting[1..], outcomes := Settle(c.outcomes, r.future, Done))
        else c1.(waiting := [r])
  }

  ghost function Next(c: Controller, step: Step): Controller
    requires Enabled(c, step)
  {
    match step
    case Submit(bytes) => Submitted(c, bytes)
    case TryWrite(bytes, result) => Tried(c, bytes, result)
    case Admit => c.(admissions := c.admissions[1..], waiting := [c.admissions[0]])
    case Offer(result) => Offered(c, result)
    case Complete(id) => Completed(c, id)
    case Writable => c.(blocked := false)
    case Close => Closing(c)
  }

  function Initial(maxChunk: nat, maxPending: nat): Controller {
    Controller(maxChunk, maxPending, [], [], [], [], [], 0, false, false, 1, [], 0)
  }

  // -------------------------------------------------------- the invariant

  /** The submissions not yet settled queue up at the end of the stream, at
      most one of them waiting for the native side. */
  predicate Shape(c: Controller) {
    && c.maxChunk > 0 && c.maxPending > 0 && |c.outcomes| == |c.data|
    && |c.waiting| <= 1 && |c.admissions| + |c.waiting| <= |c.data|
    && (forall i | 0 <= i < |c.admissions| ::
          c.admissions[i] == Request(FirstAdmission(c) + i, c.data[FirstAdmission(c) + i], 0, 0, None))
    && (c.waiting != [] ==> WaitingShape(c, c.waiting[0]))
    && (forall n | 0 <= n < |c.data| :: c.data[n] != [])
    && (c.closed ==> c.admissions == [] && c.waiting == [] && c.inflight == [])
  }

  predicate WaitingShape(c: Controller, r: Request)
    requires |c.admissions| + 1 <= |c.data|
  {
    && r.future == |c.data| - |c.admissions| - 1 && r.data == c.data[r.future] && r.offset <= |r.data|
    && r.inflight == RequestSizes(c.inflight) && (r.offset == |r.data| ==> r.inflight > 0)
    && (r.retry.Some? ==> r.retry.value + 1 == c.nextId && forall p <- c.inflight :: p.id < r.retry.value)
  }

  function FirstAdmission(c: Controller): (n: nat)
    requires |c.admissions| <= |c.data|
  {
    |c.data| - |c.admissions|
  }

  /** Numbers and ends grow along the pieces in flight; the ones of a `write`
      belong to the request that waits. */
  predicate Pieces(c: Controller)
    requires |c.outcomes| == |c.data|
  {
    && (forall i | 0 <= i < |c.inflight| :: PieceOk(c, c.inflight[i]))
    && Ordered(c.inflight)
    && Sizes(c.inflight) == c.owned <= c.maxPending
  }

  predicate Ordered(pieces: seq<Piece>) {
    forall i, j | 0 <= i < j < |pieces| :: pieces[i].id < pieces[j].id && pieces[i].end < pieces[j].end
  }

  predicate PieceOk(c: Controller, p: Piece)
    requires |c.outcomes| == |c.data|
  {
    && p.id < c.nextId && p.size > 0 && p.end <= |c.sent| && p.future < |c.data|
    && (if p.byRequest then c.waiting != [] && p.future == c.waiting[0].future
        else p.future + |c.admissions| + |c.waiting| < |c.data| && p.end == Start(c.data, p.future + 1))
  }

  predicate Indexed(c: Controller) {
    |c.admissions| <= |c.data| && (c.waiting != [] ==> c.waiting[0].future <= |c.data|)
  }

  /** How far the native side has the stream. */
  function Frontier(c: Controller): nat
    requires Indexed(c)
  {
    if c.waiting != [] then Start(c.data, c.waiting[0].future) + c.waiting[0].offset
    else Start(c.data, FirstAdmission(c))
  }

  predicate Flow(c: Controller)
    requires Indexed(c)
  {
    && c.sent <= Stream(c.data) && c.acked <= |c.sent|
    && (!c.closed ==> |c.sent| == Frontier(c))
    && (c.waiting != [] && c.waiting[0].offset > 0 && c.acked < |c.sent| ==>
          c.inflight != [] && c.inflight[|c.inflight| - 1].byRequest && c.inflight[|c.inflight| - 1].end == |c.sent|)
  }

  predicate Outstanding(c: Controller, n: nat) {
    || n + |c.admissions| + |c.waiting| >= |c.data|
    || Flying(c.inflight, n)
  }

  /** A piece of submission n is in flight that no `write` accounts for. */
  predicate Flying(pieces: seq<Piece>, n: nat) {
    exists p <- pieces :: !p.byRequest && p.future == n
  }

  /** Futures wait exactly while something of theirs is outstanding, and succeed
      only when the stream was reported written up to their end. */
  predicate Futures(c: Controller)
    requires Shape(c)
  {
    && (forall n | 0 <= n < |c.data| :: c.outcomes[n].Waiting? <==> Outstanding(c, n))
    && (forall n | 0 <= n < |c.data| && c.outcomes[n].Done? :: Start(c.data, n + 1) <= c.acked)
  }

  predicate Inv(c: Controller) {
    Shape(c) && Pieces(c) && Flow(c) && Futures(c)
  }

  // --------------------------------------------------------- its upkeep

  lemma {:induction false} StreamConcat(a: seq<seq<Byte>>, b: seq<seq<Byte>>)
    ensures Stream(a + b) == Stream(a) + Stream(b)
  {
    if a == [] {
      assert a + b == b;
    } else {
      assert (a + b)[1..] == a[1..] + b;
      StreamConcat(a[1..], b);
    }
  }

  lemma StreamOne(bytes: seq<Byte>)
    ensures Stream([bytes]) == bytes
  {
    assert [bytes][1..] == [];
  }

  /** A new submission goes to the end of the stream. */
  lemma StreamGrows(data: seq<seq<Byte>>, bytes: seq<Byte>)
    ensures Stream(data + [bytes]) == Stream(data) + bytes
    ensures forall n | 0 <= n <= |data| :: Start(data + [bytes], n) == Start(data, n)
    ensures Start(data, |data|) == |Stream(data)|
    ensures Start(data + [bytes], |data| + 1) == |Stream(data)| + |bytes|
  {
    assert data[..|data|] == data;
    assert (data + [bytes])[..|data| + 1] == data + [bytes];
    StreamConcat(data, [bytes]);
    StreamOne(bytes);
    forall n | 0 <= n <= |data| ensures (data + [bytes])[..n] == data[..n] {
    }
  }

  lemma StreamAt(data: seq<seq<Byte>>, n: nat)
    requires n < |data|
    ensures Start(data, n + 1) == Start(data, n) + |data[n]| <= |Stream(data)|
    ensures Stream(data)[Start(data, n)..Start(data, n + 1)] == data[n]
  {
    var front, back := data[..n], data[n + 1..];
    assert data[..n + 1] == front + [data[n]];
    assert data == (front + [data[n]]) + back;
    StreamConcat(front, [data[n]]);
    StreamConcat(front + [data[n]], back);
    StreamOne(data[n]);
  }

  lemma StartAfter(data: seq<seq<Byte>>, n: nat)
    requires n < |data|
    ensures Start(data, n + 1) == Start(data, n) + |data[n]|
  {
    StreamAt(data, n);
  }

  lemma {:induction false} StartMonotone(data: seq<seq<Byte>>, m: nat, n: nat)
    requires m <= n <= |data|
    ensures Start(data, m) <= Start(data, n) <= |Stream(data)|
  {
    assert data[..n] == data[..m] + data[m..n];
    StreamConcat(data[..m], data[m..n]);
    assert data == data[..n] + data[n..];
    StreamConcat(data[..n], data[n..]);
  }

  lemma NextBytes(stream: seq<Byte>, start: nat, data: seq<Byte>, sent: seq<Byte>, n: nat)
    requires start + |data| <= |stream| && stream[start..start + |data|] == data
    requires sent <= stream && start <= |sent| && |sent| + n <= start + |data|
    ensures sent + data[|sent| - start..][..n] <= stream
  {
    assert data[|sent| - start..][..n] == stream[|sent|..|sent| + n];
    assert sent + stream[|sent|..|sent| + n] == stream[..|sent| + n];
  }

  lemma {:induction false} SizesConcat(a: seq<Piece>, b: seq<Piece>)
    ensures Sizes(a + b) == Sizes(a) + Sizes(b)
    ensures RequestSizes(a + b) == RequestSizes(a) + RequestSizes(b)
  {
    if a == [] {
      assert a + b == b;
    } else {
      assert (a + b)[1..] == a[1..] + b;
      SizesConcat(a[1..], b);
    }
  }

  lemma {:induction false} SizesGrow(pieces: seq<Piece>, p: Piece)
    ensures Sizes(pieces + [p]) == Sizes(pieces) + p.size
    ensures RequestSizes(pieces + [p]) == RequestSizes(pieces) + if p.byRequest then p.size else 0
  {
    SizesConcat(pieces, [p]);
    assert [p][1..] == [];
  }

  lemma {:induction false} SizesShrink(pieces: seq<Piece>, i: nat)
    requires i < |pieces|
    ensures Sizes(pieces) == Sizes(Without(pieces, i)) + pieces[i].size
    ensures RequestSizes(pieces) == RequestSizes(Without(pieces, i)) + if pieces[i].byRequest then pieces[i].size else 0
  {
    var front, back := pieces[..i], pieces[i + 1..];
    assert pieces == (front + [pieces[i]]) + back;
    SizesGrow(front, pieces[i]);
    SizesConcat(front + [pieces[i]], back);
    SizesConcat(front, back);
  }

  lemma {:induction false} NoRequestPieces(pieces: seq<Piece>)
    requires RequestSizes(pieces) == 0 && forall p <- pieces :: p.size > 0
    ensures forall p <- pieces :: !p.byRequest
  {
    if pieces != [] {
      NoRequestPieces(pieces[1..]);
      assert pieces == [pieces[0]] + pieces[1..];
    }
  }

  lemma {:induction false} NoRequestSizes(pieces: seq<Piece>)
    requires forall p <- pieces :: !p.byRequest
    ensures RequestSizes(pieces) == 0
  {
    if pieces != [] {
      NoRequestSizes(pieces[1..]);
    }
  }

  lemma InitialInv(maxChunk: nat, maxPending: nat)
    requires maxChunk > 0 && maxPending > 0
    ensures Inv(Initial(maxChunk, maxPending))
  {
  }

  // Each part of the invariant on its own, step by step.

  lemma SubmitKeepsShape(c: Controller, bytes: seq<Byte>)
    requires Shape(c) && !c.closed && bytes != []
    ensures Shape(Submitted(c, bytes))
  {
  }

  lemma SubmitKeepsPieces(c: Controller, bytes: seq<Byte>)
    requires Shape(c) && Pieces(c) && !c.closed && bytes != []
    ensures Shape(Submitted(c, bytes)) && Pieces(Submitted(c, bytes))
  {
    SubmitKeepsShape(c, bytes);
    StreamGrows(c.data, bytes);
    var d := Submitted(c, bytes);
    forall i | 0 <= i < |d.inflight| ensures PieceOk(d, d.inflight[i]) {
      assert PieceOk(c, c.inflight[i]);
    }
  }

  lemma SubmitKeepsFlow(c: Controller, bytes: seq<Byte>)
    requires Shape(c) && Flow(c) && !c.closed && bytes != [] && Shape(Submitted(c, bytes))
    ensures Flow(Submitted(c, bytes))
  {
    StreamGrows(c.data, bytes);
  }

  lemma SubmitKeepsFutures(c: Controller, bytes: seq<Byte>)
    requires Shape(c) && Futures(c) && !c.closed && bytes != [] && Shape(Submitted(c, bytes))
    ensures Futures(Submitted(c, bytes))
  {
    var c' := Submitted(c, bytes);
    StreamGrows(c.data, bytes);
    forall n | 0 <= n < |c'.data| ensures c'.outcomes[n].Waiting? <==> Outstanding(c', n) {
      assert n < |c.data| ==> (Outstanding(c, n) <==> Outstanding(c', n));
    }
  }

  lemma SubmitInv(c: Controller, bytes: seq<Byte>)
    requires Inv(c) && Enabled(c, Submit(bytes))
    ensures Inv(Submitted(c, bytes))
  {
    SubmitKeepsPieces(c, bytes);
    SubmitKeepsFlow(c, bytes);
    SubmitKeepsFutures(c, bytes);
  }

  lemma TryWriteKeepsShape(c: Controller, bytes: seq<Byte>)
    requires Shape(c) && Enabled(c, TryWrite(bytes, Accepted))
    ensures Shape(Tried(c, bytes, Accepted))
  {
  }

  lemma TryWriteKeepsPieces(c: Controller, bytes: seq<Byte>)
    requires Shape(c) && Pieces(c) && Flow(c) && Enabled(c, TryWrite(bytes, Accepted))
    ensures Shape(Tried(c, bytes, Accepted)) && Pieces(Tried(c, bytes, Accepted))
  {
    TryWriteKeepsShape(c, bytes);
    StreamGrows(c.data, bytes);
    SizesGrow(c.inflight, Piece(c.nextId, |c.data|, false, |c.sent| + |bytes|, |bytes|));
    var d := Tried(c, bytes, Accepted);
    forall i | 0 <= i < |d.inflight| ensures PieceOk(d, d.inflight[i]) {
      assert i < |c.inflight| ==> PieceOk(c, c.inflight[i]);
    }
  }

  lemma TryWriteKeepsFutures(c: Controller, bytes: seq<Byte>)
    requires Shape(c) && Futures(c) && Enabled(c, TryWrite(bytes, Accepted)) && Shape(Tried(c, bytes, Accepted))
    ensures Futures(Tried(c, bytes, Accepted))
  {
    var c' := Tried(c, bytes, Accepted);
    StreamGrows(c.data, bytes);
    forall n | 0 <= n < |c'.data| ensures c'.outcomes[n].Waiting? <==> Outstanding(c', n) {
      if n < |c.data| {
        assert Outstanding(c, n) <==> Outstanding(c', n);
      } else {
        assert c'.inflight[|c.inflight|].future == n;
      }
    }
  }

  lemma TryWriteInv(c: Controller, bytes: seq<Byte>)
    requires Inv(c) && Enabled(c, TryWrite(bytes, Accepted))
    ensures Inv(Tried(c, bytes, Accepted))
  {
    TryWriteKeepsPieces(c, bytes);
    TryWriteKeepsFutures(c, bytes);
    StreamGrows(c.data, bytes);
  }

  lemma AdmitInv(c: Controller)
    requires Inv(c) && Enabled(c, Admit)
    ensures Inv(Next(c, Admit))
  {
    NoRequestSizes(c.inflight);
  }

  lemma OfferKeepsShape(c: Controller)
    requires Shape(c) && Pieces(c) && Enabled(c, Offer(Accepted))
    ensures Shape(Offered(c, Accepted))
  {
    var r := c.waiting[0];
    var n := ChunkLength(c, r);
    SizesGrow(c.inflight, Piece(OfferId(c, r), r.future, true, |c.sent| + n, n));
  }

  lemma OfferKeepsPieces(c: Controller)
    requires Shape(c) && Pieces(c) && Flow(c) && Enabled(c, Offer(Accepted)) && Shape(Offered(c, Accepted))
    ensures Pieces(Offered(c, Accepted))
  {
    var r := c.waiting[0];
    var n := ChunkLength(c, r);
    SizesGrow(c.inflight, Piece(OfferId(c, r), r.future, true, |c.sent| + n, n));
  }

  lemma OfferedPrefix(c: Controller)
    requires Shape(c) && Flow(c) && Sizes(c.inflight) == c.owned && Enabled(c, Offer(Accepted))
    ensures var r, n := c.waiting[0], ChunkLength(c, c.waiting[0]);
            0 < n && r.offset + n <= |r.data| && c.sent + r.data[r.offset..][..n] <= Stream(c.data)
  {
    var r := c.waiting[0];
    StreamAt(c.data, r.future);
    NextBytes(Stream(c.data), Start(c.data, r.future), r.data, c.sent, ChunkLength(c, r));
  }

  lemma OfferKeepsFlow(c: Controller)
    requires Shape(c) && Flow(c) && Sizes(c.inflight) == c.owned && Enabled(c, Offer(Accepted))
    ensures Indexed(Offered(c, Accepted)) && Flow(Offered(c, Accepted))
  {
    OfferedPrefix(c);
  }

  lemma OfferKeepsFutures(c: Controller)
    requires Shape(c) && Pieces(c) && Flow(c) && Futures(c) && Enabled(c, Offer(Accepted)) && Shape(Offered(c, Accepted))
    ensures Futures(Offered(c, Accepted))
  {
    var c' := Offered(c, Accepted);
    forall n | 0 <= n < |c'.data| ensures c'.outcomes[n].Waiting? <==> Outstanding(c', n) {
      assert Outstanding(c, n) <==> Outstanding(c', n);
    }
  }

  lemma OfferInv(c: Controller)
    requires Inv(c) && Enabled(c, Offer(Accepted))
    ensures Inv(Offered(c, Accepted))
  {
    OfferKeepsShape(c);
    OfferKeepsPieces(c);
    OfferKeepsFlow(c);
    OfferKeepsFutures(c);
  }

  /** The pieces left when one is gone. */
  lemma WithoutOne(pieces: seq<Piece>, i: nat)
    requires i < |pieces|
    ensures forall p :: p in Without(pieces, i) ==> p in pieces
    ensures forall p :: p in pieces && p != pieces[i] ==> p in Without(pieces, i)
    ensures forall j | 0 <= j < |pieces| - 1 :: Without(pieces, i)[j] == pieces[if j < i then j else j + 1]
  {
    var rest := Without(pieces, i);
    assert forall j | 0 <= j < |pieces| - 1 :: rest[j] == pieces[if j < i then j else j + 1];
    forall p | p in pieces && p != pieces[i] ensures p in rest {
      var j :| 0 <= j < |pieces| && pieces[j] == p;
      assert rest[if j < i then j else j - 1] == p;
    }
  }

  /** The piece's request, if it has one, is the one waiting. */
  predicate Finishes(c: Controller, p: Piece) {
    p.byRequest && c.waiting != [] && c.waiting[0].offset >= |c.waiting[0].data| && c.waiting[0].inflight == p.size
  }

  lemma RemovedPieces(c: Controller, i: nat)
    requires |c.outcomes| == |c.data| && Pieces(c) && i < |c.inflight|
    ensures var rest := Without(c.inflight, i);
            && (forall k | 0 <= k < |rest| :: PieceOk(c, rest[k]))
            && Ordered(rest)
            && Sizes(rest) == c.owned - c.inflight[i].size
            && (Finishes(c, c.inflight[i]) && RequestSizes(c.inflight) == c.waiting[0].inflight ==> forall p <- rest :: !p.byRequest)
  {
    SizesShrink(c.inflight, i);
    WithoutOne(c.inflight, i);
    if Finishes(c, c.inflight[i]) && RequestSizes(c.inflight) == c.waiting[0].inflight {
      NoRequestPieces(Without(c.inflight, i));
    }
  }

  /** The request that goes on, with one piece less. */
  lemma StillShaped(c: Controller, i: nat)
    requires Shape(c) && Pieces(c) && i < |c.inflight| && c.waiting != [] && !Finishes(c, c.inflight[i])
    ensures var p, r := c.inflight[i], c.waiting[0];
            WaitingShape(c.(inflight := Without(c.inflight, i)),
                         if p.byRequest then r.(inflight := r.inflight - p.size) else r)
  {
    SizesShrink(c.inflight, i);
    WithoutOne(c.inflight, i);
    if c.waiting[0].retry.Some? {
      assert forall p <- Without(c.inflight, i) :: p in c.inflight;
    }
  }

  lemma CompleteKeepsShape(c: Controller, id: nat)
    requires Shape(c) && Pieces(c) && IndexOf(c.inflight, id) < |c.inflight|
    ensures Shape(Completed(c, id))
  {
    var i := IndexOf(c.inflight, id);
    if c.waiting != [] && !Finishes(c, c.inflight[i]) {
      StillShaped(c, i);
    }
  }

  lemma CompleteKeepsPieces(c: Controller, id: nat)
    requires |c.outcomes| == |c.data| && Pieces(c) && IndexOf(c.inflight, id) < |c.inflight|
    requires c.waiting != [] ==> RequestSizes(c.inflight) == c.waiting[0].inflight
    ensures Pieces(Completed(c, id))
  {
    var i := IndexOf(c.inflight, id);
    RemovedPieces(c, i);
    var c', rest := Completed(c, id), Without(c.inflight, i);
    assert c'.inflight == rest && |c'.waiting| <= |c.waiting|;
    forall k | 0 <= k < |rest| ensures PieceOk(c', rest[k]) {
      assert PieceOk(c, rest[k]);
    }
  }

  /** When its last piece is gone, a request was reported written as far as
      the native side has it. */
  lemma LastPieceCatchesUp(c: Controller, i: nat)
    requires Indexed(c) && |c.outcomes| == |c.data| && Pieces(c) && Flow(c)
    requires i < |c.inflight| && c.waiting != [] && c.waiting[0].offset > 0
    ensures c.acked == |c.sent| || c.inflight[i].end == |c.sent| || (i < |c.inflight| - 1
              && Without(c.inflight, i)[|c.inflight| - 2] == c.inflight[|c.inflight| - 1]
              && c.inflight[|c.inflight| - 1].byRequest && c.inflight[|c.inflight| - 1].end == |c.sent|)
  {
    WithoutOne(c.inflight, i);
  }

  lemma CompleteKeepsFlow(c: Controller, id: nat)
    requires Shape(c) && Pieces(c) && Flow(c) && IndexOf(c.inflight, id) < |c.inflight| && Shape(Completed(c, id))
    ensures Flow(Completed(c, id))
  {
    var i := IndexOf(c.inflight, id);
    if Finishes(c, c.inflight[i]) {
      StartAfter(c.data, c.waiting[0].future);
    } else if c.waiting != [] {
      CompleteKeepsFlowOfRequest(c, id);
    }
  }

  /** The request goes on; only what was reported written has moved. */
  lemma StillFlows(c: Controller, d: Controller, i: nat)
    requires Indexed(c) && |c.outcomes| == |c.data| && Pieces(c) && Flow(c)
    requires i < |c.inflight| && c.waiting != [] && d.waiting != [] && d.admissions == c.admissions
    requires d.waiting[0].future == c.waiting[0].future && d.waiting[0].offset == c.waiting[0].offset
    requires d.data == c.data && d.sent == c.sent && d.closed == c.closed && d.inflight == Without(c.inflight, i)
    requires d.acked == if c.acked < c.inflight[i].end then c.inflight[i].end else c.acked
    ensures Indexed(d) && Flow(d)
  {
    if c.waiting[0].offset > 0 {
      LastPieceCatchesUp(c, i);
    }
  }

  lemma CompleteKeepsFlowOfRequest(c: Controller, id: nat)
    requires Indexed(c) && |c.outcomes| == |c.data| && Pieces(c) && Flow(c)
    requires IndexOf(c.inflight, id) < |c.inflight| && Indexed(Completed(c, id))
    requires c.waiting != [] && !Finishes(c, c.inflight[IndexOf(c.inflight, id)])
    ensures Flow(Completed(c, id))
  {
    StillFlows(c, Completed(c, id), IndexOf(c.inflight, id));
  }

  lemma RemovedFlying(c: Controller, i: nat)
    requires Shape(c) && Pieces(c) && i < |c.inflight|
    ensures forall n: nat :: Flying(Without(c.inflight, i), n) <==>
              Flying(c.inflight, n) && !(!c.inflight[i].byRequest && n == c.inflight[i].future)
  {
    WithoutOne(c.inflight, i);
    var rest := Without(c.inflight, i);
    forall n: nat ensures Flying(rest, n) <==>
                            Flying(c.inflight, n) && !(!c.inflight[i].byRequest && n == c.inflight[i].future)
    {
      if !c.inflight[i].byRequest && n == c.inflight[i].future {
        forall j | 0 <= j < |rest| ensures rest[j].byRequest || rest[j].future != n {
          assert rest[j] == c.inflight[if j < i then j else j + 1];
        }
      }
    }
  }

  lemma CompleteSettles(c: Controller, id: nat)
    requires Inv(c) && IndexOf(c.inflight, id) < |c.inflight| && Shape(Completed(c, id))
    requires !c.inflight[IndexOf(c.inflight, id)].byRequest
    ensures Futures(Completed(c, id))
  {
    RemovedFlying(c, IndexOf(c.inflight, id));
  }

  lemma CompleteFinishes(c: Controller, id: nat)
    requires Inv(c) && IndexOf(c.inflight, id) < |c.inflight| && Shape(Completed(c, id))
    requires Finishes(c, c.inflight[IndexOf(c.inflight, id)])
    ensures Futures(Completed(c, id))
  {
    var i := IndexOf(c.inflight, id);
    RemovedFlying(c, i);
    CaughtUp(c, i);
    StartAfter(c.data, c.waiting[0].future);
  }

  lemma CaughtUp(c: Controller, i: nat)
    requires Shape(c) && Pieces(c) && Flow(c) && i < |c.inflight| && Finishes(c, c.inflight[i])
    ensures c.acked == |c.sent| || c.inflight[i].end == |c.sent|
    ensures !Flying(c.inflight, c.waiting[0].future)
  {
    RemovedPieces(c, i);
    LastPieceCatchesUp(c, i);
  }

  lemma CompleteContinues(c: Controller, id: nat)
    requires Inv(c) && IndexOf(c.inflight, id) < |c.inflight| && Shape(Completed(c, id))
    requires c.inflight[IndexOf(c.inflight, id)].byRequest && !Finishes(c, c.inflight[IndexOf(c.inflight, id)])
    ensures Futures(Completed(c, id))
  {
    RemovedFlying(c, IndexOf(c.inflight, id));
  }

  lemma CompleteInv(c: Controller, id: nat)
    requires Inv(c)
    ensures Inv(Completed(c, id))
  {
    if IndexOf(c.inflight, id) < |c.inflight| {
      CompleteKeepsShape(c, id);
      CompleteKeepsPieces(c, id);
      CompleteKeepsFlow(c, id);
      var p := c.inflight[IndexOf(c.inflight, id)];
      if !p.byRequest {
        CompleteSettles(c, id);
      } else if Finishes(c, p) {
        CompleteFinishes(c, id);
      } else {
        CompleteContinues(c, id);
      }
    }
  }

  lemma {:induction false} NextInv(c: Controller, step: Step)
    requires Inv(c) && Enabled(c, step)
    ensures Inv(Next(c, step))
  {
    match step
    case Submit(bytes) => SubmitInv(c, bytes);
    case TryWrite(bytes, result) => if result.Accepted? { TryWriteInv(c, bytes); } else { RefusedTryInv(c, bytes, result); }
    case Admit => AdmitInv(c);
    case Offer(result) => if result.Accepted? { OfferInv(c); } else { RefusedInv(c, result); }
    case Complete(id) => CompleteInv(c, id);
    case Writable =>
    case Close => CloseInv(c);
  }

  lemma CloseInv(c: Controller)
    requires Inv(c)
    ensures Inv(Closing(c))
  {
  }

  lemma RefusedTryInv(c: Controller, bytes: seq<Byte>, result: WriteResult)
    requires Inv(c) && Enabled(c, TryWrite(bytes, result)) && !result.Accepted?
    ensures Inv(Tried(c, bytes, result))
  {
  }

  lemma RefusedInv(c: Controller, result: WriteResult)
    requires Inv(c) && Enabled(c, Offer(result)) && !result.Accepted?
    ensures Inv(Offered(c, result))
  {
  }

  /** Whatever is outstanding is some request's or some piece's. */
  predicate Owed(c: Controller, n: nat) {
    || (exists r <- c.admissions :: r.future == n)
    || (exists r <- c.waiting :: r.future == n)
    || Flying(c.inflight, n)
  }

  lemma OutstandingIsOwed(c: Controller, n: nat)
    requires Shape(c) && n < |c.data|
    ensures Outstanding(c, n) <==> Owed(c, n)
  {
    if n >= FirstAdmission(c) {
      assert c.admissions[n - FirstAdmission(c)].future == n;
    } else if c.waiting != [] && n == c.waiting[0].future {
      assert c.waiting[0] in c.waiting;
    }
  }

  // ------------------------------------------------------------- the runs

  ghost predicate Possible(c: Controller, steps: seq<Step>)
    decreases |steps|
  {
    steps == [] || (Enabled(c, steps[0]) && Possible(Next(c, steps[0]), steps[1..]))
  }

  ghost function After(c: Controller, steps: seq<Step>): Controller
    requires Possible(c, steps)
    decreases |steps|
  {
    if steps == [] then c else After(Next(c, steps[0]), steps[1..])
  }

  /** What never changes back: submissions, settled futures, bytes sent. */
  ghost predicate Grows(c: Controller, d: Controller) {
    && c.data <= d.data && |c.outcomes| <= |d.outcomes| && c.sent <= d.sent && c.acked <= d.acked
    && (forall n | 0 <= n < |c.outcomes| && !c.outcomes[n].Waiting? :: d.outcomes[n] == c.outcomes[n])
    && (c.closed ==> d.closed && d.data == c.data && d.sent == c.sent)
    && c.maxChunk == d.maxChunk && c.maxPending == d.maxPending && c.nextId <= d.nextId
  }

  lemma OfferGrows(c: Controller, result: WriteResult)
    requires Inv(c) && Enabled(c, Offer(result))
    ensures Grows(c, Offered(c, result))
  {
  }

  lemma CompleteGrows(c: Controller, id: nat)
    requires Inv(c)
    ensures Grows(c, Completed(c, id))
  {
  }

  lemma TryGrows(c: Controller, bytes: seq<Byte>, result: WriteResult)
    requires Inv(c) && Enabled(c, TryWrite(bytes, result))
    ensures Grows(c, Tried(c, bytes, result))
  {
  }

  lemma NextGrows(c: Controller, step: Step)
    requires Inv(c) && Enabled(c, step)
    ensures Grows(c, Next(c, step))
  {
    match step
    case Submit(bytes) =>
    case TryWrite(bytes, result) => TryGrows(c, bytes, result);
    case Admit =>
    case Offer(result) => OfferGrows(c, result);
    case Complete(id) => CompleteGrows(c, id);
    case Writable =>
    case Close =>
  }

  lemma {:induction false} RunsAreSafe(c: Controller, steps: seq<Step>)
    requires Inv(c) && Possible(c, steps)
    ensures Inv(After(c, steps)) && Grows(c, After(c, steps))
    decreases |steps|
  {
    if steps != [] {
      NextInv(c, steps[0]);
      NextGrows(c, steps[0]);
      RunsAreSafe(Next(c, steps[0]), steps[1..]);
    }
  }

  lemma {:induction false} RunsJoin(c: Controller, a: seq<Step>, b: seq<Step>)
    requires Possible(c, a) && Possible(After(c, a), b)
    ensures Possible(c, a + b) && After(c, a + b) == After(After(c, a), b)
    decreases |a|
  {
    if a == [] {
      assert a + b == b;
    } else {
      assert (a + b)[0] == a[0] && (a + b)[1..] == a[1..] + b;
      RunsJoin(Next(c, a[0]), a[1..], b);
    }
  }

  /** d is c after some steps. */
  ghost predicate Leads(c: Controller, d: Controller) {
    exists steps :: Possible(c, steps) && After(c, steps) == d
  }

  lemma LeadsNowhere(c: Controller)
    ensures Leads(c, c)
  {
    assert Possible(c, []) && After(c, []) == c;
  }

  lemma LeadsOn(c: Controller, d: Controller, step: Step)
    requires Leads(c, d) && Enabled(d, step)
    ensures Leads(c, Next(d, step))
  {
    assert [step][1..] == [];
    assert After(Next(d, step), []) == Next(d, step);
    assert Possible(d, [step]) && After(d, [step]) == Next(d, step);
    LeadsJoin(c, d, Next(d, step));
  }

  lemma LeadsJoin(c: Controller, d: Controller, e: Controller)
    requires Leads(c, d) && Leads(d, e)
    ensures Leads(c, e)
  {
    var a :| Possible(c, a) && After(c, a) == d;
    var b :| Possible(d, b) && After(d, b) == e;
    RunsJoin(c, a, b);
  }

  lemma LeadsSafely(c: Controller, d: Controller)
    requires Inv(c) && Leads(c, d)
    ensures Inv(d) && Grows(c, d)
  {
    var steps :| Possible(c, steps) && After(c, steps) == d;
    RunsAreSafe(c, steps);
  }

  /** What a caller sees in every run: the native side got a prefix of what was
      submitted, in order; the window holds; a future that succeeded had the
      stream reported written up to its end; closing leaves none waiting. */
  lemma EveryRun(maxChunk: nat, maxPending: nat, steps: seq<Step>)
    requires maxChunk > 0 && maxPending > 0 && Possible(Initial(maxChunk, maxPending), steps)
    ensures var c := After(Initial(maxChunk, maxPending), steps);
            && |c.outcomes| == |c.data| && c.sent <= Stream(c.data)
            && Sizes(c.inflight) == c.owned <= maxPending && |c.waiting| <= 1
            && (forall p <- c.inflight | p.byRequest :: c.waiting != [] && p.future == c.waiting[0].future)
            && (forall n | 0 <= n < |c.data| && c.outcomes[n].Done? :: Start(c.data, n + 1) <= c.acked <= |c.sent|)
            && (c.closed ==> forall n | 0 <= n < |c.data| :: !c.outcomes[n].Waiting?)
  {
    RunsAreSafe(Initial(maxChunk, maxPending), steps);
    var c := After(Initial(maxChunk, maxPending), steps);
    forall p <- c.inflight | p.byRequest ensures c.waiting != [] && p.future == c.waiting[0].future {
      var i :| 0 <= i < |c.inflight| && c.inflight[i] == p;
      assert PieceOk(c, c.inflight[i]);
    }
  }
}
