/** The Dart side of output: the lifecycle futures, the flow controller that
    feeds the listener, and the session state that drives both. */
module OutputControl {
  import opened Wrappers

  datatype Failure = IoFailure | SpawnFailure | ProtocolFailure

  /** A completer's future; every completion is guarded, so it happens once. */
  datatype Future<T> = Waiting | Value(value: T) | Error(error: Failure)

  datatype Exit = Exit(signaled: bool, code: int)

  type Chunk = seq<Byte>

  function Bytes(chunks: seq<Chunk>): nat {
    if chunks == [] then 0 else |chunks[0]| + Bytes(chunks[1..])
  }

  lemma {:induction false} BytesConcat(a: seq<Chunk>, b: seq<Chunk>)
    ensures Bytes(a + b) == Bytes(a) + Bytes(b)
  {
    if a == [] {
      assert a + b == b;
    } else {
      assert (a + b)[1..] == a[1..] + b;
      BytesConcat(a[1..], b);
    }
  }

  lemma TakeFirst(front: seq<Chunk>, chunks: seq<Chunk>)
    requires chunks != []
    ensures front + [chunks[0]] + chunks[1..] == front + chunks
  {
  }

  lemma Extend(front: seq<Chunk>, chunks: seq<Chunk>, n: nat)
    requires n < |chunks|
    ensures front + chunks[..n] + [chunks[n]] == front + chunks[..n + 1]
    ensures chunks[n..][0] == chunks[n] && chunks[n..][1..] == chunks[n + 1..]
  {
  }

  lemma SplitAt(front: seq<Chunk>, chunks: seq<Chunk>, n: nat)
    requires n <= |chunks|
    ensures front <= front + chunks[..n] <= front + chunks
    ensures front + chunks[..n] + chunks[n..] == front + chunks
  {
  }

  /** The futures a session exposes and the flags `done` waits for. */
  class Lifecycle {
    var spawned: Future<bool>
    var processExit: Future<Exit>
    var done: Future<Exit>
    var closed: bool
    var exit: Option<Exit>
    var outputClosed: bool
    var outputDrained: bool
    var protocolFailed: bool
    var fatalErrorHandled: bool
    /** While OUTPUT_CLOSED is handled `done` may lag behind. */
    ghost var completing: bool

    /** `done` is a value exactly when the exit, the end of output and the
        drain are all there and no error came first. */
    ghost predicate Valid()
      reads this
    {
      && (exit.Some? <==> processExit.Value?)
      && (exit.Some? ==> processExit == Value(exit.value))
      && (done.Value? ==> exit == Some(done.value) && outputClosed && outputDrained)
      && (done.Waiting? && !completing ==> !(exit.Some? && outputClosed && outputDrained))
      && (protocolFailed || fatalErrorHandled ==> !done.Waiting? && !processExit.Waiting? && !spawned.Waiting?)
    }

    constructor ()
      ensures Valid() && done.Waiting? && processExit.Waiting? && spawned.Waiting? && !closed
      ensures !outputClosed && !outputDrained && !protocolFailed && !fatalErrorHandled && !completing
    {
      spawned, processExit, done, closed, exit := Waiting, Waiting, Waiting, false, None;
      outputClosed, outputDrained, protocolFailed, fatalErrorHandled := false, false, false, false;
      completing := false;
    }

    method MaybeCompleteDone()
      modifies this`done
      ensures done == if old(done).Waiting? && exit.Some? && outputClosed && outputDrained
                      then Value(exit.value) else old(done)
    {
      if exit.None? || !outputClosed || !outputDrained || !done.Waiting? {
        return;
      }
      done := Value(exit.value);
    }

    /** The controller's onDrained callback, which comes once. */
    method HandleOutputDrained()
      requires Valid() && !outputDrained
      modifies this`outputDrained, this`done
      ensures Valid() && outputDrained
      ensures !old(done).Waiting? ==> done == old(done)
    {
      outputDrained := true;
      MaybeCompleteDone();
    }

    /** Fails every future that is still open. */
    method Fail(error: Failure)
      modifies this`spawned, this`processExit, this`done
      ensures spawned == if old(spawned).Waiting? then Error(error) else old(spawned)
      ensures processExit == if old(processExit).Waiting? then Error(error) else old(processExit)
      ensures done == if old(done).Waiting? then Error(error) else old(done)
    {
      if spawned.Waiting? {
        spawned := Error(error);
      }
      if processExit.Waiting? {
        processExit := Error(error);
      }
      if done.Waiting? {
        done := Error(error);
      }
    }
  }

  /** The native calls of the controller: acknowledgements, their bytes, and
      discards. */
  class NativeOutput {
    var calls: nat
    var acknowledged: nat
    var discarded: bool

    constructor ()
      ensures calls == acknowledged == 0 && !discarded
    {
      calls, acknowledged, discarded := 0, 0, false;
    }
  }

  class OutputFlowController {
    const native: NativeOutput
    const lifecycle: Lifecycle
    var pending: seq<Chunk>
    var hasListener: bool
    var paused: bool
    var cancelled: bool
    var nativeClosed: bool
    var drainedNotified: bool
    var armed: bool
    var streamClosed: bool
    /** What was taken in before cancel or close, and what the listener got. */
    ghost var accepted: seq<Chunk>
    ghost var delivered: seq<Chunk>
    /** Handed to the listener, acknowledgement still to come. */
    ghost var inHand: seq<Chunk>
    ghost var receivedChunks: nat
    ghost var receivedBytes: nat

    /** Every chunk received has been acknowledged once, or is pending or in
        the listener's hands. */
    ghost predicate Acknowledges()
      reads this, native
    {
      && native.calls + |pending| + |inHand| == receivedChunks
      && native.acknowledged + Bytes(pending) + Bytes(inHand) == receivedBytes
    }

    /** Nothing is lost or reordered, and nothing acknowledged twice. */
    ghost predicate Accounts()
      reads this, native
    {
      && (if cancelled then delivered <= accepted && pending == [] else delivered + pending == accepted)
      && (armed ==> Acknowledges())
      && (!armed ==> cancelled && nativeClosed && native.discarded)
    }

    /** A listener that may be fed has been fed, and the drain is reported
        exactly when native output ended and nothing is pending. */
    ghost predicate AtRest()
      reads this, lifecycle
    {
      && (hasListener && !paused && !cancelled ==> pending == [])
      && (drainedNotified <==> nativeClosed && pending == [])
      && (lifecycle.outputDrained <==> drainedNotified)
    }

    ghost predicate Consistent()
      reads this, native, lifecycle
    {
      Accounts() && AtRest() && lifecycle.Valid() && inHand == []
    }

    /** The stream is only closed once everything was delivered. */
    ghost predicate Valid()
      reads this, native, lifecycle
    {
      Consistent() && (streamClosed ==> nativeClosed && pending == [])
    }

    constructor (native: NativeOutput, lifecycle: Lifecycle)
      requires native.calls == native.acknowledged == 0 && lifecycle.Valid() && !lifecycle.outputDrained
      ensures Valid() && this.native == native && this.lifecycle == lifecycle
      ensures accepted == delivered == pending == [] && armed && !cancelled && !nativeClosed && !streamClosed
      ensures !hasListener && !paused
    {
      this.native, this.lifecycle := native, lifecycle;
      pending, hasListener, paused, cancelled, nativeClosed := [], false, false, false, false;
      drainedNotified, armed, streamClosed := false, true, false;
      accepted, delivered, inHand, receivedChunks, receivedBytes := [], [], [], 0, 0;
    }

    method Acknowledge(bytes: nat)
      modifies native`calls, native`acknowledged
      ensures native.calls == old(native.calls) + (if armed then 1 else 0)
      ensures native.acknowledged == old(native.acknowledged) + (if armed then bytes else 0)
    {
      if armed {
        native.calls := native.calls + 1;
        native.acknowledged := native.acknowledged + bytes;
      }
    }

    method NotifyDrained()
      requires lifecycle.Valid() && lifecycle.outputDrained == drainedNotified
      requires drainedNotified ==> nativeClosed && pending == []
      modifies this`drainedNotified, lifecycle`outputDrained, lifecycle`done
      ensures lifecycle.Valid() && lifecycle.outputDrained == drainedNotified
      ensures drainedNotified <==> nativeClosed && pending == []
      ensures !old(lifecycle.done).Waiting? ==> lifecycle.done == old(lifecycle.done)
    {
      if !nativeClosed || pending != [] || drainedNotified {
        return;
      }
      drainedNotified := true;
      lifecycle.HandleOutputDrained();
    }

    /** Acknowledges and drops everything pending. */
    method DropPending()
      modifies this`pending, native`calls, native`acknowledged
      ensures pending == []
      ensures armed ==> native.calls == old(native.calls + |pending|)
                        && native.acknowledged == old(native.acknowledged + Bytes(pending))
      ensures !armed ==> native.calls == old(native.calls) && native.acknowledged == old(native.acknowledged)
    {
      while pending != []
        invariant armed ==> native.calls + |pending| == old(native.calls + |pending|)
                            && native.acknowledged + Bytes(pending) == old(native.acknowledged + Bytes(pending))
        invariant !armed ==> native.calls == old(native.calls) && native.acknowledged == old(native.acknowledged)
        decreases |pending|
      {
        var bytes := pending[0];
        pending := pending[1..];
        Acknowledge(|bytes|);
      }
    }

    method Discard()
      modifies native`discarded
      ensures native.discarded == (armed || old(native.discarded))
    {
      if armed {
        native.discarded := true;
      }
    }

    /** What every callback may rely on, even inside a drain. */
    ghost predicate Midway()
      reads this, native, lifecycle
    {
      && Accounts() && lifecycle.Valid() && lifecycle.outputDrained == drainedNotified
      && (drainedNotified ==> nativeClosed && pending == [])
    }

    /** The subscription is cancelled: drop, tell native, maybe report. */
    method HandleCancel()
      requires Midway()
      modifies this`cancelled, this`pending, this`drainedNotified, native, lifecycle`outputDrained, lifecycle`done
      ensures Midway() && AtRest() && cancelled && pending == [] && native.discarded
      ensures !old(lifecycle.done).Waiting? ==> lifecycle.done == old(lifecycle.done)
    {
      cancelled := true;
      DropPending();
      Discard();
      NotifyDrained();
    }

    /** The stream's synchronous add: the listener has the chunk, and may pause
        or cancel before the call returns. */
    method Deliver(bytes: Chunk)
      requires armed && !cancelled && !streamClosed && !drainedNotified
      requires delivered + [bytes] + pending == accepted && Acknowledges()
      requires lifecycle.Valid() && !lifecycle.outputDrained
      modifies this`delivered, this`paused, this`cancelled, this`pending, this`drainedNotified
      modifies native, lifecycle`outputDrained, lifecycle`done
      ensures Midway() && delivered == old(delivered) + [bytes]
      ensures if cancelled then pending == [] && AtRest() else pending == old(pending) && !drainedNotified
      ensures !old(lifecycle.done).Waiting? ==> lifecycle.done == old(lifecycle.done)
    {
      delivered := delivered + [bytes];
      if * {
        paused := true;
      } else if * {
        HandleCancel();
      }
    }

    /** The listener can be fed. */
    ghost predicate Feeding()
      reads this
    {
      hasListener && !paused && !cancelled && pending != []
    }

    /** Moves the first pending chunk to the listener and acknowledges it. */
    method FeedOne()
      requires Midway() && inHand == [] && Feeding() && !streamClosed
      modifies this`delivered, this`paused, this`cancelled, this`pending, this`drainedNotified
      modifies this`inHand, native, lifecycle`outputDrained, lifecycle`done
      ensures Midway() && inHand == [] && delivered == old(delivered) + [old(pending)[0]]
      ensures if cancelled then pending == [] else pending == old(pending)[1..]
      ensures !old(lifecycle.done).Waiting? ==> lifecycle.done == old(lifecycle.done)
    {
      var bytes := pending[0];
      TakeFirst(delivered, pending);
      pending := pending[1..];
      inHand := [bytes];
      Deliver(bytes);
      Acknowledge(|bytes|);
      inHand := [];
    }

    /** Feeds the listener until it pauses, cancels or has everything; `n` is
        how many chunks it got. Adding to a closed stream throws. */
    method Feed() returns (threw: bool, ghost n: nat)
      requires Midway() && inHand == []
      modifies this`delivered, this`paused, this`cancelled, this`pending, this`drainedNotified
      modifies this`inHand, native, lifecycle`outputDrained, lifecycle`done
      ensures threw <==> old(Feeding() && streamClosed)
      ensures !threw ==> Midway() && inHand == [] && !Feeding()
      ensures !threw ==> n <= |old(pending)| && delivered == old(delivered) + old(pending)[..n]
      ensures !threw ==> if cancelled then pending == [] else pending == old(pending)[n..]
      ensures old(cancelled) ==> cancelled && (!threw ==> n == 0)
      ensures threw || !old(Feeding()) ==> n == 0 && delivered == old(delivered)
      ensures !old(Feeding()) ==> pending == old(pending) && cancelled == old(cancelled) && paused == old(paused)
      ensures !old(lifecycle.done).Waiting? ==> lifecycle.done == old(lifecycle.done)
    {
      ghost var d, p := delivered, pending;
      n, threw := 0, false;
      while hasListener && !paused && !cancelled && pending != []
        invariant Midway() && inHand == [] && n <= |p| && delivered == d + p[..n]
        invariant n > 0 ==> !streamClosed && !old(cancelled) && old(Feeding())
        invariant n == 0 ==> pending == p && paused == old(paused) && cancelled == old(cancelled)
        invariant if cancelled then pending == [] else pending == p[n..]
        invariant !old(lifecycle.done).Waiting? ==> lifecycle.done == old(lifecycle.done)
        decreases |pending|
      {
        if streamClosed {
          pending := pending[1..];
          return true, 0;
        }
        Extend(d, p, n);
        FeedOne();
        n := n + 1;
      }
    }

    /** Feeds the listener, then reports and closes if native output ended. */
    method Drain() returns (threw: bool)
      requires Midway() && inHand == []
      modifies this`delivered, this`paused, this`cancelled, this`pending, this`drainedNotified
      modifies this`inHand, this`streamClosed, native, lifecycle`outputDrained, lifecycle`done
      ensures threw <==> old(Feeding() && streamClosed)
      ensures !threw ==> Consistent() && (streamClosed <==> old(streamClosed) || (nativeClosed && pending == []))
      ensures !threw ==> old(delivered) <= delivered <= old(delivered) + old(pending)
      ensures !threw && old(cancelled) ==> delivered == old(delivered) && cancelled
      ensures threw ==> delivered == old(delivered)
      ensures !old(Feeding()) ==> delivered == old(delivered) && pending == old(pending)
                                  && cancelled == old(cancelled) && paused == old(paused)
      ensures !threw && !cancelled ==> delivered + pending == old(delivered) + old(pending)
      ensures !old(lifecycle.done).Waiting? ==> lifecycle.done == old(lifecycle.done)
    {
      ghost var n;
      threw, n := Feed();
      if threw {
        return;
      }
      SplitAt(old(delivered), old(pending), n);
      NotifyDrained();
      if nativeClosed && pending == [] && !streamClosed {
        streamClosed := true;
      }
    }

    /** One OUTPUT message. */
    method AddNativeOutput(bytes: Chunk)
      requires Valid()
      modifies this`accepted, this`receivedChunks, this`receivedBytes
      modifies this`delivered, this`paused, this`cancelled, this`pending, this`drainedNotified
      modifies this`inHand, native, lifecycle`outputDrained, lifecycle`done
      ensures Valid()
      ensures accepted == if old(cancelled || nativeClosed) then old(accepted) else old(accepted) + [bytes]
      ensures receivedChunks == old(receivedChunks) + 1 && receivedBytes == old(receivedBytes) + |bytes|
      ensures delivered == if old(hasListener && !paused && !cancelled && !nativeClosed)
                           then old(delivered) + [bytes] else old(delivered)
      ensures old(nativeClosed) ==> nativeClosed && pending == old(pending)
      ensures old(!hasListener && !cancelled && !nativeClosed) ==>
                pending == old(pending) + [bytes] && !cancelled && paused == old(paused)
      ensures !old(lifecycle.done).Waiting? ==> lifecycle.done == old(lifecycle.done)
    {
      receivedChunks, receivedBytes := receivedChunks + 1, receivedBytes + |bytes|;
      if cancelled || nativeClosed {
        Acknowledge(|bytes|);
        return;
      }
      accepted := accepted + [bytes];
      if !hasListener || paused {
        BytesConcat(pending, [bytes]);
        pending := pending + [bytes];
        return;
      }
      Forward(bytes);
    }

    /** Hands a chunk just accepted straight to the listener. */
    method Forward(bytes: Chunk)
      requires inHand == [] && pending == [] && armed && !cancelled && !streamClosed && !drainedNotified
      requires delivered + [bytes] == accepted
      requires native.calls + 1 == receivedChunks && native.acknowledged + |bytes| == receivedBytes
      requires lifecycle.Valid() && !lifecycle.outputDrained
      modifies this`delivered, this`paused, this`cancelled, this`pending, this`drainedNotified
      modifies this`inHand, native, lifecycle`outputDrained, lifecycle`done
      ensures Midway() && inHand == [] && pending == [] && delivered == old(delivered) + [bytes]
      ensures !cancelled ==> !drainedNotified
      ensures !cancelled || AtRest()
      ensures !old(lifecycle.done).Waiting? ==> lifecycle.done == old(lifecycle.done)
    {
      inHand := [bytes];
      Deliver(bytes);
      Acknowledge(|bytes|);
      inHand := [];
    }

    /** OUTPUT_CLOSED: what is pending still has to be delivered. */
    method HandleNativeClosed()
      requires Valid()
      modifies this`nativeClosed, this`delivered, this`paused, this`cancelled, this`pending, this`drainedNotified
      modifies this`inHand, this`streamClosed, native, lifecycle`outputDrained, lifecycle`done
      ensures Valid() && nativeClosed
      ensures old(delivered) <= delivered <= old(delivered) + old(pending)
      ensures !cancelled ==> delivered + pending == old(delivered) + old(pending)
      ensures !old(lifecycle.done).Waiting? ==> lifecycle.done == old(lifecycle.done)
    {
      nativeClosed := true;
      var _ := Drain();
    }

    /** Closes the stream even if chunks are pending for a listener that is
        not there yet or paused; exactly then the result is not Valid, and
        the next Drain that could feed the listener throws. */
    method Close() returns (threw: bool)
      requires Valid()
      modifies this`nativeClosed, this`delivered, this`paused, this`cancelled, this`pending, this`drainedNotified
      modifies this`inHand, this`streamClosed, native, lifecycle`outputDrained, lifecycle`done
      ensures !threw && Consistent() && nativeClosed && streamClosed
      ensures old(!hasListener) ==> delivered == old(delivered) && pending == old(pending)
                                    && cancelled == old(cancelled) && paused == old(paused)
      ensures Valid() <==> pending == []
    {
      nativeClosed := true;
      threw := Drain();
      streamClosed := true;
    }

    method HandleListen() returns (threw: bool)
      requires Consistent()
      modifies this`hasListener, this`delivered, this`paused, this`cancelled, this`pending, this`drainedNotified
      modifies this`inHand, this`streamClosed, native, lifecycle`outputDrained, lifecycle`done
      ensures threw <==> old(!paused && !cancelled && pending != [] && streamClosed)
      ensures threw ==> delivered == old(delivered)
      ensures !threw ==> Consistent() && hasListener && (old(Valid()) ==> Valid())
      ensures !threw ==> old(delivered) <= delivered <= old(delivered) + old(pending)
      ensures !threw && !cancelled ==> delivered + pending == old(delivered) + old(pending)
      ensures !old(lifecycle.done).Waiting? ==> lifecycle.done == old(lifecycle.done)
    {
      hasListener := true;
      threw := Drain();
    }

    method HandlePause()
      requires Consistent()
      modifies this`paused
      ensures Consistent() && paused && (old(Valid()) ==> Valid())
    {
      paused := true;
    }

    method HandleResume() returns (threw: bool)
      requires Consistent()
      modifies this`delivered, this`paused, this`cancelled, this`pending, this`drainedNotified
      modifies this`inHand, this`streamClosed, native, lifecycle`outputDrained, lifecycle`done
      ensures threw <==> old(hasListener && !cancelled && pending != [] && streamClosed)
      ensures !threw ==> Consistent() && (old(Valid()) ==> Valid())
      ensures !threw ==> old(delivered) <= delivered <= old(delivered) + old(pending)
      ensures !threw && !cancelled ==> delivered + pending == old(delivered) + old(pending)
      ensures !old(lifecycle.done).Waiting? ==> lifecycle.done == old(lifecycle.done)
    {
      paused := false;
      threw := Drain();
    }

    /** The end: drop what is pending, discard natively, and go deaf. */
    method CloseAndDiscard()
      requires Consistent()
      modifies this, native, lifecycle`outputDrained, lifecycle`done
      ensures Valid() && cancelled && nativeClosed && streamClosed && !armed && pending == []
      ensures accepted == old(accepted) && delivered == old(delivered) && native.discarded
      ensures old(armed) ==> native.calls == receivedChunks && native.acknowledged == receivedBytes
      ensures receivedChunks == old(receivedChunks) && receivedBytes == old(receivedBytes)
      ensures !old(lifecycle.done).Waiting? ==> lifecycle.done == old(lifecycle.done)
    {
      cancelled := true;
      DropPending();
      Discard();
      armed := false;
      nativeClosed := true;
      NotifyDrained();
      streamClosed := true;
    }
  }

  /** A chunk that waits for a listener when the stream is closed is stranded:
      listening then throws. */
  method StrandedByClose(bytes: Chunk) returns (output: OutputFlowController, threw: bool)
    ensures threw && output.delivered == []
  {
    var lifecycle := new Lifecycle();
    var native := new NativeOutput();
    output := new OutputFlowController(native, lifecycle);
    output.AddNativeOutput(bytes);
    var _ := output.Close();
    threw := output.HandleListen();
  }

  /** The messages about output and lifecycle; the input ones go to the input
      flow controller. */
  datatype Event =
    | Spawned
    | SpawnFailed
    | Output(bytes: Chunk)
    | OutputClosed
    | ProcessExit(exit: Exit)
    | AsyncError
    | SessionClosed

  /** What can happen to a session: a message, a malformed one, a call from
      the listener's side, or the end of `close()`. */
  datatype Action =
    | Native(event: Event)
    | Malformed(sessionClosed: bool)
    | Listen
    | Pause
    | Resume
    | Cancel
    | Closed

  class SessionState {
    const lifecycle: Lifecycle
    const native: NativeOutput
    const output: OutputFlowController
    var closeRequested: bool

    ghost predicate Valid()
      reads this, lifecycle, native, output
    {
      && output.lifecycle == lifecycle && output.native == native && output.Valid()
      && (lifecycle.outputClosed ==> output.nativeClosed) && !lifecycle.completing
    }

    /** No byte can reach the listener any more. */
    ghost predicate Sealed()
      reads output
    {
      output.nativeClosed && output.pending == []
    }

    constructor ()
      ensures Valid() && lifecycle.done.Waiting? && output.delivered == []
    {
      var l := new Lifecycle();
      var n := new NativeOutput();
      lifecycle, native, closeRequested := l, n, false;
      output := new OutputFlowController(n, l);
    }

    /** A value of `done` is the exit that `processExit` reported, after the
        end of output, with everything delivered or dropped. */
    ghost predicate DoneIsHonest()
      reads this, lifecycle, native, output
    {
      lifecycle.done.Value? ==>
        && lifecycle.processExit == Value(lifecycle.done.value)
        && lifecycle.outputClosed && Sealed()
        && (output.cancelled || output.delivered == output.accepted)
    }

    lemma DoneIsHonestWhenValid()
      requires Valid()
      ensures DoneIsHonest()
    {
      if lifecycle.done.Value? {
        assert output.drainedNotified;
        assert !output.cancelled ==> output.delivered + output.pending == output.accepted;
      }
    }

    method FailOnce(error: Failure)
      requires Valid()
      modifies this`closeRequested
      modifies lifecycle`fatalErrorHandled, lifecycle`spawned, lifecycle`processExit, lifecycle`done
      ensures Valid() && lifecycle.fatalErrorHandled
      ensures lifecycle.done == if old(lifecycle.done).Waiting? && !old(lifecycle.fatalErrorHandled)
                                then Error(error) else old(lifecycle.done)
      ensures !old(lifecycle.fatalErrorHandled) ==> closeRequested
    {
      if lifecycle.fatalErrorHandled {
        return;
      }
      lifecycle.fatalErrorHandled := true;
      lifecycle.Fail(error);
      closeRequested := true;
    }

    method HandleOutputClosed()
      requires Valid()
      modifies lifecycle`outputClosed, lifecycle`outputDrained, lifecycle`done, lifecycle`completing, output, native
      ensures Valid() && lifecycle.outputClosed
      ensures !old(lifecycle.done).Waiting? ==> lifecycle.done == old(lifecycle.done)
      ensures output.accepted == old(output.accepted)
      ensures old(output.delivered) <= output.delivered <= old(output.delivered + output.pending)
      ensures old(Sealed()) ==> Sealed()
    {
      if lifecycle.outputClosed {
        return;
      }
      lifecycle.completing := true;
      lifecycle.outputClosed := true;
      output.HandleNativeClosed();
      lifecycle.MaybeCompleteDone();
      lifecycle.completing := false;
    }

    method HandleProcessExit(exit: Exit)
      requires Valid()
      modifies lifecycle`exit, lifecycle`processExit, lifecycle`done
      ensures Valid()
      ensures lifecycle.processExit == if old(lifecycle.processExit).Waiting? then Value(exit)
                                       else old(lifecycle.processExit)
      ensures !old(lifecycle.done).Waiting? ==> lifecycle.done == old(lifecycle.done)
    {
      if lifecycle.exit.Some? || !lifecycle.processExit.Waiting? {
        return;
      }
      lifecycle.exit := Some(exit);
      lifecycle.processExit := Value(exit);
      lifecycle.MaybeCompleteDone();
    }

    method HandleNativeEvent(event: Event)
      requires Valid()
      modifies this`closeRequested, lifecycle, output, native
      ensures Valid()
      ensures !old(lifecycle.done).Waiting? ==> lifecycle.done == old(lifecycle.done)
      ensures (event.AsyncError? || event.SpawnFailed?) && !old(lifecycle.fatalErrorHandled) ==>
                closeRequested && (old(lifecycle.done).Waiting? ==> lifecycle.done.Error?)
      ensures event.SessionClosed? ==> lifecycle.closed
      ensures output.accepted == if event.Output? && !old(output.cancelled || output.nativeClosed)
                                 then old(output.accepted) + [event.bytes] else old(output.accepted)
      ensures old(Sealed()) ==> Sealed() && output.delivered == old(output.delivered)
    {
      match event
      case Spawned =>
        if lifecycle.spawned.Waiting? {
          lifecycle.spawned := Value(true);
        }
      case SpawnFailed =>
        FailOnce(SpawnFailure);
      case Output(bytes) =>
        output.AddNativeOutput(bytes);
      case OutputClosed =>
        HandleOutputClosed();
      case ProcessExit(exit) =>
        HandleProcessExit(exit);
      case AsyncError =>
        FailOnce(IoFailure);
      case SessionClosed =>
        lifecycle.closed := true;
    }

    /** The first malformed message fails everything still open and drops the
        output; later ones only look at whether the session has closed. */
    method HandleProtocolError(sessionClosed: bool)
      requires Valid()
      modifies this`closeRequested, lifecycle, output, native
      ensures Valid() && lifecycle.protocolFailed
      ensures lifecycle.closed == (old(lifecycle.closed) || sessionClosed)
      ensures !old(lifecycle.done).Waiting? ==> lifecycle.done == old(lifecycle.done)
      ensures old(lifecycle.done).Waiting? && !old(lifecycle.protocolFailed) ==> lifecycle.done == Error(ProtocolFailure)
      ensures !old(lifecycle.protocolFailed) ==> Sealed() && closeRequested
      ensures output.delivered == old(output.delivered) && output.accepted == old(output.accepted)
      ensures old(Sealed()) ==> Sealed()
    {
      if sessionClosed {
        lifecycle.closed := true;
      }
      if lifecycle.protocolFailed {
        return;
      }
      lifecycle.protocolFailed := true;
      lifecycle.Fail(ProtocolFailure);
      output.CloseAndDiscard();
      closeRequested := true;
    }

    method Perform(action: Action)
      requires Valid()
      modifies this`closeRequested, lifecycle, output, native
      ensures Valid()
      ensures !old(lifecycle.done).Waiting? ==> lifecycle.done == old(lifecycle.done)
      ensures old(Sealed()) ==> Sealed() && output.delivered == old(output.delivered)
      ensures action.Malformed? && old(lifecycle.done.Waiting? && !lifecycle.protocolFailed) ==>
                lifecycle.done == Error(ProtocolFailure)
    {
      match action
      case Native(event) =>
        HandleNativeEvent(event);
      case Malformed(sessionClosed) =>
        HandleProtocolError(sessionClosed);
      case Listen =>
        var _ := output.HandleListen();
      case Pause =>
        output.HandlePause();
      case Resume =>
        var _ := output.HandleResume();
      case Cancel =>
        output.HandleCancel();
      case Closed =>
        output.CloseAndDiscard();
    }

    /** A whole run, in two parts: however it goes on after `done` completed,
        the result stays and the listener gets nothing more. */
    method Run(before: seq<Action>, after: seq<Action>)
      returns (early: Future<Exit>, ghost got: seq<Chunk>)
      requires Valid()
      modifies this`closeRequested, lifecycle, output, native
      ensures Valid() && DoneIsHonest()
      ensures !early.Waiting? ==> lifecycle.done == early
      ensures early.Value? ==> output.delivered == got
    {
      for i := 0 to |before|
        invariant Valid()
      {
        Perform(before[i]);
      }
      DoneIsHonestWhenValid();
      early, got := lifecycle.done, output.delivered;
      for i := 0 to |after|
        invariant Valid()
        invariant !early.Waiting? ==> lifecycle.done == early
        invariant early.Value? ==> Sealed() && output.delivered == got
      {
        Perform(after[i]);
      }
      DoneIsHonestWhenValid();
    }
  }
}
