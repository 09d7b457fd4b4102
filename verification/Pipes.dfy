/** Whole messages over pipes that read and write in pieces. */
module Pipes {
  import opened Wrappers

  /** What a read or write call came to. */
  datatype Outcome = Moved(count: nat) | Interrupted | Error

  datatype ReadResult = Complete | EndOfFile | Broken

  /** A read end: `rest` comes before end of file. Calls may stop short, be
      interrupted finitely often, or fail. */
  class Source {
    var rest: seq<Byte>
    var interruptions: nat
    var failed: bool

    constructor (content: seq<Byte>, interruptions: nat)
      ensures rest == content && this.interruptions == interruptions && !failed
    {
      rest, this.interruptions, failed := content, interruptions, false;
    }

    method Read(buffer: array<Byte>, start: nat, size: nat) returns (outcome: Outcome)
      requires 0 < size && start + size <= buffer.Length
      modifies this, buffer
      ensures outcome.Moved? ==>
                && outcome.count <= size && outcome.count <= |old(rest)|
                && (outcome.count == 0 <==> old(rest) == [])
                && rest == old(rest)[outcome.count..] && interruptions == old(interruptions)
                && buffer[..start + outcome.count] == old(buffer[..start]) + old(rest)[..outcome.count]
      ensures outcome.Interrupted? ==> interruptions < old(interruptions)
      ensures !outcome.Moved? ==> rest == old(rest) && buffer[..] == old(buffer[..])
      ensures failed == (old(failed) || outcome.Error?)
    {
      var fate: nat := *;
      if fate == 0 && interruptions > 0 {
        interruptions := interruptions - 1;
        return Interrupted;
      } else if fate == 1 {
        failed := true;
        return Error;
      }
      var most := if |rest| < size then |rest| else size;
      var count: nat :| count <= most && (count == 0 <==> rest == []);
      forall i | 0 <= i < count {
        buffer[start + i] := rest[i];
      }
      rest := rest[count..];
      outcome := Moved(count);
    }
  }

  /** read_fully: the whole message, end of file before any of it, or nothing
      to rely on. Unless a call failed, which of them depends only on how much
      there was. */
  method ReadFully(source: Source, buffer: array<Byte>) returns (result: ReadResult)
    modifies source, buffer
    ensures result == Complete ==>
              buffer.Length <= |old(source.rest)| && buffer[..] == old(source.rest)[..buffer.Length]
              && source.rest == old(source.rest)[buffer.Length..]
    ensures result == EndOfFile ==> old(source.rest) == [] && buffer.Length > 0
    ensures !old(source.failed) && !source.failed ==>
              result == if buffer.Length <= |old(source.rest)| then Complete
                        else if old(source.rest) == [] then EndOfFile else Broken
  {
    ghost var content := source.rest;
    var received := 0;
    assert content[0..] == content;
    while received < buffer.Length
      invariant received <= buffer.Length && received <= |content|
      invariant source.rest == content[received..] && buffer[..received] == content[..received]
      invariant source.failed == old(source.failed)
      decreases buffer.Length - received, source.interruptions
    {
      var outcome := source.Read(buffer, received, buffer.Length - received);
      match outcome
      case Moved(count) =>
        if count == 0 {
          return if received == 0 then EndOfFile else Broken;
        }
        assert content[received..][..count] == content[received..received + count];
        assert content[..received] + content[received..received + count] == content[..received + count];
        received := received + count;
      case Interrupted =>
        assert buffer[..received] == buffer[..][..received];
      case Error =>
        return Broken;
    }
    result := Complete;
  }

  /** A write end, and what has gone through it. */
  class Sink {
    var written: seq<Byte>
    var interruptions: nat
    var failed: bool

    constructor (interruptions: nat)
      ensures written == [] && !failed
    {
      written, this.interruptions, failed := [], interruptions, false;
    }

    method Write(data: seq<Byte>) returns (outcome: Outcome)
      requires data != []
      modifies this
      ensures outcome.Moved? ==> 0 < outcome.count <= |data| && interruptions == old(interruptions)
      ensures outcome.Interrupted? ==> interruptions < old(interruptions)
      ensures written == old(written) + if outcome.Moved? then data[..outcome.count] else []
      ensures failed == (old(failed) || outcome.Error?)
    {
      var fate: nat := *;
      if fate == 0 && interruptions > 0 {
        interruptions := interruptions - 1;
        return Interrupted;
      } else if fate == 1 {
        failed := true;
        return Error;
      }
      var count: nat :| 0 < count <= |data|;
      written := written + data[..count];
      outcome := Moved(count);
    }
  }

  /** write_fully: all of it, unless a call failed; then a prefix. */
  method WriteFully(sink: Sink, data: seq<Byte>) returns (ok: bool)
    modifies sink
    ensures ok ==> sink.written == old(sink.written) + data
    ensures old(sink.written) <= sink.written <= old(sink.written) + data
    ensures !old(sink.failed) ==> (ok <==> !sink.failed)
  {
    ghost var start := sink.written;
    var remaining := |data|;
    while remaining > 0
      invariant 0 <= remaining <= |data| && sink.written == start + data[..|data| - remaining]
      invariant sink.failed == old(sink.failed)
      decreases remaining, sink.interruptions
    {
      var rest := data[|data| - remaining..];
      var outcome := sink.Write(rest);
      match outcome
      case Moved(count) =>
        assert data[..|data| - remaining] + rest[..count] == data[..|data| - remaining + count];
        remaining := remaining - count;
      case Interrupted =>
      case Error =>
        return false;
    }
    assert data[..|data|] == data;
    ok := true;
  }

  /** What one side writes fully, the other reads fully, however the pieces
      fall on either side. */
  method Transfer(message: seq<Byte>, written: nat, read: nat) returns (received: seq<Byte>, ok: bool)
    ensures ok ==> received == message
  {
    var sink := new Sink(written);
    ok := WriteFully(sink, message);
    var source := new Source(sink.written, read);
    var buffer := new Byte[|message|];
    var result := ReadFully(source, buffer);
    received := buffer[..];
    if result == Complete {
      assert sink.written == message || !ok;
    }
    ok := ok && result == Complete;
  }
}
