/** The relay between two streams: a copy buffer that moves bytes in one direction, the transfer that shuts
    the receiving side down once the sending side has ended, and the two directions run together.

    A stream answers its calls from scripts that are arbitrary: any mix of answers that are not ready, that
    fail, that deliver or accept any number of bytes. A script that has run out is never ready again. What a
    stream has been through is kept in its logs, and the properties are about those. */
module Relay {
  type Byte = x: int | 0 <= x < 256

  datatype Answer = NotYet | Fail | Done
  datatype ReadAnswer = ReadNotYet | ReadFail | Deliver(bytes: seq<Byte>)
  datatype WriteAnswer = WriteNotYet | WriteFail | Accept(room: nat)

  datatype Error = Broken | WriteZero
  datatype Poll<T> = Pending | Ready(value: T) | Failed(error: Error)

  /** The call of the writing side that is not ready, if any. */
  datatype Wait = NoWait | ForWrite | ForFlush | ForShutdown

  /** One stream. An empty delivery is the end of what the peer sends. */
  class Stream {
    var deliveries: seq<ReadAnswer>
    var acceptances: seq<WriteAnswer>
    var flushes: seq<Answer>
    var shutdowns: seq<Answer>

    var received: seq<Byte>
    var ended: bool
    var sent: seq<Byte>
    var flushed: nat
    var closed: bool
    var readWaits: bool
    var writeWaits: Wait
    /** failures answered, and writes that accepted nothing */
    var breaks: nat
    var zeros: nat

    /** No answer still to come is a failure, and every write accepts something. */
    ghost predicate Smooth()
      reads this
    {
      && ReadFail !in deliveries && WriteFail !in acceptances && Accept(0) !in acceptances
      && Fail !in flushes && Fail !in shutdowns
    }

    /** Answers still to come. */
    function Left(): nat
      reads this
    {
      |deliveries| + |acceptances| + |flushes| + |shutdowns| + Undelivered(deliveries)
    }

    /** Reads into a buffer from its start: at most as many bytes as fit, the rest stays for the next read. */
    method Read(buf: array<Byte>) returns (r: Poll<nat>)
      requires !ended
      modifies this`deliveries, this`received, this`ended, this`readWaits, this`breaks, buf
      ensures breaks == old(breaks) + (if r.Failed? then 1 else 0) && (r.Failed? ==> r.error == Broken)
      ensures old(Smooth()) ==> Smooth() && !r.Failed?
      ensures readWaits == r.Pending?
      ensures r.Ready? ==> r.value <= buf.Length && received == old(received) + buf[..r.value]
      ensures r.Ready? ==> if r.value == 0 then ended || buf.Length == 0 else !ended
      ensures !r.Ready? ==> received == old(received) && !ended && buf[..] == old(buf[..])
      ensures r.Pending? ==> old(deliveries) == [] || old(deliveries)[0] == ReadNotYet
      ensures Left() < old(Left()) || (Left() == old(Left()) && r.Pending? && old(deliveries) == deliveries == [])
           || (r == Ready(0) && buf.Length == 0 && Left() == old(Left()))
    {
      if deliveries == [] {
        readWaits := true;
        return Pending;
      }
      match deliveries[0] {
        case ReadNotYet =>
          deliveries, readWaits := deliveries[1..], true;
          r := Pending;
        case ReadFail =>
          deliveries, readWaits, breaks := deliveries[1..], false, breaks + 1;
          r := Failed(Broken);
        case Deliver(bytes) =>
          readWaits := false;
          var n := if |bytes| < buf.Length then |bytes| else buf.Length;
          forall i | 0 <= i < n {
            buf[i] := bytes[i];
          }
          assert buf[..n] == bytes[..n];
          received, ended := received + bytes[..n], bytes == [];
          deliveries := (if n == |bytes| then [] else [Deliver(bytes[n..])]) + deliveries[1..];
          assert n == |bytes| ==> deliveries == old(deliveries)[1..];
          assert n < |bytes| ==> deliveries[0] == Deliver(bytes[n..]) && deliveries[1..] == old(deliveries)[1..];
          r := Ready(n);
      }
    }

    /** Offers bytes to the peer, which takes any number of them. */
    method Write(bytes: seq<Byte>) returns (r: Poll<nat>)
      requires !closed && bytes != []
      modifies this`acceptances, this`sent, this`writeWaits, this`breaks, this`zeros
      ensures breaks == old(breaks) + (if r.Failed? then 1 else 0) && (r.Failed? ==> r.error == Broken)
      ensures zeros == old(zeros) + (if r == Ready(0) then 1 else 0)
      ensures old(Smooth()) ==> Smooth() && !r.Failed? && r != Ready(0)
      ensures writeWaits == if r.Pending? then ForWrite else NoWait
      ensures r.Ready? ==> r.value <= |bytes| && sent == old(sent) + bytes[..r.value]
      ensures !r.Ready? ==> sent == old(sent)
      ensures r.Pending? ==> old(acceptances) == [] || old(acceptances)[0] == WriteNotYet
      ensures Left() < old(Left()) || (Left() == old(Left()) && r.Pending? && old(acceptances) == acceptances == [])
    {
      if acceptances == [] {
        writeWaits := ForWrite;
        return Pending;
      }
      match acceptances[0] {
        case WriteNotYet =>
          writeWaits, r := ForWrite, Pending;
        case WriteFail =>
          writeWaits, r, breaks := NoWait, Failed(Broken), breaks + 1;
        case Accept(room) =>
          var n := if |bytes| < room then |bytes| else room;
          writeWaits, sent, r := NoWait, sent + bytes[..n], Ready(n);
          zeros := zeros + if n == 0 then 1 else 0;
      }
      acceptances := acceptances[1..];
    }

    method Flush() returns (r: Poll<()>)
      requires !closed
      modifies this`flushes, this`flushed, this`writeWaits, this`breaks
      ensures breaks == old(breaks) + (if r.Failed? then 1 else 0) && (r.Failed? ==> r.error == Broken)
      ensures old(Smooth()) ==> Smooth() && !r.Failed?
      ensures writeWaits == if r.Pending? then ForFlush else NoWait
      ensures flushed == if r.Ready? then |sent| else old(flushed)
      ensures r.Pending? ==> old(flushes) == [] || old(flushes)[0] == NotYet
      ensures Left() < old(Left()) || (Left() == old(Left()) && r.Pending? && old(flushes) == flushes == [])
    {
      if flushes == [] {
        writeWaits := ForFlush;
        return Pending;
      }
      r := match flushes[0] case NotYet => Pending case Fail => Failed(Broken) case Done => Ready(());
      flushed := if r.Ready? then |sent| else flushed;
      flushes, writeWaits := flushes[1..], if r.Pending? then ForFlush else NoWait;
      breaks := breaks + if r.Failed? then 1 else 0;
    }

    method Shutdown() returns (r: Poll<()>)
      requires !closed
      modifies this`shutdowns, this`closed, this`writeWaits, this`breaks
      ensures breaks == old(breaks) + (if r.Failed? then 1 else 0) && (r.Failed? ==> r.error == Broken)
      ensures old(Smooth()) ==> Smooth() && !r.Failed?
      ensures writeWaits == if r.Pending? then ForShutdown else NoWait
      ensures closed == r.Ready?
      ensures r.Pending? ==> old(shutdowns) == [] || old(shutdowns)[0] == NotYet
      ensures Left() < old(Left()) || (Left() == old(Left()) && r.Pending? && old(shutdowns) == shutdowns == [])
    {
      if shutdowns == [] {
        writeWaits := ForShutdown;
        return Pending;
      }
      r := match shutdowns[0] case NotYet => Pending case Fail => Failed(Broken) case Done => Ready(());
      shutdowns, closed := shutdowns[1..], r.Ready?;
      writeWaits := if r.Pending? then ForShutdown else NoWait;
      breaks := breaks + if r.Failed? then 1 else 0;
    }
  }

  /** Bytes the script still holds. */
  function Undelivered(deliveries: seq<ReadAnswer>): nat {
    if deliveries == [] then 0
    else Undelivered(deliveries[1..]) + if deliveries[0].Deliver? then |deliveries[0].bytes| else 0
  }

  /** What was logged stays, and more may follow. */
  ghost predicate Extends(before: seq<Byte>, after: seq<Byte>) {
    before <= after
  }

  lemma ExtendsOn(a: seq<Byte>, b: seq<Byte>, c: seq<Byte>)
    ensures Extends(a, a)
    ensures Extends(a, b) && Extends(b, c) ==> Extends(a, c)
  {
  }

  /** Bytes that move from the buffer to the peer stay in order. */
  lemma Moved(sent: seq<Byte>, held: seq<Byte>, n: nat)
    requires n <= |held|
    ensures sent + held == (sent + held[..n]) + held[n..]
  {
    assert held == held[..n] + held[n..];
  }

  class CopyBuffer {
    const buf: array<Byte>
    var readDone: bool
    var needFlush: bool
    var pos: nat
    var cap: nat
    var amt: nat

    constructor (buf: array<Byte>)
      ensures this.buf == buf && !readDone && !needFlush && pos == cap == amt == 0
    {
      this.buf := buf;
      readDone, needFlush, pos, cap, amt := false, false, 0, 0, 0;
    }

    /** Nothing is lost, duplicated or reordered: what was received is what was sent followed by what is
        still in the buffer. */
    ghost predicate Valid(r: Stream, w: Stream)
      reads this, buf, r, w
    {
      && pos <= cap <= buf.Length
      && r.received == w.sent + buf[pos..cap]
      && amt == |w.sent|
      && !w.closed
      && (readDone ==> pos == cap && (r.ended || buf.Length == 0))
      && (r.ended ==> readDone)
      && w.flushed <= |w.sent|
      && (needFlush || w.flushed == |w.sent|)
      && (needFlush && !readDone ==> w.flushed < |w.sent|)
    }

    /** What a copy that has to wait is waiting for: the writer, or the reader once everything received so
        far has been sent and flushed. */
    ghost predicate Waiting(r: Stream, w: Stream)
      reads r, w
    {
      w.writeWaits != NoWait || (r.readWaits && w.sent == r.received && w.flushed == |w.sent|)
    }

    /** The call waited for has no answer left: its peer stays silent for good. */
    ghost predicate Starved(r: Stream, w: Stream)
      reads r, w
    {
      match w.writeWaits
      case ForWrite => w.acceptances == []
      case ForFlush => w.flushes == []
      case ForShutdown => w.shutdowns == []
      case NoWait => r.readWaits && r.deliveries == [] && w.sent == r.received && w.flushed == |w.sent|
    }

    /** Refills an empty buffer. Flushes while the reader has nothing, so that a peer that answers only what
        it has seen is not kept waiting. */
    method Fill(r: Stream, w: Stream) returns (p: Poll<()>)
      requires r != w && Valid(r, w) && pos == cap && !readDone && w.writeWaits == NoWait
      modifies this, buf, r`deliveries, r`received, r`ended, r`readWaits, r`breaks,
               w`flushes, w`flushed, w`writeWaits, w`breaks
      ensures r.breaks + w.breaks == old(r.breaks + w.breaks) + if p.Failed? then 1 else 0
      ensures old(r.Smooth() && w.Smooth()) ==> r.Smooth() && w.Smooth() && !p.Failed?
      ensures Valid(r, w) && Extends(old(r.received), r.received) && old(w.flushed) <= w.flushed
      ensures buf.Length == 0 ==> r.received == old(r.received)
      ensures old(w.flushed) == |w.sent| ==> w.flushes == old(w.flushes)
      ensures r.Left() + w.Left() <= old(r.Left() + w.Left())
      ensures p.Ready? ==>
          w.writeWaits == NoWait && pos <= cap && (readDone || r.Left() + w.Left() < old(r.Left() + w.Left()))
      ensures p.Pending? ==> Waiting(r, w) && (Starved(r, w) || r.Left() + w.Left() < old(r.Left() + w.Left()))
      ensures p.Failed? ==> p.error == Broken
    {
      var n := r.Read(buf);
      match n {
        case Failed(e) =>
          return Failed(Broken);
        case Pending =>
          assert buf[pos..cap] == [];
          if needFlush {
            var flushed := w.Flush();
            match flushed {
              case Failed(e) => return Failed(Broken);
              case Pending => return Pending;
              case Ready(_) => needFlush := false;
            }
          }
          return Pending;
        case Ready(n) =>
          if n == 0 {
            readDone := true;
          } else {
            pos, cap := 0, n;
          }
          return Ready(());
      }
    }

    /** Offers what is in the buffer once. */
    method WriteOnce(r: Stream, w: Stream) returns (p: Poll<()>)
      requires r != w && Valid(r, w) && pos < cap
      modifies this`pos, this`amt, this`needFlush, w`acceptances, w`sent, w`writeWaits, w`breaks, w`zeros
      ensures w.breaks == old(w.breaks) + if p == Failed(Broken) then 1 else 0
      ensures w.zeros == old(w.zeros) + if p == Failed(WriteZero) then 1 else 0
      ensures old(w.Smooth()) ==> w.Smooth() && !p.Failed?
      ensures Valid(r, w) && Extends(old(w.sent), w.sent)
      ensures p.Ready? ==> old(pos) < pos && w.Left() < old(w.Left()) && w.writeWaits == NoWait
      ensures !p.Ready? ==> pos == old(pos) && w.Left() <= old(w.Left())
      ensures p.Pending? ==> w.writeWaits == ForWrite && (w.acceptances == [] || w.Left() < old(w.Left()))
      ensures p.Failed? ==> w.sent < r.received
    {
      hide Stream.Left;
      var held := buf[pos..cap];
      assert held != [] && r.received == w.sent + held;
      var n := w.Write(held);
      match n {
        case Failed(e) => return Failed(Broken);
        case Pending => return Pending;
        case Ready(i) =>
          if i == 0 {
            return Failed(WriteZero);
          }
          assert buf[pos + i..cap] == held[i..];
          Moved(old(w.sent), held, i);
          pos, amt, needFlush := pos + i, amt + i, true;
          return Ready(());
      }
    }

    /** Writes out what is in the buffer. */
    method Empty(r: Stream, w: Stream) returns (p: Poll<()>)
      requires r != w && Valid(r, w) && w.writeWaits == NoWait
      modifies this`pos, this`amt, this`needFlush, w`acceptances, w`sent, w`writeWaits, w`breaks, w`zeros
      ensures w.breaks == old(w.breaks) + if p == Failed(Broken) then 1 else 0
      ensures w.zeros == old(w.zeros) + if p == Failed(WriteZero) then 1 else 0
      ensures old(w.Smooth()) ==> w.Smooth() && !p.Failed?
      ensures Valid(r, w) && Extends(old(w.sent), w.sent) && w.Left() <= old(w.Left())
      ensures p.Ready? ==> w.writeWaits == NoWait && pos == cap && (old(pos < cap) ==> w.Left() < old(w.Left()))
      ensures p.Pending? ==> w.writeWaits == ForWrite && (w.acceptances == [] || w.Left() < old(w.Left()))
      ensures p.Failed? ==> w.sent < r.received
    {
      hide Stream.Left;
      assert pos <= cap;
      while pos < cap
        invariant Valid(r, w) && Extends(old(w.sent), w.sent) && old(pos) <= pos <= cap && w.Left() <= old(w.Left())
        invariant w.writeWaits == NoWait
        invariant old(pos) < pos ==> w.Left() < old(w.Left())
        invariant w.breaks == old(w.breaks) && w.zeros == old(w.zeros) && (old(w.Smooth()) ==> w.Smooth())
      {
        var written := WriteOnce(r, w);
        if !written.Ready? {
          return written;
        }
      }
      return Ready(());
    }

    /** The last flush of a copy whose reader has ended. */
    method Finish(r: Stream, w: Stream) returns (p: Poll<nat>)
      requires r != w && Valid(r, w) && pos == cap && readDone
      modifies w`flushes, w`flushed, w`writeWaits, w`breaks
      ensures w.breaks == old(w.breaks) + if p.Failed? then 1 else 0
      ensures old(w.Smooth()) ==> w.Smooth() && !p.Failed?
      ensures Valid(r, w) && old(w.flushed) <= w.flushed && w.Left() <= old(w.Left())
      ensures p.Ready? ==> p.value == |w.sent| && w.sent == r.received && w.flushed == |w.sent|
      ensures p.Pending? ==> w.writeWaits == ForFlush && (w.flushes == [] || w.Left() < old(w.Left()))
      ensures p.Failed? ==> p.error == Broken
    {
      assert buf[pos..cap] == [];
      var flushed := w.Flush();
      match flushed {
        case Failed(e) => return Failed(Broken);
        case Pending => return Pending;
        case Ready(_) => return Ready(amt);
      }
    }

    /** The second half of a turn: empty the buffer, and finish if the reader has ended. */
    method Drain(r: Stream, w: Stream) returns (again: bool, p: Poll<nat>)
      requires r != w && Valid(r, w) && w.writeWaits == NoWait
      modifies this`pos, this`amt, this`needFlush,
               w`acceptances, w`sent, w`flushes, w`flushed, w`writeWaits, w`breaks, w`zeros
      ensures w.breaks == old(w.breaks) + if p == Failed(Broken) then 1 else 0
      ensures w.zeros == old(w.zeros) + if p == Failed(WriteZero) then 1 else 0
      ensures old(w.Smooth()) ==> w.Smooth() && !p.Failed?
      ensures again ==> p.Pending? && !readDone && w.writeWaits == NoWait
      ensures again && old(pos < cap) ==> w.Left() < old(w.Left())
      ensures Valid(r, w) && Extends(old(w.sent), w.sent) && old(w.flushed) <= w.flushed && w.Left() <= old(w.Left())
      ensures !again && p.Ready? ==> p.value == |w.sent| && w.sent == r.received && w.flushed == |w.sent| && readDone
      ensures !again && p.Pending? ==>
          || (w.writeWaits == ForWrite && (w.acceptances == [] || w.Left() < old(w.Left())))
          || (w.writeWaits == ForFlush && (w.flushes == [] || w.Left() < old(w.Left())))
      ensures !again && p == Failed(WriteZero) ==> w.sent < r.received
    {
      hide Valid, Stream.Left, Extends, Stream.Smooth;
      again := false;
      var emptied := Empty(r, w);
      match emptied {
        case Failed(e) => return false, Failed(e);
        case Pending => return false, Pending;
        case Ready(_) =>
      }
      if pos == cap && readDone {
        p := Finish(r, w);
      } else {
        again, p := true, Pending;
      }
    }

    /** One turn of the copy: fill, empty, and finish if the reader has ended. */
    method Turn(r: Stream, w: Stream) returns (again: bool, p: Poll<nat>)
      requires r != w && Valid(r, w) && w.writeWaits == NoWait
      modifies this, buf, r`deliveries, r`received, r`ended, r`readWaits, r`breaks,
               w`acceptances, w`sent, w`flushes, w`flushed, w`writeWaits, w`breaks, w`zeros
      ensures r.breaks + w.breaks == old(r.breaks + w.breaks) + if p == Failed(Broken) then 1 else 0
      ensures w.zeros == old(w.zeros) + if p == Failed(WriteZero) then 1 else 0
      ensures old(r.Smooth() && w.Smooth()) ==> r.Smooth() && w.Smooth() && !p.Failed?
      ensures again ==> p.Pending?
      ensures Valid(r, w) && Extends(old(r.received), r.received)
      ensures Extends(old(w.sent), w.sent) && old(w.flushed) <= w.flushed
      ensures buf.Length == 0 ==> r.received == old(r.received)
      ensures r.Left() + w.Left() <= old(r.Left() + w.Left())
      ensures again ==> w.writeWaits == NoWait && r.Left() + w.Left() < old(r.Left() + w.Left())
      ensures !again && p.Ready? ==> p.value == |w.sent| && w.sent == r.received && w.flushed == |w.sent| && readDone
      ensures !again && p.Pending? ==>
          Waiting(r, w) && (Starved(r, w) || r.Left() + w.Left() < old(r.Left() + w.Left()))
      ensures !again && p == Failed(WriteZero) ==> w.sent < r.received
    {
      assert pos <= cap && Extends(r.received, r.received) && Extends(w.sent, w.sent);
      hide Valid, Stream.Left, Extends, Stream.Smooth;
      again := false;
      if pos == cap && !readDone {
        var filled := Fill(r, w);
        match filled {
          case Failed(e) => return false, Failed(e);
          case Pending => return false, Pending;
          case Ready(_) =>
        }
      }
      again, p := Drain(r, w);
    }

    /** One poll: copies until something is not ready, fails, or the reader has ended. */
    method PollCopy(r: Stream, w: Stream) returns (p: Poll<nat>)
      requires r != w && Valid(r, w)
      modifies this, buf, r`deliveries, r`received, r`ended, r`readWaits, r`breaks,
               w`acceptances, w`sent, w`flushes, w`flushed, w`writeWaits, w`breaks, w`zeros
      ensures r.breaks + w.breaks == old(r.breaks + w.breaks) + if p == Failed(Broken) then 1 else 0
      ensures w.zeros == old(w.zeros) + if p == Failed(WriteZero) then 1 else 0
      ensures old(r.Smooth() && w.Smooth()) ==> r.Smooth() && w.Smooth() && !p.Failed?
      ensures Valid(r, w) && Extends(old(r.received), r.received)
      ensures Extends(old(w.sent), w.sent) && old(w.flushed) <= w.flushed
      ensures buf.Length == 0 ==> r.received == old(r.received)
      ensures r.Left() + w.Left() <= old(r.Left() + w.Left())
      ensures p.Ready? ==> p.value == |w.sent| && w.sent == r.received && w.flushed == |w.sent| && readDone
      ensures p.Pending? ==> Waiting(r, w) && (Starved(r, w) || r.Left() + w.Left() < old(r.Left() + w.Left()))
      ensures p == Failed(WriteZero) ==> w.sent < r.received
    {
      r.readWaits, w.writeWaits := false, NoWait;
      hide Valid, Stream.Left, Waiting, Starved, Extends, Stream.Smooth;
      var again := true;
      p := Pending;
      ExtendsOn(r.received, r.received, r.received);
      ExtendsOn(w.sent, w.sent, w.sent);
      while again
        invariant Valid(r, w) && (again ==> w.writeWaits == NoWait)
        invariant Extends(old(r.received), r.received) && Extends(old(w.sent), w.sent) && old(w.flushed) <= w.flushed
        invariant buf.Length == 0 ==> r.received == old(r.received)
        invariant r.Left() + w.Left() <= old(r.Left() + w.Left())
        invariant !again && p.Ready? ==>
            p.value == |w.sent| && w.sent == r.received && w.flushed == |w.sent| && readDone
        invariant !again && p.Pending? ==>
            Waiting(r, w) && (Starved(r, w) || r.Left() + w.Left() < old(r.Left() + w.Left()))
        invariant !again && p == Failed(WriteZero) ==> w.sent < r.received
        invariant again ==> p.Pending?
        invariant r.breaks + w.breaks == old(r.breaks + w.breaks) + if p == Failed(Broken) then 1 else 0
        invariant w.zeros == old(w.zeros) + if p == Failed(WriteZero) then 1 else 0
        invariant old(r.Smooth() && w.Smooth()) ==> r.Smooth() && w.Smooth() && !p.Failed?
        decreases again, r.Left() + w.Left()
      {
        ghost var received, sent := r.received, w.sent;
        again, p := Turn(r, w);
        ExtendsOn(old(r.received), received, r.received);
        ExtendsOn(old(w.sent), sent, w.sent);
      }
    }
  }

  datatype TransferState = Running(buffer: CopyBuffer) | ShuttingDown(count: nat) | Finished(count: nat)

  /** One direction. */
  class Transfer {
    var state: TransferState
    const buffer: CopyBuffer

    constructor (buffer: CopyBuffer)
      ensures state == Running(buffer) && this.buffer == buffer
    {
      this.state, this.buffer := Running(buffer), buffer;
    }

    /** The writer is shut down only after everything the reader delivered until its end has been sent and
        flushed. */
    ghost predicate Valid(r: Stream, w: Stream)
      reads this, buffer, buffer.buf, r, w
    {
      match state
      case Running(b) => b == buffer && b.Valid(r, w)
      case ShuttingDown(n) => Whole(r, w, n) && !w.closed
      case Finished(n) => Whole(r, w, n) && w.closed
    }

    ghost predicate Whole(r: Stream, w: Stream, n: nat)
      reads buffer, r, w
    {
      n == |w.sent| && w.sent == r.received && w.flushed == |w.sent| && (r.ended || buffer.buf.Length == 0)
    }

    method PollTransfer(r: Stream, w: Stream) returns (p: Poll<nat>)
      requires r != w && Valid(r, w)
      modifies this`state, buffer, buffer.buf, r`deliveries, r`received, r`ended, r`readWaits, r`breaks,
               w`acceptances, w`sent, w`flushes, w`flushed, w`shutdowns, w`closed, w`writeWaits, w`breaks, w`zeros
      ensures r.breaks + w.breaks == old(r.breaks + w.breaks) + if p == Failed(Broken) then 1 else 0
      ensures w.zeros == old(w.zeros) + if p == Failed(WriteZero) then 1 else 0
      ensures old(r.Smooth() && w.Smooth()) ==> r.Smooth() && w.Smooth() && !p.Failed?
      ensures Valid(r, w) && Extends(old(r.received), r.received) && Extends(old(w.sent), w.sent)
      ensures buffer.buf.Length == 0 ==> r.received == old(r.received)
      ensures r.Left() + w.Left() <= old(r.Left() + w.Left())
      ensures p.Ready? <==> state.Finished?
      ensures p.Ready? ==> p.value == state.count
      ensures p.Pending? ==>
          buffer.Waiting(r, w) && (buffer.Starved(r, w) || r.Left() + w.Left() < old(r.Left() + w.Left()))
      ensures old(state.Finished?) ==> state == old(state) && r.received == old(r.received) && w.sent == old(w.sent)
    {
      if state.Running? {
        var copied := buffer.PollCopy(r, w);
        match copied {
          case Failed(e) => return Failed(e);
          case Pending => return Pending;
          case Ready(n) => state := ShuttingDown(n);
        }
      }
      if state.ShuttingDown? {
        var down := w.Shutdown();
        match down {
          case Failed(e) => return Failed(e);
          case Pending => return Pending;
          case Ready(_) => state := Finished(state.count);
        }
      }
      return Ready(state.count);
    }
  }

  /** Both directions over the same two streams. */
  class BidiCopy {
    const a: Stream
    const b: Stream
    const ab: Transfer
    const ba: Transfer
    const brutal: bool

    ghost predicate Valid()
      reads this, a, b, ab, ba, ab.buffer, ba.buffer, ab.buffer.buf, ba.buffer.buf
    {
      && a != b && ab != ba && ab.buffer != ba.buffer && ab.buffer.buf != ba.buffer.buf
      && ab.Valid(a, b) && ba.Valid(b, a)
    }

    constructor (a: Stream, b: Stream, bufA: array<Byte>, bufB: array<Byte>, brutal: bool)
      requires a != b && bufA != bufB
      requires a.received == a.sent == b.received == b.sent == [] && a.flushed == b.flushed == 0
      requires !a.ended && !b.ended && !a.closed && !b.closed
      ensures Valid() && this.a == a && this.b == b && this.brutal == brutal
      ensures ab.buffer.buf == bufA && ba.buffer.buf == bufB
      ensures fresh(ab) && fresh(ba) && fresh(ab.buffer) && fresh(ba.buffer)
    {
      var forth := new CopyBuffer(bufA);
      var back := new CopyBuffer(bufB);
      this.a, this.b, this.brutal := a, b, brutal;
      ab := new Transfer(forth);
      ba := new Transfer(back);
    }

    /** One direction is over: its writer is shut down, and had everything the reader delivered, in order,
        before that. With a buffer that holds anything, the reader has come to its end; a buffer of no bytes
        takes its own lack of room for the end. */
    ghost predicate Delivered(t: Transfer, r: Stream, w: Stream)
      reads t, t.buffer, r, w
    {
      w.closed && w.sent == r.received && w.flushed == |w.sent| && (t.buffer.buf.Length > 0 ==> r.ended)
    }

    /** Every direction that has not finished waits for a peer that stays silent for good. */
    ghost predicate Silent()
      reads this, a, b, ab, ba, ab.buffer, ba.buffer
    {
      (!ab.state.Finished? ==> ab.buffer.Starved(a, b)) && (!ba.state.Finished? ==> ba.buffer.Starved(b, a))
    }

    /** Both transfers polled once; the second is not polled if the first fails. */
    method PollEach() returns (forth: Poll<nat>, back: Poll<nat>)
      requires Valid()
      modifies a, b, ab`state, ba`state, ab.buffer, ba.buffer, ab.buffer.buf, ba.buffer.buf
      ensures a.breaks + b.breaks
           == old(a.breaks + b.breaks) + if forth == Failed(Broken) || back == Failed(Broken) then 1 else 0
      ensures a.zeros + b.zeros
           == old(a.zeros + b.zeros) + if forth == Failed(WriteZero) || back == Failed(WriteZero) then 1 else 0
      ensures old(a.Smooth() && b.Smooth()) ==> a.Smooth() && b.Smooth() && !forth.Failed? && !back.Failed?
      ensures forth.Failed? ==> back.Pending?
      ensures Valid()
      ensures Extends(old(a.received), a.received) && Extends(old(b.received), b.received)
      ensures Extends(old(a.sent), a.sent) && Extends(old(b.sent), b.sent)
      ensures a.Left() + b.Left() <= old(a.Left() + b.Left())
      ensures ab.buffer.buf.Length == 0 ==> a.received == old(a.received)
      ensures forth.Ready? <==> ab.state.Finished?
      ensures forth.Ready? ==> forth.value == ab.state.count
      ensures !forth.Failed? && back.Ready? ==> ba.state == Finished(back.value)
      ensures !forth.Failed? && back.Pending? ==> !ba.state.Finished?
      ensures forth.Pending? ==> ab.buffer.Waiting(a, b)
      ensures forth.Pending? ==> ab.buffer.Starved(a, b) || a.Left() + b.Left() < old(a.Left() + b.Left())
      ensures !forth.Failed? && back.Pending? ==> ba.buffer.Waiting(b, a)
      ensures !forth.Failed? && back.Pending? ==>
          ba.buffer.Starved(b, a) || a.Left() + b.Left() < old(a.Left() + b.Left())
    {
      hide Stream.Left, Stream.Smooth;
      forth := ab.PollTransfer(a, b);
      back := Pending;
      if !forth.Failed? {
        back := ba.PollTransfer(b, a);
      }
    }

    /** One poll of the relay. Ready means both directions have delivered everything and are shut down; with
        brutal shutdown it means at least one has, and the other is reported as having moved nothing. */
    method PollBoth() returns (p: Poll<(nat, nat)>)
      requires Valid()
      modifies a, b, ab`state, ba`state, ab.buffer, ba.buffer, ab.buffer.buf, ba.buffer.buf
      ensures a.breaks + b.breaks == old(a.breaks + b.breaks) + if p == Failed(Broken) then 1 else 0
      ensures a.zeros + b.zeros == old(a.zeros + b.zeros) + if p == Failed(WriteZero) then 1 else 0
      ensures old(a.Smooth() && b.Smooth()) ==> a.Smooth() && b.Smooth() && !p.Failed?
      ensures Valid()
      ensures Extends(old(a.received), a.received) && Extends(old(b.received), b.received)
      ensures Extends(old(a.sent), a.sent) && Extends(old(b.sent), b.sent)
      ensures a.Left() + b.Left() <= old(a.Left() + b.Left())
      ensures ab.buffer.buf.Length == 0 ==> a.received == old(a.received)
      ensures p.Ready? && !brutal ==> ab.state == Finished(p.value.0) && ba.state == Finished(p.value.1)
      ensures p.Ready? && brutal ==> ab.state.Finished? || ba.state.Finished?
      ensures p.Ready? && brutal ==> p.value.0 == if ab.state.Finished? then ab.state.count else 0
      ensures p.Ready? && brutal ==> p.value.1 == if ba.state.Finished? then ba.state.count else 0
      ensures p.Pending? ==> !(ab.state.Finished? && ba.state.Finished?)
      ensures p.Pending? && brutal ==> !ab.state.Finished? && !ba.state.Finished?
      ensures p.Pending? && !ab.state.Finished? ==> ab.buffer.Waiting(a, b)
      ensures p.Pending? && !ba.state.Finished? ==> ba.buffer.Waiting(b, a)
      ensures p.Pending? ==> Silent() || a.Left() + b.Left() < old(a.Left() + b.Left())
    {
      hide Stream.Left, Stream.Smooth, Extends, Valid, CopyBuffer.Starved, CopyBuffer.Waiting;
      var forth, back := PollEach();
      if forth.Failed? {
        return Failed(forth.error);
      }
      if back.Failed? {
        return Failed(back.error);
      }
      if !brutal {
        if forth.Pending? || back.Pending? {
          return Pending;
        }
        return Ready((forth.value, back.value));
      }
      match (forth, back) {
        case (Ready(m), Ready(n)) => return Ready((m, n));
        case (Pending, Ready(n)) => return Ready((0, n));
        case (Ready(m), Pending) => return Ready((m, 0));
        case _ => return Pending;
      }
    }

    /** The relay polled until it is done: it finishes, fails, or is left waiting only by a peer that never
        answers again. */
    method Await() returns (p: Poll<(nat, nat)>)
      requires Valid()
      modifies a, b, ab`state, ba`state, ab.buffer, ba.buffer, ab.buffer.buf, ba.buffer.buf
      ensures a.breaks + b.breaks == old(a.breaks + b.breaks) + if p == Failed(Broken) then 1 else 0
      ensures a.zeros + b.zeros == old(a.zeros + b.zeros) + if p == Failed(WriteZero) then 1 else 0
      ensures old(a.Smooth() && b.Smooth()) ==> a.Smooth() && b.Smooth() && !p.Failed?
      ensures Valid()
      ensures p.Pending? ==> Silent()
      ensures p.Ready? && !brutal ==> Delivered(ab, a, b) && Delivered(ba, b, a) && p.value == (|b.sent|, |a.sent|)
      ensures p.Ready? && brutal ==>
          (Delivered(ab, a, b) && p.value.0 == |b.sent|) || (Delivered(ba, b, a) && p.value.1 == |a.sent|)
      ensures ab.buffer.buf.Length == 0 ==> a.received == old(a.received)
    {
      hide Silent, Extends, Stream.Smooth;
      while true
        invariant Valid() && (ab.buffer.buf.Length == 0 ==> a.received == old(a.received))
        invariant a.breaks + b.breaks == old(a.breaks + b.breaks) && a.zeros + b.zeros == old(a.zeros + b.zeros)
        invariant old(a.Smooth() && b.Smooth()) ==> a.Smooth() && b.Smooth()
        decreases a.Left() + b.Left()
      {
        var left := a.Left() + b.Left();
        p := PollBoth();
        if !p.Pending? || a.Left() + b.Left() == left {
          return;
        }
      }
    }
  }
}
