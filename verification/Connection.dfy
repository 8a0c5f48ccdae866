/** The two connection classes, one call at a time; Transport has the interleaved calls. */
module Connection {
  import opened Basics
  import opened Session
  import opened Attempts

  /** SyncConn. */
  class SyncConn {
    var open: bool
    ghost var trace: seq<Event>

    ghost function Value(): Link
      reads this
    {
      Link(open, trace)
    }

    constructor ()
      ensures Value() == Link(true, [])
    {
      open, trace := true, [];
    }

    method Close()
      modifies this
      ensures Value() == Link(false, old(trace))
    {
      open := false;
    }

    /** Any failure after the mutex is taken closes the transport. */
    method Command(frame: Frame, io: Io) returns (r: Option<Reply>)
      modifies this
      ensures Value() == LinkAfter(old(Value()), frame, io, false)
      ensures r == ReplyOf(old(open), io)
    {
      if io.NotEncoded? {
        return None;
      }
      if open && !io.WriteFails? {
        trace := trace + [Sent(frame)];
        if io.Replied? {
          assert old(trace) + [Sent(frame)] + [Got(io.reply)] == old(trace) + [Sent(frame), Got(io.reply)];
          trace := trace + [Got(io.reply)];
          return Some(io.reply);
        }
      }
      Close();
      return None;
    }
  }

  /** AsyncConn. */
  class AsyncConn {
    var open: bool
    ghost var trace: seq<Event>

    ghost function Value(): Link
      reads this
    {
      Link(open, trace)
    }

    constructor ()
      ensures Value() == Link(true, [])
    {
      open, trace := true, [];
    }

    method CloseNowait()
      modifies this
      ensures Value() == Link(false, old(trace))
    {
      open := false;
    }

    /** A failure closes the transport only once the write is committed. */
    method Command(frame: Frame, io: Io) returns (r: Option<Reply>)
      modifies this
      ensures Value() == LinkAfter(old(Value()), frame, io, true)
      ensures r == ReplyOf(old(open), io)
    {
      var writeCommitted := false;
      if !io.NotEncoded? && open && !io.WriteFails? {
        trace := trace + [Sent(frame)];
        writeCommitted := true;
        if io.Replied? {
          assert old(trace) + [Sent(frame)] + [Got(io.reply)] == old(trace) + [Sent(frame), Got(io.reply)];
          trace := trace + [Got(io.reply)];
          return Some(io.reply);
        }
      }
      if writeCommitted {
        CloseNowait();
      }
      return None;
    }
  }
}
