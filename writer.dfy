/**
 * `NettyWriter`, the AsyncIOWriter bound to one channel: every write hands
 * exactly one message to the channel, in call order; redirect is not
 * supported; close closes the channel.
 */
module Writer {
  import opened Wrappers
  import opened Java
  import opened Netty

  class NettyWriter {
    const channel: Channel

    constructor (channel: Channel)
      ensures this.channel == channel
    {
      this.channel := channel;
    }

    /** `redirect`: always UnsupportedOperationException, nothing is written. */
    method Redirect(location: string) returns (r: Outcome<Fault>)
      ensures r == Fail(UnsupportedOperation)
    {
      r := Fail(UnsupportedOperation);
    }

    /** `writeError(code, message)`: a status-only response carrying `code`; the message is dropped. */
    method WriteError(errorCode: int, message: string)
      modifies channel
      ensures channel.outbound == old(channel.outbound) + [StatusOnly(errorCode)]
      ensures channel.closed == old(channel.closed)
    {
      channel.Write(StatusOnly(errorCode));
    }

    /** `write(String)`: the bytes of `data` in the platform charset, `getBytes`. */
    method WriteString(data: string, getBytes: string -> seq<int8>)
      modifies channel
      ensures channel.outbound == old(channel.outbound) + [Chunk(getBytes(data))]
      ensures channel.closed == old(channel.closed)
    {
      channel.Write(Chunk(getBytes(data)));
    }

    /** `write(byte[])`: the whole array. */
    method WriteBytes(data: array<int8>)
      modifies channel
      ensures channel.outbound == old(channel.outbound) + [Chunk(data[..])]
      ensures channel.closed == old(channel.closed)
    {
      channel.Write(Chunk(data[..]));
    }

    /**
     * `write(byte[], offset, length)`: `ByteBuffer.wrap(data, offset, length)`
     * throws IndexOutOfBoundsException unless the slice lies inside the
     * array; otherwise exactly that slice is written.
     */
    method WriteSlice(data: array<int8>, offset: int, length: int) returns (r: Outcome<Fault>)
      modifies channel
      ensures r.Pass? <==> 0 <= offset && 0 <= length && offset + length <= data.Length
      ensures r.Fail? ==> r.error == IndexOutOfBounds && channel.outbound == old(channel.outbound)
      ensures r.Pass? ==> channel.outbound == old(channel.outbound) + [Chunk(data[offset..offset + length])]
      ensures channel.closed == old(channel.closed)
    {
      if offset < 0 || length < 0 || offset + length > data.Length {
        return Fail(IndexOutOfBounds);
      }
      channel.Write(Chunk(data[offset..offset + length]));
      r := Pass;
    }

    /** `close`: closes the channel without writing anything. */
    method Close()
      modifies channel
      ensures channel.closed
      ensures channel.outbound == old(channel.outbound)
    {
      channel.Close();
    }
  }

  /** One call the pipeline can make on a writer. */
  datatype WriterCall =
    | WriteStringCall(text: string)
    | WriteBytesCall(data: seq<int8>)
    | WriteSliceCall(data: seq<int8>, offset: int, length: int)
    | WriteErrorCall(code: int, message: string)
    | RedirectCall(location: string)
    | CloseCall

  /** The messages one call hands to the channel. */
  function Sent(call: WriterCall, getBytes: string -> seq<int8>): (ms: seq<Message>)
    ensures |ms| <= 1
    ensures call.RedirectCall? || call.CloseCall? ==> ms == []
    ensures call.WriteStringCall? || call.WriteBytesCall? || call.WriteErrorCall? ==> |ms| == 1
    ensures call.WriteSliceCall? ==>
      (|ms| == 1 <==> 0 <= call.offset && 0 <= call.length && call.offset + call.length <= |call.data|)
  {
    match call
    case WriteStringCall(text) => [Chunk(getBytes(text))]
    case WriteBytesCall(data) => [Chunk(data)]
    case WriteSliceCall(data, offset, length) =>
      if 0 <= offset && 0 <= length && offset + length <= |data|
      then [Chunk(data[offset..offset + length])] else []
    case WriteErrorCall(code, _) => [StatusOnly(code)]
    case RedirectCall(_) => []
    case CloseCall => []
  }

  /**
   * The channel log a sequence of calls produces: each call's messages, in
   * call order. Its exact length is stated by `LogLength` below.
   */
  function Log(calls: seq<WriterCall>, getBytes: string -> seq<int8>): (ms: seq<Message>)
    ensures |ms| <= |calls|
  {
    if calls == [] then []
    else Log(calls[..|calls| - 1], getBytes) + Sent(calls[|calls| - 1], getBytes)
  }

  /** The number of calls in `calls` that write anything. */
  function Writes(calls: seq<WriterCall>, getBytes: string -> seq<int8>): (n: nat)
    ensures n <= |calls|
    ensures n == 0 <==> forall c :: c in calls ==> Sent(c, getBytes) == []
  {
    if calls == [] then 0
    else Writes(calls[..|calls| - 1], getBytes) + (if Sent(calls[|calls| - 1], getBytes) == [] then 0 else 1)
  }

  /** Logs compose: the calls of `b` add their messages after those of `a`. */
  lemma {:induction false} LogAppend(a: seq<WriterCall>, b: seq<WriterCall>, getBytes: string -> seq<int8>)
    ensures Log(a + b, getBytes) == Log(a, getBytes) + Log(b, getBytes)
  {
    if b == [] {
      assert a + b == a;
    } else {
      var init, last := b[..|b| - 1], b[|b| - 1];
      assert (a + b)[..|a + b| - 1] == a + init;
      assert (a + b)[|a + b| - 1] == last;
      LogAppend(a, init, getBytes);
      assert Log(a + b, getBytes) == Log(a + init, getBytes) + Sent(last, getBytes);
      assert Log(b, getBytes) == Log(init, getBytes) + Sent(last, getBytes);
    }
  }

  /** A call that writes contributes exactly one message, never more. */
  lemma {:induction false} LogLength(calls: seq<WriterCall>, getBytes: string -> seq<int8>)
    ensures |Log(calls, getBytes)| == Writes(calls, getBytes)
  {
    if calls != [] {
      LogLength(calls[..|calls| - 1], getBytes);
    }
  }

  /** Later calls never disturb what earlier calls wrote. */
  lemma {:induction false} LogKeepsEarlierMessages(calls: seq<WriterCall>, i: nat, getBytes: string -> seq<int8>)
    requires i <= |calls|
    ensures Log(calls[..i], getBytes) <= Log(calls, getBytes)
  {
    assert calls == calls[..i] + calls[i..];
    LogAppend(calls[..i], calls[i..], getBytes);
  }

  /** One call `call` issued on `w`: the channel receives exactly `Sent(call)`. */
  method Issue(w: NettyWriter, call: WriterCall, getBytes: string -> seq<int8>)
    modifies w.channel
    ensures w.channel.outbound == old(w.channel.outbound) + Sent(call, getBytes)
    ensures w.channel.closed == (old(w.channel.closed) || call == CloseCall)
  {
    match call {
      case WriteStringCall(text) =>
        w.WriteString(text, getBytes);
      case WriteBytesCall(data) =>
        var a := new int8[|data|](j requires 0 <= j < |data| => data[j]);
        assert a[..] == data;
        w.WriteBytes(a);
      case WriteSliceCall(data, offset, length) =>
        var a := new int8[|data|](j requires 0 <= j < |data| => data[j]);
        assert a[..] == data;
        var _ := w.WriteSlice(a, offset, length);
      case WriteErrorCall(code, message) =>
        w.WriteError(code, message);
      case RedirectCall(location) =>
        var _ := w.Redirect(location);
      case CloseCall =>
        w.Close();
    }
  }

  /** Issuing one more call extends the log by that call's messages. */
  lemma ReplayStep(calls: seq<WriterCall>, i: nat, getBytes: string -> seq<int8>)
    requires i < |calls|
    ensures Log(calls[..i + 1], getBytes) == Log(calls[..i], getBytes) + Sent(calls[i], getBytes)
    ensures CloseCall in calls[..i + 1] <==> CloseCall in calls[..i] || calls[i] == CloseCall
  {
    assert calls[..i + 1][..i] == calls[..i];
    assert calls[..i + 1] == calls[..i] + [calls[i]];
  }

  /**
   * A pipeline that issues `calls` one after another on `w`: the channel
   * receives exactly `Log(calls)` after what it held, and it is closed
   * afterwards exactly when it was closed before or a close call was made.
   */
  method Replay(w: NettyWriter, calls: seq<WriterCall>, getBytes: string -> seq<int8>)
    modifies w.channel
    ensures w.channel.outbound == old(w.channel.outbound) + Log(calls, getBytes)
    ensures w.channel.closed == (old(w.channel.closed) || CloseCall in calls)
  {
    var i := 0;
    while i < |calls|
      invariant 0 <= i <= |calls|
      invariant w.channel.outbound == old(w.channel.outbound) + Log(calls[..i], getBytes)
      invariant w.channel.closed == (old(w.channel.closed) || CloseCall in calls[..i])
    {
      ReplayStep(calls, i, getBytes);
      Issue(w, calls[i], getBytes);
      i := i + 1;
    }
    assert calls[..|calls|] == calls;
  }
}
