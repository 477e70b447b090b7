/**
 * The Unix datagram socket's non-blocking operations (src/uds/datagram.rs):
 * poll the bridge for readiness in one direction; if ready, attempt the
 * system call; if the call would block, clear that direction's readiness and
 * suspend; otherwise hand the call's result back unchanged.
 *
 * The system call's result is an input of each operation, and so is the
 * failure (if any) of each bridge call. `ConsumerRound` gives what one
 * operation does as a value; the methods of `UnixDatagram` are proved to do
 * exactly that, and the lemmas say what it means.
 */
module Datagram {
  import opened Core
  import opened Io
  import opened Futures
  import opened Readiness

  /** The address a datagram came from (`std::os::unix::net::SocketAddr`). */
  datatype SocketAddr = Unnamed | Pathname(path: string)

  /** A successful `recv_from`: the number of bytes read and the sender. */
  datatype Received = Received(len: nat, from: SocketAddr)

  /** `is_wouldblock`: the result is an error of kind `WouldBlock`. */
  function IsWouldBlock<T>(r: IoResult<T>): (b: bool)
    ensures r.Ok? ==> !b
    ensures r.Err? ==> (b <==> r.error.kind == WouldBlock)
  {
    match r
    case Ok(_) => false
    case Err(e) => e.kind == WouldBlock
  }

  /** A call the socket makes, in the order it makes them. */
  datatype Call =
    | PollReadyCall(dir: Direction, waker: WakerId)
    | Attempt(dir: Direction)              // `recv_from` (Read) or `send_to` (Write)
    | ClearReadyCall(dir: Direction, waker: WakerId)

  function CallDirection(c: Call): Direction {
    match c
    case PollReadyCall(d, _) => d
    case Attempt(d) => d
    case ClearReadyCall(d, _) => d
  }

  /** The bridge afterwards, the calls made, and the answer of one operation. */
  datatype Round<T> = Round(after: BridgeState, calls: seq<Call>, out: Poll<IoResult<T>>)

  /**
   * One `poll_recv_from` (d = Read) or `poll_send_to` (d = Write) with waker `w`:
   * `pollFailure` and `clearFailure` are the bridge calls' failures and `attempt`
   * is what the system call returns when it is made.
   */
  function ConsumerRound<T>(b: BridgeState, d: Direction, w: WakerId, pollFailure: Option<IoError>,
                            attempt: IoResult<T>, clearFailure: Option<IoError>): Round<T>
  {
    var polled := AfterPollReady(b, d, w, pollFailure);
    match ReadyAnswer(b, d, pollFailure)
    case Pending => Round(polled, [PollReadyCall(d, w)], Pending)
    case Ready(Err(e)) => Round(polled, [PollReadyCall(d, w)], Ready(Err(e)))
    case Ready(Ok(_)) =>
      if IsWouldBlock(attempt) then
        var calls := [PollReadyCall(d, w), Attempt(d), ClearReadyCall(d, w)];
        var cleared := AfterClearReady(polled, d, w, clearFailure);
        match ClearAnswer(clearFailure)
        case Err(e) => Round(cleared, calls, Ready(Err(e)))
        case Ok(_) => Round(cleared, calls, Pending)
      else Round(polled, [PollReadyCall(d, w), Attempt(d)], Ready(attempt))
  }

  /** Not ready: the operation suspends without making the system call, leaving the
      caller's waker registered. A failing poll is answered as `Ready(Err)`. */
  lemma NotReadySuspends<T>(b: BridgeState, d: Direction, w: WakerId, pollFailure: Option<IoError>,
                            attempt: IoResult<T>, clearFailure: Option<IoError>)
    ensures var r := ConsumerRound(b, d, w, pollFailure, attempt, clearFailure);
            && (pollFailure.None? && !IsReady(b, d) ==>
                  r.out == Pending && r.calls == [PollReadyCall(d, w)] && WakerOf(r.after, d) == Some(w))
            && (pollFailure.Some? ==>
                  r.out == Ready(Err(pollFailure.value)) && r.calls == [PollReadyCall(d, w)] && r.after == b)
  {
  }

  /** Ready and the call would block: readiness is cleared with the same waker and the
      operation suspends, unless the clear fails, whose error is returned. */
  lemma WouldBlockClears<T>(b: BridgeState, d: Direction, w: WakerId,
                            attempt: IoResult<T>, clearFailure: Option<IoError>)
    requires IsReady(b, d) && IsWouldBlock(attempt)
    ensures var r := ConsumerRound(b, d, w, None, attempt, clearFailure);
            && r.calls == [PollReadyCall(d, w), Attempt(d), ClearReadyCall(d, w)]
            && (clearFailure.None? ==> r.out == Pending && !IsReady(r.after, d) && WakerOf(r.after, d) == Some(w))
            && (clearFailure.Some? ==> r.out == Ready(Err(clearFailure.value)) && r.after == b)
  {
  }

  /** Ready and the call gives anything but would-block: that exact result is returned
      and the bridge, readiness flag included, is left as it was. */
  lemma ResultPassesThrough<T>(b: BridgeState, d: Direction, w: WakerId,
                               attempt: IoResult<T>, clearFailure: Option<IoError>)
    requires IsReady(b, d) && !IsWouldBlock(attempt)
    ensures var r := ConsumerRound(b, d, w, None, attempt, clearFailure);
            r.out == Ready(attempt) && r.after == b && r.calls == [PollReadyCall(d, w), Attempt(d)]
  {
  }

  /** The system call is made exactly when the readiness poll answered `Ready(Ok)`, and
      readiness is cleared exactly when that call would block. */
  lemma AttemptOnlyWhenReady<T>(b: BridgeState, d: Direction, w: WakerId, pollFailure: Option<IoError>,
                                attempt: IoResult<T>, clearFailure: Option<IoError>)
    ensures var r := ConsumerRound(b, d, w, pollFailure, attempt, clearFailure);
            && (Attempt(d) in r.calls <==> ReadyAnswer(b, d, pollFailure).Ready? && ReadyAnswer(b, d, pollFailure).value.Ok?)
            && (ClearReadyCall(d, w) in r.calls <==> Attempt(d) in r.calls && IsWouldBlock(attempt))
  {
  }

  /** A `WouldBlock` error is never handed to the caller from the system call: one that
      is returned is the failure of a bridge call. */
  lemma NeverReturnsWouldBlock<T>(b: BridgeState, d: Direction, w: WakerId, pollFailure: Option<IoError>,
                                  attempt: IoResult<T>, clearFailure: Option<IoError>)
    ensures var r := ConsumerRound(b, d, w, pollFailure, attempt, clearFailure);
            r.out.Ready? && IsWouldBlock(r.out.value) ==>
              r.out.value.error in OptionToSeq(pollFailure) + OptionToSeq(clearFailure)
  {
  }

  /** An operation touches only its own direction: every call it makes is on `d` and the
      other direction's flag and waker are unchanged. */
  lemma OwnDirectionOnly<T>(b: BridgeState, d: Direction, w: WakerId, pollFailure: Option<IoError>,
                            attempt: IoResult<T>, clearFailure: Option<IoError>)
    ensures var r := ConsumerRound(b, d, w, pollFailure, attempt, clearFailure);
            && (forall i :: 0 <= i < |r.calls| ==> CallDirection(r.calls[i]) == d)
            && IsReady(r.after, Opposite(d)) == IsReady(b, Opposite(d))
            && WakerOf(r.after, Opposite(d)) == WakerOf(b, Opposite(d))
  {
    PollReadyContract(b, d, w, pollFailure);
    ClearReadyContract(AfterPollReady(b, d, w, pollFailure), d, w, clearFailure);
  }

  /** A suspension never loses the caller: whenever an operation answers `Pending`, the
      direction is not ready and its slot holds the caller's waker, so the next
      readiness event for that direction wakes this task. */
  lemma PendingRegistersWaker<T>(b: BridgeState, d: Direction, w: WakerId, pollFailure: Option<IoError>,
                                 attempt: IoResult<T>, clearFailure: Option<IoError>)
    ensures var r := ConsumerRound(b, d, w, pollFailure, attempt, clearFailure);
            r.out.Pending? ==> !IsReady(r.after, d) && WakerOf(r.after, d) == Some(w)
  {
  }

  /** One poll of a sequence: the waker it passes and the system call's would-be result. */
  datatype Retry<T> = Retry(waker: WakerId, attempt: IoResult<T>)

  /** Running the operation once per entry of `rs`, no bridge call failing and no
      readiness event arriving in between. */
  function Retries<T>(b: BridgeState, d: Direction, rs: seq<Retry<T>>): (r: Round<T>)
    ensures |r.calls| >= |rs|
    decreases |rs|
  {
    if rs == [] then Round(b, [], Pending)
    else
      var first := ConsumerRound(b, d, rs[0].waker, None, rs[0].attempt, None);
      var rest := Retries(first.after, d, rs[1..]);
      Round(rest.after, first.calls + rest.calls, if |rs| == 1 then first.out else rest.out)
  }

  /** Once a direction is not ready, polling again and again without a readiness event
      never reaches the system call and keeps suspending, each time with the latest
      waker registered: the task sleeps until the reactor delivers an event. */
  lemma {:induction false} NoBusyPolling<T>(b: BridgeState, d: Direction, rs: seq<Retry<T>>)
    requires !IsReady(b, d) && rs != []
    ensures var r := Retries(b, d, rs);
            && r.out == Pending
            && r.calls == seq(|rs|, i requires 0 <= i < |rs| => PollReadyCall(d, rs[i].waker))
            && !IsReady(r.after, d)
            && WakerOf(r.after, d) == Some(rs[|rs| - 1].waker)
    decreases |rs|
  {
    var first := ConsumerRound(b, d, rs[0].waker, None, rs[0].attempt, None);
    NotReadySuspends(b, d, rs[0].waker, None, rs[0].attempt, None);
    if |rs| > 1 {
      NoBusyPolling(first.after, d, rs[1..]);
      var rest := Retries(first.after, d, rs[1..]);
      assert first.calls + rest.calls == seq(|rs|, i requires 0 <= i < |rs| => PollReadyCall(d, rs[i].waker));
    } else {
      assert Retries(first.after, d, rs[1..]).calls == [];
      assert first.calls + [] == seq(|rs|, i requires 0 <= i < |rs| => PollReadyCall(d, rs[i].waker));
    }
  }

  /** A Unix datagram socket over its readiness bridge. `calls` records the calls it
      makes on the bridge and on the operating system. */
  class UnixDatagram {
    const io: PollEvented
    ghost var calls: seq<Call>

    /** `UnixDatagram::new`: wraps a freshly registered socket. */
    constructor (io: PollEvented)
      ensures this.io == io && calls == []
    {
      this.io := io;
      calls := [];
    }

    /** `poll_read_ready`: the bridge's read answer, unchanged. */
    method PollReadReady(w: WakerId, failure: Option<IoError>) returns (p: Poll<IoResult<ReadyToken>>)
      modifies io, this`calls
      ensures p == ReadyAnswer(old(io.View()), Read, failure)
      ensures io.View() == AfterPollReady(old(io.View()), Read, w, failure)
      ensures calls == old(calls) + [PollReadyCall(Read, w)]
    {
      p := io.PollReady(Read, w, failure);
      calls := calls + [PollReadyCall(Read, w)];
    }

    /** `poll_write_ready`: the bridge's write answer, unchanged. */
    method PollWriteReady(w: WakerId, failure: Option<IoError>) returns (p: Poll<IoResult<ReadyToken>>)
      modifies io, this`calls
      ensures p == ReadyAnswer(old(io.View()), Write, failure)
      ensures io.View() == AfterPollReady(old(io.View()), Write, w, failure)
      ensures calls == old(calls) + [PollReadyCall(Write, w)]
    {
      p := io.PollReady(Write, w, failure);
      calls := calls + [PollReadyCall(Write, w)];
    }

    /** `poll_recv_from`; `received` is what `recv_from` returns if it is called. */
    method PollRecvFrom(w: WakerId, pollFailure: Option<IoError>, received: IoResult<Received>,
                        clearFailure: Option<IoError>) returns (p: Poll<IoResult<Received>>)
      modifies io, this`calls
      ensures var r := ConsumerRound(old(io.View()), Read, w, pollFailure, received, clearFailure);
              io.View() == r.after && calls == old(calls) + r.calls && p == r.out
    {
      var ready := io.PollReady(Read, w, pollFailure);
      calls := calls + [PollReadyCall(Read, w)];
      if ready.Pending? {
        return Pending;
      }
      if ready.value.Err? {
        return Ready(Err(ready.value.error));
      }
      var r := received;
      calls := calls + [Attempt(Read)];
      if IsWouldBlock(r) {
        var cleared := io.ClearReady(Read, w, clearFailure);
        calls := calls + [ClearReadyCall(Read, w)];
        if cleared.Err? {
          return Ready(Err(cleared.error));
        }
        return Pending;
      }
      return Ready(r);
    }

    /** `poll_send_to`; `sent` is what `send_to` returns if it is called. */
    method PollSendTo(w: WakerId, pollFailure: Option<IoError>, sent: IoResult<nat>,
                      clearFailure: Option<IoError>) returns (p: Poll<IoResult<nat>>)
      modifies io, this`calls
      ensures var r := ConsumerRound(old(io.View()), Write, w, pollFailure, sent, clearFailure);
              io.View() == r.after && calls == old(calls) + r.calls && p == r.out
    {
      var ready := io.PollReady(Write, w, pollFailure);
      calls := calls + [PollReadyCall(Write, w)];
      if ready.Pending? {
        return Pending;
      }
      if ready.value.Err? {
        return Ready(Err(ready.value.error));
      }
      var r := sent;
      calls := calls + [Attempt(Write)];
      if IsWouldBlock(r) {
        var cleared := io.ClearReady(Write, w, clearFailure);
        calls := calls + [ClearReadyCall(Write, w)];
        if cleared.Err? {
          return Ready(Err(cleared.error));
        }
        return Pending;
      }
      return Ready(r);
    }
  }
}
