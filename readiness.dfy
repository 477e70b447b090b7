/**
 * The readiness bridge (`PollEvented`) that a Unix datagram socket sits on.
 * Its source is not part of this model; it is described here by the contract
 * the socket code relies on: one sticky readiness flag and one waker slot per
 * direction. A ready poll reports the flag without consuming it; a poll that
 * finds the flag unset registers the caller's waker (replacing any earlier
 * one) and suspends; a clear unsets the flag and registers the waker again.
 * Either call may fail; the failure is an input of the call and leaves the bridge as it was.
 */
module Readiness {
  import opened Core
  import opened Io
  import opened Futures

  datatype Direction = Read | Write

  /** The readiness a ready poll reports (`mio::Ready` for that direction). */
  datatype ReadyToken = Readable | Writable

  function Opposite(d: Direction): (o: Direction)
    ensures o != d
  {
    if d == Read then Write else Read
  }

  function ReadinessOf(d: Direction): ReadyToken {
    if d == Read then Readable else Writable
  }

  /** The bridge's sticky flags and its waker slots. */
  datatype BridgeState = BridgeState(
    readReady: bool,
    writeReady: bool,
    readWaker: Option<WakerId>,
    writeWaker: Option<WakerId>)

  function IsReady(b: BridgeState, d: Direction): bool {
    if d == Read then b.readReady else b.writeReady
  }

  function WakerOf(b: BridgeState, d: Direction): Option<WakerId> {
    if d == Read then b.readWaker else b.writeWaker
  }

  /** `b` with direction `d`'s flag and slot replaced and the other direction kept. */
  function SetDirection(b: BridgeState, d: Direction, ready: bool, waker: Option<WakerId>): (r: BridgeState)
    ensures IsReady(r, d) == ready && WakerOf(r, d) == waker
    ensures IsReady(r, Opposite(d)) == IsReady(b, Opposite(d))
    ensures WakerOf(r, Opposite(d)) == WakerOf(b, Opposite(d))
  {
    if d == Read then b.(readReady := ready, readWaker := waker)
    else b.(writeReady := ready, writeWaker := waker)
  }

  /** What `poll_<d>_ready(w)` answers; `failure` is the error it fails with, if any. */
  function ReadyAnswer(b: BridgeState, d: Direction, failure: Option<IoError>): Poll<IoResult<ReadyToken>> {
    if failure.Some? then Ready(Err(failure.value))
    else if IsReady(b, d) then Ready(Ok(ReadinessOf(d)))
    else Pending
  }

  /** The bridge after `poll_<d>_ready(w)`: only a suspending poll registers `w`. */
  function AfterPollReady(b: BridgeState, d: Direction, w: WakerId, failure: Option<IoError>): BridgeState {
    if failure.None? && !IsReady(b, d) then SetDirection(b, d, false, Some(w)) else b
  }

  /** What `clear_<d>_ready(w)` answers. */
  function ClearAnswer(failure: Option<IoError>): IoResult<()> {
    if failure.Some? then Err(failure.value) else Ok(())
  }

  /** The bridge after `clear_<d>_ready(w)`: the flag is unset and `w` registered. */
  function AfterClearReady(b: BridgeState, d: Direction, w: WakerId, failure: Option<IoError>): BridgeState {
    if failure.None? then SetDirection(b, d, false, Some(w)) else b
  }

  /** A poll suspends exactly when the flag is unset, and then holds the caller's waker;
      a ready poll changes nothing; neither touches the other direction. */
  lemma PollReadyContract(b: BridgeState, d: Direction, w: WakerId, failure: Option<IoError>)
    ensures failure.None? ==> (ReadyAnswer(b, d, failure).Pending? <==> !IsReady(b, d))
    ensures ReadyAnswer(b, d, failure).Pending? ==> WakerOf(AfterPollReady(b, d, w, failure), d) == Some(w)
    ensures ReadyAnswer(b, d, failure).Ready? ==> AfterPollReady(b, d, w, failure) == b
    ensures IsReady(AfterPollReady(b, d, w, failure), d) == IsReady(b, d)
    ensures IsReady(AfterPollReady(b, d, w, failure), Opposite(d)) == IsReady(b, Opposite(d))
    ensures WakerOf(AfterPollReady(b, d, w, failure), Opposite(d)) == WakerOf(b, Opposite(d))
  {
  }

  /** A successful clear leaves the flag unset with the caller's waker registered,
      and leaves the other direction alone. */
  lemma ClearReadyContract(b: BridgeState, d: Direction, w: WakerId, failure: Option<IoError>)
    ensures ClearAnswer(failure).Ok? <==> failure.None?
    ensures failure.None? ==> !IsReady(AfterClearReady(b, d, w, failure), d)
    ensures failure.None? ==> WakerOf(AfterClearReady(b, d, w, failure), d) == Some(w)
    ensures failure.Some? ==> AfterClearReady(b, d, w, failure) == b
    ensures IsReady(AfterClearReady(b, d, w, failure), Opposite(d)) == IsReady(b, Opposite(d))
    ensures WakerOf(AfterClearReady(b, d, w, failure), Opposite(d)) == WakerOf(b, Opposite(d))
  {
  }

  /** The bridge object: the sticky flags and the waker slot of each direction. */
  class PollEvented {
    var readReady: bool
    var writeReady: bool
    var readWaker: Option<WakerId>
    var writeWaker: Option<WakerId>

    function View(): BridgeState
      reads this
    {
      BridgeState(readReady, writeReady, readWaker, writeWaker)
    }

    /** A freshly registered resource: neither direction ready, no waker. */
    constructor ()
      ensures View() == BridgeState(false, false, None, None)
    {
      readReady, writeReady := false, false;
      readWaker, writeWaker := None, None;
    }

    /** `poll_read_ready` / `poll_write_ready`. */
    method PollReady(d: Direction, w: WakerId, failure: Option<IoError>) returns (p: Poll<IoResult<ReadyToken>>)
      modifies this
      ensures View() == AfterPollReady(old(View()), d, w, failure)
      ensures p == ReadyAnswer(old(View()), d, failure)
    {
      p := ReadyAnswer(View(), d, failure);
      if p.Pending? {
        if d == Read {
          readWaker := Some(w);
        } else {
          writeWaker := Some(w);
        }
      }
    }

    /** `clear_read_ready` / `clear_write_ready`. */
    method ClearReady(d: Direction, w: WakerId, failure: Option<IoError>) returns (r: IoResult<()>)
      modifies this
      ensures View() == AfterClearReady(old(View()), d, w, failure)
      ensures r == ClearAnswer(failure)
    {
      r := ClearAnswer(failure);
      if r.Ok? {
        if d == Read {
          readReady, readWaker := false, Some(w);
        } else {
          writeReady, writeWaker := false, Some(w);
        }
      }
    }
  }
}
