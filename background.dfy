/**
 * The background reactor's shutdown protocol (src/reactor/background.rs).
 *
 * A single shared word moves from Running towards Shutdown. Any thread may ask
 * for an immediate shutdown (`Inner::shutdown_now`); only the reactor thread,
 * once its `run` loop has broken out, drops the reactor, stores SHUTDOWN and
 * wakes the task waiting on the `Shutdown` future.
 *
 * The model has two layers. `Snapshot` and the `After…` functions describe
 * every observable step as a function on values, and `Action`/`Feasible`/`Final`
 * put those steps together into arbitrary interleavings of the threads, about
 * which the lemmas speak. The classes `Shared`, `Shutdown` and `Background`
 * hold the same state in fields. Each single-step method of `Shared` is proved to
 * perform exactly one of those steps, `Shared.Run` the whole interleaving
 * `RunActions` describes, and `Background.Drop` the request step.
 */
module BackgroundReactor {
  import opened Core
  import opened Io
  import opened Futures

  /** The values of the shared shutdown word. Running is the initial 0. */
  const RUNNING: nat := 0
  /** Shut down once the reactor becomes idle. */
  const SHUTDOWN_IDLE: nat := 1
  /** Shut down immediately. */
  const SHUTDOWN_NOW: nat := 2
  /** The reactor thread has shut down. */
  const SHUTDOWN: nat := 3

  lemma ConstantsOrdered()
    ensures RUNNING < SHUTDOWN_IDLE < SHUTDOWN_NOW < SHUTDOWN
  {
  }

  /** Where the reactor thread is in `run`. */
  datatype Phase =
    | Looping         // inside the loop; the reactor is alive
    | ReactorDropped  // broke out of the loop and dropped the reactor
    | StateStored     // stored SHUTDOWN
    | Finished        // woke the registered completion waker

  /**
   * The shared word, the completion waker slot (`AtomicWaker`), the number of
   * `handle.wakeup()` calls, the number of `reactor.turn` calls, the reactor
   * thread's phase and the wakers that `shutdown_task.wake()` has woken.
   */
  datatype Snapshot = Snapshot(
    state: nat,
    wakerSlot: Option<WakerId>,
    wakeups: nat,
    turns: nat,
    phase: Phase,
    woken: seq<WakerId>)

  /** The invariant every reachable snapshot keeps. */
  ghost predicate Inv(s: Snapshot) {
    && s.state <= SHUTDOWN
    // SHUTDOWN is stored only after the reactor has been dropped
    && (s.state == SHUTDOWN <==> s.phase.StateStored? || s.phase.Finished?)
    // the completion waker is woken only after SHUTDOWN is stored, and once
    && (s.woken != [] ==> s.phase.Finished?)
    && |s.woken| <= 1
    // the reactor thread is interrupted at most once, and only by a request
    && s.wakeups <= 1
    && (s.state < SHUTDOWN_NOW ==> s.wakeups == 0)
  }

  /** The state `Background::new` creates (the word starts at 0). */
  function Initial(): (s: Snapshot)
    ensures Inv(s) && s.state == RUNNING && s.phase == Looping
  {
    Snapshot(RUNNING, None, 0, 0, Looping, [])
  }

  /** The effect of `Inner::shutdown_now` once its compare-and-swap loop returns. */
  function AfterShutdownNow(s: Snapshot): Snapshot {
    if s.state >= SHUTDOWN_NOW then s
    else s.(state := SHUTDOWN_NOW, wakeups := s.wakeups + 1)
  }

  /** `AtomicWaker::register`: the new waker replaces any previous one. */
  function AfterRegister(s: Snapshot, w: WakerId): Snapshot {
    s.(wakerSlot := Some(w))
  }

  /** What `Shutdown::poll` answers after registering its waker. */
  function PollAnswer(s: Snapshot): Poll<Result<(), ()>> {
    if s.state == SHUTDOWN then Ready(Ok(())) else Pending
  }

  /** Whether the run loop breaks, given the word it loaded and `reactor.is_idle()`. */
  predicate ExitDecision(state: nat, idle: bool) {
    state == SHUTDOWN_NOW || (state == SHUTDOWN_IDLE && idle)
  }

  /** One `reactor.turn(None)`. */
  function AfterTurn(s: Snapshot): Snapshot {
    s.(turns := s.turns + 1)
  }

  /** Breaking out of the loop and `drop(reactor)`. */
  function AfterDrop(s: Snapshot): Snapshot {
    s.(phase := ReactorDropped)
  }

  /** `shared.shutdown.store(SHUTDOWN)`. */
  function AfterStore(s: Snapshot): Snapshot {
    s.(state := SHUTDOWN, phase := StateStored)
  }

  /** `shared.shutdown_task.wake()`: the registered waker is taken out and woken. */
  function AfterWake(s: Snapshot): Snapshot {
    s.(wakerSlot := None, woken := s.woken + OptionToSeq(s.wakerSlot), phase := Finished)
  }

  /** One atomic step of some thread. */
  datatype Action =
    | RequestNow               // a completed `Inner::shutdown_now`, on any thread
    | Register(waker: WakerId) // the register half of `Shutdown::poll`
    | Iterate(idle: bool)      // one check of the run loop; `idle` is `reactor.is_idle()`
    | StoreShutdown            // the reactor thread's final store
    | WakeWaiter               // the reactor thread's final wake

  /** The reactor thread's steps happen in program order; the others at any time. */
  predicate Enabled(s: Snapshot, a: Action) {
    match a
    case Iterate(_) => s.phase.Looping?
    case StoreShutdown => s.phase.ReactorDropped?
    case WakeWaiter => s.phase.StateStored?
    case _ => true
  }

  function Step(s: Snapshot, a: Action): Snapshot {
    match a
    case RequestNow => AfterShutdownNow(s)
    case Register(w) => AfterRegister(s, w)
    case Iterate(idle) => if ExitDecision(s.state, idle) then AfterDrop(s) else AfterTurn(s)
    case StoreShutdown => AfterStore(s)
    case WakeWaiter => AfterWake(s)
  }

  /** Every action of `t` is enabled when its turn comes. */
  predicate Feasible(s: Snapshot, t: seq<Action>)
    decreases |t|
  {
    t == [] || (Enabled(s, t[0]) && Feasible(Step(s, t[0]), t[1..]))
  }

  /** The snapshot after running the interleaving `t` from `s`. */
  function Final(s: Snapshot, t: seq<Action>): Snapshot
    requires Feasible(s, t)
    decreases |t|
  {
    if t == [] then s else Final(Step(s, t[0]), t[1..])
  }

  /** `shutdown_now` never lowers the word, lands on max(state, SHUTDOWN_NOW),
      wakes the reactor iff it moved the word, and a second request does nothing. */
  lemma ShutdownNowEffect(s: Snapshot)
    ensures AfterShutdownNow(s).state == if s.state < SHUTDOWN_NOW then SHUTDOWN_NOW else s.state
    ensures AfterShutdownNow(s).wakeups == s.wakeups + (if s.state < SHUTDOWN_NOW then 1 else 0)
    ensures AfterShutdownNow(AfterShutdownNow(s)) == AfterShutdownNow(s)
    ensures s.state >= SHUTDOWN_NOW ==> AfterShutdownNow(s) == s
  {
  }

  /** Each step keeps the invariant and never lowers the word. */
  lemma StepKeepsInv(s: Snapshot, a: Action)
    requires Inv(s) && Enabled(s, a)
    ensures Inv(Step(s, a))
    ensures s.state <= Step(s, a).state
    ensures s.turns <= Step(s, a).turns
  {
  }

  /** Any interleaving keeps the invariant; the word is monotonic and SHUTDOWN is terminal. */
  lemma {:induction false} ExecutionKeepsInv(s: Snapshot, t: seq<Action>)
    requires Inv(s) && Feasible(s, t)
    ensures Inv(Final(s, t))
    ensures s.state <= Final(s, t).state
    ensures s.state == SHUTDOWN ==> Final(s, t).state == SHUTDOWN
    decreases |t|
  {
    if t != [] {
      StepKeepsInv(s, t[0]);
      ExecutionKeepsInv(Step(s, t[0]), t[1..]);
    }
  }

  /** From the state `Background::new` creates, however many threads request shutdown
      and however they interleave, the reactor thread is woken at most once. */
  lemma {:induction false} WakeupAtMostOnce(t: seq<Action>)
    requires Feasible(Initial(), t)
    ensures Final(Initial(), t).wakeups <= 1
    ensures Final(Initial(), t).state < SHUTDOWN_NOW ==> Final(Initial(), t).wakeups == 0
  {
    ExecutionKeepsInv(Initial(), t);
  }

  /** Once SHUTDOWN is observed, every later poll answers the same `Ready(Ok(()))`. */
  lemma {:induction false} PollAfterShutdownIsReady(s: Snapshot, t: seq<Action>, w: WakerId)
    requires Inv(s) && s.state == SHUTDOWN && Feasible(s, t)
    ensures PollAnswer(AfterRegister(Final(s, t), w)) == Ready(Ok(()))
  {
    ExecutionKeepsInv(s, t);
  }

  /** Once an immediate shutdown has been requested, no later check of the run loop
      turns: a release waits at most for the turn whose check came before the request
      (a check and the turn it leads to are one `Iterate` step). */
  lemma {:induction false} NoTurnAfterRequest(s: Snapshot, t: seq<Action>)
    requires Inv(s) && s.state >= SHUTDOWN_NOW && Feasible(s, t)
    ensures Final(s, t).turns == s.turns
    decreases |t|
  {
    if t != [] {
      StepKeepsInv(s, t[0]);
      NoTurnAfterRequest(Step(s, t[0]), t[1..]);
    }
  }

  /** How many final stores an interleaving holds. */
  function Stores(t: seq<Action>): nat {
    if t == [] then 0 else (if t[0].StoreShutdown? then 1 else 0) + Stores(t[1..])
  }

  /** The transition to SHUTDOWN happens at most once, and never again after it has happened. */
  lemma {:induction false} StoreAtMostOnce(s: Snapshot, t: seq<Action>)
    requires Feasible(s, t)
    ensures Stores(t) <= (if s.phase.Looping? || s.phase.ReactorDropped? then 1 else 0)
    decreases |t|
  {
    if t != [] {
      StoreAtMostOnce(Step(s, t[0]), t[1..]);
    }
  }

  /** Running `a` first and then `t` is running `[a] + t`. */
  lemma FinalCons(s: Snapshot, a: Action, t: seq<Action>)
    requires Enabled(s, a) && Feasible(Step(s, a), t)
    ensures Feasible(s, [a] + t)
    ensures Final(s, [a] + t) == Final(Step(s, a), t)
  {
    assert ([a] + t)[0] == a;
    assert ([a] + t)[1..] == t;
  }

  /** Running `a` and then `b` is running `a + b`. */
  lemma {:induction false} FinalAppend(s: Snapshot, a: seq<Action>, b: seq<Action>)
    requires Feasible(s, a) && Feasible(Final(s, a), b)
    ensures Feasible(s, a + b)
    ensures Final(s, a + b) == Final(Final(s, a), b)
    decreases |a|
  {
    if a == [] {
      assert a + b == b;
    } else {
      FinalAppend(Step(s, a[0]), a[1..], b);
      assert a + b == [a[0]] + (a[1..] + b);
      FinalCons(s, a[0], a[1..] + b);
    }
  }

  /** The reactor thread's exit path: break and drop, store SHUTDOWN, wake. */
  lemma ExitPath(s: Snapshot, idle: bool)
    requires s.phase.Looping? && ExitDecision(s.state, idle)
    ensures Feasible(s, [Iterate(idle), StoreShutdown, WakeWaiter])
    ensures Final(s, [Iterate(idle), StoreShutdown, WakeWaiter]) == AfterWake(AfterStore(AfterDrop(s)))
  {
    var s1 := AfterDrop(s);
    var s2 := AfterStore(s1);
    FinalCons(s2, WakeWaiter, []);
    FinalCons(s1, StoreShutdown, [WakeWaiter]);
    FinalCons(s, Iterate(idle), [StoreShutdown, WakeWaiter]);
  }

  /** What one iteration of the run loop observes: `reactor.is_idle()`'s answer at its
      check and whether a `shutdown_now` from another thread lands during its turn. */
  datatype TurnEnv = TurnEnv(idle: bool, request: bool)

  /** The state after a run-loop iteration that turned instead of breaking. */
  function AfterIteration(s: Snapshot, e: TurnEnv): Snapshot {
    if e.request then AfterShutdownNow(AfterTurn(s)) else AfterTurn(s)
  }

  /** The actions of a run-loop iteration that turned instead of breaking. */
  function IterationActions(e: TurnEnv): seq<Action> {
    if e.request then [Iterate(e.idle), RequestNow] else [Iterate(e.idle)]
  }

  /** The interleaving the reactor thread's `run` produces in the environment `env`. */
  function RunActions(s: Snapshot, env: seq<TurnEnv>): seq<Action>
    decreases |env|
  {
    if env == [] then []
    else if ExitDecision(s.state, env[0].idle) then [Iterate(env[0].idle), StoreShutdown, WakeWaiter]
    else IterationActions(env[0]) + RunActions(AfterIteration(s, env[0]), env[1..])
  }

  /** A run-loop iteration that does not break turns once and keeps looping. */
  lemma IterationStep(s: Snapshot, e: TurnEnv)
    requires Inv(s) && s.phase.Looping? && !ExitDecision(s.state, e.idle)
    ensures Feasible(s, IterationActions(e))
    ensures Final(s, IterationActions(e)) == AfterIteration(s, e)
    ensures Inv(AfterIteration(s, e)) && AfterIteration(s, e).phase.Looping?
  {
    var t := AfterTurn(s);
    if e.request {
      FinalCons(t, RequestNow, []);
      FinalCons(s, Iterate(e.idle), [RequestNow]);
    } else {
      FinalCons(s, Iterate(e.idle), []);
    }
  }

  /** The run loop's interleaving is feasible from any looping state. */
  lemma {:induction false} RunActionsFeasible(s: Snapshot, env: seq<TurnEnv>)
    requires Inv(s) && s.phase.Looping?
    ensures Feasible(s, RunActions(s, env))
    decreases |env|
  {
    if env != [] {
      if ExitDecision(s.state, env[0].idle) {
        ExitPath(s, env[0].idle);
      } else {
        IterationStep(s, env[0]);
        var next := AfterIteration(s, env[0]);
        RunActionsFeasible(next, env[1..]);
        FinalAppend(s, IterationActions(env[0]), RunActions(next, env[1..]));
      }
    }
  }

  /** A run whose first check breaks ends with the exit path. */
  lemma RunBreaks(s: Snapshot, env: seq<TurnEnv>)
    requires s.phase.Looping? && env != [] && ExitDecision(s.state, env[0].idle)
    ensures Feasible(s, RunActions(s, env))
    ensures Final(s, RunActions(s, env)) == AfterWake(AfterStore(AfterDrop(s)))
  {
    ExitPath(s, env[0].idle);
  }

  /** A run whose first check does not break continues from the state after the turn. */
  lemma RunTurns(s: Snapshot, env: seq<TurnEnv>)
    requires Inv(s) && s.phase.Looping? && env != [] && !ExitDecision(s.state, env[0].idle)
    ensures Feasible(s, RunActions(s, env))
    ensures Inv(AfterIteration(s, env[0])) && AfterIteration(s, env[0]).phase.Looping?
    ensures Feasible(AfterIteration(s, env[0]), RunActions(AfterIteration(s, env[0]), env[1..]))
    ensures Final(s, RunActions(s, env))
         == Final(AfterIteration(s, env[0]), RunActions(AfterIteration(s, env[0]), env[1..]))
  {
    IterationStep(s, env[0]);
    var next := AfterIteration(s, env[0]);
    RunActionsFeasible(next, env[1..]);
    FinalAppend(s, IterationActions(env[0]), RunActions(next, env[1..]));
  }

  /** A run either breaks out and completes the shutdown, or goes on looping having
      turned once per iteration; a request landing during the j-th turn makes the
      next check break, so at most j + 1 turns happen. */
  lemma {:induction false} RunOutcome(s: Snapshot, env: seq<TurnEnv>, j: nat)
    requires Inv(s) && s.phase.Looping?
    ensures Feasible(s, RunActions(s, env))
    ensures var f := Final(s, RunActions(s, env));
            && (f.phase.Finished? || (f.phase.Looping? && f.turns == s.turns + |env|))
            && (f.phase.Finished? ==> f.state == SHUTDOWN && f.wakerSlot == None)
            && (j < |env| && env[j].request ==> f.turns <= s.turns + j + 1)
            && (j + 1 < |env| && env[j].request ==> f.phase.Finished?)
    decreases |env|
  {
    RunActionsFeasible(s, env);
    if env != [] {
      if ExitDecision(s.state, env[0].idle) {
        ExitPath(s, env[0].idle);
      } else {
        IterationStep(s, env[0]);
        var next := AfterIteration(s, env[0]);
        var rest := RunActions(next, env[1..]);
        RunActionsFeasible(next, env[1..]);
        FinalAppend(s, IterationActions(env[0]), rest);
        RunOutcome(next, env[1..], if j == 0 then 0 else j - 1);
        if j == 0 && env[0].request {
          // the request moved the word to SHUTDOWN_NOW, so the next check breaks
          assert next.state == SHUTDOWN_NOW;
          if 1 < |env| {
            assert env[1..][0] == env[1];
            ExitPath(next, env[1].idle);
          } else {
            assert env[1..] == [];
          }
        }
      }
    }
  }

  /** Releasing a handle while the reactor is looping, in `Drop`'s order: the request
      (`shutdown_now`), then the first poll of `block_on` registering `w`, then the
      reactor thread's next check, the store and the wake bring the word to SHUTDOWN,
      wake `w` and make the future Ready. */
  lemma DropCompletes(s: Snapshot, idle: bool, w: WakerId)
    requires Inv(s) && s.phase.Looping?
    ensures var t := [RequestNow, Register(w), Iterate(idle), StoreShutdown, WakeWaiter];
            && Feasible(s, t)
            && Final(s, t).state == SHUTDOWN
            && Final(s, t).woken == s.woken + [w]
            && PollAnswer(Final(s, t)) == Ready(Ok(()))
  {
    var s0 := AfterShutdownNow(s);
    var s1 := AfterRegister(s0, w);
    ExitPath(s1, idle);
    FinalCons(s0, Register(w), [Iterate(idle), StoreShutdown, WakeWaiter]);
    FinalCons(s, RequestNow, [Register(w), Iterate(idle), StoreShutdown, WakeWaiter]);
  }

  /** After the final wake nothing changes the phase or the woken wakers. */
  lemma {:induction false} FinishedStays(s: Snapshot, t: seq<Action>)
    requires s.phase.Finished? && Feasible(s, t)
    ensures Final(s, t).phase.Finished? && Final(s, t).woken == s.woken
    decreases |t|
  {
    if t != [] {
      FinishedStays(Step(s, t[0]), t[1..]);
    }
  }

  /** No missed wakeup: once `w` is registered and the reactor thread has not yet
      woken anyone, every interleaving in which later registrations (the repeated
      polls of `block_on`) register `w` again and no other waker, and that reaches
      the end of `run`, has woken exactly `w`. */
  lemma {:induction false} NoMissedWakeup(s: Snapshot, t: seq<Action>, w: WakerId)
    requires !s.phase.Finished? && s.wakerSlot == Some(w) && Feasible(s, t)
    requires forall i :: 0 <= i < |t| && t[i].Register? ==> t[i].waker == w
    ensures Final(s, t).phase.Finished? ==> Final(s, t).woken == s.woken + [w]
    decreases |t|
  {
    if t != [] {
      var next := Step(s, t[0]);
      forall i | 0 <= i < |t[1..]| && t[1..][i].Register?
        ensures t[1..][i].waker == w
      {
        assert t[1..][i] == t[i + 1];
      }
      if t[0].WakeWaiter? {
        assert next.woken == s.woken + [w];
        FinishedStays(next, t[1..]);
      } else {
        assert t[0].Register? ==> t[0].waker == w;
        NoMissedWakeup(next, t[1..], w);
      }
    }
  }

  /** A `Shutdown::poll` that answers Pending is woken: its register came before the
      final wake, so if the reactor thread completes the shutdown while the waiter
      keeps polling with the same waker, `w` is among the woken wakers. */
  lemma PendingPollIsWoken(s: Snapshot, t: seq<Action>, w: WakerId)
    requires Inv(s) && PollAnswer(AfterRegister(s, w)).Pending?
    requires Feasible(AfterRegister(s, w), t)
    requires forall i :: 0 <= i < |t| && t[i].Register? ==> t[i].waker == w
    ensures Final(AfterRegister(s, w), t).phase.Finished? ==> w in Final(AfterRegister(s, w), t).woken
  {
    NoMissedWakeup(AfterRegister(s, w), t, w);
  }

  /** `Shared`: the atomic word and the `AtomicWaker`, together with ghost
      observations of the reactor thread and the reactor's handle (counters standing
      for `handle.wakeup()` and `reactor.turn`, the thread's phase, the woken wakers). */
  class Shared {
    var state: nat
    var wakerSlot: Option<WakerId>
    // observations: the source's `Shared` holds only the word and the waker slot
    ghost var wakeups: nat
    ghost var turns: nat
    ghost var phase: Phase
    ghost var woken: seq<WakerId>

    ghost function View(): Snapshot
      reads this
    {
      Snapshot(state, wakerSlot, wakeups, turns, phase, woken)
    }

    ghost predicate Valid()
      reads this
    {
      Inv(View())
    }

    /** The state shared between `Background::new` and the new reactor thread. */
    constructor ()
      ensures Valid() && View() == Initial()
    {
      state := RUNNING;
      wakerSlot := None;
      wakeups := 0;
      turns := 0;
      phase := Looping;
      woken := [];
    }

    /** `Inner::is_shutdown`: when it says yes, the reactor has already been dropped. */
    function IsShutdown(): (r: bool)
      reads this
      requires Valid()
      ensures r ==> !phase.Looping? && !phase.ReactorDropped?
      ensures r <==> PollAnswer(View()).Ready?
    {
      state == SHUTDOWN
    }

    /**
     * `Inner::shutdown_now`. `loaded` is the value its first load returned: any
     * earlier value of the word, so that other threads may have moved it since and
     * the first compare-and-swap may fail. `attempts` counts compare-and-swaps.
     */
    method ShutdownNow(loaded: nat) returns (attempts: nat)
      requires Valid() && loaded <= state
      modifies this`state, this`wakeups
      ensures Valid()
      ensures View() == AfterShutdownNow(old(View()))
      ensures state == if old(state) < SHUTDOWN_NOW then SHUTDOWN_NOW else old(state)
      ensures wakeups == old(wakeups) + (if old(state) < SHUTDOWN_NOW then 1 else 0)
      ensures attempts == if loaded >= SHUTDOWN_NOW then 0
                          else if loaded == old(state) || old(state) >= SHUTDOWN_NOW then 1
                          else 2
    {
      var curr := loaded;
      attempts := 0;
      while true
        invariant curr <= state && state == old(state) && wakeups == old(wakeups)
        invariant attempts == 0 ==> curr == loaded
        invariant attempts == 1 ==> curr == state && loaded != state && loaded < SHUTDOWN_NOW
        invariant attempts <= 1
        decreases SHUTDOWN - curr
      {
        if curr >= SHUTDOWN_NOW {
          return;
        }
        // compare_and_swap(curr, SHUTDOWN_NOW): one atomic step
        var act := state;
        if act == curr {
          state := SHUTDOWN_NOW;
        }
        attempts := attempts + 1;
        if act == curr {
          wakeups := wakeups + 1;
          return;
        }
        curr := act;
      }
    }

    /** `AtomicWaker::register`. */
    method Register(w: WakerId)
      requires Valid()
      modifies this`wakerSlot
      ensures Valid()
      ensures View() == AfterRegister(old(View()), w)
    {
      wakerSlot := Some(w);
    }

    /** One `reactor.turn(None)` of a loop that did not break. */
    method Turn()
      requires Valid() && phase.Looping?
      modifies this`turns
      ensures Valid()
      ensures View() == AfterTurn(old(View()))
    {
      turns := turns + 1;
    }

    /** `drop(reactor)`, while the thread is still in its loop phase; `Run` calls it
        only once `ExitDecision` holds for the word it loaded. */
    method DropReactor()
      requires Valid() && phase.Looping?
      modifies this`phase
      ensures Valid()
      ensures View() == AfterDrop(old(View()))
    {
      phase := ReactorDropped;
    }

    /** `shared.shutdown.store(SHUTDOWN)`: only after the reactor is dropped. */
    method StoreShutdown()
      requires Valid() && phase.ReactorDropped?
      modifies this`state, this`phase
      ensures Valid()
      ensures View() == AfterStore(old(View()))
    {
      state := SHUTDOWN;
      phase := StateStored;
    }

    /** `shared.shutdown_task.wake()`: only after SHUTDOWN is stored. */
    method WakeWaiter()
      requires Valid() && phase.StateStored?
      modifies this`wakerSlot, this`woken, this`phase
      ensures Valid()
      ensures View() == AfterWake(old(View()))
    {
      woken := woken + OptionToSeq(wakerSlot);
      wakerSlot := None;
      phase := Finished;
    }

    /**
     * The reactor thread's `run`, in the environment `env` (see `TurnEnv`; a request
     * landing during a turn is another thread's `shutdown_now`, whose wakeup makes
     * the turn return). The source loop is unbounded; this one stops after |env|
     * iterations, with the thread still looping if it never broke out.
     */
    method Run(env: seq<TurnEnv>) returns (exited: bool)
      requires Valid() && phase.Looping?
      modifies this
      ensures Valid()
      ensures Feasible(old(View()), RunActions(old(View()), env))
      ensures View() == Final(old(View()), RunActions(old(View()), env))
      ensures exited <==> phase.Finished?
      ensures exited ==> state == SHUTDOWN && woken == old(woken) + OptionToSeq(old(wakerSlot))
    {
      ghost var s0 := View();
      RunActionsFeasible(s0, env);
      var i := 0;
      exited := false;
      while i < |env| && !exited
        invariant 0 <= i <= |env|
        invariant Valid()
        invariant exited <==> phase.Finished?
        invariant !exited ==> phase.Looping? && wakerSlot == s0.wakerSlot && woken == s0.woken
        invariant !exited ==> Feasible(View(), RunActions(View(), env[i..]))
        invariant !exited ==> Final(s0, RunActions(s0, env)) == Final(View(), RunActions(View(), env[i..]))
        invariant exited ==> View() == Final(s0, RunActions(s0, env))
        invariant exited ==> woken == s0.woken + OptionToSeq(s0.wakerSlot)
        decreases |env| - i
      {
        ghost var before := View();
        ghost var rest := env[i..];
        assert rest[0] == env[i] && rest[1..] == env[i + 1..];
        var shutdown := state;
        if ExitDecision(shutdown, env[i].idle) {
          DropReactor();
          StoreShutdown();
          WakeWaiter();
          exited := true;
          RunBreaks(before, rest);
        } else {
          RunTurns(before, rest);
          Turn();
          if env[i].request {
            var _ := ShutdownNow(state);
          }
          assert View() == AfterIteration(before, env[i]);
        }
        i := i + 1;
      }
      if !exited {
        assert env[i..] == [];
      }
    }
  }

  /** The `Shutdown` future: resolves once the reactor thread has shut down. */
  class Shutdown {
    const inner: Shared

    constructor (inner: Shared)
      ensures this.inner == inner
    {
      this.inner := inner;
    }

    /** `Shutdown::poll`: always registers `w`, then answers from the word. */
    method PollFuture(w: WakerId) returns (r: Poll<Result<(), ()>>)
      requires inner.Valid()
      modifies inner`wakerSlot
      ensures inner.Valid()
      ensures inner.View() == AfterRegister(old(inner.View()), w)
      ensures inner.wakerSlot == Some(w)
      ensures r == PollAnswer(inner.View())
      ensures r.Ready? <==> inner.state == SHUTDOWN
    {
      inner.Register(w);
      if !inner.IsShutdown() {
        return Pending;
      }
      return Ready(Ok(()));
    }
  }

  /** The handle to a reactor running on a background thread. `inner == None`
      means the thread runs until the process exits. */
  class Background {
    var inner: Option<Shared>

    constructor (shared: Shared)
      ensures inner == Some(shared)
    {
      inner := Some(shared);
    }

    /** `Background::new`: creates the shared state at Running and spawns the reactor
        thread; `spawned` is the outcome of spawning it, whose error is returned. */
    static method New(spawned: IoResult<()>) returns (r: IoResult<Background>)
      ensures spawned.Err? ==> r == Err(spawned.error)
      ensures spawned.Ok? ==> r.Ok? && fresh(r.value) && r.value.inner.Some?
      ensures spawned.Ok? ==> fresh(r.value.inner.value) && r.value.inner.value.View() == Initial()
    {
      var shared := new Shared();
      if spawned.Err? {
        return Err(spawned.error);
      }
      var b := new Background(shared);
      return Ok(b);
    }

    /**
     * `Drop for Background`: a forgotten handle does nothing; otherwise it requests
     * an immediate shutdown (`loaded` as in `Shared.ShutdownNow`) and returns the
     * `Shutdown` future the release then blocks on.
     */
    method Drop(loaded: nat) returns (awaited: Option<Shutdown>)
      requires inner.Some? ==> inner.value.Valid() && loaded <= inner.value.state
      modifies this, if inner.Some? then {inner.value} else {}
      ensures inner == None
      ensures old(inner).None? ==> awaited == None
      ensures old(inner).Some? ==> awaited.Some? && fresh(awaited.value) && awaited.value.inner == old(inner).value
      ensures old(inner).Some? ==> old(inner).value.Valid()
      ensures old(inner).Some? ==> old(inner).value.View() == AfterShutdownNow(old(inner.value.View()))
    {
      var taken := inner;
      inner := None;
      if taken.None? {
        return None;
      }
      var _ := taken.value.ShutdownNow(loaded);
      var shutdown := new Shutdown(taken.value);
      return Some(shutdown);
    }

    /** `Background::forget`: empties the handle, so the drop that follows does nothing
        and the reactor thread is left untouched. */
    method Forget()
      modifies this
      ensures inner == None
      ensures old(inner).Some? ==> unchanged(old(inner).value)
    {
      inner := None;
      var awaited := Drop(0);
      assert awaited == None;
    }
  }
}
