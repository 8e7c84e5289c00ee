/**
 `co::impl::LightFutureData`: one atomic word decides the race between the setter of a value and
 the one who waits for it, by suspending a coroutine, by wait() or by wait_for(). One step is one
 atomic operation, or one section under the mutex of a `ConditionVariableTask`.
 */
module Future {
  import opened Options

  /** `continuationPtr`: empty, the task in the frame of call number `n` of the waiter, or ready. */
  datatype Word = Empty | Task(n: nat) | Invalid

  datatype Value<T> = Unset | Val(v: T) | Exception

  /** How the waiter waits: an await, wait() or wait_for(). The last two block on a `ConditionVariableTask`. */
  datatype Kind = Await | Wait | WaitFor

  datatype SetterPc =
    | SIdle
    | SWritten         // value written, before the exchange in on_ready()
    | SRun(n: nat)     // before the call of the task
    | SNotify(n: nat)  // mDataReady set, before notify_one()
    | SDone

  datatype WaiterPc =
    | WIdle
    | WPolling(i: nat)  // wait(): check number i
    | WChecking         // await or wait_for(): the check before suspending
    | WRegistering      // before the CAS in suspend()
    | WBlocked
    | WTimedOut         // wait_for(): before the exchange

  datatype State<T> = State(
    word: Word,
    value: Value<T>,
    setter: SetterPc,
    waiter: WaiterPc,
    calls: seq<Kind>,          // the calls of the waiter so far
    dataReady: bool,           // mDataReady of the task of the latest call
    woken: seq<nat>,           // the calls whose task has been run
    returned: map<nat, bool>,  // the calls that are over; true means ready, false a timeout
    lost: bool)                // an exchange of wait_for() has overwritten the ready mark
  {
    function Current(): int { |calls| - 1 }
    /** The frame of call `n`, and the task in it, exist. */
    predicate FrameAlive(n: nat) {
      n == Current() && (waiter == WRegistering || waiter == WBlocked || waiter == WTimedOut)
    }
    predicate IsSet() { !value.Unset? }
    predicate Exchanged() { setter.SRun? || setter.SNotify? || setter.SDone? }
    function LatestKind(): Kind { if calls == [] then Await else calls[|calls| - 1] }
    function Return(ready: bool): State<T> {
      if calls == [] then this else this.(waiter := WIdle, returned := returned[|calls| - 1 := ready])
    }
  }

  function Init<T>(): State<T> { State(Empty, Unset, SIdle, WIdle, [], false, [], map[], false) }

  const LAST_POLL := 4

  datatype Step<T> =
    | Call(kind: Kind) | Check | Poll | Register | Wake | TimeOut | TimeoutExchange
    | Write(x: Value<T>) | Exchange | RunTask | Notify

  /** One waiter at a time, and one setter that sets once. */
  predicate Enabled<T>(s: State<T>, a: Step<T>) {
    match a
    case Call(_) => s.waiter == WIdle
    case Check => s.waiter == WChecking
    case Poll => s.waiter.WPolling?
    case Register => s.waiter == WRegistering
    case Wake => s.waiter == WBlocked && s.LatestKind() != Await && s.dataReady
    case TimeOut => s.waiter == WBlocked && s.LatestKind() == WaitFor && !s.dataReady
    case TimeoutExchange => s.waiter == WTimedOut
    case Write(x) => s.setter == SIdle && !x.Unset?
    case Exchange => s.setter == SWritten
    case RunTask => s.setter.SRun?
    case Notify => s.setter.SNotify?
  }

  /** operator() of the task of call `n`: resume the coroutine, or set mDataReady. */
  function RunOf<T>(s: State<T>, n: nat): State<T> {
    var s1 := s.(woken := s.woken + [n]);
    if n < |s.calls| && s.calls[n] == Await
    then var s2 := s1.(setter := SDone); if s.FrameAlive(n) then s2.Return(true) else s2
    else s1.(setter := SNotify(n), dataReady := if s.FrameAlive(n) then true else s.dataReady)
  }

  function Next<T>(s: State<T>, a: Step<T>): State<T>
    requires Enabled(s, a)
  {
    var ready := s.word == Invalid;
    match a
    case Call(kind) =>
      s.(calls := s.calls + [kind], dataReady := false, waiter := if kind == Wait then WPolling(0) else WChecking)
    case Check => if ready then s.Return(true) else s.(waiter := WRegistering)
    case Poll =>
      if ready then s.Return(true)
      else if s.waiter.i < LAST_POLL then s.(waiter := WPolling(s.waiter.i + 1))
      else s.(waiter := WRegistering)
    case Register =>
      if s.word == Empty && s.calls != [] then s.(word := Task(|s.calls| - 1), waiter := WBlocked)
      else s.Return(true)
    case Wake => s.Return(true)
    case TimeOut => s.(waiter := WTimedOut)
    case TimeoutExchange =>
      s.(word := Empty, lost := s.lost || ready).Return(!s.word.Task?)
    case Write(x) => s.(value := x, setter := SWritten)
    case Exchange => s.(word := Invalid, setter := if s.word.Task? then SRun(s.word.n) else SDone)
    case RunTask => RunOf(s, s.setter.n)
    case Notify => s.(setter := SDone)
  }

  // ---------- the invariant ----------

  ghost predicate WordOk<T>(s: State<T>) {
    && (s.waiter != WIdle ==> s.calls != [])
    && (s.word.Task? ==> s.word.n == s.Current() && (s.waiter == WBlocked || s.waiter == WTimedOut))
    && ((s.waiter == WBlocked || s.waiter == WTimedOut) && !s.Exchanged() ==> s.word.Task? && !s.dataReady)
    && (s.waiter == WBlocked || s.waiter == WTimedOut ==> s.word != Empty)
    && (s.word == Invalid ==> s.Exchanged())
    && (s.Exchanged() && !s.lost ==> s.word == Invalid)
    && (s.lost ==> s.Exchanged() && s.word != Invalid)
    && (s.waiter == WTimedOut ==> s.LatestKind() == WaitFor)
  }

  /** The task that the setter has taken out of the word and not yet run. */
  ghost predicate RunOk<T>(s: State<T>, n: nat) {
    && s.woken == [] && n < |s.calls|
    && (if s.lost then s.calls[n] == WaitFor && (n == s.Current() ==> s.waiter == WIdle)
        else n == s.Current() && (s.waiter == WBlocked || s.waiter == WTimedOut) && !s.dataReady)
  }

  ghost predicate SetterOk<T>(s: State<T>) {
    && (s.IsSet() <==> s.setter != SIdle)
    && (!s.Exchanged() ==> s.woken == [])
    && (s.setter.SRun? ==> RunOk(s, s.setter.n))
    && (s.setter.SNotify? ==> s.woken == [s.setter.n] && s.setter.n < |s.calls| && s.calls[s.setter.n] != Await)
    && (s.setter.SNotify? && s.setter.n == s.Current() ==>
         s.waiter == WIdle || s.waiter == WBlocked || s.waiter == WTimedOut)
    && (s.dataReady ==> s.woken == [s.Current()] && !s.word.Task?)
    && (s.dataReady ==> s.waiter == WIdle || s.waiter == WBlocked || s.waiter == WTimedOut)
    && |s.woken| <= 1
    && (s.woken != [] ==> s.IsSet() && s.woken[0] < |s.calls|)
  }

  /** A waiter that blocks after the exchange is about to be woken, or the ready mark was overwritten. */
  ghost predicate WakeOk<T>(s: State<T>) {
    && (s.Exchanged() && !s.lost && s.waiter == WBlocked ==>
         ((s.setter.SRun? && s.setter.n == s.Current()) || (s.dataReady && s.LatestKind() != Await)))
    && (forall n | n in s.returned :: s.returned[n] ==> s.IsSet())
    && (forall n: nat :: n in s.returned <==> n < |s.calls| && (n == s.Current() ==> s.waiter == WIdle))
  }

  ghost predicate Inv<T>(s: State<T>) { WordOk(s) && SetterOk(s) && WakeOk(s) }

  lemma InitInv<T>()
    ensures Inv(Init<T>())
  {
  }

  predicate OfSetter<T>(a: Step<T>) { a.Write? || a == Exchange || a == RunTask || a == Notify }

  lemma SetterKeeps<T>(s: State<T>, a: Step<T>)
    requires Inv(s) && Enabled(s, a) && OfSetter(a)
    ensures Inv(Next(s, a))
  {
  }

  lemma WaiterKeeps<T>(s: State<T>, a: Step<T>)
    requires Inv(s) && Enabled(s, a) && !OfSetter(a)
    ensures Inv(Next(s, a))
  {
  }

  lemma StepKeeps<T>(s: State<T>, a: Step<T>)
    requires Inv(s) && Enabled(s, a)
    ensures Inv(Next(s, a))
  {
    if OfSetter(a) { SetterKeeps(s, a); } else { WaiterKeeps(s, a); }
  }

  // ---------- whole runs ----------

  ghost predicate IsRun<T>(s: State<T>, run: seq<Step<T>>)
    decreases |run|
  {
    run == [] || (Enabled(s, run[0]) && IsRun(Next(s, run[0]), run[1..]))
  }

  ghost function After<T>(s: State<T>, run: seq<Step<T>>): State<T>
    requires IsRun(s, run)
    decreases |run|
  {
    if run == [] then s else After(Next(s, run[0]), run[1..])
  }

  lemma {:induction false} RunKeeps<T>(s: State<T>, run: seq<Step<T>>)
    requires Inv(s) && IsRun(s, run)
    ensures Inv(After(s, run))
    decreases |run|
  {
    if run != [] {
      StepKeeps(s, run[0]);
      RunKeeps(Next(s, run[0]), run[1..]);
    }
  }

  /** At most one task is run, after the value has been written, and who is told "ready" finds a value. */
  lemma WokenOnceWithValue<T>(run: seq<Step<T>>, n: nat)
    requires IsRun(Init(), run)
    ensures var s := After(Init(), run);
      && |s.woken| <= 1
      && (n in s.woken ==> s.IsSet() && n < |s.calls|)
      && (n in s.returned && s.returned[n] ==> s.IsSet())
  {
    InitInv<T>();
    RunKeeps(Init(), run);
  }

  /** A step of wait_for() in `run` overwrites the ready mark. */
  ghost predicate Overwrites<T>(s: State<T>, run: seq<Step<T>>)
    requires IsRun(s, run)
    decreases |run|
  {
    run != [] && ((run[0] == TimeoutExchange && s.word == Invalid) || Overwrites(Next(s, run[0]), run[1..]))
  }

  lemma {:induction false} LostIff<T>(s: State<T>, run: seq<Step<T>>)
    requires IsRun(s, run)
    ensures After(s, run).lost <==> s.lost || Overwrites(s, run)
    decreases |run|
  {
    if run != [] { LostIff(Next(s, run[0]), run[1..]); }
  }

  /** After the exchange the future is ready exactly if no timeout of wait_for() has met the ready mark. */
  lemma ReadyIff<T>(run: seq<Step<T>>)
    requires IsRun(Init(), run) && After(Init(), run).Exchanged()
    ensures After(Init(), run).word == Invalid <==> !Overwrites(Init(), run)
  {
    InitInv<T>();
    RunKeeps(Init(), run);
    LostIff(Init(), run);
  }

  /** The value, once written, stays. */
  lemma {:induction false} ValueStays<T>(s: State<T>, run: seq<Step<T>>)
    requires IsRun(s, run) && s.setter != SIdle
    ensures After(s, run).value == s.value && After(s, run).setter != SIdle
    decreases |run|
  {
    if run != [] { ValueStays(Next(s, run[0]), run[1..]); }
  }

  /**
   No wake-up is lost without such an overwrite: before the exchange the word names the blocked
   waiter, after it the setter is about to run its task, and once the setter is done an await has
   been resumed and a blocked wait() or wait_for() may return.
   */
  lemma NoLostWakeUp<T>(run: seq<Step<T>>)
    requires IsRun(Init(), run) && !Overwrites(Init(), run) && After(Init(), run).waiter == WBlocked
    ensures var s := After(Init(), run); var n := |s.calls| - 1;
      && n >= 0
      && (!s.Exchanged() ==> s.word == Task(n))
      && (s.Exchanged() ==> s.setter == SRun(n) || Enabled(s, Wake))
  {
    InitInv<T>();
    RunKeeps(Init(), run);
    LostIff(Init(), run);
  }

  /** Once the setter is done, an await or wait() blocks for ever exactly if the ready mark was overwritten. */
  lemma BlocksForeverIff<T>(run: seq<Step<T>>)
    requires IsRun(Init(), run)
    requires var s := After(Init(), run); s.setter == SDone && s.waiter == WRegistering && s.LatestKind() != WaitFor
    ensures var s := Next(After(Init(), run), Register);
      (forall a :: !Enabled(s, a)) <==> Overwrites(Init(), run)
  {
    InitInv<T>();
    RunKeeps(Init(), run);
    LostIff(Init(), run);
    var s := Next(After(Init(), run), Register);
    if !Overwrites(Init(), run) { assert Enabled(s, Call(Await)); }
  }

  /** The setter runs a task in a frame that still exists exactly if the ready mark was not overwritten. */
  lemma TaskAliveIff<T>(run: seq<Step<T>>)
    requires IsRun(Init(), run) && After(Init(), run).setter.SRun?
    ensures var s := After(Init(), run); s.FrameAlive(s.setter.n) <==> !Overwrites(Init(), run)
  {
    InitInv<T>();
    RunKeeps(Init(), run);
    LostIff(Init(), run);
  }

  lemma First<T>(s: State<T>, a: Step<T>, rest: seq<Step<T>>)
    requires Enabled(s, a) && IsRun(Next(s, a), rest)
    ensures IsRun(s, [a] + rest) && After(s, [a] + rest) == After(Next(s, a), rest)
    ensures Overwrites(s, [a] + rest) <==> (a == TimeoutExchange && s.word == Invalid) || Overwrites(Next(s, a), rest)
  {
    assert ([a] + rest)[1..] == rest;
  }

  // ---------- the notification after the unlock ----------

  /** Whenever from `s` on the setter comes to notify_one(), the task still exists. */
  ghost predicate NotifiesAlive<T(!new)>(s: State<T>) {
    forall run | IsRun(s, run) && After(s, run).setter.SNotify? ::
      After(s, run).FrameAlive(After(s, run).setter.n)
  }

  /** The setter has nobody to notify: it is done, or it is about to run the task of an await. */
  predicate NeverNotifies<T>(s: State<T>) {
    s.setter == SDone || (s.setter.SRun? && s.setter.n < |s.calls| && s.calls[s.setter.n] == Await)
  }

  lemma {:induction false} NeverNotifiesStays<T>(s: State<T>, run: seq<Step<T>>)
    requires NeverNotifies(s) && IsRun(s, run)
    ensures NeverNotifies(After(s, run))
    decreases |run|
  {
    if run != [] { NeverNotifiesStays(Next(s, run[0]), run[1..]); }
  }

  /** A blocked call may return, and its task die, before the setter comes to notify it. */
  lemma MayReturnFirst<T(!new)>(s: State<T>)
    requires Inv(s) && s.setter.SRun? && s.setter.n == s.Current() && s.LatestKind() != Await
    requires s.waiter == WBlocked || (s.waiter == WTimedOut && s.word == Invalid)
    ensures !NotifiesAlive(s)
  {
    if s.waiter == WBlocked {
      var s1 := Next(s, RunTask);
      First(s1, Wake, []);
      First(s, RunTask, [Wake] + []);
      assert !After(s, [RunTask] + ([Wake] + [])).FrameAlive(s.setter.n);
    } else {
      var s1 := Next(s, TimeoutExchange);
      First(s1, RunTask, []);
      First(s, TimeoutExchange, [RunTask] + []);
      assert !After(s, [TimeoutExchange] + ([RunTask] + [])).FrameAlive(s.setter.n);
    }
  }

  /**
   The exact condition, at the exchange in on_ready(): the late notify_one() is safe in all that
   can follow exactly if the word does not hold the task of a wait() or wait_for().
   */
  lemma NotifySafeIff<T(!new)>(before: seq<Step<T>>)
    requires IsRun(Init(), before) && After(Init(), before).setter == SWritten
    ensures var s := After(Init(), before);
      NotifiesAlive(Next(s, Exchange)) <==> !(s.word.Task? && s.LatestKind() != Await)
  {
    InitInv<T>();
    RunKeeps(Init(), before);
    var s := After(Init(), before);
    var s1 := Next(s, Exchange);
    StepKeeps(s, Exchange);
    if s.word.Task? && s.LatestKind() != Await {
      MayReturnFirst(s1);
    } else {
      forall run | IsRun(s1, run) ensures !After(s1, run).setter.SNotify? { NeverNotifiesStays(s1, run); }
    }
  }

  // ---------- the exchange after a timeout ----------

  ghost predicate WithinCall<T>(run: seq<Step<T>>) { forall i | 0 <= i < |run| :: !run[i].Call? }

  /** The call in progress can still overwrite the ready mark. */
  ghost predicate MayOverwrite<T(!new)>(s: State<T>) {
    exists run :: IsRun(s, run) && WithinCall(run) && Overwrites(s, run)
  }

  /** The setter has exchanged the word before the call in progress has put its task there. */
  predicate Spared<T>(s: State<T>) {
    s.Exchanged() && (s.word == Invalid ==> s.waiter != WBlocked && s.waiter != WTimedOut)
  }

  lemma {:induction false} SparedStays<T>(s: State<T>, run: seq<Step<T>>)
    requires Spared(s) && IsRun(s, run) && WithinCall(run)
    ensures !Overwrites(s, run)
    decreases |run|
  {
    if run != [] { SparedStays(Next(s, run[0]), run[1..]); }
  }

  lemma TimeoutMeetsReady<T(!new)>(s: State<T>)
    requires s.waiter == WTimedOut && s.word.Task? && (s.setter == SIdle || s.setter == SWritten)
    ensures MayOverwrite(s)
  {
    var s1 := if s.setter == SIdle then Next(s, Write(Exception)) else s;
    First(Next(s1, Exchange), TimeoutExchange, []);
    First(s1, Exchange, [TimeoutExchange] + []);
    if s.setter == SIdle { First(s, Write(Exception), [Exchange] + ([TimeoutExchange] + [])); }
    var run: seq<Step<T>> := [Exchange] + ([TimeoutExchange] + []);
    var run1: seq<Step<T>> := [Write(Exception)] + run;
    assert WithinCall(run) && WithinCall(run1);
    assert if s.setter == SIdle then Overwrites(s, run1) else Overwrites(s, run);
  }

  lemma MayOverwriteBefore<T(!new)>(s: State<T>, a: Step<T>)
    requires Enabled(s, a) && !a.Call? && MayOverwrite(Next(s, a))
    ensures MayOverwrite(s)
  {
    var run :| IsRun(Next(s, a), run) && WithinCall(run) && Overwrites(Next(s, a), run);
    First(s, a, run);
    assert WithinCall([a] + run);
  }

  /**
   The exact condition at the call: wait_for() can overwrite the ready mark exactly if the setter
   has not made its exchange yet. Without an earlier overwrite a caller sees that by is_ready().
   */
  lemma WaitForOverwritesIff<T(!new)>(before: seq<Step<T>>)
    requires IsRun(Init(), before) && After(Init(), before).waiter == WIdle
    ensures var s := After(Init(), before);
      && (MayOverwrite(Next(s, Call(WaitFor))) <==> !s.Exchanged())
      && (!Overwrites(Init(), before) ==> (s.Exchanged() <==> s.word == Invalid))
  {
    InitInv<T>();
    RunKeeps(Init(), before);
    LostIff(Init(), before);
    var s := After(Init(), before);
    var s1 := Next(s, Call(WaitFor));
    if s.Exchanged() {
      forall run | IsRun(s1, run) && WithinCall(run) ensures !Overwrites(s1, run) { SparedStays(s1, run); }
    } else {
      var s2 := Next(s1, Check);
      var s3 := Next(s2, Register);
      TimeoutMeetsReady(Next(s3, TimeOut));
      MayOverwriteBefore(s3, TimeOut);
      MayOverwriteBefore(s2, Register);
      MayOverwriteBefore(s1, Check);
    }
  }

  // ---------- runs that show the two departures ----------

  /** A wait_for() that is about to give up. */
  function GiveUp(): seq<Step<int>> { [Call(WaitFor)] + ([Check] + ([Register] + ([TimeOut] + SetThenUnset()))) }

  /** The value is set, and the exchange of wait_for() makes the future unset again. */
  function SetThenUnset(): seq<Step<int>> { [Write(Val(7))] + ([Exchange] + ([TimeoutExchange] + [])) }

  lemma SetThenUnsetEnd<T>(s: State<T>, v: T)
    requires s.word == Task(0) && s.setter == SIdle && s.waiter == WTimedOut && |s.calls| == 1
    ensures var s1 := Next(s, Write(Val(v))); var s' := Next(Next(s1, Exchange), TimeoutExchange);
      && 0 in s'.returned && s'.returned[0] && s'.value == Val(v)
      && s'.word == Empty && s'.setter == SRun(0) && !s'.FrameAlive(0)
  {
  }

  /** wait_for() reports ready, but the future no longer is, and the setter is about to run a task that is gone. */
  lemma ReadyThenUnready()
    ensures IsRun(Init<int>(), GiveUp())
    ensures var s := After(Init<int>(), GiveUp());
      && 0 in s.returned && s.returned[0] && s.value == Val(7)
      && s.word == Empty && s.setter == SRun(0) && !s.FrameAlive(0)
  {
    var s0 := Init<int>();
    var s1 := Next(s0, Call(WaitFor));
    var s2 := Next(s1, Check);
    var s3 := Next(s2, Register);
    var s4 := Next(s3, TimeOut);
    var s5 := Next(s4, Write(Val(7)));
    SetThenUnsetEnd(s4, 7);
    First(Next(s5, Exchange), TimeoutExchange, []);
    First(s5, Exchange, [TimeoutExchange] + []);
    First(s4, Write(Val(7)), [Exchange] + ([TimeoutExchange] + []));
    First(s3, TimeOut, SetThenUnset());
    First(s2, Register, [TimeOut] + SetThenUnset());
    First(s1, Check, [Register] + ([TimeOut] + SetThenUnset()));
    First(s0, Call(WaitFor), [Check] + ([Register] + ([TimeOut] + SetThenUnset())));
  }

  /** A waiter that wakes between the unlock and the notify_one() of its task. */
  function EarlyReturn(): seq<Step<int>> {
    [Call(WaitFor)] + ([Check] + ([Register] + SetAndWake()))
  }

  function SetAndWake(): seq<Step<int>> { [Write(Val(7))] + ([Exchange] + ([RunTask] + ([Wake] + []))) }

  lemma SetAndWakeRun(s: State<int>)
    requires s.word == Task(0) && s.setter == SIdle && s.waiter == WBlocked && s.calls == [WaitFor]
    ensures IsRun(s, SetAndWake())
    ensures var s' := After(s, SetAndWake()); s'.setter == SNotify(0) && s'.waiter == WIdle
  {
    var s1 := Next(s, Write(Val(7)));
    var s2 := Next(s1, Exchange);
    var s3 := Next(s2, RunTask);
    First(s3, Wake, []);
    First(s2, RunTask, [Wake] + []);
    First(s1, Exchange, [RunTask] + ([Wake] + []));
    First(s, Write(Val(7)), [Exchange] + ([RunTask] + ([Wake] + [])));
  }

  lemma EarlyReturnRun()
    ensures IsRun(Init<int>(), EarlyReturn())
    ensures var s := After(Init<int>(), EarlyReturn()); s.setter == SNotify(0) && !s.FrameAlive(0) && Enabled(s, Notify)
  {
    var s0 := Init<int>();
    var s1 := Next(s0, Call(WaitFor));
    var s2 := Next(s1, Check);
    SetAndWakeRun(Next(s2, Register));
    First(s2, Register, SetAndWake());
    First(s1, Check, [Register] + SetAndWake());
    First(s0, Call(WaitFor), [Check] + ([Register] + SetAndWake()));
  }

  // ---------- the class ----------

  /** The future itself; every method is one atomic operation. `log` holds where setter and waiter are. */
  class LightFutureData<T> {
    var continuationPtr: Word
    var value: Value<T>
    ghost var log: State<T>

    ghost function Abs(): State<T> reads this { log.(word := continuationPtr, value := value) }
    ghost predicate Valid() reads this { Inv(Abs()) }

    constructor ()
      ensures Valid() && Abs() == Init()
    {
      continuationPtr, value, log := Empty, Unset, Init();
      new;
      InitInv<T>();
    }

    /** is_ready() before suspending, in an await or in wait_for(). */
    method IsReady() returns (ready: bool)
      requires Valid() && Enabled(Abs(), Check)
      modifies this
      ensures Valid() && Abs() == Next(old(Abs()), Check)
      ensures ready <==> old(continuationPtr) == Invalid
      ensures ready <==> Abs().waiter == WIdle
      ensures ready ==> !value.Unset?
      ensures continuationPtr == old(continuationPtr) && value == old(value)
    {
      StepKeeps(Abs(), Check);
      log := Next(Abs(), Check);
      ready := continuationPtr == Invalid;
    }

    /** is_ready() in the loop of wait(), look number `i`; the last one before suspend() is number 4. */
    method IsReadyInWait(i: nat) returns (ready: bool, again: bool)
      requires Valid() && Abs().waiter == WPolling(i)
      modifies this
      ensures Valid() && Abs() == Next(old(Abs()), Poll)
      ensures ready <==> old(continuationPtr) == Invalid
      ensures again <==> !ready && i < 4
      ensures Abs().waiter == if ready then WIdle else if again then WPolling(i + 1) else WRegistering
      ensures continuationPtr == old(continuationPtr) && value == old(value)
    {
      StepKeeps(Abs(), Poll);
      log := Next(Abs(), Poll);
      ready := continuationPtr == Invalid;
      again := !ready && i < LAST_POLL;
    }

    /** The CAS in suspend(); `n` is the frame of the caller. */
    method Suspend(n: nat) returns (res: bool)
      requires Valid() && Enabled(Abs(), Register) && n + 1 == |Abs().calls|
      modifies this
      ensures Valid() && Abs() == Next(old(Abs()), Register)
      ensures res <==> old(continuationPtr) == Empty
      ensures continuationPtr == if res then Task(n) else Invalid
      ensures value == old(value)
      ensures res <==> Abs().waiter == WBlocked
      ensures !res ==> old(continuationPtr) == Invalid && !value.Unset?
    {
      StepKeeps(Abs(), Register);
      log := Next(Abs(), Register);
      res := continuationPtr == Empty;
      if res { continuationPtr := Task(n); }
    }

    /** The exchange of wait_for() after a timeout; true means timeout. */
    method ExchangeAfterTimeout() returns (timeout: bool)
      requires Valid() && Enabled(Abs(), TimeoutExchange)
      modifies this
      ensures Valid() && Abs() == Next(old(Abs()), TimeoutExchange)
      ensures timeout <==> old(continuationPtr) == Task(|old(Abs()).calls| - 1)
      ensures !timeout ==> old(continuationPtr) == Invalid
      ensures continuationPtr == Empty && value == old(value)
    {
      StepKeeps(Abs(), TimeoutExchange);
      log := Next(Abs(), TimeoutExchange);
      timeout := continuationPtr.Task?;
      continuationPtr := Empty;
    }

    /** set_value() or set_exception() up to on_ready(). */
    method StoreValue(x: Value<T>)
      requires Valid() && Enabled(Abs(), Write(x))
      modifies this
      ensures Valid() && Abs() == Next(old(Abs()), Write(x))
      ensures value == x && continuationPtr == old(continuationPtr)
    {
      StepKeeps(Abs(), Write(x));
      log := Next(Abs(), Write(x));
      value := x;
    }

    /** The exchange in on_ready(); the task to run, if somebody has suspended. */
    method OnReady() returns (task: Option<nat>)
      requires Valid() && Enabled(Abs(), Exchange)
      modifies this
      ensures Valid() && Abs() == Next(old(Abs()), Exchange) && continuationPtr == Invalid
      ensures old(continuationPtr) != Invalid && value == old(value)
      ensures match old(continuationPtr) case Task(n) => task == Some(n) case _ => task == None
      ensures if task.Some? then Abs().setter == SRun(task.value) else Abs().setter == SDone
    {
      StepKeeps(Abs(), Exchange);
      log := Next(Abs(), Exchange);
      task := if continuationPtr.Task? then Some(continuationPtr.n) else None;
      continuationPtr := Invalid;
    }
  }
}
