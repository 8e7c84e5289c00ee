/**
 Who frees the storage of a coroutine: the thread that finishes it, in `ResultSetter`, or its
 owner, in detach() or in the destructor. `mIsDetached` decides. One step is one access to the
 storage; every access after the storage has been freed is counted.
 */
module Lifetime {
  /** The finishing thread, from the end of the body on. */
  datatype FinPc =
    | Running
    | FExchange                // before mContinuation.exchange(1)
    | FPostLeave               // before mPostLeave.exchange(nullptr)
    | FClaim                   // before the CAS on mIsDetached
    | FClose(destruct: bool)   // before the CAS on mContinuation
    | FWrite(destruct: bool)   // before the write of the result
    | FReady(destruct: bool)   // before the exchange in on_ready()
    | FFree(destruct: bool)    // before the destruction, if it is up to this thread
    | FDone

  datatype OwnerPc = Owns | Resetting | Gone

  datatype State = State(
    isDetached: bool,
    fin: FinPc,
    owner: OwnerPc,
    freed: nat,        // how often the storage has been freed
    deadTouches: nat)  // accesses to freed storage
  {
    /** mResult is ready. */
    predicate Ready() { fin.FFree? || fin.FDone? }
    function Touch(): State { if freed > 0 then this.(deadTouches := deadTouches + 1) else this }
    function Free(): State { this.(freed := freed + 1) }
  }

  const Init := State(false, Running, Owns, 0, 0)

  datatype Step =
    | Finish   // the next operation of the finishing thread
    | Detach   // the CAS in detach()
    | Reset    // d.reset() in detach()
    | Destroy  // the owner is destroyed or assigned to

  /** The destructor of `Data` terminates the program while the coroutine is still active. */
  predicate Enabled(s: State, a: Step) {
    match a
    case Finish => !s.fin.FDone?
    case Detach => s.owner == Owns
    case Reset => s.owner == Resetting
    case Destroy => s.owner == Owns && !s.fin.Running?
  }

  function NextFinish(s: State): State {
    match s.fin
    case Running => s.Touch().(fin := FExchange)
    case FExchange => s.Touch().(fin := FPostLeave)
    case FPostLeave => s.Touch().(fin := FClaim)
    case FClaim => s.Touch().(isDetached := true, fin := FClose(s.isDetached))
    case FClose(d) => s.Touch().(fin := FWrite(d))
    case FWrite(d) => s.Touch().(fin := FReady(d))
    case FReady(d) => s.Touch().(fin := FFree(d))
    case FFree(d) => if d then s.Free().(fin := FDone) else s.(fin := FDone)
    case FDone => s
  }

  function Next(s: State, a: Step): State
    requires Enabled(s, a)
  {
    match a
    case Finish => NextFinish(s)
    case Detach => s.Touch().(isDetached := true, owner := if s.isDetached then Resetting else Gone)
    case Reset => s.Free().(owner := Gone)
    case Destroy => s.Free().(owner := Gone)
  }

  predicate Claimed(fin: FinPc) { fin.FClose? || fin.FWrite? || fin.FReady? || fin.FFree? || fin.FDone? }
  predicate Destructs(fin: FinPc) { (fin.FClose? || fin.FWrite? || fin.FReady? || fin.FFree?) && fin.destruct }

  ghost predicate Inv(s: State) {
    && (Claimed(s.fin) ==> s.isDetached)
    && (s.isDetached && !Claimed(s.fin) ==> s.owner == Gone && s.freed == 0)
    && (s.owner == Resetting ==> Claimed(s.fin))
    && (s.owner != Gone ==> s.freed == 0 && !Destructs(s.fin))
    && (Destructs(s.fin) ==> s.freed == 0)
    && (s.owner == Gone && Claimed(s.fin) && !Destructs(s.fin) ==> s.freed == 1)
    && s.freed <= 1 && (s.freed == 0 ==> s.deadTouches == 0)
    && (s.freed > 0 ==> s.owner == Gone && !s.fin.Running?)
    && (s.owner == Gone && !s.isDetached ==> s.freed == 1)
  }

  lemma StepKeeps(s: State, a: Step)
    requires Inv(s) && Enabled(s, a)
    ensures Inv(Next(s, a))
  {
  }

  ghost predicate IsRun(s: State, run: seq<Step>)
    decreases |run|
  {
    run == [] || (Enabled(s, run[0]) && IsRun(Next(s, run[0]), run[1..]))
  }

  ghost function After(s: State, run: seq<Step>): State
    requires IsRun(s, run)
    decreases |run|
  {
    if run == [] then s else After(Next(s, run[0]), run[1..])
  }

  lemma {:induction false} RunKeeps(s: State, run: seq<Step>)
    requires Inv(s) && IsRun(s, run)
    ensures Inv(After(s, run))
    decreases |run|
  {
    if run != [] {
      StepKeeps(s, run[0]);
      RunKeeps(Next(s, run[0]), run[1..]);
    }
  }

  /** How many operations the finishing thread has done. */
  function Place(fin: FinPc): nat {
    match fin
    case Running => 0
    case FExchange => 1
    case FPostLeave => 2
    case FClaim => 3
    case FClose(_) => 4
    case FWrite(_) => 5
    case FReady(_) => 6
    case FFree(_) => 7
    case FDone => 8
  }

  function Finishes(run: seq<Step>): nat {
    if run == [] then 0 else (if run[0] == Finish then 1 else 0) + Finishes(run[1..])
  }

  lemma {:induction false} PlaceSince(s: State, run: seq<Step>)
    requires IsRun(s, run)
    ensures Place(After(s, run).fin) == Place(s.fin) + Finishes(run)
    decreases |run|
  {
    if run != [] { PlaceSince(Next(s, run[0]), run[1..]); }
  }

  /** How often a run frees the storage: by the owner, or by the finishing thread if that is up to it. */
  ghost function Frees(s: State, run: seq<Step>): nat
    requires IsRun(s, run)
    decreases |run|
  {
    if run == [] then 0
    else
      var frees := run[0] == Reset || run[0] == Destroy || (run[0] == Finish && s.fin == FFree(true));
      (if frees then 1 else 0) + Frees(Next(s, run[0]), run[1..])
  }

  lemma {:induction false} FreesSince(s: State, run: seq<Step>)
    requires IsRun(s, run)
    ensures After(s, run).freed == s.freed + Frees(s, run)
    decreases |run|
  {
    if run != [] { FreesSince(Next(s, run[0]), run[1..]); }
  }

  /** What the owner has done makes out where it is. */
  lemma {:induction false} OwnerSince(s: State, run: seq<Step>)
    requires IsRun(s, run)
    ensures After(s, run).owner == Owns <==> s.owner == Owns && forall i | 0 <= i < |run| :: run[i] == Finish
    ensures (exists i | 0 <= i < |run| :: run[i] == Reset || run[i] == Destroy) ==> After(s, run).owner == Gone
    ensures s.owner == Gone ==> After(s, run).owner == Gone
    decreases |run|
  {
    if run != [] {
      var rest := run[1..];
      OwnerSince(Next(s, run[0]), rest);
      assert forall i | 0 <= i < |rest| :: rest[i] == run[i + 1];
      assert forall i | 0 < i < |run| :: run[i] == rest[i - 1];
    }
  }

  /** The storage is freed at most once, and exactly once when both the coroutine and its owner are through. */
  lemma FreedExactlyOnce(run: seq<Step>)
    requires IsRun(Init, run)
    ensures Frees(Init, run) <= 1 && Finishes(run) <= 8
    ensures Finishes(run) == 8 && After(Init, run).owner == Gone ==> Frees(Init, run) == 1
  {
    RunKeeps(Init, run);
    FreesSince(Init, run);
    PlaceSince(Init, run);
  }

  /** The owner frees the storage in `run` although the result is not ready yet. */
  ghost predicate FreesEarly(s: State, run: seq<Step>)
    requires IsRun(s, run)
    decreases |run|
  {
    run != [] && (((run[0] == Reset || run[0] == Destroy) && !s.Ready()) || FreesEarly(Next(s, run[0]), run[1..]))
  }

  /** Between an early free and the end of the finish step the storage is dead but in use. */
  ghost predicate Doomed(s: State) { s.deadTouches > 0 || (s.freed > 0 && !s.Ready()) }

  lemma {:induction false} DoomedIff(s: State, run: seq<Step>)
    requires Inv(s) && IsRun(s, run)
    ensures Doomed(After(s, run)) <==> Doomed(s) || FreesEarly(s, run)
    decreases |run|
  {
    if run != [] {
      StepKeeps(s, run[0]);
      DoomedIff(Next(s, run[0]), run[1..]);
    }
  }

  /**
   Once the finishing thread is through, freed storage has been touched exactly if the
   owner freed it before the result was ready.
   */
  lemma TouchedAfterFreeIff(run: seq<Step>)
    requires IsRun(Init, run) && After(Init, run).fin == FDone
    ensures After(Init, run).deadTouches > 0 <==> FreesEarly(Init, run)
  {
    RunKeeps(Init, run);
    DoomedIff(Init, run);
  }

  /** Nothing that is done from `s` on touches freed storage. */
  ghost predicate StaysSafe(s: State) { forall run | IsRun(s, run) :: After(s, run).deadTouches == 0 }

  lemma {:induction false} ReadyIsSafe(s: State, run: seq<Step>)
    requires Inv(s) && s.Ready() && s.deadTouches == 0 && IsRun(s, run)
    ensures After(s, run).deadTouches == 0
    decreases |run|
  {
    if run != [] {
      StepKeeps(s, run[0]);
      ReadyIsSafe(Next(s, run[0]), run[1..]);
    }
  }

  /** Freed storage is touched by the next operation of the finishing thread. */
  lemma FreedIsUnsafe(s: State)
    requires s.freed > 0 && !s.Ready()
    ensures !StaysSafe(s)
  {
    Unrolls(s, [Finish]);
    assert After(s, [Finish]).deadTouches > 0;
  }

  /**
   The exact condition for a call of detach(): it is safe if the finishing thread has not claimed
   the flag, or has already made the result ready. In between there is nothing a caller could do.
   */
  lemma DetachIsSafeIff(before: seq<Step>)
    requires IsRun(Init, before) && Enabled(After(Init, before), Detach)
    ensures var s := After(Init, before); StaysSafe(Next(s, Detach)) <==> !Claimed(s.fin) || s.Ready()
  {
    RunKeeps(Init, before);
    var s := After(Init, before);
    var s1 := Next(s, Detach);
    StepKeeps(s, Detach);
    if !Claimed(s.fin) {
      forall run | IsRun(s1, run) ensures After(s1, run).deadTouches == 0 { LeftToFinisher(s1, run); }
    } else if s.Ready() {
      forall run | IsRun(s1, run) ensures After(s1, run).deadTouches == 0 { ReadyIsSafe(s1, run); }
    } else {
      var s2 := Next(s1, Reset);
      FreedIsUnsafe(s2);
      var run :| IsRun(s2, run) && After(s2, run).deadTouches != 0;
      assert ([Reset] + run)[1..] == run;
      Unrolls(s1, [Reset] + run);
    }
  }

  /** The exact condition for destroying the owner of a coroutine whose body is over: is_ready(). */
  lemma DestroyIsSafeIff(before: seq<Step>)
    requires IsRun(Init, before) && Enabled(After(Init, before), Destroy)
    ensures var s := After(Init, before); StaysSafe(Next(s, Destroy)) <==> s.Ready()
  {
    RunKeeps(Init, before);
    var s := After(Init, before);
    var s1 := Next(s, Destroy);
    StepKeeps(s, Destroy);
    if s.Ready() {
      forall run | IsRun(s1, run) ensures After(s1, run).deadTouches == 0 { ReadyIsSafe(s1, run); }
    } else {
      FreedIsUnsafe(s1);
    }
  }

  /** A detach() before the finishing thread reads the flag leaves the storage to that thread, which frees it last. */
  lemma EarlyDetachIsSafe(before: seq<Step>, after: seq<Step>)
    requires IsRun(Init, before)
    requires var s := After(Init, before); Enabled(s, Detach) && !Claimed(s.fin) && IsRun(Next(s, Detach), after)
    ensures var s0 := After(Init, before); var s := After(Next(s0, Detach), after);
      s.deadTouches == s0.deadTouches == 0 && (s.fin == FDone <==> s.freed == 1)
  {
    RunKeeps(Init, before);
    var s0 := After(Init, before);
    StepKeeps(s0, Detach);
    LeftToFinisher(Next(s0, Detach), after);
  }

  /** The owner is gone and the finishing thread has found, or will find, the flag set. */
  ghost predicate Left(s: State) {
    && s.owner == Gone && s.isDetached && s.deadTouches == 0
    && (Claimed(s.fin) && !s.fin.FDone? ==> Destructs(s.fin))
    && (s.fin == FDone <==> s.freed == 1)
  }

  lemma {:induction false} LeftToFinisher(s: State, run: seq<Step>)
    requires Inv(s) && Left(s) && IsRun(s, run)
    ensures Left(After(s, run))
    decreases |run|
  {
    if run != [] {
      StepKeeps(s, run[0]);
      LeftToFinisher(Next(s, run[0]), run[1..]);
    }
  }

  /** detach() between the CAS of the finishing thread and its set_value frees storage that is still in use. */
  function LateDetach(): seq<Step> {
    [Finish, Finish, Finish, Finish, Detach, Reset, Finish, Finish, Finish, Finish]
  }

  lemma LateDetachTouchesFreed()
    ensures IsRun(Init, LateDetach())
    ensures var s := After(Init, LateDetach()); s.fin == FDone && s.freed == 1 && s.deadTouches == 3
  {
    var rest := [Detach, Reset, Finish, Finish, Finish, Finish];
    LateDetachRest(State(true, FClose(false), Owns, 0, 0));
    Unrolls(State(false, FClaim, Owns, 0, 0), [Finish] + rest);
    Unrolls(State(false, FPostLeave, Owns, 0, 0), [Finish, Finish] + rest);
    Unrolls(State(false, FExchange, Owns, 0, 0), [Finish, Finish, Finish] + rest);
    Unrolls(Init, [Finish, Finish, Finish, Finish] + rest);
    assert LateDetach() == [Finish, Finish, Finish, Finish] + rest;
  }

  lemma LateDetachRest(s: State)
    requires s.fin == FClose(false) && s.owner == Owns && s.freed == s.deadTouches == 0 && s.isDetached
    ensures var run := [Detach, Reset, Finish, Finish, Finish, Finish];
      IsRun(s, run) && After(s, run) == State(true, FDone, Gone, 1, 3)
  {
    var dead := s.(owner := Gone, freed := 1);
    Unrolls(dead.(fin := FFree(false), deadTouches := 3), [Finish]);
    Unrolls(dead.(fin := FReady(false), deadTouches := 2), [Finish, Finish]);
    Unrolls(dead.(fin := FWrite(false), deadTouches := 1), [Finish, Finish, Finish]);
    Unrolls(dead, [Finish, Finish, Finish, Finish]);
    Unrolls(s.(owner := Resetting), [Reset, Finish, Finish, Finish, Finish]);
    Unrolls(s, [Detach, Reset, Finish, Finish, Finish, Finish]);
  }

  lemma Unrolls(s: State, run: seq<Step>)
    requires run != [] && Enabled(s, run[0]) && IsRun(Next(s, run[0]), run[1..])
    ensures IsRun(s, run) && After(s, run) == After(Next(s, run[0]), run[1..])
  {
  }

  /** The flag of `Routine::Data`; detach() and ResultSetter race for it. `log` holds where both are. */
  class Data {
    var mIsDetached: bool
    ghost var log: State

    ghost function Abs(): State reads this { log.(isDetached := mIsDetached) }
    ghost predicate Valid() reads this { Inv(Abs()) }

    constructor ()
      ensures Valid() && Abs() == Init
    {
      mIsDetached, log := false, Init;
    }

    method CompareExchange() returns (res: bool)
      modifies this`mIsDetached
      ensures res == !old(mIsDetached) && mIsDetached
    {
      res := !mIsDetached;
      if res { mIsDetached := true; }
    }

    /** The CAS in detach(): true means release(), false means reset(). */
    method DetachCas() returns (release: bool)
      requires Valid() && Enabled(Abs(), Detach)
      modifies this
      ensures Valid() && Abs() == Next(old(Abs()), Detach)
      ensures release <==> !old(mIsDetached)
      ensures mIsDetached && (release <==> Abs().owner == Gone)
      ensures release <==> !Claimed(Abs().fin)
    {
      StepKeeps(Abs(), Detach);
      log := Next(Abs(), Detach);
      release := CompareExchange();
    }

    /** The CAS in ResultSetter: whether the finishing thread has to free the storage. */
    method Claim() returns (destruct: bool)
      requires Valid() && Abs().fin == FClaim
      modifies this
      ensures Valid() && Abs() == Next(old(Abs()), Finish)
      ensures destruct <==> old(mIsDetached)
      ensures mIsDetached && Abs().fin == FClose(destruct)
      ensures old(Abs()).owner == Owns ==> !destruct
    {
      StepKeeps(Abs(), Finish);
      log := Next(Abs(), Finish);
      var res := CompareExchange();
      destruct := !res;
    }
  }
}
