/**
 Every word of `Resumption` that coroutines and threads wait at, of a plain future or of the result
 of a routine, behaves as a `LightFutureData` of `Future` that nobody waits for with a timeout. So
 what is proved there, as that at most one wake-up comes of it, holds of every such word.
 */
module FutureRefinement {
  import opened Options
  import opened Stacks
  import opened Wakeups
  import opened Resumption
  import R = ResumptionRuns
  import F = Future

  type FutureState = F.State<bool>
  type FutureStep = F.Step<bool>

  /** The word `x` of `Resumption` and the future `fs` are in the same place. */
  ghost predicate Shows(x: Word, fs: FutureState) {
    match x
    case Empty => fs.word == F.Empty && fs.setter == F.SIdle && fs.waiter == F.WIdle && fs.woken == []
    case Task(_) => Blocked(fs, F.Await)
    case Waiter(_) => Blocked(fs, F.Wait)
    case Invalid => fs.word == F.Invalid && fs.setter == F.SDone && fs.waiter == F.WIdle && fs.IsSet()
  }

  ghost predicate Blocked(fs: FutureState, kind: F.Kind) {
    && fs.calls != [] && fs.LatestKind() == kind && fs.word == F.Task(fs.Current()) && fs.waiter == F.WBlocked
    && fs.setter == F.SIdle && fs.woken == [] && !fs.dataReady
  }

  ghost predicate NoTimeouts(run: seq<FutureStep>) {
    forall i | 0 <= i < |run| :: run[i] != F.Call(F.WaitFor) && run[i] != F.TimeoutExchange
  }

  /** From `fs` to `fs'` there is a run without timeouts. */
  ghost predicate Leads(fs: FutureState, run: seq<FutureStep>, fs': FutureState) {
    F.IsRun(fs, run) && F.After(fs, run) == fs' && NoTimeouts(run) && !F.Overwrites(fs, run)
  }

  lemma Then(fs: FutureState, a: FutureStep, rest: seq<FutureStep>, fs': FutureState)
    requires F.Enabled(fs, a) && a != F.Call(F.WaitFor) && a != F.TimeoutExchange && Leads(F.Next(fs, a), rest, fs')
    ensures Leads(fs, [a] + rest, fs')
  {
    F.First(fs, a, rest);
  }

  lemma {:induction false} ThenAll(
      fs: FutureState, run: seq<FutureStep>, fs1: FutureState, rest: seq<FutureStep>, fs': FutureState)
    requires Leads(fs, run, fs1) && Leads(fs1, rest, fs')
    ensures Leads(fs, run + rest, fs')
    decreases |run|
  {
    if run == [] {
      assert run + rest == rest;
    } else {
      ThenAll(F.Next(fs, run[0]), run[1..], fs1, rest, fs');
      Then(fs, run[0], run[1..] + rest, fs');
      assert run + rest == [run[0]] + (run[1..] + rest);
    }
  }

  // ---------- one change of the word ----------

  lemma AwaitRuns(fs: FutureState, x: Word) returns (run: seq<FutureStep>, fs': FutureState)
    requires Shows(Empty, fs) && x.Task?
    ensures Leads(fs, run, fs') && Shows(x, fs')
  {
    var fs1 := F.Next(fs, F.Call(F.Await));
    var fs2 := F.Next(fs1, F.Check);
    fs' := F.Next(fs2, F.Register);
    Then(fs2, F.Register, [], fs');
    Then(fs1, F.Check, [F.Register] + [], fs');
    Then(fs, F.Call(F.Await), [F.Check] + ([F.Register] + []), fs');
    run := [F.Call(F.Await)] + ([F.Check] + ([F.Register] + []));
  }

  /** wait() looks several times before it suspends. */
  lemma {:induction false} PollRuns(fs: FutureState, i: nat) returns (run: seq<FutureStep>, fs': FutureState)
    requires fs.word == F.Empty && fs.waiter == F.WPolling(i) && i <= F.LAST_POLL && fs.calls != []
    ensures Leads(fs, run, fs') && fs' == fs.(word := F.Task(fs.Current()), waiter := F.WBlocked)
    decreases F.LAST_POLL - i
  {
    var fs1 := F.Next(fs, F.Poll);
    if i < F.LAST_POLL {
      run, fs' := PollRuns(fs1, i + 1);
    } else {
      fs' := F.Next(fs1, F.Register);
      run := [F.Register] + [];
      Then(fs1, F.Register, [], fs');
    }
    Then(fs, F.Poll, run, fs');
    run := [F.Poll] + run;
  }

  lemma WaitRuns(fs: FutureState, x: Word) returns (run: seq<FutureStep>, fs': FutureState)
    requires Shows(Empty, fs) && x.Waiter?
    ensures Leads(fs, run, fs') && Shows(x, fs')
  {
    run, fs' := PollRuns(F.Next(fs, F.Call(F.Wait)), 0);
    Then(fs, F.Call(F.Wait), run, fs');
    run := [F.Call(F.Wait)] + run;
  }

  /** The setter writes, exchanges, and runs the task that it finds. */
  lemma SetRuns(fs: FutureState, x: Word) returns (run: seq<FutureStep>, fs': FutureState)
    requires Shows(x, fs) && x != Invalid
    ensures Leads(fs, run, fs') && Shows(Invalid, fs') && |fs'.woken| == |fs.woken| + if x.Taken() then 1 else 0
  {
    var fs1 := F.Next(fs, F.Write(F.Exception));
    var fs2 := F.Next(fs1, F.Exchange);
    run, fs' := WakeRuns(fs2, x);
    Then(fs1, F.Exchange, run, fs');
    Then(fs, F.Write(F.Exception), [F.Exchange] + run, fs');
    run := [F.Write(F.Exception)] + ([F.Exchange] + run);
  }

  lemma WakeRuns(fs: FutureState, x: Word) returns (run: seq<FutureStep>, fs': FutureState)
    requires fs.word == F.Invalid && fs.IsSet() && fs.woken == [] && x != Invalid
    requires if !x.Taken() then fs.setter == F.SDone && fs.waiter == F.WIdle
             else fs.calls != [] && fs.setter == F.SRun(fs.Current()) && fs.waiter == F.WBlocked &&
                  fs.LatestKind() == if x.Task? then F.Await else F.Wait
    ensures Leads(fs, run, fs') && Shows(Invalid, fs') && |fs'.woken| == if x.Taken() then 1 else 0
  {
    if !x.Taken() { return [], fs; }
    var fs1 := F.Next(fs, F.RunTask);
    if x.Task? {
      run, fs' := [], fs1;
    } else {
      var fs2 := F.Next(fs1, F.Notify);
      fs' := F.Next(fs2, F.Wake);
      Then(fs2, F.Wake, [], fs');
      Then(fs1, F.Notify, [F.Wake] + [], fs');
      run := [F.Notify] + ([F.Wake] + []);
    }
    Then(fs, F.RunTask, run, fs');
    run := [F.RunTask] + run;
  }

  // ---------- whole runs ----------

  /** How often a run makes a word ready at which somebody has registered. */
  ghost function Wakings(s: State, run: seq<Step>, on: Target): nat
    requires R.IsRun(s, run)
    decreases |run|
  {
    if run == [] then 0
    else
      var s' := Next(s, run[0]);
      (if s.WordOf(on).Taken() && s'.WordOf(on) == Invalid then 1 else 0) + Wakings(s', run[1..], on)
  }

  lemma {:induction false} Project(s: State, run: seq<Step>, on: Target, fs: FutureState)
      returns (frun: seq<FutureStep>, fs': FutureState)
    requires Resumption.Inv(s) && R.IsRun(s, run) && Shows(s.WordOf(on), fs)
    ensures Leads(fs, frun, fs') && Shows(R.After(s, run).WordOf(on), fs')
    ensures |fs'.woken| == |fs.woken| + Wakings(s, run, on)
    decreases |run|
  {
    if run == [] { return [], fs; }
    var s1 := Next(s, run[0]);
    StepKeeps(s, run[0]);
    R.WordMoves(s, run[0], on);
    var now, fs1 := ProjectWord(s.WordOf(on), s1.WordOf(on), fs);
    frun, fs' := Project(s1, run[1..], on, fs1);
    ThenAll(fs, now, fs1, frun, fs');
    frun := now + frun;
  }

  lemma ProjectWord(x: Word, x': Word, fs: FutureState) returns (run: seq<FutureStep>, fs': FutureState)
    requires Shows(x, fs) && (x' == x || (x == Empty && x'.Taken()) || (x != Invalid && x' == Invalid))
    ensures Leads(fs, run, fs') && Shows(x', fs')
    ensures |fs'.woken| == |fs.woken| + if x.Taken() && x' == Invalid then 1 else 0
  {
    if x' == x { run, fs' := [], fs; }
    else if x' == Invalid { run, fs' := SetRuns(fs, x); }
    else if x'.Task? { run, fs' := AwaitRuns(fs, x'); }
    else { run, fs' := WaitRuns(fs, x'); }
  }

  /** Every run of `Resumption`, seen from one word, is a run of `Future` in which no wait_for() is called. */
  lemma WordIsAFuture(run: seq<Step>, on: Target)
    requires R.IsRun(Resumption.Init, run)
    ensures exists frun: seq<FutureStep> ::
      && F.IsRun(F.Init(), frun) && NoTimeouts(frun)
      && Shows(R.After(Resumption.Init, run).WordOf(on), F.After(F.Init(), frun))
      && |F.After(F.Init(), frun).woken| == Wakings(Resumption.Init, run, on)
  {
    R.InitInv();
    var frun, fs' := Project(Resumption.Init, run, on, F.Init());
    assert Leads(F.Init(), frun, fs');
  }

  /** What `Future` proves about its task: no word wakes anybody twice. */
  lemma WakesOnce(run: seq<Step>, on: Target)
    requires R.IsRun(Resumption.Init, run)
    ensures Wakings(Resumption.Init, run, on) <= 1
  {
    WordIsAFuture(run, on);
    var frun: seq<FutureStep> :|
      && F.IsRun(F.Init(), frun) && NoTimeouts(frun)
      && Shows(R.After(Resumption.Init, run).WordOf(on), F.After(F.Init(), frun))
      && |F.After(F.Init(), frun).woken| == Wakings(Resumption.Init, run, on);
    F.WokenOnceWithValue(frun, 0);
  }
}
