/**
 What a `LightFutureData` does, told from the steps of a run alone: the value it gives is the one
 that was set, it says ready exactly from the exchange of its setter on, and every answer of a call
 is true of the future.
 */
module FutureRuns {
  import opened Options
  import opened Future

  // ---------- the value ----------

  lemma {:induction false} WrittenSince<T>(s: State<T>, run: seq<Step<T>>)
    requires IsRun(s, run)
    ensures s.setter != SIdle ==> After(s, run).value == s.value && forall i | 0 <= i < |run| :: !run[i].Write?
    ensures forall i | 0 <= i < |run| && run[i].Write? ::
      After(s, run).value == run[i].x && After(s, run).setter != SIdle
    ensures (forall i | 0 <= i < |run| :: !run[i].Write?) ==>
      After(s, run).value == s.value && (After(s, run).setter == SIdle <==> s.setter == SIdle)
    decreases |run|
  {
    if run != [] {
      var s1, rest := Next(s, run[0]), run[1..];
      WrittenSince(s1, rest);
      assert forall i | 0 < i < |run| :: run[i] == rest[i - 1];
      assert forall i | 0 <= i < |rest| :: rest[i] == run[i + 1];
    }
  }

  /** The value is what set_value() or set_exception() was called with, and unset before that. */
  lemma ValueIsWritten<T>(run: seq<Step<T>>)
    requires IsRun(Init(), run)
    ensures forall i | 0 <= i < |run| && run[i].Write? :: After(Init(), run).value == run[i].x
    ensures After(Init(), run).value == Unset <==> forall i | 0 <= i < |run| :: !run[i].Write?
  {
    WrittenSince(Init(), run);
    WritesSomething(Init(), run);
  }

  /** set_value() and set_exception() write no unset value. */
  lemma {:induction false} WritesSomething<T>(s: State<T>, run: seq<Step<T>>)
    requires IsRun(s, run)
    ensures forall i | 0 <= i < |run| && run[i].Write? :: run[i].x != Unset
    decreases |run|
  {
    if run != [] {
      WritesSomething(Next(s, run[0]), run[1..]);
      assert forall i | 0 < i < |run| :: run[i] == run[1..][i - 1];
    }
  }

  // ---------- the calls and the exchange ----------

  /** The calls of the waiter, in order. */
  function Calls<T>(run: seq<Step<T>>): seq<Kind> {
    if run == [] then [] else (if run[0].Call? then [run[0].kind] else []) + Calls(run[1..])
  }

  ghost predicate HasExchanged<T>(run: seq<Step<T>>) { exists i :: 0 <= i < |run| && run[i] == Exchange }

  lemma HasExchangedFrom<T>(run: seq<Step<T>>)
    requires run != []
    ensures HasExchanged(run) <==> run[0] == Exchange || HasExchanged(run[1..])
  {
    if HasExchanged(run[1..]) {
      var i :| 0 <= i < |run| - 1 && run[1..][i] == Exchange;
      assert run[i + 1] == Exchange;
    }
    if HasExchanged(run) {
      var i :| 0 <= i < |run| && run[i] == Exchange;
      assert i > 0 ==> run[1..][i - 1] == Exchange;
    }
  }

  lemma {:induction false} ExchangedSince<T>(s: State<T>, run: seq<Step<T>>)
    requires IsRun(s, run)
    ensures After(s, run).Exchanged() <==> s.Exchanged() || HasExchanged(run)
    decreases |run|
  {
    if run != [] {
      ExchangedSince(Next(s, run[0]), run[1..]);
      HasExchangedFrom(run);
    }
  }

  lemma {:induction false} CallsSince<T>(s: State<T>, run: seq<Step<T>>)
    requires IsRun(s, run)
    ensures After(s, run).calls == s.calls + Calls(run)
    decreases |run|
  {
    if run != [] { CallsSince(Next(s, run[0]), run[1..]); }
  }

  /** The word says ready exactly if the setter has made its exchange and no timeout has met that. */
  lemma ReadyFromTheExchange<T>(run: seq<Step<T>>)
    requires IsRun(Init(), run)
    ensures After(Init(), run).word == Invalid <==> HasExchanged(run) && !Overwrites(Init(), run)
    ensures After(Init(), run).calls == Calls(run)
  {
    ExchangedSince(Init(), run);
    CallsSince(Init(), run);
    InitInv<T>();
    RunKeeps(Init(), run);
    LostIff(Init(), run);
  }

  // ---------- the answers ----------

  /** `n` is the call that the step from `s` to `s'` ends. */
  ghost predicate Ends<T>(s: State<T>, s': State<T>, n: nat) { n !in s.returned && n in s'.returned }

  /**
   A look at the word, in a call or in suspend(), ends the call exactly if the setter has made its
   exchange and no timeout has met that. Then the answer is ready, and the value is the one that was set.
   */
  lemma LooksTellTheTruth<T>(run: seq<Step<T>>, a: Step<T>)
    requires IsRun(Init(), run) && Enabled(After(Init(), run), a) && (a == Check || a == Poll || a == Register)
    ensures var s := After(Init(), run); var s' := Next(s, a); var n := |Calls(run)| - 1;
      && n >= 0
      && (Ends(s, s', n) <==> HasExchanged(run) && !Overwrites(Init(), run))
      && (Ends(s, s', n) ==> s'.returned[n] && s'.waiter == WIdle && s'.word == Invalid && s'.value != Unset)
      && (!Ends(s, s', n) ==> s'.waiter != WIdle && s'.returned == s.returned)
  {
    ReadyFromTheExchange(run);
    InitInv<T>();
    RunKeeps(Init(), run);
    ValueIsWritten(run);
  }

  /** What ends a call, and with which answer: false only by a timeout that has found its own task. */
  ghost predicate AnswerIsDue<T>(s: State<T>, a: Step<T>, n: nat, answer: bool) {
    if answer then
      || ((a == Check || a == Poll || a == Register || a == TimeoutExchange) && s.word == Invalid)
      || (a == Wake && s.dataReady && s.LatestKind() != Await)
      || (a == RunTask && s.setter == SRun(n) && s.LatestKind() == Await)
    else a == TimeoutExchange && s.word == Task(n)
  }

  lemma AnswersAreDue<T>(run: seq<Step<T>>, a: Step<T>, n: nat)
    requires IsRun(Init(), run) && Enabled(After(Init(), run), a)
    ensures var s := After(Init(), run); var s' := Next(s, a);
      && (Ends(s, s', n) <==> n == |Calls(run)| - 1 && (AnswerIsDue(s, a, n, true) || AnswerIsDue(s, a, n, false)))
      && (Ends(s, s', n) ==> AnswerIsDue(s, a, n, s'.returned[n]) && s'.waiter == WIdle)
      && (n in s.returned ==> n in s'.returned && s'.returned[n] == s.returned[n])
  {
    InitInv<T>();
    RunKeeps(Init(), run);
    CallsSince(Init(), run);
    var s := After(Init(), run);
    StepKeeps(s, a);
    if OfSetter(a) { SetterAnswers(s, a, n); } else { WaiterAnswers(s, a, n); }
  }

  lemma SetterAnswers<T>(s: State<T>, a: Step<T>, n: nat)
    requires Inv(s) && Enabled(s, a) && OfSetter(a)
    ensures var s' := Next(s, a);
      && (Ends(s, s', n) <==> n == s.Current() && (AnswerIsDue(s, a, n, true) || AnswerIsDue(s, a, n, false)))
      && (Ends(s, s', n) ==> AnswerIsDue(s, a, n, s'.returned[n]) && s'.waiter == WIdle)
      && (n in s.returned ==> n in s'.returned && s'.returned[n] == s.returned[n])
  {
  }

  lemma WaiterAnswers<T>(s: State<T>, a: Step<T>, n: nat)
    requires Inv(s) && Enabled(s, a) && !OfSetter(a)
    ensures var s' := Next(s, a);
      && (Ends(s, s', n) <==> n == s.Current() && (AnswerIsDue(s, a, n, true) || AnswerIsDue(s, a, n, false)))
      && (Ends(s, s', n) ==> AnswerIsDue(s, a, n, s'.returned[n]) && s'.waiter == WIdle)
      && (n in s.returned ==> n in s'.returned && s'.returned[n] == s.returned[n])
  {
  }

  /** The steps that a waiter takes while wait() looks at a future that is not ready. */
  function Polls<T>(n: nat): seq<Step<T>> { seq(n, _ => Poll) }

  /** wait() looks exactly five times before it suspends. */
  lemma {:induction false} LooksFiveTimes<T>(s: State<T>, n: nat)
    requires s.waiter.WPolling? && s.waiter.i + n <= 5 && s.word != Invalid
    ensures IsRun(s, Polls<T>(n))
    ensures var i := s.waiter.i + n;
      After(s, Polls<T>(n)) == s.(waiter := if i == 5 && n > 0 then WRegistering else WPolling(i))
    decreases n
  {
    if n > 0 {
      assert Polls<T>(n)[1..] == Polls<T>(n - 1);
      if s.waiter.i < 4 { LooksFiveTimes(Next(s, Poll), n - 1); }
    }
  }

  lemma WaitLooksFiveTimes<T>(s: State<T>, n: nat)
    requires s.waiter == WIdle && s.word != Invalid && n <= 5
    ensures var s1 := Next(s, Call(Wait));
      && IsRun(s1, Polls<T>(n))
      && After(s1, Polls<T>(n)).waiter == if n == 5 then WRegistering else WPolling(n)
  {
    LooksFiveTimes(Next(s, Call(Wait)), n);
  }
}
