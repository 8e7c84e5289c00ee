/** What `co::BufferedChannel` guarantees in every run, for any number of senders and receivers. */
module BufferedChannelRuns {
  import opened Options
  import opened BufferedChannel

  ghost predicate IsRun<T>(s: State<T>, run: seq<Step<T>>)
    decreases |run|
  {
    run == [] || (Enabled(s, run[0]) && IsRun(Next(s, run[0]), run[1..]))
  }

  ghost function After<T>(s: State<T>, run: seq<Step<T>>): State<T>
    requires IsRun(s, run)
    decreases |run|
  {
    if run == [] then s else After(Next(s, run[0]), run[1..])
  }

  lemma {:induction false} RunKeeps<T>(s: State<T>, run: seq<Step<T>>)
    requires Inv(s) && IsRun(s, run)
    ensures Inv(After(s, run))
    decreases |run|
  {
    if run != [] {
      StepKeeps(s, run[0]);
      RunKeeps(Next(s, run[0]), run[1..]);
    }
  }

  // ---------- what the calls of a run are ----------

  /** The arguments of the pushes, in order. */
  function Pushed<T>(run: seq<Step<T>>): seq<T> {
    if run == [] then [] else (if run[0].Push? then [run[0].v] else []) + Pushed(run[1..])
  }

  /** The arguments of the pushes before the receiver is closed: from then on nothing is taken. */
  function Accepted<T>(run: seq<Step<T>>): seq<T> {
    if run == [] || run[0].CloseReceiver? then []
    else (if run[0].Push? then [run[0].v] else []) + Accepted(run[1..])
  }

  function PopCount<T>(run: seq<Step<T>>): nat {
    if run == [] then 0 else (if run[0].Pop? then 1 else 0) + PopCount(run[1..])
  }

  /** The capacity that was set last. */
  function Capacity<T>(before: nat, run: seq<Step<T>>): nat
    decreases |run|
  {
    if run == [] then before else Capacity(if run[0].SetMax? then run[0].cnt else before, run[1..])
  }

  ghost predicate Closes<T>(run: seq<Step<T>>, sender: bool, receiver: bool) {
    && (sender <==> exists i | 0 <= i < |run| :: run[i].CloseSender?)
    && (receiver <==> exists i | 0 <= i < |run| :: run[i].CloseReceiver?)
  }

  lemma PushedStep<T>(s: State<T>, a: Step<T>)
    requires Enabled(s, a)
    ensures Next(s, a).sent == s.sent + if a.Push? then [a.v] else []
  {
  }

  lemma AcceptedStep<T>(s: State<T>, a: Step<T>)
    requires Inv(s) && Enabled(s, a)
    ensures Next(s, a).accepted == s.accepted + if a.Push? && !s.receiverClosed then 1 else 0
    ensures Next(s, a).receiverClosed <==> s.receiverClosed || a.CloseReceiver?
  {
  }

  lemma {:induction false} PushedSince<T>(s: State<T>, run: seq<Step<T>>)
    requires IsRun(s, run)
    ensures After(s, run).sent == s.sent + Pushed(run)
    decreases |run|
  {
    if run != [] {
      var s1, rest := Next(s, run[0]), run[1..];
      PushedStep(s, run[0]);
      PushedSince(s1, rest);
      assert s1.sent + Pushed(rest) == s.sent + Pushed(run);
    }
  }

  lemma {:induction false} PopsSince<T>(s: State<T>, run: seq<Step<T>>)
    requires IsRun(s, run)
    ensures After(s, run).pops == s.pops + PopCount(run)
    decreases |run|
  {
    if run != [] { PopsSince(Next(s, run[0]), run[1..]); }
  }

  lemma {:induction false} CapacitySince<T>(s: State<T>, run: seq<Step<T>>)
    requires IsRun(s, run)
    ensures After(s, run).maxSize == Capacity(s.maxSize, run)
    decreases |run|
  {
    if run != [] { CapacitySince(Next(s, run[0]), run[1..]); }
  }

  lemma {:induction false} AcceptedSince<T>(s: State<T>, run: seq<Step<T>>)
    requires Inv(s) && IsRun(s, run)
    ensures After(s, run).accepted == if s.receiverClosed then s.accepted else s.accepted + |Accepted(run)|
    decreases |run|
  {
    if run != [] {
      StepKeeps(s, run[0]);
      AcceptedStep(s, run[0]);
      AcceptedSince(Next(s, run[0]), run[1..]);
    }
  }

  lemma {:induction false} AcceptedFirst<T>(run: seq<Step<T>>)
    ensures Accepted(run) <= Pushed(run)
  {
    if run != [] { AcceptedFirst(run[1..]); }
  }

  lemma {:induction false} ClosesSince<T>(s: State<T>, run: seq<Step<T>>)
    requires IsRun(s, run)
    ensures After(s, run).senderClosed <==> s.senderClosed || exists i | 0 <= i < |run| :: run[i].CloseSender?
    ensures After(s, run).receiverClosed <==> s.receiverClosed || exists i | 0 <= i < |run| :: run[i].CloseReceiver?
    decreases |run|
  {
    if run != [] {
      var rest := run[1..];
      ClosesSince(Next(s, run[0]), rest);
      assert forall i | 0 <= i < |rest| :: rest[i] == run[i + 1];
      assert forall i | 0 < i < |run| :: run[i] == rest[i - 1];
    }
  }

  /** The history in a state is that of the calls. */
  lemma HistoryIsRun<T>(run: seq<Step<T>>)
    requires IsRun(Init(), run)
    ensures var s := After(Init(), run);
      && s.sent == Pushed(run) && s.pops == PopCount(run) && s.maxSize == Capacity(2, run)
      && s.accepted <= |s.sent| && s.sent[..s.accepted] == Accepted(run)
      && Closes(run, s.senderClosed, s.receiverClosed)
  {
    InitInv<T>();
    PushedSince(Init(), run);
    PopsSince(Init(), run);
    CapacitySince(Init(), run);
    AcceptedSince(Init(), run);
    AcceptedFirst(run);
    ClosesSince(Init(), run);
  }

  // ---------- first in, first out ----------

  /** What the matched pops have got, in the order of the pops. */
  ghost function Matched<T>(s: State<T>): seq<T>
    requires Inv(s)
  {
    assert forall k: nat | k < s.Taken() :: ReceiverOk(s, k);
    seq(s.Taken(), k requires 0 <= k < s.Taken() => assert ReceiverOk(s, k); s.Got(k).value)
  }

  /** The channel is a queue: what was pushed before closeReceiver() has come out, in order, or is buffered. */
  lemma Conservation<T>(run: seq<Step<T>>)
    requires IsRun(Init(), run)
    ensures Inv(After(Init(), run))
    ensures var s := After(Init(), run); Accepted(run) == Matched(s) + s.ready
  {
    InitInv<T>();
    RunKeeps(Init(), run);
    HistoryIsRun(run);
    var s := After(Init(), run);
    forall k | 0 <= k < s.Taken() ensures Matched(s)[k] == s.sent[k] { assert ReceiverOk(s, k); }
  }

  lemma WaitingReceivers<T>(s: State<T>, k: nat)
    requires Shape(s)
    ensures k in s.receivers <==> 0 <= k - s.Taken() < |s.receivers|
  {
    if 0 <= k - s.Taken() < |s.receivers| { assert s.receivers[k - s.Taken()] == k; }
  }

  /** The k-th pop gets the argument of the k-th push, or it has come after the last one and gets none. */
  lemma KthPopGetsKthPush<T>(run: seq<Step<T>>, k: nat)
    requires IsRun(Init(), run) && After(Init(), run).Answered(k)
    ensures var s := After(Init(), run);
      && k < PopCount(run)
      && match s.Got(k)
         case Some(v) => k < |Accepted(run)| && v == Accepted(run)[k]
         case None => s.ready == [] && k >= |Accepted(run)| && exists i | 0 <= i < |run| :: run[i].CloseSender?
  {
    InitInv<T>();
    RunKeeps(Init(), run);
    HistoryIsRun(run);
    var s := After(Init(), run);
    assert ReceiverOk(s, k);
    WaitingReceivers(s, k);
  }

  /** A push after closeReceiver() is answered false at once. */
  lemma LatePushIsRefused<T>(run: seq<Step<T>>, k: nat)
    requires IsRun(Init(), run) && |Accepted(run)| <= k < |Pushed(run)|
    ensures var s := After(Init(), run); s.Acked(k) && !s.Ack(k)
  {
    InitInv<T>();
    RunKeeps(Init(), run);
    HistoryIsRun(run);
    assert SenderOk(After(Init(), run), k);
  }

  /** Every push that is neither answered nor refused waits, and so does every pop. */
  lemma EveryCallIsSomewhere<T>(run: seq<Step<T>>, k: nat)
    requires IsRun(Init(), run)
    ensures var s := After(Init(), run);
      && (k < |Pushed(run)| <==> k in s.senders || s.Acked(k)) && !(k in s.senders && s.Acked(k))
      && (k < PopCount(run) <==> k in s.receivers || s.Answered(k)) && !(k in s.receivers && s.Answered(k))
  {
    InitInv<T>();
    RunKeeps(Init(), run);
    HistoryIsRun(run);
    assert SenderOk(After(Init(), run), k) && ReceiverOk(After(Init(), run), k);
  }

  /** The completion of a waiter makes its call return with the answer it has been given. */
  lemma NotifyCompletes<T>(s: State<T>, a: Step<T>)
    requires Inv(s) && Enabled(s, a)
    ensures a.NotifySender? ==> a.k in Next(s, a).acks && Next(s, a).acks[a.k] == s.Ack(a.k)
    ensures a.NotifyReceiver? ==> a.k in Next(s, a).gots && Next(s, a).gots[a.k] == s.Got(a.k)
  {
    if a.NotifySender? { assert SenderOk(s, a.k); }
    if a.NotifyReceiver? { assert ReceiverOk(s, a.k); }
  }

  /** What lets a waiting sender go on, and with which answer: `j` is its place in the queue. */
  lemma WaitEndsDuly<T>(run: seq<Step<T>>, a: Step<T>, j: nat)
    requires IsRun(Init(), run) && Enabled(After(Init(), run), a) && j < |After(Init(), run).senders|
    ensures var s := After(Init(), run); var s', k := Next(s, a), s.senders[j];
      match a
      case Pop => if j == 0 then s'.Acked(k) && s'.Ack(k) else s.senders[1..] == s'.senders && k == s'.senders[j - 1]
      case CloseReceiver => s'.Acked(k) && !s'.Ack(k)
      case SetMax(cnt) =>
        if |s.ready| < cnt && j < cnt - s.maxSize then s'.Acked(k) && !s'.Ack(k) else k in s'.senders
      case _ => k in s'.senders
  {
    InitInv<T>();
    RunKeeps(Init(), run);
    WaitEndsAt(After(Init(), run), a, j);
  }

  lemma WaitEndsAt<T>(s: State<T>, a: Step<T>, j: nat)
    requires Inv(s) && Enabled(s, a) && j < |s.senders|
    ensures var s', k := Next(s, a), s.senders[j];
      match a
      case Pop => if j == 0 then s'.Acked(k) && s'.Ack(k) else s.senders[1..] == s'.senders && k == s'.senders[j - 1]
      case CloseReceiver => s'.Acked(k) && !s'.Ack(k)
      case SetMax(cnt) =>
        if |s.ready| < cnt && j < cnt - s.maxSize then s'.Acked(k) && !s'.Ack(k) else k in s'.senders
      case _ => k in s'.senders
  {
    var k := s.senders[j];
    assert k in s.senders && SenderOk(s, k);
    if a.SetMax? {
      var n := ReleaseCount(s, a.cnt);
      if j < n { assert k in s.senders[..n]; } else { assert s.senders[n..][j - n] == k; }
    }
  }

  // ---------- every waiter is answered once ----------

  /** What the code asserts before a step, and that the futures it sets are still unset. */
  ghost predicate CodeAsserts<T>(s: State<T>, a: Step<T>) {
    match a
    case Push(_) => (s.receivers != [] ==> !s.receiverClosed) && |s.sent| !in s.acks
    case Pop => (s.ready == [] && s.senderClosed ==> s.senders == []) && s.pops !in s.gots
    case CloseSender => s.senders == [] && (s.receivers != [] ==> s.ready == [])
    case CloseReceiver => s.receivers == []
    case SetMax(cnt) => true
    case NotifySender(k) => k !in s.acks
    case NotifyReceiver(k) => k !in s.gots
  }

  lemma AssertsHold<T>(run: seq<Step<T>>, a: Step<T>)
    requires IsRun(Init(), run) && Enabled(After(Init(), run), a)
    ensures CodeAsserts(After(Init(), run), a)
  {
    InitInv<T>();
    RunKeeps(Init(), run);
    var s := After(Init(), run);
    CloseFindsNoPeer(s);
    match a
    case Push(_) => assert SenderOk(s, |s.sent|);
    case Pop => assert ReceiverOk(s, s.pops);
    case NotifySender(k) => assert SenderOk(s, k);
    case NotifyReceiver(k) => assert ReceiverOk(s, k);
    case _ =>
  }

  lemma AnswersStay<T>(s: State<T>, a: Step<T>, k: nat)
    requires Inv(s) && Enabled(s, a)
    ensures s.Acked(k) ==> Next(s, a).Acked(k) && Next(s, a).Ack(k) == s.Ack(k)
    ensures s.Answered(k) ==> Next(s, a).Answered(k) && Next(s, a).Got(k) == s.Got(k)
  {
    AckStays(s, a, k);
    GotStays(s, a, k);
  }

  lemma AckStays<T>(s: State<T>, a: Step<T>, k: nat)
    requires Inv(s) && Enabled(s, a)
    ensures s.Acked(k) ==> Next(s, a).Acked(k) && Next(s, a).Ack(k) == s.Ack(k)
  {
    assert SenderOk(s, k);
  }

  lemma GotStays<T>(s: State<T>, a: Step<T>, k: nat)
    requires Inv(s) && Enabled(s, a)
    ensures s.Answered(k) ==> Next(s, a).Answered(k) && Next(s, a).Got(k) == s.Got(k)
  {
    assert ReceiverOk(s, k);
  }

  /** An answer, once decided, is the answer for good. */
  lemma {:induction false} AnsweredOnce<T>(s: State<T>, run: seq<Step<T>>, k: nat)
    requires Inv(s) && IsRun(s, run)
    ensures s.Acked(k) ==> After(s, run).Acked(k) && After(s, run).Ack(k) == s.Ack(k)
    ensures s.Answered(k) ==> After(s, run).Answered(k) && After(s, run).Got(k) == s.Got(k)
    decreases |run|
  {
    if run != [] {
      StepKeeps(s, run[0]);
      AnswersStay(s, run[0], k);
      AnsweredOnce(Next(s, run[0]), run[1..], k);
    }
  }

  /** Senders and receivers never wait together, and after both closes nobody waits: the destructor's assertions. */
  lemma WhoWaits<T>(run: seq<Step<T>>)
    requires IsRun(Init(), run)
    ensures var s := After(Init(), run);
      && (s.senders == [] || s.receivers == [])
      && (s.receivers != [] ==> s.ready == [])
      && (s.senderClosed && s.receiverClosed ==> s.senders == [] && s.receivers == [])
  {
    InitInv<T>();
    RunKeeps(Init(), run);
  }

  // ---------- backpressure ----------

  /** Exactly the senders of the values beyond the first `maxSize - 1` wait. */
  ghost predicate Exact<T>(s: State<T>) {
    && |s.senders| == (if |s.ready| + 1 > s.maxSize then |s.ready| + 1 - s.maxSize else 0)
    && (forall j | 0 <= j < |s.senders| :: s.senders[j] == s.accepted - |s.senders| + j)
  }

  lemma ExactStep<T>(s: State<T>, a: Step<T>)
    requires Inv(s) && Enabled(s, a) && !a.SetMax? && s.maxSize > 0
    requires !s.receiverClosed ==> Exact(s)
    ensures !Next(s, a).receiverClosed ==> Exact(Next(s, a))
    ensures Next(s, a).maxSize == s.maxSize
  {
    match a
    case Pop => if s.ready != [] && !s.receiverClosed { ExactTake(s); }
    case Push(v) => if s.receivers == [] && !s.receiverClosed { ExactStore(s, v); }
    case _ =>
  }

  lemma ExactTake<T>(s: State<T>)
    requires Inv(s) && Exact(s) && s.maxSize > 0 && s.ready != []
    ensures Exact(TakeReady(s))
  {
  }

  lemma ExactStore<T>(s: State<T>, v: T)
    requires Inv(s) && Exact(s) && s.maxSize > 0 && !s.receiverClosed
    ensures Exact(if |s.ready| + 1 >= s.maxSize then StoreAndWait(s, v) else StoreAndGo(s, v))
  {
  }

  ghost predicate FixedSize<T>(run: seq<Step<T>>) { forall i | 0 <= i < |run| :: !run[i].SetMax? }

  lemma {:induction false} ExactRun<T>(s: State<T>, run: seq<Step<T>>)
    requires Inv(s) && IsRun(s, run) && FixedSize(run) && s.maxSize > 0
    requires !s.receiverClosed ==> Exact(s)
    ensures !After(s, run).receiverClosed ==> Exact(After(s, run))
    ensures After(s, run).maxSize == s.maxSize
    decreases |run|
  {
    if run != [] {
      StepKeeps(s, run[0]);
      ExactStep(s, run[0]);
      ExactRun(Next(s, run[0]), run[1..]);
    }
  }

  /**
   The backpressure law for a capacity set once, on the empty channel: while the receiver is open,
   a push waits exactly if its value is not among the first `size - 1` of the buffer.
   */
  lemma Backpressure<T>(size: nat, run: seq<Step<T>>, k: nat)
    requires size > 0 && IsRun(Next(Init(), SetMax(size)), run) && FixedSize(run)
    requires var s := After(Next(Init(), SetMax(size)), run); !s.receiverClosed && s.Taken() <= k < |s.sent|
    ensures var s := After(Next(Init(), SetMax(size)), run); k in s.senders <==> k - s.Taken() >= size - 1
  {
    InitInv<T>();
    var s0 := Next(Init<T>(), SetMax(size));
    StepKeeps(Init<T>(), SetMax(size));
    RunKeeps(s0, run);
    ExactRun(s0, run);
    var s := After(s0, run);
    if k - s.Taken() >= size - 1 { assert s.senders[k - (s.accepted - |s.senders|)] == k; }
  }

  /** Values whose push has returned true but which no pop has taken: fewer than the capacity. */
  lemma UndeliveredAcks<T>(size: nat, run: seq<Step<T>>, k: nat)
    requires size > 0 && IsRun(Next(Init(), SetMax(size)), run) && FixedSize(run)
    requires var s := After(Next(Init(), SetMax(size)), run); !s.receiverClosed && s.Taken() <= k < |s.sent|
    ensures var s := After(Next(Init(), SetMax(size)), run);
      (s.Acked(k) <==> k - s.Taken() < size - 1) && (s.Acked(k) ==> s.Ack(k))
  {
    InitInv<T>();
    var s0 := Next(Init<T>(), SetMax(size));
    StepKeeps(Init<T>(), SetMax(size));
    RunKeeps(s0, run);
    Backpressure(size, run, k);
    NobodyReleased(s0, run);
    assert SenderOk(After(s0, run), k);
  }

  lemma {:induction false} NobodyReleased<T>(s: State<T>, run: seq<Step<T>>)
    requires IsRun(s, run) && FixedSize(run)
    ensures After(s, run).released == s.released
    decreases |run|
  {
    if run != [] { NobodyReleased(Next(s, run[0]), run[1..]); }
  }

  /** closeReceiver() answers false exactly to the pushes whose values are beyond the first `size - 1`. */
  lemma CloseReceiverRefuses<T>(size: nat, run: seq<Step<T>>, k: nat)
    requires size > 0 && IsRun(Next(Init(), SetMax(size)), run) && FixedSize(run)
    requires var s := After(Next(Init(), SetMax(size)), run); Enabled(s, CloseReceiver) && k < |s.sent|
    ensures var s := After(Next(Init(), SetMax(size)), run); var s' := Next(s, CloseReceiver);
      s'.Acked(k) && (s'.Ack(k) <==> k - s.Taken() < size - 1)
  {
    InitInv<T>();
    var s0 := Next(Init<T>(), SetMax(size));
    StepKeeps(Init<T>(), SetMax(size));
    RunKeeps(s0, run);
    NobodyReleased(s0, run);
    var s := After(s0, run);
    assert SenderOk(s, k);
    if k >= s.Taken() { Backpressure(size, run, k); }
  }

  // ---------- setMaxQueueSize() ----------

  /**
   Changing the capacity from an exact state keeps the law exactly if the new capacity is above
   what is buffered, or is the old one. Then, in the first case, every blocked sender is released.
   */
  lemma SetMaxExactIff<T>(s: State<T>, cnt: nat)
    requires Inv(s) && Exact(s) && s.maxSize > 0 && cnt > 0
    ensures Exact(Next(s, SetMax(cnt))) <==> cnt > |s.ready| || cnt == s.maxSize
    ensures cnt > |s.ready| ==> Next(s, SetMax(cnt)).senders == []
  {
  }

  /** From any state, a capacity above what is buffered establishes the law exactly if it leaves no sender blocked. */
  lemma SetMaxEstablishesIff<T>(s: State<T>, cnt: nat)
    requires Inv(s) && cnt > |s.ready|
    ensures Exact(Next(s, SetMax(cnt))) <==>
      if cnt <= s.maxSize then s.senders == [] else |s.senders| <= cnt - s.maxSize
  {
  }

  /** A run in which a higher capacity releases nobody, and a sender waits that the law lets go on. */
  lemma HigherButNobodyReleased()
    ensures var run := [Push(7), Push(8), Push(9), SetMax(3)];
      && IsRun(Init<int>(), run)
      && var s := After(Init<int>(), run);
      && s.maxSize == 3 && s.ready == [7, 8, 9] && s.senders == [1, 2] && !Exact(s)
  {
    var s1 := Next(Init<int>(), Push(7));
    var s2 := Next(s1, Push(8));
    var s3 := Next(s2, Push(9));
    var s4 := Next(s3, SetMax(3));
    assert s3.senders == [1, 2] && s3.ready == [7, 8, 9] && ReleaseCount(s3, 3) == 0;
    var r: seq<Step<int>> := [Push(7), Push(8), Push(9), SetMax(3)];
    assert r[3..] == [SetMax(3)] && IsRun(s3, r[3..]) && After(s3, r[3..]) == s4;
    assert r[2..][1..] == r[3..] && IsRun(s2, r[2..]) && After(s2, r[2..]) == s4;
    assert r[1..][1..] == r[2..] && IsRun(s1, r[1..]) && After(s1, r[1..]) == s4;
  }

  /** Whatever the capacities were, no more senders wait than values are buffered, in the order of their values. */
  lemma WaitersAreBuffered<T>(run: seq<Step<T>>, k: nat)
    requires IsRun(Init(), run)
    ensures var s := After(Init(), run);
      && |s.senders| <= |s.ready|
      && (k in s.senders ==> s.Taken() <= k < s.accepted <= |s.sent| && s.ready[k - s.Taken()] == s.sent[k])
      && (forall i, j | 0 <= i < j < |s.senders| :: s.senders[i] < s.senders[j])
  {
    InitInv<T>();
    RunKeeps(Init(), run);
  }

  function Pops<T>(n: nat): seq<Step<T>> { seq(n, _ => Pop) }

  /** `n` pops in a row take the `n` oldest values and let as many senders go on. */
  lemma {:induction false} PopsRun<T>(s: State<T>, n: nat)
    requires Inv(s) && !s.receiverClosed && n <= |s.ready|
    ensures IsRun(s, Pops(n)) && Inv(After(s, Pops(n)))
    ensures var s' := After(s, Pops(n));
      && s'.Taken() == s.Taken() + n && s'.released == s.released && s'.ready == s.ready[n..]
      && s'.senders == if n < |s.senders| then s.senders[n..] else []
    decreases n
  {
    if n > 0 {
      StepKeeps(s, Pop);
      assert Pops<T>(n)[1..] == Pops<T>(n - 1);
      PopsRun(Next(s, Pop), n - 1);
    }
  }

  /** Draining the buffer frees every blocked sender, whatever the capacities were. */
  lemma DrainFreesAll<T>(run: seq<Step<T>>)
    requires IsRun(Init(), run) && !After(Init(), run).receiverClosed
    ensures var s := After(Init(), run);
      IsRun(s, Pops(|s.ready|)) && After(s, Pops(|s.ready|)).senders == [] && After(s, Pops(|s.ready|)).ready == []
  {
    InitInv<T>();
    RunKeeps(Init(), run);
    var s := After(Init(), run);
    PopsRun(s, |s.ready|);
  }

  /** No value has been delivered whose push returned false. */
  ghost predicate FalseMeansLost<T>(s: State<T>) {
    forall k: nat | s.Acked(k) && !s.Ack(k) :: k >= s.Taken()
  }

  /** The channel keeps that promise in every continuation. */
  ghost predicate FalseStaysLost<T(!new)>(s: State<T>) {
    forall run | IsRun(s, run) && FixedSize(run) :: FalseMeansLost(After(s, run))
  }

  lemma {:induction false} LostStaysLost<T>(s: State<T>, run: seq<Step<T>>)
    requires Inv(s) && s.released == {} && IsRun(s, run) && FixedSize(run)
    ensures FalseMeansLost(After(s, run))
  {
    RunKeeps(s, run);
    NobodyReleased(s, run);
    forall k: nat | After(s, run).Acked(k) && !After(s, run).Ack(k) ensures k >= After(s, run).Taken() {
      assert SenderOk(After(s, run), k);
    }
  }

  /** Popping up to a buffered value whose push has been told false delivers it. */
  lemma PopsDeliver<T(!new)>(s: State<T>, k: nat)
    requires Inv(s) && !s.receiverClosed && s.Taken() <= k < s.accepted && s.Acked(k) && !s.Ack(k)
    ensures !FalseStaysLost(s)
  {
    var n := k + 1 - s.Taken();
    PopsRun(s, n);
    AnsweredOnce(s, Pops(n), k);
    assert !FalseMeansLost(After(s, Pops(n)));
  }

  lemma ReleasedIsDelivered<T(!new)>(s: State<T>, cnt: nat)
    requires Inv(s) && !s.receiverClosed && cnt > 0 && ReleaseCount(s, cnt) > 0
    ensures !FalseStaysLost(Next(s, SetMax(cnt)))
  {
    StepKeeps(s, SetMax(cnt));
    var k := s.senders[0];
    assert k in s.senders[..ReleaseCount(s, cnt)];
    assert SenderOk(Next(s, SetMax(cnt)), k);
    PopsDeliver(Next(s, SetMax(cnt)), k);
  }

  lemma NobodyReleasedIsSafe<T(!new)>(s: State<T>, cnt: nat)
    requires Inv(s) && s.released == {} && cnt > 0 && ReleaseCount(s, cnt) == 0
    ensures FalseStaysLost(Next(s, SetMax(cnt)))
  {
    var s' := Next(s, SetMax(cnt));
    StepKeeps(s, SetMax(cnt));
    forall run | IsRun(s', run) && FixedSize(run) ensures FalseMeansLost(After(s', run)) { LostStaysLost(s', run); }
  }

  /**
   A push that returned false is a value that is never delivered: setMaxQueueSize() breaks this
   exactly when it releases somebody, because the released senders are told false while their
   values stay in the buffer.
   */
  lemma SetMaxKeepsPromiseIff<T(!new)>(s: State<T>, cnt: nat)
    requires Inv(s) && !s.receiverClosed && s.released == {} && cnt > 0
    ensures FalseStaysLost(Next(s, SetMax(cnt))) <==> |s.ready| >= cnt || cnt <= s.maxSize || s.senders == []
  {
    if ReleaseCount(s, cnt) == 0 { NobodyReleasedIsSafe(s, cnt); } else { ReleasedIsDelivered(s, cnt); }
  }

  /** A run in which the value of a push that returned false is delivered. */
  lemma FalseButDelivered()
    ensures var run := [Push(7), Push(8), SetMax(3), Pop, Pop];
      && IsRun(Init<int>(), run)
      && var s := After(Init<int>(), run);
      && s.Acked(1) && !s.Ack(1)
      && s.Answered(1) && s.Got(1) == Some(8)
  {
    var s1 := Next(Init<int>(), Push(7));
    var s2 := Next(s1, Push(8));
    var s3 := Next(s2, SetMax(3));
    var s4 := Next(s3, Pop);
    var s5 := Next(s4, Pop);
    assert s2.senders == [1] && ReleaseCount(s2, 3) == 1 && s2.senders[..1] == [1];
    assert 1 in s3.pendingAck && !s3.pendingAck[1] && s3.ready == [7, 8] && s3.senders == [];
    var r: seq<Step<int>> := [Push(7), Push(8), SetMax(3), Pop, Pop];
    assert r[4..] == [Pop] && IsRun(s4, r[4..]) && After(s4, r[4..]) == s5;
    assert r[3..][1..] == r[4..] && IsRun(s3, r[3..]) && After(s3, r[3..]) == s5;
    assert r[2..][1..] == r[3..] && IsRun(s2, r[2..]) && After(s2, r[2..]) == s5;
    assert r[1..][1..] == r[2..] && IsRun(s1, r[1..]) && After(s1, r[1..]) == s5;
  }
}
