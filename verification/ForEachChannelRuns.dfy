/** What `co::forEach` guarantees when it feeds its workers through a channel, however many they are. */
module ForEachChannelRuns {
  import opened Options
  import opened ForEachChannel
  import C = BufferedChannel

  ghost predicate IsRun<T>(s: State<T>, run: seq<Step>)
    decreases |run|
  {
    run == [] || (Enabled(s, run[0]) && Safe(s, run[0]) && IsRun(Next(s, run[0]), run[1..]))
  }

  ghost function After<T>(s: State<T>, run: seq<Step>): State<T>
    requires IsRun(s, run)
    decreases |run|
  {
    if run == [] then s else After(Next(s, run[0]), run[1..])
  }

  lemma {:induction false} RunKeeps<T>(s: State<T>, run: seq<Step>)
    requires Inv(s) && IsRun(s, run)
    ensures Inv(After(s, run)) && After(s, run).items == s.items
    decreases |run|
  {
    if run != [] {
      StepKeeps(s, run[0]);
      RunKeeps(Next(s, run[0]), run[1..]);
    }
  }

  /** forEach keeps to the contract of the channel: nobody pushes or pops after a close, and the last peer closes. */
  lemma AlwaysSafe<T>(items: seq<T>, maxParallelity: nat, run: seq<Step>, a: Step)
    requires maxParallelity > 0 && IsRun(Init(items, maxParallelity), run)
    requires Enabled(After(Init(items, maxParallelity), run), a)
    ensures Safe(After(Init(items, maxParallelity), run), a)
  {
    InitInv(items, maxParallelity);
    RunKeeps(Init(items, maxParallelity), run);
    StepKeeps(After(Init(items, maxParallelity), run), a);
  }

  /** `assert(firstError)` in the feeding loop: a push that has returned false finds that every worker has thrown. */
  lemma FalsePushFindsError<T>(items: seq<T>, maxParallelity: nat, run: seq<Step>)
    requires maxParallelity > 0 && IsRun(Init(items, maxParallelity), run)
    requires var s := After(Init(items, maxParallelity), run); Enabled(s, FeedAck) && !s.ch.acks[s.feeder.k]
    ensures var s := After(Init(items, maxParallelity), run);
      s.FirstError() && forall w | 0 <= w < |s.workers| :: s.workers[w] == Left(true)
  {
    InitInv(items, maxParallelity);
    RunKeeps(Init(items, maxParallelity), run);
    FalseAckMeansAllThrew(After(Init(items, maxParallelity), run));
  }

  /** No item is handed to the callable twice. */
  lemma NeverTwice<T>(items: seq<T>, maxParallelity: nat, run: seq<Step>, a: Step)
    requires maxParallelity > 0 && IsRun(Init(items, maxParallelity), run)
    requires a.WorkerDo? && Enabled(After(Init(items, maxParallelity), run), a)
    ensures var s := After(Init(items, maxParallelity), run); var worker := s.workers[a.w];
      && worker.k < |items| && worker.item == items[worker.k]
      && worker.k !in s.done && worker.k !in s.failed
      && forall w | 0 <= w < |s.workers| && w != a.w :: !s.Holds(w, worker.k)
  {
    InitInv(items, maxParallelity);
    RunKeeps(Init(items, maxParallelity), run);
    var s := After(Init(items, maxParallelity), run);
    var k := s.workers[a.w].k;
    assert WorkerOk(s, a.w) && PopOk(s, k);
    NoneMeansDrained(s, k);
    assert C.ReceiverOk(s.ch, k);
    forall w | 0 <= w < |s.workers| && w != a.w ensures !s.Holds(w, k) { assert WorkerOk(s, w); }
  }

  // ---------- it ends ----------

  lemma Finished<T>(s: State<T>, a: Step)
    requires Inv(s) && s.Finished()
    ensures !Enabled(s, a)
  {
    match a
    case NotifySender(k) => assert PushOk(s, k) && C.SenderOk(s.ch, k);
    case NotifyReceiver(k) =>
      assert C.ReceiverOk(s.ch, k);
      assert k < |s.owner| ==> PopOk(s, k);
    case _ =>
  }

  /** No deadlock: until forEach is through, somebody can go on. */
  lemma SomebodyGoesOn<T>(s: State<T>) returns (a: Step)
    requires Inv(s) && !s.Finished()
    ensures Enabled(s, a)
  {
    if s.feeder == Feeding { return if |s.ch.sent| < |s.items| then Feed else CloseFeed; }
    if s.feeder == Closing { return CloseFeed; }
    if k :| k in s.ch.pendingAck { return NotifySender(k); }
    if k :| k in s.ch.pendingGot { return NotifyReceiver(k); }
    if w :| 0 <= w < |s.workers| && !s.workers[w].Left? {
      assert WorkerOk(s, w);
      match s.workers[w]
      case Ready => return WorkerPop(w);
      case Working(_, _) => return WorkerDo(w, false);
      case Leaving(_) => return WorkerLeave(w);
      case Popping(k) =>
        if k in s.ch.gots { return WorkerGot(w); }
        assert C.ReceiverOk(s.ch, k);
        assert s.ch.receivers != [];
    }
    assert s.feeder.Awaiting?;
    assert C.SenderOk(s.ch, s.feeder.k);
    a := FeedAck;
  }

  function WorkerRank<T>(worker: Worker<T>, gots: map<nat, Option<T>>): nat {
    match worker
    case Ready => 5
    case Popping(k) => if k in gots then 3 else 4
    case Working(_, _) => 2
    case Leaving(_) => 1
    case Left(_) => 0
  }

  function WorkersRank<T>(workers: seq<Worker<T>>, gots: map<nat, Option<T>>): nat {
    if workers == [] then 0 else WorkerRank(workers[0], gots) + WorkersRank(workers[1..], gots)
  }

  function FeederRank<T>(s: State<T>): int {
    match s.feeder
    case Feeding => 3 * (|s.items| - |s.ch.sent|) + 1
    case Awaiting(k) => 3 * (|s.items| - |s.ch.sent|) + 2 + (if k in s.ch.acks then 0 else 1)
    case Closing => 1
    case Closed => 0
  }

  ghost function Missing<T>(n: nat, done: map<nat, T>): set<nat> { set k: nat | k < n && k !in done }

  ghost function Rank<T>(s: State<T>): int {
    FeederRank(s) + 4 * |Missing(|s.items|, s.done)| + WorkersRank(s.workers, s.ch.gots)
  }

  lemma {:induction false} OneWorkerMoves<T>(
      ws: seq<Worker<T>>, g: map<nat, Option<T>>, ws': seq<Worker<T>>, g': map<nat, Option<T>>, i: nat)
    requires |ws| == |ws'| && i < |ws|
    requires forall j | 0 <= j < |ws| && j != i :: WorkerRank(ws'[j], g') <= WorkerRank(ws[j], g)
    ensures WorkersRank(ws', g') <= WorkersRank(ws, g) + WorkerRank(ws'[i], g') - WorkerRank(ws[i], g)
  {
    if |ws| > 1 {
      if i > 0 {
        OneWorkerMoves(ws[1..], g, ws'[1..], g', i - 1);
      } else {
        forall j | 0 <= j < |ws| - 1 ensures WorkerRank(ws'[1..][j], g') <= WorkerRank(ws[1..][j], g) {
          assert WorkerRank(ws'[j + 1], g') <= WorkerRank(ws[j + 1], g);
        }
        OneWorkerMoves(ws[1..], g, ws'[1..], g', 0);
      }
    }
  }

  lemma FeederDrops<T>(s: State<T>, a: Step, c': C.State<T>)
    requires Inv(s) && Enabled(s, a) && Follows(s, a, c')
    requires a.NotifySender? ==> a.k in c'.acks
    ensures FeederRank(Act(s, a).(ch := c')) <=
      FeederRank(s) - if a.Feed? || a.FeedAck? || a.CloseFeed? || a.NotifySender? then 1 else 0
  {
    if a.NotifySender? { assert PushOk(s, a.k) && C.SenderOk(s.ch, a.k); }
  }

  /** The worker that the step is about. */
  function Mover<T>(s: State<T>, a: Step): nat {
    match a
    case WorkerPop(w) => w
    case WorkerGot(w) => w
    case WorkerDo(w, _) => w
    case WorkerLeave(w) => w
    case NotifyReceiver(k) => if k < |s.owner| then s.owner[k] else 0
    case _ => 0
  }

  function Drop(a: Step): int {
    match a
    case WorkerDo(_, false) => -3
    case WorkerDo(_, true) => 1
    case WorkerPop(_) => 1
    case WorkerGot(_) => 1
    case WorkerLeave(_) => 1
    case NotifyReceiver(_) => 1
    case _ => 0
  }

  lemma MoverDrops<T>(s: State<T>, a: Step, c': C.State<T>)
    requires Inv(s) && Enabled(s, a) && Follows(s, a, c')
    requires a.NotifyReceiver? ==> a.k in c'.gots
    ensures Mover(s, a) < |s.workers|
    ensures var w := Mover(s, a);
      WorkerRank(Act(s, a).workers[w], c'.gots) <= WorkerRank(s.workers[w], s.ch.gots) - Drop(a)
  {
    if a.NotifyReceiver? {
      assert C.ReceiverOk(s.ch, a.k) && PopOk(s, a.k);
      assert WorkerOk(s, s.owner[a.k]);
    }
  }

  lemma WorkersDrop<T>(s: State<T>, a: Step, c': C.State<T>)
    requires Inv(s) && Enabled(s, a) && Follows(s, a, c')
    requires a.NotifyReceiver? ==> a.k in c'.gots
    ensures WorkersRank(Act(s, a).workers, c'.gots) <= WorkersRank(s.workers, s.ch.gots) - Drop(a)
  {
    MoverDrops(s, a, c');
    OneWorkerMoves(s.workers, s.ch.gots, Act(s, a).workers, c'.gots, Mover(s, a));
  }

  lemma MissingDrops<T>(s: State<T>, a: Step)
    requires Inv(s) && Enabled(s, a)
    ensures |Missing(|s.items|, Act(s, a).done)| == |Missing(|s.items|, s.done)| - if Drop(a) < 0 then 1 else 0
  {
    if Drop(a) < 0 {
      var k := s.workers[a.w].k;
      assert WorkerOk(s, a.w) && PopOk(s, k);
      NoneMeansDrained(s, k);
      assert Missing(|s.items|, s.done) == Missing(|s.items|, Act(s, a).done) + {k};
    }
  }

  /** Every step uses something up, so no fairness is needed. */
  lemma RankDrops<T>(s: State<T>, a: Step)
    requires Inv(s) && Enabled(s, a) && Safe(s, a)
    ensures Rank(Next(s, a)) < Rank(s)
  {
    var c' := NextChannel(s, a);
    ChannelFollows(s, a);
    FeederDrops(s, a, c');
    WorkersDrop(s, a, c');
    MissingDrops(s, a);
  }

  lemma {:induction false} RunBounded<T>(s: State<T>, run: seq<Step>)
    requires Inv(s) && IsRun(s, run)
    ensures |run| + Rank(After(s, run)) <= Rank(s)
    decreases |run|
  {
    if run != [] {
      StepKeeps(s, run[0]);
      RankDrops(s, run[0]);
      RunBounded(Next(s, run[0]), run[1..]);
    }
  }

  lemma {:induction false} ReadyRank<T>(n: nat)
    ensures WorkersRank(seq(n, _ => Worker<T>.Ready), map[]) == 5 * n
  {
    if n > 0 {
      assert seq(n, _ => Worker<T>.Ready)[1..] == seq(n - 1, _ => Worker<T>.Ready);
      ReadyRank<T>(n - 1);
    }
  }

  lemma {:induction false} AllMissing<T>(n: nat)
    ensures |Missing<T>(n, map[])| == n
  {
    if n > 0 {
      AllMissing<T>(n - 1);
      assert Missing<T>(n, map[]) == Missing<T>(n - 1, map[]) + {n - 1};
    } else {
      assert Missing<T>(0, map[]) == {};
    }
  }

  lemma RankOfInit<T>(items: seq<T>, maxParallelity: nat)
    requires maxParallelity > 0
    ensures Rank(Init(items, maxParallelity)) == 7 * |items| + 5 * maxParallelity + 1
  {
    AllMissing<T>(|items|);
    ReadyRank<T>(maxParallelity);
  }

  ghost predicate Throws(run: seq<Step>) { exists i | 0 <= i < |run| :: run[i].WorkerDo? && run[i].throws }

  lemma {:induction false} ErrorIffThrown<T>(s: State<T>, run: seq<Step>)
    requires Inv(s) && IsRun(s, run)
    ensures After(s, run).FirstError() <==> s.FirstError() || Throws(run)
    decreases |run|
  {
    if run != [] {
      StepKeeps(s, run[0]);
      ErrorIffThrown(Next(s, run[0]), run[1..]);
      assert Throws(run) <==> (run[0].WorkerDo? && run[0].throws) || Throws(run[1..]) by {
        assert run == [run[0]] + run[1..];
        if Throws(run[1..]) {
          var i :| 0 <= i < |run| - 1 && run[1..][i].WorkerDo? && run[1..][i].throws;
          assert run[i + 1].WorkerDo? && run[i + 1].throws;
        }
        if Throws(run) {
          var i :| 0 <= i < |run| && run[i].WorkerDo? && run[i].throws;
          assert i > 0 ==> run[1..][i - 1] == run[i];
        }
      }
    }
  }

  /** The items have been processed, all of them and none twice, since `done` is by number of the item. */
  lemma AllProcessed<T>(s: State<T>, k: nat)
    requires Inv(s) && s.Finished() && !s.FirstError()
    ensures k in s.done <==> k < |s.items|
    ensures k in s.done ==> s.done[k] == s.items[k]
  {
    assert PushOk(s, k) && C.SenderOk(s.ch, k) && C.ReceiverOk(s.ch, k);
    assert WorkerOk(s, 0);
    if |s.items| > 0 { assert PushOk(s, |s.items| - 1) && C.SenderOk(s.ch, |s.items| - 1); }
    if k < |s.owner| {
      assert PopOk(s, k);
      if k in s.ch.gots { NoneMeansDrained(s, k); }
    }
  }

  /** Every run of forEach is finite, and it can go on exactly until the sender is closed and every worker has left. */
  lemma ForEachEnds<T>(items: seq<T>, maxParallelity: nat, run: seq<Step>)
    requires maxParallelity > 0 && IsRun(Init(items, maxParallelity), run)
    ensures |run| <= 7 * |items| + 5 * maxParallelity + 1
    ensures var s := After(Init(items, maxParallelity), run); s.Finished() <==> forall a :: !Enabled(s, a)
  {
    var s0 := Init(items, maxParallelity);
    InitInv(items, maxParallelity);
    RunKeeps(s0, run);
    RunBounded(s0, run);
    RankOfInit(items, maxParallelity);
    var s := After(s0, run);
    if s.Finished() {
      forall a ensures !Enabled(s, a) { Finished(s, a); }
    } else {
      var a := SomebodyGoesOn(s);
    }
  }

  /** What the callable has been called with and has processed, by number of the item. */
  ghost function Handed<T>(s: State<T>, run: seq<Step>, before: map<nat, T>): map<nat, T>
    requires IsRun(s, run)
    decreases |run|
  {
    if run == [] then before
    else
      var now := match run[0]
                 case WorkerDo(w, false) => before[s.workers[w].k := s.workers[w].item]
                 case _ => before;
      Handed(Next(s, run[0]), run[1..], now)
  }

  /** How often the callable has been called. */
  function CallCount(run: seq<Step>): nat {
    if run == [] then 0 else (if run[0].WorkerDo? then 1 else 0) + CallCount(run[1..])
  }

  lemma DoStep<T>(s: State<T>, a: Step)
    requires Inv(s) && Enabled(s, a) && Safe(s, a)
    ensures match a
            case WorkerDo(w, false) => Next(s, a).done == s.done[s.workers[w].k := s.workers[w].item]
            case _ => Next(s, a).done == s.done
    ensures |Next(s, a).done| + |Next(s, a).failed| == |s.done| + |s.failed| + if a.WorkerDo? then 1 else 0
  {
    if a.WorkerDo? { assert WorkerOk(s, a.w) && PopOk(s, s.workers[a.w].k); }
  }

  lemma {:induction false} DoneIsHanded<T>(s: State<T>, run: seq<Step>)
    requires Inv(s) && IsRun(s, run)
    ensures After(s, run).done == Handed(s, run, s.done)
    ensures |After(s, run).done| + |After(s, run).failed| == |s.done| + |s.failed| + CallCount(run)
    decreases |run|
  {
    if run != [] {
      StepKeeps(s, run[0]);
      DoStep(s, run[0]);
      DoneIsHanded(Next(s, run[0]), run[1..]);
    }
  }

  /**
   An error is rethrown exactly if the callable has thrown; otherwise the callable has been called
   once for every item at the end, with that item.
   */
  lemma ForEachProcessesAll<T>(items: seq<T>, maxParallelity: nat, run: seq<Step>)
    requires maxParallelity > 0 && IsRun(Init(items, maxParallelity), run)
    ensures var s0 := Init(items, maxParallelity); var s := After(s0, run);
      && (s.FirstError() <==> Throws(run))
      && (s.Finished() && !Throws(run) ==>
            Handed(s0, run, map[]) == (map k: nat | k < |items| :: items[k]) && CallCount(run) == |items|)
  {
    var s0 := Init(items, maxParallelity);
    InitInv(items, maxParallelity);
    RunKeeps(s0, run);
    ErrorIffThrown(s0, run);
    DoneIsHanded(s0, run);
    var s := After(s0, run);
    if s.Finished() && !s.FirstError() {
      forall k: nat { AllProcessed(s, k); }
      MissingNone(|items|, s.done);
    }
  }

  /** A map with the keys below `n` has `n` entries. */
  lemma {:induction false} MissingNone<T>(n: nat, done: map<nat, T>)
    requires forall k: nat :: k in done <==> k < n
    ensures |done| == n
  {
    AllMissing<T>(n);
    assert done.Keys == Missing<T>(n, map[]);
  }
}
