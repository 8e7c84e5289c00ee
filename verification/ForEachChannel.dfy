/**
 `co::forEach` over a range without random access: the caller feeds the items through a
 `BufferedChannel`, and every worker pops until it gets no value or the callable throws.

 A worker's reference to the receiver goes with its callable, before the worker's result is set,
 so the last worker to leave closes the receiver.
 */
module ForEachChannel {
  import opened Options
  import C = BufferedChannel
  import R = BufferedChannelRuns

  datatype Feeder =
    | Feeding           // before the next item, or after the last one
    | Awaiting(k: nat)  // in push number k
    | Closing           // after the break
    | Closed            // the sender is closed, the workers are awaited

  datatype Worker<T> =
    | Ready                    // before pop()
    | Popping(k: nat)          // in pop number k
    | Working(k: nat, item: T) // before the call of the callable
    | Leaving(threw: bool)     // out of the loop
    | Left(threw: bool)

  datatype State<T> = State(
    ch: C.State<T>,
    items: seq<T>,
    feeder: Feeder,
    workers: seq<Worker<T>>,
    owner: seq<nat>,    // which worker has made the k-th pop
    done: map<nat, T>,  // the pops whose value has been processed
    failed: set<nat>)   // the pops whose value made the callable throw
  {
    /** firstError is set. */
    predicate FirstError() { failed != {} }
    predicate Finished() { feeder == Closed && forall w | 0 <= w < |workers| :: workers[w].Left? }
    predicate IsLast(w: nat) { forall v | 0 <= v < |workers| && v != w :: workers[v].Left? }
    predicate Holds(w: nat, k: nat) {
      w < |workers| && (workers[w] == Popping(k) || (workers[w].Working? && workers[w].k == k))
    }
  }

  function Init<T>(items: seq<T>, maxParallelity: nat): State<T>
    requires maxParallelity > 0
  {
    State(C.Next(C.Init(), C.SetMax(maxParallelity)), items, Feeding, seq(maxParallelity, _ => Ready), [], map[], {})
  }

  datatype Step =
    | Feed
    | FeedAck
    | CloseFeed
    | WorkerPop(w: nat)
    | WorkerGot(w: nat)
    | WorkerDo(w: nat, throws: bool)
    | WorkerLeave(w: nat)
    | NotifySender(k: nat)
    | NotifyReceiver(k: nat)

  predicate Enabled<T>(s: State<T>, a: Step) {
    match a
    case Feed => s.feeder == Feeding && |s.ch.sent| < |s.items|
    case FeedAck => s.feeder.Awaiting? && s.feeder.k in s.ch.acks
    case CloseFeed => s.feeder == Closing || (s.feeder == Feeding && |s.ch.sent| >= |s.items|)
    case WorkerPop(w) => w < |s.workers| && s.workers[w] == Ready
    case WorkerGot(w) => w < |s.workers| && s.workers[w].Popping? && s.workers[w].k in s.ch.gots
    case WorkerDo(w, _) => w < |s.workers| && s.workers[w].Working?
    case WorkerLeave(w) => w < |s.workers| && s.workers[w].Leaving?
    case NotifySender(k) => k in s.ch.pendingAck
    case NotifyReceiver(k) => k in s.ch.pendingGot
  }

  /** What a step does to the channel. */
  function ChannelStep<T>(s: State<T>, a: Step): Option<C.Step<T>>
    requires Enabled(s, a)
  {
    match a
    case Feed => Some(C.Push(s.items[|s.ch.sent|]))
    case CloseFeed => Some(C.CloseSender)
    case WorkerPop(_) => Some(C.Pop)
    case WorkerLeave(w) => if s.IsLast(w) then Some(C.CloseReceiver) else None
    case NotifySender(k) => Some(C.NotifySender(k))
    case NotifyReceiver(k) => Some(C.NotifyReceiver(k))
    case _ => None
  }

  /** The step keeps to what the channel demands of its users. */
  predicate Safe<T>(s: State<T>, a: Step)
    requires Enabled(s, a)
  {
    match ChannelStep(s, a)
    case Some(b) => C.Enabled(s.ch, b)
    case None => true
  }

  /** What a step does outside the channel. */
  function Act<T>(s: State<T>, a: Step): State<T>
    requires Enabled(s, a)
  {
    match a
    case Feed => s.(feeder := Awaiting(|s.ch.sent|))
    case FeedAck => s.(feeder := if s.ch.acks[s.feeder.k] then Feeding else Closing)
    case CloseFeed => s.(feeder := Closed)
    case WorkerPop(w) => s.(workers := s.workers[w := Popping(s.ch.pops)], owner := s.owner + [w])
    case WorkerGot(w) =>
      var k := s.workers[w].k;
      s.(workers := s.workers[w := match s.ch.gots[k] case Some(v) => Working(k, v) case None => Leaving(false)])
    case WorkerDo(w, throws) =>
      var k, v := s.workers[w].k, s.workers[w].item;
      if throws then s.(workers := s.workers[w := Leaving(true)], failed := s.failed + {k})
      else s.(workers := s.workers[w := Ready], done := s.done[k := v])
    case WorkerLeave(w) => s.(workers := s.workers[w := Left(s.workers[w].threw)])
    case _ => s
  }

  function NextChannel<T>(s: State<T>, a: Step): C.State<T>
    requires Enabled(s, a) && Safe(s, a)
  {
    match ChannelStep(s, a)
    case Some(b) => C.Next(s.ch, b)
    case None => s.ch
  }

  function Next<T>(s: State<T>, a: Step): State<T>
    requires Enabled(s, a) && Safe(s, a)
  {
    Act(s, a).(ch := NextChannel(s, a))
  }

  // ---------- the invariant ----------

  ghost predicate FeederOk<T>(s: State<T>) {
    && |s.ch.sent| <= |s.items| && s.ch.sent == s.items[..|s.ch.sent|]
    && (s.ch.senderClosed <==> s.feeder == Closed)
    && s.ch.released == {}
    && (s.feeder.Awaiting? ==> |s.ch.sent| == s.feeder.k + 1)
    && (s.feeder == Closing ==> s.FirstError())
    && (s.feeder == Closed ==> s.FirstError() || |s.ch.sent| == |s.items|)
  }

  ghost predicate PushOk<T>(s: State<T>, k: nat) {
    k < |s.ch.sent| && s.feeder != Awaiting(k) ==>
      k in s.ch.acks && (s.ch.acks[k] || (s.FirstError() && (s.feeder == Closing || s.feeder == Closed)))
  }

  ghost predicate WorkerOk<T>(s: State<T>, w: nat)
    requires w < |s.workers|
  {
    match s.workers[w]
    case Ready => true
    case Popping(k) => k < |s.owner| && s.owner[k] == w
    case Working(k, v) => k < |s.owner| && s.owner[k] == w && k in s.ch.gots && s.ch.gots[k] == Some(v)
    case Leaving(threw) => if threw then s.FirstError() else s.ch.senderClosed && s.ch.ready == []
    case Left(threw) => if threw then s.FirstError() else s.ch.senderClosed && s.ch.ready == []
  }

  /** Every pop is in the hands of the worker that made it, or processed, or failed, or has got no value. */
  ghost predicate PopOk<T>(s: State<T>, k: nat)
    requires k < |s.owner|
  {
    if s.Holds(s.owner[k], k) then k !in s.done && k !in s.failed
    else if k in s.done then k !in s.failed && k in s.ch.gots && s.ch.gots[k] == Some(s.done[k])
    else k in s.ch.gots && (k in s.failed || s.ch.gots[k] == None)
  }

  ghost predicate Inv<T>(s: State<T>) {
    && C.Inv(s.ch) && |s.workers| > 0
    && FeederOk(s) && (forall k :: PushOk(s, k))
    && (s.ch.receiverClosed <==> forall w | 0 <= w < |s.workers| :: s.workers[w].Left?)
    && |s.owner| == s.ch.pops
    && (forall w | 0 <= w < |s.workers| :: WorkerOk(s, w))
    && (forall k | 0 <= k < |s.owner| :: PopOk(s, k))
    && (forall k | k in s.done || k in s.failed :: k < |s.owner|)
  }

  lemma InitInv<T>(items: seq<T>, maxParallelity: nat)
    requires maxParallelity > 0
    ensures Inv(Init(items, maxParallelity))
  {
    C.InitInv<T>();
    C.StepKeeps(C.Init<T>(), C.SetMax(maxParallelity));
    assert Init(items, maxParallelity).workers[0] == Ready;
  }

  // ---------- what the channel does for a step ----------

  lemma SentFrame<T>(c: C.State<T>, b: C.Step<T>)
    requires C.Enabled(c, b) && !b.SetMax?
    ensures C.Next(c, b).sent == if b.Push? then c.sent + [b.v] else c.sent
  {
  }

  lemma PopsFrame<T>(c: C.State<T>, b: C.Step<T>)
    requires C.Enabled(c, b) && !b.SetMax?
    ensures C.Next(c, b).pops == if b.Pop? then c.pops + 1 else c.pops
  {
  }

  lemma ReleasedFrame<T>(c: C.State<T>, b: C.Step<T>)
    requires C.Enabled(c, b) && !b.SetMax?
    ensures C.Next(c, b).released == c.released
  {
  }

  lemma CloseFrame<T>(c: C.State<T>, b: C.Step<T>)
    requires C.Enabled(c, b) && !b.SetMax?
    ensures var c' := C.Next(c, b);
      && (c'.senderClosed <==> c.senderClosed || b.CloseSender?)
      && (c'.receiverClosed <==> c.receiverClosed || b.CloseReceiver?)
      && (c.senderClosed && c.ready == [] ==> c'.ready == [])
  {
  }

  lemma AckFrame<T>(c: C.State<T>, b: C.Step<T>, k: nat)
    requires C.Inv(c) && C.Enabled(c, b)
    ensures k in c.acks ==> k in C.Next(c, b).acks && C.Next(c, b).acks[k] == c.acks[k]
  {
    assert C.SenderOk(c, k);
  }

  lemma GotFrame<T>(c: C.State<T>, b: C.Step<T>, k: nat)
    requires C.Inv(c) && C.Enabled(c, b)
    ensures k in c.gots ==> k in C.Next(c, b).gots && C.Next(c, b).gots[k] == c.gots[k]
  {
    assert C.ReceiverOk(c, k);
  }

  /** Every step keeps to the contract of the channel. */
  lemma EnabledIsSafe<T>(s: State<T>, a: Step)
    requires Inv(s) && Enabled(s, a)
    ensures Safe(s, a)
  {
    match a
    case CloseFeed => forall k: nat | k < |s.ch.sent| ensures k in s.ch.acks { assert PushOk(s, k); }
    case WorkerPop(w) => assert !s.workers[w].Left?;
    case WorkerLeave(w) =>
      assert !s.workers[w].Left?;
      if s.IsLast(w) {
        forall k: nat | k < s.ch.pops ensures k in s.ch.gots { assert PopOk(s, k); }
      }
    case _ =>
  }

  /** What a step means for the channel. */
  ghost predicate Follows<T>(s: State<T>, a: Step, c': C.State<T>)
    requires Enabled(s, a)
  {
    && C.Inv(c')
    && c'.released == s.ch.released
    && c'.sent == (if a.Feed? then s.ch.sent + [s.items[|s.ch.sent|]] else s.ch.sent)
    && c'.pops == (if a.WorkerPop? then s.ch.pops + 1 else s.ch.pops)
    && (c'.senderClosed <==> s.ch.senderClosed || a.CloseFeed?)
    && (c'.receiverClosed <==> s.ch.receiverClosed || (a.WorkerLeave? && s.IsLast(a.w)))
    && (s.ch.senderClosed && s.ch.ready == [] ==> c'.ready == [])
    && (forall k | k in s.ch.acks :: k in c'.acks && c'.acks[k] == s.ch.acks[k])
    && (forall k | k in s.ch.gots :: k in c'.gots && c'.gots[k] == s.ch.gots[k])
  }

  lemma ChannelFollows<T>(s: State<T>, a: Step)
    requires Inv(s) && Enabled(s, a) && Safe(s, a)
    ensures Follows(s, a, NextChannel(s, a))
  {
    match ChannelStep(s, a)
    case None =>
    case Some(b) =>
      C.StepKeeps(s.ch, b);
      SentFrame(s.ch, b);
      PopsFrame(s.ch, b);
      ReleasedFrame(s.ch, b);
      CloseFrame(s.ch, b);
      forall k | k in s.ch.acks ensures k in C.Next(s.ch, b).acks && C.Next(s.ch, b).acks[k] == s.ch.acks[k] {
        AckFrame(s.ch, b, k);
      }
      forall k | k in s.ch.gots ensures k in C.Next(s.ch, b).gots && C.Next(s.ch, b).gots[k] == s.ch.gots[k] {
        GotFrame(s.ch, b, k);
      }
  }

  // ---------- every step keeps the invariant ----------

  /** The assertion in the feeding loop: a push that returns false finds that every worker has thrown. */
  lemma FalseAckMeansAllThrew<T>(s: State<T>)
    requires Inv(s) && s.feeder.Awaiting? && s.feeder.k in s.ch.acks && !s.ch.acks[s.feeder.k]
    ensures s.FirstError() && forall w | 0 <= w < |s.workers| :: s.workers[w] == Left(true)
  {
    assert C.SenderOk(s.ch, s.feeder.k);
    forall w | 0 <= w < |s.workers| ensures s.workers[w] == Left(true) { assert WorkerOk(s, w); }
    assert WorkerOk(s, 0);
  }

  lemma FeederKeeps<T>(s: State<T>, a: Step, c': C.State<T>)
    requires Inv(s) && Enabled(s, a) && Follows(s, a, c')
    ensures FeederOk(Act(s, a).(ch := c'))
  {
    if a.FeedAck? && !s.ch.acks[s.feeder.k] { FalseAckMeansAllThrew(s); }
  }

  lemma PushKeeps<T>(s: State<T>, a: Step, c': C.State<T>, k: nat)
    requires Inv(s) && Enabled(s, a) && Follows(s, a, c')
    ensures PushOk(Act(s, a).(ch := c'), k)
  {
    assert PushOk(s, k);
    if a.FeedAck? && !s.ch.acks[s.feeder.k] { FalseAckMeansAllThrew(s); }
  }

  lemma LeftKeeps<T>(s: State<T>, a: Step, c': C.State<T>)
    requires Inv(s) && Enabled(s, a) && Follows(s, a, c')
    ensures c'.receiverClosed <==> forall w | 0 <= w < |s.workers| :: Act(s, a).workers[w].Left?
  {
    var s' := Act(s, a);
    assert forall w | 0 <= w < |s.workers| && s.workers[w].Left? :: s'.workers[w].Left?;
    if a.WorkerLeave? {
      assert forall w | 0 <= w < |s.workers| && w != a.w :: s'.workers[w] == s.workers[w];
    } else if w :| 0 <= w < |s.workers| && !s.workers[w].Left? {
      assert !s'.workers[w].Left?;
    }
  }

  lemma WorkerKeeps<T>(s: State<T>, a: Step, c': C.State<T>, w: nat)
    requires Inv(s) && Enabled(s, a) && Follows(s, a, c') && w < |s.workers|
    ensures WorkerOk(Act(s, a).(ch := c'), w)
  {
    assert WorkerOk(s, w);
    if a.WorkerGot? { NoneMeansDrained(s, s.workers[a.w].k); }
  }

  /** A pop gets no value only when the feeder is through and the buffer is empty. */
  lemma NoneMeansDrained<T>(s: State<T>, k: nat)
    requires Inv(s) && k in s.ch.gots
    ensures if s.ch.gots[k] == None then s.ch.senderClosed && s.ch.ready == [] else k < s.ch.Taken() <= |s.ch.sent|
  {
    assert C.ReceiverOk(s.ch, k);
    R.WaitingReceivers(s.ch, k);
  }

  lemma PopKeeps<T>(s: State<T>, a: Step, c': C.State<T>, k: nat)
    requires Inv(s) && Enabled(s, a) && Follows(s, a, c') && k < |Act(s, a).owner|
    ensures PopOk(Act(s, a).(ch := c'), k)
  {
    if k < |s.owner| { assert PopOk(s, k); }
    match a
    case WorkerDo(w, _) => assert WorkerOk(s, w);
    case WorkerGot(w) => assert WorkerOk(s, w);
    case WorkerPop(w) => assert WorkerOk(s, w);
    case WorkerLeave(w) => assert WorkerOk(s, w);
    case _ => assert Act(s, a).workers == s.workers;
  }

  lemma StepKeeps<T>(s: State<T>, a: Step)
    requires Inv(s) && Enabled(s, a)
    ensures Safe(s, a) && Inv(Next(s, a))
  {
    EnabledIsSafe(s, a);
    var s' := Next(s, a);
    ChannelFollows(s, a);
    FeederKeeps(s, a, s'.ch);
    LeftKeeps(s, a, s'.ch);
    if a.WorkerDo? { assert WorkerOk(s, a.w); }
    forall k ensures PushOk(s', k) { PushKeeps(s, a, s'.ch, k); }
    forall w | 0 <= w < |s'.workers| ensures WorkerOk(s', w) { WorkerKeeps(s, a, s'.ch, w); }
    forall k | 0 <= k < |s'.owner| ensures PopOk(s', k) { PopKeeps(s, a, s'.ch, k); }
  }
}
