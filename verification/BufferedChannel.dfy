/**
 `co::BufferedChannel`: many senders and many receivers share a bounded buffer. One step is one
 section under `mMutex`, or one completion of a waiting peer after the lock has been released.

 Pushes and pops are numbered in the order in which they get the lock, and the number of a call
 stands for its waiter record (`self` in push() and pop()).
 */
module BufferedChannel {
  import opened Options

  datatype State<T> = State(
    ready: seq<T>,                    // mReadyData
    senders: seq<nat>,                // mWaitingSender
    receivers: seq<nat>,              // mWaitingReceiver
    senderClosed: bool,
    receiverClosed: bool,
    maxSize: nat,                     // mMaxQueueSize
    pendingAck: map<nat, bool>,       // senders taken from the queue, set_value still to come
    acks: map<nat, bool>,             // pushes whose future is set: what push() returns
    pendingGot: map<nat, Option<T>>,  // receivers taken from the queue, set_value still to come
    gots: map<nat, Option<T>>,        // pops whose future is set: what pop() returns
    sent: seq<T>,                     // the values of all pushes
    accepted: nat,                    // how many pushes got in before closeReceiver()
    pops: nat,                        // number of pops
    released: set<nat>)               // pushes answered by setMaxQueueSize()
  {
    /** The number of values that have been matched with a pop. */
    function Taken(): int { accepted - |ready| }
    predicate Acked(k: nat) { k in acks || k in pendingAck }
    function Ack(k: nat): bool requires Acked(k) { if k in acks then acks[k] else pendingAck[k] }
    predicate Answered(k: nat) { k in gots || k in pendingGot }
    function Got(k: nat): Option<T> requires Answered(k) { if k in gots then gots[k] else pendingGot[k] }
  }

  const DEFAULT_MAX_SIZE := 2

  function Init<T>(): State<T> {
    State([], [], [], false, false, DEFAULT_MAX_SIZE, map[], map[], map[], map[], [], 0, 0, {})
  }

  datatype Step<T> =
    | Push(v: T)
    | Pop
    | CloseSender
    | CloseReceiver
    | SetMax(cnt: nat)
    | NotifySender(k: nat)
    | NotifyReceiver(k: nat)

  /** The last sender closes after its pushes have returned, the last receiver after its pops. */
  predicate Enabled<T>(s: State<T>, a: Step<T>) {
    match a
    case Push(_) => !s.senderClosed
    case Pop => !s.receiverClosed
    case CloseSender => !s.senderClosed && forall k | 0 <= k < |s.sent| :: k in s.acks
    case CloseReceiver => !s.receiverClosed && forall k | 0 <= k < s.pops :: k in s.gots
    case SetMax(cnt) => cnt > 0
    case NotifySender(k) => k in s.pendingAck
    case NotifyReceiver(k) => k in s.pendingGot
  }

  function AllTo<A>(ks: seq<nat>, x: A): map<nat, A> { map k | k in ks :: x }

  /** How many senders the loop in setMaxQueueSize() releases. */
  function ReleaseCount<T>(s: State<T>, cnt: nat): nat {
    if |s.ready| >= cnt || cnt <= s.maxSize then 0
    else if cnt - s.maxSize < |s.senders| then cnt - s.maxSize else |s.senders|
  }

  /** push() finds a waiting receiver: the value passes the buffer by. */
  function HandOver<T>(s: State<T>, v: T): State<T>
    requires s.receivers != []
  {
    s.(sent := s.sent + [v], accepted := s.accepted + 1, acks := s.acks[|s.sent| := true],
       receivers := s.receivers[1..], pendingGot := s.pendingGot[s.receivers[0] := Some(v)])
  }

  /** push() after closeReceiver(). */
  function Refuse<T>(s: State<T>, v: T): State<T> {
    s.(sent := s.sent + [v], acks := s.acks[|s.sent| := false])
  }

  /** push() stores the value and waits because the buffer is full with it. */
  function StoreAndWait<T>(s: State<T>, v: T): State<T> {
    s.(sent := s.sent + [v], accepted := s.accepted + 1, ready := s.ready + [v], senders := s.senders + [|s.sent|])
  }

  /** push() stores the value and goes on. */
  function StoreAndGo<T>(s: State<T>, v: T): State<T> {
    s.(sent := s.sent + [v], accepted := s.accepted + 1, ready := s.ready + [v], acks := s.acks[|s.sent| := true])
  }

  /** pop() takes the oldest value and lets the sender that has waited longest go on. */
  function TakeReady<T>(s: State<T>): State<T>
    requires s.ready != []
  {
    var s1 := s.(pops := s.pops + 1, gots := s.gots[s.pops := Some(s.ready[0])], ready := s.ready[1..]);
    if s.senders == [] then s1
    else s1.(senders := s.senders[1..], pendingAck := s.pendingAck[s.senders[0] := true])
  }

  /** pop() on an empty buffer. */
  function TakeNone<T>(s: State<T>): State<T> {
    var s1 := s.(pops := s.pops + 1);
    if s.senderClosed then s1.(gots := s.gots[s.pops := None]) else s1.(receivers := s.receivers + [s.pops])
  }

  function Next<T>(s: State<T>, a: Step<T>): State<T>
    requires Enabled(s, a)
  {
    match a
    case Push(v) =>
      if s.receivers != [] then HandOver(s, v)
      else if s.receiverClosed then Refuse(s, v)
      else if |s.ready| + 1 >= s.maxSize then StoreAndWait(s, v)
      else StoreAndGo(s, v)
    case Pop => if s.ready != [] then TakeReady(s) else TakeNone(s)
    case CloseSender =>
      s.(senderClosed := true, receivers := [], pendingGot := s.pendingGot + AllTo(s.receivers, None))
    case CloseReceiver =>
      s.(receiverClosed := true, senders := [], pendingAck := s.pendingAck + AllTo(s.senders, false))
    case SetMax(cnt) =>
      var freed := s.senders[..ReleaseCount(s, cnt)];
      s.(maxSize := cnt, senders := s.senders[|freed|..], pendingAck := s.pendingAck + AllTo(freed, false),
         released := s.released + set k | k in freed)
    case NotifySender(k) => s.(acks := s.acks[k := s.pendingAck[k]], pendingAck := s.pendingAck - {k})
    case NotifyReceiver(k) => s.(gots := s.gots[k := s.pendingGot[k]], pendingGot := s.pendingGot - {k})
  }

  // ---------- the invariant ----------

  /** The queues against the numbering of the calls. */
  ghost predicate Shape<T>(s: State<T>) {
    var m := s.Taken();
    && 0 <= m && s.accepted <= |s.sent|
    && (!s.receiverClosed ==> s.accepted == |s.sent|)
    && s.ready == s.sent[m..s.accepted]
    && (forall j | 0 <= j < |s.receivers| :: s.receivers[j] == m + j)
    && m + |s.receivers| <= s.pops
    && (m + |s.receivers| < s.pops ==> s.senderClosed && s.ready == [])
    && (s.receivers != [] ==> s.ready == [] && !s.senderClosed && !s.receiverClosed)
    && |s.senders| <= |s.ready|
    && (forall j | 0 <= j < |s.senders| :: m <= s.senders[j] < s.accepted)
    && (forall i, j | 0 <= i < j < |s.senders| :: s.senders[i] < s.senders[j])
    && (s.senderClosed || s.receiverClosed ==> s.senders == [])
  }

  /** Every push is in exactly one place, and its answer tells what became of its value. */
  ghost predicate SenderOk<T>(s: State<T>, k: nat) {
    && (k < |s.sent| <==> k in s.senders || s.Acked(k))
    && (k in s.senders ==> !s.Acked(k))
    && !(k in s.acks && k in s.pendingAck)
    && (s.Acked(k) ==> if s.Ack(k) then k < s.accepted
                       else k in s.released || (s.receiverClosed && k >= s.Taken()))
    && (k in s.released ==> s.Acked(k) && !s.Ack(k))
  }

  /** Every pop is in exactly one place; the matched ones get the values in order, the others none. */
  ghost predicate ReceiverOk<T>(s: State<T>, k: nat) {
    && (k < s.pops <==> k in s.receivers || s.Answered(k))
    && (k in s.receivers ==> !s.Answered(k))
    && !(k in s.gots && k in s.pendingGot)
    && (s.Answered(k) ==> s.Got(k) == if k < s.Taken() <= |s.sent| then Some(s.sent[k]) else None)
  }

  ghost predicate Inv<T>(s: State<T>) {
    Shape(s) && (forall k :: SenderOk(s, k)) && (forall k :: ReceiverOk(s, k))
  }

  lemma InitInv<T>()
    ensures Inv(Init<T>())
  {
  }

  lemma HandOverShape<T>(s: State<T>, v: T)
    requires Inv(s) && !s.senderClosed && s.receivers != []
    ensures Shape(HandOver(s, v))
  {
  }

  lemma HandOverKeeps<T>(s: State<T>, v: T)
    requires Inv(s) && !s.senderClosed && s.receivers != []
    ensures Inv(HandOver(s, v))
  {
    var s' := HandOver(s, v);
    HandOverShape(s, v);
    forall k ensures SenderOk(s', k) { assert SenderOk(s, k); assert SenderOk(s, |s.sent|); }
    forall k ensures ReceiverOk(s', k) { assert ReceiverOk(s, k); }
  }

  lemma RefuseShape<T>(s: State<T>, v: T)
    requires Inv(s) && !s.senderClosed && s.receivers == [] && s.receiverClosed
    ensures Shape(Refuse(s, v))
  {
  }

  lemma RefuseKeeps<T>(s: State<T>, v: T)
    requires Inv(s) && !s.senderClosed && s.receivers == [] && s.receiverClosed
    ensures Inv(Refuse(s, v))
  {
    var s' := Refuse(s, v);
    RefuseShape(s, v);
    forall k ensures SenderOk(s', k) { assert SenderOk(s, k); assert SenderOk(s, |s.sent|); }
    forall k ensures ReceiverOk(s', k) { assert ReceiverOk(s, k); }
  }

  lemma StoreAndWaitShape<T>(s: State<T>, v: T)
    requires Inv(s) && !s.senderClosed && s.receivers == [] && !s.receiverClosed
    ensures Shape(StoreAndWait(s, v))
  {
  }

  lemma StoreAndWaitKeeps<T>(s: State<T>, v: T)
    requires Inv(s) && !s.senderClosed && s.receivers == [] && !s.receiverClosed
    ensures Inv(StoreAndWait(s, v))
  {
    var s' := StoreAndWait(s, v);
    StoreAndWaitShape(s, v);
    forall k ensures SenderOk(s', k) { assert SenderOk(s, k); assert SenderOk(s, |s.sent|); }
    forall k ensures ReceiverOk(s', k) { assert ReceiverOk(s, k); }
  }

  lemma StoreAndGoShape<T>(s: State<T>, v: T)
    requires Inv(s) && !s.senderClosed && s.receivers == [] && !s.receiverClosed
    ensures Shape(StoreAndGo(s, v))
  {
  }

  lemma StoreAndGoKeeps<T>(s: State<T>, v: T)
    requires Inv(s) && !s.senderClosed && s.receivers == [] && !s.receiverClosed
    ensures Inv(StoreAndGo(s, v))
  {
    var s' := StoreAndGo(s, v);
    StoreAndGoShape(s, v);
    forall k ensures SenderOk(s', k) { assert SenderOk(s, k); assert SenderOk(s, |s.sent|); }
    forall k ensures ReceiverOk(s', k) { assert ReceiverOk(s, k); }
  }

  lemma TakeReadyShape<T>(s: State<T>)
    requires Inv(s) && !s.receiverClosed && s.ready != []
    ensures Shape(TakeReady(s))
  {
  }

  lemma TakeReadyKeeps<T>(s: State<T>)
    requires Inv(s) && !s.receiverClosed && s.ready != []
    ensures Inv(TakeReady(s))
  {
    var s' := TakeReady(s);
    TakeReadyShape(s);
    forall k ensures SenderOk(s', k) { assert SenderOk(s, k); }
    forall k ensures ReceiverOk(s', k) { assert ReceiverOk(s, k); assert ReceiverOk(s, s.pops); }
  }

  lemma TakeNoneShape<T>(s: State<T>)
    requires Inv(s) && !s.receiverClosed && s.ready == []
    ensures Shape(TakeNone(s))
  {
  }

  lemma TakeNoneKeeps<T>(s: State<T>)
    requires Inv(s) && !s.receiverClosed && s.ready == []
    ensures Inv(TakeNone(s))
  {
    var s' := TakeNone(s);
    TakeNoneShape(s);
    forall k ensures SenderOk(s', k) { assert SenderOk(s, k); }
    forall k ensures ReceiverOk(s', k) { assert ReceiverOk(s, k); assert ReceiverOk(s, s.pops); }
  }

  /** Nobody waits when the last peer of a side closes: the assertions in both close functions. */
  lemma CloseFindsNoPeer<T>(s: State<T>)
    requires Inv(s)
    ensures Enabled(s, CloseSender) ==> s.senders == []
    ensures Enabled(s, CloseReceiver) ==> s.receivers == []
  {
    if s.senders != [] { assert SenderOk(s, s.senders[0]) && s.senders[0] in s.senders; }
    if s.receivers != [] { assert ReceiverOk(s, s.receivers[0]) && s.receivers[0] in s.receivers; }
  }

  lemma CloseKeeps<T>(s: State<T>, a: Step<T>)
    requires Inv(s) && Enabled(s, a) && (a.CloseSender? || a.CloseReceiver?)
    ensures Inv(Next(s, a))
  {
    var s' := Next(s, a);
    CloseFindsNoPeer(s);
    forall k ensures SenderOk(s', k) { assert SenderOk(s, k); }
    forall k ensures ReceiverOk(s', k) { assert ReceiverOk(s, k); }
  }

  lemma SetMaxShape<T>(s: State<T>, cnt: nat)
    requires Inv(s) && Enabled(s, SetMax(cnt))
    ensures Shape(Next(s, SetMax(cnt)))
  {
  }

  lemma SetMaxSender<T>(s: State<T>, cnt: nat, k: nat)
    requires Inv(s) && Enabled(s, SetMax(cnt))
    ensures SenderOk(Next(s, SetMax(cnt)), k)
  {
    assert SenderOk(s, k);
    assert s.senders == s.senders[..ReleaseCount(s, cnt)] + Next(s, SetMax(cnt)).senders;
  }

  lemma SetMaxKeeps<T>(s: State<T>, cnt: nat)
    requires Inv(s) && Enabled(s, SetMax(cnt))
    ensures Inv(Next(s, SetMax(cnt)))
  {
    var s' := Next(s, SetMax(cnt));
    SetMaxShape(s, cnt);
    forall k ensures SenderOk(s', k) { SetMaxSender(s, cnt, k); }
    forall k ensures ReceiverOk(s', k) { assert ReceiverOk(s, k); }
  }

  lemma NotifyKeeps<T>(s: State<T>, a: Step<T>)
    requires Inv(s) && Enabled(s, a) && (a.NotifySender? || a.NotifyReceiver?)
    ensures Inv(Next(s, a))
  {
    var s' := Next(s, a);
    forall k ensures SenderOk(s', k) { assert SenderOk(s, k); }
    forall k ensures ReceiverOk(s', k) { assert ReceiverOk(s, k); }
  }

  lemma StepKeeps<T>(s: State<T>, a: Step<T>)
    requires Inv(s) && Enabled(s, a)
    ensures Inv(Next(s, a))
  {
    match a
    case Push(v) =>
      if s.receivers != [] { HandOverKeeps(s, v); }
      else if s.receiverClosed { RefuseKeeps(s, v); }
      else if |s.ready| + 1 >= s.maxSize { StoreAndWaitKeeps(s, v); }
      else { StoreAndGoKeeps(s, v); }
    case Pop => if s.ready != [] { TakeReadyKeeps(s); } else { TakeNoneKeeps(s); }
    case NotifySender(_) => NotifyKeeps(s, a);
    case NotifyReceiver(_) => NotifyKeeps(s, a);
    case SetMax(cnt) => SetMaxKeeps(s, cnt);
    case _ => CloseKeeps(s, a);
  }

  /**
   The channel itself. Every method is one section under `mMutex`; what it returns is to be
   completed after the lock has been released, with everyone else free to act in between.
   `log` holds the futures of the callers and the history.
   */
  class Channel<T> {
    var mReadyData: seq<T>
    var mWaitingSender: seq<nat>
    var mWaitingReceiver: seq<nat>
    var mSenderClosed: bool
    var mReceiverClosed: bool
    var mMaxQueueSize: nat
    ghost var log: State<T>

    ghost function Abs(): State<T> reads this {
      log.(ready := mReadyData, senders := mWaitingSender, receivers := mWaitingReceiver,
           senderClosed := mSenderClosed, receiverClosed := mReceiverClosed, maxSize := mMaxQueueSize)
    }

    ghost predicate Valid() reads this { Inv(Abs()) }

    constructor ()
      ensures Valid() && Abs() == Init()
    {
      mReadyData, mWaitingSender, mWaitingReceiver := [], [], [];
      mSenderClosed, mReceiverClosed, mMaxQueueSize := false, false, DEFAULT_MAX_SIZE;
      log := Init();
      new;
      InitInv<T>();
      assert Abs() == Init();
    }

    /** The loop of setMaxQueueSize(). */
    method TakeWaiting(cnt: nat) returns (notify: seq<nat>)
      modifies this`mWaitingSender
      ensures old(mWaitingSender) == notify + mWaitingSender
      ensures |notify| == if cnt <= mMaxQueueSize then 0
                          else if cnt - mMaxQueueSize < |old(mWaitingSender)| then cnt - mMaxQueueSize
                          else |old(mWaitingSender)|
    {
      notify := [];
      var i := mMaxQueueSize;
      while i < cnt && mWaitingSender != []
        invariant mMaxQueueSize <= i && (i <= cnt || notify == [])
        invariant old(mWaitingSender) == notify + mWaitingSender
        invariant |notify| == i - mMaxQueueSize
        decreases |mWaitingSender|
      {
        notify, mWaitingSender := notify + [mWaitingSender[0]], mWaitingSender[1..];
        i := i + 1;
      }
    }

    method SetMaxQueueSize(cnt: nat) returns (notify: seq<nat>)
      requires Valid() && Enabled(Abs(), SetMax(cnt))
      modifies this
      ensures Valid() && Abs() == Next(old(Abs()), SetMax(cnt))
      ensures old(mWaitingSender) == notify + mWaitingSender && mMaxQueueSize == cnt
      ensures |notify| == if |mReadyData| >= cnt || cnt <= old(mMaxQueueSize) then 0
                          else if cnt - old(mMaxQueueSize) < |old(mWaitingSender)| then cnt - old(mMaxQueueSize)
                          else |old(mWaitingSender)|
      ensures forall k | k in notify :: k in Abs().pendingAck && !Abs().pendingAck[k]
      ensures mReadyData == old(mReadyData) && mWaitingReceiver == old(mWaitingReceiver)
    {
      StepKeeps(Abs(), SetMax(cnt));
      ghost var s' := Next(Abs(), SetMax(cnt));
      notify := [];
      if |mReadyData| < cnt { notify := TakeWaiting(cnt); }
      mMaxQueueSize := cnt;
      log := s';
    }

    /** Returns the receivers to wake with no value. */
    method DoCloseSender() returns (notify: seq<nat>)
      requires Valid() && Enabled(Abs(), CloseSender)
      modifies this
      ensures Valid() && Abs() == Next(old(Abs()), CloseSender)
      ensures notify == old(mWaitingReceiver) && mWaitingReceiver == [] && mSenderClosed
      ensures forall k | k in notify :: k in Abs().pendingGot && Abs().pendingGot[k] == None
      ensures mReadyData == old(mReadyData) && mWaitingSender == old(mWaitingSender)
    {
      StepKeeps(Abs(), CloseSender);
      ghost var s' := Next(Abs(), CloseSender);
      mSenderClosed := true;
      notify := [];
      if mWaitingReceiver != [] {
        notify, mWaitingReceiver := mWaitingReceiver, [];
      }
      log := s';
    }

    /** Returns the senders to wake with false. */
    method DoCloseReceiver() returns (notify: seq<nat>)
      requires Valid() && Enabled(Abs(), CloseReceiver)
      modifies this
      ensures Valid() && Abs() == Next(old(Abs()), CloseReceiver)
      ensures notify == old(mWaitingSender) && mWaitingSender == [] && mReceiverClosed
      ensures forall k | k in notify :: k in Abs().pendingAck && !Abs().pendingAck[k]
      ensures mReadyData == old(mReadyData) && mWaitingReceiver == old(mWaitingReceiver)
    {
      StepKeeps(Abs(), CloseReceiver);
      ghost var s' := Next(Abs(), CloseReceiver);
      mReceiverClosed := true;
      notify, mWaitingSender := mWaitingSender, [];
      log := s';
    }

    /** The branch of push() that finds a waiting receiver. */
    method PushToReceiver(self: nat, v: T) returns (receiver: nat)
      requires Valid() && !mSenderClosed && self == |Abs().sent| && mWaitingReceiver != []
      modifies this
      ensures Valid() && Abs() == HandOver(old(Abs()), v) && self in Abs().acks && Abs().acks[self]
      ensures old(mWaitingReceiver) == [receiver] + mWaitingReceiver
      ensures mReadyData == old(mReadyData) && mWaitingSender == old(mWaitingSender)
      ensures receiver in Abs().pendingGot && Abs().pendingGot[receiver] == Some(v)
    {
      ghost var s' := HandOver(Abs(), v);
      assert Inv(s') by { HandOverKeeps(Abs(), v); }
      receiver, mWaitingReceiver := mWaitingReceiver[0], mWaitingReceiver[1..];
      log := s';
      assert Abs() == s';
    }

    /** The branch of push() that stores the value. */
    method PushToBuffer(self: nat, v: T) returns (answer: Option<bool>)
      requires Valid() && !mSenderClosed && !mReceiverClosed && self == |Abs().sent| && mWaitingReceiver == []
      modifies this
      ensures Valid()
      ensures Abs() == if answer == None then StoreAndWait(old(Abs()), v) else StoreAndGo(old(Abs()), v)
      ensures answer == if |mReadyData| >= mMaxQueueSize then None else Some(true)
      ensures mReadyData == old(mReadyData) + [v] && mWaitingReceiver == [] && mReceiverClosed == old(mReceiverClosed)
      ensures mWaitingSender == old(mWaitingSender) + if answer == None then [self] else []
      ensures mMaxQueueSize == old(mMaxQueueSize)
      ensures if self in Abs().acks then answer == Some(Abs().acks[self]) else answer == None
    {
      ghost var s := Abs();
      assert SenderOk(s, self);
      mReadyData := mReadyData + [v];
      if |mReadyData| >= mMaxQueueSize {
        StoreAndWaitKeeps(s, v);
        mWaitingSender := mWaitingSender + [self];
        answer := None;
        log := StoreAndWait(s, v);
        assert Abs() == StoreAndWait(s, v);
      } else {
        StoreAndGoKeeps(s, v);
        answer := Some(true);
        log := StoreAndGo(s, v);
        assert Abs() == StoreAndGo(s, v);
      }
    }

    /** Returns the answer if it is known at once, and the receiver to wake with `v`. */
    method DoPush(self: nat, v: T) returns (answer: Option<bool>, receiver: Option<nat>)
      requires Valid() && Enabled(Abs(), Push(v)) && self == |Abs().sent|
      modifies this
      ensures Valid() && Abs() == Next(old(Abs()), Push(v))
      ensures if self in Abs().acks then answer == Some(Abs().acks[self]) else answer == None && self in mWaitingSender
      ensures if old(mWaitingReceiver) != [] then
                && answer == Some(true) && receiver == Some(old(mWaitingReceiver)[0])
                && mWaitingReceiver == old(mWaitingReceiver)[1..] && mReadyData == old(mReadyData)
                && receiver.value in Abs().pendingGot && Abs().pendingGot[receiver.value] == Some(v)
              else
                && receiver == None && mWaitingReceiver == []
                && if mReceiverClosed then answer == Some(false) && mReadyData == old(mReadyData)
                   else mReadyData == old(mReadyData) + [v]
                        && answer == if |mReadyData| >= mMaxQueueSize then None else Some(true)
      ensures mWaitingSender == old(mWaitingSender) + if answer == None then [self] else []
    {
      receiver := None;
      if mWaitingReceiver != [] {
        var r := PushToReceiver(self, v);
        answer, receiver := Some(true), Some(r);
      } else if mReceiverClosed {
        RefuseKeeps(Abs(), v);
        log := Refuse(Abs(), v);
        answer := Some(false);
      } else {
        answer := PushToBuffer(self, v);
      }
    }

    /** The branch of pop() that finds a value. */
    method PopFull(self: nat) returns (v: T, sender: Option<nat>)
      requires Valid() && !mReceiverClosed && self == Abs().pops && mReadyData != []
      modifies this
      ensures Valid() && Abs() == TakeReady(old(Abs())) && self in Abs().gots && Abs().gots[self] == Some(v)
      ensures old(mReadyData) == [v] + mReadyData && mWaitingReceiver == old(mWaitingReceiver)
      ensures match sender
              case None => old(mWaitingSender) == mWaitingSender == []
              case Some(k) =>
                old(mWaitingSender) == [k] + mWaitingSender && k in Abs().pendingAck && Abs().pendingAck[k]
    {
      ghost var s' := TakeReady(Abs());
      assert Inv(s') by { TakeReadyKeeps(Abs()); }
      v, mReadyData := mReadyData[0], mReadyData[1..];
      sender := None;
      if mWaitingSender != [] {
        sender, mWaitingSender := Some(mWaitingSender[0]), mWaitingSender[1..];
      }
      log := s';
      assert Abs() == s';
    }

    /** The branches of pop() that find none. */
    method PopEmpty(self: nat) returns (answer: Option<Option<T>>)
      requires Valid() && !mReceiverClosed && self == Abs().pops && mReadyData == []
      modifies this
      ensures Valid() && Abs() == TakeNone(old(Abs()))
      ensures if self in Abs().gots then answer == Some(Abs().gots[self])
              else answer == None && self in mWaitingReceiver
      ensures mReadyData == [] && mWaitingSender == old(mWaitingSender) && mSenderClosed == old(mSenderClosed)
      ensures answer == if mSenderClosed then Some(None) else None
      ensures mWaitingReceiver == old(mWaitingReceiver) + if answer == None then [self] else []
    {
      ghost var s' := TakeNone(Abs());
      assert Inv(s') by { TakeNoneKeeps(Abs()); }
      assert !Abs().Answered(self) by { assert ReceiverOk(Abs(), self); }
      if mSenderClosed {
        answer := Some(None);
      } else {
        mWaitingReceiver := mWaitingReceiver + [self];
        answer := None;
      }
      log := s';
      assert Abs() == s';
    }

    /** Returns the answer if it is known at once, and the sender to wake with true. */
    method DoPop(self: nat) returns (answer: Option<Option<T>>, sender: Option<nat>)
      requires Valid() && Enabled(Abs(), Pop) && self == Abs().pops
      modifies this
      ensures Valid() && Abs() == Next(old(Abs()), Pop)
      ensures if self in Abs().gots then answer == Some(Abs().gots[self])
              else answer == None && self in mWaitingReceiver
      ensures if old(mReadyData) != [] then
                && answer == Some(Some(old(mReadyData)[0])) && mReadyData == old(mReadyData)[1..]
                && mWaitingReceiver == old(mWaitingReceiver)
                && (match sender
                    case None => old(mWaitingSender) == mWaitingSender == []
                    case Some(k) => old(mWaitingSender) == [k] + mWaitingSender)
              else
                && sender == None && mReadyData == [] && mWaitingSender == old(mWaitingSender)
                && answer == (if mSenderClosed then Some(None) else None)
                && mWaitingReceiver == old(mWaitingReceiver) + if answer == None then [self] else []
      ensures sender.Some? ==> sender.value in Abs().pendingAck && Abs().pendingAck[sender.value]
    {
      sender := None;
      if mReadyData != [] {
        var v;
        v, sender := PopFull(self);
        answer := Some(Some(v));
      } else {
        answer := PopEmpty(self);
      }
    }
  }
}
