/** What the queue of RingsQueue.c guarantees in every run. */
module RingsQueue {
  import opened RingsQueueSteps

  function Next(s: State, t: nat, c: Choice): State {
    if Defined(s, t) then Step(s, t, c) else s
  }

  /** A schedule only names existing threads. */
  predicate Schedule(n: nat, schedule: seq<(nat, Choice)>) {
    forall i :: 0 <= i < |schedule| ==> schedule[i].0 < n
  }

  function Run(n: nat, a: Addr, junk: int, schedule: seq<(nat, Choice)>): State {
    if |schedule| == 0 then Init(n, a, junk)
    else
      var (t, c) := schedule[|schedule| - 1];
      Next(Run(n, a, junk, schedule[..|schedule| - 1]), t, c)
  }

  lemma StepClock(s: State, t: nat, c: Choice)
    requires Defined(s, t)
    ensures var s' := Step(s, t, c); |s'.threads| == |s.threads| && s'.now == s.now + 1
    ensures var s' := Step(s, t, c); forall u :: 0 <= u < |s.threads| && u != t ==> s'.threads[u] == s.threads[u]
  {
  }

  lemma InitInv(n: nat, a: Addr, junk: int)
    requires a != NULL
    ensures Inv(Init(n, a, junk))
  {
    assert NodeOk(Init(n, a, junk), 0);
  }

  /** In every interleaving every access goes to allocated memory, although drained rings are freed while
      other threads run and their addresses may be reused. */
  lemma {:induction false} RunInv(n: nat, a: Addr, junk: int, schedule: seq<(nat, Choice)>)
    requires a != NULL && Schedule(n, schedule)
    ensures var s := Run(n, a, junk, schedule);
            Inv(s) && |s.threads| == n && s.now == |schedule| && forall t :: 0 <= t < n ==> Defined(s, t)
  {
    hide Inv, Step;
    var s := Run(n, a, junk, schedule);
    if |schedule| == 0 {
      InitInv(n, a, junk);
    } else {
      var before := Run(n, a, junk, schedule[..|schedule| - 1]);
      RunInv(n, a, junk, schedule[..|schedule| - 1]);
      var (t, c) := schedule[|schedule| - 1];
      InvStep(before, t, c);
      StepClock(before, t, c);
    }
    forall t | 0 <= t < n ensures Defined(s, t) {
      InvDefined(s, t);
    }
  }

  /** The unread values of one ring, read out of its buffer. */
  function RingValues(n: Node): seq<int>
    requires |n.buffer| == RING_SIZE && n.popIdx <= n.pushIdx
  {
    seq(n.pushIdx - n.popIdx, i requires 0 <= i < n.pushIdx - n.popIdx => n.buffer[(n.popIdx + i) % RING_SIZE])
  }

  /** The contents of the queue, read out of the rings from the `k`-th node on. */
  ghost function ContentsFrom(s: State, k: nat): seq<int>
    requires ChainOk(s) && s.first <= k <= |s.order|
    decreases |s.order| - k
  {
    if k == |s.order| then [] else
      assert NodeOk(s, k);
      RingValues(s.heap[s.order[k]]) + ContentsFrom(s, k + 1)
  }

  /** The unread values of one ring are a stretch of the pushed values. */
  lemma RingIsStretch(s: State, k: nat)
    requires k < |s.order| && NodeOk(s, k)
    ensures var n := s.heap[s.order[k]]; RingValues(n) == s.pushed[n.base + n.popIdx..n.base + n.pushIdx]
  {
    hide LinkOk;
    var n := s.heap[s.order[k]];
    forall i | 0 <= i < n.pushIdx - n.popIdx ensures RingValues(n)[i] == s.pushed[n.base + n.popIdx + i] {
      assert n.buffer[(n.popIdx + i) % RING_SIZE] == s.pushed[n.base + (n.popIdx + i)];
    }
  }

  lemma {:induction false} ContentsArePending(s: State, k: nat)
    requires ChainOk(s) && s.first <= k < |s.order|
    ensures NodeOk(s, k)
    ensures var n := s.heap[s.order[k]]; ContentsFrom(s, k) == s.pushed[n.base + n.popIdx..]
    decreases |s.order| - k
  {
    hide RingValues;
    assert NodeOk(s, k);
    var n := s.heap[s.order[k]];
    var rest := ContentsFrom(s, k + 1);
    if k + 1 < |s.order| {
      assert LinkOk(s, k) && NodeOk(s, k + 1);
      ContentsArePending(s, k + 1);
      assert rest == s.pushed[n.base + n.pushIdx..];
    } else {
      assert n.base + n.pushIdx == |s.pushed|;
    }
    RingIsStretch(s, k);
    assert s.pushed[n.base + n.popIdx..n.base + n.pushIdx] + s.pushed[n.base + n.pushIdx..]
           == s.pushed[n.base + n.popIdx..];
  }

  /** In every reachable state the popped values followed by what the rings contain are the pushed values, in
      the order in which the pushes published them. */
  lemma PoppedThenContents(n: nat, a: Addr, junk: int, schedule: seq<(nat, Choice)>)
    requires a != NULL && Schedule(n, schedule)
    ensures var s := Run(n, a, junk, schedule);
            ChainOk(s) && s.popped + ContentsFrom(s, s.first) == s.pushed
  {
    hide LocksOk, PusherOk, PopperOk, LinkOk, Run, RingValues, ContentsFrom;
    RunInv(n, a, junk, schedule);
    var s := Run(n, a, junk, schedule);
    ContentsArePending(s, s.first);
  }

  datatype Effect = Nothing | Enqueue(item: int) | Dequeue(item: int)

  function EffectOf(s: State, t: nat): Effect
    requires t < |s.threads|
  {
    match s.threads[t].pc
    case PushAdd(item, _) => Enqueue(item)
    case PushLink(item, _, _) => Enqueue(item)
    case PopAdd(_, item) => Dequeue(item)
    case _ => Nothing
  }

  predicate QueueStep(e: Effect, q: seq<int>, q': seq<int>) {
    match e
    case Nothing => q' == q
    case Enqueue(item) => q' == q + [item]
    case Dequeue(item) => q == [item] + q'
  }

  /** Every step is a step of an abstract first-in-first-out queue: a push appends its own item exactly once, a
      pop that returns a value removes exactly that value from the front, and nothing else changes the queue. */
  lemma StepsOfAQueue(s: State, t: nat, c: Choice)
    requires Inv(s) && Defined(s, t)
    ensures var s' := Step(s, t, c);
            ChainOk(s') && QueueStep(EffectOf(s, t), ContentsFrom(s, s.first), ContentsFrom(s', s'.first))
    ensures EffectOf(s, t).Dequeue? ==> Step(s, t, c).threads[t].pc == PopUnlock(EffectOf(s, t).item)
  {
    hide LocksOk, PusherOk, PopperOk, LinkOk, Step, ContentsFrom;
    var s' := Step(s, t, c);
    InvStep(s, t, c);
    ContentsArePending(s, s.first);
    ContentsArePending(s', s'.first);
    StepHistory(s, t, c);
  }

  lemma StepHistory(s: State, t: nat, c: Choice)
    requires Inv(s) && Defined(s, t)
    ensures var s' := Step(s, t, c);
            QueueStep(EffectOf(s, t), s.pushed[|s.popped|..],
                      if |s'.popped| <= |s'.pushed| then s'.pushed[|s'.popped|..] else [])
    ensures EffectOf(s, t).Dequeue? ==> Step(s, t, c).threads[t].pc == PopUnlock(EffectOf(s, t).item)
  {
  }

  /** Although its copy of `pop_idx` may be stale, a push never writes into a slot that holds an unread value,
      and never into the slot a pop is reading at the same time. */
  lemma NoOverwrite(n: nat, a: Addr, junk: int, schedule: seq<(nat, Choice)>, t: nat, u: nat)
    requires a != NULL && Schedule(n, schedule) && t < n && u < n
    requires |Run(n, a, junk, schedule).threads| == n && Run(n, a, junk, schedule).threads[t].pc.PushWrite?
    ensures var s := Run(n, a, junk, schedule);
            var pc := s.threads[t].pc;
            && pc.tail in s.heap
            && (forall i :: s.heap[pc.tail].popIdx <= i < s.heap[pc.tail].pushIdx ==>
                  i % RING_SIZE != pc.pushIdx % RING_SIZE)
            && (s.threads[u].pc.PopRead? && s.threads[u].pc.head == pc.tail ==>
                  s.threads[u].pc.popIdx % RING_SIZE != pc.pushIdx % RING_SIZE)
  {
    RunInv(n, a, junk, schedule);
    var s := Run(n, a, junk, schedule);
    var pc := s.threads[t].pc;
    assert PusherOk(s, pc) && NodeOk(s, |s.order| - 1);
    forall i | s.heap[pc.tail].popIdx <= i < s.heap[pc.tail].pushIdx
      ensures i % RING_SIZE != pc.pushIdx % RING_SIZE
    {
      ModDistinct(i, pc.pushIdx);
    }
    if s.threads[u].pc.PopRead? {
      assert PopperOk(s, s.threads[u].pc);
    }
  }

  /** The moment `seen.at` lies in the current call, and `seen.empty` says whether the queue was empty then. */
  ghost predicate SeenThen(n: nat, a: Addr, junk: int, schedule: seq<(nat, Choice)>, began: nat, seen: Seen) {
    && began <= seen.at <= |schedule|
    && var s := Run(n, a, junk, schedule[..seen.at]);
       seen.empty <==> |s.pushed| == |s.popped|
  }

  predicate Looking(pc: PC) { pc.PopLoadPop? || pc.PopLoadPush? || pc.PopEmpty? }

  /** Only the load of `next` makes a pop look at a node. */
  lemma StartsLooking(s: State, t: nat, c: Choice)
    requires Defined(s, t) && |Step(s, t, c).threads| == |s.threads| && Looking(Step(s, t, c).threads[t].pc)
    ensures s.threads[t].pc.PopNext? || s.threads[t].pc.PopLoadPop? || s.threads[t].pc.PopLoadPush?
  {
  }

  lemma OwnSeen(s: State, t: nat, c: Choice)
    requires Defined(s, t) && |Step(s, t, c).threads| == |s.threads| && Looking(Step(s, t, c).threads[t].pc)
    requires s.threads[t].pc.PopNext? || s.threads[t].pc.PopLoadPop? || s.threads[t].pc.PopLoadPush?
    ensures var th, th' := s.threads[t], Step(s, t, c).threads[t];
            && th'.began == th.began
            && (Looking(th.pc) ==> th'.pc.seen == th.pc.seen)
            && (!Looking(th.pc) ==> th'.pc.seen == Seen(s.now, |s.pushed| == |s.popped|))
  {
    hide Start, DoPushWrite, DoPushAdd, DoPushNew, DoPushLink, DoPopMove, DoPopAdd;
  }

  lemma SeenStep(s: State, u: nat, c: Choice, t: nat)
    requires Defined(s, u) && t < |s.threads| == |Step(s, u, c).threads|
    requires Looking(Step(s, u, c).threads[t].pc)
    ensures var th, th' := s.threads[t], Step(s, u, c).threads[t];
            && th'.began == th.began
            && (Looking(th.pc) ==> th'.pc.seen == th.pc.seen)
            && (!Looking(th.pc) ==> u == t && th'.pc.seen == Seen(s.now, |s.pushed| == |s.popped|))
  {
    hide Step, Looking;
    if t != u {
      StepClock(s, u, c);
    } else {
      StartsLooking(s, t, c);
      OwnSeen(s, t, c);
    }
  }

  ghost predicate BeganOk(s: State) {
    forall t :: 0 <= t < |s.threads| ==> s.threads[t].began <= s.now
  }

  lemma BeganStep(s: State, t: nat, c: Choice)
    requires BeganOk(s)
    ensures BeganOk(Next(s, t, c))
  {
    if Defined(s, t) {
      StepClock(s, t, c);
    }
  }

  lemma {:induction false} BeganEarlier(n: nat, a: Addr, junk: int, schedule: seq<(nat, Choice)>)
    requires a != NULL && Schedule(n, schedule)
    ensures BeganOk(Run(n, a, junk, schedule))
  {
    if |schedule| > 0 {
      hide BeganOk, Next;
      BeganEarlier(n, a, junk, schedule[..|schedule| - 1]);
      var (t, c) := schedule[|schedule| - 1];
      BeganStep(Run(n, a, junk, schedule[..|schedule| - 1]), t, c);
    }
  }

  lemma {:induction false} SeenIsTrue(n: nat, a: Addr, junk: int, schedule: seq<(nat, Choice)>, t: nat)
    requires a != NULL && Schedule(n, schedule) && t < n
    requires |Run(n, a, junk, schedule).threads| == n
    requires Looking(Run(n, a, junk, schedule).threads[t].pc)
    ensures var th := Run(n, a, junk, schedule).threads[t];
            SeenThen(n, a, junk, schedule, th.began, th.pc.seen)
  {
    if |schedule| > 0 {
      var before := schedule[..|schedule| - 1];
      RunInv(n, a, junk, before);
      BeganEarlier(n, a, junk, before);
      var s := Run(n, a, junk, before);
      var (u, c) := schedule[|schedule| - 1];
      SeenStep(s, u, c, t);
      var th := s.threads[t];
      if Looking(th.pc) {
        SeenIsTrue(n, a, junk, before, t);
        assert schedule[..th.pc.seen.at] == before[..th.pc.seen.at];
      } else {
        assert schedule[..|before|] == before;
      }
    }
  }

  /** A pop reports an empty queue only if the queue was empty when, in this very call, it loaded `next`. */
  lemma EmptyOnlyIfEmpty(n: nat, a: Addr, junk: int, schedule: seq<(nat, Choice)>, t: nat)
    requires a != NULL && Schedule(n, schedule) && t < n
    requires |Run(n, a, junk, schedule).threads| == n && Run(n, a, junk, schedule).threads[t].pc.PopEmpty?
    ensures var th := Run(n, a, junk, schedule).threads[t];
            th.pc.seen.empty && SeenThen(n, a, junk, schedule, th.began, th.pc.seen)
  {
    RunInv(n, a, junk, schedule);
    SeenIsTrue(n, a, junk, schedule, t);
  }

  // ---------------------------------------------------------------------------------------------
  // What a call has done when it returns
  // ---------------------------------------------------------------------------------------------

  /** The last call of a thread: which one, since when, and its effects on the abstract queue so far. */
  datatype Record = Record(call: Op, began: nat, effects: seq<Effect>)

  function NextRecord(s: State, t: nat, c: Choice, h: Record): Record
    requires Defined(s, t)
  {
    if s.threads[t].pc == Idle then Record(c.op, s.now, [])
    else if EffectOf(s, t) == Nothing then h
    else h.(effects := h.effects + [EffectOf(s, t)])
  }

  function History(n: nat, a: Addr, junk: int, schedule: seq<(nat, Choice)>, t: nat): Record {
    if |schedule| == 0 then Record(Pop, 0, [])
    else
      var before := schedule[..|schedule| - 1];
      var (u, c) := schedule[|schedule| - 1];
      var s := Run(n, a, junk, before);
      if u == t && Defined(s, t) then NextRecord(s, t, c, History(n, a, junk, before, t))
      else History(n, a, junk, before, t)
  }

  /** What the place of a thread tells about its call, before the call has had its effect. */
  function CallOf(pc: PC): Op {
    match pc
    case PushLock(item) => Push(item)
    case PushTail(item) => Push(item)
    case PushLoadPush(item, _) => Push(item)
    case PushLoadPop(item, _, _) => Push(item)
    case PushWrite(item, _, _) => Push(item)
    case PushAdd(item, _) => Push(item)
    case PushNew(item, _) => Push(item)
    case PushLink(item, _, _) => Push(item)
    case _ => Pop
  }

  /** What a call has done by the time it is where it is. */
  predicate RecordOk(th: Thread, h: Record) {
    th.pc != Idle ==>
      && th.began == h.began
      && match th.pc
         case PushUnlock => h.call.Push? && h.effects == [Enqueue(h.call.item)]
         case PushSetTail(_) => h.call.Push? && h.effects == [Enqueue(h.call.item)]
         case PopUnlock(v) => h.call.Pop? && (h.effects == [Dequeue(v)] || (h.effects == [] && v == EMPTY_VALUE))
         case pc => h.effects == [] && h.call == CallOf(pc)
  }

  lemma PushRecord(s: State, t: nat, c: Choice, h: Record)
    requires Defined(s, t) && RecordOk(s.threads[t], h) && |Step(s, t, c).threads| == |s.threads|
    requires InPush(s.threads[t].pc) || s.threads[t].pc.PushLock? || s.threads[t].pc == Idle
    ensures RecordOk(Step(s, t, c).threads[t], NextRecord(s, t, c, h))
  {
    hide DoPopLoadPush, DoPopMove, DoPopAdd;
  }

  lemma PopRecord(s: State, t: nat, c: Choice, h: Record)
    requires Defined(s, t) && RecordOk(s.threads[t], h) && |Step(s, t, c).threads| == |s.threads|
    requires InPop(s.threads[t].pc) || s.threads[t].pc.PopLock?
    ensures RecordOk(Step(s, t, c).threads[t], NextRecord(s, t, c, h))
  {
    hide DoPushWrite, DoPushAdd, DoPushNew, DoPushLink, Start;
  }

  lemma {:induction false} RecordsAreRight(n: nat, a: Addr, junk: int, schedule: seq<(nat, Choice)>, t: nat)
    requires a != NULL && t < n && Schedule(n, schedule)
    ensures |Run(n, a, junk, schedule).threads| == n
    ensures RecordOk(Run(n, a, junk, schedule).threads[t], History(n, a, junk, schedule, t))
  {
    RunInv(n, a, junk, schedule);
    if |schedule| > 0 {
      hide RecordOk, Step, NextRecord, Inv;
      var before := schedule[..|schedule| - 1];
      RecordsAreRight(n, a, junk, before, t);
      RunInv(n, a, junk, before);
      var s, h := Run(n, a, junk, before), History(n, a, junk, before, t);
      var (u, c) := schedule[|schedule| - 1];
      StepClock(s, u, c);
      if u != t {
      } else if InPop(s.threads[t].pc) || s.threads[t].pc.PopLock? {
        PopRecord(s, t, c, h);
      } else {
        PushRecord(s, t, c, h);
      }
    } else {
      assert Run(n, a, junk, schedule).threads[t].pc == Idle;
    }
  }

  /** The queue was empty at the moment `seen`, which lies after `began`. */
  ghost predicate EmptyThen(n: nat, a: Addr, junk: int, schedule: seq<(nat, Choice)>, began: nat, seen: nat) {
    && began <= seen <= |schedule|
    && var s := Run(n, a, junk, schedule[..seen]);
       ChainOk(s) && ContentsFrom(s, s.first) == []
  }

  lemma EmptyAtReport(n: nat, a: Addr, junk: int, schedule: seq<(nat, Choice)>, t: nat)
    requires a != NULL && Schedule(n, schedule) && t < n
    requires |Run(n, a, junk, schedule).threads| == n && Run(n, a, junk, schedule).threads[t].pc.PopEmpty?
    ensures exists seen :: EmptyThen(n, a, junk, schedule, Run(n, a, junk, schedule).threads[t].began, seen)
  {
    hide Run, ChainOk, ContentsFrom;
    EmptyOnlyIfEmpty(n, a, junk, schedule, t);
    var th := Run(n, a, junk, schedule).threads[t];
    PoppedThenContents(n, a, junk, schedule[..th.pc.seen.at]);
    assert EmptyThen(n, a, junk, schedule, th.began, th.pc.seen.at);
  }

  /** A pop that is about to return without an effect found the queue empty at some moment during its call. */
  lemma {:induction false} ReturnsEmpty(n: nat, a: Addr, junk: int, schedule: seq<(nat, Choice)>, t: nat)
    requires a != NULL && t < n && Schedule(n, schedule) && |Run(n, a, junk, schedule).threads| == n
    requires Run(n, a, junk, schedule).threads[t].pc.PopUnlock? && History(n, a, junk, schedule, t).effects == []
    ensures exists seen :: EmptyThen(n, a, junk, schedule, History(n, a, junk, schedule, t).began, seen)
  {
    hide Inv, RecordOk, Step, NextRecord, EmptyThen;
    assert |schedule| > 0;
    var before := schedule[..|schedule| - 1];
    RunInv(n, a, junk, before);
    RecordsAreRight(n, a, junk, before, t);
    var s, h := Run(n, a, junk, before), History(n, a, junk, before, t);
    var (u, c) := schedule[|schedule| - 1];
    StepClock(s, u, c);
    if u == t {
      ReturnsAfterReport(s, t, c, h);
      EmptyAtReport(n, a, junk, before, t);
    } else {
      ReturnsEmpty(n, a, junk, before, t);
    }
    var seen :| EmptyThen(n, a, junk, before, h.began, seen);
    StillEmptyThen(n, a, junk, schedule, h.began, seen);
  }

  lemma StillEmptyThen(n: nat, a: Addr, junk: int, schedule: seq<(nat, Choice)>, began: nat, seen: nat)
    requires |schedule| > 0 && EmptyThen(n, a, junk, schedule[..|schedule| - 1], began, seen)
    ensures EmptyThen(n, a, junk, schedule, began, seen)
  {
    hide Run, ChainOk, ContentsFrom;
    assert schedule[..seen] == schedule[..|schedule| - 1][..seen];
  }

  lemma ReturnsAfterReport(s: State, t: nat, c: Choice, h: Record)
    requires Defined(s, t) && RecordOk(s.threads[t], h) && |Step(s, t, c).threads| == |s.threads|
    requires Step(s, t, c).threads[t].pc.PopUnlock? && NextRecord(s, t, c, h).effects == []
    ensures s.threads[t].pc.PopEmpty? && NextRecord(s, t, c, h) == h && s.threads[t].began == h.began
  {
  }

  /** When a call returns, a push has appended its argument to the abstract queue, once; a pop has removed the value
      it returns from the front, once, or it returns EMPTY, has removed nothing, and the queue was empty at some
      moment during the call. */
  lemma CallOutcomes(n: nat, a: Addr, junk: int, schedule: seq<(nat, Choice)>, t: nat)
    requires a != NULL && t < n && Schedule(n, schedule) && |Run(n, a, junk, schedule).threads| == n
    requires var pc := Run(n, a, junk, schedule).threads[t].pc; pc.PushUnlock? || pc.PopUnlock?
    ensures var h, pc := History(n, a, junk, schedule, t), Run(n, a, junk, schedule).threads[t].pc;
            match h.call
            case Push(item) => pc.PushUnlock? && h.effects == [Enqueue(item)]
            case Pop =>
              && pc.PopUnlock?
              && (|| h.effects == [Dequeue(pc.item)]
                  || (&& h.effects == [] && pc.item == EMPTY_VALUE
                      && exists seen :: EmptyThen(n, a, junk, schedule, h.began, seen)))
  {
    hide Run, History, EmptyThen;
    RecordsAreRight(n, a, junk, schedule, t);
    if Run(n, a, junk, schedule).threads[t].pc.PopUnlock? && History(n, a, junk, schedule, t).effects == [] {
      ReturnsEmpty(n, a, junk, schedule, t);
    }
  }

  /** A call that has not returned has had at most one effect, and a thread only leaves a call by releasing the lock
      of that call. */
  lemma NoOtherEffects(n: nat, a: Addr, junk: int, schedule: seq<(nat, Choice)>, t: nat, c: Choice)
    requires a != NULL && t < n && Schedule(n, schedule) && |Run(n, a, junk, schedule).threads| == n
    requires Run(n, a, junk, schedule).threads[t].pc != Idle
    ensures |History(n, a, junk, schedule, t).effects| <= 1
    ensures var s := Run(n, a, junk, schedule);
            Defined(s, t) && |Step(s, t, c).threads| == n
            && (Step(s, t, c).threads[t].pc == Idle ==> s.threads[t].pc.PushUnlock? || s.threads[t].pc.PopUnlock?)
  {
    hide Run, History, Inv;
    RunInv(n, a, junk, schedule);
    RecordsAreRight(n, a, junk, schedule, t);
    StepClock(Run(n, a, junk, schedule), t, c);
  }

  /** A new ring is only added behind one of which every slot has been used. */
  lemma OnlyUsedRingsAreFollowed(n: nat, a: Addr, junk: int, schedule: seq<(nat, Choice)>, k: nat)
    requires a != NULL && Schedule(n, schedule)
    requires var s := Run(n, a, junk, schedule); s.first <= k && k + 1 < |s.order|
    ensures var s := Run(n, a, junk, schedule);
            && s.order[k] in s.heap && s.heap[s.order[k]].next == s.order[k + 1]
            && s.heap[s.order[k]].pushIdx >= RING_SIZE
  {
    hide Run, LocksOk, PusherOk, PopperOk;
    RunInv(n, a, junk, schedule);
    var s := Run(n, a, junk, schedule);
    assert NodeOk(s, k) && NodeOk(s, k + 1) && LinkOk(s, k);
  }

  // ---------------------------------------------------------------------------------------------
  // Nothing but the locks makes a thread wait
  // ---------------------------------------------------------------------------------------------

  /** How many operations there are at most from here to the end of the loop body. */
  function Rank(pc: PC): nat {
    match pc
    case PushLock(_) => 12
    case PushTail(_) => 11
    case PushLoadPush(_, _) => 10
    case PushLoadPop(_, _, _) => 9
    case PushWrite(_, _, _) => 8
    case PushAdd(_, _) => 7
    case PushNew(_, _) => 8
    case PushLink(_, _, _) => 7
    case PushSetTail(_) => 6
    case PushUnlock => 5
    case PopLock => 12
    case PopHead => 11
    case PopNext(_) => 10
    case PopLoadPop(_, _, _) => 9
    case PopLoadPush(_, _, _, _) => 8
    case PopEmpty(_) => 7
    case PopMove(_, _) => 7
    case PopRead(_, _) => 7
    case PopFree(_) => 12
    case PopAdd(_, _) => 6
    case PopUnlock(_) => 5
    case Idle => 0
  }

  /** The rings that a pop may still have to leave behind. */
  function RingsLeft(s: State, t: nat): int
    requires t < |s.threads|
  {
    if InPop(s.threads[t].pc) || s.threads[t].pc.PopLock? then |s.order| - s.first else 0
  }

  /** The lock that the call of a thread needs is free, or the thread has it. */
  predicate HasWay(s: State, t: nat)
    requires t < |s.threads|
  {
    && (s.threads[t].pc.PushLock? ==> s.pushMtx == Nobody)
    && (s.threads[t].pc.PopLock? ==> s.popMtx == Nobody)
  }

  lemma PushNearer(s: State, t: nat, c: Choice)
    requires Defined(s, t) && HasWay(s, t) && c.addr != NULL && c.addr !in s.heap
    requires InPush(s.threads[t].pc) || s.threads[t].pc.PushLock?
    ensures var s' := Step(s, t, c); |s'.threads| == |s.threads| && HasWay(s', t)
    ensures var s' := Step(s, t, c);
            RingsLeft(s', t) == RingsLeft(s, t) && Rank(s'.threads[t].pc) < Rank(s.threads[t].pc)
  {
    hide DoPopLoadPush, DoPopMove, DoPopAdd;
  }

  lemma PopNearer(s: State, t: nat, c: Choice)
    requires Defined(s, t) && HasWay(s, t) && (InPop(s.threads[t].pc) || s.threads[t].pc.PopLock?)
    requires !s.threads[t].pc.PopMove? && !s.threads[t].pc.PopUnlock?
    ensures var s' := Step(s, t, c); |s'.threads| == |s.threads| && HasWay(s', t)
    ensures var s' := Step(s, t, c);
            RingsLeft(s', t) == RingsLeft(s, t) && Rank(s'.threads[t].pc) < Rank(s.threads[t].pc)
  {
    hide DoPushWrite, DoPushAdd, DoPushNew, DoPushLink, DoPopMove;
  }

  lemma MoveNearer(s: State, t: nat, c: Choice)
    requires s.first < |s.order| && Defined(s, t) && (s.threads[t].pc.PopMove? || s.threads[t].pc.PopUnlock?)
    ensures var s' := Step(s, t, c); |s'.threads| == |s.threads| && HasWay(s', t)
    ensures var s' := Step(s, t, c); s'.threads[t].pc == Idle || 0 <= RingsLeft(s', t) < RingsLeft(s, t)
  {
    hide DoPushWrite, DoPushAdd, DoPushNew, DoPushLink, DoPopLoadPush, DoPopAdd;
  }

  lemma RingsCounted(s: State, t: nat)
    requires Inv(s) && t < |s.threads|
    ensures s.first < |s.order| && RingsLeft(s, t) >= 0
  {
    hide NodeOk, LinkOk, LocksOk, PusherOk, PopperOk;
  }

  /** An address that `malloc` may return. */
  lemma {:induction false} Above(addrs: set<Addr>) returns (a: Addr)
    ensures a != NULL && forall b :: b in addrs ==> b < a
    decreases |addrs|
  {
    if addrs == {} {
      a := 1;
    } else {
      var b :| b in addrs;
      var c := Above(addrs - {b});
      assert forall x :: x in addrs ==> x == b || x in addrs - {b};
      a := if c > b then c else b + 1;
    }
  }

  lemma FreshAddress(heap: map<Addr, Node>) returns (a: Addr)
    ensures a != NULL && a !in heap
  {
    a := Above(heap.Keys);
  }

  lemma OneMoreStep(n: nat, a: Addr, junk: int, schedule: seq<(nat, Choice)>, t: nat, c: Choice)
    requires a != NULL && t < n && Schedule(n, schedule)
    ensures Schedule(n, schedule + [(t, c)]) && Defined(Run(n, a, junk, schedule), t)
    ensures Run(n, a, junk, schedule + [(t, c)]) == Step(Run(n, a, junk, schedule), t, c)
  {
    hide Step, Inv;
    RunInv(n, a, junk, schedule);
    assert (schedule + [(t, c)])[..|schedule|] == schedule;
  }

  /** From wherever a thread is in a call, the call returns if the thread runs alone, unless another thread holds the
      lock that it is waiting for. */
  lemma {:induction false} ReturnsAlone(n: nat, a: Addr, junk: int, schedule: seq<(nat, Choice)>, t: nat)
    returns (alone: seq<(nat, Choice)>)
    requires a != NULL && t < n && Schedule(n, schedule) && |Run(n, a, junk, schedule).threads| == n
    requires HasWay(Run(n, a, junk, schedule), t)
    ensures forall i :: 0 <= i < |alone| ==> alone[i].0 == t
    ensures |Run(n, a, junk, schedule + alone).threads| == n
    ensures Run(n, a, junk, schedule + alone).threads[t].pc == Idle
    decreases RingsLeft(Run(n, a, junk, schedule), t), Rank(Run(n, a, junk, schedule).threads[t].pc)
  {
    hide Run, RingsLeft, Rank, Step, Inv, InPush, InPop, HasWay;
    var s := Run(n, a, junk, schedule);
    RunInv(n, a, junk, schedule);
    RingsCounted(s, t);
    alone := [];
    if s.threads[t].pc == Idle {
      assert schedule + [] == schedule;
    } else {
      var addr := FreshAddress(s.heap);
      var c := Choice(Pop, addr, 0);
      var now := schedule + [(t, c)];
      OneMoreStep(n, a, junk, schedule, t, c);
      RunInv(n, a, junk, now);
      RingsCounted(Run(n, a, junk, now), t);
      PushOrPop(s.threads[t].pc);
      if InPush(s.threads[t].pc) || s.threads[t].pc.PushLock? {
        PushNearer(s, t, c);
      } else if s.threads[t].pc.PopMove? || s.threads[t].pc.PopUnlock? {
        MoveNearer(s, t, c);
      } else {
        PopNearer(s, t, c);
      }
      if Run(n, a, junk, now).threads[t].pc == Idle {
        assert schedule + [(t, c)] == now;
        alone := [(t, c)];
      } else {
        var rest := ReturnsAlone(n, a, junk, now, t);
        alone := [(t, c)] + rest;
        assert schedule + alone == now + rest;
      }
    }
  }

  lemma PushOrPop(pc: PC)
    ensures pc == Idle || InPush(pc) || InPop(pc) || pc.PushLock? || pc.PopLock?
  {
  }

  /** The thread is in a call, which returns if it runs alone. */
  ghost predicate CanReturn(n: nat, a: Addr, junk: int, schedule: seq<(nat, Choice)>, u: nat)
    requires u < |Run(n, a, junk, schedule).threads|
  {
    && Run(n, a, junk, schedule).threads[u].pc != Idle
    && exists alone: seq<(nat, Choice)> ::
         && (forall i :: 0 <= i < |alone| ==> alone[i].0 == u)
         && Returned(Run(n, a, junk, schedule + alone), u)
  }

  predicate Returned(s: State, u: nat) { u < |s.threads| && s.threads[u].pc == Idle }

  /** There is no deadlock: as long as a thread is in a call, that thread or the one that holds the lock it waits for
      returns if it runs alone. */
  lemma NoDeadlock(n: nat, a: Addr, junk: int, schedule: seq<(nat, Choice)>, t: nat)
    requires a != NULL && t < n && Schedule(n, schedule) && |Run(n, a, junk, schedule).threads| == n
    requires Run(n, a, junk, schedule).threads[t].pc != Idle
    ensures exists u :: 0 <= u < n && CanReturn(n, a, junk, schedule, u)
  {
    hide Run, ChainOk, PusherOk, PopperOk;
    RunInv(n, a, junk, schedule);
    var s := Run(n, a, junk, schedule);
    var u := if s.threads[t].pc.PushLock? && s.pushMtx.By? then s.pushMtx.t
             else if s.threads[t].pc.PopLock? && s.popMtx.By? then s.popMtx.t
             else t;
    LockHolders(s);
    var alone := ReturnsAlone(n, a, junk, schedule, u);
    assert Returned(Run(n, a, junk, schedule + alone), u);
    assert CanReturn(n, a, junk, schedule, u);
  }

  lemma LockHolders(s: State)
    requires Inv(s)
    ensures s.pushMtx.By? ==> s.pushMtx.t < |s.threads| && InPush(s.threads[s.pushMtx.t].pc)
    ensures s.popMtx.By? ==> s.popMtx.t < |s.threads| && InPop(s.threads[s.popMtx.t].pc)
  {
    hide ChainOk, PusherOk, PopperOk;
  }
}
