/** No thread that uses the queue of BLQueue.c ever waits for another. */
module BLQueueProgress {
  import opened BLQueueSteps
  import opened BLQueue

  predicate Returning(pc: PC) { pc.Clear? && pc.after.Return? }

  /** The segment that a thread has protected is still the one its operation starts from. */
  predicate Current(s: State, t: nat)
    requires t < |s.threads|
  {
    match s.threads[t].pc
    case Publish(op, p) => p == Source(s, op)
    case Validate(op, p) => p == Source(s, op)
    case PushFetch(_, p) => p == s.tail
    case PushCas(_, p, _) => p == s.tail
    case PushNew(_, p) => p == s.tail
    case PushSwing(_, p, _) => p == s.tail
    case PopFetch(p) => p == s.head
    case PopExchange(p, _) => p == s.head
    case PopNext(p) => p == s.head
    case PopSwing(p, _) => p == s.head
    case _ => true
  }

  /** The segments that a pop may still have to leave behind. */
  function SegmentsLeft(s: State, t: nat): int
    requires t < |s.threads|
  {
    var pc := s.threads[t].pc;
    if OpOf(pc).Pop? && !pc.PushLink? && !Returning(pc) then |s.order| - s.first else 0
  }

  function Unclaimed(idx: nat): nat { if idx < BUFFER_SIZE then BUFFER_SIZE - idx else 0 }

  /** The slots of the current segment that the operation of a thread may still have to try. */
  function SlotsLeft(s: State, t: nat): nat
    requires t < |s.threads|
  {
    var pc := s.threads[t].pc;
    if pc.PushLink? || Returning(pc) then 0
    else if OpOf(pc).Push? && s.tail in s.heap then Unclaimed(s.heap[s.tail].pushIdx)
    else if OpOf(pc).Pop? && s.head in s.heap then Unclaimed(s.heap[s.head].popIdx)
    else 0
  }

  /** How many operations there are at most from here to the end of the loop body. */
  function Rank(pc: PC, current: bool): nat {
    match pc
    case PushCas(_, _, _) => if current then 12 else 5
    case PopExchange(_, _) => if current then 12 else 5
    case PushFree(_, _) => 11
    case Retire(_) => 11
    case Scan(_, _) => 10
    case Clear(Retry(_)) => 9
    case Load(_) => 8
    case Publish(_, _) => 7
    case Validate(_, _) => 6
    case PushNew(_, _) => 4
    case PushSwing(_, _, _) => 3
    case PushLink(_, _) => 2
    case PopNext(_) => 4
    case PopSwing(_, _) => 3
    case ReadPush(_) => 5
    case ReadPop(_, _) => 4
    case ReadNext(_, _) => 3
    case PushFetch(_, _) => if current then 5 else 6
    case PopFetch(_) => if current then 5 else 6
    case _ => 1
  }

  /** What a scan still has to look at. */
  function NodesLeft(s: State, t: nat): nat
    requires t < |s.threads|
  {
    var th := s.threads[t];
    if th.pc.Scan? && th.pc.i < |th.retired| then |th.retired| - th.pc.i else 0
  }

  function PointersLeft(s: State, t: nat): nat
    requires t < |s.threads|
  {
    var pc := s.threads[t].pc;
    if pc.Scan? && pc.j < |s.hp| then |s.hp| - pc.j else 0
  }

  /** A step brings a thread that runs alone nearer to its return. */
  predicate Nearer(s: State, s': State, t: nat)
    requires t < |s.threads| == |s'.threads|
  {
    var c, c' := Current(s, t), Current(s', t);
    var r, r' := Rank(s.threads[t].pc, c), Rank(s'.threads[t].pc, c');
    || (!c && c')
    || (c == c' && SegmentsLeft(s', t) < SegmentsLeft(s, t))
    || (c == c' && SegmentsLeft(s', t) == SegmentsLeft(s, t)
        && (|| SlotsLeft(s', t) < SlotsLeft(s, t)
            || (SlotsLeft(s', t) == SlotsLeft(s, t)
                && (|| r' < r
                    || (r' == r && NodesLeft(s', t) < NodesLeft(s, t))
                    || (r' == r && NodesLeft(s', t) == NodesLeft(s, t) && PointersLeft(s', t) < PointersLeft(s, t))))))
  }

  lemma PushSlotNearer(s: State, t: nat, c: Choice)
    requires MemInv(s) && Defined(s, t) && (s.threads[t].pc.PushFetch? || s.threads[t].pc.PushCas?)
    ensures var s' := Step(s, t, c); |s'.threads| == |s.threads| && s'.threads[t].pc != Idle && Nearer(s, s', t)
  {
    hide DoRetire, DoScan, DoClear, DoValidate, DoIdle, DoPopFetch, DoPopExchange, DoPopNext, DoPopSwing,
         DoPushNew, DoPushSwing, DoPushLink;
    hide HoldOk, RetiredOk, ScanOk, LinkersDiffer, LocalOk;
  }

  lemma PushNodeNearer(s: State, t: nat, c: Choice)
    requires MemInv(s) && Defined(s, t) && InPush(s.threads[t].pc) && c.ok && c.addr != NULL && c.addr !in s.heap
    requires !s.threads[t].pc.PushFetch? && !s.threads[t].pc.PushCas?
    ensures var s' := Step(s, t, c); |s'.threads| == |s.threads| && s'.threads[t].pc != Idle && Nearer(s, s', t)
  {
    hide DoRetire, DoScan, DoClear, DoValidate, DoIdle, DoPopFetch, DoPopExchange, DoPopNext, DoPopSwing,
         DoPushFetch, DoPushCas;
    hide HoldOk, RetiredOk, ScanOk, LinkersDiffer;
    assert LocalOk(s, t);
  }

  lemma PopSlotNearer(s: State, t: nat, c: Choice)
    requires MemInv(s) && Defined(s, t) && (s.threads[t].pc.PopFetch? || s.threads[t].pc.PopExchange?)
    ensures var s' := Step(s, t, c); |s'.threads| == |s.threads| && s'.threads[t].pc != Idle && Nearer(s, s', t)
  {
    hide DoRetire, DoScan, DoClear, DoValidate, DoIdle, DoPushFetch, DoPushCas, DoPushNew, DoPushSwing, DoPushLink,
         DoPopNext, DoPopSwing;
    hide HoldOk, RetiredOk, ScanOk, LinkersDiffer, LocalOk;
  }

  lemma PopNodeNearer(s: State, t: nat, c: Choice)
    requires MemInv(s) && Defined(s, t) && (s.threads[t].pc.PopNext? || s.threads[t].pc.PopSwing?)
    ensures var s' := Step(s, t, c); |s'.threads| == |s.threads| && s'.threads[t].pc != Idle && Nearer(s, s', t)
  {
    hide DoRetire, DoScan, DoClear, DoValidate, DoIdle, DoPushFetch, DoPushCas, DoPushNew, DoPushSwing, DoPushLink,
         DoPopFetch, DoPopExchange;
    hide HoldOk, RetiredOk, ScanOk, LinkersDiffer, LocalOk;
  }

  lemma RetireNearer(s: State, t: nat, c: Choice)
    requires MemInv(s) && Defined(s, t) && s.threads[t].pc.Retire?
    ensures var s' := Step(s, t, c); |s'.threads| == |s.threads| && s'.threads[t].pc != Idle && Nearer(s, s', t)
  {
    hide DoScan, DoClear, DoValidate, DoIdle, DoPushFetch, DoPushCas, DoPushNew, DoPushSwing, DoPushLink,
         DoPopFetch, DoPopExchange, DoPopNext, DoPopSwing;
    hide HoldOk, ScanOk, LinkersDiffer;
    assert LocalOk(s, t) && RetiredOk(s, t);
  }

  lemma ScanNearer(s: State, t: nat, c: Choice)
    requires MemInv(s) && Defined(s, t) && s.threads[t].pc.Scan?
    ensures var s' := Step(s, t, c); |s'.threads| == |s.threads| && s'.threads[t].pc != Idle && Nearer(s, s', t)
  {
    hide DoRetire, DoClear, DoValidate, DoIdle, DoPushFetch, DoPushCas, DoPushNew, DoPushSwing, DoPushLink,
         DoPopFetch, DoPopExchange, DoPopNext, DoPopSwing;
    hide HoldOk, ScanOk, LinkersDiffer;
    assert LocalOk(s, t) && RetiredOk(s, t);
  }

  lemma OtherNearer(s: State, t: nat, c: Choice)
    requires MemInv(s) && Defined(s, t) && !InPush(s.threads[t].pc) && !InPop(s.threads[t].pc)
    requires s.threads[t].pc != Idle && !Returning(s.threads[t].pc)
    ensures var s' := Step(s, t, c); |s'.threads| == |s.threads| && s'.threads[t].pc != Idle && Nearer(s, s', t)
  {
    hide DoRetire, DoScan, DoPushFetch, DoPushCas, DoPushNew, DoPushSwing, DoPushLink,
         DoPopFetch, DoPopExchange, DoPopNext, DoPopSwing;
    hide HoldOk, RetiredOk, ScanOk, LinkersDiffer;
    assert LocalOk(s, t);
  }

  lemma StepNearer(s: State, t: nat, c: Choice)
    requires MemInv(s) && Defined(s, t) && c.ok && c.addr != NULL && c.addr !in s.heap
    requires s.threads[t].pc != Idle && !Returning(s.threads[t].pc)
    ensures var s' := Step(s, t, c); |s'.threads| == |s.threads| && s'.threads[t].pc != Idle && Nearer(s, s', t)
  {
    hide Step, Nearer, MemInv;
    var pc := s.threads[t].pc;
    if pc.PushFetch? || pc.PushCas? {
      PushSlotNearer(s, t, c);
    } else if InPush(pc) {
      PushNodeNearer(s, t, c);
    } else if pc.PopFetch? || pc.PopExchange? {
      PopSlotNearer(s, t, c);
    } else if pc.PopNext? || pc.PopSwing? {
      PopNodeNearer(s, t, c);
    } else if pc.Retire? {
      RetireNearer(s, t, c);
    } else if pc.Scan? {
      ScanNearer(s, t, c);
    } else {
      OtherNearer(s, t, c);
    }
  }

  lemma SegmentsCounted(s: State, t: nat)
    requires MemInv(s) && t < |s.threads|
    ensures SegmentsLeft(s, t) >= 0
  {
    hide HoldOk, RetiredOk, ScanOk, LinkersDiffer, LocalOk;
  }

  lemma {:induction false} Above(addrs: set<Addr>) returns (a: Addr)
    ensures a != NULL && forall b :: b in addrs ==> b < a
    decreases |addrs|
  {
    if addrs == {} {
      a := 1;
    } else {
      var b :| b in addrs;
      var c := Above(addrs - {b});
      assert forall x :: x in addrs ==> x == b || x in addrs - {b};
      a := if c > b then c else b + 1;
    }
  }

  /** A choice with which `malloc` succeeds. */
  lemma Granted(s: State) returns (c: Choice)
    ensures c.ok && c.addr != NULL && c.addr !in s.heap && !c.op.Push?
  {
    var addr := Above(s.heap.Keys);
    c := Choice(Pop, true, addr);
  }

  lemma OneMoreStep(n: nat, a: Addr, schedule: seq<(nat, Choice)>, t: nat, c: Choice)
    requires a != NULL && t < n && Schedule(n, schedule)
    ensures Schedule(n, schedule + [(t, c)]) && Defined(Run(n, a, schedule), t)
    ensures Run(n, a, schedule + [(t, c)]) == Step(Run(n, a, schedule), t, c)
  {
    hide Step, Defined;
    MemorySafety(n, a, schedule);
    assert (schedule + [(t, c)])[..|schedule|] == schedule;
  }

  /** From wherever a thread is in a call, and whatever state the other threads have left the queue in, the call gets
      to its return if the thread runs alone and `malloc` succeeds: no thread waits for another. */
  lemma {:induction false} ReturnsAlone(n: nat, a: Addr, schedule: seq<(nat, Choice)>, t: nat)
    returns (alone: seq<(nat, Choice)>)
    requires a != NULL && t < n && Schedule(n, schedule) && |Run(n, a, schedule).threads| == n
    requires Run(n, a, schedule).threads[t].pc != Idle
    ensures forall i :: 0 <= i < |alone| ==> alone[i].0 == t && !alone[i].1.op.Push?
    ensures |Run(n, a, schedule + alone).threads| == n && Returning(Run(n, a, schedule + alone).threads[t].pc)
    decreases if Current(Run(n, a, schedule), t) then 0 else 1, SegmentsLeft(Run(n, a, schedule), t),
              SlotsLeft(Run(n, a, schedule), t),
              Rank(Run(n, a, schedule).threads[t].pc, Current(Run(n, a, schedule), t)),
              NodesLeft(Run(n, a, schedule), t), PointersLeft(Run(n, a, schedule), t)
  {
    hide Run, Current, SegmentsLeft, SlotsLeft, Rank, NodesLeft, PointersLeft, Step, MemInv, Defined, SafeStep;
    var s := Run(n, a, schedule);
    MemorySafety(n, a, schedule);
    SegmentsCounted(s, t);
    alone := [];
    if Returning(s.threads[t].pc) {
      assert schedule + [] == schedule;
    } else {
      var c := Granted(s);
      var now := schedule + [(t, c)];
      OneMoreStep(n, a, schedule, t, c);
      MemorySafety(n, a, now);
      SegmentsCounted(Run(n, a, now), t);
      StepNearer(s, t, c);
      var rest := ReturnsAlone(n, a, now, t);
      alone := [(t, c)] + rest;
      assert schedule + alone == now + rest;
    }
  }
}
