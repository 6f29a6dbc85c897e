/** What the queue of BLQueue.c guarantees in every run. */
module BLQueue {
  import opened BLQueueSteps

  /** The state after a schedule; a thread whose next step would go wrong makes no step. */
  function Run(n: nat, a: Addr, schedule: seq<(nat, Choice)>): State {
    if |schedule| == 0 then Init(n, a)
    else
      var s := Run(n, a, schedule[..|schedule| - 1]);
      var (t, c) := schedule[|schedule| - 1];
      if Defined(s, t) then Step(s, t, c) else s
  }

  predicate PushesValues(schedule: seq<(nat, Choice)>) {
    forall i :: 0 <= i < |schedule| ==> schedule[i].1.op.Push? ==> IsValue(schedule[i].1.op.item)
  }

  lemma InitInv(n: nat, a: Addr)
    requires a != NULL
    ensures Inv(Init(n, a))
  {
    var s := Init(n, a);
    assert MemInv(s);
    assert NodeOk(s, a);
  }

  lemma StepThreads(s: State, t: nat, c: Choice)
    requires Defined(s, t)
    ensures |Step(s, t, c).threads| == |s.threads|
  {
    if s.threads[t].pc.Scan? || s.threads[t].pc.Retire? || s.threads[t].pc.Validate? || s.threads[t].pc.Idle? {
      hide DoPushFetch, DoPushCas, DoPushNew, DoPushSwing, DoPushLink, DoPopFetch, DoPopExchange, DoPopNext, DoPopSwing;
    } else {
      hide DoScan, DoRetire, DoValidate, DoIdle;
    }
  }

  /** In every interleaving of any number of threads, with addresses reused after `free`, no thread ever
      reads or writes a node that is not allocated, and nothing is freed twice. */
  lemma {:induction false} MemorySafety(n: nat, a: Addr, schedule: seq<(nat, Choice)>)
    requires a != NULL
    ensures var s := Run(n, a, schedule);
            MemInv(s) && |s.threads| == n && forall t :: 0 <= t < n ==> Defined(s, t) && SafeStep(s, t)
  {
    hide MemInv, Step, SafeStep;
    if |schedule| == 0 {
      InitInv(n, a);
    } else {
      MemorySafety(n, a, schedule[..|schedule| - 1]);
      var s := Run(n, a, schedule[..|schedule| - 1]);
      var (t, c) := schedule[|schedule| - 1];
      if Defined(s, t) {
        StepThreads(s, t, c);
        MemStep(s, t, c);
      }
    }
    var s := Run(n, a, schedule);
    forall t | 0 <= t < n ensures Defined(s, t) && SafeStep(s, t) {
      MemInvDefined(s, t);
    }
  }

  lemma {:induction false} RunInv(n: nat, a: Addr, schedule: seq<(nat, Choice)>)
    requires a != NULL && PushesValues(schedule)
    ensures Inv(Run(n, a, schedule)) && |Run(n, a, schedule).threads| == n
  {
    hide MemInv, SlotInv, Step;
    if |schedule| == 0 {
      InitInv(n, a);
    } else {
      RunInv(n, a, schedule[..|schedule| - 1]);
      var s := Run(n, a, schedule[..|schedule| - 1]);
      var (t, c) := schedule[|schedule| - 1];
      if Defined(s, t) {
        StepThreads(s, t, c);
        MemStep(s, t, c);
        SlotStep(s, t, c);
      }
    }
  }

  /** Where a stored value is that no pop has taken yet. */
  lemma ValueInSlot(s: State, x: Slot)
    requires Inv(s) && x in s.log && x !in s.gone
    ensures x.serial < |s.order| && x.idx < BUFFER_SIZE
    ensures var node := s.order[x.serial];
            && node in s.heap && |s.heap[node].buffer| == BUFFER_SIZE
            && s.heap[node].buffer[x.idx] == s.log[x].value
            && (Pos(x) < |s.claimedAt| ==> Claimed(s, node, x.idx))
            && (Pos(x) >= |s.claimedAt| ==> s.heap[node].role == Chain && x.serial >= s.first)
  {
    var node := s.order[x.serial];
    assert NodeOk(s, node) && SlotOk(s, node, x.idx);
    hide LocalOk, PcOk, HoldOk, RetiredOk, ScanOk, LinkersDiffer, OwnersDiffer, LogOrdered;
  }

  lemma GoneWasLogged(s: State, x: Slot)
    requires Inv(s) && x in s.gone
    ensures x in s.log && s.gone[x] == s.log[x].value
  {
    hide MemInv;
  }

  /** Nothing is lost, duplicated or invented, although drained nodes are freed and their memory reused:
      a value taken from a slot is the value some push stored there; a stored value that has not been taken
      sits in its slot of an allocated node, and either no pop has claimed that slot yet, or exactly the pop
      that claimed it is about to take the value. */
  lemma Conservation(n: nat, a: Addr, schedule: seq<(nat, Choice)>)
    requires a != NULL && PushesValues(schedule)
    ensures var s := Run(n, a, schedule);
            && (forall x :: x in s.gone ==> x in s.log && s.gone[x] == s.log[x].value)
            && (forall x :: x in s.log && x !in s.gone ==>
                  && x.serial < |s.order| && x.idx < BUFFER_SIZE
                  && var node := s.order[x.serial];
                     node in s.heap && x.idx < |s.heap[node].buffer| && s.heap[node].buffer[x.idx] == s.log[x].value
                     && (Pos(x) < |s.claimedAt| ==> Claimed(s, node, x.idx))
                     && (Pos(x) >= |s.claimedAt| ==> s.heap[node].role == Chain && x.serial >= s.first))
  {
    hide Inv, Run;
    RunInv(n, a, schedule);
    var s := Run(n, a, schedule);
    forall x | x in s.gone ensures x in s.log && s.gone[x] == s.log[x].value {
      GoneWasLogged(s, x);
    }
    forall x | x in s.log && x !in s.gone
      ensures x.serial < |s.order| && x.idx < BUFFER_SIZE
      ensures var node := s.order[x.serial];
              && node in s.heap && |s.heap[node].buffer| == BUFFER_SIZE
              && s.heap[node].buffer[x.idx] == s.log[x].value
              && (Pos(x) < |s.claimedAt| ==> Claimed(s, node, x.idx))
              && (Pos(x) >= |s.claimedAt| ==> s.heap[node].role == Chain && x.serial >= s.first)
    {
      ValueInSlot(s, x);
    }
  }

  /** First in, first out: if one push stored its value before another push was even invoked, then a pop that
      took the second value claimed its slot after some pop had claimed the slot of the first value. */
  lemma FirstInFirstOut(n: nat, a: Addr, schedule: seq<(nat, Choice)>, x: Slot, y: Slot)
    requires a != NULL && PushesValues(schedule)
    requires var s := Run(n, a, schedule);
             x in s.log && y in s.log && s.log[x].done < s.log[y].began && y in s.gone
    ensures var s := Run(n, a, schedule);
            Pos(x) < Pos(y) < |s.claimedAt| && s.claimedAt[Pos(x)] < s.claimedAt[Pos(y)]
  {
    RunInv(n, a, schedule);
  }

  lemma NextPopClaim(s: State, t: nat)
    requires Inv(s) && t < |s.threads| && s.threads[t].pc.PopFetch?
    ensures var p := s.threads[t].pc.p;
            p in s.heap && (s.heap[p].popIdx < BUFFER_SIZE ==>
              |s.claimedAt| == Pos(Slot(s.heap[p].serial, s.heap[p].popIdx)))
  {
    assert LocalOk(s, t) && PcOk(s, t) && NodeOk(s, s.threads[t].pc.p);
  }

  lemma NextPushClaim(s: State, t: nat)
    requires Inv(s) && t < |s.threads| && s.threads[t].pc.PushFetch?
    ensures var p := s.threads[t].pc.p;
            p in s.heap && (s.heap[p].pushIdx < BUFFER_SIZE ==>
              s.pushClaims == Pos(Slot(s.heap[p].serial, s.heap[p].pushIdx)))
  {
    assert LocalOk(s, t) && NodeOk(s, s.threads[t].pc.p);
  }

  /** Pops claim slots 0, 1, 2, ... of the chain one after the other and never skip an unclaimed one; pushes
      are given slots in the same order. */
  lemma ClaimsAreConsecutive(n: nat, a: Addr, schedule: seq<(nat, Choice)>, t: nat)
    requires a != NULL && PushesValues(schedule) && t < n
    ensures var s := Run(n, a, schedule);
            && |s.threads| == n
            && match s.threads[t].pc
               case PopFetch(p) =>
                 p in s.heap && (s.heap[p].popIdx < BUFFER_SIZE ==>
                   |s.claimedAt| == Pos(Slot(s.heap[p].serial, s.heap[p].popIdx)))
               case PushFetch(_, p) =>
                 p in s.heap && (s.heap[p].pushIdx < BUFFER_SIZE ==>
                   s.pushClaims == Pos(Slot(s.heap[p].serial, s.heap[p].pushIdx)))
               case _ => true
  {
    RunInv(n, a, schedule);
    var s := Run(n, a, schedule);
    match s.threads[t].pc
    case PopFetch(p) => NextPopClaim(s, t);
    case PushFetch(_, p) => NextPushClaim(s, t);
    case _ =>
  }

  /** A pop that takes a value takes one that was stored in that slot and that no other pop has taken. */
  lemma PopTakesStoredValue(n: nat, a: Addr, schedule: seq<(nat, Choice)>, t: nat)
    requires a != NULL && PushesValues(schedule) && t < n
    requires |Run(n, a, schedule).threads| == n && Run(n, a, schedule).threads[t].pc.PopExchange?
    ensures var s := Run(n, a, schedule);
            var pc := s.threads[t].pc;
            && pc.p in s.heap && pc.idx < |s.heap[pc.p].buffer|
            && var x := Slot(s.heap[pc.p].serial, pc.idx);
               var v := s.heap[pc.p].buffer[pc.idx];
               v != EMPTY_VALUE ==> x in s.log && x !in s.gone && v == s.log[x].value
  {
    RunInv(n, a, schedule);
    var s := Run(n, a, schedule);
    var pc := s.threads[t].pc;
    assert PcOk(s, t) && LocalOk(s, t) && NodeOk(s, pc.p) && SlotOk(s, pc.p, pc.idx);
  }

  // ---------------------------------------------------------------------------------------------
  // What a call has done when it returns
  // ---------------------------------------------------------------------------------------------

  /** What a step does to the slots: nothing, or a value is stored in one, or the value in one is taken. */
  datatype Effect = Nothing | Store(x: Slot, item: int) | Take(x: Slot, item: int)

  function EffectOf(s: State, t: nat): Effect
    requires Defined(s, t)
  {
    match s.threads[t].pc
    case PushCas(item, p, idx) =>
      if s.heap[p].buffer[idx] == EMPTY_VALUE then Store(Slot(s.heap[p].serial, idx), item) else Nothing
    case PushSwing(item, p, _) => if s.tail == p then Store(Slot(|s.order|, 0), item) else Nothing
    case PopExchange(p, idx) =>
      if s.heap[p].buffer[idx] == EMPTY_VALUE then Nothing
      else Take(Slot(s.heap[p].serial, idx), s.heap[p].buffer[idx])
    case _ => Nothing
  }

  /** The effect of a step in terms of the two histories that `Conservation` ties to the memory: a store adds one new
      entry for a slot never used before, a take adds the value stored there for a slot from which nothing has been
      taken, and no other step changes them. */
  lemma StepEffect(s: State, t: nat, c: Choice)
    requires Inv(s) && Defined(s, t)
    ensures var s' := Step(s, t, c);
            match EffectOf(s, t)
            case Nothing => s'.log == s.log && s'.gone == s.gone
            case Store(x, item) =>
              x !in s.log && s'.log == s.log[x := Put(item, s.threads[t].began, s.now)] && s'.gone == s.gone
            case Take(x, item) =>
              && x in s.log && x !in s.gone && s.log[x].value == item
              && s'.log == s.log && s'.gone == s.gone[x := item]
  {
    hide Inv;
    match s.threads[t].pc
    case PushCas(item, p, idx) => CasEffect(s, t, c);
    case PushSwing(item, p, node) => SwingEffect(s, t, c);
    case PopExchange(p, idx) => ExchangeEffect(s, t, c);
    case _ => NoEffect(s, t, c);
  }

  lemma CasEffect(s: State, t: nat, c: Choice)
    requires Inv(s) && Defined(s, t) && s.threads[t].pc.PushCas?
    ensures var s' := Step(s, t, c); var e := EffectOf(s, t);
            if e == Nothing then s'.log == s.log && s'.gone == s.gone
            else
              && e.Store? && e.x !in s.log && s'.gone == s.gone
              && s'.log == s.log[e.x := Put(e.item, s.threads[t].began, s.now)]
  {
    hide HoldOk, RetiredOk, ScanOk, LinkersDiffer, OwnersDiffer, LogOk, LogOrdered, ClaimsOk;
    var p, idx := s.threads[t].pc.p, s.threads[t].pc.idx;
    assert LocalOk(s, t) && PcOk(s, t);
    assert !s.heap[p].role.Private? by { HeldIsPublic(s, t); }
    assert NodeOk(s, p) && SlotOk(s, p, idx);
  }

  lemma HeldIsPublic(s: State, t: nat)
    requires Inv(s) && Defined(s, t) && Held(s.threads[t].pc) != NULL
    ensures Held(s.threads[t].pc) in s.heap && !s.heap[Held(s.threads[t].pc)].role.Private?
  {
    hide SlotInv, LocalOk, RetiredOk, ScanOk, LinkersDiffer;
  }

  lemma SwingEffect(s: State, t: nat, c: Choice)
    requires Inv(s) && Defined(s, t) && s.threads[t].pc.PushSwing?
    ensures var s' := Step(s, t, c); var e := EffectOf(s, t);
            if e == Nothing then s'.log == s.log && s'.gone == s.gone
            else
              && e.Store? && e.x !in s.log && s'.gone == s.gone
              && s'.log == s.log[e.x := Put(e.item, s.threads[t].began, s.now)]
  {
    hide MemInv, OwnersDiffer, LogOrdered, ClaimsOk, NodeOk, PcOk;
  }

  lemma ExchangeEffect(s: State, t: nat, c: Choice)
    requires Inv(s) && Defined(s, t) && s.threads[t].pc.PopExchange?
    ensures var s' := Step(s, t, c); var e := EffectOf(s, t);
            if e == Nothing then s'.log == s.log && s'.gone == s.gone
            else
              && e.Take? && e.x in s.log && e.x !in s.gone && s.log[e.x].value == e.item
              && s'.log == s.log && s'.gone == s.gone[e.x := e.item]
  {
    hide HoldOk, RetiredOk, ScanOk, LinkersDiffer, OwnersDiffer, LogOk, LogOrdered, ClaimsOk;
    var p, idx := s.threads[t].pc.p, s.threads[t].pc.idx;
    assert LocalOk(s, t) && PcOk(s, t);
    assert !s.heap[p].role.Private? by { HeldIsPublic(s, t); }
    assert NodeOk(s, p) && SlotOk(s, p, idx);
  }

  lemma NoEffect(s: State, t: nat, c: Choice)
    requires Defined(s, t)
    requires var pc := s.threads[t].pc; !pc.PushCas? && !pc.PushSwing? && !pc.PopExchange?
    ensures EffectOf(s, t) == Nothing && Step(s, t, c).log == s.log && Step(s, t, c).gone == s.gone
  {
    hide DoPushCas, DoPushSwing, DoPopExchange;
  }

  /** The last call of a thread: which one, since when, and its effects so far. */
  datatype Record = Record(call: Op, began: nat, effects: seq<Effect>)

  function NextRecord(s: State, t: nat, c: Choice, h: Record): (h': Record)
    requires Defined(s, t)
    ensures h'.began == if s.threads[t].pc == Idle then s.now else h.began
  {
    if s.threads[t].pc == Idle then Record(c.op, s.now, [])
    else if EffectOf(s, t) == Nothing then h
    else h.(effects := h.effects + [EffectOf(s, t)])
  }

  function History(n: nat, a: Addr, schedule: seq<(nat, Choice)>, t: nat): Record {
    if |schedule| == 0 then Record(Pop, 0, [])
    else
      var before := schedule[..|schedule| - 1];
      var (u, c) := schedule[|schedule| - 1];
      if u == t && Defined(Run(n, a, before), t) then NextRecord(Run(n, a, before), t, c, History(n, a, before, t))
      else History(n, a, before, t)
  }

  /** The operation that a thread is executing, as far as the program counter tells. */
  function OpOf(pc: PC): Op {
    match pc
    case Load(op) => op
    case Publish(op, _) => op
    case Validate(op, _) => op
    case PushFetch(item, _) => Push(item)
    case PushCas(item, _, _) => Push(item)
    case PushNew(item, _) => Push(item)
    case PushSwing(item, _, _) => Push(item)
    case PushFree(item, _) => Push(item)
    case Clear(Retry(op)) => op
    case ReadPush(_) => IsEmpty
    case ReadPop(_, _) => IsEmpty
    case ReadNext(_, _) => IsEmpty
    case _ => Pop
  }

  predicate HasStored(h: Record) {
    h.call.Push? && |h.effects| == 1 && h.effects[0].Store? && h.effects[0].item == h.call.item
  }

  predicate HasTaken(h: Record, v: int) {
    h.call.Pop? && |h.effects| == 1 && h.effects[0].Take? && h.effects[0].item == v
  }

  /** What a call has done by the time it is where it is. */
  predicate RecordOk(th: Thread, h: Record) {
    th.pc != Idle ==>
      && th.began == h.began
      && match th.pc
         case PushLink(_, _) => HasStored(h)
         case Clear(Return(v)) =>
           || HasStored(h) || HasTaken(h, v)
           || (h.effects == [] && if h.call.Pop? then v == EMPTY_VALUE else h.call.IsEmpty? && (v == 0 || v == 1))
         case pc => h.effects == [] && OpOf(pc) == h.call
  }

  predicate InPush(pc: PC) {
    pc.PushFetch? || pc.PushCas? || pc.PushNew? || pc.PushSwing? || pc.PushLink? || pc.PushFree?
  }

  predicate InPop(pc: PC) {
    pc.PopFetch? || pc.PopExchange? || pc.PopNext? || pc.PopSwing? || pc.Retire? || pc.Scan?
  }

  /** A step of thread `t` is one tick of the clock and leaves the other threads where they are. */
  predicate OneTick(s: State, s': State, t: nat) {
    && |s'.threads| == |s.threads| && s'.now == s.now + 1
    && forall u :: 0 <= u < |s.threads| && u != t ==> s'.threads[u] == s.threads[u]
  }

  lemma PushRecord(s: State, t: nat, c: Choice, h: Record)
    requires Defined(s, t) && InPush(s.threads[t].pc)
    ensures OneTick(s, Step(s, t, c), t)
    ensures RecordOk(s.threads[t], h) ==> RecordOk(Step(s, t, c).threads[t], NextRecord(s, t, c, h))
  {
    hide DoRetire, DoScan, DoClear, DoValidate, DoIdle, DoPopFetch, DoPopExchange, DoPopNext, DoPopSwing;
  }

  lemma PopRecord(s: State, t: nat, c: Choice, h: Record)
    requires Defined(s, t) && InPop(s.threads[t].pc) && !s.threads[t].pc.Retire? && !s.threads[t].pc.Scan?
    ensures OneTick(s, Step(s, t, c), t)
    ensures RecordOk(s.threads[t], h) ==> RecordOk(Step(s, t, c).threads[t], NextRecord(s, t, c, h))
  {
    hide DoRetire, DoScan, DoClear, DoValidate, DoIdle, DoPushFetch, DoPushCas, DoPushNew, DoPushSwing, DoPushLink;
  }

  lemma RetireRecord(s: State, t: nat, c: Choice, h: Record)
    requires Defined(s, t) && (s.threads[t].pc.Retire? || s.threads[t].pc.Scan?)
    ensures OneTick(s, Step(s, t, c), t)
    ensures RecordOk(s.threads[t], h) ==> RecordOk(Step(s, t, c).threads[t], NextRecord(s, t, c, h))
  {
    hide DoClear, DoValidate, DoIdle, DoPushFetch, DoPushCas, DoPushNew, DoPushSwing, DoPushLink,
         DoPopFetch, DoPopExchange, DoPopNext, DoPopSwing;
  }

  lemma OtherRecord(s: State, t: nat, c: Choice, h: Record)
    requires Defined(s, t) && !InPush(s.threads[t].pc) && !InPop(s.threads[t].pc)
    ensures OneTick(s, Step(s, t, c), t)
    ensures RecordOk(s.threads[t], h) ==> RecordOk(Step(s, t, c).threads[t], NextRecord(s, t, c, h))
  {
    hide DoRetire, DoScan, DoPushFetch, DoPushCas, DoPushNew, DoPushSwing, DoPushLink,
         DoPopFetch, DoPopExchange, DoPopNext, DoPopSwing;
  }

  /** A schedule only names existing threads. */
  predicate Schedule(n: nat, schedule: seq<(nat, Choice)>) {
    forall i :: 0 <= i < |schedule| ==> schedule[i].0 < n
  }

  lemma {:induction false} RecordsAreRight(n: nat, a: Addr, schedule: seq<(nat, Choice)>, t: nat)
    requires a != NULL && t < n && Schedule(n, schedule)
    ensures |Run(n, a, schedule).threads| == n && Run(n, a, schedule).now == |schedule|
    ensures Defined(Run(n, a, schedule), t) && History(n, a, schedule, t).began <= |schedule|
    ensures RecordOk(Run(n, a, schedule).threads[t], History(n, a, schedule, t))
  {
    hide RecordOk, Step, NextRecord, MemInv, Defined, SafeStep, OneTick;
    MemorySafety(n, a, schedule);
    if |schedule| > 0 {
      var before := schedule[..|schedule| - 1];
      RecordsAreRight(n, a, before, t);
      MemorySafety(n, a, before);
      StepRecord(Run(n, a, before), schedule[|schedule| - 1].0, schedule[|schedule| - 1].1, t,
          History(n, a, before, t));
    } else {
      StartRecord(n, a, t);
    }
  }

  lemma StartRecord(n: nat, a: Addr, t: nat)
    requires t < n
    ensures RecordOk(Init(n, a).threads[t], Record(Pop, 0, []))
  {
  }

  lemma StepRecord(s: State, u: nat, c: Choice, t: nat, h: Record)
    requires Defined(s, u) && t < |s.threads| && RecordOk(s.threads[t], h)
    ensures var s' := Step(s, u, c); |s'.threads| == |s.threads| && s'.now == s.now + 1
    ensures RecordOk(Step(s, u, c).threads[t], if u == t then NextRecord(s, t, c, h) else h)
  {
    hide RecordOk, Step, NextRecord;
    var pc := s.threads[u].pc;
    if InPush(pc) {
      PushRecord(s, u, c, h);
    } else if pc.Retire? || pc.Scan? {
      RetireRecord(s, u, c, h);
    } else if InPop(pc) {
      PopRecord(s, u, c, h);
    } else {
      OtherRecord(s, u, c, h);
    }
  }

  /** At the moment `seen`, thread `t` was about to load the field `next` of a segment whose slots had all been handed
      out to pops, and found it null. */
  ghost predicate NullThen(n: nat, a: Addr, schedule: seq<(nat, Choice)>, t: nat, began: nat, seen: nat) {
    && began <= seen < |schedule|
    && var s := Run(n, a, schedule[..seen]);
       && t < |s.threads| && s.threads[t].pc.PopNext?
       && var p := s.threads[t].pc.p;
          p in s.heap && s.heap[p].next == NULL && s.heap[p].popIdx >= BUFFER_SIZE
  }

  lemma StillNullThen(n: nat, a: Addr, schedule: seq<(nat, Choice)>, t: nat, began: nat, seen: nat)
    requires |schedule| > 0 && NullThen(n, a, schedule[..|schedule| - 1], t, began, seen)
    ensures NullThen(n, a, schedule, t, began, seen)
  {
    hide Run;
    assert schedule[..seen] == schedule[..|schedule| - 1][..seen];
  }

  lemma ReturnsAfterNull(s: State, t: nat, c: Choice, h: Record)
    requires Defined(s, t) && RecordOk(s.threads[t], h) && |Step(s, t, c).threads| == |s.threads|
    requires var pc := Step(s, t, c).threads[t].pc; pc.Clear? && pc.after.Return?
    requires NextRecord(s, t, c, h).call == Pop && NextRecord(s, t, c, h).effects == []
    ensures s.threads[t].pc.PopNext? && s.threads[t].pc.p in s.heap && s.heap[s.threads[t].pc.p].next == NULL
    ensures NextRecord(s, t, c, h) == h && s.threads[t].began == h.began
  {
    hide DoPushFetch, DoPushCas, DoPushNew, DoPushSwing, DoPushLink;
  }

  lemma DrainedAtNull(s: State, t: nat)
    requires Inv(s) && t < |s.threads| && s.threads[t].pc.PopNext? && s.threads[t].pc.p in s.heap
    ensures s.heap[s.threads[t].pc.p].popIdx >= BUFFER_SIZE
  {
    hide MemInv, NodeOk, LogOk, LogOrdered, ClaimsOk, OwnersDiffer;
    assert PcOk(s, t);
  }

  /** A pop returns without an effect only after it has loaded a null `next`. */
  lemma {:induction false} ReturnsEmpty(n: nat, a: Addr, schedule: seq<(nat, Choice)>, t: nat)
    requires a != NULL && t < n && Schedule(n, schedule) && PushesValues(schedule)
    requires |Run(n, a, schedule).threads| == n
    requires var pc := Run(n, a, schedule).threads[t].pc; pc.Clear? && pc.after.Return?
    requires History(n, a, schedule, t).call == Pop && History(n, a, schedule, t).effects == []
    ensures exists seen :: NullThen(n, a, schedule, t, History(n, a, schedule, t).began, seen)
  {
    hide RecordOk, Step, NextRecord, Inv, NullThen;
    assert |schedule| > 0;
    var before := schedule[..|schedule| - 1];
    RecordsAreRight(n, a, before, t);
    RunInv(n, a, before);
    var s, h := Run(n, a, before), History(n, a, before, t);
    var (u, c) := schedule[|schedule| - 1];
    RecordsAreRight(n, a, before, u);
    StepRecord(s, u, c, t, h);
    if u == t {
      ReturnsAfterNull(s, t, c, h);
      DrainedAtNull(s, t);
      NullNow(n, a, schedule, t, h);
    } else {
      OtherThreadsStay(s, u, c, t);
      ReturnsEmpty(n, a, before, t);
      var seen :| NullThen(n, a, before, t, h.began, seen);
      StillNullThen(n, a, schedule, t, h.began, seen);
    }
  }

  lemma OtherThreadsStay(s: State, u: nat, c: Choice, t: nat)
    requires Defined(s, u) && t < |s.threads| && t != u
    ensures |Step(s, u, c).threads| == |s.threads| && Step(s, u, c).threads[t] == s.threads[t]
  {
    hide Step;
    var pc := s.threads[u].pc;
    if InPush(pc) {
      PushRecord(s, u, c, Record(Pop, 0, []));
    } else if pc.Retire? || pc.Scan? {
      RetireRecord(s, u, c, Record(Pop, 0, []));
    } else if InPop(pc) {
      PopRecord(s, u, c, Record(Pop, 0, []));
    } else {
      OtherRecord(s, u, c, Record(Pop, 0, []));
    }
  }

  lemma NullNow(n: nat, a: Addr, schedule: seq<(nat, Choice)>, t: nat, h: Record)
    requires |schedule| > 0
    requires var s := Run(n, a, schedule[..|schedule| - 1]);
             && t < |s.threads| && s.threads[t].pc.PopNext? && s.now == |schedule| - 1
             && s.threads[t].pc.p in s.heap && s.heap[s.threads[t].pc.p].next == NULL
             && s.heap[s.threads[t].pc.p].popIdx >= BUFFER_SIZE
    requires h.began <= |schedule| - 1
    ensures NullThen(n, a, schedule, t, h.began, |schedule| - 1)
  {
    hide Run;
  }

  /** When a call returns, a push has stored its argument in one slot, once; a pop has taken the value it returns from
      one slot, once, or it returns EMPTY, has taken nothing, and found a null `next` behind a drained segment; and
      a test for emptiness has changed no slot. */
  lemma CallOutcomes(n: nat, a: Addr, schedule: seq<(nat, Choice)>, t: nat)
    requires a != NULL && t < n && Schedule(n, schedule) && PushesValues(schedule)
    requires |Run(n, a, schedule).threads| == n
    requires var pc := Run(n, a, schedule).threads[t].pc; pc.Clear? && pc.after.Return?
    ensures var h, v := History(n, a, schedule, t), Run(n, a, schedule).threads[t].pc.after.result;
            match h.call
            case Push(item) => exists x :: h.effects == [Store(x, item)]
            case Pop =>
              || (exists x :: h.effects == [Take(x, v)])
              || (h.effects == [] && v == EMPTY_VALUE && exists seen :: NullThen(n, a, schedule, t, h.began, seen))
            case IsEmpty => h.effects == [] && (v == 0 || v == 1)
  {
    hide Run, History, NullThen;
    RecordsAreRight(n, a, schedule, t);
    var h, v := History(n, a, schedule, t), Run(n, a, schedule).threads[t].pc.after.result;
    if h.call == Pop && h.effects == [] {
      ReturnsEmpty(n, a, schedule, t);
    } else if HasStored(h) {
      assert h.effects == [Store(h.effects[0].x, h.call.item)];
    } else if HasTaken(h, v) {
      assert h.effects == [Take(h.effects[0].x, v)];
    }
  }

  /** A call that has not returned has had at most one effect, and a thread only leaves a call by returning. */
  lemma NoOtherEffects(n: nat, a: Addr, schedule: seq<(nat, Choice)>, t: nat, c: Choice)
    requires a != NULL && t < n && Schedule(n, schedule)
    requires |Run(n, a, schedule).threads| == n && Run(n, a, schedule).threads[t].pc != Idle
    ensures |History(n, a, schedule, t).effects| <= 1
    ensures var s := Run(n, a, schedule);
            && Defined(s, t) && |Step(s, t, c).threads| == n
            && (Step(s, t, c).threads[t].pc == Idle ==> s.threads[t].pc.Clear? && s.threads[t].pc.after.Return?)
  {
    hide Run, History, Step;
    RecordsAreRight(n, a, schedule, t);
    StepRecord(Run(n, a, schedule), t, c, t, History(n, a, schedule, t));
    LeavesByReturning(Run(n, a, schedule), t, c);
  }

  lemma LeavesByReturning(s: State, t: nat, c: Choice)
    requires Defined(s, t) && s.threads[t].pc != Idle && |Step(s, t, c).threads| == |s.threads|
    ensures Step(s, t, c).threads[t].pc == Idle ==> s.threads[t].pc.Clear? && s.threads[t].pc.after.Return?
  {
  }
}
