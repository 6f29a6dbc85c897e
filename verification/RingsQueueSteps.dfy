/** The two-lock queue of RingsQueue.c: a chain of single-producer, single-consumer rings.

    Any number of threads run `RingsQueue_push` and `RingsQueue_pop`; one transition is one lock, unlock, load,
    store, fetch-and-add, `malloc` or `free`.  Freed addresses may be handed out again.

    The invariant says what the rings, the locks and their holders know; there is one lemma for each kind of step.
    Module RingsQueue has the results about all runs. */
module RingsQueueSteps {

  type Addr = nat
  const NULL: Addr := 0
  const RING_SIZE: nat := 1024
  const EMPTY_VALUE: int := 0

  /** History: a node belongs to its pusher, then to the chain, then to the popper that will free it. */
  datatype Role = Private | Chain | Retired

  /** `serial`, `base` (how many values were pushed before this node was linked) and `role` are history. */
  datatype Node = Node(next: Addr, buffer: seq<int>, pushIdx: nat, popIdx: nat, serial: nat, base: nat, role: Role)

  /** History: when a pop loaded `next`, and whether the queue was empty at that moment. */
  datatype Seen = Seen(at: nat, empty: bool)

  /** A program counter names the next operation and carries the local variables. */
  datatype PC =
    | Idle
    | PushLock(item: int)
    | PushTail(item: int)
    | PushLoadPush(item: int, tail: Addr)
    | PushLoadPop(item: int, tail: Addr, pushIdx: nat)
    | PushWrite(item: int, tail: Addr, pushIdx: nat)
    | PushAdd(item: int, tail: Addr)
    | PushNew(item: int, tail: Addr)
    | PushLink(item: int, tail: Addr, node: Addr)
    | PushSetTail(node: Addr)
    | PushUnlock
    | PopLock
    | PopHead
    | PopNext(head: Addr)
    | PopLoadPop(head: Addr, next: Addr, seen: Seen)
    | PopLoadPush(head: Addr, next: Addr, popIdx: nat, seen: Seen)
    | PopEmpty(seen: Seen)
    | PopMove(head: Addr, next: Addr)
    | PopFree(head: Addr)
    | PopRead(head: Addr, popIdx: nat)
    | PopAdd(head: Addr, item: int)
    | PopUnlock(item: int)

  datatype Thread = Thread(pc: PC, began: nat)

  datatype Holder = Nobody | By(t: nat)

  /** `order`, `first`, `pushed`, `popped` and `now` are history. */
  datatype State = State(
    heap: map<Addr, Node>, head: Addr, tail: Addr, pushMtx: Holder, popMtx: Holder, threads: seq<Thread>,
    order: seq<Addr>, first: nat, pushed: seq<int>, popped: seq<int>, now: nat)

  datatype Op = Push(item: int) | Pop

  /** The operation an idle thread starts, the address `malloc` returns and what the memory there contains. */
  datatype Choice = Choice(op: Op, addr: Addr, junk: int)

  function NewNode(junk: int): Node { Node(NULL, seq(RING_SIZE, i => junk), 0, 0, 0, 0, Private) }

  function Init(n: nat, a: Addr, junk: int): State {
    State(map[a := NewNode(junk).(role := Chain)], a, a, Nobody, Nobody, seq(n, i => Thread(Idle, 0)),
          [a], 0, [], [], 0)
  }

  function SetPc(s: State, t: nat, pc: PC): State
    requires t < |s.threads|
  {
    s.(threads := s.threads[t := s.threads[t].(pc := pc)], now := s.now + 1)
  }

  /** The node whose memory the next step of a thread reads, writes or frees, or NULL. */
  function Held(pc: PC): Addr {
    match pc
    case PushLoadPush(_, tail) => tail
    case PushLoadPop(_, tail, _) => tail
    case PushWrite(_, tail, _) => tail
    case PushAdd(_, tail) => tail
    case PushLink(_, tail, _) => tail
    case PopNext(head) => head
    case PopLoadPop(head, _, _) => head
    case PopLoadPush(head, _, _, _) => head
    case PopFree(head) => head
    case PopRead(head, _) => head
    case PopAdd(head, _) => head
    case _ => NULL
  }

  predicate Defined(s: State, t: nat) {
    && t < |s.threads|
    && var pc := s.threads[t].pc;
       && (Held(pc) != NULL ==> Held(pc) in s.heap)
       && match pc
          case PushLoadPush(_, tail) => tail in s.heap
          case PushLoadPop(_, tail, _) => tail in s.heap
          case PushWrite(_, tail, _) => tail in s.heap && |s.heap[tail].buffer| == RING_SIZE
          case PushAdd(_, tail) => tail in s.heap
          case PushLink(_, tail, node) => tail in s.heap && node in s.heap
          case PopNext(head) => head in s.heap
          case PopLoadPop(head, _, _) => head in s.heap
          case PopLoadPush(head, _, _, _) => head in s.heap
          case PopMove(head, _) => head in s.heap
          case PopFree(head) => head in s.heap
          case PopRead(head, _) => head in s.heap && |s.heap[head].buffer| == RING_SIZE
          case PopAdd(head, _) => head in s.heap
          case _ => true
  }

  function DoPushWrite(s: State, t: nat, item: int, tail: Addr, pushIdx: nat): State
    requires t < |s.threads| && tail in s.heap && |s.heap[tail].buffer| == RING_SIZE
  {
    var n := s.heap[tail];
    SetPc(s, t, PushAdd(item, tail)).(
      heap := s.heap[tail := n.(buffer := n.buffer[pushIdx % RING_SIZE := item])])
  }

  function DoPushAdd(s: State, t: nat, item: int, tail: Addr): State
    requires t < |s.threads| && tail in s.heap
  {
    var n := s.heap[tail];
    SetPc(s, t, PushUnlock).(heap := s.heap[tail := n.(pushIdx := n.pushIdx + 1)], pushed := s.pushed + [item])
  }

  function DoPushNew(s: State, t: nat, item: int, tail: Addr, c: Choice): State
    requires t < |s.threads|
  {
    if c.addr == NULL || c.addr in s.heap then s.(now := s.now + 1)
    else
      var n := NewNode(c.junk);
      SetPc(s, t, PushLink(item, tail, c.addr)).(
        heap := s.heap[c.addr := n.(buffer := n.buffer[0 := item], pushIdx := 1)])
  }

  function DoPushLink(s: State, t: nat, item: int, tail: Addr, node: Addr): State
    requires t < |s.threads| && tail in s.heap && node in s.heap
  {
    SetPc(s, t, PushSetTail(node)).(
      heap := s.heap[tail := s.heap[tail].(next := node)]
                    [node := s.heap[node].(role := Chain, serial := |s.order|, base := |s.pushed|)],
      order := s.order + [node], pushed := s.pushed + [item])
  }

  function DoPopLoadPush(s: State, t: nat, head: Addr, next: Addr, popIdx: nat, seen: Seen): State
    requires t < |s.threads| && head in s.heap
  {
    SetPc(s, t, if popIdx == s.heap[head].pushIdx then
                  if next == NULL then PopEmpty(seen) else PopMove(head, next)
                else PopRead(head, popIdx))
  }

  function DoPopMove(s: State, t: nat, head: Addr, next: Addr): State
    requires t < |s.threads| && head in s.heap
  {
    SetPc(s, t, PopFree(head)).(
      head := next, first := s.first + 1, heap := s.heap[head := s.heap[head].(role := Retired)])
  }

  function DoPopAdd(s: State, t: nat, head: Addr, item: int): State
    requires t < |s.threads| && head in s.heap
  {
    var n := s.heap[head];
    SetPc(s, t, PopUnlock(item)).(heap := s.heap[head := n.(popIdx := n.popIdx + 1)], popped := s.popped + [item])
  }

  function Start(s: State, t: nat, op: Op): State
    requires t < |s.threads|
  {
    var pc := if op.Push? then PushLock(op.item) else PopLock;
    s.(threads := s.threads[t := Thread(pc, s.now)], now := s.now + 1)
  }

  function Step(s: State, t: nat, c: Choice): State
    requires Defined(s, t)
  {
    match s.threads[t].pc
    case Idle => Start(s, t, c.op)
    case PushLock(item) =>
      if s.pushMtx == Nobody then SetPc(s, t, PushTail(item)).(pushMtx := By(t)) else s.(now := s.now + 1)
    case PushTail(item) => SetPc(s, t, PushLoadPush(item, s.tail))
    case PushLoadPush(item, tail) => SetPc(s, t, PushLoadPop(item, tail, s.heap[tail].pushIdx))
    case PushLoadPop(item, tail, pushIdx) =>
      SetPc(s, t, if pushIdx - s.heap[tail].popIdx < RING_SIZE then PushWrite(item, tail, pushIdx)
                  else PushNew(item, tail))
    case PushWrite(item, tail, pushIdx) => DoPushWrite(s, t, item, tail, pushIdx)
    case PushAdd(item, tail) => DoPushAdd(s, t, item, tail)
    case PushNew(item, tail) => DoPushNew(s, t, item, tail, c)
    case PushLink(item, tail, node) => DoPushLink(s, t, item, tail, node)
    case PushSetTail(node) => SetPc(s, t, PushUnlock).(tail := node)
    case PushUnlock => SetPc(s, t, Idle).(pushMtx := Nobody)
    case PopLock =>
      if s.popMtx == Nobody then SetPc(s, t, PopHead).(popMtx := By(t)) else s.(now := s.now + 1)
    case PopHead => SetPc(s, t, PopNext(s.head))
    case PopNext(head) => SetPc(s, t, PopLoadPop(head, s.heap[head].next, Seen(s.now, |s.pushed| == |s.popped|)))
    case PopLoadPop(head, next, seen) => SetPc(s, t, PopLoadPush(head, next, s.heap[head].popIdx, seen))
    case PopLoadPush(head, next, popIdx, seen) => DoPopLoadPush(s, t, head, next, popIdx, seen)
    case PopEmpty(_) => SetPc(s, t, PopUnlock(EMPTY_VALUE))
    case PopMove(head, next) => DoPopMove(s, t, head, next)
    case PopFree(head) => SetPc(s, t, PopHead).(heap := s.heap - {head})
    case PopRead(head, popIdx) => SetPc(s, t, PopAdd(head, s.heap[head].buffer[popIdx % RING_SIZE]))
    case PopAdd(head, item) => DoPopAdd(s, t, head, item)
    case PopUnlock(_) => SetPc(s, t, Idle).(popMtx := Nobody)
  }

  // ---------------------------------------------------------------------------------------------
  // The invariant
  // ---------------------------------------------------------------------------------------------

  function Last(s: State): Addr
    requires |s.order| > 0
  {
    s.order[|s.order| - 1]
  }

  ghost predicate NodeOk(s: State, k: nat)
    requires k < |s.order|
  {
    var a := s.order[k];
    && a in s.heap
    && var n := s.heap[a];
       && n.role == Chain && n.serial == k && |n.buffer| == RING_SIZE
       && n.popIdx <= n.pushIdx <= n.popIdx + RING_SIZE
       && n.base + n.pushIdx <= |s.pushed|
       && (k > s.first ==> n.popIdx == 0)
       && (forall i :: n.popIdx <= i < n.pushIdx ==> n.buffer[i % RING_SIZE] == s.pushed[n.base + i])
  }

  ghost predicate LinkOk(s: State, k: nat)
    requires k + 1 < |s.order| && NodeOk(s, k) && NodeOk(s, k + 1)
  {
    var n := s.heap[s.order[k]];
    && n.next == s.order[k + 1] && s.heap[s.order[k + 1]].base == n.base + n.pushIdx
    && n.pushIdx >= RING_SIZE
  }

  ghost predicate ChainOk(s: State) {
    && s.first < |s.order| && s.head == s.order[s.first] && NULL !in s.heap
    && (forall k :: s.first <= k < |s.order| ==> NodeOk(s, k))
    && NodeOk(s, s.first) && NodeOk(s, |s.order| - 1)
    && (forall k :: s.first <= k < |s.order| - 1 ==> LinkOk(s, k))
    && s.heap[Last(s)].next == NULL
    && |s.pushed| == s.heap[Last(s)].base + s.heap[Last(s)].pushIdx
    && |s.popped| == s.heap[s.head].base + s.heap[s.head].popIdx
    && |s.popped| <= |s.pushed| && s.popped == s.pushed[..|s.popped|]
  }

  predicate InPush(pc: PC) {
    pc.PushTail? || pc.PushLoadPush? || pc.PushLoadPop? || pc.PushWrite? || pc.PushAdd? || pc.PushNew?
    || pc.PushLink? || pc.PushSetTail? || pc.PushUnlock?
  }

  predicate InPop(pc: PC) {
    pc.PopHead? || pc.PopNext? || pc.PopLoadPop? || pc.PopLoadPush? || pc.PopEmpty? || pc.PopMove?
    || pc.PopFree? || pc.PopRead? || pc.PopAdd? || pc.PopUnlock?
  }

  ghost predicate LocksOk(s: State) {
    && (s.pushMtx.By? ==> s.pushMtx.t < |s.threads|) && (s.popMtx.By? ==> s.popMtx.t < |s.threads|)
    && forall t :: 0 <= t < |s.threads| ==>
         && (InPush(s.threads[t].pc) <==> s.pushMtx == By(t))
         && (InPop(s.threads[t].pc) <==> s.popMtx == By(t))
  }

  /** What the holder of the push lock, or nobody, knows. */
  ghost predicate PusherOk(s: State, pc: PC)
    requires ChainOk(s)
  {
    assert NodeOk(s, |s.order| - 1);
    var last := Last(s);
    match pc
    case PushLoadPush(_, tail) => tail == last == s.tail
    case PushLoadPop(_, tail, pushIdx) => tail == last == s.tail && pushIdx == s.heap[last].pushIdx
    case PushWrite(_, tail, pushIdx) =>
      tail == last == s.tail && pushIdx == s.heap[last].pushIdx && pushIdx < s.heap[last].popIdx + RING_SIZE
    case PushAdd(item, tail) =>
      tail == last == s.tail && s.heap[last].pushIdx < s.heap[last].popIdx + RING_SIZE
      && s.heap[last].buffer[s.heap[last].pushIdx % RING_SIZE] == item
    case PushNew(_, tail) => tail == last == s.tail && s.heap[last].pushIdx >= RING_SIZE
    case PushLink(item, tail, node) =>
      && tail == last == s.tail && node in s.heap && s.heap[node].role == Private && s.heap[node].next == NULL
      && s.heap[node].pushIdx == 1 && s.heap[node].popIdx == 0
      && |s.heap[node].buffer| == RING_SIZE && s.heap[node].buffer[0] == item
      && s.heap[last].pushIdx >= RING_SIZE
    case PushSetTail(node) => node == last
    case _ => s.tail == last
  }

  /** What the holder of the pop lock knows. */
  ghost predicate PopperOk(s: State, pc: PC)
    requires ChainOk(s)
  {
    assert NodeOk(s, s.first);
    match pc
    case PopNext(head) => head == s.head
    case PopLoadPop(head, next, seen) =>
      && head == s.head && (next != NULL ==> s.first + 1 < |s.order| && next == s.order[s.first + 1])
      && (next == NULL && !seen.empty ==> s.heap[head].popIdx < s.heap[head].pushIdx)
    case PopLoadPush(head, next, popIdx, seen) =>
      && head == s.head && (next != NULL ==> s.first + 1 < |s.order| && next == s.order[s.first + 1])
      && (next == NULL && !seen.empty ==> s.heap[head].popIdx < s.heap[head].pushIdx)
      && popIdx == s.heap[head].popIdx
    case PopMove(head, next) =>
      && head == s.head && s.first + 1 < |s.order| && next == s.order[s.first + 1]
      && s.heap[head].popIdx == s.heap[head].pushIdx
    case PopEmpty(seen) => seen.empty
    case PopFree(head) => head in s.heap && s.heap[head].role == Retired
    case PopRead(head, popIdx) => head == s.head && popIdx == s.heap[head].popIdx < s.heap[head].pushIdx
    case PopAdd(head, item) =>
      && head == s.head && s.heap[head].popIdx < s.heap[head].pushIdx
      && item == s.pushed[s.heap[head].base + s.heap[head].popIdx]
    case _ => true
  }

  function HolderPc(s: State, h: Holder): PC {
    if h.By? && h.t < |s.threads| then s.threads[h.t].pc else Idle
  }

  ghost predicate Inv(s: State) {
    ChainOk(s) && LocksOk(s) && PusherOk(s, HolderPc(s, s.pushMtx)) && PopperOk(s, HolderPc(s, s.popMtx))
  }

  lemma ModDistinct(i: nat, j: nat)
    requires i < j < i + RING_SIZE
    ensures i % RING_SIZE != j % RING_SIZE
  {
  }

  lemma InvDefined(s: State, t: nat)
    requires Inv(s) && t < |s.threads|
    ensures Defined(s, t)
  {
    assert NodeOk(s, s.first) && NodeOk(s, |s.order| - 1);
  }

  lemma PusherKnows(s: State, t: nat)
    requires Inv(s) && t < |s.threads| && InPush(s.threads[t].pc)
    ensures s.pushMtx == By(t) && PusherOk(s, s.threads[t].pc)
  {
    hide PopperOk, PusherOk;
  }

  lemma PopperKnows(s: State, t: nat)
    requires Inv(s) && t < |s.threads| && InPop(s.threads[t].pc)
    ensures s.popMtx == By(t) && PopperOk(s, s.threads[t].pc)
  {
    hide PopperOk, PusherOk;
  }

  lemma PushWriteChain(s: State, t: nat, item: int, tail: Addr, pushIdx: nat)
    requires Inv(s) && Defined(s, t) && s.threads[t].pc == PushWrite(item, tail, pushIdx)
    ensures ChainOk(DoPushWrite(s, t, item, tail, pushIdx))
  {
    PusherKnows(s, t);
    hide LocksOk, PopperOk, HolderPc, InPush, InPop;
    var s' := DoPushWrite(s, t, item, tail, pushIdx);
    forall k | s.first <= k < |s.order| ensures NodeOk(s', k) {
      assert NodeOk(s, k);
      if s.order[k] == tail {
        var n := s.heap[tail];
        forall i | n.popIdx <= i < n.pushIdx ensures i % RING_SIZE != pushIdx % RING_SIZE {
          ModDistinct(i, pushIdx);
        }
      }
    }
    forall k | s.first <= k < |s.order| - 1 ensures LinkOk(s', k) {
      assert NodeOk(s, k) && LinkOk(s, k) && NodeOk(s, k + 1) && NodeOk(s', k + 1);
      assert s.order[k] != Last(s);
    }
  }

  lemma InvPushWrite(s: State, t: nat, item: int, tail: Addr, pushIdx: nat)
    requires Inv(s) && Defined(s, t) && s.threads[t].pc == PushWrite(item, tail, pushIdx)
    ensures Inv(DoPushWrite(s, t, item, tail, pushIdx))
  {
    PushWriteChain(s, t, item, tail, pushIdx);
    AfterPushStep(s, DoPushWrite(s, t, item, tail, pushIdx), t);
  }

  /** What a push step leaves alone, as far as the popper is concerned. */
  ghost predicate PopSideKept(s: State, s': State)
    requires ChainOk(s) && ChainOk(s')
  {
    && s'.head == s.head && s'.first == s.first && s.order <= s'.order && s.pushed <= s'.pushed
    && s'.popped == s.popped && s'.popMtx == s.popMtx
    && NodeOk(s, s.first) && NodeOk(s', s'.first)
    && s'.heap[s.head].popIdx == s.heap[s.head].popIdx && s'.heap[s.head].base == s.heap[s.head].base
    && s'.heap[s.head].pushIdx >= s.heap[s.head].pushIdx
    && (s.first + 1 < |s.order| ==> s'.heap[s.head].pushIdx == s.heap[s.head].pushIdx)
    && (forall a :: a in s.heap && s.heap[a].role == Retired ==> a in s'.heap && s'.heap[a].role == Retired)
  }

  /** What a pop step leaves alone, as far as the pusher is concerned. */
  ghost predicate PushSideKept(s: State, s': State)
    requires ChainOk(s) && ChainOk(s')
  {
    && s'.tail == s.tail && s'.order == s.order && s'.pushed == s.pushed && s'.pushMtx == s.pushMtx
    && NodeOk(s, |s.order| - 1) && NodeOk(s', |s.order| - 1)
    && s'.heap[Last(s)].buffer == s.heap[Last(s)].buffer && s'.heap[Last(s)].pushIdx == s.heap[Last(s)].pushIdx
    && s'.heap[Last(s)].popIdx >= s.heap[Last(s)].popIdx
    && (forall a :: a in s.heap && s.heap[a].role == Private ==> a in s'.heap && s'.heap[a] == s.heap[a])
  }

  ghost predicate OnlyThread(s: State, s': State, t: nat) {
    && t < |s.threads| == |s'.threads|
    && forall u :: 0 <= u < |s.threads| && u != t ==> s'.threads[u] == s.threads[u]
  }

  lemma AfterPushStep(s: State, s': State, t: nat)
    requires Inv(s) && t < |s.threads| && s.pushMtx == By(t) && s'.pushMtx == By(t)
    requires ChainOk(s') && PopSideKept(s, s') && OnlyThread(s, s', t)
    requires InPush(s'.threads[t].pc) && PusherOk(s', s'.threads[t].pc)
    ensures Inv(s')
  {
    assert HolderPc(s', s'.popMtx) == HolderPc(s, s.popMtx);
  }

  lemma AfterPopStep(s: State, s': State, t: nat)
    requires Inv(s) && t < |s.threads| && s.popMtx == By(t) && s'.popMtx == By(t)
    requires ChainOk(s') && PushSideKept(s, s') && OnlyThread(s, s', t)
    requires InPop(s'.threads[t].pc) && PopperOk(s', s'.threads[t].pc)
    ensures Inv(s')
  {
    assert HolderPc(s', s'.pushMtx) == HolderPc(s, s.pushMtx);
  }

  /** A step that changes neither the nodes nor the history keeps the chain as it was. */
  lemma SameChain(s: State, s': State)
    requires ChainOk(s)
    requires s'.heap == s.heap && s'.head == s.head && s'.order == s.order && s'.first == s.first
    requires s'.pushed == s.pushed && s'.popped == s.popped
    ensures ChainOk(s')
  {
    forall k | s.first <= k < |s.order| ensures NodeOk(s', k) { assert NodeOk(s, k); }
    forall k | s.first <= k < |s.order| - 1 ensures LinkOk(s', k) {
      assert NodeOk(s, k) && LinkOk(s, k) && NodeOk(s, k + 1) && NodeOk(s', k + 1);
      assert s.order[k] != Last(s);
    }
  }

  lemma PushAddNode(s: State, t: nat, item: int, tail: Addr, k: nat)
    requires Inv(s) && Defined(s, t) && s.threads[t].pc == PushAdd(item, tail)
    requires s.first <= k < |s.order|
    ensures NodeOk(s, k) && NodeOk(DoPushAdd(s, t, item, tail), k)
  {
    PusherKnows(s, t);
    hide LocksOk, PopperOk, HolderPc, InPush, InPop, LinkOk;
    assert NodeOk(s, k);
  }

  lemma PushAddChain(s: State, t: nat, item: int, tail: Addr)
    requires Inv(s) && Defined(s, t) && s.threads[t].pc == PushAdd(item, tail)
    ensures ChainOk(DoPushAdd(s, t, item, tail))
  {
    PusherKnows(s, t);
    hide LocksOk, PopperOk, HolderPc, InPush, InPop;
    var s' := DoPushAdd(s, t, item, tail);
    assert tail == Last(s) && NodeOk(s, |s.order| - 1);
    forall k | s.first <= k < |s.order| ensures NodeOk(s', k) {
      PushAddNode(s, t, item, tail, k);
    }
    forall k | s.first <= k < |s.order| - 1 ensures LinkOk(s', k) {
      assert NodeOk(s, k) && LinkOk(s, k) && NodeOk(s, k + 1) && NodeOk(s', k + 1);
      assert s.order[k] != Last(s);
    }
  }

  lemma InvPushAdd(s: State, t: nat, item: int, tail: Addr)
    requires Inv(s) && Defined(s, t) && s.threads[t].pc == PushAdd(item, tail)
    ensures Inv(DoPushAdd(s, t, item, tail))
  {
    PushAddChain(s, t, item, tail);
    AfterPushStep(s, DoPushAdd(s, t, item, tail), t);
  }

  lemma PushNewNode(s: State, t: nat, item: int, tail: Addr, c: Choice, k: nat)
    requires Inv(s) && Defined(s, t) && s.threads[t].pc == PushNew(item, tail)
    requires s.first <= k < |s.order|
    ensures NodeOk(s, k) && NodeOk(DoPushNew(s, t, item, tail, c), k)
  {
    PusherKnows(s, t);
    hide LocksOk, PopperOk, HolderPc, InPush, InPop, LinkOk;
    assert NodeOk(s, k);
  }

  lemma PushNewChain(s: State, t: nat, item: int, tail: Addr, c: Choice)
    requires Inv(s) && Defined(s, t) && s.threads[t].pc == PushNew(item, tail)
    ensures ChainOk(DoPushNew(s, t, item, tail, c))
  {
    PusherKnows(s, t);
    hide LocksOk, PopperOk, HolderPc, InPush, InPop;
    var s' := DoPushNew(s, t, item, tail, c);
    forall k | s.first <= k < |s.order| ensures NodeOk(s', k) {
      PushNewNode(s, t, item, tail, c, k);
    }
    forall k | s.first <= k < |s.order| - 1 ensures LinkOk(s', k) {
      assert NodeOk(s, k) && LinkOk(s, k) && NodeOk(s, k + 1) && NodeOk(s', k + 1);
      assert s.order[k] != Last(s);
    }
  }

  lemma InvPushNew(s: State, t: nat, item: int, tail: Addr, c: Choice)
    requires Inv(s) && Defined(s, t) && s.threads[t].pc == PushNew(item, tail)
    ensures Inv(DoPushNew(s, t, item, tail, c))
  {
    PushNewChain(s, t, item, tail, c);
    AfterPushStep(s, DoPushNew(s, t, item, tail, c), t);
  }

  lemma PushLinkNode(s: State, t: nat, item: int, tail: Addr, node: Addr, k: nat)
    requires Inv(s) && Defined(s, t) && s.threads[t].pc == PushLink(item, tail, node)
    requires s.first <= k <= |s.order|
    ensures NodeOk(DoPushLink(s, t, item, tail, node), k)
  {
    PusherKnows(s, t);
    hide LocksOk, PopperOk, HolderPc, InPush, InPop, LinkOk;
    if k < |s.order| {
      assert NodeOk(s, k);
    }
  }

  lemma PushLinkChain(s: State, t: nat, item: int, tail: Addr, node: Addr)
    requires Inv(s) && Defined(s, t) && s.threads[t].pc == PushLink(item, tail, node)
    ensures ChainOk(DoPushLink(s, t, item, tail, node))
  {
    PusherKnows(s, t);
    hide LocksOk, PopperOk, HolderPc, InPush, InPop;
    var s' := DoPushLink(s, t, item, tail, node);
    forall k | s.first <= k <= |s.order| ensures NodeOk(s', k) {
      PushLinkNode(s, t, item, tail, node, k);
    }
    forall k | s.first <= k < |s.order| ensures LinkOk(s', k) {
      assert NodeOk(s', k) && NodeOk(s', k + 1) && NodeOk(s, k);
      if k < |s.order| - 1 {
        assert LinkOk(s, k) && NodeOk(s, k + 1);
      } else {
        assert s'.order[k] == tail == Last(s) && s'.order[k + 1] == node;
      }
    }
  }

  lemma InvPushLink(s: State, t: nat, item: int, tail: Addr, node: Addr)
    requires Inv(s) && Defined(s, t) && s.threads[t].pc == PushLink(item, tail, node)
    ensures Inv(DoPushLink(s, t, item, tail, node))
  {
    PushLinkChain(s, t, item, tail, node);
    AfterPushStep(s, DoPushLink(s, t, item, tail, node), t);
  }

  lemma PopMoveChain(s: State, t: nat, head: Addr, next: Addr)
    requires Inv(s) && Defined(s, t) && s.threads[t].pc == PopMove(head, next)
    ensures ChainOk(DoPopMove(s, t, head, next))
  {
    PopperKnows(s, t);
    hide LocksOk, PusherOk, HolderPc, InPush, InPop;
    var s' := DoPopMove(s, t, head, next);
    assert LinkOk(s, s.first) && NodeOk(s, s.first + 1);
    forall k | s.first < k < |s.order| ensures NodeOk(s', k) { assert NodeOk(s, k); }
    forall k | s.first < k < |s.order| - 1 ensures LinkOk(s', k) { assert LinkOk(s, k); }
  }

  lemma InvPopMove(s: State, t: nat, head: Addr, next: Addr)
    requires Inv(s) && Defined(s, t) && s.threads[t].pc == PopMove(head, next)
    ensures Inv(DoPopMove(s, t, head, next))
  {
    PopMoveChain(s, t, head, next);
    AfterPopStep(s, DoPopMove(s, t, head, next), t);
  }

  lemma PopFreeChain(s: State, t: nat, head: Addr)
    requires Inv(s) && Defined(s, t) && s.threads[t].pc == PopFree(head)
    ensures ChainOk(SetPc(s, t, PopHead).(heap := s.heap - {head}))
  {
    var s' := SetPc(s, t, PopHead).(heap := s.heap - {head});
    forall k | s.first <= k < |s.order| ensures NodeOk(s', k) { assert NodeOk(s, k); }
    forall k | s.first <= k < |s.order| - 1 ensures LinkOk(s', k) {
      assert NodeOk(s, k) && LinkOk(s, k) && NodeOk(s, k + 1) && NodeOk(s', k + 1);
      assert s.order[k] != Last(s);
    }
  }

  lemma InvPopFree(s: State, t: nat, head: Addr)
    requires Inv(s) && Defined(s, t) && s.threads[t].pc == PopFree(head)
    ensures Inv(SetPc(s, t, PopHead).(heap := s.heap - {head}))
  {
    PopFreeChain(s, t, head);
    AfterPopStep(s, SetPc(s, t, PopHead).(heap := s.heap - {head}), t);
  }

  lemma PopAddChain(s: State, t: nat, head: Addr, item: int)
    requires Inv(s) && Defined(s, t) && s.threads[t].pc == PopAdd(head, item)
    ensures ChainOk(DoPopAdd(s, t, head, item))
  {
    PopperKnows(s, t);
    hide LocksOk, PusherOk, HolderPc, InPush, InPop;
    var s' := DoPopAdd(s, t, head, item);
    forall k | s.first <= k < |s.order| ensures NodeOk(s', k) { assert NodeOk(s, k); }
    forall k | s.first <= k < |s.order| - 1 ensures LinkOk(s', k) {
      assert NodeOk(s, k) && LinkOk(s, k) && NodeOk(s, k + 1) && NodeOk(s', k + 1);
      assert s.order[k] != Last(s);
    }
  }

  lemma InvPopAdd(s: State, t: nat, head: Addr, item: int)
    requires Inv(s) && Defined(s, t) && s.threads[t].pc == PopAdd(head, item)
    ensures Inv(DoPopAdd(s, t, head, item))
  {
    PopAddChain(s, t, head, item);
    AfterPopStep(s, DoPopAdd(s, t, head, item), t);
  }

  lemma InvPushStep(s: State, t: nat, c: Choice)
    requires Inv(s) && Defined(s, t) && InPush(s.threads[t].pc) && !s.threads[t].pc.PushUnlock?
    ensures Inv(Step(s, t, c))
  {
    var s' := Step(s, t, c);
    match s.threads[t].pc
    case PushWrite(item, tail, pushIdx) => InvPushWrite(s, t, item, tail, pushIdx);
    case PushAdd(item, tail) => InvPushAdd(s, t, item, tail);
    case PushNew(item, tail) => InvPushNew(s, t, item, tail, c);
    case PushLink(item, tail, node) => InvPushLink(s, t, item, tail, node);
    case PushTail(item) => InvPushLocal(s, t, PushLoadPush(item, s.tail));
    case PushLoadPush(item, tail) => InvPushLocal(s, t, PushLoadPop(item, tail, s.heap[tail].pushIdx));
    case PushLoadPop(item, tail, pushIdx) => InvPushLocal(s, t, s'.threads[t].pc);
    case PushSetTail(node) => InvSetTail(s, t, node);
    case _ =>
  }

  /** The loads of `RingsQueue_push`. */
  lemma InvPushLocal(s: State, t: nat, pc: PC)
    requires Inv(s) && t < |s.threads| && s.pushMtx == By(t) && InPush(pc) && PusherOk(s, pc)
    ensures Inv(SetPc(s, t, pc))
  {
    var s' := SetPc(s, t, pc);
    SameChain(s, s');
    AfterPushStep(s, s', t);
  }

  lemma InvSetTail(s: State, t: nat, node: Addr)
    requires Inv(s) && t < |s.threads| && s.threads[t].pc == PushSetTail(node)
    ensures Inv(SetPc(s, t, PushUnlock).(tail := node))
  {
    var s' := SetPc(s, t, PushUnlock).(tail := node);
    SameChain(s, s');
    AfterPushStep(s, s', t);
  }

  lemma InvPopLoad(s: State, t: nat, c: Choice)
    requires Inv(s) && Defined(s, t) && PopLoads(s.threads[t].pc)
    ensures Inv(Step(s, t, c))
  {
    hide PusherOk, LinkOk;
    var s' := Step(s, t, c);
    InvPopLocal(s, t, s'.threads[t].pc);
  }

  predicate PopLoads(pc: PC) {
    pc.PopHead? || pc.PopNext? || pc.PopLoadPop? || pc.PopLoadPush? || pc.PopEmpty? || pc.PopRead?
  }

  lemma InvPopStep(s: State, t: nat, c: Choice)
    requires Inv(s) && Defined(s, t) && InPop(s.threads[t].pc) && !s.threads[t].pc.PopUnlock?
    ensures Inv(Step(s, t, c))
  {
    hide Inv;
    match s.threads[t].pc
    case PopMove(head, next) => InvPopMove(s, t, head, next);
    case PopFree(head) => InvPopFree(s, t, head);
    case PopAdd(head, item) => InvPopAdd(s, t, head, item);
    case _ => InvPopLoad(s, t, c);
  }

  /** The loads of `RingsQueue_pop`. */
  lemma InvPopLocal(s: State, t: nat, pc: PC)
    requires Inv(s) && t < |s.threads| && s.popMtx == By(t) && InPop(pc)
    requires PopStepOk(s, s.threads[t].pc, pc)
    ensures Inv(SetPc(s, t, pc))
  {
    var s' := SetPc(s, t, pc);
    SameChain(s, s');
    if s.first + 1 < |s.order| {
      assert LinkOk(s, s.first) && NodeOk(s, s.first + 1);
    }
    AfterPopStep(s, s', t);
  }

  ghost predicate PopStepOk(s: State, pc: PC, pc': PC)
    requires ChainOk(s)
  {
    assert NodeOk(s, s.first);
    match pc'
    case PopHead => false
    case PopNext(head) => head == s.head
    case PopLoadPop(head, next, seen) =>
      head == s.head && next == s.heap[head].next && seen.empty == (|s.pushed| == |s.popped|)
    case _ => pc'.PopUnlock? || PopperOk(s, pc')
  }

  lemma InvStart(s: State, t: nat, op: Op)
    requires Inv(s) && t < |s.threads| && s.threads[t].pc == Idle
    ensures Inv(Start(s, t, op))
  {
    var s' := Start(s, t, op);
    SameChain(s, s');
    assert HolderPc(s', s'.pushMtx) == HolderPc(s, s.pushMtx);
    assert HolderPc(s', s'.popMtx) == HolderPc(s, s.popMtx);
  }

  lemma InvWait(s: State)
    requires Inv(s)
    ensures Inv(s.(now := s.now + 1))
  {
    SameChain(s, s.(now := s.now + 1));
  }

  lemma InvPushMtx(s: State, t: nat, pc: PC, h: Holder)
    requires Inv(s) && t < |s.threads|
    requires (s.threads[t].pc.PushLock? && s.pushMtx == Nobody && h == By(t) && pc.PushTail?)
             || (s.threads[t].pc.PushUnlock? && h == Nobody && pc == Idle)
    ensures Inv(SetPc(s, t, pc).(pushMtx := h))
  {
    var s' := SetPc(s, t, pc).(pushMtx := h);
    SameChain(s, s');
    assert HolderPc(s', s'.popMtx) == HolderPc(s, s.popMtx);
  }

  lemma InvPopMtx(s: State, t: nat, pc: PC, h: Holder)
    requires Inv(s) && t < |s.threads|
    requires (s.threads[t].pc.PopLock? && s.popMtx == Nobody && h == By(t) && pc.PopHead?)
             || (s.threads[t].pc.PopUnlock? && h == Nobody && pc == Idle)
    ensures Inv(SetPc(s, t, pc).(popMtx := h))
  {
    var s' := SetPc(s, t, pc).(popMtx := h);
    SameChain(s, s');
    assert HolderPc(s', s'.pushMtx) == HolderPc(s, s.pushMtx);
  }

  lemma InvLockStep(s: State, t: nat, c: Choice)
    requires Inv(s) && Defined(s, t) && LockPc(s.threads[t].pc)
    ensures Inv(Step(s, t, c))
  {
    hide Inv;
    match s.threads[t].pc
    case PushLock(item) => if s.pushMtx == Nobody { InvPushMtx(s, t, PushTail(item), By(t)); } else { InvWait(s); }
    case PushUnlock => InvPushMtx(s, t, Idle, Nobody);
    case PopLock => if s.popMtx == Nobody { InvPopMtx(s, t, PopHead, By(t)); } else { InvWait(s); }
    case PopUnlock(_) => InvPopMtx(s, t, Idle, Nobody);
  }

  predicate LockPc(pc: PC) { pc.PushLock? || pc.PushUnlock? || pc.PopLock? || pc.PopUnlock? }

  lemma InvStep(s: State, t: nat, c: Choice)
    requires Inv(s) && Defined(s, t)
    ensures Inv(Step(s, t, c))
  {
    hide Inv;
    if s.threads[t].pc == Idle {
      InvStart(s, t, c.op);
    } else if LockPc(s.threads[t].pc) {
      InvLockStep(s, t, c);
    } else if InPush(s.threads[t].pc) {
      InvPushStep(s, t, c);
    } else {
      InvPopStep(s, t, c);
    }
  }
}
