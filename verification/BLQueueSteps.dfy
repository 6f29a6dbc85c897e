/** The lock-free segmented queue of BLQueue.c together with the hazard pointers of HazardPointer.c.

    Any number of threads run `BLQueue_push`, `BLQueue_pop` and `BLQueue_is_empty`; one transition is one
    atomic load, store, compare-and-swap, exchange or fetch-and-add on shared memory, or one `malloc` or
    `free`.  Freed addresses may be handed out again by a later `malloc`.

    The program comes first.  Then come the invariant of memory safety with one lemma for each kind of step, and the
    invariant of slots and claims with one lemma for each kind of step; module BLQueue has the results about all
    runs. */
module BLQueueSteps {

  type Addr = nat
  const NULL: Addr := 0
  const BUFFER_SIZE: nat := 1024
  const RETIRED_THRESHOLD: nat := 128
  const EMPTY_VALUE: int := 0
  const TAKEN_VALUE: int := -1

  /** History: who may still refer to an allocated node. */
  datatype Role = Chain | Private(owner: nat) | Limbo(remover: nat) | Retired(list: nat) | Leaked

  /** `serial` and `role` are history; the program never reads them. */
  datatype Node = Node(next: Addr, buffer: seq<int>, pushIdx: nat, popIdx: nat, serial: nat, role: Role)

  datatype Op = Push(item: int) | Pop | IsEmpty

  datatype After = Return(result: int) | Retry(op: Op)

  /** A program counter names the next shared-memory operation and carries the local variables. */
  datatype PC =
    | Idle
    | Load(op: Op)
    | Publish(op: Op, p: Addr)
    | Validate(op: Op, p: Addr)
    | PushFetch(item: int, p: Addr)
    | PushCas(item: int, p: Addr, idx: nat)
    | PushNew(item: int, p: Addr)
    | PushSwing(item: int, p: Addr, node: Addr)
    | PushLink(p: Addr, node: Addr)
    | PushFree(item: int, node: Addr)
    | PopFetch(p: Addr)
    | PopExchange(p: Addr, idx: nat)
    | PopNext(p: Addr)
    | PopSwing(p: Addr, next: Addr)
    | Retire(node: Addr)
    | Scan(i: nat, j: nat)
    | ReadPush(p: Addr)
    | ReadPop(p: Addr, pushIdx: nat)
    | ReadNext(p: Addr, same: bool)
    | Clear(after: After)

  datatype Thread = Thread(pc: PC, retired: seq<Addr>, began: nat)

  /** A slot of the infinite sequence of slots: position `idx` of the `serial`-th node ever linked in. */
  datatype Slot = Slot(serial: nat, idx: nat)

  function Pos(x: Slot): nat { x.serial * BUFFER_SIZE + x.idx }

  /** History of one push that stored its value: its invocation and the moment the value became visible. */
  datatype Put = Put(value: int, began: nat, done: nat)

  /** `order`, `first`, `log`, `gone`, `claimedAt`, `pushClaims` and `now` are history. */
  datatype State = State(
    heap: map<Addr, Node>, head: Addr, tail: Addr, hp: seq<Addr>, threads: seq<Thread>,
    order: seq<Addr>, first: nat,
    log: map<Slot, Put>, gone: map<Slot, int>, claimedAt: seq<nat>, pushClaims: nat, now: nat)

  /** What the scheduler decides: the operation an idle thread starts, and the outcome of `malloc`. */
  datatype Choice = Choice(op: Op, ok: bool, addr: Addr)

  // ---------------------------------------------------------------------------------------------
  // The program
  // ---------------------------------------------------------------------------------------------

  function EmptyNode(role: Role): Node {
    Node(NULL, seq(BUFFER_SIZE, i => EMPTY_VALUE), 0, 0, 0, role)
  }

  function Init(n: nat, a: Addr): State {
    State(map[a := EmptyNode(Chain)], a, a, seq(n, i => NULL), seq(n, i => Thread(Idle, [], 0)),
          [a], 0, map[], map[], [], 0, 0)
  }

  function SetPc(s: State, t: nat, pc: PC): State
    requires t < |s.threads|
  {
    s.(threads := s.threads[t := s.threads[t].(pc := pc)], now := s.now + 1)
  }

  function Source(s: State, op: Op): Addr { if op.Push? then s.tail else s.head }

  function Fresh(s: State, c: Choice): bool { c.ok && c.addr != NULL && c.addr !in s.heap }

  /** The node whose memory the next step of a thread reads or writes, or NULL. */
  function Held(pc: PC): Addr {
    match pc
    case PushFetch(_, p) => p
    case PushCas(_, p, _) => p
    case PushNew(_, p) => p
    case PushSwing(_, p, _) => p
    case PushLink(p, _) => p
    case PopFetch(p) => p
    case PopExchange(p, _) => p
    case PopNext(p) => p
    case PopSwing(p, _) => p
    case ReadPush(p) => p
    case ReadPop(p, _) => p
    case ReadNext(p, _) => p
    case _ => NULL
  }

  /** The node the next step of a thread gives to `free`, or NULL. */
  function Frees(s: State, t: nat): Addr
    requires t < |s.threads|
  {
    var th := s.threads[t];
    match th.pc
    case PushFree(_, node) => node
    case Scan(i, j) => if i < |th.retired| && j >= |s.hp| then th.retired[i] else NULL
    case _ => NULL
  }

  /** No step of thread `t` touches memory that is not allocated: neither by an access nor by a free. */
  predicate SafeStep(s: State, t: nat)
    requires t < |s.threads|
  {
    && (Held(s.threads[t].pc) != NULL ==> Held(s.threads[t].pc) in s.heap)
    && (Frees(s, t) != NULL ==> Frees(s, t) in s.heap)
  }

  function AfterFetch(item: int, p: Addr, idx: nat): PC {
    if idx < BUFFER_SIZE then PushCas(item, p, idx) else PushNew(item, p)
  }

  function DoIdle(s: State, t: nat, c: Choice): State
    requires t < |s.threads|
  {
    var s1 := SetPc(s, t, Load(c.op));
    s1.(threads := s1.threads[t := s1.threads[t].(began := s.now)])
  }

  function DoValidate(s: State, t: nat, op: Op, p: Addr): State
    requires t < |s.threads|
  {
    SetPc(s, t, if p != Source(s, op) then Load(op)
                else match op
                     case Push(item) => PushFetch(item, p)
                     case Pop => PopFetch(p)
                     case IsEmpty => ReadPush(p))
  }

  function DoPushFetch(s: State, t: nat, item: int, p: Addr): State
    requires t < |s.threads| && p in s.heap
  {
    var idx := s.heap[p].pushIdx;
    SetPc(s, t, AfterFetch(item, p, idx)).(
      heap := s.heap[p := s.heap[p].(pushIdx := idx + 1)],
      pushClaims := if idx < BUFFER_SIZE then s.pushClaims + 1 else s.pushClaims)
  }

  function DoPushCas(s: State, t: nat, item: int, p: Addr, idx: nat): State
    requires t < |s.threads| && p in s.heap && idx < |s.heap[p].buffer|
  {
    var n := s.heap[p];
    if n.buffer[idx] == EMPTY_VALUE then
      SetPc(s, t, Clear(Return(EMPTY_VALUE))).(
        heap := s.heap[p := n.(buffer := n.buffer[idx := item])],
        log := s.log[Slot(n.serial, idx) := Put(item, s.threads[t].began, s.now)])
    else
      SetPc(s, t, Load(Push(item)))
  }

  function DoPushNew(s: State, t: nat, item: int, p: Addr, c: Choice): State
    requires t < |s.threads|
  {
    if Fresh(s, c) then
      var e := EmptyNode(Private(t));
      SetPc(s, t, PushSwing(item, p, c.addr)).(
        heap := s.heap[c.addr := e.(buffer := e.buffer[0 := item], pushIdx := 1)])
    else
      SetPc(s, t, Load(Push(item)))
  }

  function DoPushSwing(s: State, t: nat, item: int, p: Addr, node: Addr): State
    requires t < |s.threads| && node in s.heap
  {
    if s.tail == p then
      SetPc(s, t, PushLink(p, node)).(
        heap := s.heap[node := s.heap[node].(role := Chain, serial := |s.order|)],
        tail := node, order := s.order + [node], pushClaims := s.pushClaims + 1,
        log := s.log[Slot(|s.order|, 0) := Put(item, s.threads[t].began, s.now)])
    else
      SetPc(s, t, PushFree(item, node))
  }

  function DoPushLink(s: State, t: nat, p: Addr, node: Addr): State
    requires t < |s.threads| && p in s.heap
  {
    SetPc(s, t, Clear(Return(EMPTY_VALUE))).(heap := s.heap[p := s.heap[p].(next := node)])
  }

  function DoPopFetch(s: State, t: nat, p: Addr): State
    requires t < |s.threads| && p in s.heap
  {
    var idx := s.heap[p].popIdx;
    SetPc(s, t, if idx < BUFFER_SIZE then PopExchange(p, idx) else PopNext(p)).(
      heap := s.heap[p := s.heap[p].(popIdx := idx + 1)],
      claimedAt := if idx < BUFFER_SIZE then s.claimedAt + [s.now] else s.claimedAt)
  }

  function DoPopExchange(s: State, t: nat, p: Addr, idx: nat): State
    requires t < |s.threads| && p in s.heap && idx < |s.heap[p].buffer|
  {
    var n := s.heap[p];
    var item := n.buffer[idx];
    SetPc(s, t, Clear(if item == EMPTY_VALUE then Retry(Pop) else Return(item))).(
      heap := s.heap[p := n.(buffer := n.buffer[idx := TAKEN_VALUE])],
      gone := if item == EMPTY_VALUE then s.gone else s.gone[Slot(n.serial, idx) := item])
  }

  function DoPopNext(s: State, t: nat, p: Addr): State
    requires t < |s.threads| && p in s.heap
  {
    SetPc(s, t, if s.heap[p].next == NULL then Clear(Return(EMPTY_VALUE)) else PopSwing(p, s.heap[p].next))
  }

  function DoPopSwing(s: State, t: nat, p: Addr, next: Addr): State
    requires t < |s.threads| && p in s.heap
  {
    if s.head == p then
      SetPc(s, t, Retire(p)).(
        heap := s.heap[p := s.heap[p].(role := Limbo(t))], head := next, first := s.first + 1)
    else
      SetPc(s, t, Clear(Retry(Pop)))
  }

  function DoRetire(s: State, t: nat, p: Addr, c: Choice): State
    requires t < |s.threads| && p in s.heap
  {
    if !c.ok then
      SetPc(s, t, Clear(Retry(Pop))).(heap := s.heap[p := s.heap[p].(role := Leaked)])
    else
      var retired := [p] + s.threads[t].retired;
      var s1 := SetPc(s, t, if |retired| > RETIRED_THRESHOLD then Scan(0, 0) else Clear(Retry(Pop)));
      s1.(heap := s.heap[p := s.heap[p].(role := Retired(t))],
          threads := s1.threads[t := s1.threads[t].(retired := retired)])
  }

  function DoScan(s: State, t: nat, i: nat, j: nat): State
    requires t < |s.threads|
  {
    var retired := s.threads[t].retired;
    if i >= |retired| then SetPc(s, t, Clear(Retry(Pop)))
    else if j >= |s.hp| then
      var s1 := SetPc(s, t, Scan(i, 0));
      s1.(heap := s.heap - {retired[i]},
          threads := s1.threads[t := s1.threads[t].(retired := retired[..i] + retired[i + 1..])])
    else if s.hp[j] == retired[i] then SetPc(s, t, Scan(i + 1, 0))
    else SetPc(s, t, Scan(i, j + 1))
  }

  function DoClear(s: State, t: nat, after: After): State
    requires t < |s.threads| && t < |s.hp|
  {
    SetPc(s, t, if after.Return? then Idle else Load(after.op)).(hp := s.hp[t := NULL])
  }

  /** What a step needs in order not to go wrong: allocated operands and indices inside the buffer. */
  predicate Defined(s: State, t: nat) {
    && t < |s.threads| == |s.hp|
    && var pc := s.threads[t].pc;
       && (Held(pc) != NULL ==> Held(pc) in s.heap)
       && match pc
          case PushCas(_, p, idx) => p in s.heap && idx < |s.heap[p].buffer|
          case PopExchange(p, idx) => p in s.heap && idx < |s.heap[p].buffer|
          case PushSwing(_, _, node) => node in s.heap
          case PushFree(_, node) => node in s.heap
          case Retire(p) => p in s.heap
          case _ => (Held(pc) == NULL ==> !pc.PushFetch? && !pc.PopFetch? && !pc.PushLink? && !pc.PopNext? &&
                                          !pc.PopSwing? && !pc.ReadPush? && !pc.ReadPop? && !pc.ReadNext?)
  }

  function Step(s: State, t: nat, c: Choice): State
    requires Defined(s, t)
  {
    match s.threads[t].pc
    case Idle => DoIdle(s, t, c)
    case Load(op) => SetPc(s, t, Publish(op, Source(s, op)))
    case Publish(op, p) => SetPc(s, t, Validate(op, p)).(hp := s.hp[t := p])
    case Validate(op, p) => DoValidate(s, t, op, p)
    case PushFetch(item, p) => DoPushFetch(s, t, item, p)
    case PushCas(item, p, idx) => DoPushCas(s, t, item, p, idx)
    case PushNew(item, p) => DoPushNew(s, t, item, p, c)
    case PushSwing(item, p, node) => DoPushSwing(s, t, item, p, node)
    case PushLink(p, node) => DoPushLink(s, t, p, node)
    case PushFree(item, node) => SetPc(s, t, Load(Push(item))).(heap := s.heap - {node})
    case PopFetch(p) => DoPopFetch(s, t, p)
    case PopExchange(p, idx) => DoPopExchange(s, t, p, idx)
    case PopNext(p) => DoPopNext(s, t, p)
    case PopSwing(p, next) => DoPopSwing(s, t, p, next)
    case Retire(p) => DoRetire(s, t, p, c)
    case Scan(i, j) => DoScan(s, t, i, j)
    case ReadPush(p) => SetPc(s, t, ReadPop(p, s.heap[p].pushIdx))
    case ReadPop(p, pushIdx) => SetPc(s, t, ReadNext(p, pushIdx == s.heap[p].popIdx))
    case ReadNext(p, same) => SetPc(s, t, Clear(Return(if same && s.heap[p].next == NULL then 1 else 0)))
    case Clear(after) => DoClear(s, t, after)
  }

  // ---------------------------------------------------------------------------------------------
  // Memory safety
  // ---------------------------------------------------------------------------------------------

  ghost predicate ChainOk(s: State) {
    && s.first < |s.order|
    && s.head == s.order[s.first] && s.tail == s.order[|s.order| - 1]
    && NULL !in s.heap
    && (forall k :: s.first <= k < |s.order| ==>
          && s.order[k] in s.heap
          && s.heap[s.order[k]].role == Chain && s.heap[s.order[k]].serial == k)
    && (forall k :: s.first <= k < |s.order| - 1 ==>
          s.heap[s.order[k]].next == NULL || s.heap[s.order[k]].next == s.order[k + 1])
    && s.heap[s.tail].next == NULL
    && (forall a :: a in s.heap ==>
          && |s.heap[a].buffer| == BUFFER_SIZE
          && (s.heap[a].role == Chain ==>
                s.first <= s.heap[a].serial < |s.order| && s.order[s.heap[a].serial] == a))
  }

  /** A thread that will access a node has it published, and the node is neither private nor freed. */
  ghost predicate HoldOk(s: State)
    requires |s.hp| == |s.threads|
  {
    forall t :: 0 <= t < |s.threads| ==>
      var a := Held(s.threads[t].pc);
      a != NULL ==> s.hp[t] == a && a in s.heap && !s.heap[a].role.Private?
  }

  ghost predicate LocalOk(s: State, t: nat)
    requires t < |s.threads| == |s.hp| && NULL !in s.heap
    requires Held(s.threads[t].pc) != NULL ==> Held(s.threads[t].pc) in s.heap
  {
    match s.threads[t].pc
    case Publish(_, p) => p != NULL
    case Validate(_, p) => p != NULL && s.hp[t] == p
    case PushSwing(_, p, node) => p != NULL && node in s.heap && s.heap[node].role == Private(t)
                                   && s.heap[node].next == NULL
    case PushFree(_, node) => node in s.heap && s.heap[node].role == Private(t)
    case PushLink(p, node) =>
      && p != NULL && s.heap[p].role == Chain && s.heap[p].next == NULL
      && s.heap[p].serial + 1 < |s.order| && s.order[s.heap[p].serial + 1] == node
    case PopSwing(p, next) =>
      && p != NULL
      && (s.heap[p].role == Chain ==> s.heap[p].serial + 1 < |s.order| && s.order[s.heap[p].serial + 1] == next
                                      && s.heap[p].next == next)
    case Retire(node) => node in s.heap && s.heap[node].role == Limbo(t)
    case PushCas(_, p, idx) => p != NULL && idx < BUFFER_SIZE
    case PopExchange(p, idx) => p != NULL && idx < BUFFER_SIZE
    case pc => Held(pc) == NULL ==> !pc.PushFetch? && !pc.PopFetch? && !pc.PopNext? && !pc.PushNew?
                                    && !pc.ReadPush? && !pc.ReadPop? && !pc.ReadNext?
  }

  ghost predicate RetiredOk(s: State, t: nat)
    requires t < |s.threads|
  {
    var retired := s.threads[t].retired;
    && (forall i :: 0 <= i < |retired| ==> retired[i] in s.heap && s.heap[retired[i]].role == Retired(t))
    && (forall i, j :: 0 <= i < j < |retired| ==> retired[i] != retired[j])
  }

  /** While a scan looks at the `i`-th retired node, no thread it has passed can be using that node. */
  ghost predicate ScanOk(s: State, t: nat)
    requires t < |s.threads|
  {
    var th := s.threads[t];
    th.pc.Scan? && th.pc.i < |th.retired| ==>
      && th.pc.j <= |s.threads|
      && forall u :: 0 <= u < th.pc.j ==> Held(s.threads[u].pc) != th.retired[th.pc.i]
  }

  ghost predicate LinkersDiffer(s: State) {
    forall t, u :: 0 <= t < |s.threads| && 0 <= u < |s.threads| && t != u
                   && s.threads[t].pc.PushLink? && s.threads[u].pc.PushLink? ==>
      s.threads[t].pc.p != s.threads[u].pc.p
  }

  ghost predicate MemInv(s: State) {
    && |s.hp| == |s.threads|
    && ChainOk(s) && HoldOk(s) && LinkersDiffer(s)
    && forall t :: 0 <= t < |s.threads| ==> LocalOk(s, t) && RetiredOk(s, t) && ScanOk(s, t)
  }

  lemma MemInvDefined(s: State, t: nat)
    requires MemInv(s) && t < |s.threads|
    ensures Defined(s, t) && SafeStep(s, t)
  {
    assert LocalOk(s, t) && RetiredOk(s, t);
  }

  /** What one step of thread `t` may do to an allocated node. */
  ghost predicate Kept(s: State, s': State, t: nat, a: Addr)
    requires a in s.heap
  {
    var n := s.heap[a];
    if a !in s'.heap then n.role == Private(t) || n.role == Retired(t)
    else
      var n' := s'.heap[a];
      && (n'.role == n.role || n.role == Private(t) || n.role == Limbo(t)
          || (n.role == Chain && n.next != NULL && n'.role == Limbo(t)))
      && (n'.role.Private? ==> n.role.Private?)
      && (n'.role == Chain ==> n.role == Chain || n.role == Private(t))
      && (n'.serial == n.serial || n.role == Private(t))
      && (n'.next == n.next || (n.next == NULL && t < |s.threads| && s.threads[t].pc.PushLink?
                                && s.threads[t].pc.p == a && n'.next == s.threads[t].pc.node))
  }

  /** The guarantee every step of thread `t` gives to all other threads. */
  ghost predicate Evolves(s: State, s': State, t: nat) {
    && t < |s.threads| == |s'.threads| && |s.hp| == |s.threads| == |s'.hp|
    && (forall u :: 0 <= u < |s.threads| && u != t ==> s'.threads[u] == s.threads[u] && s'.hp[u] == s.hp[u])
    && s.order <= s'.order
    && (forall a :: a in s.heap ==> Kept(s, s', t, a))
  }

  /** What a step has to show about its own thread. */
  ghost predicate OwnOk(s: State, s': State, t: nat)
    requires MemInv(s) && t < |s.threads| == |s'.threads| == |s'.hp| && NULL !in s'.heap
  {
    var a := Held(s'.threads[t].pc);
    && (a != NULL ==> s'.hp[t] == a && a in s'.heap && !s'.heap[a].role.Private?)
    && (a == NULL || a == Held(s.threads[t].pc) || (a in s.heap && s.heap[a].role == Chain))
    && (s'.threads[t].pc.PushLink? ==> s'.threads[t].pc.p == s.tail)
    && LocalOk(s', t) && RetiredOk(s', t) && ScanOk(s', t)
    && (forall b :: b in s.heap && b !in s'.heap ==> forall u :: 0 <= u < |s.threads| ==> Held(s.threads[u].pc) != b)
  }

  lemma OtherHold(s: State, s': State, t: nat, u: nat)
    requires MemInv(s) && Evolves(s, s', t) && NULL !in s'.heap && OwnOk(s, s', t)
    requires u < |s.threads| && u != t
    ensures var a := Held(s'.threads[u].pc);
            a != NULL ==> s'.hp[u] == a && a in s'.heap && !s'.heap[a].role.Private? && Kept(s, s', t, a)
  {
    var a := Held(s.threads[u].pc);
    if a != NULL {
      assert a in s.heap && Kept(s, s', t, a);
    }
  }

  lemma OtherLocal(s: State, s': State, t: nat, u: nat)
    requires MemInv(s) && Evolves(s, s', t) && NULL !in s'.heap && OwnOk(s, s', t) && HoldOk(s')
    requires u < |s.threads| && u != t
    ensures LocalOk(s', u)
  {
    OtherHold(s, s', t, u);
    assert LocalOk(s, u);
    match s.threads[u].pc
    case PushSwing(_, _, node) => assert Kept(s, s', t, node);
    case PushFree(_, node) => assert Kept(s, s', t, node);
    case Retire(node) => assert Kept(s, s', t, node);
    case _ =>
  }

  lemma OtherRetired(s: State, s': State, t: nat, u: nat)
    requires MemInv(s) && Evolves(s, s', t)
    requires u < |s.threads| && u != t
    ensures RetiredOk(s', u)
  {
    assert RetiredOk(s, u);
    forall i | 0 <= i < |s.threads[u].retired| ensures Kept(s, s', t, s.threads[u].retired[i]) { }
  }

  lemma OtherScan(s: State, s': State, t: nat, u: nat)
    requires MemInv(s) && Evolves(s, s', t) && NULL !in s'.heap && OwnOk(s, s', t)
    requires u < |s.threads| && u != t
    ensures ScanOk(s', u)
  {
    assert ScanOk(s, u) && RetiredOk(s, u);
  }

  lemma OtherLinkers(s: State, s': State, t: nat)
    requires MemInv(s) && Evolves(s, s', t) && NULL !in s'.heap && OwnOk(s, s', t)
    ensures LinkersDiffer(s')
  {
    forall u | 0 <= u < |s.threads| && s.threads[u].pc.PushLink? ensures s.threads[u].pc.p != s.tail {
      assert LocalOk(s, u);
    }
  }

  lemma Assemble(s: State, s': State, t: nat)
    requires MemInv(s) && Evolves(s, s', t) && NULL !in s'.heap && OwnOk(s, s', t) && ChainOk(s')
    ensures MemInv(s')
  {
    forall u | 0 <= u < |s.threads| && u != t
      ensures var a := Held(s'.threads[u].pc);
              a != NULL ==> s'.hp[u] == a && a in s'.heap && !s'.heap[a].role.Private?
    {
      OtherHold(s, s', t, u);
    }
    assert HoldOk(s');
    OtherLinkers(s, s', t);
    forall u | 0 <= u < |s.threads| ensures LocalOk(s', u) && RetiredOk(s', u) && ScanOk(s', u) {
      if u != t {
        OtherLocal(s, s', t, u);
        OtherRetired(s, s', t, u);
        OtherScan(s, s', t, u);
      }
    }
  }

  ghost predicate SameShape(s: State, s': State, a: Addr)
    requires a in s.heap && a in s'.heap
  {
    var n, n' := s.heap[a], s'.heap[a];
    n'.next == n.next && n'.serial == n.serial && n'.role == n.role && |n'.buffer| == |n.buffer|
  }

  /** Steps that change nothing but counters, slot contents, the own thread and its own hazard pointer. */
  lemma Touch(s: State, s': State, t: nat)
    requires MemInv(s) && t < |s.threads| == |s'.threads| == |s'.hp|
    requires s'.heap.Keys == s.heap.Keys && forall a :: a in s.heap ==> SameShape(s, s', a)
    requires s'.threads == s.threads[t := s'.threads[t]] && s'.hp == s.hp[t := s'.hp[t]]
    requires s'.order == s.order && s'.first == s.first && s'.head == s.head && s'.tail == s.tail
    ensures ChainOk(s') && Evolves(s, s', t)
  {
    forall k | s.first <= k < |s.order| ensures SameShape(s, s', s.order[k]) { }
    assert SameShape(s, s', s.tail);
    forall a | a in s.heap ensures Kept(s, s', t, a) {
      assert SameShape(s, s', a);
    }
    forall a | a in s'.heap
      ensures |s'.heap[a].buffer| == BUFFER_SIZE
      ensures s'.heap[a].role == Chain ==>
                s.first <= s'.heap[a].serial < |s.order| && s.order[s'.heap[a].serial] == a
    {
      assert SameShape(s, s', a);
    }
  }

  ghost predicate At(s: State, t: nat, pc: PC) {
    MemInv(s) && t < |s.threads| && s.threads[t].pc == pc
  }

  lemma MemLeave(s: State, t: nat, pc: PC)
    requires MemInv(s) && t < |s.threads|
    requires pc.Load? || pc.Clear? || pc.Idle?
    ensures MemInv(SetPc(s, t, pc))
  {
    assert LocalOk(s, t) && RetiredOk(s, t);
    Touch(s, SetPc(s, t, pc), t);
    Assemble(s, SetPc(s, t, pc), t);
  }

  lemma MemIdle(s: State, t: nat, c: Choice)
    requires At(s, t, Idle)
    ensures MemInv(DoIdle(s, t, c))
  {
    assert LocalOk(s, t) && RetiredOk(s, t);
    Touch(s, DoIdle(s, t, c), t);
    Assemble(s, DoIdle(s, t, c), t);
  }

  lemma MemLoad(s: State, t: nat, op: Op)
    requires At(s, t, Load(op))
    ensures MemInv(SetPc(s, t, Publish(op, Source(s, op))))
  {
    assert LocalOk(s, t) && RetiredOk(s, t);
    Touch(s, SetPc(s, t, Publish(op, Source(s, op))), t);
    Assemble(s, SetPc(s, t, Publish(op, Source(s, op))), t);
  }

  lemma MemPublish(s: State, t: nat, op: Op, p: Addr)
    requires At(s, t, Publish(op, p))
    ensures MemInv(SetPc(s, t, Validate(op, p)).(hp := s.hp[t := p]))
  {
    assert LocalOk(s, t) && RetiredOk(s, t);
    Touch(s, SetPc(s, t, Validate(op, p)).(hp := s.hp[t := p]), t);
    Assemble(s, SetPc(s, t, Validate(op, p)).(hp := s.hp[t := p]), t);
  }

  lemma MemValidate(s: State, t: nat, op: Op, p: Addr)
    requires At(s, t, Validate(op, p))
    ensures MemInv(DoValidate(s, t, op, p))
  {
    assert LocalOk(s, t) && RetiredOk(s, t);
    Touch(s, DoValidate(s, t, op, p), t);
    Assemble(s, DoValidate(s, t, op, p), t);
  }

  lemma MemPushFetch(s: State, t: nat, item: int, p: Addr)
    requires At(s, t, PushFetch(item, p)) && p in s.heap
    ensures MemInv(DoPushFetch(s, t, item, p))
  {
    assert LocalOk(s, t) && RetiredOk(s, t);
    Touch(s, DoPushFetch(s, t, item, p), t);
    Assemble(s, DoPushFetch(s, t, item, p), t);
  }

  lemma MemPushCasOwn(s: State, t: nat, item: int, p: Addr, idx: nat)
    requires At(s, t, PushCas(item, p, idx)) && p in s.heap && idx < |s.heap[p].buffer|
             && s.heap[p].buffer[idx] == EMPTY_VALUE
    requires NULL !in DoPushCas(s, t, item, p, idx).heap
    ensures OwnOk(s, DoPushCas(s, t, item, p, idx), t)
  {
    hide LinkersDiffer;
    assert LocalOk(s, t) && RetiredOk(s, t);
  }

  lemma MemPushCas(s: State, t: nat, item: int, p: Addr, idx: nat)
    requires At(s, t, PushCas(item, p, idx)) && p in s.heap && idx < |s.heap[p].buffer|
    ensures MemInv(DoPushCas(s, t, item, p, idx))
  {
    hide HoldOk, LocalOk, RetiredOk, ScanOk, LinkersDiffer, OwnOk;
    if s.heap[p].buffer[idx] == EMPTY_VALUE {
      var s' := DoPushCas(s, t, item, p, idx);
      Touch(s, s', t);
      MemPushCasOwn(s, t, item, p, idx);
      Assemble(s, s', t);
    } else {
      MemLeave(s, t, Load(Push(item)));
    }
  }

  lemma MemPushNew(s: State, t: nat, item: int, p: Addr, c: Choice)
    requires At(s, t, PushNew(item, p))
    ensures MemInv(DoPushNew(s, t, item, p, c))
  {
    if Fresh(s, c) {
      var s' := DoPushNew(s, t, item, p, c);
      assert LocalOk(s, t) && RetiredOk(s, t);
      Assemble(s, s', t);
    } else {
      MemLeave(s, t, Load(Push(item)));
    }
  }

  lemma MemPushSwing(s: State, t: nat, item: int, p: Addr, node: Addr)
    requires At(s, t, PushSwing(item, p, node)) && node in s.heap
    ensures MemInv(DoPushSwing(s, t, item, p, node))
  {
    var s' := DoPushSwing(s, t, item, p, node);
    if s.tail == p {
      MemPushSwingChain(s, t, item, p, node);
      MemPushSwingOwn(s, t, item, p, node);
      Assemble(s, s', t);
    } else {
      PushSwingFails(s, t, item, p, node);
    }
  }

  lemma MemPushSwingChain(s: State, t: nat, item: int, p: Addr, node: Addr)
    requires At(s, t, PushSwing(item, p, node)) && node in s.heap && s.tail == p
    ensures var s' := DoPushSwing(s, t, item, p, node); ChainOk(s') && Evolves(s, s', t)
  {
    assert LocalOk(s, t);
  }

  lemma MemPushSwingOwn(s: State, t: nat, item: int, p: Addr, node: Addr)
    requires At(s, t, PushSwing(item, p, node)) && node in s.heap && s.tail == p
    requires NULL !in DoPushSwing(s, t, item, p, node).heap
    ensures OwnOk(s, DoPushSwing(s, t, item, p, node), t)
  {
    assert LocalOk(s, t) && RetiredOk(s, t);
  }

  lemma PushSwingFails(s: State, t: nat, item: int, p: Addr, node: Addr)
    requires At(s, t, PushSwing(item, p, node)) && node in s.heap && s.tail != p
    ensures MemInv(DoPushSwing(s, t, item, p, node))
  {
    var s' := DoPushSwing(s, t, item, p, node);
    assert LocalOk(s, t) && RetiredOk(s, t);
    Touch(s, s', t);
    Assemble(s, s', t);
  }

  lemma MemPushLink(s: State, t: nat, p: Addr, node: Addr)
    requires At(s, t, PushLink(p, node)) && p in s.heap
    ensures MemInv(DoPushLink(s, t, p, node))
  {
    hide LinkersDiffer;
    assert LocalOk(s, t) && RetiredOk(s, t);
    var s' := DoPushLink(s, t, p, node);
    PushLinkChain(s, t, p, node);
    Assemble(s, s', t);
  }

  lemma PushLinkChain(s: State, t: nat, p: Addr, node: Addr)
    requires At(s, t, PushLink(p, node)) && p in s.heap
    ensures var s' := DoPushLink(s, t, p, node); ChainOk(s') && Evolves(s, s', t)
  {
    assert LocalOk(s, t);
  }

  /** Freeing a node that no thread is using disturbs neither the chain nor any other thread. */
  lemma Free(s: State, s': State, t: nat, a: Addr)
    requires MemInv(s) && t < |s.threads| && a in s.heap
    requires s.heap[a].role == Private(t) || s.heap[a].role == Retired(t)
    requires forall u :: 0 <= u < |s.threads| ==> Held(s.threads[u].pc) != a
    requires |s'.threads| == |s.threads|
    requires s' == s.(heap := s.heap - {a}, now := s'.now, threads := s.threads[t := s'.threads[t]])
    ensures ChainOk(s') && Evolves(s, s', t)
  {
  }

  lemma MemPushFree(s: State, t: nat, item: int, node: Addr)
    requires At(s, t, PushFree(item, node))
    ensures MemInv(SetPc(s, t, Load(Push(item))).(heap := s.heap - {node}))
  {
    hide LinkersDiffer;
    assert LocalOk(s, t) && RetiredOk(s, t);
    var s' := SetPc(s, t, Load(Push(item))).(heap := s.heap - {node});
    Free(s, s', t, node);
    Assemble(s, s', t);
  }

  lemma MemPopFetch(s: State, t: nat, p: Addr)
    requires At(s, t, PopFetch(p)) && p in s.heap
    ensures MemInv(DoPopFetch(s, t, p))
  {
    assert LocalOk(s, t) && RetiredOk(s, t);
    Touch(s, DoPopFetch(s, t, p), t);
    Assemble(s, DoPopFetch(s, t, p), t);
  }

  lemma MemPopExchangeOwn(s: State, t: nat, p: Addr, idx: nat)
    requires At(s, t, PopExchange(p, idx)) && p in s.heap && idx < |s.heap[p].buffer|
    requires NULL !in DoPopExchange(s, t, p, idx).heap
    ensures OwnOk(s, DoPopExchange(s, t, p, idx), t)
  {
    hide LinkersDiffer;
    assert LocalOk(s, t) && RetiredOk(s, t);
  }

  lemma MemPopExchange(s: State, t: nat, p: Addr, idx: nat)
    requires At(s, t, PopExchange(p, idx)) && p in s.heap && idx < |s.heap[p].buffer|
    ensures MemInv(DoPopExchange(s, t, p, idx))
  {
    hide HoldOk, LocalOk, RetiredOk, ScanOk, LinkersDiffer, OwnOk;
    Touch(s, DoPopExchange(s, t, p, idx), t);
    MemPopExchangeOwn(s, t, p, idx);
    Assemble(s, DoPopExchange(s, t, p, idx), t);
  }

  lemma MemPopNext(s: State, t: nat, p: Addr)
    requires At(s, t, PopNext(p)) && p in s.heap
    ensures MemInv(DoPopNext(s, t, p))
  {
    if s.heap[p].next == NULL {
      MemLeave(s, t, Clear(Return(EMPTY_VALUE)));
    } else {
      assert LocalOk(s, t) && RetiredOk(s, t);
      Touch(s, DoPopNext(s, t, p), t);
      Assemble(s, DoPopNext(s, t, p), t);
    }
  }

  lemma MemPopSwing(s: State, t: nat, p: Addr, next: Addr)
    requires At(s, t, PopSwing(p, next)) && p in s.heap
    ensures MemInv(DoPopSwing(s, t, p, next))
  {
    hide LinkersDiffer;
    if s.head == p {
      assert LocalOk(s, t) && RetiredOk(s, t);
      PopSwingChain(s, t, p, next);
      Assemble(s, DoPopSwing(s, t, p, next), t);
    } else {
      MemLeave(s, t, Clear(Retry(Pop)));
    }
  }

  lemma PopSwingChain(s: State, t: nat, p: Addr, next: Addr)
    requires At(s, t, PopSwing(p, next)) && p in s.heap && s.head == p
    ensures var s' := DoPopSwing(s, t, p, next); ChainOk(s') && Evolves(s, s', t)
  {
    assert LocalOk(s, t);
    assert p == s.order[s.first] && next == s.order[s.first + 1];
  }

  lemma MemRetire(s: State, t: nat, p: Addr, c: Choice)
    requires At(s, t, Retire(p)) && p in s.heap
    ensures MemInv(DoRetire(s, t, p, c))
  {
    var s' := DoRetire(s, t, p, c);
    RetireChain(s, t, p, c);
    RetireOwn(s, t, p, c);
    Assemble(s, s', t);
  }

  lemma RetireChain(s: State, t: nat, p: Addr, c: Choice)
    requires At(s, t, Retire(p)) && p in s.heap
    ensures var s' := DoRetire(s, t, p, c); ChainOk(s') && Evolves(s, s', t)
  {
    assert LocalOk(s, t);
  }

  lemma RetireOwn(s: State, t: nat, p: Addr, c: Choice)
    requires At(s, t, Retire(p)) && p in s.heap
    ensures OwnOk(s, DoRetire(s, t, p, c), t)
  {
    assert LocalOk(s, t) && RetiredOk(s, t);
  }

  lemma MemScan(s: State, t: nat, i: nat, j: nat)
    requires At(s, t, Scan(i, j))
    ensures MemInv(DoScan(s, t, i, j))
  {
    var s' := DoScan(s, t, i, j);
    if i >= |s.threads[t].retired| {
      MemLeave(s, t, Clear(Retry(Pop)));
    } else if j >= |s.hp| {
      MemScanFreeChain(s, t, i, j);
      MemScanFreeOwn(s, t, i, j);
      Assemble(s, s', t);
    } else {
      ScanPasses(s, t, i, j);
    }
  }

  lemma ScanPassesKept(s: State, t: nat, i: nat, j: nat)
    requires At(s, t, Scan(i, j)) && i < |s.threads[t].retired| && j < |s.hp|
    requires NULL !in DoScan(s, t, i, j).heap
    ensures OwnOk(s, DoScan(s, t, i, j), t)
  {
    hide LinkersDiffer, ScanOk;
    assert LocalOk(s, t) && RetiredOk(s, t);
    ScanPassesOwn(s, t, i, j);
  }

  lemma ScanPasses(s: State, t: nat, i: nat, j: nat)
    requires At(s, t, Scan(i, j)) && i < |s.threads[t].retired| && j < |s.hp|
    ensures MemInv(DoScan(s, t, i, j))
  {
    hide HoldOk, LocalOk, RetiredOk, ScanOk, LinkersDiffer, OwnOk;
    var s' := DoScan(s, t, i, j);
    Touch(s, s', t);
    ScanPassesKept(s, t, i, j);
    Assemble(s, s', t);
  }

  lemma ScanPassesOwn(s: State, t: nat, i: nat, j: nat)
    requires At(s, t, Scan(i, j)) && i < |s.threads[t].retired| && j < |s.hp|
    ensures ScanOk(DoScan(s, t, i, j), t)
  {
    var s' := DoScan(s, t, i, j);
    assert ScanOk(s, t) && RetiredOk(s, t);
    if s.hp[j] != s.threads[t].retired[i] {
      forall u | 0 <= u < j + 1 ensures Held(s'.threads[u].pc) != s.threads[t].retired[i] {
        assert Held(s.threads[u].pc) != s.threads[t].retired[i];
      }
    }
  }

  lemma MemScanFreeChain(s: State, t: nat, i: nat, j: nat)
    requires At(s, t, Scan(i, j)) && i < |s.threads[t].retired| && j >= |s.hp|
    ensures var s' := DoScan(s, t, i, j); ChainOk(s') && Evolves(s, s', t)
  {
    hide ChainOk, Evolves, HoldOk, LinkersDiffer, LocalOk;
    assert RetiredOk(s, t) && ScanOk(s, t);
    Free(s, DoScan(s, t, i, j), t, s.threads[t].retired[i]);
  }

  lemma MemScanFreeOwn(s: State, t: nat, i: nat, j: nat)
    requires At(s, t, Scan(i, j)) && i < |s.threads[t].retired| && j >= |s.hp|
    ensures NULL !in DoScan(s, t, i, j).heap && OwnOk(s, DoScan(s, t, i, j), t)
  {
    hide Evolves, HoldOk, LinkersDiffer;
    assert LocalOk(s, t) && RetiredOk(s, t) && ScanOk(s, t);
  }

  lemma MemReadPush(s: State, t: nat, p: Addr)
    requires At(s, t, ReadPush(p)) && p in s.heap
    ensures MemInv(SetPc(s, t, ReadPop(p, s.heap[p].pushIdx)))
  {
    assert LocalOk(s, t) && RetiredOk(s, t);
    Touch(s, SetPc(s, t, ReadPop(p, s.heap[p].pushIdx)), t);
    Assemble(s, SetPc(s, t, ReadPop(p, s.heap[p].pushIdx)), t);
  }

  lemma MemReadPop(s: State, t: nat, p: Addr, pushIdx: nat)
    requires At(s, t, ReadPop(p, pushIdx)) && p in s.heap
    ensures MemInv(SetPc(s, t, ReadNext(p, pushIdx == s.heap[p].popIdx)))
  {
    assert LocalOk(s, t) && RetiredOk(s, t);
    Touch(s, SetPc(s, t, ReadNext(p, pushIdx == s.heap[p].popIdx)), t);
    Assemble(s, SetPc(s, t, ReadNext(p, pushIdx == s.heap[p].popIdx)), t);
  }

  lemma MemClear(s: State, t: nat, after: After)
    requires At(s, t, Clear(after))
    ensures MemInv(DoClear(s, t, after))
  {
    assert LocalOk(s, t) && RetiredOk(s, t);
    Touch(s, DoClear(s, t, after), t);
    Assemble(s, DoClear(s, t, after), t);
  }

  lemma MemStep(s: State, t: nat, c: Choice)
    requires MemInv(s) && t < |s.threads|
    requires Defined(s, t)
    ensures MemInv(Step(s, t, c))
  {
    hide MemInv;
    match s.threads[t].pc
    case Idle => MemIdle(s, t, c);
    case Load(op) => MemLoad(s, t, op);
    case Publish(op, p) => MemPublish(s, t, op, p);
    case Validate(op, p) => MemValidate(s, t, op, p);
    case PushFetch(item, p) => MemPushFetch(s, t, item, p);
    case PushCas(item, p, idx) => MemPushCas(s, t, item, p, idx);
    case PushNew(item, p) => MemPushNew(s, t, item, p, c);
    case PushSwing(item, p, node) => MemPushSwing(s, t, item, p, node);
    case PushLink(p, node) => MemPushLink(s, t, p, node);
    case PushFree(item, node) => MemPushFree(s, t, item, node);
    case PopFetch(p) => MemPopFetch(s, t, p);
    case PopExchange(p, idx) => MemPopExchange(s, t, p, idx);
    case PopNext(p) => MemPopNext(s, t, p);
    case PopSwing(p, next) => MemPopSwing(s, t, p, next);
    case Retire(p) => MemRetire(s, t, p, c);
    case Scan(i, j) => MemScan(s, t, i, j);
    case ReadPush(p) => MemReadPush(s, t, p);
    case ReadPop(p, pushIdx) => MemReadPop(s, t, p, pushIdx);
    case ReadNext(p, same) => MemLeave(s, t, Clear(Return(if same && s.heap[p].next == NULL then 1 else 0)));
    case Clear(after) => MemClear(s, t, after);
  }

  // ---------------------------------------------------------------------------------------------
  // Conservation and order, for values other than EMPTY_VALUE and TAKEN_VALUE
  // ---------------------------------------------------------------------------------------------

  predicate IsValue(v: int) { v != EMPTY_VALUE && v != TAKEN_VALUE }

  function Item(pc: PC): int {
    match pc
    case Load(Push(item)) => item
    case Publish(Push(item), _) => item
    case Validate(Push(item), _) => item
    case PushFetch(item, _) => item
    case PushCas(item, _, _) => item
    case PushNew(item, _) => item
    case PushSwing(item, _, _) => item
    case PushFree(item, _) => item
    case Clear(Retry(Push(item))) => item
    case _ => 1
  }

  ghost predicate Sized(s: State) {
    && |s.order| > 0 && s.head in s.heap && s.tail in s.heap
    && forall a :: a in s.heap ==> |s.heap[a].buffer| == BUFFER_SIZE
  }

  ghost predicate Claimed(s: State, a: Addr, i: nat) {
    exists t :: 0 <= t < |s.threads| && s.threads[t].pc == PopExchange(a, i)
  }

  /** The life of a slot: EMPTY, then a logged value, then TAKEN; or EMPTY, then TAKEN. */
  ghost predicate SlotOk(s: State, a: Addr, i: nat)
    requires a in s.heap && i < |s.heap[a].buffer|
  {
    var n := s.heap[a];
    var v := n.buffer[i];
    var x := Slot(n.serial, i);
    && (v == TAKEN_VALUE ==> i < n.popIdx && (x in s.log ==> x in s.gone))
    && (v == EMPTY_VALUE ==> x !in s.log)
    && (IsValue(v) ==> i < n.pushIdx && x in s.log && x !in s.gone && s.log[x].value == v)
    && (i < n.popIdx && v != TAKEN_VALUE ==> Claimed(s, a, i))
  }

  ghost predicate NodeOk(s: State, a: Addr)
    requires a in s.heap && |s.heap[a].buffer| == BUFFER_SIZE
  {
    var n := s.heap[a];
    !n.role.Private? ==>
      && n.serial < |s.order| && s.order[n.serial] == a
      && (n.serial < s.first ==> n.popIdx >= BUFFER_SIZE)
      && (n.serial > s.first ==> n.popIdx == 0)
      && (n.serial < |s.order| - 1 ==> n.pushIdx >= BUFFER_SIZE)
      && forall i :: 0 <= i < BUFFER_SIZE ==> SlotOk(s, a, i)
  }

  ghost predicate LogOk(s: State) {
    && (forall x :: x in s.log ==>
          && x.idx < BUFFER_SIZE && x.serial < |s.order| && Pos(x) < s.pushClaims
          && s.log[x].began <= s.log[x].done < s.now
          && (x !in s.gone ==>
                s.order[x.serial] in s.heap && !s.heap[s.order[x.serial]].role.Private?
                && s.heap[s.order[x.serial]].serial == x.serial))
    && (forall x :: x in s.gone ==> x in s.log && s.gone[x] == s.log[x].value && Pos(x) < |s.claimedAt|)
  }

  /** A push that stored its value before another one was invoked owns the earlier slot. */
  ghost predicate LogOrdered(s: State) {
    forall x, y :: x in s.log && y in s.log && s.log[x].done < s.log[y].began ==> Pos(x) < Pos(y)
  }

  ghost predicate ClaimsOk(s: State)
    requires Sized(s)
  {
    && s.pushClaims == (|s.order| - 1) * BUFFER_SIZE + Min(s.heap[s.tail].pushIdx, BUFFER_SIZE)
    && |s.claimedAt| == s.first * BUFFER_SIZE + Min(s.heap[s.head].popIdx, BUFFER_SIZE)
    && (forall i :: 0 <= i < |s.claimedAt| ==> s.claimedAt[i] < s.now)
    && (forall i, j :: 0 <= i < j < |s.claimedAt| ==> s.claimedAt[i] < s.claimedAt[j])
  }

  function Min(a: nat, b: nat): nat { if a < b then a else b }

  ghost predicate PcOk(s: State, t: nat)
    requires Sized(s) && t < |s.threads|
  {
    var th := s.threads[t];
    && IsValue(Item(th.pc)) && th.began <= s.now
    && match th.pc
       case PushCas(_, p, idx) =>
         && p in s.heap && idx < BUFFER_SIZE && idx < s.heap[p].pushIdx && !IsValue(s.heap[p].buffer[idx])
         && Pos(Slot(s.heap[p].serial, idx)) < s.pushClaims
         && (forall x :: x in s.log && s.log[x].done < th.began ==> Pos(x) < Pos(Slot(s.heap[p].serial, idx)))
       case PushNew(_, p) => p in s.heap && s.heap[p].pushIdx >= BUFFER_SIZE
       case PushSwing(item, p, node) =>
         && p in s.heap && s.heap[p].pushIdx >= BUFFER_SIZE
         && node in s.heap && s.heap[node].pushIdx == 1 && s.heap[node].popIdx == 0
         && s.heap[node].buffer[0] == item
         && (forall i :: 1 <= i < BUFFER_SIZE ==> s.heap[node].buffer[i] == EMPTY_VALUE)
       case PopExchange(p, idx) =>
         && p in s.heap && idx < BUFFER_SIZE && idx < s.heap[p].popIdx && s.heap[p].buffer[idx] != TAKEN_VALUE
       case PopFetch(p) => p in s.heap && s.heap[p].serial <= s.first
       case PopNext(p) => p in s.heap && s.heap[p].popIdx >= BUFFER_SIZE
       case PopSwing(p, _) => p in s.heap && s.heap[p].popIdx >= BUFFER_SIZE
       case _ => true
  }

  /** Every slot index is handed to at most one push and to at most one pop. */
  ghost predicate OwnersDiffer(s: State) {
    forall t, u :: 0 <= t < |s.threads| && 0 <= u < |s.threads| && t != u ==>
      var p, q := s.threads[t].pc, s.threads[u].pc;
      && !(p.PushCas? && q.PushCas? && p.p == q.p && p.idx == q.idx)
      && !(p.PopExchange? && q.PopExchange? && p.p == q.p && p.idx == q.idx)
  }

  ghost predicate SlotInv(s: State) {
    && Sized(s)
    && LogOk(s) && LogOrdered(s) && ClaimsOk(s) && OwnersDiffer(s)
    && (forall a :: a in s.heap ==> NodeOk(s, a))
    && (forall t :: 0 <= t < |s.threads| ==> PcOk(s, t))
  }

  ghost predicate SameNode(s: State, s': State, a: Addr)
    requires a in s.heap && a in s'.heap
  {
    var n, n' := s.heap[a], s'.heap[a];
    n'.buffer == n.buffer && n'.pushIdx == n.pushIdx && n'.popIdx == n.popIdx && n'.serial == n.serial
    && (n'.role.Private? <==> n.role.Private?)
  }

  /** A step that changes no counter, no slot and no history except the clock, and does not start or finish a
      claim. */
  ghost predicate Quiet(s: State, s': State, t: nat) {
    && t < |s.threads| == |s'.threads|
    && s'.heap.Keys == s.heap.Keys && (forall a :: a in s.heap ==> SameNode(s, s', a))
    && (forall u :: 0 <= u < |s.threads| && u != t ==> s'.threads[u] == s.threads[u])
    && s'.order == s.order && s'.first == s.first && s'.head == s.head && s'.tail == s.tail
    && s'.log == s.log && s'.gone == s.gone && s'.claimedAt == s.claimedAt && s'.pushClaims == s.pushClaims
    && s'.now == s.now + 1
    && !s.threads[t].pc.PopExchange? && !s'.threads[t].pc.PopExchange? && !s'.threads[t].pc.PushCas?
  }

  lemma QuietNode(s: State, s': State, t: nat, a: Addr)
    requires SlotInv(s) && Quiet(s, s', t) && a in s.heap
    ensures Sized(s') && NodeOk(s', a)
  {
    assert NodeOk(s, a) && SameNode(s, s', a);
    hide LogOk, LogOrdered, ClaimsOk, OwnersDiffer, PcOk;
    forall i | 0 <= i < BUFFER_SIZE && !s.heap[a].role.Private? ensures SlotOk(s', a, i) {
      assert SlotOk(s, a, i);
      if Claimed(s, a, i) {
        var u :| 0 <= u < |s.threads| && s.threads[u].pc == PopExchange(a, i);
        assert s'.threads[u].pc == PopExchange(a, i);
      }
    }
  }

  lemma QuietHistory(s: State, s': State, t: nat)
    requires SlotInv(s) && Quiet(s, s', t)
    ensures Sized(s') && LogOk(s') && LogOrdered(s') && ClaimsOk(s') && OwnersDiffer(s')
  {
    hide NodeOk, PcOk;
    assert SameNode(s, s', s.head) && SameNode(s, s', s.tail);
    forall x | x in s.log && x !in s.gone ensures SameNode(s, s', s.order[x.serial]) { }
  }

  lemma QuietOther(s: State, s': State, t: nat, u: nat)
    requires SlotInv(s) && Quiet(s, s', t) && u < |s.threads| && u != t
    ensures Sized(s') && PcOk(s', u)
  {
    assert PcOk(s, u);
    hide NodeOk, LogOk, LogOrdered, ClaimsOk, OwnersDiffer;
    forall a | a in s.heap ensures SameNode(s, s', a) { }
  }

  lemma SlotQuiet(s: State, s': State, t: nat)
    requires SlotInv(s) && Quiet(s, s', t) && Sized(s') && PcOk(s', t)
    ensures SlotInv(s')
  {
    hide LogOk, LogOrdered, ClaimsOk, OwnersDiffer, PcOk, NodeOk, SameNode;
    QuietHistory(s, s', t);
    forall a | a in s'.heap ensures NodeOk(s', a) {
      QuietNode(s, s', t, a);
    }
    forall u | 0 <= u < |s.threads| && u != t ensures PcOk(s', u) {
      QuietOther(s, s', t, u);
    }
  }

  /** What one step of thread `t` may do to counters, slots and history. */
  ghost predicate SlotEvolves(s: State, s': State, t: nat)
    requires Sized(s) && Sized(s')
  {
    && t < |s.threads| == |s'.threads|
    && (forall u :: 0 <= u < |s.threads| && u != t ==> s'.threads[u] == s.threads[u])
    && s.order <= s'.order && s.first <= s'.first && s.pushClaims <= s'.pushClaims && s'.now == s.now + 1
    && (forall x :: x in s'.log ==> if x in s.log then s'.log[x] == s.log[x] else s'.log[x].done == s.now)
    && (forall a :: a in s.heap && a in s'.heap ==> CountersGrow(s, s', t, a))
  }

  ghost predicate CountersGrow(s: State, s': State, t: nat, a: Addr)
    requires Sized(s) && Sized(s') && a in s.heap && a in s'.heap && t < |s.threads|
  {
    var n, n' := s.heap[a], s'.heap[a];
    var pc := s.threads[t].pc;
    if n.role.Private? then n.role != Private(t) ==> n' == n
    else
      && n'.serial == n.serial && n.pushIdx <= n'.pushIdx && n.popIdx <= n'.popIdx
      && forall i :: 0 <= i < BUFFER_SIZE ==>
           || n'.buffer[i] == n.buffer[i]
           || (pc.PushCas? && pc.p == a && pc.idx == i && IsValue(n'.buffer[i]))
           || (pc.PopExchange? && pc.p == a && pc.idx == i && n'.buffer[i] == TAKEN_VALUE)
  }

  lemma SlotOther(s: State, s': State, t: nat, u: nat)
    requires MemInv(s) && MemInv(s') && SlotInv(s) && SlotEvolves(s, s', t)
    requires u < |s.threads| && u != t
    ensures PcOk(s', u)
  {
    assert PcOk(s, u) && LocalOk(s, u) && LocalOk(s', u);
    var p := Held(s.threads[u].pc);
    if p != NULL {
      assert p in s.heap && p in s'.heap && CountersGrow(s, s', t, p);
    }
    if s.threads[u].pc.PushSwing? {
      assert CountersGrow(s, s', t, s.threads[u].pc.node);
    }
  }

  /** A node whose slots, counters and slot history a step leaves alone stays consistent. */
  lemma SlotFrame(s: State, s': State, t: nat, a: Addr)
    requires SlotInv(s) && Sized(s') && SlotEvolves(s, s', t)
    requires a in s.heap && a in s'.heap && SameNode(s, s', a) && s'.first == s.first
    requires !s.heap[a].role.Private? ==>
               && !(s.threads[t].pc.PopExchange? && s.threads[t].pc.p == a)
               && (s.order == s'.order || s.heap[a].serial < |s.order| - 1 || s.heap[a].pushIdx >= BUFFER_SIZE)
               && forall i :: 0 <= i < BUFFER_SIZE ==>
                    var x := Slot(s.heap[a].serial, i);
                    (x in s'.log <==> x in s.log) && (x in s'.gone <==> x in s.gone)
    ensures NodeOk(s', a)
  {
    assert NodeOk(s, a);
    forall i | 0 <= i < BUFFER_SIZE && !s.heap[a].role.Private? ensures SlotOk(s', a, i) {
      assert SlotOk(s, a, i);
      ClaimStays(s, s', t, a, i);
    }
  }

  lemma ClaimStays(s: State, s': State, t: nat, a: Addr, i: nat)
    requires t < |s.threads| == |s'.threads|
    requires forall u :: 0 <= u < |s.threads| && u != t ==> s'.threads[u] == s.threads[u]
    requires s.threads[t].pc != PopExchange(a, i)
    ensures Claimed(s, a, i) ==> Claimed(s', a, i)
  {
    if Claimed(s, a, i) {
      var u :| 0 <= u < |s.threads| && s.threads[u].pc == PopExchange(a, i);
      assert s'.threads[u].pc == PopExchange(a, i);
    }
  }

  lemma SlotAssemble(s: State, s': State, t: nat)
    requires MemInv(s) && MemInv(s') && SlotInv(s) && Sized(s') && SlotEvolves(s, s', t)
    requires LogOk(s') && LogOrdered(s') && ClaimsOk(s') && OwnersDiffer(s') && PcOk(s', t)
    requires forall a :: a in s'.heap ==> NodeOk(s', a)
    ensures SlotInv(s')
  {
    forall u | 0 <= u < |s.threads| && u != t ensures PcOk(s', u) {
      SlotOther(s, s', t, u);
    }
  }

  lemma PushFetchEvolves(s: State, t: nat, item: int, p: Addr)
    requires At(s, t, PushFetch(item, p)) && p in s.heap && SlotInv(s)
    ensures var s' := DoPushFetch(s, t, item, p); Sized(s') && SlotEvolves(s, s', t)
  {
    hide RetiredOk, ScanOk, LinkersDiffer, OwnersDiffer, SlotOk, LogOrdered, ClaimsOk, LogOk;
    assert NodeOk(s, p);
  }

  lemma PushFetchLog(s: State, t: nat, item: int, p: Addr)
    requires At(s, t, PushFetch(item, p)) && p in s.heap && SlotInv(s)
    ensures var s' := DoPushFetch(s, t, item, p); Sized(s') && LogOk(s') && LogOrdered(s')
  {
    hide RetiredOk, ScanOk, LinkersDiffer, OwnersDiffer, SlotOk;
    assert NodeOk(s, p);
  }

  lemma PushFetchClaims(s: State, t: nat, item: int, p: Addr)
    requires At(s, t, PushFetch(item, p)) && p in s.heap && SlotInv(s)
    ensures var s' := DoPushFetch(s, t, item, p); Sized(s') && ClaimsOk(s')
  {
    hide RetiredOk, ScanOk, LinkersDiffer, OwnersDiffer, SlotOk, LogOrdered, LogOk;
    assert NodeOk(s, p);
  }

  lemma PushFetchNode(s: State, t: nat, item: int, p: Addr, a: Addr)
    requires At(s, t, PushFetch(item, p)) && p in s.heap && SlotInv(s) && a in s.heap
    ensures Sized(DoPushFetch(s, t, item, p)) && NodeOk(DoPushFetch(s, t, item, p), a)
  {
    var s' := DoPushFetch(s, t, item, p);
    PushFetchEvolves(s, t, item, p);
    if a != p {
      SlotFrame(s, s', t, a);
    } else {
      assert NodeOk(s, p);
      forall i | 0 <= i < BUFFER_SIZE ensures SlotOk(s', p, i) {
        assert SlotOk(s, p, i);
        ClaimStays(s, s', t, p, i);
      }
    }
  }

  lemma PushFetchOwn(s: State, t: nat, item: int, p: Addr)
    requires At(s, t, PushFetch(item, p)) && p in s.heap && SlotInv(s)
    ensures var s' := DoPushFetch(s, t, item, p);
            Sized(s') && PcOk(s', t) && OwnersDiffer(s')
  {
    hide RetiredOk, ScanOk, LinkersDiffer, LogOrdered;
    var s' := DoPushFetch(s, t, item, p);
    var idx := s.heap[p].pushIdx;
    assert NodeOk(s, p) && PcOk(s, t);
    if idx < BUFFER_SIZE {
      assert SlotOk(s, p, idx);
      assert p == s.tail;
    }
    assert PcOk(s', t);
    forall u | 0 <= u < |s.threads| && u != t
      ensures !(s.threads[u].pc.PushCas? && s.threads[u].pc.p == p && s.threads[u].pc.idx == idx)
    {
      assert PcOk(s, u);
    }
  }

  lemma SlotPushFetch(s: State, t: nat, item: int, p: Addr)
    requires At(s, t, PushFetch(item, p)) && p in s.heap && SlotInv(s)
    requires MemInv(DoPushFetch(s, t, item, p))
    ensures SlotInv(DoPushFetch(s, t, item, p))
  {
    var s' := DoPushFetch(s, t, item, p);
    PushFetchEvolves(s, t, item, p);
    PushFetchLog(s, t, item, p);
    PushFetchClaims(s, t, item, p);
    PushFetchOwn(s, t, item, p);
    forall a | a in s'.heap ensures NodeOk(s', a) {
      PushFetchNode(s, t, item, p, a);
    }
    SlotAssemble(s, s', t);
  }

  /** The slot that a successful compare-and-swap fills has a node in the chain's history, is new to the log and
      comes after all values stored before the push was called. */
  lemma PushCasFacts(s: State, t: nat, item: int, p: Addr, idx: nat)
    requires At(s, t, PushCas(item, p, idx)) && p in s.heap && idx < |s.heap[p].buffer|
             && s.heap[p].buffer[idx] == EMPTY_VALUE && SlotInv(s)
    ensures idx < BUFFER_SIZE && !s.heap[p].role.Private? && idx < s.heap[p].pushIdx
    ensures s.heap[p].serial < |s.order| && s.order[s.heap[p].serial] == p
    ensures var x := Slot(s.heap[p].serial, idx);
            x !in s.log && x !in s.gone && Pos(x) < s.pushClaims
            && forall y :: y in s.log && s.log[y].done < s.threads[t].began ==> Pos(y) < Pos(x)
    ensures IsValue(item) && s.threads[t].began <= s.now
  {
    hide RetiredOk, ScanOk, LinkersDiffer, OwnersDiffer, LogOrdered, ClaimsOk;
    assert NodeOk(s, p) && PcOk(s, t) && SlotOk(s, p, idx);
  }

  lemma PushCasEvolves(s: State, t: nat, item: int, p: Addr, idx: nat)
    requires At(s, t, PushCas(item, p, idx)) && p in s.heap && idx < |s.heap[p].buffer|
             && s.heap[p].buffer[idx] == EMPTY_VALUE && SlotInv(s)
    ensures var s' := DoPushCas(s, t, item, p, idx); Sized(s') && SlotEvolves(s, s', t)
  {
    hide ChainOk, HoldOk, LocalOk, RetiredOk, ScanOk, LinkersDiffer, OwnersDiffer, LogOk, LogOrdered, NodeOk, PcOk,
         SlotOk, ClaimsOk;
    PushCasFacts(s, t, item, p, idx);
  }

  lemma PushCasLog(s: State, t: nat, item: int, p: Addr, idx: nat)
    requires At(s, t, PushCas(item, p, idx)) && p in s.heap && idx < |s.heap[p].buffer|
             && s.heap[p].buffer[idx] == EMPTY_VALUE && SlotInv(s)
    ensures var s' := DoPushCas(s, t, item, p, idx); Sized(s') && LogOk(s')
  {
    hide ChainOk, HoldOk, LocalOk, RetiredOk, ScanOk, LinkersDiffer, OwnersDiffer, LogOrdered, NodeOk, PcOk, SlotOk,
         ClaimsOk;
    PushCasFacts(s, t, item, p, idx);
  }

  lemma PushCasOrdered(s: State, t: nat, item: int, p: Addr, idx: nat)
    requires At(s, t, PushCas(item, p, idx)) && p in s.heap && idx < |s.heap[p].buffer|
             && s.heap[p].buffer[idx] == EMPTY_VALUE && SlotInv(s)
    ensures var s' := DoPushCas(s, t, item, p, idx); LogOrdered(s')
  {
    hide ChainOk, HoldOk, LocalOk, RetiredOk, ScanOk, LinkersDiffer, OwnersDiffer, NodeOk, PcOk, SlotOk, ClaimsOk;
    PushCasFacts(s, t, item, p, idx);
  }

  lemma PushCasClaims(s: State, t: nat, item: int, p: Addr, idx: nat)
    requires At(s, t, PushCas(item, p, idx)) && p in s.heap && idx < |s.heap[p].buffer|
             && s.heap[p].buffer[idx] == EMPTY_VALUE && SlotInv(s)
    ensures var s' := DoPushCas(s, t, item, p, idx); Sized(s') && ClaimsOk(s')
  {
    hide ChainOk, HoldOk, LocalOk, RetiredOk, ScanOk, LinkersDiffer, OwnersDiffer, LogOk, LogOrdered, NodeOk, PcOk,
         SlotOk;
    PushCasFacts(s, t, item, p, idx);
  }

  /** Nodes in the chain's history have different places there. */
  lemma SerialsDiffer(s: State, a: Addr, b: Addr)
    requires SlotInv(s) && a in s.heap && b in s.heap && a != b
    requires !s.heap[a].role.Private? && !s.heap[b].role.Private?
    ensures s.heap[a].serial < |s.order| && s.heap[b].serial < |s.order| && s.heap[a].serial != s.heap[b].serial
    ensures s.heap[a].serial < |s.order| - 1 ==> s.heap[a].pushIdx >= BUFFER_SIZE
  {
    hide LogOk, LogOrdered, ClaimsOk, OwnersDiffer, PcOk;
    assert NodeOk(s, a) && NodeOk(s, b);
  }

  lemma PushCasOtherNode(s: State, t: nat, item: int, p: Addr, idx: nat, a: Addr)
    requires At(s, t, PushCas(item, p, idx)) && p in s.heap && idx < |s.heap[p].buffer|
             && s.heap[p].buffer[idx] == EMPTY_VALUE && SlotInv(s) && a in s.heap && a != p
    ensures Sized(DoPushCas(s, t, item, p, idx)) && NodeOk(DoPushCas(s, t, item, p, idx), a)
  {
    hide ChainOk, HoldOk, LocalOk, RetiredOk, ScanOk, LinkersDiffer, OwnersDiffer, LogOk, LogOrdered, ClaimsOk, NodeOk,
         PcOk;
    PushCasEvolves(s, t, item, p, idx);
    PushCasFacts(s, t, item, p, idx);
    if !s.heap[a].role.Private? {
      SerialsDiffer(s, a, p);
    }
    SlotFrame(s, DoPushCas(s, t, item, p, idx), t, a);
  }

  lemma PushCasNode(s: State, t: nat, item: int, p: Addr, idx: nat, a: Addr)
    requires At(s, t, PushCas(item, p, idx)) && p in s.heap && idx < |s.heap[p].buffer|
             && s.heap[p].buffer[idx] == EMPTY_VALUE && SlotInv(s) && a in DoPushCas(s, t, item, p, idx).heap
    ensures Sized(DoPushCas(s, t, item, p, idx)) && NodeOk(DoPushCas(s, t, item, p, idx), a)
  {
    hide ChainOk, HoldOk, LocalOk, RetiredOk, ScanOk, LinkersDiffer, OwnersDiffer, LogOk, LogOrdered, ClaimsOk, PcOk;
    var s' := DoPushCas(s, t, item, p, idx);
    if a != p {
      PushCasOtherNode(s, t, item, p, idx, a);
    } else {
      PushCasEvolves(s, t, item, p, idx);
      PushCasFacts(s, t, item, p, idx);
      assert NodeOk(s, p);
      forall i | 0 <= i < BUFFER_SIZE ensures SlotOk(s', p, i) {
        assert SlotOk(s, p, i);
        ClaimStays(s, s', t, p, i);
      }
    }
  }

  lemma PushCasOwn(s: State, t: nat, item: int, p: Addr, idx: nat)
    requires At(s, t, PushCas(item, p, idx)) && p in s.heap && idx < |s.heap[p].buffer|
             && s.heap[p].buffer[idx] == EMPTY_VALUE && SlotInv(s)
    ensures var s' := DoPushCas(s, t, item, p, idx);
            Sized(s') && PcOk(s', t) && OwnersDiffer(s')
  {
    assert PcOk(s, t);
  }

  lemma SlotPushCas(s: State, t: nat, item: int, p: Addr, idx: nat)
    requires At(s, t, PushCas(item, p, idx)) && p in s.heap && idx < |s.heap[p].buffer|
             && s.heap[p].buffer[idx] == EMPTY_VALUE && SlotInv(s)
    requires MemInv(DoPushCas(s, t, item, p, idx))
    ensures SlotInv(DoPushCas(s, t, item, p, idx))
  {
    var s' := DoPushCas(s, t, item, p, idx);
    PushCasEvolves(s, t, item, p, idx);
    PushCasLog(s, t, item, p, idx);
    PushCasOrdered(s, t, item, p, idx);
    PushCasClaims(s, t, item, p, idx);
    PushCasOwn(s, t, item, p, idx);
    forall a | a in s'.heap ensures NodeOk(s', a) {
      PushCasNode(s, t, item, p, idx, a);
    }
    SlotAssemble(s, s', t);
  }

  /** What is known when the tail pointer is swung to a new node. */
  lemma PushSwingFacts(s: State, t: nat, item: int, p: Addr, node: Addr)
    requires At(s, t, PushSwing(item, p, node)) && node in s.heap && s.tail == p && SlotInv(s)
    ensures p in s.heap && p != node && !s.heap[p].role.Private? && s.heap[p].serial == |s.order| - 1
             && s.heap[p].pushIdx >= BUFFER_SIZE
    ensures s.heap[node].role == Private(t) && s.heap[node].pushIdx == 1 && s.heap[node].popIdx == 0
    ensures |s.heap[node].buffer| == BUFFER_SIZE && s.heap[node].buffer[0] == item && IsValue(item)
    ensures forall i :: 1 <= i < BUFFER_SIZE ==> s.heap[node].buffer[i] == EMPTY_VALUE
    ensures forall x :: x in s.log ==> x.serial < |s.order|
    ensures forall x :: x in s.gone ==> x in s.log
    ensures s.first < |s.order| && s.pushClaims == |s.order| * BUFFER_SIZE && s.threads[t].began <= s.now
  {
    hide RetiredOk, ScanOk, LinkersDiffer, OwnersDiffer, LogOrdered, NodeOk;
    assert PcOk(s, t) && LocalOk(s, t);
  }

  lemma PushSwingEvolves(s: State, t: nat, item: int, p: Addr, node: Addr)
    requires At(s, t, PushSwing(item, p, node)) && node in s.heap && s.tail == p && SlotInv(s)
    ensures var s' := DoPushSwing(s, t, item, p, node); Sized(s') && SlotEvolves(s, s', t)
  {
    hide ChainOk, HoldOk, LocalOk, RetiredOk, ScanOk, LinkersDiffer, OwnersDiffer, LogOrdered, LogOk, ClaimsOk, NodeOk,
         PcOk;
    PushSwingFacts(s, t, item, p, node);
  }

  lemma PushSwingLog(s: State, t: nat, item: int, p: Addr, node: Addr)
    requires At(s, t, PushSwing(item, p, node)) && node in s.heap && s.tail == p && SlotInv(s)
    ensures var s' := DoPushSwing(s, t, item, p, node); Sized(s') && LogOk(s')
  {
    hide ChainOk, HoldOk, LocalOk, RetiredOk, ScanOk, LinkersDiffer, OwnersDiffer, LogOrdered, ClaimsOk, NodeOk, PcOk;
    PushSwingFacts(s, t, item, p, node);
  }

  lemma PushSwingOrdered(s: State, t: nat, item: int, p: Addr, node: Addr)
    requires At(s, t, PushSwing(item, p, node)) && node in s.heap && s.tail == p && SlotInv(s)
    ensures var s' := DoPushSwing(s, t, item, p, node); LogOrdered(s')
  {
    hide RetiredOk, ScanOk, LinkersDiffer, OwnersDiffer, SlotOk, ClaimsOk;
    assert NodeOk(s, p) && PcOk(s, t) && LocalOk(s, t);
  }

  lemma PushSwingClaims(s: State, t: nat, item: int, p: Addr, node: Addr)
    requires At(s, t, PushSwing(item, p, node)) && node in s.heap && s.tail == p && SlotInv(s)
    ensures var s' := DoPushSwing(s, t, item, p, node); Sized(s') && ClaimsOk(s')
  {
    hide ChainOk, HoldOk, LocalOk, RetiredOk, ScanOk, LinkersDiffer, OwnersDiffer, LogOrdered, LogOk, NodeOk, PcOk;
    PushSwingFacts(s, t, item, p, node);
  }

  lemma PushSwingOtherNode(s: State, t: nat, item: int, p: Addr, node: Addr, a: Addr)
    requires At(s, t, PushSwing(item, p, node)) && node in s.heap && s.tail == p && SlotInv(s)
    requires a in s.heap && a != node
    ensures Sized(DoPushSwing(s, t, item, p, node)) && NodeOk(DoPushSwing(s, t, item, p, node), a)
  {
    hide ChainOk, HoldOk, LocalOk, RetiredOk, ScanOk, LinkersDiffer, OwnersDiffer, LogOk, LogOrdered, ClaimsOk, PcOk;
    PushSwingEvolves(s, t, item, p, node);
    PushSwingFacts(s, t, item, p, node);
    if a != p && !s.heap[a].role.Private? {
      SerialsDiffer(s, a, p);
    }
    assert NodeOk(s, a);
    SlotFrame(s, DoPushSwing(s, t, item, p, node), t, a);
  }

  lemma PushSwingNode(s: State, t: nat, item: int, p: Addr, node: Addr, a: Addr)
    requires At(s, t, PushSwing(item, p, node)) && node in s.heap && s.tail == p && SlotInv(s)
             && a in DoPushSwing(s, t, item, p, node).heap
    ensures Sized(DoPushSwing(s, t, item, p, node)) && NodeOk(DoPushSwing(s, t, item, p, node), a)
  {
    hide ChainOk, HoldOk, LocalOk, RetiredOk, ScanOk, LinkersDiffer, OwnersDiffer, LogOk, LogOrdered, ClaimsOk, PcOk;
    var s' := DoPushSwing(s, t, item, p, node);
    if a != node {
      PushSwingOtherNode(s, t, item, p, node, a);
    } else {
      PushSwingEvolves(s, t, item, p, node);
      PushSwingFacts(s, t, item, p, node);
      forall i | 0 <= i < BUFFER_SIZE ensures SlotOk(s', node, i) { }
    }
  }

  lemma PushSwingOwn(s: State, t: nat, item: int, p: Addr, node: Addr)
    requires At(s, t, PushSwing(item, p, node)) && node in s.heap && s.tail == p && SlotInv(s)
    ensures var s' := DoPushSwing(s, t, item, p, node);
            Sized(s') && PcOk(s', t) && OwnersDiffer(s')
  {
    assert PcOk(s, t);
  }

  lemma SlotPushSwing(s: State, t: nat, item: int, p: Addr, node: Addr)
    requires At(s, t, PushSwing(item, p, node)) && node in s.heap && s.tail == p && SlotInv(s)
    requires MemInv(DoPushSwing(s, t, item, p, node))
    ensures SlotInv(DoPushSwing(s, t, item, p, node))
  {
    var s' := DoPushSwing(s, t, item, p, node);
    PushSwingEvolves(s, t, item, p, node);
    PushSwingLog(s, t, item, p, node);
    PushSwingOrdered(s, t, item, p, node);
    PushSwingClaims(s, t, item, p, node);
    PushSwingOwn(s, t, item, p, node);
    forall a | a in s'.heap ensures NodeOk(s', a) {
      PushSwingNode(s, t, item, p, node, a);
    }
    SlotAssemble(s, s', t);
  }

  /** The next unclaimed slot of a node that a pop has protected is the first unclaimed slot of the chain. */
  lemma PopFetchFacts(s: State, t: nat, p: Addr)
    requires At(s, t, PopFetch(p)) && p in s.heap && SlotInv(s)
    ensures !s.heap[p].role.Private? && s.heap[p].serial <= s.first
    ensures s.heap[p].popIdx < BUFFER_SIZE ==> p == s.head
    ensures p != s.head ==> s.heap[p].popIdx >= BUFFER_SIZE
  {
    hide RetiredOk, ScanOk, LinkersDiffer, OwnersDiffer, SlotOk, LogOrdered, LogOk, ClaimsOk;
    assert NodeOk(s, p) && PcOk(s, t);
  }

  lemma PopFetchEvolves(s: State, t: nat, p: Addr)
    requires At(s, t, PopFetch(p)) && p in s.heap && SlotInv(s)
    ensures var s' := DoPopFetch(s, t, p); Sized(s') && SlotEvolves(s, s', t)
  {
    hide RetiredOk, ScanOk, LinkersDiffer, OwnersDiffer, SlotOk, LogOrdered, ClaimsOk, LogOk;
    assert NodeOk(s, p) && PcOk(s, t);
  }

  lemma PopFetchLog(s: State, t: nat, p: Addr)
    requires At(s, t, PopFetch(p)) && p in s.heap && SlotInv(s)
    ensures var s' := DoPopFetch(s, t, p); Sized(s') && LogOk(s') && LogOrdered(s')
  {
    hide ChainOk, HoldOk, LocalOk, RetiredOk, ScanOk, LinkersDiffer, OwnersDiffer, ClaimsOk, NodeOk, PcOk;
    PopFetchFacts(s, t, p);
  }

  lemma PopFetchClaims(s: State, t: nat, p: Addr)
    requires At(s, t, PopFetch(p)) && p in s.heap && SlotInv(s)
    ensures var s' := DoPopFetch(s, t, p); Sized(s') && ClaimsOk(s')
  {
    hide ChainOk, HoldOk, LocalOk, RetiredOk, ScanOk, LinkersDiffer, OwnersDiffer, LogOrdered, LogOk, NodeOk, PcOk;
    PopFetchFacts(s, t, p);
  }

  lemma PopFetchNode(s: State, t: nat, p: Addr, a: Addr)
    requires At(s, t, PopFetch(p)) && p in s.heap && SlotInv(s) && a in DoPopFetch(s, t, p).heap
    ensures Sized(DoPopFetch(s, t, p)) && NodeOk(DoPopFetch(s, t, p), a)
  {
    var s' := DoPopFetch(s, t, p);
    PopFetchEvolves(s, t, p);
    assert NodeOk(s, a) && NodeOk(s, p);
    if a != p {
      SlotFrame(s, s', t, a);
    } else {
      assert PcOk(s, t);
      forall i | 0 <= i < BUFFER_SIZE ensures SlotOk(s', p, i) {
        assert SlotOk(s, p, i);
        if i == s.heap[p].popIdx {
          assert s'.threads[t].pc == PopExchange(p, i);
        } else {
          ClaimStays(s, s', t, p, i);
        }
      }
    }
  }

  lemma PopFetchOwners(s: State, t: nat, p: Addr)
    requires At(s, t, PopFetch(p)) && p in s.heap && SlotInv(s)
    ensures OwnersDiffer(DoPopFetch(s, t, p))
  {
    hide MemInv, LogOk, LogOrdered, ClaimsOk, NodeOk;
    var idx := s.heap[p].popIdx;
    forall u | 0 <= u < |s.threads| && u != t
      ensures !(s.threads[u].pc.PopExchange? && s.threads[u].pc.p == p && s.threads[u].pc.idx == idx)
    {
      assert PcOk(s, u);
    }
  }

  lemma PopFetchOwn(s: State, t: nat, p: Addr)
    requires At(s, t, PopFetch(p)) && p in s.heap && SlotInv(s)
    ensures var s' := DoPopFetch(s, t, p);
            Sized(s') && PcOk(s', t) && OwnersDiffer(s')
  {
    hide RetiredOk, ScanOk, LinkersDiffer, LogOk, LogOrdered, ClaimsOk, OwnersDiffer;
    var idx := s.heap[p].popIdx;
    assert NodeOk(s, p) && PcOk(s, t);
    if idx < BUFFER_SIZE {
      assert SlotOk(s, p, idx);
    }
    PopFetchOwners(s, t, p);
  }

  lemma SlotPopFetch(s: State, t: nat, p: Addr)
    requires At(s, t, PopFetch(p)) && p in s.heap && SlotInv(s)
    requires MemInv(DoPopFetch(s, t, p))
    ensures SlotInv(DoPopFetch(s, t, p))
  {
    var s' := DoPopFetch(s, t, p);
    PopFetchEvolves(s, t, p);
    PopFetchLog(s, t, p);
    PopFetchClaims(s, t, p);
    PopFetchOwn(s, t, p);
    forall a | a in s'.heap ensures NodeOk(s', a) {
      PopFetchNode(s, t, p, a);
    }
    SlotAssemble(s, s', t);
  }

  /** The value that a pop takes is the logged value of its slot. */
  lemma PopExchangeFacts(s: State, t: nat, p: Addr, idx: nat)
    requires At(s, t, PopExchange(p, idx)) && p in s.heap && idx < |s.heap[p].buffer| && SlotInv(s)
    ensures !s.heap[p].role.Private? && s.heap[p].serial < |s.order| && idx < s.heap[p].popIdx && idx < BUFFER_SIZE
    ensures var x, v := Slot(s.heap[p].serial, idx), s.heap[p].buffer[idx];
            v != EMPTY_VALUE ==> x in s.log && x !in s.gone && s.log[x].value == v
  {
    hide RetiredOk, ScanOk, LinkersDiffer, OwnersDiffer, LogOrdered, LogOk, ClaimsOk;
    assert NodeOk(s, p) && PcOk(s, t) && SlotOk(s, p, idx);
  }

  lemma PopExchangePlace(s: State, p: Addr, idx: nat)
    requires SlotInv(s) && p in s.heap && !s.heap[p].role.Private? && idx < s.heap[p].popIdx && idx < BUFFER_SIZE
    requires ChainOk(s)
    ensures Pos(Slot(s.heap[p].serial, idx)) < |s.claimedAt|
  {
    hide LogOk, LogOrdered, OwnersDiffer, PcOk, SlotOk;
    assert NodeOk(s, p);
  }

  lemma PopExchangeEvolves(s: State, t: nat, p: Addr, idx: nat)
    requires At(s, t, PopExchange(p, idx)) && p in s.heap && idx < |s.heap[p].buffer| && SlotInv(s)
    ensures var s' := DoPopExchange(s, t, p, idx); Sized(s') && SlotEvolves(s, s', t)
  {
    hide RetiredOk, ScanOk, LinkersDiffer, OwnersDiffer, LogOrdered, ClaimsOk, LogOk;
    assert NodeOk(s, p) && PcOk(s, t) && SlotOk(s, p, idx);
  }

  lemma PopExchangeLog(s: State, t: nat, p: Addr, idx: nat)
    requires At(s, t, PopExchange(p, idx)) && p in s.heap && idx < |s.heap[p].buffer| && SlotInv(s)
    ensures var s' := DoPopExchange(s, t, p, idx); Sized(s') && LogOk(s') && LogOrdered(s')
  {
    hide ChainOk, HoldOk, LocalOk, RetiredOk, ScanOk, LinkersDiffer, OwnersDiffer, ClaimsOk, NodeOk, PcOk;
    PopExchangeFacts(s, t, p, idx);
    PopExchangePlace(s, p, idx);
  }

  lemma PopExchangeClaims(s: State, t: nat, p: Addr, idx: nat)
    requires At(s, t, PopExchange(p, idx)) && p in s.heap && idx < |s.heap[p].buffer| && SlotInv(s)
    ensures var s' := DoPopExchange(s, t, p, idx); Sized(s') && ClaimsOk(s')
  {
    hide RetiredOk, ScanOk, LinkersDiffer, OwnersDiffer, LogOrdered, LogOk;
    assert NodeOk(s, p) && PcOk(s, t) && SlotOk(s, p, idx);
  }

  lemma PopExchangeNode(s: State, t: nat, p: Addr, idx: nat, a: Addr)
    requires At(s, t, PopExchange(p, idx)) && p in s.heap && idx < |s.heap[p].buffer| && SlotInv(s)
             && a in DoPopExchange(s, t, p, idx).heap
    ensures Sized(DoPopExchange(s, t, p, idx)) && NodeOk(DoPopExchange(s, t, p, idx), a)
  {
    var s' := DoPopExchange(s, t, p, idx);
    PopExchangeEvolves(s, t, p, idx);
    assert NodeOk(s, a) && NodeOk(s, p);
    if a != p {
      SlotFrame(s, s', t, a);
    } else {
      assert PcOk(s, t);
      forall i | 0 <= i < BUFFER_SIZE ensures SlotOk(s', p, i) {
        assert SlotOk(s, p, i);
        if i != idx {
          ClaimStays(s, s', t, p, i);
        }
      }
    }
  }

  lemma PopExchangeOwn(s: State, t: nat, p: Addr, idx: nat)
    requires At(s, t, PopExchange(p, idx)) && p in s.heap && idx < |s.heap[p].buffer| && SlotInv(s)
    ensures var s' := DoPopExchange(s, t, p, idx);
            Sized(s') && PcOk(s', t) && OwnersDiffer(s')
  {
    assert PcOk(s, t);
    assert NodeOk(s, p) && SlotOk(s, p, idx);
  }

  lemma SlotPopExchange(s: State, t: nat, p: Addr, idx: nat)
    requires At(s, t, PopExchange(p, idx)) && p in s.heap && idx < |s.heap[p].buffer| && SlotInv(s)
    requires MemInv(DoPopExchange(s, t, p, idx))
    ensures SlotInv(DoPopExchange(s, t, p, idx))
  {
    var s' := DoPopExchange(s, t, p, idx);
    PopExchangeEvolves(s, t, p, idx);
    PopExchangeLog(s, t, p, idx);
    PopExchangeClaims(s, t, p, idx);
    PopExchangeOwn(s, t, p, idx);
    forall a | a in s'.heap ensures NodeOk(s', a) {
      PopExchangeNode(s, t, p, idx, a);
    }
    SlotAssemble(s, s', t);
  }

  lemma PopSwingEvolves(s: State, t: nat, p: Addr, next: Addr)
    requires At(s, t, PopSwing(p, next)) && p in s.heap && s.head == p && SlotInv(s)
    ensures var s' := DoPopSwing(s, t, p, next); Sized(s') && SlotEvolves(s, s', t)
  {
    hide RetiredOk, ScanOk, LinkersDiffer, OwnersDiffer, SlotOk, LogOrdered, ClaimsOk, LogOk;
    assert LocalOk(s, t) && PcOk(s, t) && next == s.order[s.first + 1];
    assert NodeOk(s, p) && NodeOk(s, next);
  }

  lemma PopSwingFacts(s: State, t: nat, p: Addr, next: Addr)
    requires At(s, t, PopSwing(p, next)) && p in s.heap && s.head == p && SlotInv(s)
    ensures Sized(s) && s.first + 1 < |s.order| && next == s.order[s.first + 1] && next in s.heap
    ensures !s.heap[p].role.Private? && LogOk(s) && LogOrdered(s)
  {
    hide RetiredOk, ScanOk, LinkersDiffer, OwnersDiffer, NodeOk, PcOk, LogOk, LogOrdered, ClaimsOk;
    assert LocalOk(s, t);
  }

  lemma PopSwingLog(s: State, t: nat, p: Addr, next: Addr)
    requires At(s, t, PopSwing(p, next)) && p in s.heap && s.head == p && SlotInv(s)
    ensures var s' := DoPopSwing(s, t, p, next); Sized(s') && LogOk(s') && LogOrdered(s')
  {
    hide SlotInv, MemInv;
    PopSwingFacts(s, t, p, next);
  }

  lemma PopSwingClaims(s: State, t: nat, p: Addr, next: Addr)
    requires At(s, t, PopSwing(p, next)) && p in s.heap && s.head == p && SlotInv(s)
    ensures var s' := DoPopSwing(s, t, p, next); Sized(s') && ClaimsOk(s')
  {
    hide RetiredOk, ScanOk, LinkersDiffer, OwnersDiffer, SlotOk, LogOrdered, LogOk;
    assert LocalOk(s, t) && PcOk(s, t) && next == s.order[s.first + 1];
    assert NodeOk(s, p) && NodeOk(s, next);
  }

  lemma PopSwingNode(s: State, t: nat, p: Addr, next: Addr, a: Addr)
    requires At(s, t, PopSwing(p, next)) && p in s.heap && s.head == p && SlotInv(s)
             && a in DoPopSwing(s, t, p, next).heap
    ensures Sized(DoPopSwing(s, t, p, next)) && NodeOk(DoPopSwing(s, t, p, next), a)
  {
    var s' := DoPopSwing(s, t, p, next);
    PopSwingEvolves(s, t, p, next);
    assert NodeOk(s, a) && PcOk(s, t);
    assert s.heap[a].serial == s.first && !s.heap[a].role.Private? ==> a == p;
    forall i | 0 <= i < BUFFER_SIZE && !s.heap[a].role.Private? ensures SlotOk(s', a, i) {
      assert SlotOk(s, a, i);
      ClaimStays(s, s', t, a, i);
    }
  }

  lemma PopSwingOwn(s: State, t: nat, p: Addr, next: Addr)
    requires At(s, t, PopSwing(p, next)) && p in s.heap && s.head == p && SlotInv(s)
    ensures var s' := DoPopSwing(s, t, p, next);
            Sized(s') && PcOk(s', t) && OwnersDiffer(s')
  {
    hide RetiredOk, ScanOk, LinkersDiffer, LogOrdered;
    assert PcOk(s, t) && LocalOk(s, t);
  }

  lemma SlotPopSwing(s: State, t: nat, p: Addr, next: Addr)
    requires At(s, t, PopSwing(p, next)) && p in s.heap && s.head == p && SlotInv(s)
    requires MemInv(DoPopSwing(s, t, p, next))
    ensures SlotInv(DoPopSwing(s, t, p, next))
  {
    var s' := DoPopSwing(s, t, p, next);
    PopSwingEvolves(s, t, p, next);
    PopSwingLog(s, t, p, next);
    PopSwingClaims(s, t, p, next);
    PopSwingOwn(s, t, p, next);
    forall a | a in s'.heap ensures NodeOk(s', a) {
      PopSwingNode(s, t, p, next, a);
    }
    SlotAssemble(s, s', t);
  }

  lemma PushNewFacts(s: State, t: nat, item: int, p: Addr, c: Choice)
    requires At(s, t, PushNew(item, p)) && Fresh(s, c) && SlotInv(s)
    ensures Sized(s) && c.addr !in s.heap && LogOk(s) && LogOrdered(s) && ClaimsOk(s)
  {
    hide HoldOk, LocalOk, RetiredOk, ScanOk, LinkersDiffer, OwnersDiffer, NodeOk, PcOk, LogOk, LogOrdered, ClaimsOk;
  }

  lemma PushNewLog(s: State, t: nat, item: int, p: Addr, c: Choice)
    requires At(s, t, PushNew(item, p)) && Fresh(s, c) && SlotInv(s)
    ensures var s' := DoPushNew(s, t, item, p, c); Sized(s') && LogOk(s') && LogOrdered(s') && ClaimsOk(s')
  {
    hide SlotInv, MemInv;
    PushNewFacts(s, t, item, p, c);
  }

  lemma PushNewEvolves(s: State, t: nat, item: int, p: Addr, c: Choice)
    requires At(s, t, PushNew(item, p)) && Fresh(s, c) && SlotInv(s)
    ensures var s' := DoPushNew(s, t, item, p, c); Sized(s') && SlotEvolves(s, s', t)
  {
    hide SlotInv, MemInv, LogOk, LogOrdered, ClaimsOk;
    PushNewFacts(s, t, item, p, c);
  }

  lemma PushNewNode(s: State, t: nat, item: int, p: Addr, c: Choice, a: Addr)
    requires At(s, t, PushNew(item, p)) && Fresh(s, c) && SlotInv(s) && a in DoPushNew(s, t, item, p, c).heap
    ensures Sized(DoPushNew(s, t, item, p, c)) && NodeOk(DoPushNew(s, t, item, p, c), a)
  {
    var s' := DoPushNew(s, t, item, p, c);
    PushNewEvolves(s, t, item, p, c);
    if a != c.addr {
      SlotFrame(s, s', t, a);
    }
  }

  lemma PushNewOwn(s: State, t: nat, item: int, p: Addr, c: Choice)
    requires At(s, t, PushNew(item, p)) && Fresh(s, c) && SlotInv(s)
    ensures var s' := DoPushNew(s, t, item, p, c);
            Sized(s') && PcOk(s', t) && OwnersDiffer(s')
  {
    assert PcOk(s, t);
  }

  lemma SlotPushNew(s: State, t: nat, item: int, p: Addr, c: Choice)
    requires At(s, t, PushNew(item, p)) && Fresh(s, c) && SlotInv(s)
    requires MemInv(DoPushNew(s, t, item, p, c))
    ensures SlotInv(DoPushNew(s, t, item, p, c))
  {
    var s' := DoPushNew(s, t, item, p, c);
    PushNewLog(s, t, item, p, c);
    PushNewEvolves(s, t, item, p, c);
    PushNewOwn(s, t, item, p, c);
    forall a | a in s'.heap ensures NodeOk(s', a) {
      PushNewNode(s, t, item, p, c, a);
    }
    SlotAssemble(s, s', t);
  }

  lemma PushFreeFacts(s: State, t: nat, item: int, node: Addr)
    requires At(s, t, PushFree(item, node)) && SlotInv(s)
    ensures Sized(s) && node in s.heap && s.heap[node].role == Private(t) && node != s.head && node != s.tail
    ensures LogOk(s) && LogOrdered(s) && ClaimsOk(s)
  {
    hide HoldOk, RetiredOk, ScanOk, LinkersDiffer, OwnersDiffer, NodeOk, PcOk, LogOk, LogOrdered, ClaimsOk;
    assert LocalOk(s, t);
  }

  lemma PushFreeLog(s: State, t: nat, item: int, node: Addr)
    requires At(s, t, PushFree(item, node)) && SlotInv(s)
    ensures var s' := SetPc(s, t, Load(Push(item))).(heap := s.heap - {node});
            Sized(s') && LogOk(s') && LogOrdered(s') && ClaimsOk(s')
  {
    hide SlotInv, MemInv;
    PushFreeFacts(s, t, item, node);
  }

  lemma PushFreeEvolves(s: State, t: nat, item: int, node: Addr)
    requires At(s, t, PushFree(item, node)) && SlotInv(s)
    ensures var s' := SetPc(s, t, Load(Push(item))).(heap := s.heap - {node});
            Sized(s') && SlotEvolves(s, s', t)
  {
    hide SlotInv, MemInv, LogOk, LogOrdered, ClaimsOk;
    PushFreeFacts(s, t, item, node);
  }

  lemma PushFreeNode(s: State, t: nat, item: int, node: Addr, a: Addr)
    requires At(s, t, PushFree(item, node)) && SlotInv(s)
             && a in SetPc(s, t, Load(Push(item))).(heap := s.heap - {node}).heap
    ensures Sized(SetPc(s, t, Load(Push(item))).(heap := s.heap - {node}))
             && NodeOk(SetPc(s, t, Load(Push(item))).(heap := s.heap - {node}), a)
  {
    var s' := SetPc(s, t, Load(Push(item))).(heap := s.heap - {node});
    PushFreeEvolves(s, t, item, node);
    SlotFrame(s, s', t, a);
  }

  lemma PushFreeOwn(s: State, t: nat, item: int, node: Addr)
    requires At(s, t, PushFree(item, node)) && SlotInv(s)
    ensures var s' := SetPc(s, t, Load(Push(item))).(heap := s.heap - {node});
            Sized(s') && PcOk(s', t) && OwnersDiffer(s')
  {
    assert PcOk(s, t) && LocalOk(s, t);
  }

  lemma SlotPushFree(s: State, t: nat, item: int, node: Addr)
    requires At(s, t, PushFree(item, node)) && SlotInv(s)
    requires MemInv(SetPc(s, t, Load(Push(item))).(heap := s.heap - {node}))
    ensures SlotInv(SetPc(s, t, Load(Push(item))).(heap := s.heap - {node}))
  {
    var s' := SetPc(s, t, Load(Push(item))).(heap := s.heap - {node});
    PushFreeLog(s, t, item, node);
    PushFreeEvolves(s, t, item, node);
    PushFreeOwn(s, t, item, node);
    forall a | a in s'.heap ensures NodeOk(s', a) {
      PushFreeNode(s, t, item, node, a);
    }
    SlotAssemble(s, s', t);
  }

  /** A retired node that no thread holds contains no value: every slot was claimed and every claim finished. */
  lemma FreedNodeIsDrained(s: State, a: Addr)
    requires MemInv(s) && SlotInv(s) && a in s.heap && s.heap[a].role.Retired?
    requires forall u :: 0 <= u < |s.threads| ==> Held(s.threads[u].pc) != a
    ensures forall i :: 0 <= i < BUFFER_SIZE ==> s.heap[a].buffer[i] == TAKEN_VALUE
  {
    assert NodeOk(s, a);
    assert s.heap[a].serial < s.first;
    forall i | 0 <= i < BUFFER_SIZE ensures s.heap[a].buffer[i] == TAKEN_VALUE {
      assert !Claimed(s, a, i);
      assert SlotOk(s, a, i);
    }
  }

  /** The node that a scan frees belongs to the scanning thread, and no stored value is left in it. */
  lemma ScanFreeFacts(s: State, t: nat, i: nat, j: nat)
    requires At(s, t, Scan(i, j)) && i < |s.threads[t].retired| && j >= |s.hp| && SlotInv(s)
    ensures var a := s.threads[t].retired[i];
            && a in s.heap && s.heap[a].role == Retired(t) && a != s.head && a != s.tail && a != NULL
            && forall u :: 0 <= u < |s.threads| ==> Held(s.threads[u].pc) != a
  {
    hide HoldOk, LocalOk, LinkersDiffer, SlotInv;
    assert RetiredOk(s, t) && ScanOk(s, t);
  }

  lemma FreedNodeHasNoValue(s: State, a: Addr, x: Slot)
    requires MemInv(s) && SlotInv(s) && a in s.heap && s.heap[a].role.Retired?
    requires forall u :: 0 <= u < |s.threads| ==> Held(s.threads[u].pc) != a
    requires x in s.log && x !in s.gone
    ensures x.serial < |s.order| && s.order[x.serial] != a
  {
    hide MemInv, ClaimsOk, LogOrdered, OwnersDiffer, PcOk;
    FreedNodeIsDrained(s, a);
    assert NodeOk(s, a) && x.idx < BUFFER_SIZE;
    assert SlotOk(s, a, x.idx);
  }

  lemma ScanFreeEvolves(s: State, t: nat, i: nat, j: nat)
    requires At(s, t, Scan(i, j)) && i < |s.threads[t].retired| && j >= |s.hp| && SlotInv(s)
    ensures var s' := DoScan(s, t, i, j); Sized(s') && ClaimsOk(s') && SlotEvolves(s, s', t)
  {
    hide ChainOk, HoldOk, LocalOk, RetiredOk, ScanOk, LinkersDiffer, OwnersDiffer, LogOk, LogOrdered, NodeOk, PcOk;
    ScanFreeFacts(s, t, i, j);
  }

  lemma ScanFreeLog(s: State, t: nat, i: nat, j: nat)
    requires At(s, t, Scan(i, j)) && i < |s.threads[t].retired| && j >= |s.hp| && SlotInv(s)
    ensures var s' := DoScan(s, t, i, j); LogOk(s') && LogOrdered(s')
  {
    hide ChainOk, HoldOk, LocalOk, RetiredOk, ScanOk, LinkersDiffer, OwnersDiffer, ClaimsOk, NodeOk, PcOk;
    var a := s.threads[t].retired[i];
    ScanFreeFacts(s, t, i, j);
    forall x | x in s.log && x !in s.gone ensures x.serial < |s.order| && s.order[x.serial] != a {
      FreedNodeHasNoValue(s, a, x);
    }
  }

  lemma ScanFreeNode(s: State, t: nat, i: nat, j: nat, a: Addr)
    requires At(s, t, Scan(i, j)) && i < |s.threads[t].retired| && j >= |s.hp| && SlotInv(s)
             && a in DoScan(s, t, i, j).heap
    ensures Sized(DoScan(s, t, i, j)) && NodeOk(DoScan(s, t, i, j), a)
  {
    var s' := DoScan(s, t, i, j);
    ScanFreeEvolves(s, t, i, j);
    SlotFrame(s, s', t, a);
  }

  lemma ScanFreeOwn(s: State, t: nat, i: nat, j: nat)
    requires At(s, t, Scan(i, j)) && i < |s.threads[t].retired| && j >= |s.hp| && SlotInv(s)
    ensures var s' := DoScan(s, t, i, j);
            Sized(s') && PcOk(s', t) && OwnersDiffer(s')
  {
    hide HoldOk, LocalOk, ScanOk, LinkersDiffer, LogOk, LogOrdered, ClaimsOk, NodeOk;
    assert PcOk(s, t) && RetiredOk(s, t);
  }

  lemma SlotScanFree(s: State, t: nat, i: nat, j: nat)
    requires At(s, t, Scan(i, j)) && i < |s.threads[t].retired| && j >= |s.hp| && SlotInv(s)
    requires MemInv(DoScan(s, t, i, j))
    ensures SlotInv(DoScan(s, t, i, j))
  {
    var s' := DoScan(s, t, i, j);
    ScanFreeEvolves(s, t, i, j);
    ScanFreeLog(s, t, i, j);
    ScanFreeOwn(s, t, i, j);
    forall a | a in s'.heap ensures NodeOk(s', a) {
      ScanFreeNode(s, t, i, j, a);
    }
    SlotAssemble(s, s', t);
  }

  ghost predicate Inv(s: State) { MemInv(s) && SlotInv(s) }

  /** Steps that leave the heap alone and do not start or finish a claim. */
  lemma SlotQuietStep(s: State, t: nat, pc: PC, a: Addr)
    requires Inv(s) && t < |s.threads|
    requires var s' := SetPc(s, t, pc); MemInv(s'.(hp := s'.hp[t := a]))
    requires !s.threads[t].pc.PopExchange? && !pc.PopExchange? && !pc.PushCas? && PcOk(SetPc(s, t, pc), t)
    ensures var s' := SetPc(s, t, pc); SlotInv(s'.(hp := s'.hp[t := a]))
  {
    assert |s.hp| == |s.threads|;
    hide MemInv, LogOk, LogOrdered, ClaimsOk, OwnersDiffer, NodeOk;
    var s' := SetPc(s, t, pc);
    SlotQuiet(s, s'.(hp := s'.hp[t := a]), t);
  }

  lemma SlotPushLink(s: State, t: nat, p: Addr, node: Addr)
    requires At(s, t, PushLink(p, node)) && p in s.heap && SlotInv(s) && MemInv(DoPushLink(s, t, p, node))
    ensures SlotInv(DoPushLink(s, t, p, node))
  {
    hide RetiredOk, ScanOk, LinkersDiffer, LogOk, LogOrdered, ClaimsOk, OwnersDiffer, NodeOk;
    assert PcOk(s, t);
    SlotQuiet(s, DoPushLink(s, t, p, node), t);
  }

  lemma RetireQuiet(s: State, t: nat, p: Addr, c: Choice)
    requires At(s, t, Retire(p)) && p in s.heap && SlotInv(s)
    ensures Quiet(s, DoRetire(s, t, p, c), t) && Sized(DoRetire(s, t, p, c))
  {
    hide HoldOk, RetiredOk, ScanOk, LinkersDiffer, LogOk, LogOrdered, ClaimsOk, OwnersDiffer, NodeOk, PcOk;
    assert s.heap[p].role == Limbo(t) by {
      RetireRole(s, t, p);
    }
  }

  lemma RetireRole(s: State, t: nat, p: Addr)
    requires At(s, t, Retire(p))
    ensures p in s.heap && s.heap[p].role == Limbo(t)
  {
    assert LocalOk(s, t);
  }

  lemma SlotRetire(s: State, t: nat, p: Addr, c: Choice)
    requires At(s, t, Retire(p)) && p in s.heap && SlotInv(s) && MemInv(DoRetire(s, t, p, c))
    ensures SlotInv(DoRetire(s, t, p, c))
  {
    hide MemInv, LogOk, LogOrdered, ClaimsOk, OwnersDiffer, NodeOk;
    assert PcOk(s, t);
    RetireQuiet(s, t, p, c);
    SlotQuiet(s, DoRetire(s, t, p, c), t);
  }

  predicate QuietPc(pc: PC) {
    pc.Load? || pc.Publish? || pc.ReadPush? || pc.ReadPop? || pc.ReadNext? || pc.Clear? || pc.PopNext? || pc.Validate?
  }

  lemma QuietShape(s: State, t: nat, c: Choice)
    requires |s.hp| == |s.threads| && Defined(s, t) && QuietPc(s.threads[t].pc)
    ensures |Step(s, t, c).threads| == |s.threads| == |Step(s, t, c).hp|
    ensures var s' := Step(s, t, c); s' == SetPc(s, t, s'.threads[t].pc).(hp := s.hp[t := s'.hp[t]])
  {
  }

  /** After a successful validation the protected node is at the end of the chain that the operation needs. */
  lemma ValidatePc(s: State, t: nat, c: Choice)
    requires Inv(s) && Defined(s, t) && s.threads[t].pc.Validate?
    requires |Step(s, t, c).threads| == |s.threads|
    ensures var pc := Step(s, t, c).threads[t].pc;
            !pc.PopExchange? && !pc.PushCas? && PcOk(SetPc(s, t, pc), t)
  {
    hide HoldOk, LocalOk, RetiredOk, ScanOk, LinkersDiffer, OwnersDiffer, LogOk, LogOrdered, ClaimsOk, NodeOk;
    assert PcOk(s, t);
  }

  lemma QuietStepPc(s: State, t: nat, c: Choice)
    requires Inv(s) && Defined(s, t) && QuietPc(s.threads[t].pc)
    requires |Step(s, t, c).threads| == |s.threads|
    ensures var pc := Step(s, t, c).threads[t].pc;
            !pc.PopExchange? && !pc.PushCas? && PcOk(SetPc(s, t, pc), t)
  {
    hide ChainOk, HoldOk, LocalOk, RetiredOk, ScanOk, LinkersDiffer, OwnersDiffer, LogOk, LogOrdered, ClaimsOk, NodeOk;
    if s.threads[t].pc.Validate? {
      ValidatePc(s, t, c);
    } else {
      assert PcOk(s, t);
    }
  }

  lemma SlotQuietCases(s: State, t: nat, c: Choice)
    requires Inv(s) && t < |s.threads| && Defined(s, t) && MemInv(Step(s, t, c))
    requires QuietPc(s.threads[t].pc)
    ensures SlotInv(Step(s, t, c))
  {
    assert |s.hp| == |s.threads|;
    hide MemInv, SlotInv, Step, PcOk;
    QuietShape(s, t, c);
    QuietStepPc(s, t, c);
    var s' := Step(s, t, c);
    SlotQuietStep(s, t, s'.threads[t].pc, s'.hp[t]);
  }

  lemma SlotIdle(s: State, t: nat, c: Choice)
    requires At(s, t, Idle) && SlotInv(s) && MemInv(DoIdle(s, t, c))
    requires IsValue(Item(Load(c.op)))
    ensures SlotInv(DoIdle(s, t, c))
  {
    hide MemInv, LogOk, LogOrdered, ClaimsOk, OwnersDiffer, NodeOk;
    SlotQuiet(s, DoIdle(s, t, c), t);
  }

  /** The branches of the swinging, claiming and scanning steps that leave every slot alone. */
  lemma SlotFails(s: State, t: nat, pc: PC)
    requires Inv(s) && t < |s.threads| && MemInv(SetPc(s, t, pc))
    requires match s.threads[t].pc
             case PushCas(item, p, idx) => pc == Load(Push(item))
             case PushNew(item, _) => pc == Load(Push(item))
             case PushSwing(item, p, node) => pc == PushFree(item, node)
             case PopSwing(p, _) => pc == Clear(Retry(Pop))
             case Scan(i, j) => pc.Scan? || pc == Clear(Retry(Pop))
             case _ => false
    ensures SlotInv(SetPc(s, t, pc))
  {
    assert PcOk(s, t);
    hide MemInv, LogOk, LogOrdered, ClaimsOk, OwnersDiffer, NodeOk;
    SlotQuiet(s, SetPc(s, t, pc), t);
  }

  lemma SlotStep(s: State, t: nat, c: Choice)
    requires Inv(s) && t < |s.threads| && Defined(s, t) && MemInv(Step(s, t, c))
    requires IsValue(Item(Load(c.op)))
    ensures SlotInv(Step(s, t, c))
  {
    hide MemInv, SlotInv;
    match s.threads[t].pc
    case Idle => SlotIdle(s, t, c);
    case PushFetch(item, p) => SlotPushFetch(s, t, item, p);
    case PushCas(item, p, idx) =>
      if s.heap[p].buffer[idx] == EMPTY_VALUE { SlotPushCas(s, t, item, p, idx); } else {
        SlotFails(s, t, Step(s, t, c).threads[t].pc);
      }
    case PushNew(item, p) =>
      if Fresh(s, c) { SlotPushNew(s, t, item, p, c); } else { SlotFails(s, t, Step(s, t, c).threads[t].pc); }
    case PushSwing(item, p, node) =>
      if s.tail == p { SlotPushSwing(s, t, item, p, node); } else { SlotFails(s, t, Step(s, t, c).threads[t].pc); }
    case PushFree(item, node) => SlotPushFree(s, t, item, node);
    case PopFetch(p) => SlotPopFetch(s, t, p);
    case PopExchange(p, idx) => SlotPopExchange(s, t, p, idx);
    case PopSwing(p, next) =>
      if s.head == p { SlotPopSwing(s, t, p, next); } else { SlotFails(s, t, Step(s, t, c).threads[t].pc); }
    case Scan(i, j) =>
      if i < |s.threads[t].retired| && j >= |s.hp| { SlotScanFree(s, t, i, j); } else {
        SlotFails(s, t, Step(s, t, c).threads[t].pc);
      }
    case PushLink(p, node) => SlotPushLink(s, t, p, node);
    case Retire(p) => SlotRetire(s, t, p, c);
    case _ => SlotQuietCases(s, t, c);
  }
}
