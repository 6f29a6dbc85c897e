/** The Michael-Scott queue of LLQueue.c.

    Any number of threads run `LLQueue_push` and `LLQueue_pop`; one transition is one atomic load or
    compare-and-swap.  Node addresses are never reused here, so hazard pointers have no effect. */
module LLQueue {

  type Addr = nat
  const NULL: Addr := 0
  const EMPTY_VALUE: int := 0

  /** History: a node is its pusher's own until its address is stored in the `next` field of the last node. */
  datatype Role = Private(owner: nat) | Linked(index: nat)

  datatype Node = Node(next: Addr, item: int, role: Role)

  /** A program counter names the next shared-memory operation and carries the local variables. */
  datatype PC =
    | Idle
    | PushLoad(node: Addr)
    | PushValidate(node: Addr, tail: Addr)
    | PushNext(node: Addr, tail: Addr)
    | PushCheck(node: Addr, tail: Addr, next: Addr)
    | PushLink(node: Addr, tail: Addr)
    | PushSwing(node: Addr, tail: Addr)
    | PushHelp(node: Addr, tail: Addr, next: Addr)
    | PopLoad
    | PopValidate(head: Addr)
    | PopTail(head: Addr)
    | PopNext(head: Addr, tail: Addr)
    | PopCheck(head: Addr, tail: Addr, next: Addr, seen: nat)
    | PopHelp(tail: Addr, next: Addr)
    | PopReload(head: Addr, next: Addr)
    | PopRecheck(head: Addr, next: Addr, again: Addr)
    | PopItem(head: Addr, next: Addr)
    | PopSwing(head: Addr, next: Addr, item: int)
    | Finished(result: int)

  /** `began` and `call` are history: when the current call was made, and which one it is. */
  datatype Thread = Thread(pc: PC, began: nat, call: Call)

  /** `order` (the addresses of the dummy and of all nodes in the order of their link), `hd`, `tl`, `pushed`,
      `popped` and `now` are history. */
  datatype State = State(
    heap: map<Addr, Node>, head: Addr, tail: Addr, threads: seq<Thread>,
    order: seq<Addr>, hd: nat, tl: nat, pushed: seq<int>, popped: seq<int>, now: nat)

  datatype Call = Push(item: int, addr: Addr) | Pop

  function Init(n: nat, a: Addr): State {
    State(map[a := Node(NULL, EMPTY_VALUE, Linked(0))], a, a, seq(n, i => Thread(Idle, 0, Pop)),
          [a], 0, 0, [], [], 0)
  }

  function SetPc(s: State, t: nat, pc: PC): State
    requires t < |s.threads|
  {
    s.(threads := s.threads[t := s.threads[t].(pc := pc)], now := s.now + 1)
  }

  /** A call starts; `LLQueue_push` allocates its node, at an address never used before. */
  function Start(s: State, t: nat, c: Call): State
    requires t < |s.threads|
  {
    var pc := if c.Push? then PushLoad(c.addr) else PopLoad;
    var s1 := s.(threads := s.threads[t := Thread(pc, s.now, c)], now := s.now + 1);
    if c.Pop? then s1
    else if c.addr == NULL || c.addr in s.heap then s.(now := s.now + 1)
    else s1.(heap := s.heap[c.addr := Node(NULL, c.item, Private(t))])
  }

  /** compare-and-swap of the queue's tail pointer */
  function CasTail(s: State, expected: Addr, desired: Addr): State {
    if s.tail == expected then s.(tail := desired, tl := s.tl + 1) else s
  }

  function DoLink(s: State, t: nat, node: Addr, tail: Addr): State
    requires t < |s.threads| && tail in s.heap && node in s.heap
  {
    if s.heap[tail].next == NULL then
      SetPc(s, t, PushSwing(node, tail)).(
        heap := s.heap[tail := s.heap[tail].(next := node)][node := s.heap[node].(role := Linked(|s.order|))],
        order := s.order + [node], pushed := s.pushed + [s.heap[node].item])
    else
      SetPc(s, t, PushLoad(node))
  }

  function DoPopCheck(s: State, t: nat, head: Addr, tail: Addr, next: Addr): State
    requires t < |s.threads|
  {
    SetPc(s, t, if head != s.head then PopLoad
                else if head == tail then
                  if next == NULL then Finished(EMPTY_VALUE) else PopHelp(tail, next)
                else if next != NULL then PopReload(head, next)
                else PopLoad)
  }

  function DoPopSwing(s: State, t: nat, head: Addr, next: Addr, item: int): State
    requires t < |s.threads|
  {
    if s.head == head then
      SetPc(s, t, Finished(item)).(head := next, hd := s.hd + 1, popped := s.popped + [item])
    else
      SetPc(s, t, PopLoad)
  }

  /** The nodes whose memory the next step of a thread uses. */
  function Touched(pc: PC): set<Addr> {
    match pc
    case PushNext(_, tail) => {tail}
    case PushLink(node, tail) => {node, tail}
    case PopNext(head, _) => {head}
    case PopRecheck(_, _, again) => {again}
    case PopItem(_, next) => {next}
    case _ => {}
  }

  predicate Defined(s: State, t: nat) {
    t < |s.threads| && Touched(s.threads[t].pc) <= s.heap.Keys
  }

  function Step(s: State, t: nat, c: Call): State
    requires Defined(s, t)
  {
    match s.threads[t].pc
    case Idle => Start(s, t, c)
    case PushLoad(node) => SetPc(s, t, PushValidate(node, s.tail))
    case PushValidate(node, tail) => SetPc(s, t, if tail == s.tail then PushNext(node, tail) else PushLoad(node))
    case PushNext(node, tail) => SetPc(s, t, PushCheck(node, tail, s.heap[tail].next))
    case PushCheck(node, tail, next) =>
      SetPc(s, t, if tail != s.tail then PushLoad(node)
                  else if next == NULL then PushLink(node, tail) else PushHelp(node, tail, next))
    case PushLink(node, tail) => DoLink(s, t, node, tail)
    case PushSwing(node, tail) => SetPc(CasTail(s, tail, node), t, Finished(EMPTY_VALUE))
    case PushHelp(node, tail, next) => SetPc(CasTail(s, tail, next), t, PushLoad(node))
    case PopLoad => SetPc(s, t, PopValidate(s.head))
    case PopValidate(head) => SetPc(s, t, if head == s.head then PopTail(head) else PopLoad)
    case PopTail(head) => SetPc(s, t, PopNext(head, s.tail))
    case PopNext(head, tail) => SetPc(s, t, PopCheck(head, tail, s.heap[head].next, s.now))
    case PopCheck(head, tail, next, _) => DoPopCheck(s, t, head, tail, next)
    case PopHelp(tail, next) => SetPc(CasTail(s, tail, next), t, PopLoad)
    case PopReload(head, next) => SetPc(s, t, PopRecheck(head, next, s.head))
    case PopRecheck(head, next, again) =>
      SetPc(s, t, if next != s.heap[again].next then PopLoad else PopItem(head, next))
    case PopItem(head, next) => SetPc(s, t, PopSwing(head, next, s.heap[next].item))
    case PopSwing(head, next, item) => DoPopSwing(s, t, head, next, item)
    case Finished(_) => SetPc(s, t, Idle)
  }

  // ---------------------------------------------------------------------------------------------
  // The invariant
  // ---------------------------------------------------------------------------------------------

  /** The values in the queue: those linked in and not yet removed. */
  function Contents(s: State): seq<int>
    requires s.hd <= |s.pushed|
  {
    s.pushed[s.hd..]
  }

  ghost predicate ChainOk(s: State) {
    && |s.order| > 0 && s.hd <= s.tl < |s.order| && |s.order| - 2 <= s.tl
    && s.head == s.order[s.hd] && s.tail == s.order[s.tl]
    && NULL !in s.heap
    && |s.pushed| == |s.order| - 1 && s.hd <= |s.pushed| && s.popped == s.pushed[..s.hd]
    && (forall k :: 0 <= k < |s.order| ==> s.order[k] in s.heap && s.heap[s.order[k]].role == Linked(k))
    && (forall k :: 0 <= k < |s.order| - 1 ==> s.heap[s.order[k]].next == s.order[k + 1])
    && s.heap[s.order[|s.order| - 1]].next == NULL
    && (forall k :: 1 <= k < |s.order| ==> s.heap[s.order[k]].item == s.pushed[k - 1])
    && (forall a :: a in s.heap && s.heap[a].role.Linked? ==>
          s.heap[a].role.index < |s.order| && s.order[s.heap[a].role.index] == a)
  }

  /** The node that a push has allocated for the item of its call and not yet linked. */
  predicate Own(s: State, t: nat, node: Addr)
    requires t < |s.threads|
  {
    && node in s.heap && s.heap[node].role == Private(t) && s.heap[node].next == NULL
    && s.threads[t].call == Push(s.heap[node].item, node)
  }

  /** `a` is the node of index at least `lo` and at most `hi` in the chain. */
  predicate Between(s: State, lo: nat, a: Addr, hi: nat) {
    a in s.heap && s.heap[a].role.Linked? && lo <= s.heap[a].role.index <= hi
  }

  function Index(s: State, a: Addr): nat
    requires a in s.heap && s.heap[a].role.Linked?
  {
    s.heap[a].role.index
  }

  predicate Successor(s: State, a: Addr, b: Addr)
    requires a in s.heap && s.heap[a].role.Linked?
  {
    Index(s, a) + 1 < |s.order| && s.order[Index(s, a) + 1] == b
  }

  predicate LocalOk(s: State, t: nat)
    requires t < |s.threads|
  {
    s.threads[t].began <= s.now &&
    match s.threads[t].pc
    case PushLoad(node) => Own(s, t, node)
    case PushValidate(node, tail) => Own(s, t, node) && Between(s, 0, tail, s.tl)
    case PushNext(node, tail) => Own(s, t, node) && Between(s, 0, tail, s.tl)
    case PushCheck(node, tail, next) =>
      Own(s, t, node) && Between(s, 0, tail, s.tl) && (next != NULL ==> Successor(s, tail, next))
    case PushLink(node, tail) => Own(s, t, node) && Between(s, 0, tail, s.tl)
    case PushSwing(node, tail) => Between(s, 0, tail, |s.order|) && Successor(s, tail, node)
    case PushHelp(node, tail, next) => Own(s, t, node) && Between(s, 0, tail, s.tl) && Successor(s, tail, next)
    case PopValidate(head) => Between(s, 0, head, s.hd)
    case PopTail(head) => Between(s, 0, head, s.hd)
    case PopNext(head, tail) => Between(s, 0, head, s.hd) && Between(s, Index(s, head), tail, s.tl)
    case PopCheck(head, tail, next, seen) =>
      && Between(s, 0, head, s.hd) && Between(s, Index(s, head), tail, s.tl)
      && (next != NULL ==> Successor(s, head, next)) && s.threads[t].began <= seen < s.now
    case PopHelp(tail, next) => Between(s, 0, tail, s.tl) && Successor(s, tail, next)
    case PopReload(head, next) => Between(s, 0, head, s.hd) && Index(s, head) < s.tl && Successor(s, head, next)
    case PopRecheck(head, next, again) =>
      && Between(s, 0, head, s.hd) && Index(s, head) < s.tl && Successor(s, head, next)
      && Between(s, 0, again, s.hd)
    case PopItem(head, next) => Between(s, 0, head, s.hd) && Index(s, head) < s.tl && Successor(s, head, next)
    case PopSwing(head, next, item) =>
      && Between(s, 0, head, s.hd) && Index(s, head) < s.tl && Successor(s, head, next)
      && Index(s, head) < |s.pushed| && item == s.pushed[Index(s, head)]
    case _ => true
  }

  ghost predicate Inv(s: State) {
    ChainOk(s) && forall t :: 0 <= t < |s.threads| ==> LocalOk(s, t)
  }

  lemma InvDefined(s: State, t: nat)
    requires Inv(s) && t < |s.threads|
    ensures Defined(s, t)
  {
    assert LocalOk(s, t);
  }

  /** What one step of thread `t` guarantees to all other threads. */
  ghost predicate Evolves(s: State, s': State, t: nat) {
    && t < |s.threads| == |s'.threads| && s.order <= s'.order && s.pushed <= s'.pushed
    && s.hd <= s'.hd && s.tl <= s'.tl && s.now < s'.now
    && (forall u :: 0 <= u < |s.threads| && u != t ==> s'.threads[u] == s.threads[u])
    && (forall a :: a in s.heap ==> a in s'.heap && (s.heap[a].role == Private(t) || s'.heap[a].role == s.heap[a].role))
    && (forall a :: a in s.heap && s.heap[a].role.Private? && s.heap[a].role != Private(t) ==> s'.heap[a] == s.heap[a])
  }

  predicate Pushing(pc: PC) {
    pc.PushLoad? || pc.PushValidate? || pc.PushNext? || pc.PushCheck? || pc.PushLink? || pc.PushHelp?
  }

  lemma OtherPushing(s: State, s': State, t: nat, u: nat)
    requires Inv(s) && Evolves(s, s', t) && u < |s.threads| && u != t && Pushing(s.threads[u].pc)
    ensures LocalOk(s', u)
  {
    assert LocalOk(s, u);
    assert Own(s', u, s.threads[u].pc.node);
  }

  predicate Removing(pc: PC) {
    pc.PopReload? || pc.PopRecheck? || pc.PopItem? || pc.PopSwing?
  }

  lemma OtherRemoving(s: State, s': State, t: nat, u: nat)
    requires Inv(s) && Evolves(s, s', t) && u < |s.threads| && u != t && Removing(s.threads[u].pc)
    ensures LocalOk(s', u)
  {
    hide Own, ChainOk, Pushing;
    assert LocalOk(s, u);
    var head := s.threads[u].pc.head;
    assert Index(s', head) == Index(s, head);
  }

  lemma OtherThread(s: State, s': State, t: nat, u: nat)
    requires Inv(s) && Evolves(s, s', t) && u < |s.threads| && u != t
    requires !Pushing(s.threads[u].pc) && !Removing(s.threads[u].pc)
    ensures LocalOk(s', u)
  {
    assert LocalOk(s, u);
  }

  lemma Assemble(s: State, s': State, t: nat)
    requires Inv(s) && Evolves(s, s', t) && ChainOk(s') && LocalOk(s', t)
    ensures Inv(s')
  {
    forall u | 0 <= u < |s.threads| ensures LocalOk(s', u) {
      if u != t {
        if Pushing(s.threads[u].pc) {
          OtherPushing(s, s', t, u);
        } else if Removing(s.threads[u].pc) {
          OtherRemoving(s, s', t, u);
        } else {
          OtherThread(s, s', t, u);
        }
      }
    }
  }

  /** A step that only moves the own program counter. */
  lemma InvLocal(s: State, t: nat, pc: PC)
    requires Inv(s) && t < |s.threads| && LocalOk(SetPc(s, t, pc), t)
    ensures Inv(SetPc(s, t, pc))
  {
    Assemble(s, SetPc(s, t, pc), t);
  }

  lemma InvStart(s: State, t: nat, c: Call)
    requires Inv(s) && t < |s.threads| && s.threads[t].pc == Idle
    ensures Inv(Start(s, t, c))
  {
    var s' := Start(s, t, c);
    if c.Push? && c.addr != NULL && c.addr !in s.heap {
      StartPush(s, t, c.item, c.addr);
    } else {
      assert LocalOk(s, t);
      Assemble(s, s', t);
    }
  }

  lemma StartPush(s: State, t: nat, item: int, addr: Addr)
    requires Inv(s) && t < |s.threads| && addr != NULL && addr !in s.heap
    ensures Inv(Start(s, t, Push(item, addr)))
  {
    var s' := Start(s, t, Push(item, addr));
    assert ChainOk(s');
    assert Evolves(s, s', t);
    Assemble(s, s', t);
  }

  /** The tail pointer moves to the successor of the node it points to. */
  lemma InvCasTail(s: State, t: nat, tail: Addr, next: Addr, pc: PC)
    requires Inv(s) && t < |s.threads|
    requires Between(s, 0, tail, |s.order|) && Successor(s, tail, next)
    requires LocalOk(SetPc(s, t, pc), t)
    requires pc.PushLoad? || pc.PopLoad? || pc.Finished?
    ensures Inv(SetPc(CasTail(s, tail, next), t, pc))
  {
    if s.tail == tail {
      var s' := SetPc(CasTail(s, tail, next), t, pc);
      assert ChainOk(s');
      assert Evolves(s, s', t);
      Assemble(s, s', t);
    } else {
      InvLocal(s, t, pc);
    }
  }

  /** A node without successor is the last one, and then the tail pointer does not lag. */
  lemma LastNode(s: State, a: Addr)
    requires ChainOk(s) && Between(s, 0, a, |s.order|)
    ensures s.heap[a].next == NULL <==> Index(s, a) == |s.order| - 1
    ensures Index(s, a) < |s.order| - 1 ==> Successor(s, a, s.heap[a].next) && s.heap[a].next != NULL
  {
    assert s.order[Index(s, a)] == a;
    if Index(s, a) < |s.order| - 1 {
      assert s.order[Index(s, a) + 1] in s.heap;
    }
  }

  /** What a successful link finds: its own node, and the last node of the chain. */
  lemma LinkFacts(s: State, t: nat, node: Addr, tail: Addr)
    requires Inv(s) && t < |s.threads| && s.threads[t].pc == PushLink(node, tail)
    requires tail in s.heap && s.heap[tail].next == NULL
    ensures node != tail && Own(s, t, node) && s.heap[tail].role == Linked(|s.order| - 1)
    ensures |s.order| > 0 && s.order[|s.order| - 1] == tail && s.tl == |s.order| - 1 && s.threads[t].began <= s.now
  {
    assert LocalOk(s, t);
    LastNode(s, tail);
  }

  lemma LinkChain(s: State, t: nat, node: Addr, tail: Addr)
    requires Inv(s) && t < |s.threads| && s.threads[t].pc == PushLink(node, tail)
    requires tail in s.heap && node in s.heap && s.heap[tail].next == NULL
    ensures ChainOk(DoLink(s, t, node, tail))
  {
    hide LocalOk;
    LinkFacts(s, t, node, tail);
  }

  lemma LinkEvolves(s: State, t: nat, node: Addr, tail: Addr)
    requires Inv(s) && t < |s.threads| && s.threads[t].pc == PushLink(node, tail)
    requires tail in s.heap && node in s.heap && s.heap[tail].next == NULL
    ensures Evolves(s, DoLink(s, t, node, tail), t)
  {
    hide Inv, LocalOk, ChainOk;
    LinkFacts(s, t, node, tail);
  }

  lemma LinkLocal(s: State, t: nat, node: Addr, tail: Addr)
    requires Inv(s) && t < |s.threads| && s.threads[t].pc == PushLink(node, tail)
    requires tail in s.heap && node in s.heap && s.heap[tail].next == NULL
    ensures |DoLink(s, t, node, tail).threads| == |s.threads| && LocalOk(DoLink(s, t, node, tail), t)
  {
    hide Inv, ChainOk;
    LinkFacts(s, t, node, tail);
  }

  lemma InvLink(s: State, t: nat, node: Addr, tail: Addr)
    requires Inv(s) && t < |s.threads| && s.threads[t].pc == PushLink(node, tail)
    requires tail in s.heap && node in s.heap
    ensures Inv(DoLink(s, t, node, tail))
  {
    if s.heap[tail].next == NULL {
      LinkChain(s, t, node, tail);
      LinkEvolves(s, t, node, tail);
      LinkLocal(s, t, node, tail);
      Assemble(s, DoLink(s, t, node, tail), t);
    } else {
      assert LocalOk(s, t);
      InvLocal(s, t, PushLoad(node));
    }
  }

  lemma InvPopSwing(s: State, t: nat, head: Addr, next: Addr, item: int)
    requires Inv(s) && t < |s.threads| && s.threads[t].pc == PopSwing(head, next, item)
    ensures Inv(DoPopSwing(s, t, head, next, item))
  {
    assert LocalOk(s, t);
    if s.head == head {
      var s' := DoPopSwing(s, t, head, next, item);
      assert ChainOk(s');
      assert Evolves(s, s', t);
      Assemble(s, s', t);
    } else {
      InvLocal(s, t, PopLoad);
    }
  }

  lemma InvPushStep(s: State, t: nat, c: Call)
    requires Inv(s) && Defined(s, t)
    requires var pc := s.threads[t].pc; pc.PushLoad? || pc.PushValidate? || pc.PushNext? || pc.PushCheck?
    ensures Inv(Step(s, t, c))
  {
    assert LocalOk(s, t);
    if s.threads[t].pc.PushNext? {
      LastNode(s, s.threads[t].pc.tail);
    }
    InvLocal(s, t, Step(s, t, c).threads[t].pc);
  }

  lemma InvPopStep(s: State, t: nat, c: Call)
    requires Inv(s) && Defined(s, t)
    requires var pc := s.threads[t].pc; pc.PopLoad? || pc.PopValidate? || pc.PopTail? || pc.PopNext?
    ensures Inv(Step(s, t, c))
  {
    assert LocalOk(s, t);
    if s.threads[t].pc.PopNext? {
      LastNode(s, s.threads[t].pc.head);
    }
    InvLocal(s, t, Step(s, t, c).threads[t].pc);
  }

  /** What a step of a pop that only reads needs to know. */
  lemma PopFacts(s: State, t: nat)
    requires Inv(s) && t < |s.threads|
    ensures LocalOk(s, t) && s.hd <= s.tl && Between(s, s.hd, s.head, s.hd) && Between(s, s.tl, s.tail, s.tl)
    ensures var pc := s.threads[t].pc;
            pc.PopCheck? && Index(s, pc.head) == Index(s, pc.tail) ==> pc.head == pc.tail
  {
    hide Own;
    assert LocalOk(s, t);
  }

  lemma InvPopCheck(s: State, t: nat, c: Call)
    requires Inv(s) && Defined(s, t)
    requires var pc := s.threads[t].pc; pc.PopCheck? || pc.PopReload? || pc.PopRecheck? || pc.Finished?
    ensures Inv(Step(s, t, c))
  {
    hide Inv, Own, Start, DoLink, DoPopSwing, CasTail;
    PopFacts(s, t);
    InvLocal(s, t, Step(s, t, c).threads[t].pc);
  }

  lemma InvPopItem(s: State, t: nat, c: Call)
    requires Inv(s) && Defined(s, t) && s.threads[t].pc.PopItem?
    ensures Inv(Step(s, t, c))
  {
    hide Own;
    assert LocalOk(s, t);
    InvLocal(s, t, Step(s, t, c).threads[t].pc);
  }

  lemma InvStep(s: State, t: nat, c: Call)
    requires Inv(s) && Defined(s, t)
    ensures Inv(Step(s, t, c))
  {
    assert LocalOk(s, t);
    match s.threads[t].pc
    case Idle => InvStart(s, t, c);
    case PushLink(node, tail) => InvLink(s, t, node, tail);
    case PushSwing(node, tail) => InvCasTail(s, t, tail, node, Finished(EMPTY_VALUE));
    case PushHelp(node, tail, next) => InvCasTail(s, t, tail, next, PushLoad(node));
    case PopHelp(tail, next) => InvCasTail(s, t, tail, next, PopLoad);
    case PopSwing(head, next, item) => InvPopSwing(s, t, head, next, item);
    case PushLoad(_) => InvPushStep(s, t, c);
    case PushValidate(_, _) => InvPushStep(s, t, c);
    case PushNext(_, _) => InvPushStep(s, t, c);
    case PushCheck(_, _, _) => InvPushStep(s, t, c);
    case PopLoad => InvPopStep(s, t, c);
    case PopValidate(_) => InvPopStep(s, t, c);
    case PopTail(_) => InvPopStep(s, t, c);
    case PopNext(_, _) => InvPopStep(s, t, c);
    case PopItem(_, _) => InvPopItem(s, t, c);
    case _ => InvPopCheck(s, t, c);
  }

  // ---------------------------------------------------------------------------------------------
  // All runs
  // ---------------------------------------------------------------------------------------------

  function Next(s: State, t: nat, c: Call): (s': State)
    ensures |s'.threads| == |s.threads|
  {
    if Defined(s, t) then Step(s, t, c) else s
  }

  /** A schedule only names existing threads. */
  predicate Schedule(n: nat, schedule: seq<(nat, Call)>) {
    forall i :: 0 <= i < |schedule| ==> schedule[i].0 < n
  }

  function Run(n: nat, a: Addr, schedule: seq<(nat, Call)>): State {
    if |schedule| == 0 then Init(n, a)
    else
      var (t, c) := schedule[|schedule| - 1];
      Next(Run(n, a, schedule[..|schedule| - 1]), t, c)
  }

  /** A step of thread `t` is one tick of the clock and leaves the other threads where they are. */
  predicate OneTick(s: State, s': State, t: nat) {
    && |s'.threads| == |s.threads| && s'.now == s.now + 1
    && forall u :: 0 <= u < |s.threads| && u != t ==> s'.threads[u] == s.threads[u]
  }

  lemma PushClock(s: State, t: nat, c: Call)
    requires Defined(s, t) && (Pushing(s.threads[t].pc) || s.threads[t].pc.PushSwing? || s.threads[t].pc == Idle)
    ensures OneTick(s, Step(s, t, c), t)
  {
    hide DoPopCheck, DoPopSwing;
  }

  lemma PopClock(s: State, t: nat, c: Call)
    requires Defined(s, t) && !Pushing(s.threads[t].pc) && !s.threads[t].pc.PushSwing? && s.threads[t].pc != Idle
    ensures OneTick(s, Step(s, t, c), t)
  {
    hide Start, DoLink;
  }

  lemma StepClock(s: State, t: nat, c: Call)
    requires Defined(s, t)
    ensures OneTick(s, Step(s, t, c), t)
  {
    hide Step, OneTick;
    if Pushing(s.threads[t].pc) || s.threads[t].pc.PushSwing? || s.threads[t].pc == Idle {
      PushClock(s, t, c);
    } else {
      PopClock(s, t, c);
    }
  }

  lemma {:induction false} RunInv(n: nat, a: Addr, schedule: seq<(nat, Call)>)
    requires a != NULL && Schedule(n, schedule)
    ensures var s := Run(n, a, schedule);
            Inv(s) && |s.threads| == n && s.now == |schedule| && forall t :: 0 <= t < n ==> Defined(s, t)
  {
    var s := Run(n, a, schedule);
    if |schedule| == 0 {
      assert Inv(Init(n, a));
    } else {
      var before := Run(n, a, schedule[..|schedule| - 1]);
      RunInv(n, a, schedule[..|schedule| - 1]);
      var (t, c) := schedule[|schedule| - 1];
      InvStep(before, t, c);
      StepClock(before, t, c);
    }
    forall t | 0 <= t < n ensures Defined(s, t) {
      InvDefined(s, t);
    }
  }

  /** In every reachable state the popped values, in the order of their removal, followed by the contents of
      the queue are the pushed values in the order of their link; the head pointer is never ahead of the tail
      pointer, which lags behind the last node by at most one. */
  lemma PoppedThenContents(n: nat, a: Addr, schedule: seq<(nat, Call)>)
    requires a != NULL && Schedule(n, schedule)
    ensures var s := Run(n, a, schedule);
            && s.hd <= |s.pushed| && s.popped + Contents(s) == s.pushed
            && s.hd <= s.tl < |s.order| <= s.tl + 2 && s.head == s.order[s.hd] && s.tail == s.order[s.tl]
  {
    hide Run, LocalOk, Schedule;
    RunInv(n, a, schedule);
  }

  /** What a step does to an abstract first-in-first-out queue. */
  datatype Effect = Nothing | Enqueue(item: int) | Dequeue(item: int)

  /** The linearization points: the successful compare-and-swap of the last node's `next` field, and the
      successful compare-and-swap of the head pointer. */
  function EffectOf(s: State, t: nat): Effect
    requires Defined(s, t)
  {
    match s.threads[t].pc
    case PushLink(node, tail) => if s.heap[tail].next == NULL then Enqueue(s.heap[node].item) else Nothing
    case PopSwing(head, next, item) => if s.head == head then Dequeue(item) else Nothing
    case _ => Nothing
  }

  lemma HeadInChain(s: State)
    requires Inv(s)
    ensures s.hd <= |s.pushed|
  {
    hide LocalOk;
  }

  lemma QuietStep(s: State, t: nat, c: Call)
    requires Defined(s, t) && !s.threads[t].pc.PushLink? && !s.threads[t].pc.PopSwing?
    ensures Step(s, t, c).hd == s.hd && Step(s, t, c).pushed == s.pushed && EffectOf(s, t) == Nothing
    ensures |Step(s, t, c).threads| == |s.threads|
    ensures s.threads[t].pc.PushSwing? ==> Step(s, t, c).threads[t].pc.Finished?
  {
  }

  /** A push that links its node links the item of its call. */
  lemma LinksItsItem(s: State, t: nat)
    requires Inv(s) && Defined(s, t) && s.threads[t].pc.PushLink?
    ensures s.hd <= |s.pushed|
    ensures var node := s.threads[t].pc.node; node in s.heap && s.threads[t].call == Push(s.heap[node].item, node)
  {
    hide ChainOk;
    assert LocalOk(s, t);
    HeadInChain(s);
  }

  /** A pop that is about to swing the head pointer holds the first value of the queue, if the head is still the
      one it has read. */
  lemma HeadOfContents(s: State, t: nat)
    requires Inv(s) && Defined(s, t) && s.threads[t].pc.PopSwing?
    ensures s.hd <= |s.pushed|
    ensures s.head == s.threads[t].pc.head ==>
              s.hd < |s.pushed| && s.pushed[s.hd] == s.threads[t].pc.item
  {
    assert LocalOk(s, t);
  }

  /** Every step of every thread is a step of an abstract queue: the link of a push appends the item of its call and
      is its only effect, the head swing of a pop removes exactly the value it returns from the front, and no other
      step changes the queue. */
  lemma StepsOfAQueue(s: State, t: nat, c: Call)
    requires Inv(s) && Defined(s, t)
    ensures var s' := Step(s, t, c);
            s'.hd <= |s'.pushed| && |s'.threads| == |s.threads| &&
            match EffectOf(s, t)
            case Nothing =>
              Contents(s') == Contents(s) && (s.threads[t].pc.PushSwing? ==> s'.threads[t].pc.Finished?)
            case Enqueue(item) =>
              && Contents(s') == Contents(s) + [item] && s'.threads[t].pc.PushSwing?
              && s.threads[t].call.Push? && s.threads[t].call.item == item
            case Dequeue(item) => Contents(s) == [item] + Contents(s') && s'.threads[t].pc == Finished(item)
  {
    hide Inv, CasTail;
    if s.threads[t].pc.PushLink? {
      LinksItsItem(s, t);
    } else if s.threads[t].pc.PopSwing? {
      HeadOfContents(s, t);
    } else {
      QuietStep(s, t, c);
      HeadInChain(s);
    }
  }

  /** A pop that is about to report an empty queue found it empty at some moment during its call. */
  ghost predicate SawEmpty(n: nat, a: Addr, schedule: seq<(nat, Call)>, began: nat, seen: nat) {
    && began <= seen <= |schedule|
    && var s := Run(n, a, schedule[..seen]);
       s.hd <= |s.pushed| && Contents(s) == []
  }

  lemma NullLoad(s: State, c: Call, t: nat)
    requires Inv(s) && Defined(s, t) && |Step(s, t, c).threads| == |s.threads|
    requires var pc := Step(s, t, c).threads[t].pc; pc.PopCheck? && pc.next == NULL
    ensures var th := Step(s, t, c).threads[t];
            th.began == s.threads[t].began <= th.pc.seen == s.now && s.hd <= |s.pushed| && Contents(s) == []
  {
    assert s.threads[t].pc.PopNext?;
    assert LocalOk(s, t);
    LastNode(s, s.threads[t].pc.head);
  }

  /** Only the load that finds no successor starts a possible report of emptiness, and it sees an empty queue. */
  lemma NullLoadSeesEmpty(s: State, u: nat, c: Call, t: nat)
    requires Inv(s) && t < |s.threads|
    requires var pc := Next(s, u, c).threads[t].pc; pc.PopCheck? && pc.next == NULL
    ensures var th := Next(s, u, c).threads[t];
            th == s.threads[t] || (th.began == s.threads[t].began <= th.pc.seen == s.now && Contents(s) == [])
  {
    if Defined(s, u) && u != t {
      hide Inv;
      StepClock(s, u, c);
    } else if Defined(s, u) {
      NullLoad(s, c, t);
    }
  }

  lemma {:induction false} EmptyWitness(n: nat, a: Addr, schedule: seq<(nat, Call)>, t: nat)
    requires a != NULL && t < n && Schedule(n, schedule)
    requires |Run(n, a, schedule).threads| == n
    requires var pc := Run(n, a, schedule).threads[t].pc; pc.PopCheck? && pc.next == NULL
    ensures var th := Run(n, a, schedule).threads[t];
            SawEmpty(n, a, schedule, th.began, th.pc.seen)
  {
    if |schedule| > 0 {
      var before := schedule[..|schedule| - 1];
      RunInv(n, a, before);
      var s := Run(n, a, before);
      var (u, c) := schedule[|schedule| - 1];
      NullLoadSeesEmpty(s, u, c, t);
      var th := Next(s, u, c).threads[t];
      if th == s.threads[t] {
        EmptyWitness(n, a, before, t);
        assert schedule[..th.pc.seen] == before[..th.pc.seen];
      } else {
        assert schedule[..th.pc.seen] == before;
      }
    }
  }

  lemma EmptyOnlyIfEmpty(n: nat, a: Addr, schedule: seq<(nat, Call)>, t: nat)
    requires a != NULL && t < n && Schedule(n, schedule)
    requires var s := Run(n, a, schedule);
             |s.threads| == n && s.threads[t].pc.PopCheck?
             && Next(s, t, Pop).threads[t].pc.Finished?
    ensures exists seen :: SawEmpty(n, a, schedule, Run(n, a, schedule).threads[t].began, seen)
  {
    var s := Run(n, a, schedule);
    RunInv(n, a, schedule);
    EmptyWitness(n, a, schedule, t);
    assert SawEmpty(n, a, schedule, s.threads[t].began, s.threads[t].pc.seen);
  }

  // ---------------------------------------------------------------------------------------------
  // What a call has done when it returns
  // ---------------------------------------------------------------------------------------------

  /** The last call of a thread: which one, since when, and its effects on the abstract queue so far. */
  datatype Record = Record(call: Call, began: nat, effects: seq<Effect>)

  function NextRecord(s: State, t: nat, c: Call, h: Record): Record
    requires Defined(s, t)
  {
    if s.threads[t].pc == Idle then Record(c, s.now, [])
    else if EffectOf(s, t) == Nothing then h
    else h.(effects := h.effects + [EffectOf(s, t)])
  }

  function History(n: nat, a: Addr, schedule: seq<(nat, Call)>, t: nat): Record {
    if |schedule| == 0 then Record(Pop, 0, [])
    else
      var before := schedule[..|schedule| - 1];
      var (u, c) := schedule[|schedule| - 1];
      if u == t && Defined(Run(n, a, before), t) then NextRecord(Run(n, a, before), t, c, History(n, a, before, t))
      else History(n, a, before, t)
  }

  /** What a call has done by the time it is where it is. */
  predicate RecordOk(th: Thread, h: Record) {
    th.pc != Idle ==>
      && th.call == h.call && th.began == h.began
      && match th.pc
         case Finished(v) =>
           if h.call.Push? then h.effects == [Enqueue(h.call.item)]
           else h.effects == [Dequeue(v)] || (h.effects == [] && v == EMPTY_VALUE)
         case PushSwing(_, _) => h.call.Push? && h.effects == [Enqueue(h.call.item)]
         case pc => h.effects == [] && (Pushing(pc) <==> h.call.Push?)
  }

  lemma PushRecord(s: State, t: nat, c: Call, h: Record)
    requires Inv(s) && Defined(s, t) && RecordOk(s.threads[t], h) && |Step(s, t, c).threads| == |s.threads|
    requires Pushing(s.threads[t].pc) || s.threads[t].pc.PushSwing?
    ensures RecordOk(Step(s, t, c).threads[t], NextRecord(s, t, c, h))
  {
    hide Inv, DoPopCheck, DoPopSwing, Start;
    if s.threads[t].pc.PushLink? {
      LinksItsItem(s, t);
    }
  }

  lemma OtherRecord(s: State, t: nat, c: Call, h: Record)
    requires Defined(s, t) && RecordOk(s.threads[t], h) && |Step(s, t, c).threads| == |s.threads|
    requires !Pushing(s.threads[t].pc) && !s.threads[t].pc.PushSwing?
    ensures RecordOk(Step(s, t, c).threads[t], NextRecord(s, t, c, h))
  {
    hide DoLink;
  }

  lemma {:induction false} RecordsAreRight(n: nat, a: Addr, schedule: seq<(nat, Call)>, t: nat)
    requires a != NULL && t < n && Schedule(n, schedule)
    ensures |Run(n, a, schedule).threads| == n
    ensures RecordOk(Run(n, a, schedule).threads[t], History(n, a, schedule, t))
  {
    RunInv(n, a, schedule);
    if |schedule| > 0 {
      hide RecordOk, Step, NextRecord, Inv;
      var before := schedule[..|schedule| - 1];
      RecordsAreRight(n, a, before, t);
      RunInv(n, a, before);
      var s, h := Run(n, a, before), History(n, a, before, t);
      var (u, c) := schedule[|schedule| - 1];
      StepClock(s, u, c);
      if u != t {
      } else if Pushing(s.threads[t].pc) || s.threads[t].pc.PushSwing? {
        PushRecord(s, t, c, h);
      } else {
        OtherRecord(s, t, c, h);
      }
    } else {
      assert Run(n, a, schedule).threads[t].pc == Idle;
    }
  }

  /** A pop that has finished without an effect found the queue empty at some moment during its call. */
  lemma {:induction false} FinishedEmpty(n: nat, a: Addr, schedule: seq<(nat, Call)>, t: nat)
    requires a != NULL && t < n && Schedule(n, schedule) && |Run(n, a, schedule).threads| == n
    requires Run(n, a, schedule).threads[t].pc.Finished?
    requires History(n, a, schedule, t).call == Pop && History(n, a, schedule, t).effects == []
    ensures exists seen :: SawEmpty(n, a, schedule, History(n, a, schedule, t).began, seen)
  {
    hide Inv, RecordOk, Step, NextRecord, SawEmpty;
    assert |schedule| > 0;
    var before := schedule[..|schedule| - 1];
    RunInv(n, a, before);
    RecordsAreRight(n, a, before, t);
    var s := Run(n, a, before);
    var (u, c) := schedule[|schedule| - 1];
    StepClock(s, u, c);
    if u == t {
      FinishesAfterCheck(s, t, c, History(n, a, before, t));
      EmptyOnlyIfEmpty(n, a, before, t);
    } else {
      FinishedEmpty(n, a, before, t);
    }
    var seen :| SawEmpty(n, a, before, History(n, a, before, t).began, seen);
    StillSawEmpty(n, a, schedule, History(n, a, schedule, t).began, seen);
  }

  lemma StillSawEmpty(n: nat, a: Addr, schedule: seq<(nat, Call)>, began: nat, seen: nat)
    requires |schedule| > 0 && SawEmpty(n, a, schedule[..|schedule| - 1], began, seen)
    ensures SawEmpty(n, a, schedule, began, seen)
  {
    hide Run;
    assert schedule[..seen] == schedule[..|schedule| - 1][..seen];
  }

  lemma FinishesAfterCheck(s: State, t: nat, c: Call, h: Record)
    requires Defined(s, t) && RecordOk(s.threads[t], h) && |Step(s, t, c).threads| == |s.threads|
    requires Step(s, t, c).threads[t].pc.Finished?
    requires NextRecord(s, t, c, h).call == Pop && NextRecord(s, t, c, h).effects == []
    ensures s.threads[t].pc.PopCheck? && Step(s, t, Pop).threads[t].pc.Finished? && NextRecord(s, t, c, h) == h
    ensures s.threads[t].began == h.began
  {
  }

  /** When a call returns, a push has appended its argument to the abstract queue, once; a pop has removed the value
      it returns from the front, once, or it returns EMPTY, has removed nothing, and the queue was empty at some
      moment during the call.  Since every effect is one step inside the call, the queue is linearizable. */
  lemma CallOutcomes(n: nat, a: Addr, schedule: seq<(nat, Call)>, t: nat)
    requires a != NULL && t < n && Schedule(n, schedule) && |Run(n, a, schedule).threads| == n
    requires Run(n, a, schedule).threads[t].pc.Finished?
    ensures var h, v := History(n, a, schedule, t), Run(n, a, schedule).threads[t].pc.result;
            match h.call
            case Push(item, _) => h.effects == [Enqueue(item)]
            case Pop =>
              || h.effects == [Dequeue(v)]
              || (h.effects == [] && v == EMPTY_VALUE && exists seen :: SawEmpty(n, a, schedule, h.began, seen))
  {
    hide Run, History, SawEmpty;
    RecordsAreRight(n, a, schedule, t);
    var h := History(n, a, schedule, t);
    if h.call == Pop && h.effects == [] {
      FinishedEmpty(n, a, schedule, t);
    }
  }

  /** A call that has not returned has had at most one effect, and a thread only leaves a call by returning. */
  lemma NoOtherEffects(n: nat, a: Addr, schedule: seq<(nat, Call)>, t: nat, c: Call)
    requires a != NULL && t < n && Schedule(n, schedule) && |Run(n, a, schedule).threads| == n
    requires Run(n, a, schedule).threads[t].pc != Idle
    ensures |History(n, a, schedule, t).effects| <= 1
    ensures var s := Run(n, a, schedule);
            Defined(s, t) && |Step(s, t, c).threads| == n
            && (Step(s, t, c).threads[t].pc == Idle ==> s.threads[t].pc.Finished?)
  {
    hide Run, History, Inv;
    RunInv(n, a, schedule);
    RecordsAreRight(n, a, schedule, t);
    StepClock(Run(n, a, schedule), t, c);
  }

  // ---------------------------------------------------------------------------------------------
  // No thread ever waits for another
  // ---------------------------------------------------------------------------------------------

  /** How many operations there are at most from here to the end of the loop body. */
  function Rank(pc: PC): nat {
    match pc
    case PushLoad(_) => 9
    case PushValidate(_, _) => 8
    case PushNext(_, _) => 7
    case PushCheck(_, _, _) => 6
    case PushLink(_, _) => 5
    case PushSwing(_, _) => 4
    case PushHelp(_, _, _) => 4
    case PopLoad => 9
    case PopValidate(_) => 8
    case PopTail(_) => 7
    case PopNext(_, _) => 6
    case PopCheck(_, _, _, _) => 5
    case PopHelp(_, _) => 4
    case PopReload(_, _) => 4
    case PopRecheck(_, _, _) => 3
    case PopItem(_, _) => 2
    case PopSwing(_, _, _) => 1
    case _ => 0
  }

  /** What a thread has read is still so. */
  predicate Fresh(s: State, t: nat)
    requires t < |s.threads|
  {
    match s.threads[t].pc
    case PushValidate(_, tail) => tail == s.tail
    case PushNext(_, tail) => tail == s.tail
    case PushCheck(_, tail, next) => tail == s.tail && tail in s.heap && s.heap[tail].next == next
    case PushLink(_, tail) => tail == s.tail && tail in s.heap && s.heap[tail].next == NULL
    case PushHelp(_, tail, next) => tail == s.tail
    case PopValidate(head) => head == s.head
    case PopTail(head) => head == s.head
    case PopNext(head, tail) => head == s.head && tail == s.tail
    case PopCheck(head, tail, next, _) =>
      head == s.head && tail == s.tail && head in s.heap && s.heap[head].next == next
    case PopHelp(tail, next) => tail == s.tail
    case PopReload(head, next) => head == s.head && head in s.heap && s.heap[head].next == next
    case PopRecheck(head, next, again) => head == s.head == again && head in s.heap && s.heap[head].next == next
    case PopItem(head, _) => head == s.head
    case PopSwing(head, _, _) => head == s.head
    case _ => true
  }

  /** How far the tail pointer lags behind, except for a push that has linked its node. */
  function Lag(s: State, t: nat): int
    requires t < |s.threads|
  {
    if s.threads[t].pc.PushSwing? then 0 else |s.order| - 1 - s.tl
  }

  predicate Returned(s: State, t: nat)
    requires t < |s.threads|
  {
    s.threads[t].pc.Finished?
  }

  /** A step brings a thread that runs alone nearer to its return: its view becomes fresh, or the tail pointer lags
      less, or fewer operations are left. */
  predicate Nearer(s: State, s': State, t: nat)
    requires t < |s.threads| == |s'.threads|
  {
    || (!Fresh(s, t) && Fresh(s', t))
    || (Fresh(s, t) == Fresh(s', t) && Lag(s', t) < Lag(s, t))
    || (Fresh(s, t) == Fresh(s', t) && Lag(s', t) == Lag(s, t) && Rank(s'.threads[t].pc) < Rank(s.threads[t].pc))
  }

  lemma LagBounded(s: State, t: nat)
    requires Inv(s) && t < |s.threads|
    ensures Lag(s, t) >= 0
  {
    hide LocalOk;
  }

  lemma PushNearer(s: State, t: nat, c: Call)
    requires Inv(s) && Defined(s, t) && |Step(s, t, c).threads| == |s.threads| && Lag(s, t) >= 0
    requires Pushing(s.threads[t].pc) || s.threads[t].pc.PushSwing?
    ensures var s' := Step(s, t, c); s'.threads[t].pc != Idle && (Returned(s', t) || Nearer(s, s', t))
  {
    hide DoPopCheck, DoPopSwing, Start, Own, ChainOk;
    assert LocalOk(s, t);
    if s.threads[t].pc.PushCheck? && s.threads[t].pc.tail == s.tail {
      LastNodeOf(s, s.tail);
    }
  }

  lemma LastNodeOf(s: State, a: Addr)
    requires Inv(s) && Between(s, 0, a, |s.order|)
    ensures Index(s, a) < |s.order| - 1 ==> Successor(s, a, s.heap[a].next)
  {
    hide LocalOk;
    LastNode(s, a);
  }

  lemma HeadHasNext(s: State)
    requires Inv(s)
    ensures s.head in s.heap && (s.head != s.tail ==> s.heap[s.head].next != NULL)
  {
    hide LocalOk;
    assert s.order[s.hd] in s.heap;
    if s.head != s.tail {
      assert s.order[s.hd + 1] in s.heap;
    }
  }

  lemma PopNearer(s: State, t: nat, c: Call)
    requires Inv(s) && Defined(s, t) && |Step(s, t, c).threads| == |s.threads| && Lag(s, t) >= 0
    requires !Pushing(s.threads[t].pc) && !s.threads[t].pc.PushSwing?
    requires s.threads[t].pc != Idle && !s.threads[t].pc.Finished?
    ensures var s' := Step(s, t, c); s'.threads[t].pc != Idle && (Returned(s', t) || Nearer(s, s', t))
  {
    hide DoLink, Start, Own, ChainOk;
    assert LocalOk(s, t);
    HeadHasNext(s);
  }

  /** From wherever a thread is in a call, and whatever state the other threads have left the queue in, the call
      returns if the thread runs alone: no thread waits for another. */
  lemma {:induction false} ReturnsAlone(n: nat, a: Addr, schedule: seq<(nat, Call)>, t: nat)
    returns (alone: seq<(nat, Call)>)
    requires a != NULL && t < n && Schedule(n, schedule) && |Run(n, a, schedule).threads| == n
    requires Run(n, a, schedule).threads[t].pc != Idle
    ensures forall i :: 0 <= i < |alone| ==> alone[i].0 == t
    ensures |Run(n, a, schedule + alone).threads| == n && Returned(Run(n, a, schedule + alone), t)
    decreases if Fresh(Run(n, a, schedule), t) then 0 else 1, Lag(Run(n, a, schedule), t),
              Rank(Run(n, a, schedule).threads[t].pc)
  {
    hide Run, Fresh, Lag, Rank, Step, Inv, Pushing;
    var s := Run(n, a, schedule);
    RunInv(n, a, schedule);
    LagBounded(s, t);
    if Returned(s, t) {
      assert schedule + [] == schedule;
      alone := [];
    } else {
      var now := schedule + [(t, Pop)];
      OneMoreStep(n, a, schedule, t);
      RunInv(n, a, now);
      LagBounded(Run(n, a, now), t);
      if Pushing(s.threads[t].pc) || s.threads[t].pc.PushSwing? {
        PushNearer(s, t, Pop);
      } else {
        PopNearer(s, t, Pop);
      }
      var rest := [];
      if !Returned(Run(n, a, now), t) {
        rest := ReturnsAlone(n, a, now, t);
      } else {
        assert now + [] == now;
      }
      alone := [(t, Pop)] + rest;
      assert schedule + alone == now + rest;
    }
  }

  lemma OneMoreStep(n: nat, a: Addr, schedule: seq<(nat, Call)>, t: nat)
    requires a != NULL && t < n && Schedule(n, schedule)
    ensures Schedule(n, schedule + [(t, Pop)]) && Defined(Run(n, a, schedule), t)
    ensures Run(n, a, schedule + [(t, Pop)]) == Step(Run(n, a, schedule), t, Pop)
  {
    hide Step, Inv;
    RunInv(n, a, schedule);
    assert (schedule + [(t, Pop)])[..|schedule|] == schedule;
  }
}
