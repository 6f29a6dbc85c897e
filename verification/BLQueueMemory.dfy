/** What happens to the memory of drained segments: none is lost, and scans free what nobody uses. */
module BLQueueMemory {
  import opened BLQueueSteps
  import opened BLQueue
  import opened BLQueueProgress

  /** Every node that has been allocated and not freed is in the chain, or in the hands of one thread: its push is
      still working on it, its pop is about to retire it, or it is in the list of retired nodes. */
  ghost predicate Accounted(s: State) {
    forall a :: a in s.heap ==> HasOwner(s, a)
  }

  predicate HasOwner(s: State, a: Addr)
    requires a in s.heap
  {
    match s.heap[a].role
    case Chain => true
    case Private(u) =>
      u < |s.threads| && (s.threads[u].pc.PushSwing? || s.threads[u].pc.PushFree?) && s.threads[u].pc.node == a
    case Limbo(u) => u < |s.threads| && s.threads[u].pc == Retire(a)
    case Retired(u) => u < |s.threads| && a in s.threads[u].retired
    case Leaked => false
  }

  predicate GrantsAll(schedule: seq<(nat, Choice)>) {
    forall i :: 0 <= i < |schedule| ==> schedule[i].1.ok
  }

  lemma OwnNode(s: State, t: nat)
    requires MemInv(s) && t < |s.threads|
    ensures var pc := s.threads[t].pc;
            && (pc.PushSwing? || pc.PushFree? ==> pc.node in s.heap && s.heap[pc.node].role == Private(t))
            && (pc.Retire? ==> pc.node in s.heap && s.heap[pc.node].role == Limbo(t))
  {
    hide RetiredOk, ScanOk, LinkersDiffer;
    assert LocalOk(s, t);
  }

  lemma OwnList(s: State, t: nat)
    requires MemInv(s) && t < |s.threads|
    ensures RetiredOk(s, t)
  {
    hide ChainOk, HoldOk, LocalOk, RetiredOk, ScanOk, LinkersDiffer;
  }

  lemma PushSlotAccounted(s: State, t: nat, c: Choice)
    requires Defined(s, t) && Accounted(s)
    requires s.threads[t].pc.PushFetch? || s.threads[t].pc.PushCas? || s.threads[t].pc.PushLink?
    ensures Accounted(Step(s, t, c))
  {
    hide DoRetire, DoScan, DoClear, DoValidate, DoIdle, DoPopFetch, DoPopExchange, DoPopNext, DoPopSwing,
         DoPushNew, DoPushSwing;
  }

  lemma PushNodeAccounted(s: State, t: nat, c: Choice)
    requires MemInv(s) && Defined(s, t) && Accounted(s)
    requires s.threads[t].pc.PushNew? || s.threads[t].pc.PushSwing? || s.threads[t].pc.PushFree?
    ensures Accounted(Step(s, t, c))
  {
    hide DoRetire, DoScan, DoClear, DoValidate, DoIdle, DoPopFetch, DoPopExchange, DoPopNext, DoPopSwing,
         DoPushFetch, DoPushCas, DoPushLink, MemInv;
    OwnNode(s, t);
  }

  lemma PopAccounted(s: State, t: nat, c: Choice)
    requires MemInv(s) && Defined(s, t) && InPop(s.threads[t].pc) && !s.threads[t].pc.Retire? && !s.threads[t].pc.Scan?
    requires Accounted(s)
    ensures Accounted(Step(s, t, c))
  {
    hide DoRetire, DoScan, DoClear, DoValidate, DoIdle, DoPushFetch, DoPushCas, DoPushNew, DoPushSwing, DoPushLink,
         MemInv;
  }

  lemma RetireAccounted(s: State, t: nat, c: Choice)
    requires MemInv(s) && Defined(s, t) && (s.threads[t].pc.Retire? || s.threads[t].pc.Scan?) && Accounted(s) && c.ok
    ensures Accounted(Step(s, t, c))
  {
    hide DoClear, DoValidate, DoIdle, DoPushFetch, DoPushCas, DoPushNew, DoPushSwing, DoPushLink,
         DoPopFetch, DoPopExchange, DoPopNext, DoPopSwing, MemInv;
    OwnNode(s, t);
    OwnList(s, t);
  }

  lemma OtherAccounted(s: State, t: nat, c: Choice)
    requires MemInv(s) && Defined(s, t) && !InPush(s.threads[t].pc) && !InPop(s.threads[t].pc) && Accounted(s)
    ensures Accounted(Step(s, t, c))
  {
    hide DoRetire, DoScan, DoPushFetch, DoPushCas, DoPushNew, DoPushSwing, DoPushLink,
         DoPopFetch, DoPopExchange, DoPopNext, DoPopSwing, MemInv;
  }

  /** As long as every allocation succeeds, no memory is lost. */
  lemma {:induction false} NothingLeaks(n: nat, a: Addr, schedule: seq<(nat, Choice)>)
    requires a != NULL && Schedule(n, schedule) && GrantsAll(schedule)
    ensures Accounted(Run(n, a, schedule))
  {
    hide Accounted, MemInv, Step, SafeStep;
    if |schedule| == 0 {
      AccountedAtFirst(n, a);
    } else {
      var before := schedule[..|schedule| - 1];
      NothingLeaks(n, a, before);
      MemorySafety(n, a, before);
      var s := Run(n, a, before);
      var (t, c) := schedule[|schedule| - 1];
      var pc := s.threads[t].pc;
      if pc.PushFetch? || pc.PushCas? || pc.PushLink? {
        PushSlotAccounted(s, t, c);
      } else if InPush(pc) {
        PushNodeAccounted(s, t, c);
      } else if pc.Retire? || pc.Scan? {
        RetireAccounted(s, t, c);
      } else if InPop(pc) {
        PopAccounted(s, t, c);
      } else {
        OtherAccounted(s, t, c);
      }
    }
  }

  lemma AccountedAtFirst(n: nat, a: Addr)
    ensures Accounted(Init(n, a))
  {
  }

  /** Nobody protects a node between two calls. */
  predicate IdleProtectsNothing(s: State) {
    |s.hp| == |s.threads| && forall t :: 0 <= t < |s.threads| && s.threads[t].pc.Idle? ==> s.hp[t] == NULL
  }

  lemma PushKeepsSlots(s: State, t: nat, c: Choice)
    requires Defined(s, t) && IdleProtectsNothing(s) && InPush(s.threads[t].pc)
    ensures IdleProtectsNothing(Step(s, t, c))
  {
    hide DoRetire, DoScan, DoPopFetch, DoPopExchange, DoPopNext, DoPopSwing, DoIdle, DoClear, DoValidate;
  }

  lemma PopKeepsSlots(s: State, t: nat, c: Choice)
    requires Defined(s, t) && IdleProtectsNothing(s) && InPop(s.threads[t].pc)
    ensures IdleProtectsNothing(Step(s, t, c))
  {
    hide DoIdle, DoClear, DoValidate, DoPushFetch, DoPushCas, DoPushNew, DoPushSwing, DoPushLink;
  }

  lemma OtherKeepsSlots(s: State, t: nat, c: Choice)
    requires Defined(s, t) && IdleProtectsNothing(s) && !InPush(s.threads[t].pc) && !InPop(s.threads[t].pc)
    ensures IdleProtectsNothing(Step(s, t, c))
  {
    hide DoRetire, DoScan, DoPushFetch, DoPushCas, DoPushNew, DoPushSwing, DoPushLink,
         DoPopFetch, DoPopExchange, DoPopNext, DoPopSwing;
  }

  lemma {:induction false} NothingProtectedBetweenCalls(n: nat, a: Addr, schedule: seq<(nat, Choice)>)
    requires a != NULL && Schedule(n, schedule)
    ensures IdleProtectsNothing(Run(n, a, schedule))
  {
    hide Step, SafeStep;
    if |schedule| > 0 {
      var before := schedule[..|schedule| - 1];
      NothingProtectedBetweenCalls(n, a, before);
      MemorySafety(n, a, before);
      var (t, c) := schedule[|schedule| - 1];
      var s := Run(n, a, before);
      if InPush(s.threads[t].pc) {
        PushKeepsSlots(s, t, c);
      } else if InPop(s.threads[t].pc) {
        PopKeepsSlots(s, t, c);
      } else {
        OtherKeepsSlots(s, t, c);
      }
    }
  }

  /** The retired nodes that are published in some slot. */
  function Published(retired: seq<Addr>, hp: seq<Addr>): seq<Addr> {
    if |retired| == 0 then []
    else (if retired[0] in hp then [retired[0]] else []) + Published(retired[1..], hp)
  }

  /** The nodes that a scan frees. */
  function Unpublished(retired: seq<Addr>, hp: seq<Addr>): set<Addr> { set a | a in retired && a !in hp }

  lemma FirstOfRest(retired: seq<Addr>, i: nat, hp: seq<Addr>)
    requires i < |retired|
    ensures Published(retired[i..], hp)
            == (if retired[i] in hp then [retired[i]] else []) + Published(retired[i + 1..], hp)
    ensures Unpublished(retired[i..], hp)
            == (if retired[i] in hp then {} else {retired[i]}) + Unpublished(retired[i + 1..], hp)
  {
    assert retired[i..][1..] == retired[i + 1..] && retired[i..] == [retired[i]] + retired[i + 1..];
  }

  lemma ScanStep(s: State, t: nat, c: Choice)
    requires Defined(s, t) && s.threads[t].pc.Scan?
    ensures var s', th := Step(s, t, c), s.threads[t];
            var i, j := th.pc.i, th.pc.j;
            && |s'.threads| == |s.threads| && s'.hp == s.hp
            && var th' := s'.threads[t];
               if i >= |th.retired| then
                 th'.pc == Clear(Retry(Pop)) && th'.retired == th.retired && s'.heap == s.heap
               else if j >= |s.hp| then
                 && th'.pc == Scan(i, 0) && th'.retired == th.retired[..i] + th.retired[i + 1..]
                 && s'.heap == s.heap - {th.retired[i]}
               else
                 && th'.pc == (if s.hp[j] == th.retired[i] then Scan(i + 1, 0) else Scan(i, j + 1))
                 && th'.retired == th.retired && s'.heap == s.heap
  {
    hide DoPushFetch, DoPushCas, DoPushNew, DoPushSwing, DoPushLink, DoPopFetch, DoPopExchange, DoPopNext, DoPopSwing,
         DoRetire, DoClear, DoValidate, DoIdle;
  }

  /** A scan that runs alone frees exactly those nodes, from the `i`-th on, that are published in no slot. */
  lemma {:induction false} ScanAlone(n: nat, a: Addr, schedule: seq<(nat, Choice)>, t: nat, c: Choice)
    returns (longer: seq<(nat, Choice)>)
    requires a != NULL && t < n && Schedule(n, schedule) && |Run(n, a, schedule).threads| == n
    requires Scanning(Run(n, a, schedule), t)
    ensures schedule <= longer && Schedule(n, longer) && |Run(n, a, longer).threads| == n
    ensures Scanned(Run(n, a, schedule), Run(n, a, longer), t)
    decreases |Run(n, a, schedule).threads[t].retired| - Run(n, a, schedule).threads[t].pc.i,
              |Run(n, a, schedule).hp| - Run(n, a, schedule).threads[t].pc.j
  {
    hide Run, Defined, Step, Published, Unpublished;
    var s := Run(n, a, schedule);
    var th := s.threads[t];
    OneMoreStep(n, a, schedule, t, c);
    ScanStep(s, t, c);
    longer := schedule + [(t, c)];
    if th.pc.i < |th.retired| {
      var s' := Run(n, a, longer);
      StillScanning(s, s', t);
      longer := ScanAlone(n, a, longer, t, c);
      FirstOfRest(th.retired, th.pc.i, s.hp);
      ScannedThen(s, s', Run(n, a, longer), t);
    } else {
      NothingToScan(th.retired[th.pc.i..], s.hp);
    }
  }

  /** The scan of thread `t` has found the `i`-th node in none of the first `j` slots. */
  predicate Scanning(s: State, t: nat)
    requires t < |s.threads|
  {
    var th := s.threads[t];
    && th.pc.Scan? && th.pc.i <= |th.retired| && th.pc.j <= |s.hp|
    && (th.pc.i < |th.retired| ==> th.retired[th.pc.i] !in s.hp[..th.pc.j])
  }

  predicate Scanned(s: State, s': State, t: nat)
    requires t < |s.threads| == |s'.threads| && Scanning(s, t)
  {
    var th := s.threads[t];
    && s'.threads[t].pc == Clear(Retry(Pop)) && s'.hp == s.hp
    && s'.threads[t].retired == th.retired[..th.pc.i] + Published(th.retired[th.pc.i..], s.hp)
    && s'.heap == s.heap - Unpublished(th.retired[th.pc.i..], s.hp)
  }

  lemma NothingToScan(rest: seq<Addr>, hp: seq<Addr>)
    requires rest == []
    ensures Published(rest, hp) == [] && Unpublished(rest, hp) == {}
  {
  }

  lemma StillScanning(s: State, s': State, t: nat)
    requires t < |s.threads| == |s'.threads| && Scanning(s, t) && s.threads[t].pc.i < |s.threads[t].retired|
    requires s'.hp == s.hp
    requires var th, th' := s.threads[t], s'.threads[t];
             var i, j := th.pc.i, th.pc.j;
             if j >= |s.hp| then
               th'.pc == Scan(i, 0) && th'.retired == th.retired[..i] + th.retired[i + 1..]
             else
               && th'.pc == (if s.hp[j] == th.retired[i] then Scan(i + 1, 0) else Scan(i, j + 1))
               && th'.retired == th.retired
    ensures Scanning(s', t)
  {
    var i, j := s.threads[t].pc.i, s.threads[t].pc.j;
    if j < |s.hp| {
      assert s.hp[..j + 1] == s.hp[..j] + [s.hp[j]];
    }
  }

  lemma ScannedThen(s: State, s1: State, s2: State, t: nat)
    requires t < |s.threads| == |s1.threads| == |s2.threads| && Scanning(s, t) && Scanning(s1, t)
    requires s.threads[t].pc.i < |s.threads[t].retired| && s1.hp == s.hp && Scanned(s1, s2, t)
    requires var th, th1 := s.threads[t], s1.threads[t];
             var i, j := th.pc.i, th.pc.j;
             if j >= |s.hp| then
               && th1.pc == Scan(i, 0) && th1.retired == th.retired[..i] + th.retired[i + 1..]
               && s1.heap == s.heap - {th.retired[i]}
             else
               && th1.pc == (if s.hp[j] == th.retired[i] then Scan(i + 1, 0) else Scan(i, j + 1))
               && th1.retired == th.retired && s1.heap == s.heap
    requires var th := s.threads[t]; var i := th.pc.i;
             && Published(th.retired[i..], s.hp)
                == (if th.retired[i] in s.hp then [th.retired[i]] else []) + Published(th.retired[i + 1..], s.hp)
             && Unpublished(th.retired[i..], s.hp)
                == (if th.retired[i] in s.hp then {} else {th.retired[i]}) + Unpublished(th.retired[i + 1..], s.hp)
    ensures Scanned(s, s2, t)
  {
    hide Published, Unpublished;
    var th := s.threads[t];
    var i, j := th.pc.i, th.pc.j;
    if j >= |s.hp| {
      assert s.hp[..j] == s.hp;
      assert s1.threads[t].retired[..i] == th.retired[..i] && s1.threads[t].retired[i..] == th.retired[i + 1..];
    } else if s.hp[j] == th.retired[i] {
      assert th.retired[..i + 1] == th.retired[..i] + [th.retired[i]];
      assert th.retired[..i + 1] + Published(th.retired[i + 1..], s.hp)
             == th.retired[..i] + ([th.retired[i]] + Published(th.retired[i + 1..], s.hp));
    }
  }

  /** A pop that retires a segment, running alone, puts it on the list of its thread; if the list gets too long, all
      nodes of the list are freed that are published in no slot. */
  lemma RetireAlone(n: nat, a: Addr, schedule: seq<(nat, Choice)>, t: nat, c: Choice)
    returns (longer: seq<(nat, Choice)>)
    requires a != NULL && t < n && Schedule(n, schedule) && |Run(n, a, schedule).threads| == n && c.ok
    requires Run(n, a, schedule).threads[t].pc.Retire?
    ensures schedule <= longer && Schedule(n, longer) && |Run(n, a, longer).threads| == n
    ensures var s, s' := Run(n, a, schedule), Run(n, a, longer);
            var list := [s.threads[t].pc.node] + s.threads[t].retired;
            && s'.threads[t].pc == Clear(Retry(Pop))
            && (if |list| <= RETIRED_THRESHOLD then s'.threads[t].retired == list && s'.heap.Keys == s.heap.Keys
                else
                  && s'.threads[t].retired == Published(list, s.hp)
                  && s'.heap.Keys == s.heap.Keys - Unpublished(list, s.hp))
  {
    hide Run, Defined, Published, Unpublished;
    var s := Run(n, a, schedule);
    OneMoreStep(n, a, schedule, t, c);
    longer := schedule + [(t, c)];
    var s1 := Run(n, a, longer);
    RetireStep(s, t, c);
    if s1.threads[t].pc.Scan? {
      var list := s1.threads[t].retired;
      assert list[..0] == [] && list[0..] == list;
      longer := ScanAlone(n, a, longer, t, c);
    }
  }

  lemma RetireStep(s: State, t: nat, c: Choice)
    requires Defined(s, t) && s.threads[t].pc.Retire? && c.ok
    ensures var s' := Step(s, t, c);
            var list := [s.threads[t].pc.node] + s.threads[t].retired;
            && |s'.threads| == |s.threads| && s'.hp == s.hp && s'.heap.Keys == s.heap.Keys
            && s'.threads[t].retired == list
            && s'.threads[t].pc == if |list| > RETIRED_THRESHOLD then Scan(0, 0) else Clear(Retry(Pop))
  {
    hide DoPushFetch, DoPushCas, DoPushNew, DoPushSwing, DoPushLink, DoPopFetch, DoPopExchange, DoPopNext, DoPopSwing,
         DoScan, DoClear, DoValidate, DoIdle;
  }
}
