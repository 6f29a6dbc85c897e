/** What it means that a pop of BLQueue.c reports EMPTY, and what the test for emptiness answers. */
module BLQueueEmpty {
  import opened BLQueueSteps
  import opened BLQueue
  import opened BLQueueProgress

  // ---------------------------------------------------------------------------------------------
  // The links between segments, and when EMPTY is true
  // ---------------------------------------------------------------------------------------------

  predicate Removed(role: Role) { role.Limbo? || role.Retired? || role.Leaked? }

  /** A push has made the `k + 1`-th segment the tail and not yet linked the `k`-th segment to it. */
  predicate Linking(s: State, k: nat)
    requires k + 1 < |s.order|
  {
    exists u :: 0 <= u < |s.threads| && s.threads[u].pc == PushLink(s.order[k], s.order[k + 1])
  }

  ghost predicate LinksOk(s: State) {
    && (forall k :: s.first <= k < |s.order| - 1 ==>
          && s.order[k] in s.heap && s.heap[s.order[k]].role == Chain
          && (s.heap[s.order[k]].next == s.order[k + 1] || Linking(s, k)))
    && (forall a :: a in s.heap && Removed(s.heap[a].role) ==> s.heap[a].next != NULL)
    && (forall k :: 1 <= k < |s.order| ==> Slot(k, 0) in s.log)
  }

  /** What a step of thread `t` may do to links. */
  ghost predicate LinkStep(s: State, s': State, t: nat)
    requires t < |s.threads|
  {
    var pc := s.threads[t].pc;
    && |s'.threads| == |s.threads| && s.first <= s'.first && s.log.Keys <= s'.log.Keys
    && (forall u :: 0 <= u < |s.threads| && u != t ==> s'.threads[u] == s.threads[u])
    && (forall a :: a in s.heap && a in s'.heap && s.heap[a].role == Chain ==>
          s'.heap[a].next == s.heap[a].next || pc == PushLink(a, s'.heap[a].next))
    && (forall a :: a in s.heap && a in s'.heap && Removed(s.heap[a].role) ==>
        s'.heap[a].next != NULL || s.heap[a].next == NULL)
    && (forall a :: a in s'.heap && Removed(s'.heap[a].role) ==>
          a in s.heap && (Removed(s.heap[a].role)
                          || (s.heap[a].role == Chain && s.heap[a].next != NULL && s'.heap[a].next == s.heap[a].next)))
    && (pc.PushLink? && pc.p in s.heap ==> pc.p in s'.heap && s'.heap[pc.p].next == pc.node)
    && (s'.order == s.order
        || (exists node :: s'.order == s.order + [node] && s'.threads[t].pc == PushLink(s.tail, node)
                           && Slot(|s.order|, 0) in s'.log))
  }

  lemma PushSlotLinks(s: State, t: nat, c: Choice)
    requires MemInv(s) && Defined(s, t)
    requires s.threads[t].pc.PushFetch? || s.threads[t].pc.PushCas? || s.threads[t].pc.PushLink?
    ensures LinkStep(s, Step(s, t, c), t)
  {
    hide DoRetire, DoScan, DoClear, DoValidate, DoIdle, DoPopFetch, DoPopExchange, DoPopNext, DoPopSwing,
         DoPushNew, DoPushSwing;
    hide HoldOk, RetiredOk, ScanOk, LinkersDiffer;
    assert LocalOk(s, t);
  }

  lemma PushNodeLinks(s: State, t: nat, c: Choice)
    requires MemInv(s) && Defined(s, t)
    requires s.threads[t].pc.PushNew? || s.threads[t].pc.PushSwing? || s.threads[t].pc.PushFree?
    ensures LinkStep(s, Step(s, t, c), t)
  {
    hide DoRetire, DoScan, DoClear, DoValidate, DoIdle, DoPopFetch, DoPopExchange, DoPopNext, DoPopSwing,
         DoPushFetch, DoPushCas, DoPushLink;
    hide HoldOk, RetiredOk, ScanOk, LinkersDiffer;
    assert LocalOk(s, t);
  }

  lemma PushLinks(s: State, t: nat, c: Choice)
    requires MemInv(s) && Defined(s, t) && InPush(s.threads[t].pc)
    ensures LinkStep(s, Step(s, t, c), t)
  {
    hide MemInv, LinkStep, Step;
    var pc := s.threads[t].pc;
    if pc.PushFetch? || pc.PushCas? || pc.PushLink? {
      PushSlotLinks(s, t, c);
    } else {
      PushNodeLinks(s, t, c);
    }
  }

  lemma PopLinks(s: State, t: nat, c: Choice)
    requires MemInv(s) && Defined(s, t) && InPop(s.threads[t].pc) && !s.threads[t].pc.Retire? && !s.threads[t].pc.Scan?
    ensures LinkStep(s, Step(s, t, c), t)
  {
    hide DoRetire, DoScan, DoClear, DoValidate, DoIdle, DoPushFetch, DoPushCas, DoPushNew, DoPushSwing, DoPushLink;
    hide HoldOk, RetiredOk, ScanOk, LinkersDiffer;
    assert LocalOk(s, t);
  }

  lemma RetireLinks(s: State, t: nat, c: Choice)
    requires MemInv(s) && Defined(s, t) && (s.threads[t].pc.Retire? || s.threads[t].pc.Scan?)
    ensures LinkStep(s, Step(s, t, c), t)
  {
    hide DoClear, DoValidate, DoIdle, DoPushFetch, DoPushCas, DoPushNew, DoPushSwing, DoPushLink,
         DoPopFetch, DoPopExchange, DoPopNext, DoPopSwing;
    hide HoldOk, ScanOk, LinkersDiffer;
    assert LocalOk(s, t) && RetiredOk(s, t);
  }

  lemma OtherLinks(s: State, t: nat, c: Choice)
    requires MemInv(s) && Defined(s, t) && !InPush(s.threads[t].pc) && !InPop(s.threads[t].pc)
    ensures LinkStep(s, Step(s, t, c), t)
  {
    hide DoRetire, DoScan, DoPushFetch, DoPushCas, DoPushNew, DoPushSwing, DoPushLink,
         DoPopFetch, DoPopExchange, DoPopNext, DoPopSwing;
    hide HoldOk, RetiredOk, ScanOk, LinkersDiffer;
    assert LocalOk(s, t);
  }

  /** A segment that is linked is not waiting for a link. */
  lemma NotLinkedTwice(s: State, t: nat, a: Addr)
    requires MemInv(s) && t < |s.threads| && a in s.heap && s.heap[a].next != NULL
    ensures s.threads[t].pc.PushLink? ==> s.threads[t].pc.p != a
  {
    hide RetiredOk, ScanOk, LinkersDiffer;
    assert LocalOk(s, t);
  }

  lemma LinkStays(s: State, s': State, t: nat, k: nat)
    requires MemInv(s) && MemInv(s') && LinksOk(s) && t < |s.threads| && LinkStep(s, s', t)
    requires s'.first <= k < |s.order| - 1
    ensures s'.order[k] in s'.heap && s'.heap[s'.order[k]].role == Chain
    ensures s'.heap[s'.order[k]].next == s'.order[k + 1] || Linking(s', k)
  {
    hide RetiredOk, ScanOk, LinkersDiffer, HoldOk, LocalOk;
    var a := s.order[k];
    assert s'.order[k] == a && s'.order[k + 1] == s.order[k + 1];
    if s.heap[a].next == s.order[k + 1] {
      NotLinkedTwice(s, t, a);
    } else {
      var u :| 0 <= u < |s.threads| && s.threads[u].pc == PushLink(s.order[k], s.order[k + 1]);
      if u != t {
        assert s'.threads[u].pc == PushLink(s'.order[k], s'.order[k + 1]);
      }
    }
  }

  lemma NewLink(s: State, s': State, t: nat, k: nat)
    requires MemInv(s) && MemInv(s') && t < |s.threads| && LinkStep(s, s', t)
    requires s'.first <= k && k == |s.order| - 1 < |s'.order| - 1
    ensures s'.order[k] in s'.heap && s'.heap[s'.order[k]].role == Chain && Linking(s', k)
  {
    hide HoldOk, LocalOk, RetiredOk, ScanOk, LinkersDiffer;
    assert s'.threads[t].pc == PushLink(s'.order[k], s'.order[k + 1]);
  }

  lemma LinksStep(s: State, s': State, t: nat)
    requires MemInv(s) && MemInv(s') && LinksOk(s) && t < |s.threads| && LinkStep(s, s', t)
    ensures LinksOk(s')
  {
    hide MemInv, Linking;
    forall k | s'.first <= k < |s'.order| - 1
      ensures s'.order[k] in s'.heap && s'.heap[s'.order[k]].role == Chain
      ensures s'.heap[s'.order[k]].next == s'.order[k + 1] || Linking(s', k)
    {
      if k < |s.order| - 1 {
        LinkStays(s, s', t, k);
      } else {
        NewLink(s, s', t, k);
      }
    }
  }

  lemma {:induction false} LinksInv(n: nat, a: Addr, schedule: seq<(nat, Choice)>)
    requires a != NULL && Schedule(n, schedule)
    ensures LinksOk(Run(n, a, schedule)) && |Run(n, a, schedule).threads| == n
  {
    hide LinksOk, LinkStep, MemInv, Step, SafeStep;
    MemorySafety(n, a, schedule);
    if |schedule| == 0 {
      FirstLinks(n, a);
    } else {
      var before := schedule[..|schedule| - 1];
      LinksInv(n, a, before);
      MemorySafety(n, a, before);
      var s := Run(n, a, before);
      var (t, c) := schedule[|schedule| - 1];
      var pc := s.threads[t].pc;
      if InPush(pc) {
        PushLinks(s, t, c);
      } else if pc.Retire? || pc.Scan? {
        RetireLinks(s, t, c);
      } else if InPop(pc) {
        PopLinks(s, t, c);
      } else {
        OtherLinks(s, t, c);
      }
      LinksStep(s, Step(s, t, c), t);
    }
  }

  lemma FirstLinks(n: nat, a: Addr)
    ensures LinksOk(Init(n, a))
  {
  }

  /** Some value has been stored and its slot not yet been handed to a pop. */
  ghost predicate HasUnclaimed(s: State) {
    exists x :: x in s.log && Pos(x) >= |s.claimedAt|
  }

  /** The segment that a pop finds without a successor, after all its slots have been handed out, is the first one. */
  lemma DrainedHead(s: State, t: nat)
    requires Inv(s) && LinksOk(s) && t < |s.threads| && s.threads[t].pc.PopNext?
    requires s.threads[t].pc.p in s.heap && s.heap[s.threads[t].pc.p].next == NULL
    ensures s.threads[t].pc.p == s.head && |s.claimedAt| == (s.first + 1) * BUFFER_SIZE
    ensures s.heap[s.threads[t].pc.p].role == Chain && s.heap[s.threads[t].pc.p].serial == s.first
  {
    hide RetiredOk, ScanOk, LinkersDiffer, OwnersDiffer, LogOk, LogOrdered, LocalOk, SlotOk;
    var p := s.threads[t].pc.p;
    HeldIsPublic(s, t);
    assert PcOk(s, t) && NodeOk(s, p);
    assert s.heap[p].role == Chain;
  }

  lemma NothingUnclaimed(s: State)
    requires Inv(s) && s.head == s.tail && s.first + 1 == |s.order| && |s.claimedAt| == (s.first + 1) * BUFFER_SIZE
    ensures !HasUnclaimed(s)
  {
    hide MemInv, OwnersDiffer, LogOrdered, NodeOk, PcOk;
    forall x | x in s.log ensures Pos(x) < |s.claimedAt| {
      assert Pos(x) < s.pushClaims;
    }
  }

  lemma FirstOfNext(s: State)
    requires LinksOk(s) && s.first + 1 < |s.order| && |s.claimedAt| == (s.first + 1) * BUFFER_SIZE
    ensures HasUnclaimed(s)
  {
    assert Pos(Slot(s.first + 1, 0)) >= |s.claimedAt|;
  }

  lemma NobodyLinks(s: State, p: Addr, u: nat, node: Addr)
    requires MemInv(s) && u < |s.threads| && s.threads[u].pc == PushLink(p, node)
    ensures p in s.heap && s.heap[p].serial + 1 < |s.order|
  {
    hide RetiredOk, ScanOk, LinkersDiffer;
    assert LocalOk(s, u);
  }

  lemma WhenNull(s: State, t: nat)
    requires Inv(s) && LinksOk(s) && t < |s.threads| && s.threads[t].pc.PopNext?
    requires s.threads[t].pc.p in s.heap && s.heap[s.threads[t].pc.p].next == NULL
    ensures HasUnclaimed(s) <==>
              exists u, node :: 0 <= u < |s.threads| && s.threads[u].pc == PushLink(s.threads[t].pc.p, node)
  {
    hide SlotInv, HasUnclaimed, LocalOk, RetiredOk, ScanOk, LinkersDiffer;
    var p := s.threads[t].pc.p;
    DrainedHead(s, t);
    if s.first + 1 < |s.order| {
      FirstOfNext(s);
      assert s.order[s.first] == p && s.order[s.first + 1] in s.heap;
      assert Linking(s, s.first);
    } else {
      NothingUnclaimed(s);
      forall u, node | 0 <= u < |s.threads| && s.threads[u].pc == PushLink(p, node) ensures false {
        NobodyLinks(s, p, u, node);
      }
    }
  }

  /** When a pop loads a null `next`, after which it reports EMPTY, a stored value is left that no pop has been given
      exactly if some push is between the two stores with which it adds a segment behind this one. */
  lemma EmptyUnlessLinking(n: nat, a: Addr, schedule: seq<(nat, Choice)>, t: nat)
    requires a != NULL && t < n && Schedule(n, schedule) && PushesValues(schedule)
    requires |Run(n, a, schedule).threads| == n && Run(n, a, schedule).threads[t].pc.PopNext?
    requires var s := Run(n, a, schedule); var p := s.threads[t].pc.p; p in s.heap && s.heap[p].next == NULL
    ensures var s := Run(n, a, schedule);
            HasUnclaimed(s) <==>
              exists u, node :: 0 <= u < n && s.threads[u].pc == PushLink(s.threads[t].pc.p, node)
  {
    hide Run, Inv, LinksOk, HasUnclaimed;
    RunInv(n, a, schedule);
    LinksInv(n, a, schedule);
    WhenNull(Run(n, a, schedule), t);
  }

  /** In every reachable state a segment without a successor is the last one, unless its successor is being linked. */
  lemma SegmentsAreLinked(n: nat, a: Addr, schedule: seq<(nat, Choice)>, k: nat)
    requires a != NULL && Schedule(n, schedule)
    requires var s := Run(n, a, schedule); s.first <= k && k + 1 < |s.order|
    ensures var s := Run(n, a, schedule);
            s.order[k] in s.heap && (s.heap[s.order[k]].next == s.order[k + 1] || Linking(s, k))
  {
    hide Run, Linking;
    LinksInv(n, a, schedule);
  }

  // ---------------------------------------------------------------------------------------------
  // A run in which EMPTY is false
  // ---------------------------------------------------------------------------------------------

  predicate Popping(pc: PC) { OpOf(pc).Pop? && pc != Idle && !pc.PushLink? && !Returning(pc) }

  /** The segment `a` is the first one, all its slots have been tried by pops, and nothing has been stored there. */
  ghost predicate Drained(s: State, a: Addr) {
    && s.first == 0 && |s.order| > 0 && s.order[0] == a && a in s.heap && s.heap[a].popIdx >= BUFFER_SIZE
    && (forall i :: 0 <= i < |s.heap[a].buffer| ==> s.heap[a].buffer[i] == TAKEN_VALUE)
    && forall x :: x in s.log ==> x.serial >= 1
  }

  /** Nothing has been stored yet. */
  predicate Untouched(s: State, a: Addr) {
    s.first == 0 && s.order == [a] && s.log == map[] && a in s.heap && s.heap[a].pushIdx == 0
  }

  lemma PopsUntouched(s: State, t: nat, c: Choice, a: Addr)
    requires Inv(s) && Defined(s, t) && Popping(s.threads[t].pc) && !s.threads[t].pc.PopNext? && Untouched(s, a)
    ensures var s' := Step(s, t, c);
            |s'.threads| == |s.threads| && Untouched(s', a) && (Popping(s'.threads[t].pc) || s'.threads[t].pc.PopNext?)
  {
    hide Inv;
    var pc := s.threads[t].pc;
    if pc.PopExchange? {
      ExchangeEffect(s, t, c);
    } else if pc.PopSwing? {
      OneSegment(s, t);
    } else if pc.Scan? {
      ScanSpares(s, t, a);
    }
    hide DoPushFetch, DoPushCas, DoPushNew, DoPushSwing, DoPushLink;
  }

  lemma ScanSpares(s: State, t: nat, a: Addr)
    requires Inv(s) && Untouched(s, a) && t < |s.threads|
    ensures a !in s.threads[t].retired
  {
    hide HoldOk, LocalOk, ScanOk, LinkersDiffer, SlotInv;
    assert RetiredOk(s, t);
  }

  lemma OneSegment(s: State, t: nat)
    requires Inv(s) && t < |s.threads| && s.threads[t].pc.PopSwing? && |s.order| == 1
    ensures s.threads[t].pc.p != s.head
  {
    hide SlotInv, RetiredOk, ScanOk, LinkersDiffer;
    assert LocalOk(s, t);
  }

  /** Thread `t` has made all the steps since, and no other thread has moved. */
  predicate OnlyMoved(s: State, s': State, t: nat) {
    && |s'.threads| == |s.threads| && s.now <= s'.now
    && forall u :: 0 <= u < |s.threads| && u != t ==> s'.threads[u] == s.threads[u]
  }

  lemma StepMoves(s: State, t: nat, c: Choice)
    requires Defined(s, t)
    ensures OnlyMoved(s, Step(s, t, c), t) && Step(s, t, c).now == s.now + 1
  {
    hide Step;
    var pc := s.threads[t].pc;
    var h := Record(Pop, 0, []);
    if InPush(pc) {
      PushRecord(s, t, c, h);
    } else if pc.Retire? || pc.Scan? {
      RetireRecord(s, t, c, h);
    } else if InPop(pc) {
      PopRecord(s, t, c, h);
    } else {
      OtherRecord(s, t, c, h);
    }
  }

  /** A pop that finds nothing stored gets to the end of the only segment. */
  lemma {:induction false} PopUntilNext(n: nat, a: Addr, schedule: seq<(nat, Choice)>, t: nat)
    returns (longer: seq<(nat, Choice)>)
    requires a != NULL && t < n && Schedule(n, schedule) && PushesValues(schedule)
    requires |Run(n, a, schedule).threads| == n && Untouched(Run(n, a, schedule), a)
    requires Popping(Run(n, a, schedule).threads[t].pc)
    ensures schedule <= longer && Schedule(n, longer) && PushesValues(longer)
    ensures OnlyMoved(Run(n, a, schedule), Run(n, a, longer), t) && Untouched(Run(n, a, longer), a)
    ensures Run(n, a, longer).threads[t].pc.PopNext?
    decreases if Current(Run(n, a, schedule), t) then 0 else 1, SegmentsLeft(Run(n, a, schedule), t),
              SlotsLeft(Run(n, a, schedule), t),
              Rank(Run(n, a, schedule).threads[t].pc, Current(Run(n, a, schedule), t)),
              NodesLeft(Run(n, a, schedule), t), PointersLeft(Run(n, a, schedule), t)
  {
    hide Run, Current, SegmentsLeft, SlotsLeft, Rank, NodesLeft, PointersLeft, Step, Inv, Defined, Untouched;
    var s := Run(n, a, schedule);
    RunInv(n, a, schedule);
    SegmentsCountedIn(s, t);
    if s.threads[t].pc.PopNext? {
      longer := schedule;
    } else {
      var c := Granted(s);
      var now := schedule + [(t, c)];
      OneMoreStep(n, a, schedule, t, c);
      RunInv(n, a, now);
      SegmentsCountedIn(Run(n, a, now), t);
      NearerIn(s, t, c);
      PopsUntouched(s, t, c, a);
      StepMoves(s, t, c);
      longer := PopUntilNext(n, a, now, t);
    }
  }

  lemma SegmentsCountedIn(s: State, t: nat)
    requires Inv(s) && t < |s.threads|
    ensures SegmentsLeft(s, t) >= 0
  {
    hide MemInv, SlotInv, SegmentsLeft;
    SegmentsCounted(s, t);
  }

  lemma NearerIn(s: State, t: nat, c: Choice)
    requires Inv(s) && Defined(s, t) && c.ok && c.addr != NULL && c.addr !in s.heap
    requires s.threads[t].pc != Idle && !Returning(s.threads[t].pc)
    ensures var s' := Step(s, t, c); |s'.threads| == |s.threads| && s'.threads[t].pc != Idle && Nearer(s, s', t)
  {
    hide MemInv, SlotInv, Step, Nearer;
    StepNearer(s, t, c);
  }

  /** When all slots have been handed to pops and no pop is about to take a value, every slot is used up. */
  lemma AllTaken(s: State, a: Addr)
    requires Inv(s) && Untouched(s, a) && forall u :: 0 <= u < |s.threads| ==> !s.threads[u].pc.PopExchange?
    requires exists t :: 0 <= t < |s.threads| && s.threads[t].pc.PopNext?
    ensures Drained(s, a) && exists t :: 0 <= t < |s.threads| && s.threads[t].pc == PopNext(a)
  {
    hide RetiredOk, ScanOk, LinkersDiffer, OwnersDiffer, LogOk, LogOrdered, ClaimsOk;
    var t :| 0 <= t < |s.threads| && s.threads[t].pc.PopNext?;
    MemInvDefined(s, t);
    assert LocalOk(s, t);
    HeldIsPublic(s, t);
    var p := s.threads[t].pc.p;
    assert PcOk(s, t) && NodeOk(s, p) && p == a;
    forall i | 0 <= i < |s.heap[a].buffer| ensures s.heap[a].buffer[i] == TAKEN_VALUE {
      assert SlotOk(s, a, i);
    }
  }

  predicate PushPc(pc: PC) { OpOf(pc).Push? }

  ghost predicate StillDrained(s: State, s': State, t: nat, a: Addr)
    requires t < |s.threads|
  {
    && |s'.threads| == |s.threads| && Drained(s', a)
    && (PushPc(s'.threads[t].pc) || s'.threads[t].pc.PushLink? || Returning(s'.threads[t].pc))
    && (if s'.threads[t].pc.PushLink? then |s'.order| == |s.order| + 1
        else |s'.order| == |s.order| && (|s.order| == 1 ==> PushPc(s'.threads[t].pc)))
  }

  /** A push cannot store anything in a drained segment. */
  lemma CasDrained(s: State, t: nat, c: Choice, a: Addr)
    requires Inv(s) && Defined(s, t) && s.threads[t].pc.PushCas? && Drained(s, a)
    ensures StillDrained(s, Step(s, t, c), t, a)
  {
    hide HoldOk, RetiredOk, ScanOk, LinkersDiffer, OwnersDiffer, LogOk, LogOrdered, ClaimsOk, PcOk, SlotOk;
    hide DoPopFetch, DoPopExchange, DoPopNext, DoPopSwing, DoRetire, DoScan, DoClear, DoValidate, DoIdle;
    assert LocalOk(s, t);
    HeldIsPublic(s, t);
    assert NodeOk(s, s.threads[t].pc.p);
  }

  lemma WorkDrained(s: State, t: nat, c: Choice, a: Addr)
    requires Inv(s) && Defined(s, t) && PushPc(s.threads[t].pc) && InPush(s.threads[t].pc) && Drained(s, a)
    requires !s.threads[t].pc.PushCas?
    ensures StillDrained(s, Step(s, t, c), t, a)
  {
    hide MemInv, SlotInv;
    hide DoPopFetch, DoPopExchange, DoPopNext, DoPopSwing, DoRetire, DoScan, DoPushCas, DoClear, DoValidate, DoIdle;
    PrivateIsNew(s, t, a);
  }

  lemma StartDrained(s: State, t: nat, c: Choice, a: Addr)
    requires Defined(s, t) && PushPc(s.threads[t].pc) && !InPush(s.threads[t].pc) && Drained(s, a)
    ensures StillDrained(s, Step(s, t, c), t, a)
  {
    hide DoPopFetch, DoPopExchange, DoPopNext, DoPopSwing, DoRetire, DoScan, DoPushFetch, DoPushCas, DoPushNew,
         DoPushSwing, DoPushLink;
  }

  lemma PrivateIsNew(s: State, t: nat, a: Addr)
    requires Inv(s) && Defined(s, t) && Drained(s, a)
    ensures s.threads[t].pc.PushSwing? || s.threads[t].pc.PushFree? ==> s.threads[t].pc.node != a
    ensures s.head == a
  {
    hide RetiredOk, ScanOk, LinkersDiffer, SlotInv;
    assert LocalOk(s, t);
  }

  /** No thread has started another call since. */
  ghost predicate SameCalls(n: nat, a: Addr, schedule: seq<(nat, Choice)>, longer: seq<(nat, Choice)>) {
    forall u :: 0 <= u < n ==>
      && History(n, a, longer, u).call == History(n, a, schedule, u).call
      && History(n, a, longer, u).began == History(n, a, schedule, u).began
  }

  lemma SameCallsStep(n: nat, a: Addr, schedule: seq<(nat, Choice)>, t: nat, c: Choice)
    requires a != NULL && t < n && Schedule(n, schedule) && |Run(n, a, schedule).threads| == n
    requires Run(n, a, schedule).threads[t].pc != Idle
    ensures SameCalls(n, a, schedule, schedule + [(t, c)])
  {
    hide Run, Defined, EffectOf;
    assert (schedule + [(t, c)])[..|schedule|] == schedule;
  }

  /** A push, running alone, does not touch the drained segment; the first one adds a new segment. */
  lemma {:induction false} PushAlone(n: nat, a: Addr, schedule: seq<(nat, Choice)>, t: nat)
    returns (longer: seq<(nat, Choice)>)
    requires a != NULL && t < n && Schedule(n, schedule) && PushesValues(schedule)
    requires |Run(n, a, schedule).threads| == n && Drained(Run(n, a, schedule), a)
    requires PushPc(Run(n, a, schedule).threads[t].pc)
    ensures schedule <= longer && Schedule(n, longer) && PushesValues(longer)
    ensures OnlyMoved(Run(n, a, schedule), Run(n, a, longer), t) && Drained(Run(n, a, longer), a)
    ensures Run(n, a, longer).threads[t].pc.PushLink? || Returning(Run(n, a, longer).threads[t].pc)
    ensures |Run(n, a, schedule).order| == 1 ==>
              Run(n, a, longer).threads[t].pc.PushLink? && |Run(n, a, longer).order| == 2
    ensures SameCalls(n, a, schedule, longer)
    decreases if Current(Run(n, a, schedule), t) then 0 else 1, SegmentsLeft(Run(n, a, schedule), t),
              SlotsLeft(Run(n, a, schedule), t),
              Rank(Run(n, a, schedule).threads[t].pc, Current(Run(n, a, schedule), t)),
              NodesLeft(Run(n, a, schedule), t), PointersLeft(Run(n, a, schedule), t)
  {
    hide Run, Current, SegmentsLeft, SlotsLeft, Rank, NodesLeft, PointersLeft, Step, Inv, Defined, Drained;
    var s := Run(n, a, schedule);
    RunInv(n, a, schedule);
    SegmentsCountedIn(s, t);
    var c := Granted(s);
    var now := schedule + [(t, c)];
    OneMoreStep(n, a, schedule, t, c);
    RunInv(n, a, now);
    var s' := Run(n, a, now);
    SegmentsCountedIn(s', t);
    NearerIn(s, t, c);
    if s.threads[t].pc.PushCas? {
      CasDrained(s, t, c, a);
    } else if InPush(s.threads[t].pc) {
      WorkDrained(s, t, c, a);
    } else {
      StartDrained(s, t, c, a);
    }
    StepMoves(s, t, c);
    SameCallsStep(n, a, schedule, t, c);
    if s'.threads[t].pc.PushLink? || Returning(s'.threads[t].pc) {
      longer := now;
    } else {
      longer := PushAlone(n, a, now, t);
    }
  }

  /** Starting a call. */
  lemma Starts(n: nat, a: Addr, schedule: seq<(nat, Choice)>, t: nat, c: Choice)
    requires a != NULL && t < n && Schedule(n, schedule) && |Run(n, a, schedule).threads| == n
    requires Run(n, a, schedule).threads[t].pc == Idle
    ensures Schedule(n, schedule + [(t, c)])
    ensures var s, s' := Run(n, a, schedule), Run(n, a, schedule + [(t, c)]);
            && OnlyMoved(s, s', t) && s'.threads[t].pc == Load(c.op) && s'.heap == s.heap && s'.head == s.head
            && s'.order == s.order && s'.first == s.first && s'.log == s.log && s'.claimedAt == s.claimedAt
    ensures History(n, a, schedule + [(t, c)], t) == Record(c.op, |schedule|, [])
    ensures forall u :: 0 <= u < n && u != t ==> History(n, a, schedule + [(t, c)], u) == History(n, a, schedule, u)
  {
    hide Run, EffectOf;
    RecordsAreRight(n, a, schedule, t);
    OneMoreStep(n, a, schedule, t, c);
    assert (schedule + [(t, c)])[..|schedule|] == schedule;
  }

  /** The pop returns EMPTY, truly, and its thread is idle again. */
  lemma Leaves(n: nat, a: Addr, schedule: seq<(nat, Choice)>, t: nat, c: Choice)
    returns (longer: seq<(nat, Choice)>)
    requires a != NULL && t < n && Schedule(n, schedule) && PushesValues(schedule) && !c.op.Push?
    requires |Run(n, a, schedule).threads| == n && Drained(Run(n, a, schedule), a)
    requires Run(n, a, schedule).threads[t].pc == PopNext(a) && Run(n, a, schedule).heap[a].next == NULL
    ensures schedule <= longer && Schedule(n, longer) && PushesValues(longer)
    ensures OnlyMoved(Run(n, a, schedule), Run(n, a, longer), t) && Drained(Run(n, a, longer), a)
    ensures var s, s' := Run(n, a, schedule), Run(n, a, longer);
            s'.threads[t].pc == Idle && s'.order == s.order && s'.heap == s.heap && s'.log == s.log && s'.head == s.head
  {
    hide Run, Inv;
    longer := schedule + [(t, c)];
    OneMoreStep(n, a, schedule, t, c);
    OneMoreStep(n, a, longer, t, c);
    longer := longer + [(t, c)];
  }

  /** A pop that finds all slots of the first segment used up gets to its end without taking anything. */
  lemma PopAgain(n: nat, a: Addr, schedule: seq<(nat, Choice)>, t: nat, c: Choice)
    returns (longer: seq<(nat, Choice)>)
    requires a != NULL && t < n && Schedule(n, schedule) && PushesValues(schedule) && c.op == Pop
    requires |Run(n, a, schedule).threads| == n && Drained(Run(n, a, schedule), a)
    requires Run(n, a, schedule).threads[t].pc == Idle && Run(n, a, schedule).head == a
    ensures schedule <= longer && Schedule(n, longer) && PushesValues(longer)
    ensures OnlyMoved(Run(n, a, schedule), Run(n, a, longer), t) && Drained(Run(n, a, longer), a)
    ensures Run(n, a, longer).threads[t].pc == PopNext(a)
    ensures History(n, a, longer, t).call == Pop && History(n, a, longer, t).began == |schedule|
  {
    hide Run, Inv, History, Defined, Drained;
    Starts(n, a, schedule, t, c);
    longer := schedule + [(t, c)];
    var k := 0;
    DrainedStart(Run(n, a, schedule), Run(n, a, longer), a);
    while k < 4
      invariant 0 <= k <= 4 && schedule <= longer && Schedule(n, longer) && PushesValues(longer)
      invariant OnlyMoved(Run(n, a, schedule), Run(n, a, longer), t) && Drained(Run(n, a, longer), a)
      invariant Run(n, a, longer).head == a
      invariant Run(n, a, longer).threads[t].pc
                == [Load(Pop), Publish(Pop, a), Validate(Pop, a), PopFetch(a), PopNext(a)][k]
      invariant History(n, a, longer, t).call == Pop && History(n, a, longer, t).began == |schedule|
    {
      OneMoreStep(n, a, longer, t, c);
      SameCallsStep(n, a, longer, t, c);
      StepMoves(Run(n, a, longer), t, c);
      PopsDrained(Run(n, a, longer), t, c, a);
      longer := longer + [(t, c)];
      k := k + 1;
    }
  }

  lemma DrainedStart(s: State, s': State, a: Addr)
    requires Drained(s, a) && s'.heap == s.heap && s'.order == s.order && s'.first == s.first && s'.log == s.log
    ensures Drained(s', a)
  {
  }

  lemma PopsDrained(s: State, t: nat, c: Choice, a: Addr)
    requires Defined(s, t) && Drained(s, a) && s.head == a
    requires s.threads[t].pc in {Load(Pop), Publish(Pop, a), Validate(Pop, a), PopFetch(a)}
    ensures var s' := Step(s, t, c);
            && |s'.threads| == |s.threads| && Drained(s', a) && s'.head == a
            && s'.threads[t].pc == (match s.threads[t].pc
                                    case Load(_) => Publish(Pop, a)
                                    case Publish(_, _) => Validate(Pop, a)
                                    case Validate(_, _) => PopFetch(a)
                                    case _ => PopNext(a))
  {
    hide DoPushFetch, DoPushCas, DoPushNew, DoPushSwing, DoPushLink, DoPopExchange, DoPopNext, DoPopSwing, DoRetire,
         DoScan, DoClear, DoIdle;
  }

  lemma LinkOfFirst(s: State, u: nat, a: Addr)
    requires Inv(s) && Drained(s, a) && u < |s.threads| && s.threads[u].pc.PushLink? && |s.order| == 2
    ensures s.threads[u].pc.p == a
  {
    hide RetiredOk, ScanOk, LinkersDiffer, SlotInv;
    assert LocalOk(s, u);
  }

  lemma StillNull(s: State, u: nat, a: Addr)
    requires Inv(s) && u < |s.threads| && s.threads[u].pc.PushLink? && s.threads[u].pc.p == a && Drained(s, a)
    ensures a in s.heap && s.heap[a].next == NULL && s.head == a
  {
    hide RetiredOk, ScanOk, LinkersDiffer, SlotInv;
    assert LocalOk(s, u);
  }

  /** A push that has added its segment returns after linking it. */
  lemma LinksAndReturns(n: nat, a: Addr, schedule: seq<(nat, Choice)>, t: nat, c: Choice)
    returns (longer: seq<(nat, Choice)>)
    requires a != NULL && t < n && Schedule(n, schedule) && PushesValues(schedule) && !c.op.Push?
    requires |Run(n, a, schedule).threads| == n && Drained(Run(n, a, schedule), a)
    requires var pc := Run(n, a, schedule).threads[t].pc; pc.PushLink? || Returning(pc)
    ensures schedule <= longer && Schedule(n, longer) && PushesValues(longer)
    ensures OnlyMoved(Run(n, a, schedule), Run(n, a, longer), t) && Drained(Run(n, a, longer), a)
    ensures Returning(Run(n, a, longer).threads[t].pc) && SameCalls(n, a, schedule, longer)
  {
    hide Run, Inv, History;
    if Returning(Run(n, a, schedule).threads[t].pc) {
      longer := schedule;
    } else {
      OneMoreStep(n, a, schedule, t, c);
      SameCallsStep(n, a, schedule, t, c);
      longer := schedule + [(t, c)];
    }
  }

  lemma SoleSegment(s: State, a: Addr)
    requires Inv(s) && Untouched(s, a)
    ensures s.head == a && a in s.heap && s.heap[a].next == NULL
  {
    hide HoldOk, LocalOk, RetiredOk, ScanOk, LinkersDiffer, SlotInv;
  }

  lemma AtStart(n: nat, a: Addr)
    ensures var s := Run(n, a, []);
            Untouched(s, a) && |s.threads| == n && forall u :: 0 <= u < n ==> s.threads[u].pc == Idle
  {
  }

  lemma AllLater(s: State, t: nat, a: Addr)
    requires Inv(s) && LinksOk(s) && Drained(s, a) && t < |s.threads| && s.threads[t].pc == PopNext(a)
             && s.heap[a].next == NULL
    ensures forall x :: x in s.log ==> Pos(x) >= |s.claimedAt|
  {
    hide Inv, LinksOk;
    DrainedHead(s, t);
  }

  /** The first part of the run: thread 0 finds the queue empty and returns, and thread 1 stops in the middle of a
      push, between the two stores with which it adds a segment. */
  lemma HalfLinked(a: Addr, c: Choice) returns (schedule: seq<(nat, Choice)>)
    requires a != NULL && c.op == Pop
    ensures Schedule(3, schedule) && PushesValues(schedule) && |Run(3, a, schedule).threads| == 3
    ensures var s := Run(3, a, schedule);
            && Drained(s, a) && s.threads[0].pc == Idle && s.threads[1].pc.PushLink? && s.threads[1].pc.p == a
            && s.threads[2].pc == Idle
  {
    hide Run, Inv, Drained, Untouched, History, SameCalls;
    schedule := [];
    AtStart(3, a);
    Starts(3, a, schedule, 0, c);
    StillUntouched(Run(3, a, schedule), Run(3, a, schedule + [(0, c)]), a);
    schedule := PopUntilNext(3, a, schedule + [(0, c)], 0);
    RunInv(3, a, schedule);
    AllTaken(Run(3, a, schedule), a);
    SoleSegment(Run(3, a, schedule), a);
    var before := Run(3, a, schedule).order;
    assert |before| == 1 by { OneOf(Run(3, a, schedule), a); }
    schedule := Leaves(3, a, schedule, 0, c);
    var d := Choice(Push(5), true, 0);
    Starts(3, a, schedule, 1, d);
    DrainedStart(Run(3, a, schedule), Run(3, a, schedule + [(1, d)]), a);
    schedule := PushAlone(3, a, schedule + [(1, d)], 1);
    RunInv(3, a, schedule);
    LinkOfFirst(Run(3, a, schedule), 1, a);
  }

  lemma OneOf(s: State, a: Addr)
    requires Untouched(s, a)
    ensures |s.order| == 1
  {
  }

  lemma StillUntouched(s: State, s': State, a: Addr)
    requires Untouched(s, a) && s'.order == s.order && s'.first == s.first && s'.log == s.log && s'.heap == s.heap
    ensures Untouched(s', a)
  {
  }

  /** EMPTY can be false from the beginning to the end of the pop that returns it: by the moment `k` a push has
      returned, the pop of thread 0 starts after that, and it loads a null `next`, although values are stored and no
      pop has been given any of them. */
  lemma FalseEmpty(a: Addr) returns (schedule: seq<(nat, Choice)>, k: nat)
    requires a != NULL
    ensures Schedule(3, schedule) && PushesValues(schedule) && k <= |schedule|
    ensures |Run(3, a, schedule[..k]).threads| == 3 && Returning(Run(3, a, schedule[..k]).threads[2].pc)
    ensures History(3, a, schedule[..k], 2).call == Push(6)
    ensures History(3, a, schedule, 0).call == Pop && History(3, a, schedule, 0).began >= k
    ensures var s := Run(3, a, schedule);
            && |s.threads| == 3 && s.threads[0].pc == PopNext(a) && a in s.heap && s.heap[a].next == NULL
            && HasUnclaimed(s) && forall x :: x in s.log ==> Pos(x) >= |s.claimedAt|
  {
    hide Run, Inv, Drained, LinksOk, HasUnclaimed, History, Schedule, PushesValues;
    var c := Choice(Pop, true, 0);
    schedule := HalfLinked(a, c);
    var d := Choice(Push(6), true, 0);
    Starts(3, a, schedule, 2, d);
    DrainedStart(Run(3, a, schedule), Run(3, a, schedule + [(2, d)]), a);
    assert PushesValues(schedule + [(2, d)]) by { MoreValues(schedule, (2, d)); }
    var start := schedule + [(2, d)];
    schedule := PushAlone(3, a, start, 2);
    var linked := LinksAndReturns(3, a, schedule, 2, c);
    k := |linked|;
    RunInv(3, a, linked);
    StillNull(Run(3, a, linked), 1, a);
    schedule := PopAgain(3, a, linked, 0, c);
    assert schedule[..k] == linked;
    RunInv(3, a, schedule);
    LinksInv(3, a, schedule);
    StillNull(Run(3, a, schedule), 1, a);
    EmptyUnlessLinking(3, a, schedule, 0);
    assert Run(3, a, schedule).threads[1].pc == PushLink(a, Run(3, a, schedule).threads[1].pc.node);
    AllLater(Run(3, a, schedule), 0, a);
  }

  lemma MoreValues(schedule: seq<(nat, Choice)>, step: (nat, Choice))
    requires PushesValues(schedule) && (step.1.op.Push? ==> IsValue(step.1.op.item))
    ensures PushesValues(schedule + [step])
  {
  }

  // ---------------------------------------------------------------------------------------------
  // The test for emptiness
  // ---------------------------------------------------------------------------------------------

  /** The result of a test that runs alone. */
  lemma TestAlone(n: nat, a: Addr, schedule: seq<(nat, Choice)>, t: nat, c: Choice)
    returns (longer: seq<(nat, Choice)>)
    requires a != NULL && t < n && Schedule(n, schedule) && c.op == IsEmpty
    requires |Run(n, a, schedule).threads| == n && Run(n, a, schedule).threads[t].pc == Idle
    requires var s := Run(n, a, schedule); s.head in s.heap
    ensures schedule <= longer && Schedule(n, longer) && |Run(n, a, longer).threads| == n
    ensures History(n, a, longer, t).call == IsEmpty && History(n, a, longer, t).began == |schedule|
    ensures var node := Run(n, a, schedule).heap[Run(n, a, schedule).head];
            Run(n, a, longer).threads[t].pc
            == Clear(Return(if node.pushIdx == node.popIdx && node.next == NULL then 1 else 0))
  {
    hide Run, History, Defined;
    var head := Run(n, a, schedule).head;
    var node := Run(n, a, schedule).heap[head];
    var same := node.pushIdx == node.popIdx;
    Starts(n, a, schedule, t, c);
    longer := schedule + [(t, c)];
    var k := 0;
    while k < 6
      invariant 0 <= k <= 6 && schedule <= longer && Schedule(n, longer) && |Run(n, a, longer).threads| == n
      invariant Run(n, a, longer).head == head && head in Run(n, a, longer).heap && Run(n, a, longer).heap[head] == node
      invariant Run(n, a, longer).threads[t].pc
                == [Load(IsEmpty), Publish(IsEmpty, head), Validate(IsEmpty, head), ReadPush(head),
                    ReadPop(head, node.pushIdx), ReadNext(head, same),
                    Clear(Return(if same && node.next == NULL then 1 else 0))][k]
      invariant History(n, a, longer, t).call == IsEmpty && History(n, a, longer, t).began == |schedule|
    {
      OneMoreStep(n, a, longer, t, c);
      SameCallsStep(n, a, longer, t, c);
      TestStep(Run(n, a, longer), t, c, head);
      longer := longer + [(t, c)];
      k := k + 1;
    }
  }

  lemma TestStep(s: State, t: nat, c: Choice, head: Addr)
    requires Defined(s, t) && s.head == head && head in s.heap
    requires var pc := s.threads[t].pc;
             || pc == Load(IsEmpty) || pc == Publish(IsEmpty, head) || pc == Validate(IsEmpty, head)
             || pc == ReadPush(head) || (pc.ReadPop? && pc.p == head) || (pc.ReadNext? && pc.p == head)
    ensures var s' := Step(s, t, c); |s'.threads| == |s.threads| && s'.head == head && s'.heap == s.heap
    ensures Step(s, t, c).threads[t].pc == match s.threads[t].pc
              case Load(_) => Publish(IsEmpty, head)
              case Publish(_, _) => Validate(IsEmpty, head)
              case Validate(_, _) => ReadPush(head)
              case ReadPush(_) => ReadPop(head, s.heap[head].pushIdx)
              case ReadPop(_, pushIdx) => ReadNext(head, pushIdx == s.heap[head].popIdx)
              case ReadNext(_, same) => Clear(Return(if same && s.heap[head].next == NULL then 1 else 0))
              case pc => pc
  {
    hide DoPushFetch, DoPushCas, DoPushNew, DoPushSwing, DoPushLink, DoPopFetch, DoPopExchange, DoPopNext, DoPopSwing,
         DoRetire, DoScan, DoClear, DoIdle;
  }

  /** Between calls, equal counters and no successor mean that all stored values have been taken. */
  lemma EqualCountersMeanEmpty(s: State)
    requires Inv(s) && LinksOk(s) && forall u :: 0 <= u < |s.threads| ==> s.threads[u].pc == Idle
    requires s.head in s.heap && s.heap[s.head].pushIdx == s.heap[s.head].popIdx && s.heap[s.head].next == NULL
    ensures forall x :: x in s.log ==> x in s.gone
  {
    hide HoldOk, LocalOk, RetiredOk, ScanOk, LinkersDiffer, OwnersDiffer, PcOk, NodeOk, LogOrdered;
    assert s.first + 1 == |s.order| by {
      assert s.first + 1 < |s.order| ==> s.order[s.first + 1] in s.heap && Linking(s, s.first);
    }
    forall x | x in s.log ensures x in s.gone {
      if x !in s.gone {
        ValueInSlot(s, x);
      }
    }
  }

  /** The test, running alone between calls, never calls a queue empty that still holds a value. */
  lemma EmptyAnswerIsTrue(n: nat, a: Addr, schedule: seq<(nat, Choice)>, t: nat, c: Choice)
    returns (longer: seq<(nat, Choice)>)
    requires a != NULL && t < n && Schedule(n, schedule) && PushesValues(schedule) && c.op == IsEmpty
    requires |Run(n, a, schedule).threads| == n
    requires forall u :: 0 <= u < n ==> Run(n, a, schedule).threads[u].pc == Idle
    ensures schedule <= longer && |Run(n, a, longer).threads| == n && Returning(Run(n, a, longer).threads[t].pc)
    ensures Run(n, a, longer).threads[t].pc.after.result == 1 ==>
              forall x :: x in Run(n, a, schedule).log ==> x in Run(n, a, schedule).gone
  {
    hide Run, History, LinksOk, MemInv;
    RunInv(n, a, schedule);
    LinksInv(n, a, schedule);
    var s := Run(n, a, schedule);
    longer := TestAlone(n, a, schedule, t, c);
    if s.heap[s.head].pushIdx == s.heap[s.head].popIdx && s.heap[s.head].next == NULL {
      EqualCountersMeanEmpty(s);
    }
  }

  /** But it may call an empty queue non-empty: a pop that has found the queue empty has moved the counter of pops past
      the counter of pushes. */
  lemma EmptyQueueDenied(a: Addr) returns (schedule: seq<(nat, Choice)>, k: nat)
    requires a != NULL
    ensures Schedule(2, schedule) && k <= |schedule| && |Run(2, a, schedule).threads| == 2
    ensures var s := Run(2, a, schedule[..k]);
            s.log == map[] && |s.threads| == 2 && forall u :: 0 <= u < 2 ==> s.threads[u].pc == Idle
    ensures History(2, a, schedule, 1).call == IsEmpty && History(2, a, schedule, 1).began == k
    ensures Run(2, a, schedule).threads[1].pc == Clear(Return(0))
  {
    hide Run, Inv, Drained, Untouched, History;
    var c := Choice(Pop, true, 0);
    AtStart(2, a);
    Starts(2, a, [], 0, c);
    StillUntouched(Run(2, a, []), Run(2, a, [] + [(0, c)]), a);
    schedule := PopUntilNext(2, a, [] + [(0, c)], 0);
    RunInv(2, a, schedule);
    AllTaken(Run(2, a, schedule), a);
    SoleSegment(Run(2, a, schedule), a);
    PopsAhead(Run(2, a, schedule), a);
    var returned := Leaves(2, a, schedule, 0, c);
    k := |returned|;
    schedule := TestAlone(2, a, returned, 1, Choice(IsEmpty, true, 0));
    assert schedule[..k] == returned;
  }

  lemma PopsAhead(s: State, a: Addr)
    requires Untouched(s, a) && Drained(s, a)
    ensures a in s.heap && s.heap[a].pushIdx < s.heap[a].popIdx && s.log == map[]
  {
  }
}
