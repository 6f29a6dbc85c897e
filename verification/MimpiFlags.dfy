/** When a receive of mimpi.c can take the flag of a barrier for the message it waits for, and when it cannot. */
module MimpiFlags {
  import opened MimpiCollectives
  import opened MimpiReduce
  import opened MimpiTree

  // ---------------------------------------------------------------------------------------------
  // The condition
  // ---------------------------------------------------------------------------------------------

  /** The moment at which `q` has received the data that `p` sends it in round `j`. */
  datatype Receipt = Receipt(j: nat, p: nat, q: nat)

  predicate IsReceipt(plan: seq<Round>, n: nat, e: Receipt)
    requires Plan(n, plan)
  {
    e.j < |plan| && e.p < n && e.q < n && !plan[e.j].Barrier? && Carries(plan[e.j], n, e.p, e.q)
  }

  function Wait(round: Round, n: nat, x: nat, pos: nat): nat
    requires Suits(round, n) && x < n
  {
    var r := Relative(x, Root(round), n);
    if pos > 4 then n + 1 + r else if r < n then n - r else 0
  }

  lemma WaitsLess(round: Round, n: nat, y: nat, x: nat, pos: nat)
    requires Suits(round, n) && x < n && y < n && Carries(round, n, y, x) && pos > RecvPos(round, n, y, x)
    ensures Wait(round, n, y, SendPos(round, n, y, x)) < Wait(round, n, x, pos)
  {
    hide Relative, Parent, Child;
    var root := Root(round);
    NotBoth(y, x, root, n);
    Rotation(x, root, n);
    Rotation(y, root, n);
    ParentIffChild(x, y, root, n);
    ParentIffChild(x, x, root, n);
    ParentIffChild(y, y, root, n);
    if Parent(x, root, n) == y { Higher(x, root, n); } else { Higher(y, root, n); }
  }

  /** A process that has got to position `pos` of round `i` must have heard, from `q` or over other processes, that
      `q` has received: some receive on its way there was from a process that had heard of it before it sent. */
  predicate Knows(plan: seq<Round>, n: nat, e: Receipt, x: nat, i: nat, pos: nat)
    requires Plan(n, plan) && IsReceipt(plan, n, e) && x < n && i < |plan|
    decreases i, Wait(plan[i], n, x, pos)
  {
    || (i > 0 && Knows(plan, n, e, x, i - 1, 7))
    || (i == e.j && x == e.q && pos > RecvPos(plan[i], n, e.p, e.q))
    || (exists y :: 0 <= y < n && Carries(plan[i], n, y, x) && pos > RecvPos(plan[i], n, y, x)
                    && (WaitsLess(plan[i], n, y, x, pos); Knows(plan, n, e, y, i, SendPos(plan[i], n, y, x))))
  }

  /** If round `k` is a barrier in which `p` signals to `q`, then it only does so when it knows that `q` has received
      its data of round `j`. */
  predicate InTime(plan: seq<Round>, n: nat, e: Receipt, k: nat)
    requires Plan(n, plan) && k < |plan|
  {
    IsReceipt(plan, n, e) && plan[k].Barrier? && Carries(plan[k], n, e.p, e.q) ==>
      Knows(plan, n, e, e.p, k, SendPos(plan[k], n, e.p, e.q))
  }

  /** No barrier signal can overtake data. */
  predicate Safe(plan: seq<Round>, n: nat)
    requires Plan(n, plan)
  {
    forall j, k, p, q :: 0 <= j < k < |plan| && 0 <= p < n && 0 <= q < n ==> InTime(plan, n, Receipt(j, p, q), k)
  }

  // ---------------------------------------------------------------------------------------------
  // The condition is sufficient
  // ---------------------------------------------------------------------------------------------

  ghost function Due(plan: seq<Round>, n: nat, e: Receipt): nat
    requires Plan(n, plan) && IsReceipt(plan, n, e)
  {
    7 * e.j + RecvPos(plan[e.j], n, e.p, e.q)
  }

  /** What a process must know is so. */
  lemma {:induction false} KnowledgeIsTrue(plan: seq<Round>, s: State, e: Receipt, x: nat, i: nat, pos: nat)
    requires Inv(plan, s) && IsReceipt(plan, |s.procs|, e) && x < |s.procs| && i < |plan|
    requires Knows(plan, |s.procs|, e, x, i, pos) && Clock(s, x) >= 7 * i + pos && pos <= 7
    ensures Clock(s, e.q) > Due(plan, |s.procs|, e)
    decreases i, Wait(plan[i], |s.procs|, x, pos)
  {
    hide ProcOk, LinkOk, Carries, RecvPos, SendPos, Clock, Wait;
    var n := |s.procs|;
    if i > 0 && Knows(plan, n, e, x, i - 1, 7) {
      KnowledgeIsTrue(plan, s, e, x, i - 1, 7);
    } else if !(i == e.j && x == e.q && pos > RecvPos(plan[i], n, e.p, e.q)) {
      var y :| 0 <= y < n && Carries(plan[i], n, y, x) && pos > RecvPos(plan[i], n, y, x)
               && Knows(plan, n, e, y, i, SendPos(plan[i], n, y, x));
      WaitsLess(plan[i], n, y, x, pos);
      SendsWithin(plan[i], n, y, x);
      assert LinkOk(plan, s, y, x);
      Causal(plan, s, y, x, i);
      KnowledgeIsTrue(plan, s, e, y, i, SendPos(plan[i], n, y, x));
    }
  }

  /** A flag is stolen by a receive of data. */
  lemma Thief(plan: seq<Round>, s: State, a: Actor) returns (r: nat)
    requires Inv(plan, s) && !s.stolen && Step(plan, s, a).stolen
    ensures r < |s.procs| && s.procs[r].round < |plan| && Receiving(s.procs[r].stage)
    ensures !plan[s.procs[r].round].Barrier? && Sender(plan, s, r) >= 0 && (Sender(plan, s, r) as nat, r) in s.flags
  {
    hide ProcOk, LinkOk, ProcStep, Sender, Merged, LinkOf;
    assert a.Proc? && a.r < |s.procs|;
    r := a.r;
    assert ProcOk(plan, s, r);
    if Receiving(s.procs[r].stage) {
      assert s.procs[r].round < |plan| by { InMiddle(plan, s, r); }
      StepReceives(plan, s, r);
    } else {
      NotReceiving(plan, s, r);
    }
  }

  lemma InMiddle(plan: seq<Round>, s: State, r: nat)
    requires Plan(|s.procs|, plan) && r < |s.procs| && ProcOk(plan, s, r) && s.procs[r].stage != Outside
    ensures s.procs[r].round < |plan|
  {
  }

  lemma NotReceiving(plan: seq<Round>, s: State, r: nat)
    requires Plan(|s.procs|, plan) && r < |s.procs| && ProcOk(plan, s, r) && !Receiving(s.procs[r].stage)
    ensures ProcStep(plan, s, r).stolen == s.stolen
  {
    hide StageOk, Answers, Enter, Complete, Delivered;
  }

  lemma PendingSignal(plan: seq<Round>, s: State, p: nat, q: nat) returns (k: nat)
    requires Inv(plan, s) && p < |s.procs| && q < |s.procs| && (p, q) in s.flags
    ensures Taken(plan, s, p, q) <= k < Sent(plan, s, p, q) <= |plan| && Signalling(plan, |s.procs|, p, q, k)
  {
    hide ProcOk, Taken, Sent, Pending, Signalling, Stored, FlagsOf;
    assert LinkOk(plan, s, p, q);
    var n, lo, hi := |s.procs|, Taken(plan, s, p, q), Sent(plan, s, p, q);
    FlagsIff(plan, n, p, q, lo, hi);
    k :| lo <= k < hi && Signalling(plan, n, p, q, k);
  }

  /** A stolen flag belongs to the signal of a later barrier that has overtaken the data. */
  lemma OvertakenBy(plan: seq<Round>, s: State, a: Actor) returns (e: Receipt, k: nat)
    requires Inv(plan, s) && !s.stolen && Step(plan, s, a).stolen
    ensures IsReceipt(plan, |s.procs|, e) && e.j < k < |plan|
    ensures plan[k].Barrier? && Carries(plan[k], |s.procs|, e.p, e.q)
    ensures Clock(s, e.q) <= Due(plan, |s.procs|, e)
    ensures Clock(s, e.p) > 7 * k + SendPos(plan[k], |s.procs|, e.p, e.q)
  {
    hide LinkOk, ProcOk, Carries, RecvPos, SendPos, Sender, Step, Sent;
    var r := Thief(plan, s, a);
    assert ProcOk(plan, s, r);
    var from := Sender(plan, s, r);
    var j := s.procs[r].round;
    ReceivesInOrder(plan, s, r, r);
    ReceivesInOrder(plan, s, r, from);
    e := Receipt(j, from, r);
    k := PendingSignal(plan, s, from, r);
    TakenIff(plan, s, from, r, j);
    TakenIff(plan, s, from, r, k);
  }

  lemma SafeStep(plan: seq<Round>, s: State, a: Actor)
    requires Inv(plan, s) && !s.stolen && Safe(plan, |s.procs|)
    ensures !Step(plan, s, a).stolen
  {
    hide ProcOk, LinkOk, Step, Knows, Carries, RecvPos, SendPos, Due, Clock;
    if Step(plan, s, a).stolen {
      var n := |s.procs|;
      var e, k := OvertakenBy(plan, s, a);
      assert e == Receipt(e.j, e.p, e.q) && InTime(plan, n, e, k);
      SendsWithin(plan[k], n, e.p, e.q);
      KnowledgeIsTrue(plan, s, e, e.p, k, SendPos(plan[k], n, e.p, e.q));
    }
  }

  /** When no barrier signal can overtake data, no run ever takes a flag for data. */
  lemma {:induction false} SafeRuns(n: nat, plan: seq<Round>, schedule: seq<Actor>)
    requires Plan(n, plan) && Safe(plan, n)
    ensures !Run(n, plan, schedule).stolen
  {
    hide Safe, Inv;
    if |schedule| > 0 {
      SafeRuns(n, plan, schedule[..|schedule| - 1]);
      SafeStep(plan, Run(n, plan, schedule[..|schedule| - 1]), schedule[|schedule| - 1]);
    }
  }

  /** In safe programs every call does what it promises, in every run: it never gets stuck, and all answers are
      right. */
  lemma SafeProgramsWork(n: nat, plan: seq<Round>, schedule: seq<Actor>, r: nat)
    requires Plan(n, plan) && Safe(plan, n) && r < n
    ensures var s := Run(n, plan, schedule);
            && s.procs[r].round <= |plan|
            && (s.procs[r].round < |plan| ==> exists a :: Step(plan, s, a) != s)
            && (forall k :: 0 <= k < s.procs[r].round ==>
                  k < |s.procs[r].results| && Correct(plan[k], r, s.procs[r].results[k]))
  {
    hide Run, LinkOk, Safe, Step, Correct, Answers, StageOk;
    SafeRuns(n, plan, schedule);
    var s := Run(n, plan, schedule);
    assert ProcOk(plan, s, r);
    if s.procs[r].round < |plan| {
      CollectivesMakeProgress(n, plan, schedule, r);
    }
    forall k | 0 <= k < s.procs[r].round ensures Correct(plan[k], r, s.procs[r].results[k]) {
      EveryCallAnswers(n, plan, schedule, r, k);
    }
  }

  // ---------------------------------------------------------------------------------------------
  // The condition is necessary
  // ---------------------------------------------------------------------------------------------

  /** Nobody knows of a receipt before it has happened, so not the receiver before its position. */
  lemma {:induction false} KnowsAfter(plan: seq<Round>, n: nat, e: Receipt, x: nat, i: nat, pos: nat)
    requires Plan(n, plan) && IsReceipt(plan, n, e) && x < n && i < |plan| && Knows(plan, n, e, x, i, pos)
    ensures i >= e.j
    ensures i == e.j ==>
              || (x == e.q && pos > RecvPos(plan[i], n, e.p, e.q))
              || (var root := Root(plan[i]);
                  if plan[i].Bcast? then Relative(x, root, n) > Relative(e.q, root, n)
                  else Relative(x, root, n) < Relative(e.q, root, n))
    decreases i, Wait(plan[i], n, x, pos)
  {
    hide Relative, Parent, Child, Wait, SendPos;
    if i > 0 && Knows(plan, n, e, x, i - 1, 7) {
      KnowsAfter(plan, n, e, x, i - 1, 7);
    } else if !(i == e.j && x == e.q && pos > RecvPos(plan[i], n, e.p, e.q)) {
      var y :| 0 <= y < n && Carries(plan[i], n, y, x) && pos > RecvPos(plan[i], n, y, x)
               && Knows(plan, n, e, y, i, SendPos(plan[i], n, y, x));
      WaitsLess(plan[i], n, y, x, pos);
      KnowsAfter(plan, n, e, y, i, SendPos(plan[i], n, y, x));
      var root := Root(plan[i]);
      NotBoth(x, y, root, n);
      ParentIffChild(x, x, root, n);
      ParentIffChild(y, y, root, n);
      if Parent(x, root, n) == y { Higher(x, root, n); } else { Higher(y, root, n); }
    }
  }

  lemma KnowsLater(plan: seq<Round>, n: nat, e: Receipt, x: nat, i: nat, pos: nat, pos': nat)
    requires Plan(n, plan) && IsReceipt(plan, n, e) && x < n && i < |plan|
    requires Knows(plan, n, e, x, i, pos) && pos <= pos'
    ensures Knows(plan, n, e, x, i, pos')
  {
    hide Carries, RecvPos, SendPos, Wait;
  }

  ghost predicate Later(s: State, s': State) {
    |s'.procs| == |s.procs| && forall z :: 0 <= z < |s.procs| ==> Clock(s, z) <= Clock(s', z)
  }

  lemma OneMoreStep(n: nat, plan: seq<Round>, schedule: seq<Actor>, a: Actor)
    requires Plan(n, plan)
    ensures Run(n, plan, schedule + [a]) == Step(plan, Run(n, plan, schedule), a)
  {
    assert (schedule + [a])[..|schedule|] == schedule;
  }

  /** The receiver thread empties a pipe. */
  lemma {:induction false} Flush(n: nat, plan: seq<Round>, schedule: seq<Actor>, p: nat, q: nat)
    returns (flushed: seq<Actor>)
    requires Plan(n, plan) && !Run(n, plan, schedule).stolen
    ensures var s, s' := Run(n, plan, schedule), Run(n, plan, flushed);
            !s'.stolen && s'.procs == s.procs && LinkOf(s', p, q).pipe == []
    decreases |LinkOf(Run(n, plan, schedule), p, q).pipe|
  {
    hide Run, Inv;
    if LinkOf(Run(n, plan, schedule), p, q).pipe == [] {
      flushed := schedule;
    } else {
      OneMoreStep(n, plan, schedule, Receiver(p, q));
      flushed := Flush(n, plan, schedule + [Receiver(p, q)], p, q);
    }
  }

  /** The receiver does not jump over the position of the receipt. */
  lemma NoJump(plan: seq<Round>, s: State, e: Receipt)
    requires Inv(plan, s) && !s.stolen && IsReceipt(plan, |s.procs|, e) && Clock(s, e.q) < Due(plan, |s.procs|, e)
    requires Movable(plan, s, e.q)
    ensures var s' := Step(plan, s, Proc(e.q));
            |s'.procs| == |s.procs| && (s'.stolen || Clock(s', e.q) <= Due(plan, |s.procs|, e))
  {
    hide LinkOk, Sender, Answers;
    MovableMoves(plan, s, e.q);
    if s.procs[e.q].round == e.j {
      assert ProcOk(plan, s, e.q);
      if Receiving(s.procs[e.q].stage) {
        ReceiveMoves(plan, s, e.q);
      } else {
        ParentIffChild(e.q, e.q, Root(plan[e.j]), |s.procs|);
        NotBoth(e.p, e.q, Root(plan[e.j]), |s.procs|);
      }
    }
  }

  /** One step of a process that does not wait and is not at the receipt. */
  lemma Act(n: nat, plan: seq<Round>, schedule: seq<Actor>, e: Receipt, x: nat)
    requires Plan(n, plan) && IsReceipt(plan, n, e) && x < n && !Run(n, plan, schedule).stolen
    requires var s := Run(n, plan, schedule);
             Movable(plan, s, x) && Clock(s, e.q) <= Due(plan, n, e) && (x == e.q ==> Clock(s, x) < Due(plan, n, e))
    ensures var s, s' := Run(n, plan, schedule), Run(n, plan, schedule + [Proc(x)]);
            s'.stolen || (Later(s, s') && Clock(s', x) > Clock(s, x) && Clock(s', e.q) <= Due(plan, n, e))
  {
    hide Run, Inv, Movable, Step, Due;
    var s := Run(n, plan, schedule);
    OneMoreStep(n, plan, schedule, Proc(x));
    StepShape(plan, s, Proc(x));
    MovableMoves(plan, s, x);
    if x == e.q {
      NoJump(plan, s, e);
    }
  }

  /** Once its sender has sent and the pipe is empty, a process can receive. */
  lemma Ready(plan: seq<Round>, s: State, x: nat, y: nat)
    requires Inv(plan, s) && x < |s.procs| && y < |s.procs| && s.procs[x].round < |plan|
    requires Receiving(s.procs[x].stage) && y == Sender(plan, s, x) && LinkOf(s, y, x).pipe == []
    requires Clock(s, y) > 7 * s.procs[x].round + SendPos(plan[s.procs[x].round], |s.procs|, y, x)
    ensures Movable(plan, s, x)
  {
    hide ProcOk, LinkOk, Movable, Sender, SendPos, Clock;
    if !Movable(plan, s, x) {
      NothingSent(plan, s, x, y);
    }
  }

  /** What a schedule that goes on for `x` up to a position and leaves the receipt alone achieves. */
  ghost predicate Reaches(n: nat, plan: seq<Round>, schedule: seq<Actor>, e: Receipt, x: nat, clock: nat,
                          longer: seq<Actor>)
    requires Plan(n, plan) && IsReceipt(plan, n, e) && x < n
  {
    var s, s' := Run(n, plan, schedule), Run(n, plan, longer);
    s'.stolen || (!s.stolen && Later(s, s') && Clock(s', x) >= clock && Clock(s', e.q) <= Due(plan, n, e))
  }

  /** The sender of a process has sent, by a schedule that leaves the receipt alone. */
  lemma SenderActs(n: nat, plan: seq<Round>, schedule: seq<Actor>, e: Receipt, i: nat, y: nat, x: nat)
    returns (longer: seq<Actor>)
    requires Plan(n, plan) && IsReceipt(plan, n, e) && x < n && y < n && i < |plan|
    requires var s := Run(n, plan, schedule);
             !s.stolen && Clock(s, e.q) <= Due(plan, n, e) && Clock(s, y) >= 7 * i + SendPos(plan[i], n, y, x)
    ensures Reaches(n, plan, schedule, e, y, 7 * i + SendPos(plan[i], n, y, x) + 1, longer)
  {
    hide Run, ProcOk, LinkOk, SendPos, RecvPos, Carries;
    SendsWithin(plan[i], n, y, x);
    SendsWithin(plan[e.j], n, e.p, e.q);
    var s := Run(n, plan, schedule);
    if Clock(s, y) == 7 * i + SendPos(plan[i], n, y, x) {
      Act(n, plan, schedule, e, y);
      longer := schedule + [Proc(y)];
    } else {
      longer := schedule;
    }
  }

  lemma ReachesThen(n: nat, plan: seq<Round>, e: Receipt, s0: seq<Actor>, x: nat, c: nat, s1: seq<Actor>,
                    y: nat, d: nat, s2: seq<Actor>)
    requires Plan(n, plan) && IsReceipt(plan, n, e) && x < n && y < n
    requires Reaches(n, plan, s0, e, x, c, s1) && Reaches(n, plan, s1, e, y, d, s2)
    requires !Run(n, plan, s1).stolen
    ensures Reaches(n, plan, s0, e, x, c, s2) && Reaches(n, plan, s0, e, y, d, s2)
  {
    hide Run, Due, Clock, Inv;
    var a, b, z := Run(n, plan, s0), Run(n, plan, s1), Run(n, plan, s2);
  }

  /** Any process can be brought to any position at which it need not know of the receipt, before the receipt. */
  lemma {:induction false} Reach(n: nat, plan: seq<Round>, schedule: seq<Actor>, e: Receipt, x: nat, i: nat, pos: nat)
    returns (longer: seq<Actor>)
    requires Plan(n, plan) && IsReceipt(plan, n, e) && x < n && i < |plan| && pos <= 7
    requires !Knows(plan, n, e, x, i, pos)
    requires var s := Run(n, plan, schedule); !s.stolen && Clock(s, e.q) <= Due(plan, n, e)
    ensures Reaches(n, plan, schedule, e, x, 7 * i + pos, longer)
    decreases i, Wait(plan[i], n, x, pos), pos
  {
    hide Run, Inv, Knows, Due, Carries, RecvPos, SendPos, Wait, Clock;
    if Clock(Run(n, plan, schedule), x) >= 7 * i + pos {
      longer := schedule;
    } else if pos == 0 {
      KnowsNot(plan, n, e, x, i, pos);
      longer := Reach(n, plan, schedule, e, x, i - 1, 7);
    } else {
      KnowsNot(plan, n, e, x, i, pos);
      var before := Reach(n, plan, schedule, e, x, i, pos - 1);
      var s1 := Run(n, plan, before);
      if s1.stolen || Clock(s1, x) >= 7 * i + pos {
        longer := before;
      } else {
        longer := ReachNext(n, plan, before, e, x, i, pos);
        ReachesThen(n, plan, e, schedule, x, 7 * i + pos - 1, before, x, 7 * i + pos, longer);
      }
    }
  }

  lemma KnowsNot(plan: seq<Round>, n: nat, e: Receipt, x: nat, i: nat, pos: nat)
    requires Plan(n, plan) && IsReceipt(plan, n, e) && x < n && i < |plan| && pos <= 7 && !Knows(plan, n, e, x, i, pos)
    ensures i > 0 ==> !Knows(plan, n, e, x, i - 1, 7)
    ensures pos > 0 ==> !Knows(plan, n, e, x, i, pos - 1) && Wait(plan[i], n, x, pos - 1) <= Wait(plan[i], n, x, pos)
    ensures i == e.j && x == e.q ==> pos <= RecvPos(plan[i], n, e.p, e.q)
  {
    hide Carries, RecvPos, SendPos;
    if pos > 0 && Knows(plan, n, e, x, i, pos - 1) {
      KnowsLater(plan, n, e, x, i, pos - 1, pos);
    }
  }

  lemma SenderKnowsNot(plan: seq<Round>, n: nat, e: Receipt, x: nat, i: nat, pos: nat, y: nat)
    requires Plan(n, plan) && IsReceipt(plan, n, e) && x < n && y < n && i < |plan| && !Knows(plan, n, e, x, i, pos)
    requires Carries(plan[i], n, y, x) && pos > RecvPos(plan[i], n, y, x)
    ensures !Knows(plan, n, e, y, i, SendPos(plan[i], n, y, x))
  {
    hide Carries, RecvPos, SendPos;
    WaitsLess(plan[i], n, y, x, pos);
  }

  lemma NotAtReceipt(plan: seq<Round>, n: nat, s: State, e: Receipt, x: nat, i: nat, pos: nat)
    requires Plan(n, plan) && n == |s.procs| && IsReceipt(plan, n, e) && x < n && i < |plan| && 0 < pos <= 7
    requires Clock(s, x) == 7 * i + pos - 1 && Clock(s, e.q) <= Due(plan, n, e)
    requires i == e.j && x == e.q ==> pos <= RecvPos(plan[i], n, e.p, e.q)
    ensures x == e.q ==> Clock(s, x) < Due(plan, n, e)
  {
    hide RecvPos, Clock;
    SendsWithin(plan[e.j], n, e.p, e.q);
  }

  /** The clock tells the round and the stage. */
  lemma ClockTells(s: State, s': State, x: nat, i: nat, pos: nat)
    requires x < |s.procs| == |s'.procs| && pos < 7 && Clock(s, x) == 7 * i + pos == Clock(s', x)
    ensures s.procs[x].round == s'.procs[x].round == i
    ensures s.procs[x].stage == s'.procs[x].stage && Pos(s.procs[x].stage) == pos
  {
  }

  /** The message has been sent; it arrives, and the process receives it. */
  lemma ReceiveAtLast(n: nat, plan: seq<Round>, schedule: seq<Actor>, sent: seq<Actor>, e: Receipt,
                      x: nat, i: nat, pos: nat, y: nat)
    returns (longer: seq<Actor>)
    requires Plan(n, plan) && IsReceipt(plan, n, e) && x < n && y < n && i < |plan| && 0 < pos <= 7
    requires var s := Run(n, plan, schedule);
             && !s.stolen && Clock(s, x) == 7 * i + pos - 1
             && Receiving(s.procs[x].stage) && s.procs[x].round == i && y == Sender(plan, s, x)
    requires i == e.j && x == e.q ==> pos <= RecvPos(plan[i], n, e.p, e.q)
    requires Reaches(n, plan, schedule, e, y, 7 * i + SendPos(plan[i], n, y, x) + 1, sent)
    ensures Reaches(n, plan, schedule, e, x, 7 * i + pos, longer)
  {
    hide Run, ProcOk, LinkOk, RecvPos, SendPos, Due, Clock, Movable;
    var s, s1 := Run(n, plan, schedule), Run(n, plan, sent);
    if s1.stolen || Clock(s1, x) >= 7 * i + pos {
      longer := sent;
    } else {
      ClockTells(s, s1, x, i, pos - 1);
      var arrived := Flush(n, plan, sent, y, x);
      var s2 := Run(n, plan, arrived);
      SameClock(s1, s2);
      NotAtReceipt(plan, n, s2, e, x, i, pos);
      Ready(plan, s2, x, y);
      Act(n, plan, arrived, e, x);
      longer := arrived + [Proc(x)];
    }
  }

  lemma SameClock(s: State, s': State)
    requires s'.procs == s.procs
    ensures Later(s, s') && forall z :: 0 <= z < |s.procs| ==> Clock(s', z) == Clock(s, z)
  {
  }

  /** One position further, for which the sender of the process, if there is one, may have to move first. */
  lemma {:induction false} ReachNext(n: nat, plan: seq<Round>, schedule: seq<Actor>, e: Receipt, x: nat, i: nat,
                                     pos: nat)
    returns (longer: seq<Actor>)
    requires Plan(n, plan) && IsReceipt(plan, n, e) && x < n && i < |plan| && 0 < pos <= 7
    requires !Knows(plan, n, e, x, i, pos)
    requires var s := Run(n, plan, schedule);
             !s.stolen && Clock(s, e.q) <= Due(plan, n, e) && Clock(s, x) == 7 * i + pos - 1
    ensures Reaches(n, plan, schedule, e, x, 7 * i + pos, longer)
    decreases i, Wait(plan[i], n, x, pos), 0
  {
    hide Run, ProcOk, LinkOk, Knows, Carries, RecvPos, SendPos, Wait, Sender;
    var s := Run(n, plan, schedule);
    KnowsNot(plan, n, e, x, i, pos);
    NotAtReceipt(plan, n, s, e, x, i, pos);
    ClockTells(s, s, x, i, pos - 1);
    if !Receiving(s.procs[x].stage) || Sender(plan, s, x) < 0 {
      Act(n, plan, schedule, e, x);
      longer := schedule + [Proc(x)];
    } else {
      var y := Sender(plan, s, x);
      assert ProcOk(plan, s, x);
      ReceivesInOrder(plan, s, x, x);
      ReceivesInOrder(plan, s, x, y);
      SenderKnowsNot(plan, n, e, x, i, pos, y);
      WaitsLess(plan[i], n, y, x, pos);
      SendsWithin(plan[i], n, y, x);
      var s1 := Reach(n, plan, schedule, e, y, i, SendPos(plan[i], n, y, x));
      if Run(n, plan, s1).stolen {
        longer := s1;
      } else {
        var s2 := SenderActs(n, plan, s1, e, i, y, x);
        ReachesThen(n, plan, e, schedule, y, 7 * i + SendPos(plan[i], n, y, x), s1,
                    y, 7 * i + SendPos(plan[i], n, y, x) + 1, s2);
        longer := ReceiveAtLast(n, plan, schedule, s2, e, x, i, pos, y);
      }
    }
  }

  /** If a signal of a barrier can be sent before the data has been received, some run lets it overtake. */
  lemma UnsafeRun(n: nat, plan: seq<Round>, e: Receipt, k: nat) returns (schedule: seq<Actor>)
    requires Plan(n, plan) && e.j < k < |plan| && !InTime(plan, n, e, k)
    ensures Run(n, plan, schedule).stolen
  {
    hide Run, ProcOk, LinkOk, Knows, Carries, RecvPos, SendPos;
    var start: seq<Actor> := [];
    StartsAtZero(n, plan, e.q);
    SendsWithin(plan[k], n, e.p, e.q);
    SendsWithin(plan[e.j], n, e.p, e.q);
    var atSignal := Reach(n, plan, start, e, e.p, k, SendPos(plan[k], n, e.p, e.q));
    if Run(n, plan, atSignal).stolen {
      return atSignal;
    }
    var signalled := SenderActs(n, plan, atSignal, e, k, e.p, e.q);
    if Run(n, plan, signalled).stolen {
      return signalled;
    }
    NotYet(plan, n, e);
    var atReceipt := Reach(n, plan, signalled, e, e.q, e.j, RecvPos(plan[e.j], n, e.p, e.q));
    if Run(n, plan, atReceipt).stolen {
      return atReceipt;
    }
    var overtaken := Flush(n, plan, atReceipt, e.p, e.q);
    SameClock(Run(n, plan, atReceipt), Run(n, plan, overtaken));
    Overtakes(plan, Run(n, plan, overtaken), e, k);
    OneMoreStep(n, plan, overtaken, Proc(e.q));
    schedule := overtaken + [Proc(e.q)];
  }

  lemma StartsAtZero(n: nat, plan: seq<Round>, q: nat)
    requires Plan(n, plan) && q < n
    ensures var s := Run(n, plan, []); !s.stolen && Clock(s, q) == 0
  {
  }

  lemma NotYet(plan: seq<Round>, n: nat, e: Receipt)
    requires Plan(n, plan) && IsReceipt(plan, n, e)
    ensures !Knows(plan, n, e, e.q, e.j, RecvPos(plan[e.j], n, e.p, e.q))
  {
    hide Knows, RecvPos, Carries, Relative;
    if Knows(plan, n, e, e.q, e.j, RecvPos(plan[e.j], n, e.p, e.q)) {
      KnowsAfter(plan, n, e, e.q, e.j, RecvPos(plan[e.j], n, e.p, e.q));
    }
  }

  /** The receive finds the flag set and takes it. */
  lemma Overtakes(plan: seq<Round>, s: State, e: Receipt, k: nat)
    requires Inv(plan, s) && !s.stolen && IsReceipt(plan, |s.procs|, e) && Clock(s, e.q) == Due(plan, |s.procs|, e)
    requires e.j < k < |plan| && plan[k].Barrier? && Carries(plan[k], |s.procs|, e.p, e.q)
    requires Clock(s, e.p) > 7 * k + SendPos(plan[k], |s.procs|, e.p, e.q) && LinkOf(s, e.p, e.q).pipe == []
    ensures Step(plan, s, Proc(e.q)).stolen
  {
    hide Carries, RecvPos, SendPos, Sender, Taken, Sent, Pending, StageOk, Answers, ProcStep;
    var n := |s.procs|;
    SendsWithin(plan[e.j], n, e.p, e.q);
    ClockTells(s, s, e.q, e.j, RecvPos(plan[e.j], n, e.p, e.q));
    assert ProcOk(plan, s, e.q) && LinkOk(plan, s, e.p, e.q);
    ReceivesInOrder(plan, s, e.q, e.p);
    StepReceives(plan, s, e.q);
    TakenIff(plan, s, e.p, e.q, e.j);
    TakenIff(plan, s, e.p, e.q, k);
    assert Signalling(plan, n, e.p, e.q, k);
    FlagsIff(plan, n, e.p, e.q, Taken(plan, s, e.p, e.q), Sent(plan, s, e.p, e.q));
  }

  /** A receive of data takes the flag of a barrier in some run exactly when the sequence of calls lets a signal
      overtake data, which a caller can check before the first call. */
  lemma StolenIffUnsafe(n: nat, plan: seq<Round>)
    requires Plan(n, plan)
    ensures (exists schedule :: Run(n, plan, schedule).stolen) <==> !Safe(plan, n)
  {
    hide Run, InTime;
    if Safe(plan, n) {
      forall schedule ensures !Run(n, plan, schedule).stolen {
        SafeRuns(n, plan, schedule);
      }
    } else {
      var j, k, p, q :| 0 <= j < k < |plan| && 0 <= p < n && 0 <= q < n && !InTime(plan, n, Receipt(j, p, q), k);
      var schedule := UnsafeRun(n, plan, Receipt(j, p, q), k);
    }
  }

  // ---------------------------------------------------------------------------------------------
  // Which programs are safe
  // ---------------------------------------------------------------------------------------------

  lemma {:induction false} NeverForgets(plan: seq<Round>, n: nat, e: Receipt, x: nat, j: nat, k: nat, pos: nat)
    requires Plan(n, plan) && IsReceipt(plan, n, e) && x < n && j < k < |plan| && Knows(plan, n, e, x, j, 7)
    ensures Knows(plan, n, e, x, k, pos)
    decreases k
  {
    hide Carries, RecvPos, SendPos, Wait;
    if j < k - 1 {
      NeverForgets(plan, n, e, x, j, k - 1, 7);
    }
  }

  lemma HearsFrom(plan: seq<Round>, n: nat, e: Receipt, y: nat, x: nat, i: nat, pos: nat)
    requires Plan(n, plan) && IsReceipt(plan, n, e) && x < n && y < n && i < |plan| && Carries(plan[i], n, y, x)
    requires pos > RecvPos(plan[i], n, y, x) && Knows(plan, n, e, y, i, SendPos(plan[i], n, y, x))
    ensures Knows(plan, n, e, x, i, pos)
  {
    hide Carries, RecvPos, SendPos, Wait;
  }

  lemma ReceiverKnows(plan: seq<Round>, n: nat, e: Receipt)
    requires Plan(n, plan) && IsReceipt(plan, n, e)
    ensures Knows(plan, n, e, e.q, e.j, 7)
  {
    hide Carries;
    SendsWithin(plan[e.j], n, e.p, e.q);
  }

  /** Every sequence of calls is safe in which each barrier is the first call or directly follows another barrier or a
      broadcast from process 0. */
  lemma GuardedBarriersAreSafe(plan: seq<Round>, n: nat)
    requires Plan(n, plan)
    requires forall k :: 0 < k < |plan| && plan[k].Barrier? ==> !plan[k - 1].Reduce? && Root(plan[k - 1]) == 0
    ensures Safe(plan, n)
  {
    forall j, k, p, q | 0 <= j < k < |plan| && 0 <= p < n && 0 <= q < n ensures InTime(plan, n, Receipt(j, p, q), k) {
      GuardedInTime(plan, n, Receipt(j, p, q), k);
    }
  }

  lemma GuardedInTime(plan: seq<Round>, n: nat, e: Receipt, k: nat)
    requires Plan(n, plan) && e.j < k < |plan|
    requires plan[k].Barrier? ==> !plan[k - 1].Reduce? && Root(plan[k - 1]) == 0
    ensures InTime(plan, n, e, k)
  {
    hide Knows, Parent, Child;
    var j, p, q := e.j, e.p, e.q;
    if IsReceipt(plan, n, e) && plan[k].Barrier? && Carries(plan[k], n, p, q) {
      NotBoth(p, q, 0, n);
      ParentIffChild(p, q, 0, n);
      ParentIffChild(q, p, 0, n);
      ReceiverKnows(plan, n, e);
      if Parent(q, 0, n) == p {
        NeverForgets(plan, n, e, q, j, k, SendPos(plan[k], n, q, p));
        HearsFrom(plan, n, e, q, p, k, SendPos(plan[k], n, p, q));
      } else {
        NeverForgets(plan, n, e, q, j, k - 1, SendPos(plan[k - 1], n, q, p));
        HearsFrom(plan, n, e, q, p, k - 1, 7);
        NeverForgets(plan, n, e, p, k - 1, k, SendPos(plan[k], n, p, q));
      }
    }
  }

  /** Below process 0 nobody has heard of what it received in the reduction, while the barrier still goes upwards. */
  lemma {:induction false} NotHeard(plan: seq<Round>, n: nat, e: Receipt, x: nat, pos: nat)
    requires Plan(n, plan) && IsReceipt(plan, n, e) && e.q == 0 && plan[e.j].Reduce? && Root(plan[e.j]) == 0
    requires e.j + 1 < |plan| && plan[e.j + 1].Barrier? && 0 < x < n && pos <= 4
    ensures !Knows(plan, n, e, x, e.j + 1, pos)
    decreases Wait(plan[e.j + 1], n, x, pos)
  {
    hide Parent, Child, Relative, Wait;
    Rotation(0, 0, n);
    var i := e.j + 1;
    if Knows(plan, n, e, x, e.j, 7) {
      KnowsAfter(plan, n, e, x, e.j, 7);
    }
    if Knows(plan, n, e, x, i, pos) {
      var y :| 0 <= y < n && Carries(plan[i], n, y, x) && pos > RecvPos(plan[i], n, y, x)
               && Knows(plan, n, e, y, i, SendPos(plan[i], n, y, x));
      WaitsLess(plan[i], n, y, x, pos);
      ParentIffChild(y, y, 0, n);
      NotHeard(plan, n, e, y, SendPos(plan[i], n, y, x));
    }
  }

  /** With at least two processes, a reduction to process 0 that is directly followed by a barrier is not safe: in
      some run a receive of the reduction takes the signal of the barrier. */
  lemma ReductionThenBarrier(n: nat, plan: seq<Round>, j: nat)
    requires Plan(n, plan) && n >= 2 && j + 1 < |plan|
    requires plan[j].Reduce? && Root(plan[j]) == 0 && plan[j + 1].Barrier?
    ensures exists schedule :: Run(n, plan, schedule).stolen
  {
    hide Run, Knows;
    var e := Receipt(j, 1, 0);
    Unrotated(1, 1, n);
    NotHeard(plan, n, e, 1, 3);
    assert !InTime(plan, n, e, j + 1);
    var schedule := UnsafeRun(n, plan, e, j + 1);
  }

  /** For instance when two processes add one byte each and then call a barrier. */
  lemma SumThenBarrier()
    ensures var plan := [Reduce(Call(Sum, 0, 1, [[1], [2]])), Barrier];
            Plan(2, plan) && exists schedule :: Run(2, plan, schedule).stolen
  {
    var call := Call(Sum, 0, 1, [[1], [2]]);
    assert Valid(call);
    ReductionThenBarrier(2, [Reduce(call), Barrier], 0);
  }
}
