/** The collective calls of mimpi.c, in any mixture, by any number of processes over pipes and receiver threads. */
module MimpiCollectives {
  import opened MimpiReduce
  import opened MimpiTree

  // All processes make the same sequence of barriers, broadcasts and reductions, whose roots, sizes, operations and
  // data are arbitrary.  A transition is one step of a process, or one message moved by a receiver thread from a pipe
  // to where the receiving process looks for it: a message of a barrier only sets a flag, any other is appended to a
  // list.

  const BARRIER_TAG: int := -2
  const BCAST_TAG: int := -3
  const REDUCE_TAG: int := -4

  datatype Message = Message(count: nat, tag: int, data: seq<byte>)

  /** One call: all processes agree on everything but their own data. */
  datatype Round = Barrier | Bcast(source: nat, payload: seq<byte>) | Reduce(call: Call)

  function Root(round: Round): nat {
    match round
    case Barrier => 0
    case Bcast(source, _) => source
    case Reduce(call) => call.root
  }

  function Size(round: Round): nat {
    match round
    case Barrier => 0
    case Bcast(_, payload) => |payload|
    case Reduce(call) => call.count
  }

  function Tag(round: Round): int {
    match round
    case Barrier => BARRIER_TAG
    case Bcast(_, _) => BCAST_TAG
    case Reduce(_) => REDUCE_TAG
  }

  /** The operations of a call in their order.  A reduction uses the first three, a broadcast the last three, and a
      barrier all of them. */
  datatype Stage = Outside | RecvLeft | RecvRight | Deliver | Await | SendLeft | SendRight

  function Pos(stage: Stage): (pos: nat)
    ensures pos < 7
  {
    match stage
    case Outside => 0
    case RecvLeft => 1
    case RecvRight => 2
    case Deliver => 3
    case Await => 4
    case SendLeft => 5
    case SendRight => 6
  }

  /** `round` is the number of completed calls, and `results` is what they have left in the caller's memory; a
      barrier writes nothing, and a reduction only writes to the root's. */
  datatype Process = Process(stage: Stage, round: nat, data: seq<byte>, results: seq<seq<byte>>)

  /** What one process has sent to another and has not been received: still in the pipe, or in the list. */
  datatype Link = Link(pipe: seq<Message>, buffer: seq<Message>)

  /** `flags` has the pairs (p, q) for which `sended_barrier[p]` is set in process q.  A flag is `stolen` when a
      receive of other data finds it set and returns at once, with nothing received; the model ends the run there. */
  datatype State = State(procs: seq<Process>, links: map<(nat, nat), Link>, flags: set<(nat, nat)>, stolen: bool)

  datatype Actor = Proc(r: nat) | Receiver(source: nat, destination: nat)

  predicate Suits(round: Round, n: nat) {
    Root(round) < n && (round.Reduce? ==> Valid(round.call) && |round.call.data| == n)
  }

  predicate Plan(n: nat, plan: seq<Round>) {
    forall k :: 0 <= k < |plan| ==> Suits(plan[k], n)
  }

  function LinkOf(s: State, p: nat, q: nat): Link {
    if (p, q) in s.links then s.links[(p, q)] else Link([], [])
  }

  function Init(n: nat): State { State(seq(n, i => Process(Outside, 0, [], [])), map[], {}, false) }

  /** The matching loop of `MIMPI_Recv`: the first message of the right size and tag. */
  function FindMatch(buffer: seq<Message>, count: nat, tag: int): (i: nat)
    ensures i <= |buffer|
  {
    if |buffer| == 0 then 0
    else if buffer[0].count == count && (buffer[0].tag == tag || (tag == 0 && buffer[0].tag >= 0)) then 0
    else 1 + FindMatch(buffer[1..], count, tag)
  }

  /** What the loop finds: the oldest message of the size with the tag, where 0 stands for every tag that programs
      use. */
  lemma {:induction false} FirstMatch(buffer: seq<Message>, count: nat, tag: int)
    ensures var i := FindMatch(buffer, count, tag);
            && (forall j :: 0 <= j < i ==>
                  buffer[j].count != count || (buffer[j].tag != tag && (tag != 0 || buffer[j].tag < 0)))
            && (i < |buffer| ==> buffer[i].count == count && (buffer[i].tag == tag || (tag == 0 && buffer[i].tag >= 0)))
  {
    if |buffer| > 0 && FindMatch(buffer, count, tag) > 0 {
      FirstMatch(buffer[1..], count, tag);
    }
  }

  function SetProc(s: State, r: nat, p: Process): State
    requires r < |s.procs|
  {
    s.(procs := s.procs[r := p])
  }

  function Send(s: State, p: nat, q: int, round: Round, data: seq<byte>): State {
    if q < 0 then s
    else
      var l := LinkOf(s, p, q);
      var sent := if round.Barrier? then [] else data;
      s.(links := s.links[(p, q as nat) := l.(pipe := l.pipe + [Message(|sent|, Tag(round), sent)])])
  }

  /** Receive from a relative, if there is one, and go on; with neither a flag nor a matching message the receive
      blocks.  The flag is looked at first, whatever the receive is for. */
  function Receive(s: State, r: nat, from: int, round: Round, next: Stage): State
    requires r < |s.procs|
  {
    var p := s.procs[r];
    if from < 0 then SetProc(s, r, p.(stage := next))
    else if (from as nat, r) in s.flags then
      if round.Barrier? then SetProc(s, r, p.(stage := next)).(flags := s.flags - {(from as nat, r)})
      else s.(stolen := true)
    else
      var l := LinkOf(s, from, r);
      var i := FindMatch(l.buffer, Size(round), Tag(round));
      if i == |l.buffer| then s
      else
        SetProc(s, r, p.(stage := next, data := Merged(round, p.data, l.buffer[i].data))).(
          links := s.links[(from as nat, r) := l.(buffer := l.buffer[..i] + l.buffer[i + 1..])])
  }

  /** What a receive makes of the data of the process. */
  function Merged(round: Round, own: seq<byte>, received: seq<byte>): seq<byte> {
    match round
    case Barrier => own
    case Bcast(_, _) => received
    case Reduce(call) => CombineAll(call.op, own, received)
  }

  function Enter(round: Round, r: nat, p: Process): Process
    requires round.Reduce? ==> r < |round.call.data|
  {
    match round
    case Barrier => p.(stage := RecvLeft)
    case Bcast(source, payload) => if r == source then p.(stage := SendLeft, data := payload) else p.(stage := Await)
    case Reduce(call) => p.(stage := RecvLeft, data := call.data[r])
  }

  function Complete(p: Process, result: seq<byte>): Process {
    p.(stage := Outside, round := p.round + 1, results := p.results + [result])
  }

  /** After the own data has been merged with that of the children. */
  function Delivered(round: Round, r: nat, p: Process): Process {
    if round.Barrier? then p.(stage := if r == Root(round) then SendLeft else Await)
    else Complete(p, if r == Root(round) then p.data else [])
  }

  function ProcStep(plan: seq<Round>, s: State, r: nat): State
    requires r < |s.procs| && Plan(|s.procs|, plan)
  {
    var n, p := |s.procs|, s.procs[r];
    if p.round >= |plan| then s
    else
      var round := plan[p.round];
      var root := Root(round);
      match p.stage
      case Outside => SetProc(s, r, Enter(round, r, p))
      case RecvLeft => Receive(s, r, Left(r, root, n), round, RecvRight)
      case RecvRight => Receive(s, r, Right(r, root, n), round, Deliver)
      case Deliver =>
        Send(SetProc(s, r, Delivered(round, r, p)), r, if r == root then -1 else Parent(r, root, n), round, p.data)
      case Await => Receive(s, r, Parent(r, root, n), round, SendLeft)
      case SendLeft => Send(SetProc(s, r, p.(stage := SendRight)), r, Left(r, root, n), round, p.data)
      case SendRight =>
        Send(SetProc(s, r, Complete(p, if round.Barrier? then [] else p.data)), r, Right(r, root, n), round, p.data)
  }

  /** A receiver thread takes the oldest message from a pipe. */
  function Arrive(s: State, p: nat, q: nat): State {
    var l := LinkOf(s, p, q);
    if l.pipe == [] then s
    else if l.pipe[0].tag == BARRIER_TAG then
      s.(links := s.links[(p, q) := l.(pipe := l.pipe[1..])], flags := s.flags + {(p, q)})
    else
      s.(links := s.links[(p, q) := Link(l.pipe[1..], l.buffer + [l.pipe[0]])])
  }

  function Step(plan: seq<Round>, s: State, a: Actor): State
    requires Plan(|s.procs|, plan)
  {
    if s.stolen then s
    else
      match a
      case Proc(r) => if r < |s.procs| then ProcStep(plan, s, r) else s
      case Receiver(p, q) => Arrive(s, p, q)
  }

  // ---------------------------------------------------------------------------------------------
  // What a link carries
  // ---------------------------------------------------------------------------------------------

  /** In broadcasts messages go from parents to children, in reductions from children to parents, and in barriers
      both ways. */
  predicate Carries(round: Round, n: nat, p: nat, q: nat)
    requires Suits(round, n) && p < n && q < n
  {
    || (!round.Bcast? && Parent(p, Root(round), n) == q)
    || (!round.Reduce? && Parent(q, Root(round), n) == p)
  }

  /** The position at which `q` receives the message of `p`. */
  function RecvPos(round: Round, n: nat, p: nat, q: nat): nat
    requires Suits(round, n) && p < n && q < n
  {
    if Parent(q, Root(round), n) == p then 4 else if Left(q, Root(round), n) == p then 1 else 2
  }

  /** The position at which `p` sends its message to `q`. */
  function SendPos(round: Round, n: nat, p: nat, q: nat): nat
    requires Suits(round, n) && p < n && q < n
  {
    if Parent(p, Root(round), n) == q then 3 else if Left(p, Root(round), n) == q then 5 else 6
  }

  function MessageOf(round: Round, n: nat, p: nat): Message
    requires Suits(round, n) && p < n
  {
    Message(Size(round), Tag(round),
            match round
            case Barrier => []
            case Bcast(_, payload) => payload
            case Reduce(call) => TreeData(call, Relative(p, call.root, n)))
  }

  /** The messages from `p` to `q` of the rounds from `lo` up to `hi`. */
  function Pending(plan: seq<Round>, n: nat, p: nat, q: nat, lo: nat, hi: nat): seq<Message>
    requires Plan(n, plan) && p < n && q < n && hi <= |plan|
    decreases hi - lo
  {
    if lo >= hi then []
    else (if Carries(plan[lo], n, p, q) then [MessageOf(plan[lo], n, p)] else []) + Pending(plan, n, p, q, lo + 1, hi)
  }

  lemma {:induction false} PendingExtends(plan: seq<Round>, n: nat, p: nat, q: nat, lo: nat, hi: nat)
    requires Plan(n, plan) && p < n && q < n && lo <= hi < |plan|
    ensures Pending(plan, n, p, q, lo, hi + 1)
            == Pending(plan, n, p, q, lo, hi) + if Carries(plan[hi], n, p, q) then [MessageOf(plan[hi], n, p)] else []
    decreases hi - lo
  {
    hide Carries, MessageOf;
    if lo < hi {
      PendingExtends(plan, n, p, q, lo + 1, hi);
    }
  }

  /** The messages that go into the list, and the number of those that set the flag. */
  function DataOf(ms: seq<Message>): seq<Message> {
    if |ms| == 0 then []
    else (if ms[0].tag == BARRIER_TAG then [] else [ms[0]]) + DataOf(ms[1..])
  }

  function FlagsOf(ms: seq<Message>): nat {
    if |ms| == 0 then 0 else (if ms[0].tag == BARRIER_TAG then 1 else 0) + FlagsOf(ms[1..])
  }

  lemma {:induction false} OneMoreMessage(ms: seq<Message>, m: Message)
    ensures DataOf(ms + [m]) == DataOf(ms) + DataOf([m]) && FlagsOf(ms + [m]) == FlagsOf(ms) + FlagsOf([m])
  {
    if |ms| == 0 {
      assert ms + [m] == [m];
    } else {
      assert (ms + [m])[1..] == ms[1..] + [m];
      OneMoreMessage(ms[1..], m);
    }
  }

  lemma {:induction false} DataHasNoFlags(ms: seq<Message>, i: nat)
    requires i < |DataOf(ms)|
    ensures DataOf(ms)[i].tag != BARRIER_TAG
  {
    if ms[0].tag == BARRIER_TAG {
      DataHasNoFlags(ms[1..], i);
    } else if i > 0 {
      DataHasNoFlags(ms[1..], i - 1);
    }
  }

  /** What has been sent and not been received: list entries and flags, here or still in the pipe. */
  function Stored(s: State, p: nat, q: nat): seq<Message> {
    LinkOf(s, p, q).buffer + DataOf(LinkOf(s, p, q).pipe)
  }

  function Signals(s: State, p: nat, q: nat): nat {
    (if (p, q) in s.flags then 1 else 0) + FlagsOf(LinkOf(s, p, q).pipe)
  }

  /** Number of rounds in which `q` no longer waits for a message from `p`. */
  function Taken(plan: seq<Round>, s: State, p: nat, q: nat): nat
    requires p < |s.procs| && q < |s.procs| && Plan(|s.procs|, plan)
  {
    var n, k := |s.procs|, s.procs[q].round;
    k + if k < |plan| && Carries(plan[k], n, p, q) && Pos(s.procs[q].stage) > RecvPos(plan[k], n, p, q) then 1 else 0
  }

  /** Number of rounds in which `p` has nothing more to send to `q`. */
  function Sent(plan: seq<Round>, s: State, p: nat, q: nat): nat
    requires p < |s.procs| && q < |s.procs| && Plan(|s.procs|, plan)
  {
    var n, k := |s.procs|, s.procs[p].round;
    k + if k < |plan| && Carries(plan[k], n, p, q) && Pos(s.procs[p].stage) > SendPos(plan[k], n, p, q) then 1 else 0
  }

  ghost predicate LinkOk(plan: seq<Round>, s: State, p: nat, q: nat)
    requires p < |s.procs| && q < |s.procs| && Plan(|s.procs|, plan)
  {
    var n, lo, hi := |s.procs|, Taken(plan, s, p, q), Sent(plan, s, p, q);
    && hi <= |plan|
    && Stored(s, p, q) == DataOf(Pending(plan, n, p, q, lo, hi))
    && Signals(s, p, q) == FlagsOf(Pending(plan, n, p, q, lo, hi))
    && (forall j :: 0 <= j < lo && j < |plan| && Carries(plan[j], n, p, q) ==> j < hi)
  }

  /** What a process holds in the middle of a call. */
  ghost predicate StageOk(round: Round, n: nat, r: nat, stage: Stage, data: seq<byte>)
    requires Suits(round, n) && r < n
  {
    match stage
    case Outside => true
    case RecvLeft => !round.Bcast? && (round.Reduce? ==> data == round.call.data[r])
    case RecvRight =>
      && !round.Bcast?
      && (round.Reduce? ==>
            data == CombineAll(round.call.op, round.call.data[r],
                               TreeData(round.call, 2 * Relative(r, Root(round), n) + 1)))
    case Deliver => !round.Bcast? && (round.Reduce? ==> data == TreeData(round.call, Relative(r, Root(round), n)))
    case Await => !round.Reduce? && r != Root(round)
    case SendLeft => !round.Reduce? && (round.Bcast? ==> data == round.payload)
    case SendRight => !round.Reduce? && (round.Bcast? ==> data == round.payload)
  }

  /** What a completed call has left behind. */
  ghost predicate Answers(round: Round, n: nat, r: nat, result: seq<byte>)
    requires Suits(round, n)
  {
    match round
    case Barrier => result == []
    case Bcast(_, payload) => result == payload
    case Reduce(call) => if r == call.root then result == TreeData(call, 0) else result == []
  }

  ghost predicate ProcOk(plan: seq<Round>, s: State, r: nat)
    requires r < |s.procs| && Plan(|s.procs|, plan)
  {
    var p := s.procs[r];
    && p.round <= |plan| && |p.results| == p.round
    && (if p.round < |plan| then StageOk(plan[p.round], |s.procs|, r, p.stage, p.data) else p.stage == Outside)
    && (forall k :: 0 <= k < p.round ==> Answers(plan[k], |s.procs|, r, p.results[k]))
  }

  ghost predicate Inv(plan: seq<Round>, s: State) {
    && Plan(|s.procs|, plan)
    && (forall r :: 0 <= r < |s.procs| ==> ProcOk(plan, s, r))
    && (forall p, q :: 0 <= p < |s.procs| && 0 <= q < |s.procs| ==> LinkOk(plan, s, p, q))
  }

  // ---------------------------------------------------------------------------------------------
  // Positions and what they tell about other processes
  // ---------------------------------------------------------------------------------------------

  /** How far a process has got: its calls have seven positions each. */
  function Clock(s: State, r: nat): nat
    requires r < |s.procs|
  {
    7 * s.procs[r].round + Pos(s.procs[r].stage)
  }

  lemma NotBoth(p: nat, q: nat, root: nat, n: nat)
    requires p < n && q < n && root < n
    ensures !(Parent(p, root, n) == q && Parent(q, root, n) == p)
  {
    hide Relative, Parent;
    ParentIff(p, q, root, n);
    ParentIff(q, p, root, n);
  }

  /** What has been received has been sent. */
  lemma Causal(plan: seq<Round>, s: State, p: nat, q: nat, k: nat)
    requires Plan(|s.procs|, plan) && p < |s.procs| && q < |s.procs| && k < |plan| && LinkOk(plan, s, p, q)
    requires Carries(plan[k], |s.procs|, p, q) && Clock(s, q) > 7 * k + RecvPos(plan[k], |s.procs|, p, q)
    ensures Clock(s, p) > 7 * k + SendPos(plan[k], |s.procs|, p, q)
  {
    hide Carries, Stored, Signals, Pending, DataOf, FlagsOf;
    assert k < Taken(plan, s, p, q);
    assert k < Sent(plan, s, p, q);
  }

  /** Messages of a link pass each other at most in one round. */
  lemma TakenIff(plan: seq<Round>, s: State, p: nat, q: nat, k: nat)
    requires Plan(|s.procs|, plan) && p < |s.procs| && q < |s.procs| && k < |plan|
    requires Carries(plan[k], |s.procs|, p, q)
    ensures k < Taken(plan, s, p, q) <==> Clock(s, q) > 7 * k + RecvPos(plan[k], |s.procs|, p, q)
    ensures k < Sent(plan, s, p, q) <==> Clock(s, p) > 7 * k + SendPos(plan[k], |s.procs|, p, q)
  {
    hide Carries, Parent, Child;
  }

  /** A process that has sent the signal of a barrier has received those of all earlier barriers, and so has the
      process it signals: at most one signal is on its way. */
  lemma SignalsAlternate(plan: seq<Round>, s: State, p: nat, q: nat, j: nat, k: nat)
    requires Inv(plan, s) && p < |s.procs| && q < |s.procs| && j < k < |plan| && plan[j].Barrier? && plan[k].Barrier?
    requires Carries(plan[j], |s.procs|, p, q) && k < Sent(plan, s, p, q)
    ensures j < Taken(plan, s, p, q)
  {
    hide ProcOk, LinkOk, Parent, Child, Taken, Sent, Clock;
    var n := |s.procs|;
    NotBoth(p, q, 0, n);
    ParentIffChild(p, q, 0, n);
    ParentIffChild(q, p, 0, n);
    TakenIff(plan, s, p, q, j);
    TakenIff(plan, s, p, q, k);
    assert LinkOk(plan, s, q, p);
    if Parent(p, 0, n) == q {
      Causal(plan, s, q, p, j);
    } else {
      Causal(plan, s, q, p, k);
    }
  }

  lemma OneMessageFirst(m: Message, rest: seq<Message>)
    ensures DataOf([m] + rest) == DataOf([m]) + DataOf(rest) && FlagsOf([m] + rest) == FlagsOf([m]) + FlagsOf(rest)
  {
    assert ([m] + rest)[1..] == rest;
  }

  predicate Signalling(plan: seq<Round>, n: nat, p: nat, q: nat, k: nat)
    requires Plan(n, plan) && p < n && q < n && k < |plan|
  {
    plan[k].Barrier? && Carries(plan[k], n, p, q)
  }

  lemma PendingSplits(plan: seq<Round>, n: nat, p: nat, q: nat, lo: nat, hi: nat)
    requires Plan(n, plan) && p < n && q < n && lo < hi <= |plan|
    ensures var rest := Pending(plan, n, p, q, lo + 1, hi);
            && FlagsOf(Pending(plan, n, p, q, lo, hi))
               == FlagsOf(rest) + (if Signalling(plan, n, p, q, lo) then 1 else 0)
            && DataOf(Pending(plan, n, p, q, lo, hi))
               == (if Carries(plan[lo], n, p, q) && !plan[lo].Barrier? then [MessageOf(plan[lo], n, p)] else [])
                  + DataOf(rest)
  {
    hide Carries;
    var m, rest := MessageOf(plan[lo], n, p), Pending(plan, n, p, q, lo + 1, hi);
    OneMessageFirst(m, rest);
    assert [] + rest == rest;
    assert DataOf([m]) == (if plan[lo].Barrier? then [] else [m]) && FlagsOf([m]) == if plan[lo].Barrier? then 1 else 0;
  }

  /** A flag is on its way exactly when some barrier's signal is pending. */
  lemma {:induction false} FlagsIff(plan: seq<Round>, n: nat, p: nat, q: nat, lo: nat, hi: nat)
    requires Plan(n, plan) && p < n && q < n && hi <= |plan|
    ensures FlagsOf(Pending(plan, n, p, q, lo, hi)) > 0 <==> exists k :: lo <= k < hi && Signalling(plan, n, p, q, k)
    decreases hi - lo
  {
    hide Signalling, Carries, Pending;
    if lo < hi {
      FlagsIff(plan, n, p, q, lo + 1, hi);
      PendingSplits(plan, n, p, q, lo, hi);
    } else {
      assert Pending(plan, n, p, q, lo, hi) == [] by { NothingPending(plan, n, p, q, lo, hi); }
    }
  }

  lemma NothingPending(plan: seq<Round>, n: nat, p: nat, q: nat, lo: nat, hi: nat)
    requires Plan(n, plan) && p < n && q < n && hi <= |plan| && lo >= hi
    ensures Pending(plan, n, p, q, lo, hi) == []
  {
  }

  lemma {:induction false} AtMostOneFlag(plan: seq<Round>, n: nat, p: nat, q: nat, lo: nat, hi: nat)
    requires Plan(n, plan) && p < n && q < n && hi <= |plan|
    requires forall j, k :: lo <= j < k < hi ==> !(Signalling(plan, n, p, q, j) && Signalling(plan, n, p, q, k))
    ensures FlagsOf(Pending(plan, n, p, q, lo, hi)) <= 1
    decreases hi - lo
  {
    hide Signalling, Carries, Pending;
    if lo < hi {
      AtMostOneFlag(plan, n, p, q, lo + 1, hi);
      PendingSplits(plan, n, p, q, lo, hi);
      FlagsIff(plan, n, p, q, lo + 1, hi);
    } else {
      NothingPending(plan, n, p, q, lo, hi);
    }
  }

  /** No signal is sent while another one is on its way, so none is lost by setting a flag that is already set. */
  lemma NoSignalIsLost(plan: seq<Round>, s: State, p: nat, q: nat)
    requires Inv(plan, s) && p < |s.procs| && q < |s.procs|
    ensures Signals(s, p, q) <= 1
  {
    hide ProcOk, Signals, Pending, Taken, Sent, Carries;
    assert LinkOk(plan, s, p, q);
    var n, lo, hi := |s.procs|, Taken(plan, s, p, q), Sent(plan, s, p, q);
    forall j, k | lo <= j < k < hi ensures !(Signalling(plan, n, p, q, j) && Signalling(plan, n, p, q, k)) {
      if Signalling(plan, n, p, q, j) && Signalling(plan, n, p, q, k) {
        SignalsAlternate(plan, s, p, q, j, k);
      }
    }
    AtMostOneFlag(plan, n, p, q, lo, hi);
  }

  // ---------------------------------------------------------------------------------------------
  // Links
  // ---------------------------------------------------------------------------------------------

  /** A counter of rounds stays where it is or passes a round in which the link carries nothing. */
  predicate Passes(plan: seq<Round>, n: nat, p: nat, q: nat, k: nat, k': nat)
    requires Plan(n, plan) && p < n && q < n
  {
    k' == k || (k' == k + 1 && k < |plan| && !Carries(plan[k], n, p, q))
  }

  ghost predicate Keeps(plan: seq<Round>, s: State, s': State, p: nat, q: nat)
    requires |s'.procs| == |s.procs| && p < |s.procs| && q < |s.procs| && Plan(|s.procs|, plan)
  {
    && Stored(s', p, q) == Stored(s, p, q) && Signals(s', p, q) == Signals(s, p, q)
    && Passes(plan, |s.procs|, p, q, Taken(plan, s, p, q), Taken(plan, s', p, q))
    && Passes(plan, |s.procs|, p, q, Sent(plan, s, p, q), Sent(plan, s', p, q))
  }

  ghost predicate Sends(plan: seq<Round>, s: State, s': State, p: nat, q: nat)
    requires |s'.procs| == |s.procs| && p < |s.procs| && q < |s.procs| && Plan(|s.procs|, plan)
  {
    var k := Sent(plan, s, p, q);
    && Taken(plan, s', p, q) == Taken(plan, s, p, q) && Sent(plan, s', p, q) == k + 1
    && k < |plan| && Carries(plan[k], |s.procs|, p, q)
    && var m := MessageOf(plan[k], |s.procs|, p);
       Stored(s', p, q) == Stored(s, p, q) + DataOf([m]) && Signals(s', p, q) == Signals(s, p, q) + FlagsOf([m])
  }

  ghost predicate Takes(plan: seq<Round>, s: State, s': State, p: nat, q: nat)
    requires |s'.procs| == |s.procs| && p < |s.procs| && q < |s.procs| && Plan(|s.procs|, plan)
  {
    var k := Taken(plan, s, p, q);
    && Sent(plan, s', p, q) == Sent(plan, s, p, q) && Taken(plan, s', p, q) == k + 1
    && k < |plan| && k < Sent(plan, s, p, q) && Carries(plan[k], |s.procs|, p, q)
    && var m := MessageOf(plan[k], |s.procs|, p);
       DataOf([m]) + Stored(s', p, q) == Stored(s, p, q) && Signals(s, p, q) == Signals(s', p, q) + FlagsOf([m])
  }

  lemma PendingPasses(plan: seq<Round>, n: nat, p: nat, q: nat, lo: nat, lo': nat, hi: nat, hi': nat)
    requires Plan(n, plan) && p < n && q < n && hi <= |plan|
    requires Passes(plan, n, p, q, lo, lo') && Passes(plan, n, p, q, hi, hi')
    ensures hi' <= |plan| && Pending(plan, n, p, q, lo', hi') == Pending(plan, n, p, q, lo, hi)
  {
    hide Carries, MessageOf;
    assert Pending(plan, n, p, q, lo', hi) == Pending(plan, n, p, q, lo, hi);
    if hi' > hi && lo' <= hi {
      PendingExtends(plan, n, p, q, lo', hi);
    }
  }

  lemma LinkKeeps(plan: seq<Round>, s: State, s': State, p: nat, q: nat)
    requires |s'.procs| == |s.procs| && p < |s.procs| && q < |s.procs| && Plan(|s.procs|, plan)
    requires LinkOk(plan, s, p, q) && Keeps(plan, s, s', p, q)
    ensures LinkOk(plan, s', p, q)
  {
    hide Carries, MessageOf, Taken, Sent, Stored, Signals, DataOf, FlagsOf, Pending;
    PendingPasses(plan, |s.procs|, p, q, Taken(plan, s, p, q), Taken(plan, s', p, q),
                  Sent(plan, s, p, q), Sent(plan, s', p, q));
  }

  lemma LinkSends(plan: seq<Round>, s: State, s': State, p: nat, q: nat)
    requires |s'.procs| == |s.procs| && p < |s.procs| && q < |s.procs| && Plan(|s.procs|, plan)
    requires LinkOk(plan, s, p, q) && Sends(plan, s, s', p, q)
    ensures LinkOk(plan, s', p, q)
  {
    hide Carries, MessageOf, Taken, Sent, Stored, Signals, DataOf, FlagsOf, Pending;
    var n, lo, hi := |s.procs|, Taken(plan, s, p, q), Sent(plan, s, p, q);
    PendingExtends(plan, n, p, q, lo, hi);
    OneMoreMessage(Pending(plan, n, p, q, lo, hi), MessageOf(plan[hi], n, p));
  }

  lemma LinkTakes(plan: seq<Round>, s: State, s': State, p: nat, q: nat)
    requires |s'.procs| == |s.procs| && p < |s.procs| && q < |s.procs| && Plan(|s.procs|, plan)
    requires LinkOk(plan, s, p, q) && Takes(plan, s, s', p, q)
    ensures LinkOk(plan, s', p, q)
  {
    hide Carries, Taken, Sent, Stored, Signals, Pending;
    var n, lo, hi := |s.procs|, Taken(plan, s, p, q), Sent(plan, s, p, q);
    var m := MessageOf(plan[lo], n, p);
    PendingSplits(plan, n, p, q, lo, hi);
    assert DataOf([m]) == (if plan[lo].Barrier? then [] else [m]) && FlagsOf([m]) == if plan[lo].Barrier? then 1 else 0;
    assert Stored(s', p, q) == Stored(s, p, q)[|DataOf([m])|..];
  }

  /** The relative a process is about to receive from, or -1. */
  function Sender(plan: seq<Round>, s: State, r: nat): int
    requires r < |s.procs| && Plan(|s.procs|, plan) && s.procs[r].round < |plan|
  {
    var n, root := |s.procs|, Root(plan[s.procs[r].round]);
    match s.procs[r].stage
    case RecvLeft => Left(r, root, n)
    case RecvRight => Right(r, root, n)
    case Await => Parent(r, root, n)
    case _ => -1
  }

  predicate Receiving(stage: Stage) { stage.RecvLeft? || stage.RecvRight? || stage.Await? }

  function After(stage: Stage): Stage
    requires Receiving(stage)
  {
    if stage.RecvLeft? then RecvRight else if stage.RecvRight? then Deliver else SendLeft
  }

  /** The messages of a round reach a process one by one, in the order in which it receives them. */
  lemma ReceivesInOrder(plan: seq<Round>, s: State, r: nat, p: nat)
    requires Plan(|s.procs|, plan) && r < |s.procs| && p < |s.procs| && ProcOk(plan, s, r)
    requires Receiving(s.procs[r].stage)
    ensures s.procs[r].round < |plan| && -1 <= Sender(plan, s, r) < |s.procs|
    ensures s.procs[r].stage.Await? ==> Sender(plan, s, r) >= 0
    ensures var n, round, pos := |s.procs|, plan[s.procs[r].round], Pos(s.procs[r].stage);
            && (p == Sender(plan, s, r) ==> Carries(round, n, p, r) && RecvPos(round, n, p, r) == pos)
            && (p != Sender(plan, s, r) && Carries(round, n, p, r) ==> RecvPos(round, n, p, r) != pos)
  {
    hide Parent, Child, TreeData, CombineAll, Answers;
    var root := Root(plan[s.procs[r].round]);
    ParentIffChild(r, p, root, |s.procs|);
    ParentIffChild(p, r, root, |s.procs|);
    NotBoth(p, r, root, |s.procs|);
  }

  lemma NoFlagInList(plan: seq<Round>, s: State, p: nat, q: nat)
    requires p < |s.procs| && q < |s.procs| && Plan(|s.procs|, plan) && LinkOk(plan, s, p, q)
    ensures forall i :: 0 <= i < |LinkOf(s, p, q).buffer| ==> LinkOf(s, p, q).buffer[i].tag != BARRIER_TAG
  {
    hide Taken, Sent, Carries, Pending, DataOf;
    var b, all := LinkOf(s, p, q).buffer, Pending(plan, |s.procs|, p, q, Taken(plan, s, p, q), Sent(plan, s, p, q));
    forall i | 0 <= i < |b| ensures b[i].tag != BARRIER_TAG {
      assert b[i] == Stored(s, p, q)[i];
      DataHasNoFlags(all, i);
    }
  }

  lemma {:induction false} FindsNoFlag(buffer: seq<Message>)
    requires forall i :: 0 <= i < |buffer| ==> buffer[i].tag != BARRIER_TAG
    ensures FindMatch(buffer, 0, BARRIER_TAG) == |buffer|
  {
    if |buffer| > 0 {
      FindsNoFlag(buffer[1..]);
    }
  }

  /** A process that is about to receive from `from` and finds any message from there in its list finds the one of
      this very round in front, although messages of later rounds may already be behind it. */
  lemma HeadMatches(plan: seq<Round>, s: State, r: nat, from: nat)
    requires Inv(plan, s) && r < |s.procs| && from < |s.procs| && s.procs[r].round < |plan|
    requires !plan[s.procs[r].round].Barrier? && Carries(plan[s.procs[r].round], |s.procs|, from, r)
    requires Pos(s.procs[r].stage) <= RecvPos(plan[s.procs[r].round], |s.procs|, from, r)
    ensures var b, round := LinkOf(s, from, r).buffer, plan[s.procs[r].round];
            |b| > 0 ==> b[0] == MessageOf(round, |s.procs|, from) && FindMatch(b, Size(round), Tag(round)) == 0
                        && s.procs[r].round < Sent(plan, s, from, r)
  {
    hide ProcOk, Carries, RecvPos, Sent, LinkOf, Pending, FlagsOf;
    assert LinkOk(plan, s, from, r);
    var b, n, k, hi := LinkOf(s, from, r).buffer, |s.procs|, s.procs[r].round, Sent(plan, s, from, r);
    if |b| > 0 {
      assert b[0] == Stored(s, from, r)[0];
      if hi <= k {
        NothingPending(plan, n, from, r, k, hi);
      } else {
        PendingSplits(plan, n, from, r, k, hi);
      }
    }
  }

  /** A process that is about to receive the signal of a barrier and finds the flag set finds the signal of this very
      barrier; its list holds nothing for it. */
  lemma FlagMatches(plan: seq<Round>, s: State, r: nat, from: nat)
    requires Inv(plan, s) && r < |s.procs| && from < |s.procs| && s.procs[r].round < |plan|
    requires plan[s.procs[r].round].Barrier? && Carries(plan[s.procs[r].round], |s.procs|, from, r)
    ensures FindMatch(LinkOf(s, from, r).buffer, 0, BARRIER_TAG) == |LinkOf(s, from, r).buffer|
    ensures (from, r) in s.flags && Pos(s.procs[r].stage) <= RecvPos(plan[s.procs[r].round], |s.procs|, from, r) ==>
              s.procs[r].round < Sent(plan, s, from, r)
  {
    hide ProcOk, Carries, RecvPos, Sent, LinkOf, Pending, DataOf;
    assert LinkOk(plan, s, from, r);
    NoFlagInList(plan, s, from, r);
    FindsNoFlag(LinkOf(s, from, r).buffer);
    FlagsIff(plan, |s.procs|, from, r, s.procs[r].round, Sent(plan, s, from, r));
  }

  lemma StepReceives(plan: seq<Round>, s: State, r: nat)
    requires Plan(|s.procs|, plan) && r < |s.procs| && s.procs[r].round < |plan| && Receiving(s.procs[r].stage)
    ensures ProcStep(plan, s, r)
            == Receive(s, r, Sender(plan, s, r), plan[s.procs[r].round], After(s.procs[r].stage))
  {
    hide Receive;
  }

  /** The process has gone on to its next position; what it takes is the message of the sender. */
  lemma ReceiverAdvances(plan: seq<Round>, s: State, s': State, r: nat, p: nat, q: nat)
    requires Inv(plan, s) && r < |s.procs| == |s'.procs| && p < |s.procs| && q < |s.procs|
    requires Receiving(s.procs[r].stage) && s'.procs[r].stage == After(s.procs[r].stage)
    requires s'.procs[r].round == s.procs[r].round && s'.procs == s.procs[r := s'.procs[r]]
    ensures s.procs[r].round < |plan| && Sent(plan, s', p, q) == Sent(plan, s, p, q)
    ensures Taken(plan, s', p, q)
            == if q == r && p == Sender(plan, s, r) then s.procs[r].round + 1 else Taken(plan, s, p, q)
    ensures q == r && p == Sender(plan, s, r) ==>
              Taken(plan, s, p, q) == s.procs[r].round && Carries(plan[s.procs[r].round], |s.procs|, p, r)
  {
    hide LinkOk, Carries, RecvPos, Parent, Child, Sender;
    assert ProcOk(plan, s, r);
    ReceivesInOrder(plan, s, r, p);
  }

  lemma FlagTaken(s: State, r: nat, from: nat, next: Stage)
    requires r < |s.procs| && (from, r) in s.flags
    ensures var s' := Receive(s, r, from, Barrier, next);
            Stored(s', from, r) == Stored(s, from, r) && Signals(s, from, r) == Signals(s', from, r) + 1
  {
    hide DataOf, FlagsOf;
  }

  lemma FrontTaken(s: State, r: nat, from: nat, round: Round, next: Stage)
    requires r < |s.procs| && (from, r) !in s.flags
    requires var b := LinkOf(s, from, r).buffer; |b| > 0 && FindMatch(b, Size(round), Tag(round)) == 0
    ensures var s' := Receive(s, r, from, round, next);
            && [LinkOf(s, from, r).buffer[0]] + Stored(s', from, r) == Stored(s, from, r)
            && Signals(s, from, r) == Signals(s', from, r)
  {
    hide DataOf, FlagsOf, FindMatch;
    var b := LinkOf(s, from, r).buffer;
    assert b == [b[0]] + b[1..] && b[..0] + b[1..] == b[1..];
  }

  lemma OneMessage(m: Message)
    ensures DataOf([m]) == (if m.tag == BARRIER_TAG then [] else [m])
    ensures FlagsOf([m]) == if m.tag == BARRIER_TAG then 1 else 0
  {
  }

  lemma TakesFrom(plan: seq<Round>, s: State, r: nat, from: nat)
    requires Inv(plan, s) && r < |s.procs| && from < |s.procs| && Receiving(s.procs[r].stage)
    requires s.procs[r].round < |plan| && from == Sender(plan, s, r)
    requires var s' := ProcStep(plan, s, r); |s'.procs| == |s.procs| && !s'.stolen && s'.procs != s.procs
    ensures Takes(plan, s, ProcStep(plan, s, r), from, r)
  {
    hide LinkOk, Carries, RecvPos, Taken, Sent, ProcStep, Sender, FindMatch, Stored, Signals, DataOf, FlagsOf;
    assert ProcOk(plan, s, r);
    var s', k, next := ProcStep(plan, s, r), s.procs[r].round, After(s.procs[r].stage);
    ReceivesInOrder(plan, s, r, from);
    StepReceives(plan, s, r);
    ReceiverAdvances(plan, s, s', r, from, r);
    OneMessage(MessageOf(plan[k], |s.procs|, from));
    if plan[k].Barrier? {
      FlagMatches(plan, s, r, from);
      FlagTaken(s, r, from, next);
    } else {
      HeadMatches(plan, s, r, from);
      FrontTaken(s, r, from, plan[k], next);
    }
  }

  lemma LinkReceives(plan: seq<Round>, s: State, r: nat, p: nat, q: nat)
    requires Inv(plan, s) && r < |s.procs| && p < |s.procs| && q < |s.procs| && Receiving(s.procs[r].stage)
    requires |ProcStep(plan, s, r).procs| == |s.procs| && !ProcStep(plan, s, r).stolen
    ensures LinkOk(plan, ProcStep(plan, s, r), p, q)
  {
    hide ProcOk, LinkOk, Carries, RecvPos, Taken, Sent, ProcStep, Sender, FlagsOf, DataOf;
    assert ProcOk(plan, s, r) && LinkOk(plan, s, p, q);
    ReceivesInOrder(plan, s, r, p);
    var s', k, from := ProcStep(plan, s, r), s.procs[r].round, Sender(plan, s, r);
    StepReceives(plan, s, r);
    if s'.procs == s.procs {
      assert s' == s;
    } else {
      ReceiverAdvances(plan, s, s', r, p, q);
      if p == from && q == r {
        TakesFrom(plan, s, r, p);
        LinkTakes(plan, s, s', p, q);
      } else {
        LinkKeeps(plan, s, s', p, q);
      }
    }
  }

  predicate Sending(stage: Stage) { stage.Deliver? || stage.SendLeft? || stage.SendRight? }

  /** The relative a process is about to send to, or -1. */
  function Target(plan: seq<Round>, s: State, r: nat): int
    requires r < |s.procs| && Plan(|s.procs|, plan) && s.procs[r].round < |plan|
  {
    var n, root := |s.procs|, Root(plan[s.procs[r].round]);
    match s.procs[r].stage
    case Deliver => if r == root then -1 else Parent(r, root, n)
    case SendLeft => Left(r, root, n)
    case SendRight => Right(r, root, n)
    case _ => -1
  }

  /** The last operation of a call. */
  predicate Last(round: Round, stage: Stage) { stage.SendRight? || (round.Reduce? && stage.Deliver?) }

  /** A process sends the messages of a round one by one, after it has received those that it needs. */
  lemma SendsInOrder(plan: seq<Round>, s: State, r: nat, q: nat)
    requires Plan(|s.procs|, plan) && r < |s.procs| && q < |s.procs| && ProcOk(plan, s, r)
    requires Sending(s.procs[r].stage)
    ensures s.procs[r].round < |plan| && -1 <= Target(plan, s, r) < |s.procs| && Target(plan, s, r) != r
    ensures var n, round, stage := |s.procs|, plan[s.procs[r].round], s.procs[r].stage;
            && (q == Target(plan, s, r) ==> Carries(round, n, r, q) && SendPos(round, n, r, q) == Pos(stage))
            && (q != Target(plan, s, r) && Carries(round, n, r, q) ==> SendPos(round, n, r, q) != Pos(stage))
            && SendPos(round, n, r, q) != 4 && (stage.Deliver? ==> !round.Bcast?)
            && (Carries(round, n, r, q) && Last(round, stage) ==> SendPos(round, n, r, q) <= Pos(stage))
            && (Carries(round, n, q, r) ==> RecvPos(round, n, q, r) != Pos(stage))
            && (Carries(round, n, q, r) && r == Root(round) ==> RecvPos(round, n, q, r) != 4)
            && (Carries(round, n, q, r) && Last(round, stage) ==> RecvPos(round, n, q, r) < Pos(stage))
  {
    hide Parent, Child, TreeData, CombineAll, Answers;
    var root := Root(plan[s.procs[r].round]);
    ParentIffChild(r, q, root, |s.procs|);
    ParentIffChild(q, r, root, |s.procs|);
    ParentIffChild(r, r, root, |s.procs|);
    NotBoth(q, r, root, |s.procs|);
    NotBoth(r, r, root, |s.procs|);
  }

  /** Where a process goes after sending. */
  predicate Moved(round: Round, r: nat, p: Process, p': Process) {
    if Last(round, p.stage) then p'.stage == Outside && p'.round == p.round + 1
    else
      && p'.round == p.round
      && Pos(p'.stage) == if p.stage.Deliver? && r == Root(round) then 5 else Pos(p.stage) + 1
  }

  lemma SenderAdvances(plan: seq<Round>, s: State, s': State, r: nat, p: nat, q: nat)
    requires Inv(plan, s) && r < |s.procs| == |s'.procs| && p < |s.procs| && q < |s.procs|
    requires Sending(s.procs[r].stage) && s.procs[r].round < |plan|
    requires Moved(plan[s.procs[r].round], r, s.procs[r], s'.procs[r]) && s'.procs == s.procs[r := s'.procs[r]]
    ensures var k := s.procs[r].round;
            && Passes(plan, |s.procs|, p, q, Taken(plan, s, p, q), Taken(plan, s', p, q))
            && (if p == r && q == Target(plan, s, r) then
                  && Taken(plan, s', p, q) == Taken(plan, s, p, q)
                  && Sent(plan, s, p, q) == k && Sent(plan, s', p, q) == k + 1 && Carries(plan[k], |s.procs|, p, q)
                else Passes(plan, |s.procs|, p, q, Sent(plan, s, p, q), Sent(plan, s', p, q)))
  {
    hide LinkOk, Carries, RecvPos, SendPos, Parent, Child, Target;
    assert ProcOk(plan, s, r);
    if p == r { SendsInOrder(plan, s, r, q); }
    if q == r { SendsInOrder(plan, s, r, p); }
  }

  /** Sending adds one message to one link. */
  lemma SendStores(s: State, r: nat, to: int, round: Round, data: seq<byte>, p: nat, q: nat)
    ensures var s' := Send(s, r, to, round, data); var sent := if round.Barrier? then [] else data;
            var m := Message(|sent|, Tag(round), sent);
            if p == r && q == to then
              Stored(s', p, q) == Stored(s, p, q) + DataOf([m]) && Signals(s', p, q) == Signals(s, p, q) + FlagsOf([m])
            else Stored(s', p, q) == Stored(s, p, q) && Signals(s', p, q) == Signals(s, p, q)
  {
    hide DataOf, FlagsOf;
    if p == r && q == to {
      var l := LinkOf(s, p, q);
      var sent := if round.Barrier? then [] else data;
      OneMoreMessage(l.pipe, Message(|sent|, Tag(round), sent));
    }
  }

  /** What is sent is the message of the round. */
  lemma SentMessage(round: Round, n: nat, r: nat, stage: Stage, data: seq<byte>)
    requires Suits(round, n) && r < n && StageOk(round, n, r, stage, data) && Sending(stage)
    ensures var sent := if round.Barrier? then [] else data;
            MessageOf(round, n, r) == Message(|sent|, Tag(round), sent)
  {
  }

  lemma StepSends(plan: seq<Round>, s: State, r: nat) returns (p': Process)
    requires Plan(|s.procs|, plan) && r < |s.procs| && s.procs[r].round < |plan| && Sending(s.procs[r].stage)
    requires plan[s.procs[r].round].Bcast? ==> !s.procs[r].stage.Deliver?
    ensures ProcStep(plan, s, r)
            == Send(SetProc(s, r, p'), r, Target(plan, s, r), plan[s.procs[r].round], s.procs[r].data)
    ensures Moved(plan[s.procs[r].round], r, s.procs[r], p')
  {
    hide Send;
    var round, p := plan[s.procs[r].round], s.procs[r];
    p' := match p.stage
      case Deliver => Delivered(round, r, p)
      case SendLeft => p.(stage := SendRight)
      case _ => Complete(p, if round.Barrier? then [] else p.data);
  }

  lemma LinkSending(plan: seq<Round>, s: State, r: nat, p: nat, q: nat)
    requires Inv(plan, s) && r < |s.procs| && p < |s.procs| && q < |s.procs| && Sending(s.procs[r].stage)
    requires |ProcStep(plan, s, r).procs| == |s.procs|
    ensures LinkOk(plan, ProcStep(plan, s, r), p, q)
  {
    hide LinkOk, Carries, RecvPos, SendPos, Taken, Sent, ProcStep, Target, Stored, Signals, FlagsOf, DataOf, Moved,
         MessageOf, StageOk, Passes;
    assert ProcOk(plan, s, r) && LinkOk(plan, s, p, q);
    SendsInOrder(plan, s, r, q);
    var s', k, to := ProcStep(plan, s, r), s.procs[r].round, Target(plan, s, r);
    var p' := StepSends(plan, s, r);
    SenderAdvances(plan, s, s', r, p, q);
    SendStores(SetProc(s, r, p'), r, to, plan[k], s.procs[r].data, p, q);
    SentMessage(plan[k], |s.procs|, r, s.procs[r].stage, s.procs[r].data);
    SameStores(s, SetProc(s, r, p'), p, q);
    if p == r && q == to {
      LinkSends(plan, s, s', p, q);
    } else {
      LinkKeeps(plan, s, s', p, q);
    }
  }

  lemma SameStores(s: State, s': State, p: nat, q: nat)
    requires s'.links == s.links && s'.flags == s.flags
    ensures Stored(s', p, q) == Stored(s, p, q) && Signals(s', p, q) == Signals(s, p, q)
  {
  }

  /** Entering a call neither sends nor receives. */
  lemma LinkEnter(plan: seq<Round>, s: State, r: nat, p: nat, q: nat)
    requires Inv(plan, s) && r < |s.procs| && p < |s.procs| && q < |s.procs| && s.procs[r].stage == Outside
    requires |ProcStep(plan, s, r).procs| == |s.procs|
    ensures LinkOk(plan, ProcStep(plan, s, r), p, q)
  {
    hide ProcOk, LinkOk, Parent, Child;
    assert LinkOk(plan, s, p, q);
    var s', k := ProcStep(plan, s, r), s.procs[r].round;
    if k < |plan| {
      ParentIffChild(p, r, Root(plan[k]), |s.procs|);
      NotBoth(r, q, Root(plan[k]), |s.procs|);
      SameStores(s, s', p, q);
      LinkKeeps(plan, s, s', p, q);
    }
  }

  lemma LinkArrives(plan: seq<Round>, s: State, p: nat, q: nat, u: nat, v: nat)
    requires Inv(plan, s) && u < |s.procs| && v < |s.procs|
    ensures LinkOk(plan, Arrive(s, p, q), u, v)
  {
    hide ProcOk, LinkOk, Taken, Sent, Carries;
    assert LinkOk(plan, s, u, v);
    var s', pipe := Arrive(s, p, q), LinkOf(s, p, q).pipe;
    if pipe != [] && u == p && v == q {
      NoSignalIsLost(plan, s, p, q);
      ArriveStores(s, p, q);
    }
    assert SameClocks(s, s');
    SameTaken(plan, s, s', u, v);
    LinkKeeps(plan, s, s', u, v);
  }

  predicate SameClocks(s: State, s': State) { s'.procs == s.procs }

  lemma SameTaken(plan: seq<Round>, s: State, s': State, p: nat, q: nat)
    requires Plan(|s.procs|, plan) && p < |s.procs| && q < |s.procs| && SameClocks(s, s')
    ensures Taken(plan, s', p, q) == Taken(plan, s, p, q) && Sent(plan, s', p, q) == Sent(plan, s, p, q)
  {
  }

  lemma ArriveStores(s: State, p: nat, q: nat)
    requires LinkOf(s, p, q).pipe != [] && Signals(s, p, q) <= 1
    ensures var s' := Arrive(s, p, q); Stored(s', p, q) == Stored(s, p, q) && Signals(s', p, q) == Signals(s, p, q)
  {
    var l := LinkOf(s, p, q);
    OneMessageFirst(l.pipe[0], l.pipe[1..]);
    assert [l.pipe[0]] + l.pipe[1..] == l.pipe;
    OneMessage(l.pipe[0]);
  }

  lemma LinkInv(plan: seq<Round>, s: State, a: Actor, p: nat, q: nat)
    requires Inv(plan, s) && p < |s.procs| && q < |s.procs| && |Step(plan, s, a).procs| == |s.procs|
    requires !s.stolen && !Step(plan, s, a).stolen
    ensures LinkOk(plan, Step(plan, s, a), p, q)
  {
    hide ProcOk, LinkOk, ProcStep, Arrive;
    assert LinkOk(plan, s, p, q);
    match a
    case Receiver(u, v) => LinkArrives(plan, s, u, v, p, q);
    case Proc(r) =>
      if r < |s.procs| {
        if Receiving(s.procs[r].stage) {
          LinkReceives(plan, s, r, p, q);
        } else if Sending(s.procs[r].stage) {
          LinkSending(plan, s, r, p, q);
        } else {
          LinkEnter(plan, s, r, p, q);
        }
      }
  }

  // ---------------------------------------------------------------------------------------------
  // Processes
  // ---------------------------------------------------------------------------------------------

  /** Receiving from a child merges its subtree; a child that does not exist has none. */
  lemma MergesChild(round: Round, n: nat, r: nat, stage: Stage, data: seq<byte>, child: int)
    requires Suits(round, n) && round.Reduce? && r < n && StageOk(round, n, r, stage, data) && Receiving(stage)
    requires child == if stage.RecvLeft? then Left(r, Root(round), n) else Right(r, Root(round), n)
    ensures child < n
    ensures child < 0 ==> StageOk(round, n, r, After(stage), data)
    ensures child >= 0 ==>
              StageOk(round, n, r, After(stage), CombineAll(round.call.op, data, MessageOf(round, n, child).data))
  {
    hide TreeData, CombineAll, Relative, Absolute;
    var call := round.call;
    MergedChildren(call, r);
    var y := 2 * Relative(r, call.root, n) + if stage.RecvLeft? then 1 else 2;
    if y >= n {
      NoChild(call, data, y);
    } else {
      Rotation(y, call.root, n);
    }
  }

  lemma ReceivedData(plan: seq<Round>, s: State, r: nat)
    requires Inv(plan, s) && r < |s.procs| && Receiving(s.procs[r].stage)
    requires |ProcStep(plan, s, r).procs| == |s.procs|
    ensures ProcOk(plan, ProcStep(plan, s, r), r)
  {
    hide LinkOk, Carries, RecvPos, TreeData, CombineAll, Parent, Child, Relative, ProcStep;
    assert ProcOk(plan, s, r);
    ReceivesInOrder(plan, s, r, r);
    StepReceives(plan, s, r);
    var n, p := |s.procs|, s.procs[r];
    var round, from := plan[p.round], Sender(plan, s, r);
    if from >= 0 {
      ReceivesInOrder(plan, s, r, from);
      if round.Barrier? {
        FlagMatches(plan, s, r, from);
      } else {
        HeadMatches(plan, s, r, from);
      }
    }
    if round.Reduce? {
      MergesChild(round, n, r, p.stage, p.data, from);
    }
  }

  lemma ProcInv(plan: seq<Round>, s: State, r: nat)
    requires Inv(plan, s) && r < |s.procs| && |ProcStep(plan, s, r).procs| == |s.procs|
    ensures ProcOk(plan, ProcStep(plan, s, r), r)
  {
    hide LinkOk, TreeData;
    assert ProcOk(plan, s, r);
    if Receiving(s.procs[r].stage) {
      ReceivedData(plan, s, r);
    } else if s.procs[r].round < |plan| {
      Rotation(r, Root(plan[s.procs[r].round]), |s.procs|);
    }
  }

  /** `s'` differs from `s` at most in process `r`, as far as processes go. */
  predicate OnlyProc(s: State, s': State, r: nat) {
    |s'.procs| == |s.procs| && forall u :: 0 <= u < |s.procs| && u != r ==> s'.procs[u] == s.procs[u]
  }

  lemma ReceiveShape(s: State, r: nat, from: int, round: Round, next: Stage)
    requires r < |s.procs|
    ensures OnlyProc(s, Receive(s, r, from, round, next), r)
  {
    hide Merged, LinkOf;
  }

  lemma SendShape(s: State, r: nat, p': Process, to: int, round: Round, data: seq<byte>)
    requires r < |s.procs|
    ensures OnlyProc(s, Send(SetProc(s, r, p'), r, to, round, data), r)
  {
  }

  lemma ProcShape(plan: seq<Round>, s: State, r: nat)
    requires Plan(|s.procs|, plan) && r < |s.procs|
    ensures OnlyProc(s, ProcStep(plan, s, r), r)
  {
    hide Enter, Complete, Delivered, Receive, Send, OnlyProc;
    var n, p := |s.procs|, s.procs[r];
    if p.round < |plan| {
      var round := plan[p.round];
      if Receiving(p.stage) {
        ReceiveShape(s, r, Sender(plan, s, r), round, After(p.stage));
      } else {
        forall p', to ensures OnlyProc(s, Send(SetProc(s, r, p'), r, to, round, p.data), r) {
          SendShape(s, r, p', to, round, p.data);
        }
        forall p' ensures OnlyProc(s, SetProc(s, r, p'), r) {
          EnterShape(s, r, p');
        }
      }
    } else {
      EnterShape(s, r, p);
    }
  }

  lemma EnterShape(s: State, r: nat, p': Process)
    requires r < |s.procs|
    ensures OnlyProc(s, SetProc(s, r, p'), r) && OnlyProc(s, s, r)
  {
  }

  /** A step changes at most the process that makes it. */
  lemma StepShape(plan: seq<Round>, s: State, a: Actor)
    requires Plan(|s.procs|, plan)
    ensures var s' := Step(plan, s, a);
            && |s'.procs| == |s.procs| && (s.stolen ==> s' == s)
            && forall u :: 0 <= u < |s.procs| && a != Proc(u) ==> s'.procs[u] == s.procs[u]
  {
    hide ProcStep, LinkOf;
    if a.Proc? && a.r < |s.procs| {
      ProcShape(plan, s, a.r);
    }
  }

  lemma StepInv(plan: seq<Round>, s: State, a: Actor)
    requires Inv(plan, s) && !s.stolen
    ensures |Step(plan, s, a).procs| == |s.procs|
    ensures !Step(plan, s, a).stolen ==> Inv(plan, Step(plan, s, a))
  {
    hide ProcStep, Arrive, LinkOk, StageOk, Answers;
    var s' := Step(plan, s, a);
    StepShape(plan, s, a);
    if !s'.stolen {
      forall u | 0 <= u < |s.procs| ensures ProcOk(plan, s', u) {
        assert ProcOk(plan, s, u);
        if a == Proc(u) {
          ProcInv(plan, s, u);
        }
      }
      forall p, q | 0 <= p < |s.procs| && 0 <= q < |s.procs| ensures LinkOk(plan, s', p, q) {
        LinkInv(plan, s, a, p, q);
      }
    }
  }

  lemma InitInv(n: nat, plan: seq<Round>)
    requires Plan(n, plan)
    ensures Inv(plan, Init(n))
  {
  }

  // ---------------------------------------------------------------------------------------------
  // All runs
  // ---------------------------------------------------------------------------------------------

  ghost function Run(n: nat, plan: seq<Round>, schedule: seq<Actor>): (s: State)
    requires Plan(n, plan)
    ensures |s.procs| == n && (!s.stolen ==> Inv(plan, s))
  {
    if |schedule| == 0 then
      InitInv(n, plan);
      Init(n)
    else
      var s := Run(n, plan, schedule[..|schedule| - 1]);
      var a := schedule[|schedule| - 1];
      StepShape(plan, s, a);
      assert !s.stolen ==> !Step(plan, s, a).stolen ==> Inv(plan, Step(plan, s, a)) by {
        if !s.stolen { StepInv(plan, s, a); }
      }
      Step(plan, s, a)
  }

  /** A broadcast ends with the data of its root, and the root of a reduction ends with the sum or product modulo 256,
      the maximum or the minimum of the data of all ranks, byte by byte. */
  ghost predicate Correct(round: Round, r: nat, result: seq<byte>)
    requires round.Reduce? ==> Valid(round.call)
  {
    match round
    case Barrier => true
    case Bcast(_, payload) => result == payload
    case Reduce(call) =>
      r == call.root ==>
        && |result| == call.count
        && forall j, column :: 0 <= j < call.count && IsColumn(call, j, column) ==> Amounts(call.op, column, result[j])
  }

  /** Byte `j` of all processes. */
  ghost predicate IsColumn(call: Call, j: nat, column: seq<byte>)
    requires Valid(call) && j < call.count
  {
    |column| == |call.data| && forall r :: 0 <= r < |column| ==> column[r] == call.data[r][j]
  }

  /** In every interleaving, every completed call of every process has the right result. */
  lemma EveryCallAnswers(n: nat, plan: seq<Round>, schedule: seq<Actor>, r: nat, k: nat)
    requires Plan(n, plan) && r < n && !Run(n, plan, schedule).stolen
    requires k < Run(n, plan, schedule).procs[r].round
    ensures var results := Run(n, plan, schedule).procs[r].results;
            k < |results| && k < |plan| && Correct(plan[k], r, results[k])
  {
    hide Run, Amounts, Column;
    assert ProcOk(plan, Run(n, plan, schedule), r);
    if plan[k].Reduce? {
      var call := plan[k].call;
      forall j, column | 0 <= j < call.count && IsColumn(call, j, column)
        ensures Amounts(call.op, column, TreeData(call, 0)[j])
      {
        ColumnAmounts(call, j, column);
      }
    }
  }

  lemma ColumnAmounts(call: Call, j: nat, column: seq<byte>)
    requires Valid(call) && j < call.count && IsColumn(call, j, column)
    ensures Amounts(call.op, column, TreeData(call, 0)[j])
  {
    hide Fold, Amounts, TreeData;
    assert column == Column(call, j);
    FoldAmounts(call.op, column);
    WholeTree(call, j);
  }

  /** A process past position 4 of a barrier has heard, by way of the root, from everybody. */
  lemma {:induction false} HeardUp(plan: seq<Round>, s: State, k: nat, r: nat)
    requires Inv(plan, s) && k < |plan| && plan[k].Barrier? && r < |s.procs| && Clock(s, r) > 7 * k + 4
    ensures Clock(s, 0) > 7 * k + 3
    decreases Relative(r, 0, |s.procs|)
  {
    hide ProcOk, LinkOk, Clock, Relative, Parent, Child;
    var n := |s.procs|;
    ParentIffChild(r, r, 0, n);
    if r != 0 {
      var parent := Parent(r, 0, n);
      assert LinkOk(plan, s, parent, r);
      Causal(plan, s, parent, r, k);
      NotBoth(parent, r, 0, n);
      Higher(r, 0, n);
      HeardUp(plan, s, k, parent);
    }
  }

  lemma Higher(r: nat, root: nat, n: nat)
    requires r < n && root < n && r != root
    ensures 0 <= Parent(r, root, n) < n && Relative(Parent(r, root, n), root, n) < Relative(r, root, n)
  {
    hide Relative, Absolute;
    Rotation(r, root, n);
    Rotation((Relative(r, root, n) - 1) / 2, root, n);
  }

  lemma {:induction false} HeardDown(plan: seq<Round>, s: State, k: nat, r: nat)
    requires Inv(plan, s) && k < |plan| && plan[k].Barrier? && r < |s.procs| && Clock(s, 0) > 7 * k + 3
    ensures Clock(s, r) > 7 * k + 2
    decreases Relative(r, 0, |s.procs|)
  {
    hide ProcOk, LinkOk, Clock, Relative, Parent, Child;
    var n := |s.procs|;
    if r != 0 {
      Higher(r, 0, n);
      var parent := Parent(r, 0, n);
      HeardDown(plan, s, k, parent);
      ParentIffChild(parent, r, 0, n);
      NotBoth(parent, r, 0, n);
      assert LinkOk(plan, s, r, parent);
      Causal(plan, s, r, parent, k);
    }
  }

  /** No process returns from a barrier before every process has entered it, whatever the other calls are. */
  lemma BarrierSeparates(n: nat, plan: seq<Round>, schedule: seq<Actor>, k: nat, r: nat, q: nat)
    requires Plan(n, plan) && k < |plan| && plan[k].Barrier? && r < n && q < n && !Run(n, plan, schedule).stolen
    requires Run(n, plan, schedule).procs[r].round > k
    ensures var p := Run(n, plan, schedule).procs[q]; p.round > k || (p.round == k && p.stage != Outside)
  {
    hide Run;
    var s := Run(n, plan, schedule);
    HeardUp(plan, s, k, r);
    HeardDown(plan, s, k, q);
  }

  // ---------------------------------------------------------------------------------------------
  // Progress
  // ---------------------------------------------------------------------------------------------

  /** The process can make a step: it does not wait for a message. */
  predicate Movable(plan: seq<Round>, s: State, r: nat)
    requires r < |s.procs| && Plan(|s.procs|, plan)
  {
    && s.procs[r].round < |plan|
    && (Receiving(s.procs[r].stage) ==>
          var from := Sender(plan, s, r);
          from < 0 || (from as nat, r) in s.flags
          || (!plan[s.procs[r].round].Barrier? && |LinkOf(s, from, r).buffer| > 0))
  }

  lemma ReceiveMoves(plan: seq<Round>, s: State, r: nat)
    requires Inv(plan, s) && r < |s.procs| && Movable(plan, s, r) && Receiving(s.procs[r].stage)
    ensures var s' := ProcStep(plan, s, r);
            |s'.procs| == |s.procs| && (s'.stolen || Clock(s', r) == Clock(s, r) + 1)
  {
    hide LinkOk, Carries, RecvPos, Sender, ProcStep, FindMatch, Merged;
    assert ProcOk(plan, s, r);
    StepReceives(plan, s, r);
    ReceivesInOrder(plan, s, r, r);
    var from := Sender(plan, s, r);
    if from >= 0 {
      ReceivesInOrder(plan, s, r, from);
      if !plan[s.procs[r].round].Barrier? {
        HeadMatches(plan, s, r, from);
      }
    }
  }

  lemma OtherwiseMoves(plan: seq<Round>, s: State, r: nat)
    requires Plan(|s.procs|, plan) && r < |s.procs| && ProcOk(plan, s, r)
    requires s.procs[r].round < |plan| && !Receiving(s.procs[r].stage)
    ensures var s' := ProcStep(plan, s, r);
            && |s'.procs| == |s.procs| && s'.stolen == s.stolen
            && Clock(s, r) < Clock(s', r) <= 7 * s.procs[r].round + 7
  {
    hide Answers, TreeData, CombineAll, Parent, Child;
  }

  lemma MovableMoves(plan: seq<Round>, s: State, r: nat)
    requires Inv(plan, s) && !s.stolen && r < |s.procs| && Movable(plan, s, r)
    ensures var s' := Step(plan, s, Proc(r));
            |s'.procs| == |s.procs| && (s'.stolen || Clock(s, r) < Clock(s', r) <= 7 * s.procs[r].round + 7)
  {
    hide LinkOk, ProcOk, ProcStep, Sender;
    if Receiving(s.procs[r].stage) {
      ReceiveMoves(plan, s, r);
    } else {
      OtherwiseMoves(plan, s, r);
    }
  }

  /** If a process waits and nothing from its sender is on its way, then the sender has not sent it yet. */
  lemma NothingSent(plan: seq<Round>, s: State, r: nat, from: nat)
    requires Inv(plan, s) && r < |s.procs| && from < |s.procs| && s.procs[r].round < |plan|
    requires Receiving(s.procs[r].stage) && from == Sender(plan, s, r)
    requires !Movable(plan, s, r) && LinkOf(s, from, r).pipe == []
    ensures Clock(s, from) <= 7 * s.procs[r].round + SendPos(plan[s.procs[r].round], |s.procs|, from, r)
  {
    hide Carries, RecvPos, SendPos, Pending, Sender, Sent, StageOk, Answers, Clock;
    var n, k, hi := |s.procs|, s.procs[r].round, Sent(plan, s, from, r);
    assert ProcOk(plan, s, r) && LinkOk(plan, s, from, r);
    ReceivesInOrder(plan, s, r, from);
    TakenIff(plan, s, from, r, k);
    if k < hi {
      PendingSplits(plan, n, from, r, k, hi);
    }
  }

  function Distance(round: Round, n: nat, r: nat, pos: nat): nat
    requires Suits(round, n) && r < n
  {
    if pos >= 4 then n + 1 + Relative(r, Root(round), n) else n - Relative(r, Root(round), n)
  }

  lemma Closer(plan: seq<Round>, s: State, r: nat)
    requires Plan(|s.procs|, plan) && r < |s.procs| && ProcOk(plan, s, r) && Receiving(s.procs[r].stage)
    requires s.procs[r].round < |plan| && Sender(plan, s, r) >= 0
    ensures var n, from, round, stage := |s.procs|, Sender(plan, s, r), plan[s.procs[r].round], s.procs[r].stage;
            && from < n
            && (forall pos :: 0 <= pos <= SendPos(round, n, from, r) ==>
                  Distance(round, n, from, pos) < Distance(round, n, r, Pos(stage)))
  {
    var n, from, root := |s.procs|, Sender(plan, s, r), Root(plan[s.procs[r].round]);
    hide Relative, Parent, Child;
    ReceivesInOrder(plan, s, r, r);
    ReceivesInOrder(plan, s, r, from);
    NotBoth(from, r, root, n);
    ParentIffChild(r, from, root, n);
    ParentIffChild(from, r, root, n);
    Rotation(r, root, n);
    Rotation(from, root, n);
    if s.procs[r].stage.Await? { Higher(r, root, n); } else { Higher(from, root, n); }
  }

  /** While a process has calls left, it can move, or a message to it can, or somebody it waits for. */
  lemma {:induction false} SomebodyMoves(plan: seq<Round>, s: State, r: nat) returns (a: Actor)
    requires Inv(plan, s) && !s.stolen && r < |s.procs| && s.procs[r].round < |plan|
    ensures Step(plan, s, a) != s
    ensures a.Proc? ==> a.r < |s.procs| && s.procs[a.r].round <= s.procs[r].round
    decreases s.procs[r].round, Distance(plan[s.procs[r].round], |s.procs|, r, Pos(s.procs[r].stage))
  {
    hide LinkOk, Carries, RecvPos, SendPos, StageOk, Answers, Sender, Movable, Distance, ProcStep;
    assert ProcOk(plan, s, r);
    var k := s.procs[r].round;
    if Movable(plan, s, r) {
      a := Proc(r);
      MovableMoves(plan, s, r);
    } else {
      Waits(plan, s, r);
      var from := Sender(plan, s, r);
      ReceivesInOrder(plan, s, r, r);
      if LinkOf(s, from, r).pipe != [] {
        a := Receiver(from, r);
      } else {
        NothingSent(plan, s, r, from);
        Closer(plan, s, r);
        SendsWithin(plan[k], |s.procs|, from, r);
        a := SomebodyMoves(plan, s, from);
      }
    }
  }

  lemma SendsWithin(round: Round, n: nat, p: nat, q: nat)
    requires Suits(round, n) && p < n && q < n
    ensures SendPos(round, n, p, q) in {3, 5, 6} && RecvPos(round, n, p, q) in {1, 2, 4}
  {
  }

  lemma Waits(plan: seq<Round>, s: State, r: nat)
    requires Plan(|s.procs|, plan) && r < |s.procs| && s.procs[r].round < |plan| && !Movable(plan, s, r)
    ensures Receiving(s.procs[r].stage) && Sender(plan, s, r) >= 0
  {
  }

  predicate Entered(p: Process, k: nat) { p.round > k || (p.round == k && p.stage != Outside) }

  /** A sequence of calls never gets stuck before every process has completed all of them; and as soon as all have
      entered a call, it goes on although no process enters another one. */
  lemma CollectivesMakeProgress(n: nat, plan: seq<Round>, schedule: seq<Actor>, r: nat)
    requires Plan(n, plan) && r < n && !Run(n, plan, schedule).stolen
    requires Run(n, plan, schedule).procs[r].round < |plan|
    ensures var s := Run(n, plan, schedule);
            exists a :: Step(plan, s, a) != s
                        && ((forall q :: 0 <= q < n ==> Entered(s.procs[q], s.procs[r].round)) ==>
                              a.Proc? ==> a.r < n && s.procs[a.r].stage != Outside)
  {
    hide Run;
    var a := SomebodyMoves(plan, Run(n, plan, schedule), r);
  }
}
