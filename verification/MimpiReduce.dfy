/** The arithmetic of `MIMPI_Reduce` of mimpi.c: merging along the tree gives the fold over all ranks, for any number
    of ranks, any root, any byte count and any of the four operations. */
module MimpiReduce {
  import opened MimpiTree

  type byte = x: int | 0 <= x < 256

  datatype Operation = Max | Min | Sum | Prod

  /** Unsigned 8-bit arithmetic. */
  function Combine(op: Operation, a: byte, b: byte): byte {
    match op
    case Sum => (a + b) % 256
    case Max => if a < b then b else a
    case Min => if a > b then b else a
    case Prod => (a * b) % 256
  }

  function Unit(op: Operation): byte {
    match op
    case Sum => 0
    case Max => 0
    case Min => 255
    case Prod => 1
  }

  function Fold(op: Operation, s: seq<byte>): byte {
    if |s| == 0 then Unit(op) else Combine(op, s[0], Fold(op, s[1..]))
  }

  // ---------------------------------------------------------------------------------------------
  // What the results are, in integer arithmetic
  // ---------------------------------------------------------------------------------------------

  function Total(s: seq<byte>): int {
    if |s| == 0 then 0 else s[0] + Total(s[1..])
  }

  function Product(s: seq<byte>): int {
    if |s| == 0 then 1 else s[0] * Product(s[1..])
  }

  /** The result `v` of an operation on a column of bytes: the sum or product of all of them reduced to a byte, or the
      greatest or least of them. */
  ghost predicate Amounts(op: Operation, column: seq<byte>, v: byte) {
    match op
    case Sum => v == Total(column) % 256
    case Prod => v == Product(column) % 256
    case Max => v in column && forall i :: 0 <= i < |column| ==> column[i] <= v
    case Min => v in column && forall i :: 0 <= i < |column| ==> column[i] >= v
  }

  lemma {:induction false} FoldOfSums(s: seq<byte>)
    ensures Fold(Sum, s) == Total(s) % 256
  {
    if |s| > 0 {
      FoldOfSums(s[1..]);
    }
  }

  lemma {:induction false} FoldOfProducts(s: seq<byte>)
    ensures Fold(Prod, s) == Product(s) % 256
  {
    if |s| > 0 {
      FoldOfProducts(s[1..]);
      var p: int := Product(s[1..]);
      ProductOfRemainder(s[0], p);
    }
  }

  lemma {:induction false} FoldOfBounds(op: Operation, s: seq<byte>)
    requires |s| > 0 && (op == Max || op == Min)
    ensures Amounts(op, s, Fold(op, s))
  {
    if |s| == 1 {
      assert Fold(op, s[1..]) == Unit(op);
    } else {
      FoldOfBounds(op, s[1..]);
      assert forall i :: 0 < i < |s| ==> s[i] == s[1..][i - 1];
      if Fold(op, s) != s[0] {
        assert Fold(op, s) in s[1..];
      }
    }
  }

  /** The fold of an operation over a column is its sum or product modulo 256, its maximum or its minimum. */
  lemma FoldAmounts(op: Operation, s: seq<byte>)
    requires |s| > 0
    ensures Amounts(op, s, Fold(op, s))
  {
    match op
    case Sum => FoldOfSums(s);
    case Prod => FoldOfProducts(s);
    case _ => FoldOfBounds(op, s);
  }

  lemma PairAmounts(op: Operation, a: byte, b: byte)
    ensures Amounts(op, [a, b], Combine(op, a, b))
  {
    hide Combine, Amounts;
    FoldAmounts(op, [a, b]);
    assert [a, b][1..] == [b] && [b][1..] == [];
    assert Fold(op, [b]) == Combine(op, b, Unit(op));
    HasUnit(op, b);
  }

  /** The loop that merges a received buffer into the own one. */
  method CombineInto(op: Operation, buffer: array<byte>, received: seq<byte>)
    requires |received| == buffer.Length
    modifies buffer
    ensures buffer[..] == CombineAll(op, old(buffer[..]), received)
    ensures forall i :: 0 <= i < buffer.Length ==> Amounts(op, [old(buffer[i]), received[i]], buffer[i])
  {
    var j := 0;
    while j < buffer.Length
      invariant j <= buffer.Length
      invariant forall i :: 0 <= i < j ==> buffer[i] == Combine(op, old(buffer[i]), received[i])
      invariant forall i :: j <= i < buffer.Length ==> buffer[i] == old(buffer[i])
    {
      buffer[j] := Combine(op, buffer[j], received[j]);
      j := j + 1;
    }
    forall i | 0 <= i < buffer.Length ensures Amounts(op, [old(buffer[i]), received[i]], buffer[i]) {
      PairAmounts(op, old(buffer[i]), received[i]);
    }
  }

  function CombineAll(op: Operation, a: seq<byte>, b: seq<byte>): (c: seq<byte>)
    ensures |c| == |a|
  {
    if |a| != |b| then a else seq(|a|, j requires 0 <= j < |a| => Combine(op, a[j], b[j]))
  }

  // ---------------------------------------------------------------------------------------------
  // The four operations are commutative monoids
  // ---------------------------------------------------------------------------------------------

  lemma ModProduct(x: int, c: int)
    ensures ((x % 256) * c) % 256 == (x * c) % 256
  {
    var q, r := x / 256, x % 256;
    assert x * c == 256 * (q * c) + r * c;
    AddMultiple(r * c, q * c);
  }

  lemma ProductOfRemainder(a: int, x: int)
    ensures (a * (x % 256)) % 256 == (a * x) % 256
  {
    ModProduct(x, a);
    assert a * (x % 256) == (x % 256) * a && a * x == x * a;
  }

  lemma AddMultiple(a: int, k: int)
    ensures (256 * k + a) % 256 == a % 256
  {
  }

  lemma Associative(op: Operation, a: byte, b: byte, c: byte)
    ensures Combine(op, Combine(op, a, b), c) == Combine(op, a, Combine(op, b, c))
  {
    if op == Prod {
      AssociativeProduct(a, b, c);
    } else if op == Sum {
      AssociativeSum(a, b, c);
    }
  }

  lemma AssociativeSum(a: byte, b: byte, c: byte)
    ensures ((a + b) % 256 + c) % 256 == (a + (b + c) % 256) % 256
  {
  }

  lemma AssociativeProduct(a: byte, b: byte, c: byte)
    ensures ((a * b) % 256 * c) % 256 == (a * ((b * c) % 256)) % 256
  {
    ModProduct(a * b, c);
    ModProduct(b * c, a);
    assert (a * b) * c == (b * c) * a;
  }

  lemma Commutative(op: Operation, a: byte, b: byte)
    ensures Combine(op, a, b) == Combine(op, b, a)
  {
  }

  lemma HasUnit(op: Operation, a: byte)
    ensures Combine(op, a, Unit(op)) == a && Combine(op, Unit(op), a) == a
  {
  }

  lemma {:induction false} FoldConcat(op: Operation, a: seq<byte>, b: seq<byte>)
    ensures Fold(op, a + b) == Combine(op, Fold(op, a), Fold(op, b))
  {
    if |a| == 0 {
      assert a + b == b;
      HasUnit(op, Fold(op, b));
    } else {
      assert (a + b)[1..] == a[1..] + b;
      FoldConcat(op, a[1..], b);
      Associative(op, a[0], Fold(op, a[1..]), Fold(op, b));
    }
  }

  /** The order of the values does not matter as far as rotations go. */
  lemma FoldRotation(op: Operation, s: seq<byte>, k: nat)
    requires k <= |s|
    ensures Fold(op, s[k..] + s[..k]) == Fold(op, s)
  {
    FoldConcat(op, s[k..], s[..k]);
    FoldConcat(op, s[..k], s[k..]);
    Commutative(op, Fold(op, s[k..]), Fold(op, s[..k]));
    assert s[..k] + s[k..] == s;
  }

  lemma {:induction false} FoldUpdate(op: Operation, s: seq<byte>, p: nat, v: byte)
    requires p < |s|
    ensures Fold(op, s[p := Combine(op, s[p], v)]) == Combine(op, Fold(op, s), v)
  {
    var s' := s[p := Combine(op, s[p], v)];
    var rest := Fold(op, s[1..]);
    if p == 0 {
      assert s'[1..] == s[1..];
      Associative(op, s[0], v, rest);
      Commutative(op, v, rest);
    } else {
      assert s'[1..] == s[1..][p - 1 := Combine(op, s[1..][p - 1], v)];
      FoldUpdate(op, s[1..], p - 1, v);
    }
    Associative(op, s[0], rest, v);
  }

  // ---------------------------------------------------------------------------------------------
  // Folding along the heap-shaped tree is folding along the array
  // ---------------------------------------------------------------------------------------------

  /** What arrives at node `x`: its own value, merged with its left and then with its right subtree. */
  function TreeFold(op: Operation, s: seq<byte>, x: nat): byte
    decreases |s| - x
  {
    if x >= |s| then Unit(op)
    else Combine(op, Combine(op, s[x], TreeFold(op, s, 2 * x + 1)), TreeFold(op, s, 2 * x + 2))
  }

  /** The value of `x` merged with the subtrees of those children whose index is at least `m`. */
  function Part(op: Operation, s: seq<byte>, m: nat, x: nat): byte
    requires x < |s|
  {
    Combine(op, Combine(op, s[x], if 2 * x + 1 >= m then TreeFold(op, s, 2 * x + 1) else Unit(op)),
                if 2 * x + 2 >= m then TreeFold(op, s, 2 * x + 2) else Unit(op))
  }

  function Parts(op: Operation, s: seq<byte>, m: nat): seq<byte>
    requires m <= |s|
  {
    seq(m, x requires 0 <= x < m => Part(op, s, m, x))
  }

  lemma LastPart(op: Operation, s: seq<byte>, m: nat)
    requires m < |s|
    ensures Part(op, s, m + 1, m) == TreeFold(op, s, m)
  {
  }

  /** Merging the last node of a heap into its parent does not change the fold. */
  lemma MergeLast(op: Operation, s: seq<byte>, m: nat)
    requires 1 <= m < |s|
    ensures Fold(op, Parts(op, s, m)) == Fold(op, Parts(op, s, m + 1))
  {
    hide Combine, TreeFold, Part, Unit;
    var p := (m - 1) / 2;
    var all, fewer := Parts(op, s, m + 1), Parts(op, s, m);
    var last := TreeFold(op, s, m);
    var most := all[..m];
    LastPart(op, s, m);
    assert all == most + [last];
    FoldConcat(op, most, [last]);
    HasUnit(op, last);
    FoldUpdate(op, most, p, last);
    MergePart(op, s, m);
    forall x | 0 <= x < m ensures fewer[x] == most[p := Combine(op, most[p], last)][x] {
      if x != p {
        SamePart(op, s, m, x);
      }
    }
    assert fewer == most[p := Combine(op, most[p], last)];
  }

  lemma SamePart(op: Operation, s: seq<byte>, m: nat, x: nat)
    requires m < |s| && x < |s| && 2 * x + 1 != m && 2 * x + 2 != m
    ensures Part(op, s, m, x) == Part(op, s, m + 1, x)
  {
    hide Combine, TreeFold;
  }

  lemma MergePart(op: Operation, s: seq<byte>, m: nat)
    requires 1 <= m < |s|
    ensures var p := (m - 1) / 2;
            Part(op, s, m, p) == Combine(op, Part(op, s, m + 1, p), TreeFold(op, s, m))
  {
    var p := (m - 1) / 2;
    var t := TreeFold(op, s, m);
    HasUnit(op, s[p]);
    HasUnit(op, Combine(op, s[p], t));
    if m == 2 * p + 1 {
      var right := TreeFold(op, s, 2 * p + 2);
      Associative(op, s[p], t, right);
      Commutative(op, t, right);
      Associative(op, s[p], right, t);
    }
  }

  lemma {:induction false} PartsFold(op: Operation, s: seq<byte>, m: nat)
    requires 1 <= m <= |s|
    ensures Fold(op, Parts(op, s, m)) == Fold(op, s)
    decreases |s| - m
  {
    if m == |s| {
      forall x | 0 <= x < |s| ensures Part(op, s, m, x) == s[x] {
        HasUnit(op, s[x]);
      }
      assert Parts(op, s, m) == s;
    } else {
      PartsFold(op, s, m + 1);
      MergeLast(op, s, m);
    }
  }

  lemma TreeIsFold(op: Operation, s: seq<byte>)
    requires |s| > 0
    ensures TreeFold(op, s, 0) == Fold(op, s)
  {
    PartsFold(op, s, 1);
    var top := Parts(op, s, 1);
    assert top == [TreeFold(op, s, 0)];
    HasUnit(op, top[0]);
  }

  // ---------------------------------------------------------------------------------------------
  // One reduction
  // ---------------------------------------------------------------------------------------------

  /** The arguments of one call, the same on every process except for `data`, which is indexed by rank. */
  datatype Call = Call(op: Operation, root: nat, count: nat, data: seq<seq<byte>>)

  predicate Valid(call: Call) {
    && call.root < |call.data|
    && forall r :: 0 <= r < |call.data| ==> |call.data[r]| == call.count
  }

  /** Byte `j` of all processes, by rank and by relative rank. */
  function Column(call: Call, j: nat): seq<byte>
    requires Valid(call) && j < call.count
  {
    seq(|call.data|, r requires 0 <= r < |call.data| => call.data[r][j])
  }

  function RelativeColumn(call: Call, j: nat): seq<byte>
    requires Valid(call) && j < call.count
  {
    Column(call, j)[call.root..] + Column(call, j)[..call.root]
  }

  lemma RelativeColumnAt(call: Call, j: nat, r: nat)
    requires Valid(call) && j < call.count && r < |call.data|
    ensures var x := Relative(r, call.root, |call.data|);
            x < |RelativeColumn(call, j)| == |call.data| && RelativeColumn(call, j)[x] == call.data[r][j]
  {
    Rotation(r, call.root, |call.data|);
  }

  /** The bytes merged over the subtree of relative rank `x`. */
  function TreeData(call: Call, x: nat): (data: seq<byte>)
    requires Valid(call)
    ensures |data| == call.count
  {
    seq(call.count, j requires 0 <= j < call.count => TreeFold(call.op, RelativeColumn(call, j), x))
  }

  /** A process that merges what its two children send has the bytes of its subtree. */
  lemma MergedChildren(call: Call, r: nat)
    requires Valid(call) && r < |call.data|
    ensures var x := Relative(r, call.root, |call.data|);
            TreeData(call, x) == CombineAll(call.op, CombineAll(call.op, call.data[r], TreeData(call, 2 * x + 1)),
                                            TreeData(call, 2 * x + 2))
  {
    hide Combine, Unit, Relative, RelativeColumn;
    forall j | 0 <= j < call.count
      ensures var x := Relative(r, call.root, |call.data|); var s := RelativeColumn(call, j);
              x < |s| && s[x] == call.data[r][j]
    {
      RelativeColumnAt(call, j, r);
    }
  }

  /** A child that does not exist adds nothing. */
  lemma NoChild(call: Call, a: seq<byte>, x: nat)
    requires Valid(call) && |a| == call.count && x >= |call.data|
    ensures CombineAll(call.op, a, TreeData(call, x)) == a
  {
    hide Combine, Unit;
    forall j | 0 <= j < call.count
      ensures Combine(call.op, a[j], TreeFold(call.op, RelativeColumn(call, j), x)) == a[j]
    {
      HasUnit(call.op, a[j]);
    }
  }

  /** Every byte of the whole tree is the fold over that byte of all ranks, each counted once. */
  lemma WholeTree(call: Call, j: nat)
    requires Valid(call) && j < call.count
    ensures TreeData(call, 0)[j] == Fold(call.op, Column(call, j))
  {
    hide Fold, TreeFold;
    TreeIsFold(call.op, RelativeColumn(call, j));
    FoldRotation(call.op, Column(call, j), call.root);
  }
}
