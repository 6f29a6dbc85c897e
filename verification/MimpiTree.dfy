/** The heap-shaped tree of `MIMPI_Bcast` and `MIMPI_Reduce` in mimpi.c, rotated so that any rank can be the root. */
module MimpiTree {

  /** The remainders `(r - root + n) % n` and `(x + root) % n` of the source, without division. */
  function Relative(r: nat, root: nat, n: nat): (x: nat)
    requires r < n && root < n
  {
    if r < root then r - root + n else r - root
  }

  function Absolute(x: nat, root: nat, n: nat): (r: nat)
    requires x < n && root < n
  {
    if x + root < n then x + root else x + root - n
  }

  /** The child of `r` at relative index `2 * x + side`, or -1. */
  function Child(r: nat, side: nat, root: nat, n: nat): int
    requires r < n && root < n
  {
    var x := 2 * Relative(r, root, n) + side;
    if x >= n then -1 else Absolute(x, root, n)
  }

  function Left(r: nat, root: nat, n: nat): int
    requires r < n && root < n
  {
    Child(r, 1, root, n)
  }

  function Right(r: nat, root: nat, n: nat): int
    requires r < n && root < n
  {
    Child(r, 2, root, n)
  }

  function Parent(r: nat, root: nat, n: nat): int
    requires r < n && root < n
  {
    var x := Relative(r, root, n);
    if x > 0 then Absolute((x - 1) / 2, root, n) else -1
  }

  lemma Wrap(a: nat, n: nat)
    requires 0 < n && a < 2 * n
    ensures a % n == if a < n then a else a - n
  {
    if a >= n {
      assert a % n == (a - n) % n by { WrapOnce(a - n, n); }
    }
  }

  lemma WrapOnce(b: nat, n: nat)
    requires 0 < n && b < n
    ensures (b + n) % n == b
  {
  }

  lemma Remainders(r: nat, root: nat, n: nat)
    requires r < n && root < n
    ensures Relative(r, root, n) == (r - root + n) % n && Absolute(r, root, n) == (r + root) % n
  {
    Wrap(r - root + n, n);
    Wrap(r + root, n);
  }

  /** Rotation by the root is a bijection between ranks and relative ranks. */
  lemma Rotation(r: nat, root: nat, n: nat)
    requires r < n && root < n
    ensures Relative(r, root, n) < n && Absolute(Relative(r, root, n), root, n) == r
    ensures Absolute(r, root, n) < n && Relative(Absolute(r, root, n), root, n) == r
    ensures Relative(r, root, n) == 0 <==> r == root
  {
  }

  lemma ChildIff(p: nat, c: nat, root: nat, n: nat, side: nat)
    requires p < n && c < n && root < n
    ensures Child(p, side, root, n) == c <==> Relative(c, root, n) == 2 * Relative(p, root, n) + side
    ensures -1 <= Child(p, side, root, n) < n
  {
    hide Relative, Absolute;
    Rotation(c, root, n);
    var y := 2 * Relative(p, root, n) + side;
    if y < n {
      Rotation(y, root, n);
    }
  }

  lemma ParentIff(p: nat, c: nat, root: nat, n: nat)
    requires p < n && c < n && root < n
    ensures Parent(c, root, n) == p <==>
              Relative(c, root, n) > 0 && (Relative(c, root, n) - 1) / 2 == Relative(p, root, n)
    ensures Parent(c, root, n) == -1 <==> c == root
    ensures -1 <= Parent(c, root, n) < n
  {
    hide Relative, Absolute;
    Rotation(c, root, n);
    Rotation(p, root, n);
    if Relative(c, root, n) > 0 {
      Rotation((Relative(c, root, n) - 1) / 2, root, n);
    }
  }

  /** The parent and child formulas are inverse: every rank but the root is a child of exactly one rank, its
      parent, on exactly one side. */
  lemma ParentIffChild(p: nat, c: nat, root: nat, n: nat)
    requires p < n && c < n && root < n
    ensures Parent(c, root, n) == p <==> (Left(p, root, n) == c || Right(p, root, n) == c)
    ensures Left(p, root, n) == c ==> Right(p, root, n) != c
    ensures Parent(c, root, n) == -1 <==> c == root
    ensures -1 <= Parent(c, root, n) < n && -1 <= Left(p, root, n) < n && -1 <= Right(p, root, n) < n
  {
    hide Relative, Child, Parent;
    ChildIff(p, c, root, n, 1);
    ChildIff(p, c, root, n, 2);
    ParentIff(p, c, root, n);
  }

  /** With root 0 the formulas are those of `MIMPI_Barrier`, which uses the ranks themselves. */
  lemma Unrotated(r: nat, side: nat, n: nat)
    requires r < n
    ensures Parent(r, 0, n) == if r > 0 then (r - 1) / 2 else -1
    ensures Child(r, side, 0, n) == if 2 * r + side < n then 2 * r + side else -1
  {
  }
}
