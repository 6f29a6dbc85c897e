/** The move of SameGame.c: removing a group of equal tiles from a board and closing the gaps.
    Row 0 is the top row. */
module SameGame {

  const PUSTE: char := '.'

  type Cell = (int, int)

  // ---------------------------------------------------------------------------------------------
  // Connected groups
  // ---------------------------------------------------------------------------------------------

  predicate Adjacent(c: Cell, d: Cell) {
    || (c.1 == d.1 && (d.0 == c.0 + 1 || d.0 == c.0 - 1))
    || (c.0 == d.0 && (d.1 == c.1 + 1 || d.1 == c.1 - 1))
  }

  /** `path` leads from its first to its last cell through adjacent cells of `s`. */
  ghost predicate IsPath(s: set<Cell>, path: seq<Cell>) {
    && |path| > 0
    && (forall i :: 0 <= i < |path| ==> path[i] in s)
    && (forall i :: 0 <= i < |path| - 1 ==> Adjacent(path[i], path[i + 1]))
  }

  ghost predicate Connected(s: set<Cell>, c: Cell, d: Cell) {
    exists path :: IsPath(s, path) && path[0] == c && path[|path| - 1] == d
  }

  lemma ConnectedSelf(s: set<Cell>, c: Cell)
    requires c in s
    ensures Connected(s, c, c)
  {
    assert IsPath(s, [c]);
  }

  /** A path of a smaller set, started one cell earlier, is a path of the larger set. */
  lemma ConnectedFrom(s: set<Cell>, smaller: set<Cell>, c: Cell, d: Cell, e: Cell)
    requires smaller <= s && c in s && Adjacent(c, d) && Connected(smaller, d, e)
    ensures Connected(s, c, e)
  {
    var path :| IsPath(smaller, path) && path[0] == d && path[|path| - 1] == e;
    assert IsPath(s, [c] + path);
  }

  ghost predicate Closed(s: set<Cell>, part: set<Cell>) {
    forall c, d :: c in part && d in s && Adjacent(c, d) ==> d in part
  }

  /** A closed part that contains the start of a path contains all of it. */
  lemma {:induction false} ClosedContainsPath(s: set<Cell>, part: set<Cell>, path: seq<Cell>)
    requires IsPath(s, path) && Closed(s, part) && path[0] in part
    ensures path[|path| - 1] in part
    decreases |path|
  {
    if |path| > 1 {
      assert Adjacent(path[0], path[1]);
      assert path[1..][|path| - 2] == path[|path| - 1];
      forall i | 0 <= i < |path[1..]| - 1 ensures Adjacent(path[1..][i], path[1..][i + 1]) {
        assert Adjacent(path[i + 1], path[i + 2]);
      }
      ClosedContainsPath(s, part, path[1..]);
    }
  }

  /** The connected component of `c` in `s`. */
  ghost function Group(s: set<Cell>, c: Cell): set<Cell> { set d | d in s && Connected(s, c, d) }

  /** A part of `s` that is connected to `c` and can only grow next to `c`. */
  ghost predicate Partial(s: set<Cell>, c: Cell, part: set<Cell>) {
    && c in part && part <= s
    && (forall d :: d in part ==> Connected(s, c, d))
    && (forall d, e :: d in part && d != c && e in s && Adjacent(d, e) ==> e in part)
  }

  lemma GroupClosed(s: set<Cell>, c: Cell)
    requires c in s
    ensures c in Group(s, c) && Closed(s, Group(s, c))
  {
    ConnectedSelf(s, c);
    forall d, e | d in Group(s, c) && e in s && Adjacent(d, e) ensures e in Group(s, c) {
      var path :| IsPath(s, path) && path[0] == c && path[|path| - 1] == d;
      assert IsPath(s, path + [e]);
    }
  }

  /** What starting at `d` removes from the tiles `s`: the group of `d`, or nothing if there is no tile at `d`. */
  ghost function GroupAt(s: set<Cell>, d: Cell): set<Cell> { if d in s then Group(s, d) else {} }

  /** Removing the group of a neighbour from the tiles that are left. */
  lemma Merge(s: set<Cell>, c: Cell, rest: set<Cell>, d: Cell)
    requires Partial(s, c, s - rest) && rest <= s && Adjacent(c, d)
    ensures var after := rest - GroupAt(rest, d);
            after <= s && Partial(s, c, s - after) && d !in after
  {
    if d in rest {
      GroupClosed(rest, d);
      forall e | e in Group(rest, d) ensures Connected(s, c, e) {
        ConnectedFrom(s, rest, c, d, e);
      }
    }
  }

  lemma PartialIsGroup(s: set<Cell>, c: Cell, part: set<Cell>)
    requires Partial(s, c, part) && forall d :: d in s && Adjacent(c, d) ==> d in part
    ensures part == Group(s, c)
  {
    forall d | d in Group(s, c) ensures d in part {
      var path :| IsPath(s, path) && path[0] == c && path[|path| - 1] == d;
      ClosedContainsPath(s, part, path);
    }
  }

  /** Removing a tile and then, one after the other, what is left of the groups of its four neighbours removes its
      group. */
  lemma FourNeighbours(s: set<Cell>, w: int, k: int, s1: set<Cell>, s2: set<Cell>, s3: set<Cell>, s4: set<Cell>)
    requires (w, k) in s
    requires var s0 := s - {(w, k)}; s1 == s0 - GroupAt(s0, (w + 1, k))
    requires s2 == s1 - GroupAt(s1, (w - 1, k)) && s3 == s2 - GroupAt(s2, (w, k + 1))
    requires s4 == s3 - GroupAt(s3, (w, k - 1))
    ensures s4 == s - Group(s, (w, k))
  {
    var c := (w, k);
    var s0 := s - {c};
    ConnectedSelf(s, c);
    assert s - s0 == {c};
    Merge(s, c, s0, (w + 1, k));
    Merge(s, c, s1, (w - 1, k));
    Merge(s, c, s2, (w, k + 1));
    Merge(s, c, s3, (w, k - 1));
    PartialIsGroup(s, c, s - s4);
    assert s4 == s - (s - s4);
  }

  /** `s` is the set of all tiles of one colour. */
  ghost predicate TilesAre(a: array2<char>, klocek: char, s: set<Cell>)
    reads a
  {
    forall c: Cell :: c in s <==> 0 <= c.0 < a.Length0 && 0 <= c.1 < a.Length1 && a[c.0, c.1] == klocek
  }

  /** The board has changed from `old(a)` by removing the tiles `part`, and in no other way. */
  twostate predicate Removed(a: array2<char>, part: set<Cell>)
    reads a
  {
    forall i, j :: 0 <= i < a.Length0 && 0 <= j < a.Length1 ==>
      a[i, j] == if (i, j) in part then PUSTE else old(a[i, j])
  }

  /** `usun_grupe`: on a board of any size it terminates and clears exactly the 4-connected component of equal
      tiles around the start cell; every other cell is unchanged.  `s` is the set of tiles of that colour. */
  method UsunGrupe(a: array2<char>, w: int, k: int, klocek: char, ghost s: set<Cell>)
    requires TilesAre(a, klocek, s) && (w, k) in s && klocek != PUSTE
    modifies a
    ensures Removed(a, Group(s, (w, k))) && TilesAre(a, klocek, s - Group(s, (w, k)))
    decreases s, 0
  {
    a[w, k] := PUSTE;
    ghost var s0 := s - {(w, k)};
    UsunSasiada(a, w + 1, k, klocek, s0);
    ghost var s1 := s0 - GroupAt(s0, (w + 1, k));
    UsunSasiada(a, w - 1, k, klocek, s1);
    ghost var s2 := s1 - GroupAt(s1, (w - 1, k));
    UsunSasiada(a, w, k + 1, klocek, s2);
    ghost var s3 := s2 - GroupAt(s2, (w, k + 1));
    UsunSasiada(a, w, k - 1, klocek, s3);
    ghost var s4 := s3 - GroupAt(s3, (w, k - 1));
    FourNeighbours(s, w, k, s1, s2, s3, s4);
  }

  /** One of the four guarded recursive calls of `usun_grupe`. */
  method UsunSasiada(a: array2<char>, w: int, k: int, klocek: char, ghost s: set<Cell>)
    requires TilesAre(a, klocek, s) && klocek != PUSTE
    modifies a
    ensures Removed(a, GroupAt(s, (w, k))) && TilesAre(a, klocek, s - GroupAt(s, (w, k)))
    decreases s, 1
  {
    if 0 <= w < a.Length0 && 0 <= k < a.Length1 && a[w, k] == klocek {
      UsunGrupe(a, w, k, klocek, s);
    }
  }

  // ---------------------------------------------------------------------------------------------
  // Closing gaps
  // ---------------------------------------------------------------------------------------------

  /** The elements other than `e`, in order. */
  function Filter<T(==)>(s: seq<T>, e: T): seq<T> {
    if |s| == 0 then [] else (if s[0] == e then [] else [s[0]]) + Filter(s[1..], e)
  }

  function Repeat<T>(e: T, n: nat): seq<T> { seq(n, i => e) }

  /** The elements other than `e` moved to the front, in order, and nothing but `e` after them. */
  function Compact<T(==)>(s: seq<T>, e: T): seq<T> {
    FilterShorter(s, e);
    Filter(s, e) + Repeat(e, |s| - |Filter(s, e)|)
  }

  lemma FilterShorter<T>(s: seq<T>, e: T)
    ensures |Filter(s, e)| <= |s|
  {
  }

  lemma {:induction false} FilterConcat<T>(s: seq<T>, t: seq<T>, e: T)
    ensures Filter(s + t, e) == Filter(s, e) + Filter(t, e)
  {
    if |s| == 0 {
      assert s + t == t;
    } else {
      assert (s + t)[1..] == s[1..] + t;
      FilterConcat(s[1..], t, e);
    }
  }

  lemma {:induction false} FilterRepeat<T>(s: seq<T>, e: T)
    requires forall i :: 0 <= i < |s| ==> s[i] == e
    ensures Filter(s, e) == []
  {
    if |s| > 0 {
      FilterRepeat(s[1..], e);
    }
  }

  /** Exchanging an `e` with the next element that is not `e` keeps the order of the other elements. */
  lemma SwapKeepsFilter<T>(s: seq<T>, i: nat, j: nat, e: T)
    requires i < j < |s| && forall h :: i <= h < j ==> s[h] == e
    ensures Filter(s[i := s[j]][j := e], e) == Filter(s, e)
  {
    var x := s[j];
    var gap := s[i + 1..j];
    var front, back := s[..i], s[j + 1..];
    assert s == front + (([e] + gap + [x]) + back);
    assert s[i := x][j := e] == front + (([x] + gap + [e]) + back);
    FilterRepeat(gap, e);
    FilterRepeat([e] + gap, e);
    FilterRepeat(gap + [e], e);
    assert [x] + gap + [e] == [x] + (gap + [e]);
    FilterConcat([e] + gap, [x], e);
    FilterConcat([x], gap + [e], e);
    FilterConcat([e] + gap + [x], back, e);
    FilterConcat([x] + gap + [e], back, e);
    FilterConcat(front, ([e] + gap + [x]) + back, e);
    FilterConcat(front, ([x] + gap + [e]) + back, e);
  }

  ghost predicate NoGaps<T>(s: seq<T>, e: T) { forall i, j :: 0 <= i < j < |s| && s[i] == e ==> s[j] == e }

  /** A sequence without gaps is determined by its other elements. */
  lemma {:induction false} NoGapsIsCompact<T>(s: seq<T>, t: seq<T>, e: T)
    requires NoGaps(s, e) && |s| == |t| && Filter(s, e) == Filter(t, e)
    ensures s == Compact(t, e)
  {
    FrontOfNoGaps(s, e);
  }

  lemma {:induction false} FrontOfNoGaps<T>(s: seq<T>, e: T)
    requires NoGaps(s, e)
    ensures |Filter(s, e)| <= |s| && s == Filter(s, e) + Repeat(e, |s| - |Filter(s, e)|)
  {
    if |s| > 0 {
      if s[0] == e {
        FilterRepeat(s, e);
      } else {
        FrontOfNoGaps(s[1..], e);
      }
    }
  }

  lemma CompactHasNoGaps<T>(s: seq<T>, e: T)
    ensures NoGaps(Compact(s, e), e) && Filter(Compact(s, e), e) == Filter(s, e)
  {
    FilterShorter(s, e);
    var tail := Repeat(e, |s| - |Filter(s, e)|);
    FilterHasNone(s, e);
    FilterRepeat(tail, e);
    FilterConcat(Filter(s, e), tail, e);
  }

  lemma {:induction false} FilterHasNone<T>(s: seq<T>, e: T)
    ensures forall i :: 0 <= i < |Filter(s, e)| ==> Filter(s, e)[i] != e
    ensures Filter(Filter(s, e), e) == Filter(s, e)
  {
    if |s| > 0 {
      FilterHasNone(s[1..], e);
      var rest := Filter(s[1..], e);
      if s[0] == e {
        assert Filter(s, e) == rest;
      } else {
        assert Filter(s, e) == [s[0]] + rest;
        FilterConcat([s[0]], rest, e);
        assert [s[0]][1..] == [];
      }
    }
  }

  // ---------------------------------------------------------------------------------------------
  // The two shifts
  // ---------------------------------------------------------------------------------------------

  /** A column, read from the bottom upwards. */
  function Column(a: array2<char>, k: int): seq<char>
    requires 0 <= k < a.Length1
    reads a
  {
    seq(a.Length0, i requires 0 <= i < a.Length0 reads a => a[a.Length0 - 1 - i, k])
  }

  function Columns(a: array2<char>): seq<seq<char>>
    reads a
  {
    seq(a.Length1, k requires 0 <= k < a.Length1 reads a => Column(a, k))
  }

  /** The inner loops of `przesun_w_dol`: the tiles of one column fall down and keep their order. */
  method PrzesunKolumne(a: array2<char>, k: int)
    requires 0 <= k < a.Length1
    modifies a
    ensures Column(a, k) == Compact(old(Column(a, k)), PUSTE)
    ensures forall j :: 0 <= j < a.Length1 && j != k ==> Column(a, j) == old(Column(a, j))
  {
    var n := a.Length0;
    var w := n - 1;
    while w > 0
      invariant w <= n - 1 && (n > 0 ==> w >= 0)
      invariant Filter(Column(a, k), PUSTE) == Filter(old(Column(a, k)), PUSTE)
      invariant forall r, q :: w < r < n && 0 <= q < r && a[r, k] == PUSTE ==> a[q, k] == PUSTE
      invariant forall i, j :: 0 <= i < n && 0 <= j < a.Length1 && j != k ==> a[i, j] == old(a[i, j])
    {
      if a[w, k] == PUSTE {
        var noweW := w;
        while noweW > 0 && a[noweW - 1, k] == PUSTE
          invariant 0 <= noweW <= w
          invariant forall r :: noweW <= r <= w ==> a[r, k] == PUSTE
        {
          noweW := noweW - 1;
        }
        if noweW != 0 {
          ghost var c := Column(a, k);
          SwapKeepsFilter(c, n - 1 - w, n - noweW, PUSTE);
          a[w, k], a[noweW - 1, k] := a[noweW - 1, k], a[w, k];
          assert Column(a, k) == c[n - 1 - w := c[n - noweW]][n - noweW := PUSTE];
        }
      }
      w := w - 1;
    }
    NoGapsIsCompact(Column(a, k), old(Column(a, k)), PUSTE);
  }

  /** `przesun_w_dol`: in every column the tiles fall down and keep their order. */
  method PrzesunWDol(a: array2<char>)
    modifies a
    ensures forall j :: 0 <= j < a.Length1 ==> Column(a, j) == Compact(old(Column(a, j)), PUSTE)
  {
    var k := 0;
    while k < a.Length1
      invariant 0 <= k <= a.Length1
      invariant forall j :: 0 <= j < k ==> Column(a, j) == Compact(old(Column(a, j)), PUSTE)
      invariant forall j :: k <= j < a.Length1 ==> Column(a, j) == old(Column(a, j))
    {
      PrzesunKolumne(a, k);
      k := k + 1;
    }
  }

  /** The innermost loop of `przesun_w_lewo`: two columns are exchanged. */
  method ZamienKolumny(a: array2<char>, k: int, q: int)
    requires 0 <= k < q < a.Length1
    modifies a
    ensures Columns(a) == old(Columns(a))[k := old(Columns(a))[q]][q := old(Columns(a))[k]]
  {
    var i := 0;
    while i < a.Length0
      invariant 0 <= i <= a.Length0
      invariant forall r :: 0 <= r < i ==> a[r, k] == old(a[r, q]) && a[r, q] == old(a[r, k])
      invariant forall r :: i <= r < a.Length0 ==> a[r, k] == old(a[r, k]) && a[r, q] == old(a[r, q])
      invariant forall r, j :: 0 <= r < a.Length0 && 0 <= j < a.Length1 && j != k && j != q ==> a[r, j] == old(a[r, j])
    {
      a[i, k], a[i, q] := a[i, q], a[i, k];
      i := i + 1;
    }
    ghost var was := old(Columns(a));
    forall j | 0 <= j < a.Length1 ensures Columns(a)[j] == was[k := was[q]][q := was[k]][j] {
      assert Columns(a)[j] == Column(a, j);
    }
  }

  /** A column without a tile at the bottom has no tiles at all. */
  ghost predicate Fallen(column: seq<char>) {
    |column| > 0 && (column[0] == PUSTE ==> column == Repeat(PUSTE, |column|))
  }

  ghost predicate AllFallen(columns: seq<seq<char>>) { forall k :: 0 <= k < |columns| ==> Fallen(columns[k]) }

  /** A fallen column is blank exactly when its bottom field is empty. */
  lemma BlankAtBottom(a: array2<char>, k: int)
    requires a.Length0 > 0 && 0 <= k < a.Length1 && AllFallen(Columns(a))
    ensures a[a.Length0 - 1, k] == PUSTE <==> Columns(a)[k] == Repeat(PUSTE, a.Length0)
  {
    assert Columns(a)[k] == Column(a, k) && Fallen(Columns(a)[k]);
    assert Column(a, k)[0] == a[a.Length0 - 1, k] && Repeat(PUSTE, a.Length0)[0] == PUSTE;
  }

  /** The search loop of `przesun_w_lewo`: the last of the blank columns from `k` on. */
  method OstatniaPusta(a: array2<char>, k: int) returns (noweK: int)
    requires a.Length0 > 0 && 0 <= k < a.Length1 && AllFallen(Columns(a))
    requires Columns(a)[k] == Repeat(PUSTE, a.Length0)
    ensures k <= noweK < a.Length1
    ensures forall j :: k <= j <= noweK ==> Columns(a)[j] == Repeat(PUSTE, a.Length0)
    ensures noweK + 1 < a.Length1 ==> Columns(a)[noweK + 1] != Repeat(PUSTE, a.Length0)
  {
    noweK := k;
    while noweK < a.Length1 - 1 && a[a.Length0 - 1, noweK + 1] == PUSTE
      invariant k <= noweK <= a.Length1 - 1
      invariant forall j :: k <= j <= noweK ==> Columns(a)[j] == Repeat(PUSTE, a.Length0)
    {
      BlankAtBottom(a, noweK + 1);
      noweK := noweK + 1;
    }
    if noweK + 1 < a.Length1 {
      BlankAtBottom(a, noweK + 1);
    }
  }

  /** No blank column among the first `k` has a column with tiles to its right. */
  ghost predicate PackedUpTo(columns: seq<seq<char>>, blank: seq<char>, k: nat) {
    forall i, j :: 0 <= i < k && i < j < |columns| && columns[i] == blank ==> columns[j] == blank
  }

  /** Exchanging the first blank column with the next one that has tiles. */
  lemma PackOneMore(columns: seq<seq<char>>, blank: seq<char>, k: nat, q: nat)
    requires k < q < |columns| && (forall j :: k <= j < q ==> columns[j] == blank) && columns[q] != blank
    requires AllFallen(columns) && PackedUpTo(columns, blank, k)
    ensures var after := columns[k := columns[q]][q := columns[k]];
            AllFallen(after) && PackedUpTo(after, blank, k + 1) && Filter(after, blank) == Filter(columns, blank)
  {
    SwapKeepsFilter(columns, k, q, blank);
    assert columns[q] != blank;
  }

  /** `przesun_w_lewo`: on a board whose tiles have fallen, the non-empty columns move to the left and keep
      their order. */
  method PrzesunWLewo(a: array2<char>)
    requires a.Length0 > 0 && AllFallen(Columns(a))
    modifies a
    ensures Columns(a) == Compact(old(Columns(a)), Repeat(PUSTE, a.Length0))
  {
    var w := a.Length0 - 1;
    ghost var blank := Repeat(PUSTE, a.Length0);
    var k := 0;
    while k < a.Length1 - 1
      invariant 0 <= k && (a.Length1 > 0 ==> k <= a.Length1 - 1)
      invariant AllFallen(Columns(a))
      invariant Filter(Columns(a), blank) == Filter(old(Columns(a)), blank)
      invariant PackedUpTo(Columns(a), blank, k)
    {
      BlankAtBottom(a, k);
      if a[w, k] == PUSTE {
        var noweK := OstatniaPusta(a, k);
        if noweK != a.Length1 - 1 {
          PackOneMore(Columns(a), blank, k, noweK + 1);
          ZamienKolumny(a, k, noweK + 1);
        }
      }
      k := k + 1;
    }
    NoGapsIsCompact(Columns(a), old(Columns(a)), blank);
  }

  /** `porzadkuj_plansze`: the tiles fall, then the non-empty columns move to the left. */
  method PorzadkujPlansze(a: array2<char>)
    requires a.Length0 > 0
    modifies a
    ensures Columns(a) == Tidied(old(Columns(a)), a.Length0)
  {
    ghost var was := Columns(a);
    PrzesunWDol(a);
    assert Columns(a) == Settled(was);
    forall k | 0 <= k < a.Length1 ensures Fallen(Settled(was)[k]) {
      CompactHasNoGaps(was[k], PUSTE);
    }
    PrzesunWLewo(a);
  }

  function Settled(columns: seq<seq<char>>): seq<seq<char>> {
    seq(|columns|, k requires 0 <= k < |columns| => Compact(columns[k], PUSTE))
  }

  function Tidied(columns: seq<seq<char>>, n: nat): seq<seq<char>> { Compact(Settled(columns), Repeat(PUSTE, n)) }

  /** After both shifts no gap is left below a tile, no empty column is left of a non-empty one, the tiles of a
      column keep their order, and so do the columns that have tiles. */
  lemma TidiedHasNoGaps(columns: seq<seq<char>>, n: nat)
    requires forall k :: 0 <= k < |columns| ==> |columns[k]| == n
    ensures var blank, after := Repeat(PUSTE, n), Tidied(columns, n);
            && NoGaps(after, blank)
            && (forall k :: 0 <= k < |after| ==> NoGaps(after[k], PUSTE))
            && Filter(after, blank) == Filter(Settled(columns), blank)
            && (forall k :: 0 <= k < |columns| ==> Filter(Settled(columns)[k], PUSTE) == Filter(columns[k], PUSTE))
  {
    var blank := Repeat(PUSTE, n);
    var settled := Settled(columns);
    CompactHasNoGaps(settled, blank);
    forall k | 0 <= k < |columns|
      ensures NoGaps(settled[k], PUSTE) && Filter(settled[k], PUSTE) == Filter(columns[k], PUSTE)
    {
      CompactHasNoGaps(columns[k], PUSTE);
    }
    forall k | 0 <= k < |Tidied(columns, n)| ensures NoGaps(Tidied(columns, n)[k], PUSTE) {
      CompactOnlyMoves(settled, blank, k);
    }
  }

  lemma CompactOnlyMoves<T>(s: seq<T>, e: T, k: nat)
    requires k < |Compact(s, e)|
    ensures Compact(s, e)[k] == e || exists i :: 0 <= i < |s| && s[i] == Compact(s, e)[k]
  {
    FilterShorter(s, e);
    var f := Filter(s, e);
    assert Compact(s, e) == f + Repeat(e, |s| - |f|);
    if k < |f| {
      FilterOnlySelects(s, e, k);
      var i :| 0 <= i < |s| && s[i] == f[k];
      assert s[i] == Compact(s, e)[k];
    }
  }

  lemma {:induction false} FilterOnlySelects<T>(s: seq<T>, e: T, k: nat)
    requires k < |Filter(s, e)|
    ensures exists i :: 0 <= i < |s| && s[i] == Filter(s, e)[k]
  {
    if s[0] == e {
      FilterOnlySelects(s[1..], e, k);
      var i :| 0 <= i < |s[1..]| && s[1..][i] == Filter(s[1..], e)[k];
      assert s[i + 1] == Filter(s, e)[k];
    } else if k == 0 {
      assert s[0] == Filter(s, e)[0];
    } else {
      FilterOnlySelects(s[1..], e, k - 1);
      var i :| 0 <= i < |s[1..]| && s[1..][i] == Filter(s[1..], e)[k - 1];
      assert s[i + 1] == Filter(s, e)[k];
    }
  }

  /** All tiles of one colour. */
  ghost function Tiles(a: array2<char>, klocek: char): (s: set<Cell>)
    reads a
    ensures TilesAre(a, klocek, s)
  {
    set i, j | 0 <= i < a.Length0 && 0 <= j < a.Length1 && a[i, j] == klocek :: (i, j)
  }

  /** A group is a single tile exactly when none of the four neighbours belongs to it. */
  lemma GroupOfOne(s: set<Cell>, w: int, k: int)
    requires (w, k) in s
    ensures Group(s, (w, k)) == {(w, k)} <==>
              (w, k + 1) !in s && (w + 1, k) !in s && (w, k - 1) !in s && (w - 1, k) !in s
  {
    var c := (w, k);
    GroupClosed(s, c);
    if d :| d in s && Adjacent(c, d) {
      assert d in Group(s, c);
    } else {
      assert Adjacent(c, (w, k + 1)) && Adjacent(c, (w + 1, k)) && Adjacent(c, (w, k - 1)) && Adjacent(c, (w - 1, k));
      PartialIsGroup(s, c, {c});
    }
  }

  /** `sprawdz_czy_grupa`: some neighbour of the tile has its colour. */
  method SprawdzCzyGrupa(a: array2<char>, w: int, k: int, ghost s: set<Cell>) returns (grupa: bool)
    requires 0 <= w < a.Length0 && 0 <= k < a.Length1 && TilesAre(a, a[w, k], s)
    ensures grupa <==> Group(s, (w, k)) != {(w, k)}
  {
    grupa := || (k + 1 < a.Length1 && a[w, k] == a[w, k + 1])
             || (w + 1 < a.Length0 && a[w, k] == a[w + 1, k])
             || (k - 1 >= 0 && a[w, k] == a[w, k - 1])
             || (w - 1 >= 0 && a[w, k] == a[w - 1, k]);
    GroupOfOne(s, w, k);
  }

  /** The columns of a board after the cells `part` have been emptied. */
  function Without(columns: seq<seq<char>>, part: set<Cell>): seq<seq<char>> {
    seq(|columns|, k requires 0 <= k < |columns| => seq(|columns[k]|, i requires 0 <= i < |columns[k]| =>
      if (|columns[k]| - 1 - i, k) in part then PUSTE else columns[k][i]))
  }

  /** How removing tiles reads column by column. */
  lemma ColumnsWithout(a: array2<char>, was: seq<seq<char>>, part: set<Cell>)
    requires |was| == a.Length1 && forall k :: 0 <= k < a.Length1 ==> |was[k]| == a.Length0
    requires forall k, i :: 0 <= k < a.Length1 && 0 <= i < a.Length0 ==>
               Column(a, k)[i] == if (a.Length0 - 1 - i, k) in part then PUSTE else was[k][i]
    ensures Columns(a) == Without(was, part)
  {
    forall k | 0 <= k < a.Length1 ensures Columns(a)[k] == Without(was, part)[k] {
      assert Columns(a)[k] == Column(a, k);
    }
  }

  /** The branch of `wykonaj` taken for a tile that has an equal neighbour. */
  method UsunIPorzadkuj(a: array2<char>, w: int, k: int, ghost s: set<Cell>)
    requires 0 <= w < a.Length0 && 0 <= k < a.Length1 && a[w, k] != PUSTE && TilesAre(a, a[w, k], s)
    modifies a
    ensures Columns(a) == Tidied(Without(old(Columns(a)), Group(s, (w, k))), a.Length0)
  {
    UsunGrupe(a, w, k, a[w, k], s);
    ColumnsWithout(a, old(Columns(a)), Group(s, (w, k)));
    PorzadkujPlansze(a);
  }

  /** `wykonaj` without reading and printing the board: a tile with no equal neighbour, or an empty field, leaves
      the board as it is; otherwise the group of the tile disappears and the gaps are closed. */
  method Wykonaj(a: array2<char>, w: int, k: int)
    requires 0 <= w < a.Length0 && 0 <= k < a.Length1
    modifies a
    ensures var group := Group(old(Tiles(a, a[w, k])), (w, k));
            Columns(a) == if old(a[w, k]) == PUSTE || group == {(w, k)} then old(Columns(a))
                          else Tidied(Without(old(Columns(a)), group), a.Length0)
  {
    ghost var s := Tiles(a, a[w, k]);
    if a[w, k] != PUSTE {
      var grupa := SprawdzCzyGrupa(a, w, k, s);
      if grupa {
        UsunIPorzadkuj(a, w, k, s);
      }
    }
  }
}
