/** The module poset.cc: partially ordered sets of names, kept as relation matrices that are closed under
    transitivity in place. */
module Poset {

  /** Pairs of names of which the first precedes the second. */
  type Relation = set<(string, string)>

  /** A `char const *` argument. */
  datatype Value = Null | Name(name: string)

  const RELATION: int := 1
  const NO_RELATION: int := -1
  const REL_TRANSITIVITY: int := 2

  // ---------------------------------------------------------------------------------------------
  // Partial orders
  // ---------------------------------------------------------------------------------------------

  ghost predicate Transitive(r: Relation) {
    forall x, y, z :: (x, y) in r && (y, z) in r ==> (x, z) in r
  }

  ghost predicate PartialOrder(r: Relation, elems: set<string>) {
    && (forall x, y :: (x, y) in r ==> x in elems && y in elems)
    && (forall x :: x in elems ==> (x, x) in r)
    && (forall x, y :: (x, y) in r && (y, x) in r ==> x == y)
    && Transitive(r)
  }

  /** What `poset_add` makes of an order: everything below `a` comes to precede everything above `b`. */
  ghost function Extended(r: Relation, a: string, b: string): (e: Relation)
    ensures forall x, y :: (x, y) in e <==> (x, y) in r || ((x, a) in r && (b, y) in r)
  {
    var added := set p, q | p in r && q in r && p.1 == a && q.0 == b :: (p.0, q.1);
    assert forall x, y :: (x, a) in r && (b, y) in r ==> (x, a).1 == a && (b, y).0 == b && (x, y) in added;
    r + added
  }

  lemma ExtendedIsOrder(r: Relation, elems: set<string>, a: string, b: string)
    requires PartialOrder(r, elems) && a in elems && b in elems && (a, b) !in r && (b, a) !in r
    ensures PartialOrder(Extended(r, a, b), elems)
  {
  }

  /** Adding a pair of unrelated elements gives the least transitive relation with the old one and the new pair, and
      it is a partial order again. */
  lemma ExtendedIsLeast(r: Relation, elems: set<string>, a: string, b: string)
    requires PartialOrder(r, elems) && a in elems && b in elems && (a, b) !in r && (b, a) !in r
    ensures PartialOrder(Extended(r, a, b), elems) && r + {(a, b)} <= Extended(r, a, b)
    ensures forall t :: Transitive(t) && r + {(a, b)} <= t ==> Extended(r, a, b) <= t
  {
    var e := Extended(r, a, b);
    forall t | Transitive(t) && r + {(a, b)} <= t ensures e <= t {
      forall p | p in e ensures p in t {
        var (x, y) := p;
        if (x, y) !in r {
          assert (x, a) in t && (a, b) in t && (b, y) in t;
          assert (x, b) in t;
        }
      }
    }
  }

  /** A path along pairs of a relation. */
  ghost predicate Path(r: Relation, p: seq<string>) {
    |p| >= 2 && forall i :: 0 <= i < |p| - 1 ==> (p[i], p[i + 1]) in r
  }

  lemma {:induction false} PathsStayInside(r: Relation, e: Relation, p: seq<string>)
    requires Transitive(e) && r <= e && Path(r, p)
    ensures (p[0], p[|p| - 1]) in e
  {
    assert (p[0], p[1]) in e;
    if |p| > 2 {
      var rest := p[1..];
      assert forall i :: 0 <= i < |rest| - 1 ==> (rest[i], rest[i + 1]) == (p[i + 1], p[i + 2]);
      PathsStayInside(r, e, rest);
      assert (p[1], p[|p| - 1]) in e;
    }
  }

  /** After a pair has been added, exactly those elements are related that a path connects. */
  lemma ExtendedIsClosure(r: Relation, elems: set<string>, a: string, b: string, x: string, y: string)
    requires PartialOrder(r, elems) && a in elems && b in elems && (a, b) !in r && (b, a) !in r
    ensures (x, y) in Extended(r, a, b) <==>
              exists p :: Path(r + {(a, b)}, p) && p[0] == x && p[|p| - 1] == y
  {
    hide Extended;
    var all := r + {(a, b)};
    if (x, y) in r {
      assert Path(all, [x, y]) && [x, y][0] == x && [x, y][1] == y;
    } else if (x, y) in Extended(r, a, b) {
      assert Path(all, [x, a, b, y]) && [x, a, b, y][0] == x && [x, a, b, y][3] == y;
    }
    if p :| Path(all, p) && p[0] == x && p[|p| - 1] == y {
      ExtendedIsLeast(r, elems, a, b);
      PathsStayInside(all, Extended(r, a, b), p);
    }
  }

  ghost predicate Between(r: Relation, a: string, c: string, b: string) {
    c != a && c != b && (a, c) in r && (c, b) in r
  }

  /** Dropping one pair of an order leaves an order exactly when no third element lies between the two. */
  lemma DropKeepsOrderIff(r: Relation, elems: set<string>, a: string, b: string)
    requires PartialOrder(r, elems) && (a, b) in r && a != b
    ensures PartialOrder(r - {(a, b)}, elems) <==> !exists c :: Between(r, a, c, b)
  {
    var d := r - {(a, b)};
    if c :| Between(r, a, c, b) {
      assert (a, c) in d && (c, b) in d && (a, b) !in d;
    } else {
      forall x, y, z | (x, y) in d && (y, z) in d ensures (x, z) in d {
        assert !Between(r, a, y, b);
      }
    }
  }

  /** Adding a pair right after dropping it restores the order. */
  lemma AddAfterDrop(r: Relation, elems: set<string>, a: string, b: string)
    requires PartialOrder(r, elems) && (a, b) in r && a != b && PartialOrder(r - {(a, b)}, elems)
    ensures Extended(r - {(a, b)}, a, b) == r
  {
    var d := r - {(a, b)};
    forall p | p in Extended(d, a, b) ensures p in r {
      var (x, y) := p;
      if (x, y) !in d {
        assert (x, a) in r && (a, b) in r && (b, y) in r;
        assert (x, b) in r;
      }
    }
    assert (a, a) in d && (b, b) in d;
  }

  /** The order on the remaining elements. */
  ghost function Without(r: Relation, a: string): Relation { set p | p in r && p.0 != a && p.1 != a }

  lemma WithoutIsOrder(r: Relation, elems: set<string>, a: string)
    requires PartialOrder(r, elems)
    ensures PartialOrder(Without(r, a), elems - {a})
  {
  }

  lemma WithNewIsOrder(r: Relation, elems: set<string>, a: string)
    requires PartialOrder(r, elems) && a !in elems
    ensures PartialOrder(r + {(a, a)}, elems + {a})
  {
  }

  // ---------------------------------------------------------------------------------------------
  // Relation matrices
  // ---------------------------------------------------------------------------------------------

  type Matrix = seq<seq<int>>

  ghost predicate Square(m: Matrix) {
    forall i :: 0 <= i < |m| ==> |m[i]| == |m|
  }

  predicate Holds(code: int) { code == RELATION || code == REL_TRANSITIVITY }

  ghost predicate Codes(m: Matrix) {
    forall i, j :: 0 <= i < |m| && 0 <= j < |m[i]| ==> m[i][j] == NO_RELATION || Holds(m[i][j])
  }

  ghost predicate Distinct(v: seq<string>) { forall i, j :: 0 <= i < j < |v| ==> v[i] != v[j] }

  /** The matrix `m` stores the relation `r` on the names `v`. */
  ghost predicate Stores(m: Matrix, v: seq<string>, r: Relation) {
    && Square(m) && Codes(m) && |m| == |v|
    && forall i, j :: 0 <= i < |v| && 0 <= j < |v| ==> (Holds(m[i][j]) <==> (v[i], v[j]) in r)
  }

  function Elements(v: seq<string>): set<string> { set x | x in v }

  /** The matrix with one field changed. */
  function Set(m: Matrix, i: nat, j: nat, code: int): (m': Matrix)
    requires i < |m| && j < |m[i]|
    ensures |m'| == |m| && forall k :: 0 <= k < |m| ==> |m'[k]| == |m[k]|
    ensures forall k, l :: 0 <= k < |m| && 0 <= l < |m[k]| ==> m'[k][l] == if k == i && l == j then code else m[k][l]
  {
    m[i := m[i][j := code]]
  }

  /** The matrix after everything below `a` has come to precede everything above `b`. */
  ghost predicate Closed(m: Matrix, m': Matrix, a: nat, b: nat) 
    requires Square(m) && a < |m| && b < |m|
  {
    && Square(m') && Codes(m') && |m'| == |m|
    && forall i, j :: 0 <= i < |m| && 0 <= j < |m| ==>
        (Holds(m'[i][j]) <==> Holds(m[i][j]) || (Holds(m[i][a]) && Holds(m[b][j])))
  }

  ghost predicate ClosedRow(m: Matrix, row: seq<int>, k: nat, a: nat, b: nat)
    requires Square(m) && k < |m| && a < |m| && b < |m| && |row| == |m|
  {
    forall j :: 0 <= j < |m| ==> (Holds(row[j]) <==> Holds(m[k][j]) || (Holds(m[k][a]) && Holds(m[b][j])))
  }

  /** A matrix whose relation is reflexive and transitive. */
  ghost predicate OrderMatrix(m: Matrix) {
    && Square(m) && Codes(m) && (forall i :: 0 <= i < |m| ==> Holds(m[i][i]))
    && forall i, j, k :: 0 <= i < |m| && 0 <= j < |m| && 0 <= k < |m| && Holds(m[i][j]) && Holds(m[j][k]) ==>
        Holds(m[i][k])
  }

  /** The pass has dealt with the elements in front of `i`. */
  ghost predicate PassedUpTo(m: Matrix, m': Matrix, a: nat, b: nat, i: nat)
    requires Square(m) && a < |m| && b < |m|
  {
    && Square(m') && Codes(m') && |m'| == |m|
    && (forall k :: 0 <= k < i && k < |m| && k != a && k != b ==> ClosedRow(m, m'[k], k, a, b))
    && (forall k :: i <= k < |m| && k != a && k != b ==> m'[k] == m[k])
    && m'[b] == m[b]
    && forall j :: 0 <= j < |m| ==>
        (Holds(m'[a][j]) <==> Holds(m[a][j]) || j == b || (j < i && j != a && Holds(m[b][j])))
  }

  lemma ClosedStores(m: Matrix, m': Matrix, v: seq<string>, r: Relation, a: nat, b: nat)
    requires Stores(m, v, r) && a < |v| && b < |v| && Closed(m, m', a, b)
    ensures Stores(m', v, Extended(r, v[a], v[b]))
  {
    var e := Extended(r, v[a], v[b]);
    forall i, j | 0 <= i < |v| && 0 <= j < |v| ensures Holds(m'[i][j]) <==> (v[i], v[j]) in e {
      assert Holds(m[i][a]) <==> (v[i], v[a]) in r;
      assert Holds(m[b][j]) <==> (v[b], v[j]) in r;
    }
  }

  /** The matrix after a row and a column for a new element have been appended. */
  ghost predicate Grown(m: Matrix, m': Matrix) {
    && |m'| == |m| + 1 && Square(m')
    && forall i, j :: 0 <= i < |m'| && 0 <= j < |m'| ==>
        m'[i][j] == if i < |m| && j < |m[i]| then m[i][j] else if i == j then RELATION else NO_RELATION
  }

  lemma GrownStores(m: Matrix, m': Matrix, v: seq<string>, r: Relation, value: string)
    requires Stores(m, v, r) && PartialOrder(r, Elements(v)) && Distinct(v) && value !in v && Grown(m, m')
    ensures Stores(m', v + [value], r + {(value, value)}) && Distinct(v + [value])
    ensures Elements(v + [value]) == Elements(v) + {value}
  {
    var v' := v + [value];
    forall i, j | 0 <= i < |v'| && 0 <= j < |v'|
      ensures Holds(m'[i][j]) <==> (v'[i], v'[j]) in r + {(value, value)} {
      assert i < |v| ==> v'[i] in Elements(v);
      assert j < |v| ==> v'[j] in Elements(v);
    }
  }

  ghost predicate SameRelation(m: Matrix, m': Matrix) {
    && |m'| == |m| && Square(m') && Codes(m')
    && forall i, j :: 0 <= i < |m| && 0 <= j < |m[i]| && j < |m| ==> (Holds(m'[i][j]) <==> Holds(m[i][j]))
  }

  function RemoveAt<T>(s: seq<T>, k: nat): (r: seq<T>)
    requires k < |s|
    ensures |r| == |s| - 1
    ensures forall i :: 0 <= i < |r| ==> r[i] == s[if i < k then i else i + 1]
  {
    s[..k] + s[k + 1..]
  }

  /** The matrix after a row and a column have been erased. */
  ghost predicate Erased(m: Matrix, m': Matrix, k: nat)
    requires Square(m) && k < |m|
  {
    && |m'| == |m| - 1
    && forall i :: 0 <= i < |m'| ==> m'[i] == RemoveAt(m[if i < k then i else i + 1], k)
  }

  lemma RemovedElements(v: seq<string>, k: nat)
    requires Distinct(v) && k < |v|
    ensures Distinct(RemoveAt(v, k)) && Elements(RemoveAt(v, k)) == Elements(v) - {v[k]}
  {
    var v' := RemoveAt(v, k);
    forall i | 0 <= i < |v'| ensures v'[i] in Elements(v) - {v[k]} { }
    forall x | x in Elements(v) - {v[k]} ensures x in v' {
      var i :| 0 <= i < |v| && v[i] == x;
      assert v'[if i < k then i else i - 1] == x;
    }
  }

  lemma ErasedStores(m: Matrix, m': Matrix, v: seq<string>, r: Relation, k: nat)
    requires Stores(m, v, r) && PartialOrder(r, Elements(v)) && Distinct(v) && k < |v| && Erased(m, m', k)
    ensures Stores(m', RemoveAt(v, k), Without(r, v[k])) && Distinct(RemoveAt(v, k))
    ensures Elements(RemoveAt(v, k)) == Elements(v) - {v[k]}
  {
    hide PartialOrder;
    RemovedElements(v, k);
  }

  lemma SetClearsPair(m: Matrix, v: seq<string>, r: Relation, a: nat, b: nat)
    requires Stores(m, v, r) && PartialOrder(r, Elements(v)) && Distinct(v) && a < |v| && b < |v| && a != b
    requires Holds(m[a][b])
    ensures Stores(Set(Set(m, a, b, NO_RELATION), b, a, NO_RELATION), v, r - {(v[a], v[b])})
  {
    var d := r - {(v[a], v[b])};
    var m' := Set(Set(m, a, b, NO_RELATION), b, a, NO_RELATION);
    assert (v[a], v[b]) in r && (v[b], v[a]) !in r;
    forall i, j | 0 <= i < |v| && 0 <= j < |v| ensures Holds(m'[i][j]) <==> (v[i], v[j]) in d {
      assert Holds(m[i][j]) <==> (v[i], v[j]) in r;
    }
  }

  lemma StoresOrderMatrix(m: Matrix, v: seq<string>, r: Relation)
    requires Stores(m, v, r) && PartialOrder(r, Elements(v))
    ensures OrderMatrix(m)
  {
    forall i | 0 <= i < |m| ensures Holds(m[i][i]) {
      assert v[i] in Elements(v);
    }
    forall i, j, k | 0 <= i < |m| && 0 <= j < |m| && 0 <= k < |m| && Holds(m[i][j]) && Holds(m[j][k])
      ensures Holds(m[i][k]) {
      assert (v[i], v[j]) in r && (v[j], v[k]) in r;
    }
  }

  // ---------------------------------------------------------------------------------------------
  // One poset
  // ---------------------------------------------------------------------------------------------

  class PosetData {
    var v: seq<string>
    var rel: Matrix
    ghost var order: Relation

    ghost predicate Valid()
      reads this
    {
      Distinct(v) && Stores(rel, v, order) && PartialOrder(order, Elements(v))
    }

    constructor ()
      ensures Valid() && v == [] && order == {}
    {
      v, rel, order := [], [], {};
    }

    /** `checkIfElemExistInVecOfStr` */
    method CheckIfElemExist(value: string) returns (idx: nat, exist: bool)
      ensures exist <==> value in v
      ensures exist ==> idx < |v| && v[idx] == value
    {
      idx, exist := 0, false;
      var i := 0;
      while i < |v|
        invariant 0 <= i <= |v| && !exist && forall k :: 0 <= k < i ==> v[k] != value
      {
        if v[i] == value {
          exist, idx := true, i;
          break;
        }
        i := i + 1;
      }
    }

    /** `poset_insert` */
    method Insert(value: string) returns (inserted: bool)
      requires Valid()
      modifies this
      ensures Valid() && (inserted <==> value !in old(v))
      ensures inserted ==> v == old(v) + [value] && order == old(order) + {(value, value)}
      ensures !inserted ==> v == old(v) && order == old(order)
    {
      var i := 0;
      while i < |v|
        invariant 0 <= i <= |v| && forall k :: 0 <= k < i ==> v[k] != value
        invariant Valid() && v == old(v) && order == old(order)
      {
        if v[i] == value {
          return false;
        }
        i := i + 1;
      }
      ghost var m := rel;
      AppendRowAndColumn();
      GrownStores(m, rel, v, order, value);
      WithNewIsOrder(order, Elements(v), value);
      v := v + [value];
      order := order + {(value, value)};
      inserted := true;
    }

    /** The end of `poset_insert`: the new element is related to itself only. */
    method AppendRowAndColumn()
      requires Square(rel)
      modifies `rel
      ensures Grown(old(rel), rel)
    {
      var n := |rel|;
      rel := rel + [seq(n, k => NO_RELATION)];
      ghost var taller := rel;
      var row := 0;
      while row < |rel|
        invariant 0 <= row <= |rel| == n + 1
        invariant forall k :: 0 <= k < row ==> rel[k] == taller[k] + [NO_RELATION]
        invariant forall k :: row <= k < |rel| ==> rel[k] == taller[k]
      {
        rel := rel[row := rel[row] + [NO_RELATION]];
        row := row + 1;
      }
      rel := Set(rel, n, n, RELATION);
    }

    /** The inner loop of `addTransitivityRelations`: what is above `index2` is also above element `i`. */
    method ExtendRow(i: nat, index2: nat)
      requires Square(rel) && Codes(rel) && i < |rel| && index2 < |rel| && i != index2
      modifies `rel
      ensures Square(rel) && Codes(rel) && |rel| == |old(rel)|
      ensures forall k :: 0 <= k < |rel| && k != i ==> rel[k] == old(rel)[k]
      ensures forall j :: 0 <= j < |rel| ==> (Holds(rel[i][j]) <==> Holds(old(rel)[i][j]) || Holds(rel[index2][j]))
    {
      var j := 0;
      while j < |rel|
        invariant 0 <= j <= |rel| == |old(rel)| && Square(rel) && Codes(rel)
        invariant forall k :: 0 <= k < |rel| && k != i ==> rel[k] == old(rel)[k]
        invariant forall k :: 0 <= k < j ==> (Holds(rel[i][k]) <==> Holds(old(rel)[i][k]) || Holds(rel[index2][k]))
        invariant forall k :: j <= k < |rel| ==> rel[i][k] == old(rel)[i][k]
      {
        if Holds(rel[index2][j]) && rel[i][j] == NO_RELATION {
          rel := Set(rel, i, j, REL_TRANSITIVITY);
        }
        j := j + 1;
      }
    }

    /** `addTransitivityRelations`, after the field of the new pair has been set: one pass in place closes the
        matrix `m` of an order under the new pair. */
    method AddTransitivityRelations(index1: nat, index2: nat, ghost m: Matrix)
      requires OrderMatrix(m) && index1 < |m| && index2 < |m|
      requires !Holds(m[index1][index2]) && !Holds(m[index2][index1])
      requires rel == Set(m, index1, index2, RELATION)
      modifies `rel
      ensures Closed(m, rel, index1, index2)
    {
      var i := 0;
      while i < |rel|
        invariant 0 <= i <= |rel| && PassedUpTo(m, rel, index1, index2, i)
      {
        if i != index1 && i != index2 {
          AddTransitivityRelationsOf(i, index1, index2, m);
        }
        i := i + 1;
      }
      assert forall k :: 0 <= k < |m| && k != index1 && k != index2 ==> ClosedRow(m, rel[k], k, index1, index2);
    }

    /** The body of the outer loop of `addTransitivityRelations`. */
    method AddTransitivityRelationsOf(i: nat, index1: nat, index2: nat, ghost m: Matrix)
      requires OrderMatrix(m) && index1 < |m| && index2 < |m|
      requires !Holds(m[index1][index2]) && !Holds(m[index2][index1])
      requires i < |m| && i != index1 && i != index2 && PassedUpTo(m, rel, index1, index2, i)
      modifies `rel
      ensures PassedUpTo(m, rel, index1, index2, i + 1)
    {
      ghost var before := rel;
      if Holds(rel[i][index1]) && rel[i][index2] == NO_RELATION {
        rel := Set(rel, i, index2, REL_TRANSITIVITY);
        ExtendRow(i, index2);
        assert ClosedRow(m, rel[i], i, index1, index2);
        assert forall k :: 0 <= k < |m| && k != i ==> rel[k] == before[k];
      } else {
        assert ClosedRow(m, rel[i], i, index1, index2);
        if rel[index1][i] == NO_RELATION && Holds(rel[index2][i]) {
          rel := Set(rel, index1, i, REL_TRANSITIVITY);
        }
      }
    }

    /** `poset_add` on two names: refused exactly when a name is unknown or the two are related already. */
    method Add(value1: string, value2: string) returns (added: bool)
      requires Valid()
      modifies this
      ensures Valid() && v == old(v)
      ensures added <==>
                value1 in v && value2 in v && (value1, value2) !in old(order) && (value2, value1) !in old(order)
      ensures order == if added then Extended(old(order), value1, value2) else old(order)
    {
      hide PartialOrder, OrderMatrix, Extended, Set;
      var index1, foundIndex1 := CheckIfElemExist(value1);
      var index2, foundIndex2 := CheckIfElemExist(value2);
      if !foundIndex1 || !foundIndex2 {
        return false;
      }
      if Holds(rel[index1][index2]) || Holds(rel[index2][index1]) {
        return false;
      }
      StoresOrderMatrix(rel, v, order);
      ghost var m := rel;
      rel := Set(rel, index1, index2, RELATION);
      AddTransitivityRelations(index1, index2, m);
      ClosedStores(m, rel, v, order, index1, index2);
      ExtendedIsOrder(order, Elements(v), value1, value2);
      order := Extended(order, value1, value2);
      added := true;
    }

    /** `somethingIsBetweenTwoElem` */
    method SomethingIsBetweenTwoElem(idx1: nat, idx2: nat) returns (between: bool)
      requires Valid() && idx1 < |v| && idx2 < |v|
      ensures between <==> exists c :: Between(order, v[idx1], c, v[idx2])
    {
      var i := 0;
      while i < |rel|
        invariant 0 <= i <= |rel|
        invariant forall k :: 0 <= k < i ==> !Between(order, v[idx1], v[k], v[idx2])
      {
        if i != idx1 && i != idx2 {
          if Holds(rel[idx1][i]) && Holds(rel[i][idx2]) {
            assert Between(order, v[idx1], v[i], v[idx2]);
            return true;
          }
        }
        i := i + 1;
      }
      between := false;
      forall c ensures !Between(order, v[idx1], c, v[idx2]) {
        if (v[idx1], c) in order {
          assert c in Elements(v);
        }
      }
    }

    /** `poset_del` on two names: the pair is dropped exactly when the first strictly precedes the second and what
        is left is still a partial order. */
    method Del(value1: string, value2: string) returns (deleted: bool)
      requires Valid()
      modifies this
      ensures Valid() && v == old(v)
      ensures deleted <==> value1 in v && value2 in v && value1 != value2 && (value1, value2) in old(order) &&
                           PartialOrder(old(order) - {(value1, value2)}, Elements(v))
      ensures order == if deleted then old(order) - {(value1, value2)} else old(order)
    {
      var index1, foundIdx1 := CheckIfElemExist(value1);
      var index2, foundIdx2 := CheckIfElemExist(value2);
      if !foundIdx1 || !foundIdx2 {
        return false;
      }
      if index1 == index2 {
        return false;
      }
      if Holds(rel[index1][index2]) {
        DropKeepsOrderIff(order, Elements(v), value1, value2);
        var between := SomethingIsBetweenTwoElem(index1, index2);
        if !between {
          SetClearsPair(rel, v, order, index1, index2);
          rel := Set(rel, index1, index2, NO_RELATION);
          rel := Set(rel, index2, index1, NO_RELATION);
          order := order - {(value1, value2)};
          return true;
        }
      }
      deleted := false;
    }

    /** `changeRelationForSmallerElem` */
    method ChangeRelationForSmallerElem(currentElem: nat, idx: nat)
      requires Square(rel) && Codes(rel) && currentElem < |rel| && idx < |rel|
      modifies `rel
      ensures SameRelation(old(rel), rel)
    {
      var j := 0;
      while j < |rel|
        invariant 0 <= j <= |rel| && SameRelation(old(rel), rel)
      {
        if Holds(rel[idx][j]) && rel[currentElem][j] == REL_TRANSITIVITY {
          rel := Set(rel, currentElem, j, RELATION);
        }
        j := j + 1;
      }
    }

    /** `changeRelationForLargerElem` */
    method ChangeRelationForLargerElem(currentElem: nat, idx: nat)
      requires Square(rel) && Codes(rel) && currentElem < |rel| && idx < |rel|
      modifies `rel
      ensures SameRelation(old(rel), rel)
    {
      var j := 0;
      while j < |rel|
        invariant 0 <= j <= |rel| && SameRelation(old(rel), rel)
      {
        if Holds(rel[j][idx]) && rel[j][currentElem] == REL_TRANSITIVITY {
          rel := Set(rel, j, currentElem, RELATION);
        }
        j := j + 1;
      }
    }

    /** The first loop of `poset_remove` changes codes, but not the relation. */
    method ChangeRelations(idx: nat)
      requires Square(rel) && Codes(rel) && idx < |rel|
      modifies `rel
      ensures SameRelation(old(rel), rel)
    {
      var i := 0;
      while i < |rel|
        invariant 0 <= i <= |rel| && SameRelation(old(rel), rel)
      {
        if i != idx {
          if Holds(rel[i][idx]) {
            ChangeRelationForSmallerElem(i, idx);
          } else if Holds(rel[idx][i]) {
            ChangeRelationForLargerElem(i, idx);
          }
        }
        i := i + 1;
      }
    }

    /** The second loop of `poset_remove`. */
    method EraseRowAndColumn(idx: nat)
      requires Square(rel) && idx < |rel|
      modifies `rel
      ensures Erased(old(rel), rel, idx)
    {
      var i := 0;
      while i < |rel|
        invariant 0 <= i <= |rel| == |old(rel)|
        invariant forall k :: 0 <= k < i ==> rel[k] == RemoveAt(old(rel)[k], idx)
        invariant forall k :: i <= k < |rel| ==> rel[k] == old(rel)[k]
      {
        rel := rel[i := RemoveAt(rel[i], idx)];
        i := i + 1;
      }
      rel := RemoveAt(rel, idx);
    }

    /** `poset_remove` on a name */
    method Remove(value: string) returns (removed: bool)
      requires Valid()
      modifies this
      ensures Valid() && (removed <==> value in old(v))
      ensures removed ==> Elements(v) == Elements(old(v)) - {value} && |v| == |old(v)| - 1
      ensures removed ==> order == Without(old(order), value)
      ensures !removed ==> v == old(v) && order == old(order)
    {
      var idx, elemExists := CheckIfElemExist(value);
      if !elemExists {
        return false;
      }
      ghost var m := rel;
      ChangeRelations(idx);
      assert Stores(rel, v, order);
      ghost var changed := rel;
      EraseRowAndColumn(idx);
      ErasedStores(changed, rel, v, order, idx);
      WithoutIsOrder(order, Elements(v), value);
      v := RemoveAt(v, idx);
      order := Without(order, value);
      removed := true;
    }

    /** `poset_test` on two names */
    method Test(value1: string, value2: string) returns (related: bool)
      requires Valid()
      ensures related <==> (value1, value2) in order
    {
      var index1, foundIdx1 := CheckIfElemExist(value1);
      var index2, foundIdx2 := CheckIfElemExist(value2);
      if !foundIdx1 || !foundIdx2 {
        assert value1 !in Elements(v) || value2 !in Elements(v);
        return false;
      }
      related := Holds(rel[index1][index2]);
    }

    /** `poset_clear` */
    method Clear()
      modifies this
      ensures Valid() && v == [] && order == {}
    {
      v, rel, order := [], [], {};
    }
  }

  // ---------------------------------------------------------------------------------------------
  // All posets
  // ---------------------------------------------------------------------------------------------

  /** The interface of poset.h.  An identifier is either in use, or free and waiting in the queue, or has never been
      given out. */
  class AllPosets {
    var allPosets: map<nat, PosetData>
    var availableIDs: seq<nat>
    var nextID: nat

    ghost predicate Valid()
      reads this, allPosets.Values
    {
      && (forall id :: id in allPosets ==> id < nextID && allPosets[id].Valid())
      && (forall id, id' :: id in allPosets && id' in allPosets && id != id' ==> allPosets[id] != allPosets[id'])
      && (forall id :: id in availableIDs ==> id < nextID && id !in allPosets)
      && (forall id :: 0 <= id < nextID ==> id in allPosets || id in availableIDs)
      && (forall i, j :: 0 <= i < j < |availableIDs| ==> availableIDs[i] != availableIDs[j])
    }

    constructor ()
      ensures Valid() && allPosets == map[]
    {
      allPosets, availableIDs, nextID := map[], [], 0;
    }

    /** `poset_new`: the identifier is one that is not in use, the one deleted longest ago if there is any. */
    method New() returns (id: nat)
      requires Valid()
      modifies this
      ensures Valid() && id !in old(allPosets) && id in allPosets && fresh(allPosets[id])
      ensures allPosets == old(allPosets)[id := allPosets[id]]
      ensures allPosets[id].v == [] && allPosets[id].order == {}
      ensures if old(availableIDs) != [] then id == old(availableIDs)[0] && availableIDs == old(availableIDs)[1..]
              else id == old(nextID) && availableIDs == []
    {
      if availableIDs != [] {
        id := availableIDs[0];
        availableIDs := availableIDs[1..];
      } else {
        id := nextID;
        nextID := nextID + 1;
      }
      var newPoset := new PosetData();
      allPosets := allPosets[id := newPoset];
    }

    /** `poset_delete` */
    method Delete(id: nat)
      requires Valid()
      modifies this
      ensures Valid() && allPosets == old(allPosets) - {id} && nextID == old(nextID)
      ensures availableIDs == old(availableIDs) + if id in old(allPosets) then [id] else []
    {
      if id in allPosets {
        availableIDs := availableIDs + [id];
        allPosets := allPosets - {id};
      }
    }

    /** `poset_size` */
    method Size(id: nat) returns (size: nat)
      requires Valid()
      ensures size == if id in allPosets then |allPosets[id].v| else 0
    {
      size := if id in allPosets then |allPosets[id].v| else 0;
    }

    /** Only the poset `id` may have changed. */
    twostate predicate OthersUnchanged(id: nat)
      reads this, allPosets.Values
    {
      && unchanged(this)
      && forall other :: other in allPosets && other != id ==> unchanged(allPosets[other])
    }

    /** `poset_insert` */
    method Insert(id: nat, value: Value) returns (inserted: bool)
      requires Valid()
      modifies allPosets.Values
      ensures Valid() && OthersUnchanged(id)
      ensures inserted <==> value.Name? && id in allPosets && value.name !in old(Elements(allPosets[id].v))
      ensures id in allPosets ==>
                && allPosets[id].v == old(allPosets[id].v) + (if inserted then [value.name] else [])
                && allPosets[id].order == old(allPosets[id].order) + if inserted then {(value.name, value.name)} else {}
    {
      if value.Null? || id !in allPosets {
        return false;
      }
      inserted := allPosets[id].Insert(value.name);
    }

    /** `poset_remove` */
    method Remove(id: nat, value: Value) returns (removed: bool)
      requires Valid()
      modifies allPosets.Values
      ensures Valid() && OthersUnchanged(id)
      ensures removed <==> value.Name? && id in allPosets && value.name in old(Elements(allPosets[id].v))
      ensures removed ==>
                && Elements(allPosets[id].v) == old(Elements(allPosets[id].v)) - {value.name}
                && allPosets[id].order == Without(old(allPosets[id].order), value.name)
      ensures !removed && id in allPosets ==>
                allPosets[id].v == old(allPosets[id].v) && allPosets[id].order == old(allPosets[id].order)
    {
      if value.Null? || id !in allPosets {
        return false;
      }
      removed := allPosets[id].Remove(value.name);
    }

    /** `poset_add` */
    method Add(id: nat, value1: Value, value2: Value) returns (added: bool)
      requires Valid()
      modifies allPosets.Values
      ensures Valid() && OthersUnchanged(id)
      ensures added <==> value1.Name? && value2.Name? && id in allPosets && Addable(id, value1.name, value2.name)
      ensures id in allPosets ==>
                && allPosets[id].v == old(allPosets[id].v)
                && allPosets[id].order ==
                   if added then Extended(old(allPosets[id].order), value1.name, value2.name)
                   else old(allPosets[id].order)
    {
      if value1.Null? || value2.Null? || id !in allPosets {
        return false;
      }
      added := allPosets[id].Add(value1.name, value2.name);
    }

    /** Both names were elements, and neither preceded the other. */
    twostate predicate Addable(id: nat, x: string, y: string)
      requires id in old(allPosets)
    {
      && x in old(allPosets[id].v) && y in old(allPosets[id].v)
      && (x, y) !in old(allPosets[id].order) && (y, x) !in old(allPosets[id].order)
    }

    /** `poset_del` */
    method Del(id: nat, value1: Value, value2: Value) returns (deleted: bool)
      requires Valid()
      modifies allPosets.Values
      ensures Valid() && OthersUnchanged(id)
      ensures deleted <==> value1.Name? && value2.Name? && id in allPosets && Deletable(id, value1.name, value2.name)
      ensures id in allPosets ==>
                && allPosets[id].v == old(allPosets[id].v)
                && allPosets[id].order ==
                   old(allPosets[id].order) - if deleted then {(value1.name, value2.name)} else {}
    {
      if value1.Null? || value2.Null? || id !in allPosets {
        return false;
      }
      deleted := allPosets[id].Del(value1.name, value2.name);
    }

    /** The first name strictly preceded the second, and the other pairs alone were a partial order. */
    twostate predicate Deletable(id: nat, x: string, y: string)
      requires id in old(allPosets)
    {
      && x != y && (x, y) in old(allPosets[id].order)
      && PartialOrder(old(allPosets[id].order) - {(x, y)}, Elements(old(allPosets[id].v)))
    }

    /** `poset_test` */
    method Test(id: nat, value1: Value, value2: Value) returns (related: bool)
      requires Valid()
      ensures related <==>
                value1.Name? && value2.Name? && id in allPosets && (value1.name, value2.name) in allPosets[id].order
    {
      if value1.Null? || value2.Null? || id !in allPosets {
        return false;
      }
      related := allPosets[id].Test(value1.name, value2.name);
    }

    /** `poset_clear` */
    method Clear(id: nat)
      requires Valid()
      modifies allPosets.Values
      ensures Valid() && OthersUnchanged(id)
      ensures id in allPosets ==> allPosets[id].v == [] && allPosets[id].order == {}
    {
      if id in allPosets {
        allPosets[id].Clear();
      }
    }

    /** A caller's view of `poset_del` followed by `poset_add`: if the first call succeeds, so does the second, and
        the poset is as before. */
    method DelThenAdd(id: nat, value1: Value, value2: Value) returns (deleted: bool, added: bool)
      requires Valid()
      modifies allPosets.Values
      ensures Valid() && (deleted ==> added)
      ensures deleted ==> id in allPosets && allPosets == old(allPosets)
      ensures deleted ==> allPosets[id].v == old(allPosets[id].v) && allPosets[id].order == old(allPosets[id].order)
    {
      deleted := Del(id, value1, value2);
      if deleted {
        AddAfterDrop(old(allPosets[id].order), old(Elements(allPosets[id].v)), value1.name, value2.name);
        added := Add(id, value1, value2);
      } else {
        added := false;
      }
    }
  }
}
