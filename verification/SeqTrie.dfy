/** The ternary trie of seq.c: sequences over the digits 0, 1 and 2, whose nodes share reference-counted classes.
    Memory is explicit: nodes and classes live at addresses, are granted and freed, and may only be used in
    between. */
module SeqTrie {

  type Ptr = int

  const NULL: Ptr := 0

  /** A `char const *` argument. */
  datatype CString = Missing | Text(s: string)

  datatype Node = Node(lchild: Ptr, mchild: Ptr, rchild: Ptr, klass: Ptr)

  datatype AClass = AClass(counter: int, s: CString)

  /** The results of the interface: -1 with EINVAL, -1 with ENOMEM, 0 and 1. */
  datatype Outcome = Invalid | NoMemory | Unchanged | Changed

  predicate Digit(d: char) { '0' <= d <= '2' }

  predicate Bad(s: CString) { s.Missing? || s.s == "" || exists i :: 0 <= i < |s.s| && !Digit(s.s[i]) }

  function Child(x: Node, d: char): Ptr { if d == '0' then x.lchild else if d == '1' then x.mchild else x.rchild }

  function WithChild(x: Node, d: char, p: Ptr): (r: Node)
    requires Digit(d)
    ensures Child(r, d) == p && r.klass == x.klass && forall e :: Digit(e) && e != d ==> Child(r, e) == Child(x, e)
  {
    if d == '0' then x.(lchild := p) else if d == '1' then x.(mchild := p) else x.(rchild := p)
  }

  // ---------------------------------------------------------------------------------------------
  // Tries in memory
  // ---------------------------------------------------------------------------------------------

  /** Where the node of each sequence is. */
  type Places = map<string, Ptr>

  type Nodes = map<Ptr, Node>

  type Classes = map<Ptr, AClass>

  function Ref(at: Places, w: string): Ptr { if w in at then at[w] else NULL }

  ghost predicate PrefixClosed(at: Places) {
    "" in at && forall w :: w in at && |w| > 0 ==> w[..|w| - 1] in at && Digit(w[|w| - 1])
  }

  ghost predicate Apart(at: Places) { forall u, w :: u in at && w in at && at[u] == at[w] ==> u == w }

  /** The node of `u` points to the nodes of the extensions by one digit, as far as there are any. */
  ghost predicate Links(x: Node, at: Places, u: string) {
    x.lchild == Ref(at, u + ['0']) && x.mchild == Ref(at, u + ['1']) && x.rchild == Ref(at, u + ['2'])
  }

  /** The nodes of the sequences that extend `w` are in memory and point to their children. */
  ghost predicate LinkedBelow(nodes: Nodes, at: Places, w: string) {
    forall u :: u in at && w <= u ==> at[u] in nodes && Links(nodes[at[u]], at, u)
  }

  ghost predicate Linked(nodes: Nodes, at: Places) {
    forall u :: u in at ==> at[u] in nodes && Links(nodes[at[u]], at, u)
  }

  ghost predicate Covered(nodes: Nodes, at: Places) {
    forall p :: p in nodes ==> exists w :: w in at && at[w] == p
  }

  /** Memory holds the trie `at` and no other nodes. */
  ghost predicate Trie(nodes: Nodes, at: Places) {
    && PrefixClosed(at) && Apart(at) && NULL !in nodes
    && Linked(nodes, at) && Covered(nodes, at)
  }

  /** The addresses of the nodes of the sequences that extend `w`. */
  ghost function Below(at: Places, w: string): set<Ptr> { set u | u in at && w <= u :: at[u] }

  ghost function Extensions(at: Places, w: string): set<string> { set u | u in at && w <= u }

  lemma {:induction false} PrefixesIn(at: Places, u: string, w: string)
    requires PrefixClosed(at) && u in at && w <= u
    ensures w in at
    decreases |u|
  {
    if |w| < |u| {
      assert w <= u[..|u| - 1];
      PrefixesIn(at, u[..|u| - 1], w);
    } else {
      assert u == w;
    }
  }

  lemma BelowIff(at: Places, u: string, w: string)
    requires Apart(at) && u in at
    ensures at[u] in Below(at, w) <==> w <= u
  {
  }

  /** A longer extension goes on with a digit. */
  lemma NextDigit(at: Places, u: string, w: string)
    requires PrefixClosed(at) && u in at && w <= u && u != w
    ensures |w| < |u| && Digit(u[|w|]) && w + [u[|w|]] <= u
  {
    assert |w| == |u| ==> u == w;
    var v := u[..|w| + 1];
    assert v == w + [u[|w|]];
    PrefixesIn(at, u, v);
    assert v[|v| - 1] == u[|w|];
  }

  /** The nodes below a sequence: its own and those below its three extensions by a digit. */
  lemma BelowSplits(at: Places, w: string)
    requires PrefixClosed(at) && w in at
    ensures Below(at, w) == {at[w]} + Below(at, w + ['0']) + Below(at, w + ['1']) + Below(at, w + ['2'])
  {
    hide PrefixClosed;
    forall p | p in Below(at, w)
      ensures p in {at[w]} + Below(at, w + ['0']) + Below(at, w + ['1']) + Below(at, w + ['2'])
    {
      var u :| u in at && w <= u && at[u] == p;
      if u != w {
        NextDigit(at, u, w);
      }
    }
    forall d, p | p in Below(at, w + [d]) ensures p in Below(at, w) {
      var u :| u in at && w + [d] <= u && at[u] == p;
    }
  }

  lemma DeeperIsSmaller(at: Places, w: string, d: char)
    requires Apart(at) && w in at
    ensures Extensions(at, w + [d]) < Extensions(at, w) && at[w] !in Below(at, w + [d])
  {
    assert w in Extensions(at, w) && !(w + [d] <= w);
    assert forall u :: u in Extensions(at, w + [d]) ==> w <= u;
  }

  lemma NothingBelow(at: Places, w: string)
    requires PrefixClosed(at) && w !in at
    ensures Below(at, w) == {} && Extensions(at, w) == {}
  {
    forall u | u in at && w <= u ensures false {
      PrefixesIn(at, u, w);
    }
  }

  /** Freeing one branch leaves the others linked. */
  lemma OtherBranchLinked(nodes: Nodes, nodes': Nodes, at: Places, w: string, d: char, e: char)
    requires Apart(at) && LinkedBelow(nodes, at, w + [e]) && d != e
    requires nodes' == nodes - Below(at, w + [d])
    ensures LinkedBelow(nodes', at, w + [e])
  {
    forall u | u in at && w + [e] <= u ensures at[u] !in Below(at, w + [d]) {
      assert u[|w|] == e;
      BelowIff(at, u, w + [d]);
    }
  }

  // ---------------------------------------------------------------------------------------------
  // Counting the nodes of a class
  // ---------------------------------------------------------------------------------------------

  ghost function Holders(nodes: Nodes, c: Ptr): set<Ptr> { set p | p in nodes && nodes[p].klass == c }

  /** Every class is in memory as long as some node points to it, no longer, and counts these nodes. */
  ghost predicate Counted(nodes: Nodes, classes: Classes) {
    && NULL !in classes
    && (forall p :: p in nodes ==> nodes[p].klass == NULL || nodes[p].klass in classes)
    && (forall c :: c in classes ==> classes[c].counter == |Holders(nodes, c)| > 0)
  }

  /** The memory of classes after one of the nodes of `c` has let go of it. */
  function Released(classes: Classes, c: Ptr): Classes
    requires c in classes
  {
    if classes[c].counter == 1 then classes - {c} else classes[c := classes[c].(counter := classes[c].counter - 1)]
  }

  /** A node lets go of its class, which is freed with its last node. */
  lemma LetGo(nodes: Nodes, classes: Classes, p: Ptr)
    requires Counted(nodes, classes) && p in nodes && nodes[p].klass != NULL
    ensures Counted(nodes[p := nodes[p].(klass := NULL)], Released(classes, nodes[p].klass))
  {
    var c := nodes[p].klass;
    var nodes', classes' := nodes[p := nodes[p].(klass := NULL)], Released(classes, c);
    var rest := Holders(nodes, c) - {p};
    assert p in Holders(nodes, c) && Holders(nodes', c) == rest && |rest| == classes[c].counter - 1;
    forall q | q in nodes' ensures nodes'[q].klass == NULL || nodes'[q].klass in classes' {
      if q != p && nodes[q].klass == c {
        assert q in rest;
      }
    }
    forall d | d in classes' && d != c ensures Holders(nodes', d) == Holders(nodes, d) { }
  }

  lemma FreeUnclassed(nodes: Nodes, classes: Classes, p: Ptr)
    requires Counted(nodes, classes) && p in nodes && nodes[p].klass == NULL
    ensures Counted(nodes - {p}, classes)
  {
    forall c | c in classes ensures Holders(nodes - {p}, c) == Holders(nodes, c) { }
  }

  /** The names of the classes that are still there have not changed. */
  ghost predicate FewerClasses(before: Classes, after: Classes) {
    forall c :: c in after ==> c in before && after[c].s == before[c].s
  }

  /** Freeing the three branches and then the node itself. */
  lemma BranchesAndNode(nodes: Nodes, at: Places, w: string, x: Node)
    requires PrefixClosed(at) && w in at
    ensures nodes[at[w] := x] - Below(at, w + ['0']) - Below(at, w + ['1']) - Below(at, w + ['2']) - {at[w]} ==
            nodes - Below(at, w)
  {
    BelowSplits(at, w);
  }

  lemma BranchesThenNode(nodes: Nodes, at: Places, w: string)
    requires PrefixClosed(at) && w in at
    ensures nodes - Below(at, w + ['0']) - Below(at, w + ['1']) - Below(at, w + ['2']) - {at[w]} ==
            nodes - Below(at, w)
  {
    BelowSplits(at, w);
  }

  // ---------------------------------------------------------------------------------------------
  // Adding a sequence
  // ---------------------------------------------------------------------------------------------

  const FRESH: Node := Node(NULL, NULL, NULL, NULL)

  /** Memory after the node `p` has been given the child `q`, a new node, for the digit `d`. */
  function WithNew(nodes: Nodes, p: Ptr, d: char, q: Ptr): Nodes
    requires p in nodes && Digit(d)
  {
    nodes[q := FRESH][p := WithChild(nodes[p], d, q)]
  }

  lemma GrowPlaces(at: Places, u: string, d: char, q: Ptr)
    requires PrefixClosed(at) && Apart(at) && u in at && Digit(d) && forall w :: w in at ==> at[w] != q
    ensures PrefixClosed(at[u + [d] := q]) && Apart(at[u + [d] := q])
  {
    assert (u + [d])[..|u|] == u;
  }

  lemma GrowRef(at: Places, u: string, d: char, q: Ptr, v: string, e: char)
    ensures Ref(at[u + [d] := q], v + [e]) == if v == u && e == d then q else Ref(at, v + [e])
  {
    assert (v + [e])[..|v|] == v && (v + [e])[|v|] == e && (u + [d])[..|u|] == u && (u + [d])[|u|] == d;
  }

  lemma GrowLinks(nodes: Nodes, at: Places, u: string, d: char, q: Ptr, v: string)
    requires Apart(at) && Linked(nodes, at) && u in at && Digit(d) && u + [d] !in at && q !in nodes && v in at
    ensures at[u] in nodes
    ensures var at', nodes' := at[u + [d] := q], WithNew(nodes, at[u], d, q);
            at'[v] in nodes' && Links(nodes'[at'[v]], at', v)
  {
    hide Ref;
    GrowRef(at, u, d, q, v, '0');
    GrowRef(at, u, d, q, v, '1');
    GrowRef(at, u, d, q, v, '2');
    assert at[v] in nodes && Links(nodes[at[v]], at, v);
    if v != u {
      assert at[v] != at[u];
    }
  }

  lemma NewLinks(at: Places, u: string, d: char, q: Ptr)
    requires PrefixClosed(at) && u + [d] !in at
    ensures Links(FRESH, at[u + [d] := q], u + [d])
  {
    var v := u + [d];
    GrowRef(at, u, d, q, v, '0');
    GrowRef(at, u, d, q, v, '1');
    GrowRef(at, u, d, q, v, '2');
    NothingBelow(at, v);
    assert forall e :: v + [e] in at ==> v + [e] in Extensions(at, v);
  }

  lemma GrowCovered(nodes: Nodes, at: Places, u: string, d: char, q: Ptr)
    requires Covered(nodes, at) && u in at && at[u] in nodes && Digit(d) && u + [d] !in at
    ensures Covered(WithNew(nodes, at[u], d, q), at[u + [d] := q])
  {
    var at' := at[u + [d] := q];
    assert at'[u + [d]] == q;
    forall p | p in nodes ensures exists v :: v in at' && at'[v] == p {
      var v :| v in at && at[v] == p;
      assert at'[v] == p;
    }
  }

  lemma GrowTrie(nodes: Nodes, at: Places, u: string, d: char, q: Ptr)
    requires Trie(nodes, at) && u in at && Digit(d) && u + [d] !in at && q !in nodes && q != NULL
    ensures at[u] in nodes && Trie(WithNew(nodes, at[u], d, q), at[u + [d] := q])
  {
    hide PrefixClosed, Apart, Covered, Links;
    var at', nodes' := at[u + [d] := q], WithNew(nodes, at[u], d, q);
    GrowPlaces(at, u, d, q);
    GrowCovered(nodes, at, u, d, q);
    forall v | v in at' ensures at'[v] in nodes' && Links(nodes'[at'[v]], at', v) {
      if v in at {
        GrowLinks(nodes, at, u, d, q, v);
      } else {
        NewLinks(at, u, d, q);
        assert at[u] != q;
      }
    }
  }

  lemma GrowCounted(nodes: Nodes, classes: Classes, p: Ptr, d: char, q: Ptr)
    requires Counted(nodes, classes) && p in nodes && q !in nodes && Digit(d)
    ensures Counted(WithNew(nodes, p, d, q), classes)
  {
    forall c | c in classes ensures Holders(WithNew(nodes, p, d, q), c) == Holders(nodes, c) { }
  }

  /** The prefixes of `w` longer than `u` have been added. */
  ghost predicate PathAdded(was: Places, at: Places, u: string, w: string) {
    && (forall x :: x in at <==> x in was || (|x| > |u| && x <= w))
    && (forall x :: x in was ==> at[x] == was[x])
  }

  /** The old nodes have kept their classes, and the new ones have none. */
  ghost predicate ClassesKept(before: Nodes, was: Places, nodes: Nodes, at: Places) {
    forall w :: w in at ==>
      && at[w] in nodes
      && nodes[at[w]].klass == if w in was && was[w] in before then before[was[w]].klass else NULL
  }

  /** Freeing what has been added and resetting one child pointer restores the memory `before`. */
  ghost predicate Undoable(before: Nodes, nodes: Nodes, h: Ptr, d: char, first: Ptr, below: set<Ptr>)
    requires h in before && Digit(d)
  {
    nodes - below == if below == {} then before else before[h := WithChild(before[h], d, first)]
  }

  lemma GrowPath(was: Places, at: Places, u: string, w: string, e: char, q: Ptr)
    requires u <= w && w + [e] !in at && PathAdded(was, at, u, w)
    ensures PathAdded(was, at[w + [e] := q], u, w + [e])
  {
    var at' := at[w + [e] := q];
    forall x ensures x in at' <==> x in was || (|x| > |u| && x <= w + [e]) {
      PrefixOfLonger(x, w, e);
    }
  }

  lemma PrefixOfLonger(x: string, w: string, e: char)
    ensures x <= w + [e] <==> x <= w || x == w + [e]
  {
    if x <= w + [e] {
      assert |x| <= |w| ==> x == (w + [e])[..|x|] == w[..|x|];
      assert |x| > |w| ==> x == w + [e];
    }
  }

  lemma GrowKept(before: Nodes, was: Places, nodes: Nodes, at: Places, u: string, d: char, q: Ptr)
    requires ClassesKept(before, was, nodes, at) && u in at && at[u] in nodes && q !in nodes && Digit(d)
    requires u + [d] !in was
    ensures ClassesKept(before, was, WithNew(nodes, at[u], d, q), at[u + [d] := q])
  {
  }

  /** A new node below `v` joins the nodes that would be freed. */
  lemma GrowBelow(at: Places, v: string, w: string, q: Ptr)
    requires v <= w && w !in at
    ensures Below(at[w := q], v) == Below(at, v) + {q}
  {
    var at' := at[w := q];
    forall p | p in Below(at, v) ensures p in Below(at', v) {
      var u :| u in at && v <= u && at[u] == p;
      assert at'[u] == p;
    }
    assert at'[w] == q;
  }

  lemma GrowUndoable(before: Nodes, nodes: Nodes, h: Ptr, d: char, first: Ptr, below: set<Ptr>, p: Ptr, e: char, q: Ptr)
    requires h in before && Digit(d) && Digit(e) && p in nodes && q !in nodes
    requires Undoable(before, nodes, h, d, first, below)
    requires below == {} ==> p == h && e == d && first == q
    requires below != {} ==> p in below
    ensures Undoable(before, WithNew(nodes, p, e, q), h, d, first, below + {q})
  {
    var nodes' := WithNew(nodes, p, e, q);
    if below == {} {
      assert nodes == before;
      assert nodes' - {q} == before[h := WithChild(before[h], d, q)];
    } else {
      assert nodes' - (below + {q}) == nodes - below;
    }
  }

  /** What the loop of `seq_add` keeps: memory holds the trie `was` with a longer and longer path `w` added below
      `u`, starting with the digit `d`, and what has been added could be taken back. */
  ghost predicate Adding(before: Nodes, was: Places, nodes: Nodes, at: Places, u: string, d: char, w: string) {
    && Digit(d) && u in was && was[u] in before && u <= w && w in at
    && (u == w || u + [d] <= w)
    && PathAdded(was, at, u, w) && ClassesKept(before, was, nodes, at)
    && Undoable(before, nodes, was[u], d, Ref(at, u + [d]), Below(at, u + [d]))
  }

  lemma AddingNothing(nodes: Nodes, at: Places, u: string, d: char)
    requires PrefixClosed(at) && Linked(nodes, at) && u in at && u + [d] !in at && Digit(d)
    ensures Adding(nodes, at, nodes, at, u, d, u)
  {
    NothingBelow(at, u + [d]);
  }

  lemma NotYetAdded(was: Places, at: Places, u: string, d: char, w: string, e: char)
    requires PrefixClosed(was) && PathAdded(was, at, u, w) && u + [d] !in was
    requires u <= w && ((u == w && e == d) || u + [d] <= w)
    ensures w + [e] !in at && w + [e] !in was
  {
    if w + [e] in was {
      assert u + [d] <= w + [e];
      PrefixesIn(was, w + [e], u + [d]);
    }
  }

  lemma AddingMore(before: Nodes, was: Places, nodes: Nodes, at: Places, u: string, d: char, w: string, e: char, q: Ptr)
    requires PrefixClosed(at) && Linked(nodes, at) && Adding(before, was, nodes, at, u, d, w) && Digit(e)
    requires w + [e] !in at && w + [e] !in was && q !in nodes && (w == u ==> e == d)
    ensures at[w] in nodes
    ensures Adding(before, was, WithNew(nodes, at[w], e, q), at[w + [e] := q], u, d, w + [e])
  {
    var v := u + [d];
    GrowPath(was, at, u, w, e, q);
    GrowKept(before, was, nodes, at, w, e, q);
    assert v <= w + [e];
    GrowBelow(at, v, w + [e], q);
    var h := was[u];
    if u == w {
      NothingBelow(at, v);
      assert w + [e] == v && Ref(at[w + [e] := q], v) == q;
      GrowUndoable(before, nodes, h, d, q, Below(at, v), at[w], e, q);
    } else {
      PrefixesIn(at, w, v);
      assert v != w + [e] && Ref(at[w + [e] := q], v) == Ref(at, v);
      assert at[w] in Below(at, v);
      GrowUndoable(before, nodes, h, d, Ref(at, v), Below(at, v), at[w], e, q);
    }
  }

  lemma Reset(before: Nodes, nodes: Nodes, h: Ptr, d: char, first: Ptr, below: set<Ptr>)
    requires h in before && Digit(d) && Undoable(before, nodes, h, d, first, below)
    requires h in nodes && h !in below && Child(before[h], d) == NULL
    ensures (nodes - below)[h := WithChild(nodes[h], d, NULL)] == before
  {
    assert (nodes - below)[h] == nodes[h];
    assert WithChild(WithChild(before[h], d, first), d, NULL) == before[h];
  }

  lemma TakenBack(before: Nodes, was: Places, nodes: Nodes, at: Places, u: string, d: char, w: string)
    requires Linked(before, was) && Linked(nodes, at) && Apart(at)
    requires Adding(before, was, nodes, at, u, d, w) && u + [d] !in was
    ensures was[u] in nodes && Child(nodes[was[u]], d) == Ref(at, u + [d])
    ensures (nodes - Below(at, u + [d]))[was[u] := WithChild(nodes[was[u]], d, NULL)] == before
  {
    var h := was[u];
    assert Links(before[h], was, u) && Links(nodes[h], at, u);
    ChildIs(before[h], was, u, d);
    ChildIs(nodes[h], at, u, d);
    DeeperIsSmaller(at, u, d);
    Reset(before, nodes, h, d, Ref(at, u + [d]), Below(at, u + [d]));
  }

  /** In all, the prefixes of the sequence have been added. */
  lemma PrefixesAdded(was: Places, at: Places, u: string, s: string)
    requires PrefixClosed(was) && u in was && u <= s && PathAdded(was, at, u, s)
    ensures forall x :: x in at <==> x in was || x <= s
  {
    forall x | x <= s && |x| <= |u| ensures x in was {
      assert x == s[..|x|] == u[..|x|];
      PrefixesIn(was, u, x);
    }
  }

  // ---------------------------------------------------------------------------------------------
  // Removing a branch
  // ---------------------------------------------------------------------------------------------

  /** The places of the sequences that do not extend `s`. */
  ghost function Cut(at: Places, s: string): Places { map w | w in at && !(s <= w) :: at[w] }

  /** Memory after the branch of `s` has been cut off its parent and freed. */
  ghost function WithoutBranch(nodes: Nodes, at: Places, parent: Ptr, d: char, s: string): Nodes
    requires parent in nodes && Digit(d)
  {
    nodes[parent := WithChild(nodes[parent], d, NULL)] - Below(at, s)
  }

  lemma CutRef(at: Places, u: string, d: char, v: string, e: char)
    requires PrefixClosed(at) && !(u + [d] <= v)
    ensures Ref(Cut(at, u + [d]), v + [e]) == if v == u && e == d then NULL else Ref(at, v + [e])
  {
    var s, x := u + [d], v + [e];
    assert x[..|v|] == v && x[|v|] == e && s[..|u|] == u && s[|u|] == d;
    if s <= x {
      assert |s| <= |v| ==> s <= v;
      assert s == x;
    }
  }

  lemma CutLinks(nodes: Nodes, at: Places, u: string, d: char, v: string)
    requires PrefixClosed(at) && Apart(at) && Linked(nodes, at) && Digit(d) && u in at
    requires v in at && !(u + [d] <= v)
    ensures at[u] in nodes
    ensures var nodes', at' := WithoutBranch(nodes, at, at[u], d, u + [d]), Cut(at, u + [d]);
            at[v] in nodes' && Links(nodes'[at[v]], at', v)
  {
    hide Ref, Cut;
    BelowIff(at, v, u + [d]);
    CutRef(at, u, d, v, '0');
    CutRef(at, u, d, v, '1');
    CutRef(at, u, d, v, '2');
    var x := nodes[at[v]];
    assert Links(x, at, v);
    if v == u {
      assert Links(WithChild(x, d, NULL), Cut(at, u + [d]), v);
    } else {
      assert at[v] != at[u];
    }
  }

  lemma CutPlaces(at: Places, s: string)
    requires PrefixClosed(at) && Apart(at) && |s| > 0
    ensures PrefixClosed(Cut(at, s)) && Apart(Cut(at, s))
  {
    forall w | w in Cut(at, s) && |w| > 0 ensures w[..|w| - 1] in Cut(at, s) && Digit(w[|w| - 1]) {
      assert s <= w[..|w| - 1] ==> s <= w;
    }
  }

  lemma CutTrie(nodes: Nodes, at: Places, u: string, d: char)
    requires Trie(nodes, at) && Digit(d) && u in at
    ensures at[u] in nodes && Trie(WithoutBranch(nodes, at, at[u], d, u + [d]), Cut(at, u + [d]))
  {
    var s := u + [d];
    var nodes', at' := WithoutBranch(nodes, at, at[u], d, s), Cut(at, s);
    CutPlaces(at, s);
    forall v | v in at' ensures at'[v] in nodes' && Links(nodes'[at'[v]], at', v) {
      CutLinks(nodes, at, u, d, v);
    }
    forall p | p in nodes' ensures exists w :: w in at' && at'[w] == p {
      var w :| w in at && at[w] == p;
      BelowIff(at, w, s);
      assert w in at';
    }
  }

  lemma CutKept(nodes: Nodes, at: Places, u: string, d: char)
    requires PrefixClosed(at) && Apart(at) && Linked(nodes, at) && Digit(d) && u in at
    ensures at[u] in nodes
    ensures ClassesKept(nodes, at, WithoutBranch(nodes, at, at[u], d, u + [d]), Cut(at, u + [d]))
  {
    var s := u + [d];
    forall v | v in Cut(at, s) ensures at[v] in nodes && at[v] !in Below(at, s) {
      BelowIff(at, v, s);
    }
  }

  /** Taking one pointer out of the parent does not touch what is below. */
  lemma DetachedLinked(nodes: Nodes, at: Places, u: string, d: char)
    requires Apart(at) && Linked(nodes, at) && Digit(d) && u in at
    ensures at[u] in nodes
    ensures LinkedBelow(nodes[at[u] := WithChild(nodes[at[u]], d, NULL)], at, u + [d])
  {
    assert !(u + [d] <= u);
  }

  /** All that `seq_remove` needs before and after the branch of `s` is freed. */
  lemma CutReady(nodes: Nodes, classes: Classes, at: Places, u: string, d: char, s: string)
    requires Trie(nodes, at) && Counted(nodes, classes) && u in at && Digit(d) && s == u + [d]
    ensures at[u] in nodes && Child(nodes[at[u]], d) == Ref(at, s)
    ensures var detached := nodes[at[u] := WithChild(nodes[at[u]], d, NULL)];
            (&& LinkedBelow(detached, at, s) && Counted(detached, classes) && NULL !in detached
             && Trie(detached - Below(at, s), Cut(at, s)))
    ensures "" in Cut(at, s) && Cut(at, s)[""] == at[""]
  {
    DetachedLinked(nodes, at, u, d);
    CutTrie(nodes, at, u, d);
    ChildIs(nodes[at[u]], at, u, d);
    RelinkedCounted(nodes, classes, at[u], WithChild(nodes[at[u]], d, NULL));
  }

  lemma RelinkedCounted(nodes: Nodes, classes: Classes, p: Ptr, x: Node)
    requires Counted(nodes, classes) && p in nodes && x.klass == nodes[p].klass
    ensures Counted(nodes[p := x], classes)
  {
    forall c | c in classes ensures Holders(nodes[p := x], c) == Holders(nodes, c) { }
  }

  // ---------------------------------------------------------------------------------------------
  // Joining classes
  // ---------------------------------------------------------------------------------------------

  /** The nodes `s` have moved from the class `c` to the class `c'`, and nothing else has changed. */
  ghost predicate Moved(nodes: Nodes, nodes': Nodes, s: set<Ptr>, c: Ptr, c': Ptr) {
    && SameShape(nodes, nodes')
    && forall p :: p in nodes ==> nodes'[p].klass == if p in s && nodes[p].klass == c then c' else nodes[p].klass
  }

  /** The class `c'` counts its nodes; its name and the other classes have not changed, apart from the name of `c`. */
  ghost predicate Recounted(nodes: Nodes, classes: Classes, classes': Classes, c: Ptr, c': Ptr) {
    && classes'.Keys == classes.Keys && c in classes && c' in classes
    && classes'[c'] == AClass(|Holders(nodes, c')|, classes[c'].s)
    && forall d :: d in classes && d != c && d != c' ==> classes'[d] == classes[d]
  }

  lemma MovedAgain(nodes: Nodes, n1: Nodes, n2: Nodes, s: set<Ptr>, t: set<Ptr>, c: Ptr, c': Ptr)
    requires Moved(nodes, n1, s, c, c') && Moved(n1, n2, t, c, c') && c != c'
    ensures Moved(nodes, n2, s + t, c, c')
  {
    forall p | p in nodes
      ensures n2[p].klass == if p in s + t && nodes[p].klass == c then c' else nodes[p].klass
      ensures n2[p] == nodes[p].(klass := n2[p].klass) {
      assert p in n1;
    }
  }

  lemma MovedLinked(nodes: Nodes, n: Nodes, at: Places, w: string, s: set<Ptr>, c: Ptr, c': Ptr)
    requires LinkedBelow(nodes, at, w) && Moved(nodes, n, s, c, c')
    ensures LinkedBelow(n, at, w) && n.Keys == nodes.Keys
    ensures LinkedBelow(n, at, w + ['0']) && LinkedBelow(n, at, w + ['1']) && LinkedBelow(n, at, w + ['2'])
  {
    LinkedStays(nodes, n, at, w);
    BranchLinked(n, at, w, '0');
    BranchLinked(n, at, w, '1');
    BranchLinked(n, at, w, '2');
  }

  lemma RecountedAgain(n: Nodes, n': Nodes, k: Classes, k1: Classes, k2: Classes, c: Ptr, c': Ptr)
    requires Recounted(n, k, k1, c, c') && c != c'
    ensures Recounted(n, k1, k1, c, c')
    ensures Recounted(n', k1, k2, c, c') ==> Recounted(n', k, k2, c, c')
  {
  }

  lemma MovedNode(nodes: Nodes, p: Ptr, c: Ptr, c': Ptr)
    requires p in nodes && nodes[p].klass == c && c != c'
    ensures var n := nodes[p := nodes[p].(klass := c')];
            Moved(nodes, n, {p}, c, c') && |Holders(n, c')| == |Holders(nodes, c')| + 1
  {
    var n := nodes[p := nodes[p].(klass := c')];
    assert Holders(n, c') == Holders(nodes, c') + {p};
  }

  ghost predicate InClass(nodes: Nodes, h: Ptr, p: Ptr)
    requires h in nodes && p in nodes
  {
    p == h || (nodes[h].klass != NULL && nodes[p].klass == nodes[h].klass)
  }

  /** Exactly the classes of the nodes `h1` and `h2` have become one class, `c`. */
  ghost predicate Merged(nodes: Nodes, nodes': Nodes, h1: Ptr, h2: Ptr, c: Ptr)
    requires h1 in nodes && h2 in nodes
  {
    && SameShape(nodes, nodes') && c != NULL
    && forall p :: p in nodes ==>
        if InClass(nodes, h1, p) || InClass(nodes, h2, p) then nodes'[p].klass == c
        else nodes'[p].klass == nodes[p].klass != c
  }

  ghost predicate Named(classes: Classes) { forall c :: c in classes ==> classes[c].s.Text? }

  /** The name of a class; a node without a class has the empty name. */
  function NameOf(classes: Classes, c: Ptr): string {
    if c in classes && classes[c].s.Text? then classes[c].s.s else ""
  }

  function JoinedName(a: string, b: string): string { if a == b then a else a + b }

  /** Apart from `c`, no class is new or has another name. */
  ghost predicate OthersNamed(before: Classes, after: Classes, c: Ptr) {
    forall d :: d in after && d != c ==> d in before && after[d].s == before[d].s
  }

  /** A node without a class joins the class `c`. */
  lemma JoinClass(nodes: Nodes, classes: Classes, h: Ptr, g: Ptr)
    requires Counted(nodes, classes) && h in nodes && g in nodes && nodes[h].klass == NULL && nodes[g].klass != NULL
    ensures var c := nodes[g].klass; var n := nodes[h := nodes[h].(klass := c)];
            (&& c in classes && Merged(nodes, n, h, g, c) && Merged(nodes, n, g, h, c)
             && Counted(n, classes[c := classes[c].(counter := classes[c].counter + 1)]))
  {
    var c := nodes[g].klass;
    var n := nodes[h := nodes[h].(klass := c)];
    assert Holders(n, c) == Holders(nodes, c) + {h};
    forall d | d in classes && d != c ensures Holders(n, d) == Holders(nodes, d) { }
  }

  /** Two nodes without a class get a new one. */
  lemma JoinNewClass(nodes: Nodes, classes: Classes, h1: Ptr, h2: Ptr, c: Ptr, name: CString)
    requires Counted(nodes, classes) && h1 in nodes && h2 in nodes && h1 != h2 && c !in classes && c != NULL
    requires nodes[h1].klass == NULL && nodes[h2].klass == NULL
    ensures var n := nodes[h1 := nodes[h1].(klass := c)][h2 := nodes[h2].(klass := c)];
            Merged(nodes, n, h1, h2, c) && Counted(n, classes[c := AClass(2, name)])
  {
    var n := nodes[h1 := nodes[h1].(klass := c)][h2 := nodes[h2].(klass := c)];
    forall p | p in nodes ensures nodes[p].klass != c { }
    assert Holders(n, c) == {h1, h2};
    forall d | d in classes ensures Holders(n, d) == Holders(nodes, d) { }
  }

  /** The nodes of two classes have moved, one class after the other, to a third one. */
  lemma MergeClasses(nodes: Nodes, n1: Nodes, n2: Nodes, h1: Ptr, h2: Ptr, c: Ptr, all: set<Ptr>)
    requires h1 in nodes && h2 in nodes && nodes[h1].klass != NULL && nodes[h2].klass != NULL && c != NULL
    requires all == nodes.Keys && forall p :: p in nodes ==> nodes[p].klass != c
    requires Moved(nodes, n1, all, nodes[h1].klass, c) && Moved(n1, n2, all, nodes[h2].klass, c)
    ensures Merged(nodes, n2, h1, h2, c)
  {
    forall p | p in nodes
      ensures n2[p] == nodes[p].(klass := n2[p].klass)
      ensures if InClass(nodes, h1, p) || InClass(nodes, h2, p) then n2[p].klass == c
              else n2[p].klass == nodes[p].klass != c
    {
      assert p in n1;
    }
  }

  lemma MergedCounted(nodes: Nodes, n: Nodes, classes: Classes, k: Classes, h1: Ptr, h2: Ptr, c: Ptr)
    requires Counted(nodes, classes) && h1 in nodes && h2 in nodes && Merged(nodes, n, h1, h2, c)
    requires nodes[h1].klass != NULL && nodes[h2].klass != NULL && c !in classes
    requires k.Keys == classes.Keys + {c} - {nodes[h1].klass} - {nodes[h2].klass}
    requires k[c].counter == |Holders(n, c)| && forall d :: d in k && d != c ==> k[d].counter == classes[d].counter
    ensures Counted(n, k)
  {
    forall d | d in k && d != c ensures Holders(n, d) == Holders(nodes, d) {
      forall p | p in nodes ensures n[p].klass == d <==> nodes[p].klass == d {
        assert InClass(nodes, h1, p) || InClass(nodes, h2, p) || n[p].klass == nodes[p].klass;
      }
    }
    assert h1 in Holders(n, c);
  }

  // ---------------------------------------------------------------------------------------------
  // The interface
  // ---------------------------------------------------------------------------------------------

  /** What `seq_new` allocates: one node, which is the root. */
  lemma NewTrie(address: Ptr)
    requires address != NULL
    ensures var nodes, at := map[address := FRESH], map["" := address];
            Trie(nodes, at) && Counted(nodes, map[]) && Named(map[])
  {
  }

  class Seq {
    var root: Ptr
    var nodes: Nodes
    var classes: Classes
    ghost var at: Places

    /** History: how often `malloc` has failed. */
    ghost var refused: nat

    ghost predicate Valid()
      reads this
    {
      Trie(nodes, at) && Counted(nodes, classes) && Named(classes) && root == at[""]
    }

    /** `seq_new`, when the allocation succeeds. */
    constructor (address: Ptr)
      requires address != NULL
      ensures Valid() && at.Keys == {""} && classes == map[]
    {
      hide Trie, Counted, Named;
      NewTrie(address);
      root, nodes, classes, at := address, map[address := FRESH], map[], map["" := address];
      refused := 0;
    }

    /** `malloc` fails or returns an address that is not in use. */
    method Malloc() returns (p: Ptr)
      modifies `refused
      ensures p == NULL || (p !in nodes && p !in classes)
      ensures refused == old(refused) + if p == NULL then 1 else 0
    {
      p :| p == NULL || (p !in nodes && p !in classes);
      if p == NULL {
        refused := refused + 1;
      }
    }

    /** `malloc` for a string, whose address is not modelled. */
    method MallocString() returns (granted: bool)
      modifies `refused
      ensures refused == old(refused) + if granted then 0 else 1
    {
      granted := *;
      if !granted {
        refused := refused + 1;
      }
    }

    /** `seq_bad` */
    method SeqBad(s: CString) returns (bad: bool)
      ensures bad <==> Bad(s)
      ensures bad <==> s.Missing? || s.s == "" || exists i :: 0 <= i < |s.s| && s.s[i] !in "012"
    {
      if s.Missing? || s.s == "" {
        return true;
      }
      var i := 0;
      while i < |s.s| && Digit(s.s[i])
        invariant 0 <= i <= |s.s| && forall k :: 0 <= k < i ==> Digit(s.s[k])
      {
        i := i + 1;
      }
      bad := i < |s.s|;
    }

    /** `seq_walk`: `m` is the length of the longest prefix of the sequence, less its last `step` digits, that is in
        the trie.  `count` tells whether the caller passes a counter. */
    method SeqWalk(p: Ptr, s: string, step: nat, count: bool) returns (r: Ptr, l: nat, ghost m: nat)
      requires Valid() && p == root && step <= 1 && |s| > 0 && forall i :: 0 <= i < |s| ==> Digit(s[i])
      ensures m <= |s| - step && s[..m] in at && (m < |s| - step ==> s[..m + 1] !in at)
      ensures l == if m < |s| - step then m + 1 else m
      ensures r == if m == |s| - step then if step == 0 && count then NULL else at[s[..m]]
                   else if step == 1 || !count then NULL else at[s[..m]]
      ensures at[s[..m]] != NULL
    {
      var q, i, stop := p, 0, false;
      m := 0;
      while i + step < |s| && !stop
        invariant 0 <= i <= |s| - step && m == (if stop then i - 1 else i) && m >= 0
        invariant s[..m] in at && q == at[s[..m]] && (stop ==> s[..m + 1] !in at)
      {
        StepDown(nodes, at, s, i);
        if Child(nodes[q], s[i]) != NULL {
          q := Child(nodes[q], s[i]);
          m := m + 1;
        } else {
          stop := true;
        }
        i := i + 1;
      }
      l := i;
      if (!stop && step == 0 && count) || (step == 1 && stop) || (stop && !count) {
        return NULL, l, m;
      }
      r := q;
    }

    /** `seq_valid` */
    method SeqValid(p: Ptr, s: CString) returns (r: Outcome)
      requires Valid() && (p == NULL || p == root)
      ensures r == if p == NULL || Bad(s) then Invalid else if s.s in at then Changed else Unchanged
    {
      var bad := SeqBad(s);
      if p == NULL || bad {
        return Invalid;
      }
      var h, _, m := SeqWalk(p, s.s, 0, false);
      if m == |s.s| {
        assert s.s[..m] == s.s;
      } else {
        NotBeyond(at, s.s, m);
      }
      r := if h == NULL then Unchanged else Changed;
    }

    /** `seq_delete`: nothing stays behind in memory. */
    method SeqDelete(p: Ptr)
      requires Valid() && p == root
      modifies `nodes, `classes
      ensures nodes == map[] && classes == map[]
    {
      SeqDeleteAll(p, at, "");
      NothingLeft(old(nodes), nodes, classes, at);
    }

    /** `seq_add_new` */
    method SeqAddNew(h: Ptr, d: char, ghost u: string, ghost w: string) returns (ok: bool, ghost q: Ptr)
      requires Valid() && u in at && h == at[u] && Digit(d) && w == u + [d] && w !in at
      modifies `nodes, `at, `refused
      ensures Valid()
      ensures refused == old(refused) + if ok then 0 else 1
      ensures !ok ==> nodes == old(nodes) && at == old(at)
      ensures ok ==> q !in old(nodes) && h in old(nodes) && nodes == WithNew(old(nodes), h, d, q)
      ensures ok ==> at == old(at)[w := q]
    {
      hide Linked, Covered, Counted, PrefixClosed, Apart;
      var new_ := Malloc();
      q := new_;
      if new_ == NULL {
        ok := false;
        return;
      }
      GrowTrie(nodes, at, u, d, new_);
      GrowCounted(nodes, classes, h, d, new_);
      nodes := nodes[new_ := FRESH];
      nodes := nodes[h := WithChild(nodes[h], d, new_)];
      at := at[w := new_];
      ok := true;
    }

    /** One round of the loop of `seq_add`: the next digit gets a node. */
    method SeqAddStep(h: Ptr, e: char, ghost before: Nodes, ghost was: Places, ghost u: string, ghost d: char,
                      ghost w: string)
      returns (ok: bool, next: Ptr)
      requires Valid() && Adding(before, was, nodes, at, u, d, w) && h == Ref(at, w) && Digit(e)
      requires w + [e] !in at && w + [e] !in was && (w == u ==> e == d)
      modifies `nodes, `at, `refused
      ensures Valid()
      ensures refused == old(refused) + if ok then 0 else 1
      ensures !ok ==> nodes == old(nodes) && at == old(at)
      ensures ok ==> Adding(before, was, nodes, at, u, d, w + [e]) && next == Ref(at, w + [e])
    {
      ghost var q;
      ok, q := SeqAddNew(h, e, w, w + [e]);
      if ok {
        AddingMore(before, was, old(nodes), old(at), u, d, w, e, q);
        next := Child(nodes[h], e);
      } else {
        next := NULL;
      }
    }

    /** What `seq_add` does when an allocation fails. */
    method TakeBack(h2: Ptr, d: char, ghost before: Nodes, ghost was: Places, ghost u: string, ghost w: string)
      requires Trie(nodes, at) && Linked(before, was)
      requires Adding(before, was, nodes, at, u, d, w) && u + [d] !in was && h2 == was[u]
      modifies `nodes, `at
      ensures nodes == before && at == was
    {
      TakenBack(before, was, nodes, at, u, d, w);
      SeqAddDelete(Child(nodes[h2], d), at, u + [d]);
      nodes := nodes[h2 := WithChild(nodes[h2], d, NULL)];
      at := was;
    }

    /** The loop of `seq_add`, from the node of `u` on. */
    method SeqAddPath(h2: Ptr, s: string, j: nat, ghost u: string) returns (ok: bool)
      requires Valid() && u in at && h2 == at[u] && j < |s| && u == s[..j] && u + [s[j]] !in at
      requires forall i :: 0 <= i < |s| ==> Digit(s[i])
      modifies `nodes, `at, `refused
      ensures Valid()
      ensures refused == old(refused) + if ok then 0 else 1
      ensures !ok ==> nodes == old(nodes) && at == old(at)
      ensures ok ==> PathAdded(old(at), at, u, s) && ClassesKept(old(nodes), old(at), nodes, at)
    {
      hide Linked, Covered, Counted, PrefixClosed, Apart, PathAdded, ClassesKept, Undoable;
      ghost var w := u;
      AddingNothing(nodes, at, u, s[j]);
      var h, l := h2, j;
      while l < |s|
        invariant j <= l <= |s| && w == s[..l] && h == Ref(at, w)
        invariant Valid() && refused == old(refused)
        invariant Adding(old(nodes), old(at), nodes, at, u, s[j], w)
      {
        NotYetAdded(old(at), at, u, s[j], w, s[l]);
        var added, next := SeqAddStep(h, s[l], old(nodes), old(at), u, s[j], w);
        if !added {
          TakeBack(h2, s[j], old(nodes), old(at), u, w);
          return false;
        }
        h := next;
        w := w + [s[l]];
        l := l + 1;
      }
      assert s[..l] == s;
      ok := true;
    }

    /** `seq_add`: the prefixes of the sequence are added, without classes, and nothing else changes; if and only if
        an allocation fails, the call fails, and memory is exactly as before. */
    method SeqAdd(p: Ptr, s: CString) returns (r: Outcome)
      requires Valid() && (p == NULL || p == root)
      modifies `nodes, `at, `refused
      ensures Valid()
      ensures refused == old(refused) + if r == NoMemory then 1 else 0
      ensures r == Invalid <==> p == NULL || Bad(s)
      ensures r == Unchanged <==> p != NULL && !Bad(s) && s.s in old(at)
      ensures r != Changed ==> nodes == old(nodes) && at == old(at)
      ensures r == Changed ==> forall x :: x in at <==> x in old(at) || x <= s.s
      ensures r == Changed ==> ClassesKept(old(nodes), old(at), nodes, at)
    {
      hide Linked, Covered, Counted, PrefixClosed, Apart, ClassesKept, PathAdded;
      var bad := SeqBad(s);
      if p == NULL || bad {
        return Invalid;
      }
      var h, l, m := SeqWalk(p, s.s, 0, true);
      if h == NULL {
        assert s.s[..m] == s.s;
        return Unchanged;
      }
      l := l - 1;
      NotBeyond(at, s.s, m);
      ghost var u := s.s[..m];
      assert s.s[..m + 1] == u + [s.s[m]];
      var ok := SeqAddPath(h, s.s, l, u);
      if !ok {
        return NoMemory;
      }
      PrefixesAdded(old(at), at, u, s.s);
      r := Changed;
    }

    /** Cutting off and freeing the branch of a child. */
    method SeqRemoveBranch(h1: Ptr, d: char, ghost u: string, ghost s: string)
      requires Valid() && u in at && h1 == at[u] && Digit(d) && s == u + [d]
      modifies `nodes, `classes, `at
      ensures Valid() && FewerClasses(old(classes), classes)
      ensures at == Cut(old(at), s) && h1 in old(nodes) && nodes == WithoutBranch(old(nodes), old(at), h1, d, s)
    {
      hide LinkedBelow, Linked, Covered, Counted, PrefixClosed, Apart;
      CutReady(nodes, classes, at, u, d, s);
      var h2 := Child(nodes[h1], d);
      nodes := nodes[h1 := WithChild(nodes[h1], d, NULL)];
      SeqClassRemove(h2, at, s);
      at := Cut(at, s);
    }

    /** `seq_remove`: the extensions of the sequence are removed, with the classes that only they had, and nothing else
        changes. */
    method SeqRemove(p: Ptr, s: CString) returns (r: Outcome)
      requires Valid() && (p == NULL || p == root)
      modifies `nodes, `classes, `at
      ensures Valid()
      ensures r == if p == NULL || Bad(s) then Invalid else if s.s in old(at) then Changed else Unchanged
      ensures r != Changed ==> nodes == old(nodes) && at == old(at) && classes == old(classes)
      ensures r == Changed ==> at == Cut(old(at), s.s) && FewerClasses(old(classes), classes)
      ensures r == Changed ==> ClassesKept(old(nodes), old(at), nodes, at)
    {
      hide Linked, Covered, Counted, PrefixClosed, Apart, ClassesKept, FewerClasses;
      var bad := SeqBad(s);
      if p == NULL || bad {
        return Invalid;
      }
      var h1, l, m := SeqWalk(p, s.s, 1, true);
      if h1 == NULL {
        NotBeyond(at, s.s, m);
        return Unchanged;
      }
      ghost var u := s.s[..l];
      assert s.s == u + [s.s[l]] && s.s[..l + 1] == s.s;
      StepDown(nodes, at, s.s, l);
      if Child(nodes[h1], s.s[l]) == NULL {
        return Unchanged;
      }
      CutKept(nodes, at, u, s.s[l]);
      SeqRemoveBranch(h1, s.s[l], u, s.s);
      r := Changed;
    }

    /** `class_new`, with the given counter */
    method ClassNew(counter: nat, name: string) returns (c: Ptr)
      requires forall d :: d in classes ==> classes[d].s.Text?
      modifies `classes, `refused
      ensures refused == old(refused) + if c == NULL then 1 else 0
      ensures c == NULL ==> classes == old(classes)
      ensures c != NULL ==> c !in old(classes) && classes == old(classes)[c := AClass(counter, Text(name))]
    {
      c := Malloc();
      if c != NULL {
        classes := classes[c := AClass(counter, Text(name))];
      }
    }

    /** The end of `seq_equiv`: the nodes of two classes get a new class `c`, and the old ones are freed. */
    method MergeInto(h1: Ptr, h2: Ptr, c: Ptr, ghost before: Classes, name: string)
      requires Trie(nodes, at) && Counted(nodes, before) && Named(before) && root == at[""]
      requires h1 in nodes && h2 in nodes && nodes[h1].klass != NULL && nodes[h2].klass != NULL
      requires nodes[h1].klass != nodes[h2].klass && c !in before && c != NULL
      requires classes == before[c := AClass(0, Text(name))]
      modifies `nodes, `classes
      ensures Valid() && Merged(old(nodes), nodes, h1, h2, c)
      ensures NameOf(classes, c) == name && OthersNamed(before, classes, c)
    {
      hide LinkedBelow, Linked, Covered, PrefixClosed, Apart, Merged, Moved, Below;
      var c1, c2 := nodes[h1].klass, nodes[h2].klass;
      ghost var n0, all, k0 := nodes, nodes.Keys, classes;
      NoHolders(n0, before, c);
      WholeTrie(n0, at);
      ClassChange(root, c1, c, at, "");
      ghost var n1, k1 := nodes, classes;
      ShapeOfMoved(n0, n1, at, c1, c);
      ClassChange(root, c2, c, at, "");
      ShapeOfMoved(n1, nodes, at, c2, c);
      MergeClasses(n0, n1, nodes, h1, h2, c, all);
      classes := classes - {c1};
      classes := classes - {c2};
      MergedCounted(n0, nodes, before, classes, h1, h2, c);
    }

    /** `seq_equiv`: exactly the classes of the two sequences become one, named after both; the call changes nothing
        if they are equal, missing or equivalent already, or if an allocation fails.  It allocates nothing if just one
        of them has a class. */
    method SeqEquiv(p: Ptr, s1: CString, s2: CString) returns (r: Outcome, ghost c: Ptr)
      requires Valid() && (p == NULL || p == root)
      modifies `nodes, `classes, `refused
      ensures Valid()
      ensures refused == old(refused) + if r == NoMemory then 1 else 0
      ensures r == Invalid <==> p == NULL || Bad(s1) || Bad(s2)
      ensures r == Unchanged <==> p != NULL && !Bad(s1) && !Bad(s2) && Nothing(old(nodes), at, s1.s, s2.s)
      ensures r != Changed ==> nodes == old(nodes) && classes == old(classes)
      ensures r == Changed || r == NoMemory ==>
                s1.s in at && s2.s in at && at[s1.s] in old(nodes) && at[s2.s] in old(nodes)
      ensures r == NoMemory ==> (old(nodes)[at[s1.s]].klass == NULL <==> old(nodes)[at[s2.s]].klass == NULL)
      ensures r == Changed ==> Merged(old(nodes), nodes, at[s1.s], at[s2.s], c) && OthersNamed(old(classes), classes, c)
      ensures r == Changed ==>
                NameOf(classes, c) == JoinedName(NameOf(old(classes), old(nodes)[at[s1.s]].klass),
                                                 NameOf(old(classes), old(nodes)[at[s2.s]].klass))
    {
      hide LinkedBelow, Linked, Covered, PrefixClosed, Apart, Merged;
      c := NULL;
      var bad1 := SeqBad(s1);
      var bad2 := SeqBad(s2);
      if p == NULL || bad1 || bad2 {
        return Invalid, c;
      }
      if s1.s == s2.s {
        return Unchanged, c;
      }
      var h1 := Find(p, s1.s);
      var h2 := Find(p, s2.s);
      if h1 == NULL || h2 == NULL {
        return Unchanged, c;
      }
      DifferentNodes(nodes, at, s1.s, s2.s);
      if nodes[h1].klass == NULL || nodes[h2].klass == NULL {
        r, c := JoinUnclassed(h1, h2);
      } else if nodes[h1].klass == nodes[h2].klass {
        r := Unchanged;
      } else {
        r, c := JoinClassed(h1, h2);
      }
    }

    /** The branches of `seq_equiv` in which one of the nodes has no class. */
    method JoinUnclassed(h1: Ptr, h2: Ptr) returns (r: Outcome, ghost c: Ptr)
      requires Valid() && h1 in nodes && h2 in nodes && h1 != h2
      requires nodes[h1].klass == NULL || nodes[h2].klass == NULL
      modifies `nodes, `classes, `refused
      ensures Valid() && (r == Changed || r == NoMemory)
      ensures refused == old(refused) + if r == NoMemory then 1 else 0
      ensures r == NoMemory ==> nodes[h1].klass == NULL && nodes[h2].klass == NULL
      ensures r != Changed ==> nodes == old(nodes) && classes == old(classes)
      ensures r == Changed ==> Merged(old(nodes), nodes, h1, h2, c) && OthersNamed(old(classes), classes, c)
      ensures r == Changed ==>
                NameOf(classes, c) == JoinedName(NameOf(old(classes), old(nodes)[h1].klass),
                                                 NameOf(old(classes), old(nodes)[h2].klass))
    {
      hide LinkedBelow, Linked, Covered, PrefixClosed, Apart, Merged;
      var k1, k2 := nodes[h1].klass, nodes[h2].klass;
      r, c := Changed, k1;
      if k1 == NULL && k2 != NULL {
        JoinClass(nodes, classes, h1, h2);
        c := k2;
        nodes := nodes[h1 := nodes[h1].(klass := k2)];
        classes := classes[k2 := classes[k2].(counter := classes[k2].counter + 1)];
      } else if k1 != NULL && k2 == NULL {
        JoinClass(nodes, classes, h2, h1);
        nodes := nodes[h2 := nodes[h2].(klass := k1)];
        classes := classes[k1 := classes[k1].(counter := classes[k1].counter + 1)];
      } else {
        var granted := MallocString();
        if !granted {
          return NoMemory, c;
        }
        ghost var k := classes;
        var new_ := ClassNew(2, "");
        if new_ == NULL {
          return NoMemory, c;
        }
        JoinNewClass(nodes, k, h1, h2, new_, Text(""));
        c := new_;
        nodes := nodes[h1 := nodes[h1].(klass := new_)];
        nodes := nodes[h2 := nodes[h2].(klass := new_)];
      }
      SameShapeTrie(old(nodes), nodes, at);
    }

    /** The branches of `seq_equiv` in which the nodes have different classes. */
    method JoinClassed(h1: Ptr, h2: Ptr) returns (r: Outcome, ghost c: Ptr)
      requires Valid() && h1 in nodes && h2 in nodes
      requires nodes[h1].klass != NULL && nodes[h2].klass != NULL && nodes[h1].klass != nodes[h2].klass
      modifies `nodes, `classes, `refused
      ensures Valid() && (r == Changed || r == NoMemory)
      ensures refused == old(refused) + if r == NoMemory then 1 else 0
      ensures r != Changed ==> nodes == old(nodes) && classes == old(classes)
      ensures r == Changed ==> Merged(old(nodes), nodes, h1, h2, c) && OthersNamed(old(classes), classes, c)
      ensures r == Changed ==>
                NameOf(classes, c) == JoinedName(NameOf(old(classes), old(nodes)[h1].klass),
                                                 NameOf(old(classes), old(nodes)[h2].klass))
    {
      hide LinkedBelow, Linked, Covered, PrefixClosed, Apart, Merged;
      var c1, c2 := nodes[h1].klass, nodes[h2].klass;
      c := NULL;
      if classes[c1].s == classes[c2].s {
        var name := classes[c1].s.s;
        var new_ := ClassNew(0, name);
        if new_ == NULL {
          return NoMemory, c;
        }
        c := new_;
        MergeInto(h1, h2, new_, old(classes), name);
      } else {
        var granted := MallocString();
        if !granted {
          return NoMemory, c;
        }
        var name := classes[c1].s.s + classes[c2].s.s;
        var new_ := ClassNew(0, name);
        if new_ == NULL {
          return NoMemory, c;
        }
        c := new_;
        MergeInto(h1, h2, new_, old(classes), name);
      }
      r := Changed;
    }

    /** `seq_walk` as it is called by most functions: the node of a sequence, or NULL. */
    method Find(p: Ptr, s: string) returns (h: Ptr)
      requires Valid() && p == root && |s| > 0 && forall i :: 0 <= i < |s| ==> Digit(s[i])
      ensures h == Ref(at, s) && (h == NULL <==> s !in at) && (s in at ==> h in nodes)
    {
      var walked, _, m := SeqWalk(p, s, 0, false);
      h := walked;
      if m == |s| {
        assert s[..m] == s;
      } else {
        NotBeyond(at, s, m);
      }
    }

    /** `seq_set_name` */
    method SeqSetName(p: Ptr, s: CString, n: CString) returns (r: Outcome)
      requires Valid() && (p == NULL || p == root)
      modifies `nodes, `classes, `refused
      ensures Valid()
      ensures refused == old(refused) + if r == NoMemory then 1 else 0
      ensures r == Invalid <==> p == NULL || Bad(s) || n.Missing? || n.s == ""
      ensures r == Unchanged <==>
                && p != NULL && !Bad(s) && n.Text? && n.s != "" && refused == old(refused)
                && (s.s !in at || NameOf(old(classes), old(nodes[at[s.s]].klass)) == n.s)
      ensures r != Changed ==> nodes == old(nodes) && classes == old(classes)
      ensures r == Changed ==> s.s in at && at[s.s] in nodes && at[s.s] in old(nodes)
      ensures r == Changed ==>
                var c := nodes[at[s.s]].klass;
                (&& NameOf(classes, c) == n.s != NameOf(old(classes), old(nodes)[at[s.s]].klass)
                 && Merged(old(nodes), nodes, at[s.s], at[s.s], c) && OthersNamed(old(classes), classes, c))
    {
      hide LinkedBelow, Linked, Covered, PrefixClosed, Apart;
      var bad := SeqBad(s);
      if p == NULL || bad || n.Missing? || n.s == "" {
        return Invalid;
      }
      var granted := MallocString();
      if !granted {
        return NoMemory;
      }
      var h := Find(p, s.s);
      if h == NULL {
        return Unchanged;
      }
      var c := nodes[h].klass;
      if c == NULL {
        ghost var k := classes;
        var new_ := ClassNew(1, n.s);
        if new_ == NULL {
          return NoMemory;
        }
        FirstOfClass(nodes, k, h, new_, Text(n.s));
        nodes := nodes[h := nodes[h].(klass := new_)];
        SameShapeTrie(old(nodes), nodes, at);
        return Changed;
      }
      if classes[c].s == n {
        return Unchanged;
      }
      classes := classes[c := classes[c].(s := n)];
      r := Changed;
    }

    /** `seq_get_name` */
    method SeqGetName(p: Ptr, s: CString) returns (name: CString)
      requires Valid() && (p == NULL || p == root)
      ensures name == if p == NULL || Bad(s) || s.s !in at || NameOf(classes, nodes[at[s.s]].klass) == "" then Missing
                      else Text(NameOf(classes, nodes[at[s.s]].klass))
    {
      hide LinkedBelow, Linked, Covered, PrefixClosed, Apart;
      var bad := SeqBad(s);
      if p == NULL || bad {
        return Missing;
      }
      var h := Find(p, s.s);
      if h == NULL {
        return Missing;
      }
      var c := nodes[h].klass;
      if c != NULL && classes[c].s.s != "" {
        return classes[c].s;
      }
      name := Missing;
    }

    /** `class_change`: below `w`, the nodes of the class `c` move to the class `c'`. */
    method ClassChange(p: Ptr, c: Ptr, c': Ptr, ghost t: Places, ghost w: string)
      requires PrefixClosed(t) && Apart(t) && LinkedBelow(nodes, t, w) && p == Ref(t, w) && NULL !in nodes
      requires c != c' && Recounted(nodes, classes, classes, c, c')
      modifies `nodes, `classes
      ensures Moved(old(nodes), nodes, Below(t, w), c, c') && Recounted(nodes, old(classes), classes, c, c')
      decreases Extensions(t, w)
    {
      hide PrefixClosed, Apart, Recounted;
      if p != NULL {
        BelowSplits(t, w);
        DeeperIsSmaller(t, w, '0');
        DeeperIsSmaller(t, w, '1');
        DeeperIsSmaller(t, w, '2');
        assert LinkedBelow(nodes, t, w) && t[w] in nodes && Links(nodes[p], t, w);
        ghost var b0, b1, b2 := Below(t, w + ['0']), Below(t, w + ['1']), Below(t, w + ['2']);
        ghost var n, k := nodes, classes;
        MoveNode(p, c, c');
        ghost var n0, k0 := nodes, classes;
        MovedLinked(n, n0, t, w, {p}, c, c');
        RecountedAgain(n0, n0, k, k0, k0, c, c');
        ClassChange(nodes[p].lchild, c, c', t, w + ['0']);
        ghost var n1, k1 := nodes, classes;
        MovedAgain(n, n0, n1, {p}, b0, c, c');
        RecountedAgain(n0, n1, k, k0, k1, c, c');
        RecountedAgain(n1, n1, k, k1, k1, c, c');
        MovedLinked(n, n1, t, w, {p} + b0, c, c');
        ClassChange(nodes[p].mchild, c, c', t, w + ['1']);
        ghost var n2, k2 := nodes, classes;
        MovedAgain(n, n1, n2, {p} + b0, b1, c, c');
        RecountedAgain(n1, n2, k, k1, k2, c, c');
        RecountedAgain(n2, n2, k, k2, k2, c, c');
        MovedLinked(n, n2, t, w, {p} + b0 + b1, c, c');
        ClassChange(nodes[p].rchild, c, c', t, w + ['2']);
        MovedAgain(n, n2, nodes, {p} + b0 + b1, b2, c, c');
        RecountedAgain(n2, nodes, k, k2, classes, c, c');
      } else {
        NothingBelow(t, w);
      }
    }

    /** The node `p` moves from the class `c` to the class `c'`, if it belongs to `c`. */
    method MoveNode(p: Ptr, c: Ptr, c': Ptr)
      requires p in nodes && c != c' && Recounted(nodes, classes, classes, c, c')
      modifies `nodes, `classes
      ensures Moved(old(nodes), nodes, {p}, c, c') && Recounted(nodes, old(classes), classes, c, c')
    {
      if nodes[p].klass == c {
        MovedNode(nodes, p, c, c');
        classes := classes[c := classes[c].(s := Missing)];
        nodes := nodes[p := nodes[p].(klass := c')];
        classes := classes[c' := classes[c'].(counter := classes[c'].counter + 1)];
      }
    }

    /** `seq_class_remove`: every node below `w` is freed, and so is every class that no other node points to. */
    method SeqClassRemove(p: Ptr, ghost t: Places, ghost w: string)
      requires PrefixClosed(t) && Apart(t) && LinkedBelow(nodes, t, w) && p == Ref(t, w) && NULL !in nodes
      requires Counted(nodes, classes)
      modifies `nodes, `classes
      ensures nodes == old(nodes) - Below(t, w)
      ensures Counted(nodes, classes) && FewerClasses(old(classes), classes)
      decreases Extensions(t, w)
    {
      hide Counted, PrefixClosed, Apart;
      if p != NULL {
        ReleaseClass(p);
        ghost var n := nodes;
        assert LinkedBelow(nodes, t, w) by { LinkedStays(old(nodes), nodes, t, w); }
        ghost var n1 := n - Below(t, w + ['0']);
        ghost var n2 := n1 - Below(t, w + ['1']);
        BranchesLinked(n, n1, n2, t, w);
        NodeStays(n, n1, n2, t, w);
        DeeperIsSmaller(t, w, '0');
        DeeperIsSmaller(t, w, '1');
        DeeperIsSmaller(t, w, '2');
        SeqClassRemove(nodes[p].lchild, t, w + ['0']);
        SeqClassRemove(nodes[p].mchild, t, w + ['1']);
        SeqClassRemove(nodes[p].rchild, t, w + ['2']);
        FreeUnclassed(nodes, classes, p);
        BranchesAndNode(old(nodes), t, w, n[p]);
        nodes := nodes - {p};
      } else {
        NothingBelow(t, w);
      }
    }

    /** `seq_delete_all`: the same, with the children first. */
    method SeqDeleteAll(p: Ptr, ghost t: Places, ghost w: string)
      requires PrefixClosed(t) && Apart(t) && LinkedBelow(nodes, t, w) && p == Ref(t, w) && NULL !in nodes
      requires Counted(nodes, classes)
      modifies `nodes, `classes
      ensures nodes == old(nodes) - Below(t, w)
      ensures Counted(nodes, classes) && FewerClasses(old(classes), classes)
      decreases Extensions(t, w)
    {
      hide Counted, PrefixClosed, Apart, Extensions;
      if p != NULL {
        ghost var n := nodes;
        ghost var n1 := n - Below(t, w + ['0']);
        ghost var n2 := n1 - Below(t, w + ['1']);
        BranchesLinked(n, n1, n2, t, w);
        NodeStays(n, n1, n2, t, w);
        DeeperIsSmaller(t, w, '0');
        DeeperIsSmaller(t, w, '1');
        DeeperIsSmaller(t, w, '2');
        SeqDeleteAll(nodes[p].lchild, t, w + ['0']);
        SeqDeleteAll(nodes[p].mchild, t, w + ['1']);
        SeqDeleteAll(nodes[p].rchild, t, w + ['2']);
        ghost var n3 := nodes;
        ReleaseClass(p);
        FreeUnclassed(nodes, classes, p);
        assert nodes - {p} == n3 - {p};
        BranchesThenNode(n, t, w);
        nodes := nodes - {p};
      } else {
        NothingBelow(t, w);
      }
    }

    /** `seq_add_delete` */
    method SeqAddDelete(p: Ptr, ghost t: Places, ghost w: string)
      requires PrefixClosed(t) && Apart(t) && LinkedBelow(nodes, t, w) && p == Ref(t, w) && NULL !in nodes
      modifies `nodes
      ensures nodes == old(nodes) - Below(t, w)
      decreases Extensions(t, w)
    {
      if p != NULL {
        ghost var n := nodes;
        ghost var n1 := n - Below(t, w + ['0']);
        ghost var n2 := n1 - Below(t, w + ['1']);
        BranchesLinked(n, n1, n2, t, w);
        NodeStays(n, n1, n2, t, w);
        DeeperIsSmaller(t, w, '0');
        DeeperIsSmaller(t, w, '1');
        DeeperIsSmaller(t, w, '2');
        SeqAddDelete(nodes[p].lchild, t, w + ['0']);
        SeqAddDelete(nodes[p].mchild, t, w + ['1']);
        SeqAddDelete(nodes[p].rchild, t, w + ['2']);
        BranchesThenNode(n, t, w);
        nodes := nodes - {p};
      } else {
        NothingBelow(t, w);
      }
    }

    /** The node `p` lets go of its class. */
    method ReleaseClass(p: Ptr)
      requires p in nodes && Counted(nodes, classes)
      modifies `nodes, `classes
      ensures nodes == old(nodes)[p := old(nodes)[p].(klass := NULL)]
      ensures Counted(nodes, classes) && FewerClasses(old(classes), classes)
    {
      var c := nodes[p].klass;
      if c != NULL {
        LetGo(nodes, classes, p);
        if classes[c].counter == 1 {
          nodes := nodes[p := nodes[p].(klass := NULL)];
          classes := classes - {c};
        } else if classes[c].counter > 1 {
          classes := classes[c := classes[c].(counter := classes[c].counter - 1)];
          nodes := nodes[p := nodes[p].(klass := NULL)];
        }
      } else {
        assert nodes == nodes[p := nodes[p].(klass := NULL)];
      }
    }
  }

  /** Changing classes does not change links. */
  lemma LinkedStays(nodes: Nodes, nodes': Nodes, at: Places, w: string)
    requires LinkedBelow(nodes, at, w) && SameShape(nodes, nodes')
    ensures LinkedBelow(nodes', at, w)
  {
    forall u | u in at && w <= u ensures at[u] in nodes' && Links(nodes'[at[u]], at, u) {
      var p := at[u];
      assert p in nodes && nodes'[p] == nodes[p].(klass := nodes'[p].klass);
    }
  }

  ghost predicate SameShape(nodes: Nodes, nodes': Nodes) {
    && nodes'.Keys == nodes.Keys
    && forall p :: p in nodes ==> nodes'[p] == nodes[p].(klass := nodes'[p].klass)
  }

  lemma BranchLinked(nodes: Nodes, at: Places, w: string, d: char)
    requires LinkedBelow(nodes, at, w)
    ensures LinkedBelow(nodes, at, w + [d])
  {
    forall u | u in at && w + [d] <= u ensures at[u] in nodes && Links(nodes[at[u]], at, u) {
      assert w <= w + [d] <= u;
    }
  }

  /** The three branches are linked, also after the earlier ones have been freed. */
  lemma BranchesLinked(nodes: Nodes, n1: Nodes, n2: Nodes, at: Places, w: string)
    requires Apart(at) && LinkedBelow(nodes, at, w)
    requires n1 == nodes - Below(at, w + ['0']) && n2 == n1 - Below(at, w + ['1'])
    ensures LinkedBelow(nodes, at, w + ['0']) && LinkedBelow(n1, at, w + ['1']) && LinkedBelow(n2, at, w + ['2'])
  {
    BranchLinked(nodes, at, w, '0');
    BranchLinked(nodes, at, w, '1');
    BranchLinked(nodes, at, w, '2');
    OtherBranchLinked(nodes, n1, at, w, '0', '1');
    OtherBranchLinked(nodes, n1, at, w, '0', '2');
    OtherBranchLinked(n1, n2, at, w, '1', '2');
  }

  lemma NodeStays(nodes: Nodes, n1: Nodes, n2: Nodes, at: Places, w: string)
    requires Apart(at) && w in at && at[w] in nodes
    requires n1 == nodes - Below(at, w + ['0']) && n2 == n1 - Below(at, w + ['1'])
    ensures at[w] in n1 && n1[at[w]] == nodes[at[w]] && at[w] in n2 && n2[at[w]] == nodes[at[w]]
    ensures var n3 := n2 - Below(at, w + ['2']); at[w] in n3 && n3[at[w]] == nodes[at[w]]
  {
    DeeperIsSmaller(at, w, '0');
    DeeperIsSmaller(at, w, '1');
    DeeperIsSmaller(at, w, '2');
  }

  lemma NotBeyond(at: Places, s: string, m: nat)
    requires PrefixClosed(at) && m < |s| && s[..m + 1] !in at
    ensures s !in at
  {
    if s in at {
      PrefixesIn(at, s, s[..m + 1]);
    }
  }

  lemma ChildIs(x: Node, at: Places, u: string, d: char)
    requires Links(x, at, u) && Digit(d)
    ensures Child(x, d) == Ref(at, u + [d])
  {
    assert d == '0' || d == '1' || d == '2';
  }

  lemma StepDown(nodes: Nodes, at: Places, s: string, i: nat)
    requires Linked(nodes, at) && NULL !in nodes && i < |s| && s[..i] in at && Digit(s[i])
    ensures at[s[..i]] in nodes && Child(nodes[at[s[..i]]], s[i]) == Ref(at, s[..i + 1])
    ensures Ref(at, s[..i + 1]) == NULL <==> s[..i + 1] !in at
  {
    assert s[..i + 1] == s[..i] + [s[i]];
    ChildIs(nodes[at[s[..i]]], at, s[..i], s[i]);
  }

  lemma NothingLeft(before: Nodes, nodes: Nodes, classes: Classes, at: Places)
    requires Trie(before, at) && nodes == before - Below(at, "") && Counted(nodes, classes)
    ensures nodes == map[] && classes == map[]
  {
    forall p | p in before ensures p in Below(at, "") {
      var w :| w in at && at[w] == p;
      assert "" <= w;
    }
    assert nodes == map[];
    assert nodes == map[];
    forall c ensures c !in classes {
      assert Holders(nodes, c) == {};
    }
  }

  /** The calls of `seq_equiv` that have nothing to do. */
  ghost predicate Nothing(nodes: Nodes, at: Places, s1: string, s2: string) {
    || s1 == s2 || s1 !in at || s2 !in at
    || (at[s1] in nodes && at[s2] in nodes && nodes[at[s1]].klass == nodes[at[s2]].klass != NULL)
  }

  lemma DifferentNodes(nodes: Nodes, at: Places, s1: string, s2: string)
    requires Trie(nodes, at) && s1 in at && s2 in at && s1 != s2
    ensures at[s1] != at[s2]
  {
  }

  lemma WholeTrie(nodes: Nodes, at: Places)
    requires Trie(nodes, at)
    ensures LinkedBelow(nodes, at, "") && Below(at, "") == nodes.Keys && "" in at
  {
    forall p | p in nodes ensures p in Below(at, "") {
      var w :| w in at && at[w] == p;
      assert "" <= w;
    }
  }

  lemma SameShapeTrie(nodes: Nodes, n: Nodes, at: Places)
    requires Trie(nodes, at) && SameShape(nodes, n)
    ensures Trie(n, at)
  {
    forall u | u in at ensures at[u] in n && Links(n[at[u]], at, u) {
      assert at[u] in nodes;
    }
  }

  lemma ShapeOfMoved(nodes: Nodes, n: Nodes, at: Places, c: Ptr, c': Ptr)
    requires Trie(nodes, at) && Moved(nodes, n, Below(at, ""), c, c')
    ensures Trie(n, at) && LinkedBelow(n, at, "") && Moved(nodes, n, nodes.Keys, c, c') && n.Keys == nodes.Keys
  {
    SameShapeTrie(nodes, n, at);
    WholeTrie(nodes, at);
    WholeTrie(n, at);
  }

  lemma NoHolders(nodes: Nodes, classes: Classes, c: Ptr)
    requires Counted(nodes, classes) && c !in classes && c != NULL
    ensures Holders(nodes, c) == {} && forall p :: p in nodes ==> nodes[p].klass != c
  {
    forall p | p in nodes ensures nodes[p].klass != c { }
  }

  /** A node without a class gets one of its own. */
  lemma FirstOfClass(nodes: Nodes, classes: Classes, h: Ptr, c: Ptr, name: CString)
    requires Counted(nodes, classes) && h in nodes && c !in classes && c != NULL && nodes[h].klass == NULL
    ensures var n := nodes[h := nodes[h].(klass := c)];
            Merged(nodes, n, h, h, c) && Counted(n, classes[c := AClass(1, name)])
  {
    var n := nodes[h := nodes[h].(klass := c)];
    forall p | p in nodes ensures nodes[p].klass != c { }
    assert Holders(n, c) == {h};
    forall d | d in classes ensures Holders(n, d) == Holders(nodes, d) { }
  }
}
