/** One step of the game in GameOfLife.c: a list of live cells of the unbounded grid is extended with the dead
    neighbours and pruned while it is traversed. */
module GameOfLife {

  type Pole = (int, int)

  /** A list element; `zywi` is the number of live neighbours, or MARTWA for a dead cell. */
  datatype Komorka = Komorka(pole: Pole, zywi: int)

  const MARTWA: int := -1

  /** The cursor value of a list traversal that has reached the end. */
  const NULL: int := -1

  // ---------------------------------------------------------------------------------------------
  // The rule on the unbounded grid
  // ---------------------------------------------------------------------------------------------

  predicate WBloku(c: Pole, d: Pole) { c.0 - 1 <= d.0 <= c.0 + 1 && c.1 - 1 <= d.1 <= c.1 + 1 }

  predicate Sasiad(c: Pole, d: Pole) { c != d && WBloku(c, d) }

  ghost function Sasiedzi(c: Pole): (s: set<Pole>)
    ensures forall d :: d in s <==> Sasiad(c, d)
  {
    set w, k | c.0 - 1 <= w <= c.0 + 1 && c.1 - 1 <= k <= c.1 + 1 && (w, k) != c :: (w, k)
  }

  ghost function LiczbaZywych(live: set<Pole>, c: Pole): nat { |Sasiedzi(c) * live| }

  /** A cell is alive in the next generation with three live neighbours, or alive with two. */
  ghost predicate ZyjeDalej(live: set<Pole>, c: Pole) {
    LiczbaZywych(live, c) == 3 || (c in live && LiczbaZywych(live, c) == 2)
  }

  /** Only neighbours of live cells can come alive. */
  lemma RodzaSieObokZywych(live: set<Pole>, c: Pole)
    requires c !in live && ZyjeDalej(live, c)
    ensures exists d :: d in live && Sasiad(d, c)
  {
    assert Sasiedzi(c) * live != {};
    var d :| d in Sasiedzi(c) * live;
    assert Sasiad(d, c);
  }

  // ---------------------------------------------------------------------------------------------
  // Lists of cells
  // ---------------------------------------------------------------------------------------------

  ghost predicate Zawiera(l: seq<Komorka>, c: Pole) { exists p :: 0 <= p < |l| && l[p].pole == c }

  ghost predicate BezPowtorzen(l: seq<Komorka>) {
    forall p, q :: 0 <= p < q < |l| ==> l[p].pole != l[q].pole
  }

  /** `live` is the set of the cells of the list that are not marked as dead. */
  ghost predicate Zywe(l: seq<Komorka>, live: set<Pole>) {
    && (forall p :: 0 <= p < |l| && l[p].zywi != MARTWA ==> l[p].pole in live)
    && (forall c :: c in live ==> exists p :: 0 <= p < |l| && l[p].zywi != MARTWA && l[p].pole == c)
  }

  /** The list without the cell `c`. */
  function Bez(l: seq<Komorka>, c: Pole): seq<Komorka> {
    if |l| == 0 then [] else Bez(l[..|l| - 1], c) + (if l[|l| - 1].pole == c then [] else [l[|l| - 1]])
  }

  /** What the final pass makes of one element. */
  function Koncowe(x: Komorka): seq<Komorka> {
    if (x.zywi < 2 && x.zywi != MARTWA) || x.zywi > 3 then []
    else if x.zywi == MARTWA then [x.(zywi := 3)]
    else [x]
  }

  function Przesiane(l: seq<Komorka>): seq<Komorka> {
    if |l| == 0 then [] else Przesiane(l[..|l| - 1]) + Koncowe(l[|l| - 1])
  }

  lemma {:induction false} BezNiczego(l: seq<Komorka>, c: Pole)
    requires !Zawiera(l, c)
    ensures Bez(l, c) == l
  {
    if |l| > 0 {
      var front := l[..|l| - 1];
      assert l[|l| - 1].pole != c;
      forall p | 0 <= p < |front| ensures front[p].pole != c { assert l[p].pole != c; }
      BezNiczego(front, c);
    }
  }

  /** In a list without repetitions exactly one element disappears. */
  lemma {:induction false} BezJednej(l: seq<Komorka>, p: nat)
    requires p < |l| && BezPowtorzen(l)
    ensures Bez(l, l[p].pole) == l[..p] + l[p + 1..]
  {
    var front := l[..|l| - 1];
    if p == |l| - 1 {
      BezNiczego(front, l[p].pole);
    } else {
      BezJednej(front, p);
      assert front[..p] + front[p + 1..] + [l[|l| - 1]] == l[..p] + l[p + 1..];
    }
  }

  lemma PrzesianeDalej(l: seq<Komorka>, x: Komorka)
    ensures Przesiane(l + [x]) == Przesiane(l) + Koncowe(x)
  {
    assert (l + [x])[..|l|] == l;
  }

  lemma BezDalej(l: seq<Komorka>, x: Komorka, c: Pole)
    ensures Bez(l + [x], c) == Bez(l, c) + if x.pole == c then [] else [x]
  {
    assert (l + [x])[..|l|] == l;
  }

  /** The traversal has turned the first elements of `was` into the elements in front of the cursor. */
  ghost predicate Przeszlo(l: seq<Komorka>, pom: int, done: seq<Komorka>, rest: seq<Komorka>) {
    0 <= pom <= |l| && l[..pom] == done && l[pom..] == rest
  }

  /** Removing, replacing or keeping the element under the cursor. */
  lemma PodKursorem(l: seq<Komorka>, pom: int, done: seq<Komorka>, rest: seq<Komorka>, y: Komorka)
    requires Przeszlo(l, pom, done, rest) && pom < |l|
    ensures l[pom] == rest[0]
    ensures Przeszlo(l[..pom] + l[pom + 1..], pom, done, rest[1..])
    ensures Przeszlo(l[pom := y], pom + 1, done + [y], rest[1..])
    ensures Przeszlo(l, pom + 1, done + [rest[0]], rest[1..])
  {
    assert l == done + rest;
  }

  /** The cell `c` is in the list with two or three live neighbours, or marked as dead. */
  ghost predicate Zostaje(l: seq<Komorka>, c: Pole) {
    exists p :: 0 <= p < |l| && l[p].pole == c && l[p].zywi in {MARTWA, 2, 3}
  }

  /** The final pass keeps the cells with two or three live neighbours and the marked ones, and repeats none. */
  lemma {:induction false} PrzesianeKomorki(l: seq<Komorka>)
    requires BezPowtorzen(l)
    ensures BezPowtorzen(Przesiane(l))
    ensures forall x :: x in Przesiane(l) ==> x.zywi != MARTWA
    ensures forall c :: Zawiera(Przesiane(l), c) <==> Zostaje(l, c)
  {
    if |l| > 0 {
      var front, last := l[..|l| - 1], l[|l| - 1];
      assert l == front + [last];
      PrzesianeKomorki(front);
      PrzesianeDalej(front, last);
      assert !Zostaje(front, last.pole) by {
        assert forall p :: 0 <= p < |front| ==> front[p] == l[p];
      }
      assert !Zawiera(Przesiane(front), last.pole);
      forall c ensures Zawiera(Przesiane(l), c) <==> Zostaje(l, c) {
        ZawieraDalej(Przesiane(front), Koncowe(last), c);
        ZostajeDalej(front, last, c);
      }
    }
  }

  lemma ZawieraDalej(r: seq<Komorka>, t: seq<Komorka>, c: Pole)
    ensures Zawiera(r + t, c) <==> Zawiera(r, c) || Zawiera(t, c)
  {
    if Zawiera(r, c) {
      var p :| 0 <= p < |r| && r[p].pole == c;
      assert (r + t)[p].pole == c;
    }
    if Zawiera(t, c) {
      var p :| 0 <= p < |t| && t[p].pole == c;
      assert (r + t)[|r| + p].pole == c;
    }
  }

  lemma ZostajeDalej(l: seq<Komorka>, x: Komorka, c: Pole)
    ensures Zostaje(l + [x], c) <==> Zostaje(l, c) || Zawiera(Koncowe(x), c)
  {
    var l' := l + [x];
    if Zostaje(l, c) {
      var p :| 0 <= p < |l| && l[p].pole == c && l[p].zywi in {MARTWA, 2, 3};
      assert l'[p] == l[p];
    }
    assert l'[|l|] == x && (|Koncowe(x)| > 0 ==> Koncowe(x)[0].pole == x.pole);
  }

  /** The number of elements that are live neighbours of `c`. */
  function Policzone(l: seq<Komorka>, c: Pole): nat {
    if |l| == 0 then 0
    else Policzone(l[..|l| - 1], c) + if Sasiad(c, l[|l| - 1].pole) && l[|l| - 1].zywi != MARTWA then 1 else 0
  }

  ghost function ZbiorZywych(l: seq<Komorka>): set<Pole> {
    if |l| == 0 then {}
    else ZbiorZywych(l[..|l| - 1]) + if l[|l| - 1].zywi != MARTWA then {l[|l| - 1].pole} else {}
  }

  lemma {:induction false} ZbiorSaZywe(l: seq<Komorka>)
    requires BezPowtorzen(l)
    ensures Zywe(l, ZbiorZywych(l))
  {
    if |l| > 0 {
      var front := l[..|l| - 1];
      ZbiorSaZywe(front);
      Dolacz(l, |l| - 1, ZbiorZywych(front));
      assert l[..|l|] == l;
    }
  }

  /** Counting elements counts live cells, since no cell is in the list twice. */
  lemma {:induction false} PoliczoneSaZywe(l: seq<Komorka>, c: Pole)
    requires BezPowtorzen(l)
    ensures Policzone(l, c) == LiczbaZywych(ZbiorZywych(l), c)
  {
    hide Zywe, Sasiad, Sasiedzi;
    if |l| == 0 {
      assert Sasiedzi(c) * ZbiorZywych(l) == {};
    } else {
      var front, last := l[..|l| - 1], l[|l| - 1];
      PoliczoneSaZywe(front, c);
      if last.zywi != MARTWA {
        ZbiorSaZywe(front);
        Dolacz(l, |l| - 1, ZbiorZywych(front));
        JedenWiecej(ZbiorZywych(front), last.pole, c);
      } else {
        assert ZbiorZywych(l) == ZbiorZywych(front);
      }
    }
  }

  lemma Dolacz(l: seq<Komorka>, p: nat, seen: set<Pole>)
    requires p < |l| && BezPowtorzen(l) && Zywe(l[..p], seen)
    ensures l[p].pole !in seen && Zywe(l[..p + 1], seen + if l[p].zywi != MARTWA then {l[p].pole} else {})
  {
    var front, front' := l[..p], l[..p + 1];
    assert front'[p] == l[p];
    forall c | c in seen
      ensures c != l[p].pole && exists q :: 0 <= q <= p && front'[q].zywi != MARTWA && front'[q].pole == c
    {
      var q :| 0 <= q < p && front[q].zywi != MARTWA && front[q].pole == c;
      assert front'[q] == l[q] == front[q];
    }
    assert forall q :: 0 <= q < p ==> front'[q] == front[q];
  }

  lemma JedenWiecej(live: set<Pole>, d: Pole, c: Pole)
    requires d !in live
    ensures LiczbaZywych(live + {d}, c) == LiczbaZywych(live, c) + if Sasiad(c, d) then 1 else 0
  {
    if Sasiad(c, d) {
      assert Sasiedzi(c) * (live + {d}) == Sasiedzi(c) * live + {d};
    } else {
      assert Sasiedzi(c) * (live + {d}) == Sasiedzi(c) * live;
    }
  }

  lemma TeSameZywe(l: seq<Komorka>, live: set<Pole>, live': set<Pole>)
    requires Zywe(l, live) && Zywe(l, live')
    ensures live == live'
  {
    forall c ensures c in live <==> c in live' {
    }
  }

  // ---------------------------------------------------------------------------------------------
  // A dead neighbour in front of the last live cell
  // ---------------------------------------------------------------------------------------------

  lemma {:induction false} SkrajnyWiersz(l: seq<Komorka>) returns (p: nat, q: nat)
    requires |l| > 0
    ensures p < |l| && q < |l|
    ensures forall r :: 0 <= r < |l| ==> l[p].pole.0 <= l[r].pole.0 <= l[q].pole.0
  {
    if |l| == 1 {
      p, q := 0, 0;
    } else {
      var front := l[..|l| - 1];
      p, q := SkrajnyWiersz(front);
      assert forall r :: 0 <= r < |front| ==> front[r] == l[r];
      if l[|l| - 1].pole.0 < l[p].pole.0 { p := |l| - 1; }
      if l[q].pole.0 < l[|l| - 1].pole.0 { q := |l| - 1; }
    }
  }

  /** Of two or more cells, one that is not the last of the list has a neighbour that is not in the list. */
  lemma MartwySasiad(l: seq<Komorka>) returns (p: nat, c: Pole)
    requires |l| >= 2
    ensures p < |l| - 1 && Sasiad(l[p].pole, c) && !Zawiera(l, c)
  {
    var lo, hi := SkrajnyWiersz(l);
    if lo < |l| - 1 || hi == |l| - 1 {
      p := if lo < |l| - 1 then lo else 0;
      c := (l[p].pole.0 - 1, l[p].pole.1);
    } else {
      p := hi;
      c := (l[p].pole.0 + 1, l[p].pole.1);
    }
  }

  // ---------------------------------------------------------------------------------------------
  // What the two loops keep
  // ---------------------------------------------------------------------------------------------

  /** Dead cells of the block around `c` have been appended. */
  ghost predicate Dopisane(before: seq<Komorka>, l: seq<Komorka>, c: Pole) {
    && BezPowtorzen(l) && |before| <= |l| && l[..|before|] == before
    && forall p :: |before| <= p < |l| ==> l[p].zywi == MARTWA && WBloku(c, l[p].pole)
  }

  lemma DopisanaJedna(before: seq<Komorka>, l: seq<Komorka>, c: Pole, d: Pole)
    requires Dopisane(before, l, c) && !Zawiera(l, d) && WBloku(c, d)
    ensures Dopisane(before, l + [Komorka(d, MARTWA)], c)
    ensures forall e :: Zawiera(l, e) ==> Zawiera(l + [Komorka(d, MARTWA)], e)
  {
    forall e | Zawiera(l, e) ensures Zawiera(l + [Komorka(d, MARTWA)], e) {
      ZawieraDalej(l, [Komorka(d, MARTWA)], e);
    }
  }

  /** The list after the element `p` with `licznik` live neighbours has been looked at. */
  function Oceniona(l: seq<Komorka>, p: nat, licznik: nat): seq<Komorka>
    requires p < |l|
  {
    if l[p].zywi != MARTWA then l[p := l[p].(zywi := licznik)]
    else if licznik != 3 then l[..p] + l[p + 1..]
    else l
  }

  ghost predicate ObokZywej(was: seq<Komorka>, v: nat, c: Pole)
    requires v <= |was|
  {
    exists q :: 0 <= q < v && Sasiad(was[q].pole, c)
  }

  /** The first loop has looked at `v` of the original cells `was`: they know their live neighbours (`licz`),
      and exactly their dead neighbours have been appended. */
  ghost predicate Pierwsza(l: seq<Komorka>, was: seq<Komorka>, licz: Pole -> nat, v: nat) {
    && BezPowtorzen(l) && v <= |was| <= |l|
    && (forall p :: 0 <= p < |was| ==> l[p].pole == was[p].pole)
    && (forall p :: 0 <= p < v ==> l[p].zywi == licz(was[p].pole))
    && (forall p :: v <= p < |was| ==> l[p].zywi == was[p].zywi)
    && (forall p :: |was| <= p < |l| ==> l[p].zywi == MARTWA && ObokZywej(was, v, l[p].pole))
    && (forall c :: ObokZywej(was, v, c) ==> Zawiera(l, c))
  }

  lemma PierwszaNaPoczatku(was: seq<Komorka>, licz: Pole -> nat)
    requires BezPowtorzen(was)
    ensures Pierwsza(was, was, licz, 0)
  {
  }

  ghost predicate Poczatek(was: seq<Komorka>, live: set<Pole>) {
    Zywe(was, live) && forall p :: 0 <= p < |was| ==> was[p].zywi != MARTWA
  }

  /** The list starts with the cells of `was`, all alive, and has only dead cells after them. */
  lemma ZyweNaPoczatku(l: seq<Komorka>, was: seq<Komorka>, live: set<Pole>)
    requires Poczatek(was, live) && |was| <= |l|
    requires forall p :: 0 <= p < |was| ==> l[p].pole == was[p].pole && l[p].zywi != MARTWA
    requires forall p :: |was| <= p < |l| ==> l[p].zywi == MARTWA
    ensures Zywe(l, live)
  {
    forall c | c in live ensures exists p :: 0 <= p < |l| && l[p].zywi != MARTWA && l[p].pole == c {
      var p :| 0 <= p < |was| && was[p].zywi != MARTWA && was[p].pole == c;
      assert l[p].pole == c;
    }
  }

  lemma ZyweDopisane(before: seq<Komorka>, l: seq<Komorka>, was: seq<Komorka>, licz: Pole -> nat, live: set<Pole>,
                     v: nat, c: Pole)
    requires Poczatek(was, live) && Pierwsza(before, was, licz, v) && Dopisane(before, l, c)
    ensures Zywe(l, live)
  {
    assert forall p :: 0 <= p < |before| ==> l[p] == before[p];
    ZyweNaPoczatku(l, was, live);
  }

  /** When the last of two or more original cells is visited, a candidate has been appended already. */
  lemma JestKandydat(l: seq<Komorka>, was: seq<Komorka>, licz: Pole -> nat)
    requires |was| >= 2 && Pierwsza(l, was, licz, |was| - 1)
    ensures |l| > |was|
  {
    var q, c := MartwySasiad(was);
    assert ObokZywej(was, |was| - 1, c);
    var p :| 0 <= p < |l| && l[p].pole == c;
    assert p < |was| ==> was[p].pole == c;
  }

  lemma PierwszaDalej(before: seq<Komorka>, l: seq<Komorka>, was: seq<Komorka>, licz: Pole -> nat, v: nat)
    requires v < |was| && was[v].zywi != MARTWA && Pierwsza(before, was, licz, v)
    requires Dopisane(before, l, was[v].pole) && forall c :: WBloku(was[v].pole, c) ==> Zawiera(l, c)
    ensures Pierwsza(Oceniona(l, v, licz(was[v].pole)), was, licz, v + 1)
  {
    var k := licz(was[v].pole);
    var l' := Oceniona(l, v, k);
    assert forall p :: 0 <= p < |before| ==> l[p] == before[p];
    assert l[v].zywi == was[v].zywi && l' == l[v := l[v].(zywi := k)];
    assert forall p :: 0 <= p < |l| ==> l'[p].pole == l[p].pole;
    forall p | |was| <= p < |l'| ensures ObokZywej(was, v + 1, l'[p].pole) {
      assert l[p].pole != l[v].pole;
      if p < |before| {
        var q :| 0 <= q < v && Sasiad(was[q].pole, l[p].pole);
      } else {
        assert Sasiad(was[v].pole, l[p].pole);
      }
    }
    forall c | ObokZywej(was, v + 1, c) ensures Zawiera(l', c) {
      var q :| 0 <= q < v + 1 && Sasiad(was[q].pole, c);
      if q < v {
        assert ObokZywej(was, v, c);
        var p :| 0 <= p < |before| && before[p].pole == c;
        assert l'[p].pole == c;
      } else {
        var p :| 0 <= p < |l| && l[p].pole == c;
        assert l'[p].pole == c;
      }
    }
  }

  /** The second loop has looked at the candidates in front of `pos` and kept those that come alive. */
  ghost predicate Druga(l: seq<Komorka>, mid: seq<Komorka>, was: seq<Komorka>, licz: Pole -> nat, pos: nat) {
    && Pierwsza(mid, was, licz, |was|)
    && BezPowtorzen(l) && |was| <= pos <= |l|
    && l[..|was|] == mid[..|was|]
    && (forall p :: |was| <= p < |l| ==> l[p].zywi == MARTWA && Zawiera(mid, l[p].pole))
    && (forall p :: |was| <= p < pos ==> licz(l[p].pole) == 3)
    && (forall c :: Zawiera(mid, c) && licz(c) == 3 ==> Zawiera(l, c))
  }

  lemma DrugaDalej(l: seq<Komorka>, mid: seq<Komorka>, was: seq<Komorka>, licz: Pole -> nat, pos: nat)
    requires Druga(l, mid, was, licz, pos) && pos < |l|
    ensures var k := licz(l[pos].pole);
            Druga(Oceniona(l, pos, k), mid, was, licz, if k == 3 then pos + 1 else pos)
  {
    var k := licz(l[pos].pole);
    var l' := Oceniona(l, pos, k);
    if k != 3 {
      assert l' == l[..pos] + l[pos + 1..];
      assert forall p :: 0 <= p < |l'| ==> l'[p] == l[if p < pos then p else p + 1];
      forall c | Zawiera(mid, c) && licz(c) == 3 ensures Zawiera(l', c) {
        var p :| 0 <= p < |l| && l[p].pole == c;
        assert l'[if p < pos then p else p - 1].pole == c;
      }
    }
  }

  lemma ZyweDruga(l: seq<Komorka>, mid: seq<Komorka>, was: seq<Komorka>, licz: Pole -> nat, live: set<Pole>, pos: nat)
    requires Poczatek(was, live) && Druga(l, mid, was, licz, pos)
    ensures Zywe(l, live)
  {
    assert forall p :: 0 <= p < |was| ==> l[..|was|][p] == mid[..|was|][p];
    ZyweNaPoczatku(l, was, live);
  }

  lemma ZostajeZywa(l: seq<Komorka>, mid: seq<Komorka>, was: seq<Komorka>, licz: Pole -> nat, live: set<Pole>, c: Pole)
    requires Poczatek(was, live) && Druga(l, mid, was, licz, |l|) && c in live
    ensures Zostaje(l, c) <==> licz(c) == 2 || licz(c) == 3
  {
    var p :| 0 <= p < |was| && was[p].zywi != MARTWA && was[p].pole == c;
    assert l[..|was|][p] == mid[..|was|][p];
    assert l[p] == Komorka(c, licz(c));
  }

  lemma OzywaMartwa(l: seq<Komorka>, mid: seq<Komorka>, was: seq<Komorka>, licz: Pole -> nat, live: set<Pole>, c: Pole)
    requires Poczatek(was, live) && Druga(l, mid, was, licz, |l|) && c !in live
    ensures Zostaje(l, c) <==> licz(c) == 3 && ObokZywej(was, |was|, c)
  {
    assert forall p :: 0 <= p < |was| ==> mid[p].pole in live;
    assert forall p :: 0 <= p < |was| ==> l[..|was|][p] == mid[..|was|][p] == l[p];
    if Zostaje(l, c) {
      var p :| 0 <= p < |l| && l[p].pole == c && l[p].zywi in {MARTWA, 2, 3};
      assert p >= |was| && Zawiera(mid, c);
      var q :| 0 <= q < |mid| && mid[q].pole == c;
      assert q >= |was|;
    }
    if licz(c) == 3 && ObokZywej(was, |was|, c) {
      assert Zawiera(mid, c) && Zawiera(l, c);
      var p :| 0 <= p < |l| && l[p].pole == c;
      assert l[p].zywi == MARTWA;
    }
  }

  /** What the second loop leaves, pruned by the final pass, is the next generation. */
  lemma NastepnePokolenie(l: seq<Komorka>, mid: seq<Komorka>, was: seq<Komorka>, licz: Pole -> nat, live: set<Pole>)
    requires (forall c :: licz(c) == LiczbaZywych(live, c)) && Poczatek(was, live) && Druga(l, mid, was, licz, |l|)
    ensures forall c :: Zostaje(l, c) <==> ZyjeDalej(live, c)
  {
    forall c ensures Zostaje(l, c) <==> ZyjeDalej(live, c) {
      if c in live {
        ZostajeZywa(l, mid, was, licz, live, c);
      } else {
        OzywaMartwa(l, mid, was, licz, live, c);
        if ZyjeDalej(live, c) {
          RodzaSieObokZywych(live, c);
          var d :| d in live && Sasiad(d, c);
          var q :| 0 <= q < |was| && was[q].zywi != MARTWA && was[q].pole == d;
          assert ObokZywej(was, |was|, c);
        }
      }
    }
  }

  /** After a single live cell the second loop looks at no candidate: its eight neighbours stay. */
  lemma Samotna(mid: seq<Komorka>, was: seq<Komorka>, licz: Pole -> nat, live: set<Pole>)
    requires (forall c :: licz(c) == LiczbaZywych(live, c)) && Poczatek(was, live) && |was| == 1
             && Pierwsza(mid, was, licz, 1)
    ensures forall c :: Zostaje(mid, c) <==> Sasiad(was[0].pole, c)
    ensures exists c :: Sasiad(was[0].pole, c) && !ZyjeDalej(live, c)
  {
    var x := was[0].pole;
    assert live == {x};
    assert Sasiedzi(x) * live == {};
    forall c ensures Zostaje(mid, c) <==> Sasiad(x, c) {
      if Zostaje(mid, c) {
        var p :| 0 <= p < |mid| && mid[p].pole == c && mid[p].zywi in {MARTWA, 2, 3};
        assert p >= 1;
      }
      if Sasiad(x, c) {
        assert ObokZywej(was, 1, c);
        var p :| 0 <= p < |mid| && mid[p].pole == c;
        assert p != 0;
      }
    }
    var c := (x.0 + 1, x.1);
    assert Sasiedzi(c) * live == {x};
    assert Sasiad(x, c) && !ZyjeDalej(live, c);
  }

  // ---------------------------------------------------------------------------------------------
  // The list in the program
  // ---------------------------------------------------------------------------------------------

  class Lista {
    var l: seq<Komorka>

    /** `sprawdzaj_czy_w_liscie` */
    method SprawdzajCzyWLiscie(i: int, j: int) returns (jest: bool)
      ensures jest <==> Zawiera(l, (i, j))
    {
      var pom := 0;
      while pom != |l| && l[pom].pole != (i, j)
        invariant 0 <= pom <= |l| && forall p :: 0 <= p < pom ==> l[p].pole != (i, j)
      {
        pom := pom + 1;
      }
      jest := pom != |l|;
    }

    /** `wstaw_na_koniec` */
    method WstawNaKoniec(i: int, j: int, k: int)
      modifies this
      ensures l == old(l) + [Komorka((i, j), k)]
    {
      l := l + [Komorka((i, j), k)];
    }

    /** `zliczanie_zywych_sasiadow`: counts the neighbours that are alive on the grid. */
    method ZliczanieZywychSasiadow(i: int, j: int, ghost live: set<Pole>) returns (licznik: nat)
      requires BezPowtorzen(l) && Zywe(l, live)
      ensures licznik == LiczbaZywych(live, (i, j))
    {
      licznik := 0;
      var pom := 0;
      while pom != |l|
        invariant 0 <= pom <= |l| && licznik == Policzone(l[..pom], (i, j))
      {
        assert l[..pom + 1][..pom] == l[..pom];
        if Sasiad((i, j), l[pom].pole) {
          if l[pom].zywi != MARTWA {
            licznik := licznik + 1;
          }
        }
        pom := pom + 1;
      }
      assert l[..pom] == l;
      PoliczoneSaZywe(l, (i, j));
      ZbiorSaZywe(l);
      TeSameZywe(l, ZbiorZywych(l), live);
    }

    /** `sprawdz_czy_martwa` */
    method SprawdzCzyMartwa(i: int, j: int, ghost p: nat) returns (martwa: int)
      requires BezPowtorzen(l) && p < |l| && l[p].pole == (i, j)
      ensures martwa == l[p].zywi
    {
      martwa := 0;
      var pom := 0;
      while pom != |l|
        invariant 0 <= pom <= |l| && (pom > p ==> martwa == l[p].zywi)
      {
        if l[pom].pole == (i, j) {
          martwa := l[pom].zywi;
        }
        pom := pom + 1;
      }
    }

    /** `dodaj_zywych_sasiadow` */
    method DodajZywychSasiadow(i: int, j: int, sasiedzi: int, ghost p: nat)
      requires BezPowtorzen(l) && p < |l| && l[p].pole == (i, j)
      modifies this
      ensures l == old(l)[p := Komorka((i, j), sasiedzi)]
    {
      var pom := 0;
      while l[pom].pole != (i, j)
        invariant 0 <= pom <= p && l == old(l)
        decreases p - pom
      {
        pom := pom + 1;
      }
      l := l[pom := l[pom].(zywi := sasiedzi)];
    }

    /** `usun_zywe_komorki` */
    method UsunZyweKomorki()
      modifies this
      ensures l == Przesiane(old(l))
    {
      var pom := 0;
      ghost var k := 0;
      while pom != |l|
        invariant 0 <= k <= |old(l)| && Przeszlo(l, pom, Przesiane(old(l)[..k]), old(l)[k..])
        decreases |old(l)| - k
      {
        PrzesianeDalej(old(l)[..k], old(l)[k]);
        PodKursorem(l, pom, Przesiane(old(l)[..k]), old(l)[k..], l[pom].(zywi := 3));
        assert old(l)[..k] + [old(l)[k]] == old(l)[..k + 1] && old(l)[k..][1..] == old(l)[k + 1..];
        if (l[pom].zywi < 2 && l[pom].zywi != MARTWA) || l[pom].zywi > 3 {
          l := l[..pom] + l[pom + 1..];
        } else if l[pom].zywi == MARTWA {
          l := l[pom := l[pom].(zywi := 3)];
          pom := pom + 1;
        } else {
          pom := pom + 1;
        }
        k := k + 1;
      }
      assert old(l)[..k] == old(l);
    }

    /** `usun_wszystkie_wskazane` */
    method UsunWszystkieWskazane(i: int, j: int)
      modifies this
      ensures l == Bez(old(l), (i, j))
    {
      var pom := 0;
      ghost var k := 0;
      while pom != |l|
        invariant 0 <= k <= |old(l)| && Przeszlo(l, pom, Bez(old(l)[..k], (i, j)), old(l)[k..])
        decreases |old(l)| - k
      {
        BezDalej(old(l)[..k], old(l)[k], (i, j));
        PodKursorem(l, pom, Bez(old(l)[..k], (i, j)), old(l)[k..], l[pom]);
        assert old(l)[..k] + [old(l)[k]] == old(l)[..k + 1] && old(l)[k..][1..] == old(l)[k + 1..];
        if l[pom].pole == (i, j) {
          l := l[..pom] + l[pom + 1..];
        } else {
          pom := pom + 1;
        }
        k := k + 1;
      }
      assert old(l)[..k] == old(l);
    }

    /** `zliczanie` */
    method Zliczanie() returns (licznik: nat)
      ensures licznik == |l|
    {
      licznik := 0;
      while licznik != |l|
        invariant licznik <= |l|
      {
        licznik := licznik + 1;
      }
    }

    /** The two inner loops of `nowa_generacja_lista`: cells of the 3x3 block that are missing are appended, marked
        as dead. */
    method DopiszBlok(i: int, j: int)
      requires BezPowtorzen(l)
      modifies this
      ensures Dopisane(old(l), l, (i, j))
      ensures forall c :: WBloku((i, j), c) ==> Zawiera(l, c)
    {
      var w := i - 1;
      while w <= i + 1
        invariant i - 1 <= w <= i + 2 && Dopisane(old(l), l, (i, j))
        invariant forall c: Pole :: i - 1 <= c.0 < w && j - 1 <= c.1 <= j + 1 ==> Zawiera(l, c)
      {
        var k := j - 1;
        while k <= j + 1
          invariant j - 1 <= k <= j + 2 && Dopisane(old(l), l, (i, j))
          invariant forall c: Pole :: i - 1 <= c.0 < w && j - 1 <= c.1 <= j + 1 ==> Zawiera(l, c)
          invariant forall c: Pole :: c.0 == w && j - 1 <= c.1 < k ==> Zawiera(l, c)
        {
          ghost var before := l;
          var sprawdzaj := SprawdzajCzyWLiscie(w, k);
          if !sprawdzaj {
            WstawNaKoniec(w, k, MARTWA);
            assert l[|before|].pole == (w, k);
            DopisanaJedna(old(l), before, (i, j), (w, k));
          }
          assert Zawiera(l, (w, k));
          k := k + 1;
        }
        w := w + 1;
      }
    }

    /** The end of the bodies of both loops: a live cell gets the number of its live neighbours, a dead one that
        will not come alive is removed. */
    method Ocen(i: int, j: int, ghost p: nat, ghost live: set<Pole>)
      requires BezPowtorzen(l) && Zywe(l, live) && p < |l| && l[p].pole == (i, j)
      modifies this
      ensures l == Oceniona(old(l), p, LiczbaZywych(live, (i, j)))
    {
      var zywi := ZliczanieZywychSasiadow(i, j, live);
      var martwa := SprawdzCzyMartwa(i, j, p);
      if martwa != MARTWA {
        DodajZywychSasiadow(i, j, zywi, p);
      }
      if martwa == MARTWA && zywi != 3 {
        BezJednej(l, p);
        UsunWszystkieWskazane(i, j);
      }
    }

    /** The body of the first loop of `nowa_generacja_lista` for one original cell. */
    method OdwiedzZywa(i: int, j: int, ghost was: seq<Komorka>, ghost v: nat, ghost live: set<Pole>,
                       ghost licz: Pole -> nat)
      requires Poczatek(was, live) && Pierwsza(l, was, licz, v) && v < |was| && l[v].pole == (i, j)
      requires licz((i, j)) == LiczbaZywych(live, (i, j))
      modifies this
      ensures Pierwsza(l, was, licz, v + 1) && |l| >= |old(l)|
    {
      ghost var before := l;
      DopiszBlok(i, j);
      ghost var extended := l;
      assert extended[..|before|][v] == before[v];
      ZyweDopisane(before, extended, was, licz, live, v, (i, j));
      Ocen(i, j, v, live);
      PierwszaDalej(before, extended, was, licz, v);
    }

    /** The first loop of `nowa_generacja_lista`.  The cursor moves on before the candidates of a cell are
        appended, so after a single cell it is at the end of the list. */
    method PierwszaPetla(ghost live: set<Pole>, ghost licz: Pole -> nat) returns (pom: int)
      requires BezPowtorzen(l) && Poczatek(l, live) && forall c :: licz(c) == LiczbaZywych(live, c)
      modifies this
      ensures Pierwsza(l, old(l), licz, |old(l)|)
      ensures pom == (if |old(l)| <= 1 then NULL else |old(l)|) && pom < |l|
    {
      ghost var was := l;
      var licznik := Zliczanie();
      var liczenie := 0;
      pom := Nastepny(-1, |l|);
      PierwszaNaPoczatku(l, licz);
      while pom != NULL && liczenie != licznik
        invariant 0 <= liczenie <= licznik && Pierwsza(l, was, licz, liczenie) && (liczenie == 0 ==> l == was)
        invariant liczenie < licznik ==> pom == liczenie
        invariant liczenie == licznik ==> pom == (if licznik <= 1 then NULL else licznik) && pom < |l|
        decreases licznik - liczenie
      {
        var i, j := l[pom].pole.0, l[pom].pole.1;
        if liczenie == licznik - 1 && licznik >= 2 {
          JestKandydat(l, was, licz);
        }
        pom := Nastepny(pom, |l|);
        OdwiedzZywa(i, j, was, liczenie, live, licz);
        liczenie := liczenie + 1;
      }
    }

    /** The second loop of `nowa_generacja_lista` visits the candidates. */
    method DrugaPetla(start: int, ghost was: seq<Komorka>, ghost live: set<Pole>, ghost licz: Pole -> nat)
      requires Poczatek(was, live) && Pierwsza(l, was, licz, |was|) && forall c :: licz(c) == LiczbaZywych(live, c)
      requires start == (if |was| <= 1 then NULL else |was|) && start < |l|
      modifies this
      ensures if |was| == 1 then l == old(l) else Druga(l, old(l), was, licz, |l|)
    {
      var pom := start;
      while pom != NULL
        invariant |was| == 1 ==> pom == NULL && l == old(l)
        invariant |was| != 1 ==> pom == NULL || |was| <= pom < |l|
        invariant |was| != 1 ==> Druga(l, old(l), was, licz, if pom == NULL then |l| else pom)
        decreases |l| - (if pom == NULL then |l| else pom)
      {
        var i, j, dlugosc := l[pom].pole.0, l[pom].pole.1, |l|;
        ghost var before, p := l, pom;
        pom := Nastepny(pom, |l|);
        ZyweDruga(l, old(l), was, licz, live, p);
        Ocen(i, j, p, live);
        DrugaDalej(before, old(l), was, licz, p);
        if |l| < dlugosc && pom != NULL {
          // The element in front of the cursor is gone; the cursor stays on its element.
          pom := pom - 1;
        }
      }
    }

    /** `nowa_generacja_lista`: exactly when the list does not hold exactly one cell, what is left are the live
        cells of the next generation.  A single cell is replaced by its eight neighbours instead. */
    method NowaGeneracjaLista(ghost live: set<Pole>)
      requires BezPowtorzen(l) && Poczatek(l, live)
      modifies this
      ensures BezPowtorzen(l) && forall p :: 0 <= p < |l| ==> l[p].zywi != MARTWA
      ensures (forall c :: Zawiera(l, c) <==> ZyjeDalej(live, c)) <==> |old(l)| != 1
      ensures |old(l)| == 1 ==> forall c :: Zawiera(l, c) <==> Sasiad(old(l)[0].pole, c)
    {
      ghost var was, licz := l, (c: Pole) => LiczbaZywych(live, c);
      var pom := PierwszaPetla(live, licz);
      ghost var mid := l;
      DrugaPetla(pom, was, live, licz);
      if |was| == 1 {
        Samotna(mid, was, licz, live);
      } else {
        NastepnePokolenie(l, mid, was, licz, live);
      }
      PrzesianeKomorki(l);
      UsunZyweKomorki();
    }
  }

  function Nastepny(pom: int, dlugosc: nat): int { if pom + 1 < dlugosc then pom + 1 else NULL }
}
