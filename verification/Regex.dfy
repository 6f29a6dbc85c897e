/** The derivative matcher of simpleRegexp.ml. */
module Regex {

  datatype Reg<C> = Lit(c: C) | Concat(r1: Reg<C>, r2: Reg<C>) | Or(r1: Reg<C>, r2: Reg<C>) | Star(r: Reg<C>)
                  | Eps | Empty

  // ---------------------------------------------------------------------------------------------
  // The program
  // ---------------------------------------------------------------------------------------------

  function Simpl<C>(r: Reg<C>): Reg<C> {
    match r
    case Or(r1, Empty) => Simpl(r1)
    case Or(Empty, r2) => Simpl(r2)
    case Concat(_, Empty) => Empty
    case Concat(Empty, _) => Empty
    case Concat(r1, Eps) => Simpl(r1)
    case Concat(Eps, r2) => Simpl(r2)
    case Lit(a) => Lit(a)
    case Concat(r1, r2) => Concat(Simpl(r1), Simpl(r2))
    case Or(r1, r2) => Or(Simpl(r1), Simpl(r2))
    case Star(r1) => Star(Simpl(r1))
    case Eps => Eps
    case Empty => Empty
  }

  predicate Nullable<C>(r: Reg<C>) {
    match r
    case Lit(_) => false
    case Concat(r1, r2) => Nullable(r1) && Nullable(r2)
    case Or(r1, r2) => Nullable(r1) || Nullable(r2)
    case Star(_) => true
    case Eps => true
    case Empty => false
  }

  predicate IsEmpty<C>(r: Reg<C>) {
    match r
    case Lit(_) => false
    case Concat(r1, r2) => IsEmpty(r1) || IsEmpty(r2)
    case Or(r1, r2) => IsEmpty(r1) && IsEmpty(r2)
    case Star(_) => false
    case Eps => false
    case Empty => true
  }

  function Der<C(==)>(a: C, r: Reg<C>): Reg<C> {
    match r
    case Lit(c) => if c == a then Eps else Empty
    case Concat(r1, r2) =>
      var left := Concat(Der(a, r1), r2);
      if Nullable(r1) then Or(left, Der(a, r2)) else left
    case Or(r1, r2) => Or(Der(a, r1), Der(a, r2))
    case Star(r1) => Concat(Der(a, r1), Star(r1))
    case Eps => Empty
    case Empty => Empty
  }

  function Ders<C(==)>(v: seq<C>, r: Reg<C>): Reg<C> {
    if |v| == 0 then r else Ders(v[1..], Simpl(Der(v[0], r)))
  }

  predicate Accept<C(==)>(r: Reg<C>, w: seq<C>) { Nullable(Ders(w, r)) }

  // ---------------------------------------------------------------------------------------------
  // The language of a regular expression
  // ---------------------------------------------------------------------------------------------

  function Flatten<C>(pieces: seq<seq<C>>): seq<C> {
    if |pieces| == 0 then [] else pieces[0] + Flatten(pieces[1..])
  }

  /** `w` is in the language of `r`, as the textbook says. */
  ghost predicate InLanguage<C(!new)>(r: Reg<C>, w: seq<C>)
    decreases r
  {
    match r
    case Lit(c) => w == [c]
    case Concat(r1, r2) => exists i: nat :: i <= |w| && InLanguage(r1, w[..i]) && InLanguage(r2, w[i..])
    case Or(r1, r2) => InLanguage(r1, w) || InLanguage(r2, w)
    case Star(r1) =>
      exists pieces: seq<seq<C>> :: Flatten(pieces) == w && forall p :: p in pieces ==> InLanguage(r1, p)
    case Eps => w == []
    case Empty => false
  }

  lemma InConcat<C(!new)>(r1: Reg<C>, r2: Reg<C>, x: seq<C>, y: seq<C>)
    requires InLanguage(r1, x) && InLanguage(r2, y)
    ensures InLanguage(Concat(r1, r2), x + y)
  {
    assert (x + y)[..|x|] == x && (x + y)[|x|..] == y;
  }

  lemma SplitConcat<C(!new)>(r1: Reg<C>, r2: Reg<C>, w: seq<C>) returns (x: seq<C>, y: seq<C>)
    requires InLanguage(Concat(r1, r2), w)
    ensures w == x + y && InLanguage(r1, x) && InLanguage(r2, y)
  {
    var i: nat :| i <= |w| && InLanguage(r1, w[..i]) && InLanguage(r2, w[i..]);
    x, y := w[..i], w[i..];
  }

  lemma InStar<C(!new)>(r: Reg<C>, x: seq<C>, y: seq<C>)
    requires InLanguage(r, x) && InLanguage(Star(r), y)
    ensures InLanguage(Star(r), x + y)
  {
    var pieces :| Flatten(pieces) == y && forall p :: p in pieces ==> InLanguage(r, p);
    assert ([x] + pieces)[1..] == pieces;
    assert Flatten([x] + pieces) == x + y;
  }

  /** A non-empty word of a starred language starts with a non-empty piece. */
  lemma {:induction false} SplitStar<C(!new)>(r: Reg<C>, w: seq<C>, pieces: seq<seq<C>>) returns (x: seq<C>, y: seq<C>)
    requires Flatten(pieces) == w && w != [] && forall p :: p in pieces ==> InLanguage(r, p)
    ensures w == x + y && x != [] && InLanguage(r, x) && InLanguage(Star(r), y)
    decreases |pieces|
  {
    if pieces[0] == [] {
      x, y := SplitStar(r, w, pieces[1..]);
    } else {
      x, y := pieces[0], Flatten(pieces[1..]);
    }
  }

  // ---------------------------------------------------------------------------------------------
  // Correctness
  // ---------------------------------------------------------------------------------------------

  ghost predicate SameLanguage<C(!new)>(r: Reg<C>, s: Reg<C>) {
    forall w :: InLanguage(r, w) <==> InLanguage(s, w)
  }

  lemma ConcatLanguages<C(!new)>(r1: Reg<C>, s1: Reg<C>, r2: Reg<C>, s2: Reg<C>, w: seq<C>)
    requires SameLanguage(r1, s1) && SameLanguage(r2, s2) && InLanguage(Concat(r1, r2), w)
    ensures InLanguage(Concat(s1, s2), w)
  {
    var x, y := SplitConcat(r1, r2, w);
    InConcat(s1, s2, x, y);
  }

  lemma EpsLeft<C(!new)>(r: Reg<C>, w: seq<C>)
    ensures InLanguage(Concat(Eps, r), w) <==> InLanguage(r, w)
  {
    if InLanguage(Concat(Eps, r), w) {
      var x, y := SplitConcat(Eps, r, w);
      assert w == y;
    }
    if InLanguage(r, w) {
      InConcat(Eps, r, [], w);
      assert [] + w == w;
    }
  }

  lemma EpsRight<C(!new)>(r: Reg<C>, w: seq<C>)
    ensures InLanguage(Concat(r, Eps), w) <==> InLanguage(r, w)
  {
    if InLanguage(Concat(r, Eps), w) {
      var x, y := SplitConcat(r, Eps, w);
      assert w == x;
    }
    if InLanguage(r, w) {
      InConcat(r, Eps, w, []);
      assert w + [] == w;
    }
  }

  /** `simpl` keeps the language. */
  lemma {:induction false} SimplSound<C(!new)>(r: Reg<C>)
    ensures SameLanguage(r, Simpl(r))
  {
    match r
    case Concat(r1, r2) =>
      SimplSound(r1);
      SimplSound(r2);
      forall w ensures InLanguage(r, w) <==> InLanguage(Simpl(r), w) {
        EpsLeft(r2, w);
        EpsRight(r1, w);
        if r1 != Empty && r2 != Empty && r1 != Eps && r2 != Eps {
          if InLanguage(r, w) { ConcatLanguages(r1, Simpl(r1), r2, Simpl(r2), w); }
          if InLanguage(Simpl(r), w) { ConcatLanguages(Simpl(r1), r1, Simpl(r2), r2, w); }
        }
      }
    case Or(r1, r2) =>
      SimplSound(r1);
      SimplSound(r2);
    case Star(r1) => SimplSound(r1);
    case _ =>
  }

  function Size<C>(r: Reg<C>): nat {
    match r
    case Concat(r1, r2) => 1 + Size(r1) + Size(r2)
    case Or(r1, r2) => 1 + Size(r1) + Size(r2)
    case Star(r1) => 1 + Size(r1)
    case _ => 1
  }

  /** No operand of a union is the empty expression, and no operand of a concatenation is that or epsilon. */
  predicate Tidy<C(==)>(r: Reg<C>) {
    match r
    case Concat(r1, r2) => !r1.Empty? && !r1.Eps? && !r2.Empty? && !r2.Eps? && Tidy(r1) && Tidy(r2)
    case Or(r1, r2) => !r1.Empty? && !r2.Empty? && Tidy(r1) && Tidy(r2)
    case Star(r1) => Tidy(r1)
    case _ => true
  }

  /** `simpl` makes every expression smaller that has something to simplify, and leaves the others alone. */
  lemma {:induction false} SimplShrinks<C>(r: Reg<C>)
    ensures if Tidy(r) then Simpl(r) == r else Size(Simpl(r)) < Size(r)
  {
    match r
    case Concat(r1, r2) =>
      SimplShrinks(r1);
      SimplShrinks(r2);
    case Or(r1, r2) =>
      SimplShrinks(r1);
      SimplShrinks(r2);
    case Star(r1) => SimplShrinks(r1);
    case _ =>
  }

  lemma {:induction false} NullableSound<C(!new)>(r: Reg<C>)
    ensures Nullable(r) <==> InLanguage(r, [])
  {
    match r
    case Concat(r1, r2) =>
      NullableSound(r1);
      NullableSound(r2);
      if Nullable(r) { InConcat(r1, r2, [], []); }
    case Or(r1, r2) =>
      NullableSound(r1);
      NullableSound(r2);
    case Star(r1) => assert Flatten<C>([]) == [];
    case _ =>
  }

  /** The derivative by `a` accepts exactly the words that `r` accepts after `a`. */
  lemma {:induction false} DerSound<C(!new)>(a: C, r: Reg<C>, w: seq<C>)
    ensures InLanguage(Der(a, r), w) <==> InLanguage(r, [a] + w)
    decreases r, 2
  {
    match r
    case Lit(c) => assert [a] + w == [c] ==> a == ([a] + w)[0] && w == ([a] + w)[1..];
    case Concat(r1, r2) => DerConcat(a, r1, r2, w);
    case Or(r1, r2) =>
      DerSound(a, r1, w);
      DerSound(a, r2, w);
    case Star(r1) => DerStar(a, r1, w);
    case Eps =>
    case Empty =>
  }

  lemma HeadOfConcat<C>(a: C, w: seq<C>, x: seq<C>, y: seq<C>)
    requires x + y == [a] + w && x != []
    ensures x == [a] + x[1..] && w == x[1..] + y
  {
    assert (x + y)[0] == a;
    assert w == ([a] + w)[1..] == (x + y)[1..];
  }

  lemma ConsAppend<C>(a: C, x: seq<C>, y: seq<C>)
    ensures ([a] + x) + y == [a] + (x + y)
  {
  }

  lemma {:induction false} DerConcatOnly<C(!new)>(a: C, r1: Reg<C>, r2: Reg<C>, w: seq<C>)
    requires InLanguage(Concat(Der(a, r1), r2), w)
    ensures InLanguage(Concat(r1, r2), [a] + w)
    decreases Concat(r1, r2), 0
  {
    var x, y := SplitConcat(Der(a, r1), r2, w);
    DerSound(a, r1, x);
    ConsAppend(a, x, y);
    InConcat(r1, r2, [a] + x, y);
  }

  lemma {:induction false} DerConcatIf<C(!new)>(a: C, r1: Reg<C>, r2: Reg<C>, w: seq<C>)
    requires InLanguage(Concat(r1, r2), [a] + w)
    ensures InLanguage(Concat(Der(a, r1), r2), w) || (InLanguage(r1, []) && InLanguage(r2, [a] + w))
    decreases Concat(r1, r2), 0
  {
    var x, y := SplitConcat(r1, r2, [a] + w);
    if x == [] {
      assert y == [a] + w;
    } else {
      HeadOfConcat(a, w, x, y);
      DerSound(a, r1, x[1..]);
      InConcat(Der(a, r1), r2, x[1..], y);
    }
  }

  lemma {:induction false} DerConcat<C(!new)>(a: C, r1: Reg<C>, r2: Reg<C>, w: seq<C>)
    ensures InLanguage(Der(a, Concat(r1, r2)), w) <==> InLanguage(Concat(r1, r2), [a] + w)
    decreases Concat(r1, r2), 1
  {
    NullableSound(r1);
    DerSound(a, r2, w);
    var whole := InLanguage(Concat(r1, r2), [a] + w);
    if InLanguage(Concat(Der(a, r1), r2), w) {
      DerConcatOnly(a, r1, r2, w);
      assert whole;
    } else if Nullable(r1) && InLanguage(Der(a, r2), w) {
      InConcat(r1, r2, [], [a] + w);
      assert [] + ([a] + w) == [a] + w;
      assert whole;
    } else if whole {
      DerConcatIf(a, r1, r2, w);
    }
  }

  lemma {:induction false} DerStar<C(!new)>(a: C, r: Reg<C>, w: seq<C>)
    ensures InLanguage(Concat(Der(a, r), Star(r)), w) <==> InLanguage(Star(r), [a] + w)
    decreases Star(r), 0
  {
    if InLanguage(Concat(Der(a, r), Star(r)), w) {
      var x, y := SplitConcat(Der(a, r), Star(r), w);
      DerSound(a, r, x);
      ConsAppend(a, x, y);
      InStar(r, [a] + x, y);
    }
    if InLanguage(Star(r), [a] + w) {
      var pieces :| Flatten(pieces) == [a] + w && forall p :: p in pieces ==> InLanguage(r, p);
      var x, y := SplitStar(r, [a] + w, pieces);
      HeadOfConcat(a, w, x, y);
      DerSound(a, r, x[1..]);
      InConcat(Der(a, r), Star(r), x[1..], y);
    }
  }

  lemma {:induction false} DersSound<C(!new)>(v: seq<C>, r: Reg<C>, w: seq<C>)
    ensures InLanguage(Ders(v, r), w) <==> InLanguage(r, v + w)
  {
    if |v| == 0 {
      assert v + w == w;
    } else {
      var d := Der(v[0], r);
      DersSound(v[1..], Simpl(d), w);
      SimplSound(d);
      DerSound(v[0], r, v[1..] + w);
      assert [v[0]] + (v[1..] + w) == v + w;
    }
  }

  /** `accept r w` holds exactly when `w` is in the language of `r`, although every derivative is simplified. */
  lemma AcceptIffInLanguage<C(!new)>(r: Reg<C>, w: seq<C>)
    ensures Accept(r, w) <==> InLanguage(r, w)
  {
    NullableSound(Ders(w, r));
    DersSound(w, r, []);
    assert w + [] == w;
  }

  lemma {:induction false} EmptyHasNoWord<C(!new)>(r: Reg<C>, w: seq<C>)
    requires IsEmpty(r)
    ensures !InLanguage(r, w)
  {
    match r
    case Concat(r1, r2) =>
      forall i: nat | i <= |w| ensures !(InLanguage(r1, w[..i]) && InLanguage(r2, w[i..])) {
        if IsEmpty(r1) { EmptyHasNoWord(r1, w[..i]); } else { EmptyHasNoWord(r2, w[i..]); }
      }
    case Or(r1, r2) =>
      EmptyHasNoWord(r1, w);
      EmptyHasNoWord(r2, w);
    case Empty =>
  }

  lemma {:induction false} NonEmptyHasWord<C(!new)>(r: Reg<C>) returns (w: seq<C>)
    requires !IsEmpty(r)
    ensures InLanguage(r, w)
  {
    match r
    case Lit(c) => w := [c];
    case Concat(r1, r2) =>
      var x := NonEmptyHasWord(r1);
      var y := NonEmptyHasWord(r2);
      InConcat(r1, r2, x, y);
      w := x + y;
    case Or(r1, r2) =>
      if !IsEmpty(r1) { w := NonEmptyHasWord(r1); } else { w := NonEmptyHasWord(r2); }
    case Star(_) =>
      NullableSound(r);
      w := [];
    case Eps => w := [];
  }

  /** `empty r` holds exactly when the language of `r` has no word. */
  lemma IsEmptyIffNoWord<C(!new)>(r: Reg<C>)
    ensures IsEmpty(r) <==> forall w :: !InLanguage(r, w)
  {
    if IsEmpty(r) {
      forall w ensures !InLanguage(r, w) { EmptyHasNoWord(r, w); }
    } else {
      var w := NonEmptyHasWord(r);
      assert InLanguage(r, w);
    }
  }
}
