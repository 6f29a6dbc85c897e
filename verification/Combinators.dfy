/** The SKIB combinator reducer of project1.hs. */
module Combinators {

  datatype Option<+T> = None | Some(value: T)

  datatype Expr = S | K | I | B | X | Z | V(n: int) | App(f: Expr, a: Expr)

  /** The reduction rules, at the root only. */
  function Contract(e: Expr): Option<Expr> {
    match e
    case App(App(App(S, x), y), z) => Some(App(App(x, z), App(y, z)))
    case App(App(K, x), y) => Some(x)
    case App(I, x) => Some(x)
    case App(App(App(B, x), y), z) => Some(App(x, App(y, z)))
    case _ => None
  }

  /** `rstep`: one reduction step, chosen by trying the root, then the function, then the argument. */
  function RStep(e: Expr): Option<Expr> {
    match e
    case App(App(App(S, x), y), z) => Some(App(App(x, z), App(y, z)))
    case App(App(K, x), y) => Some(x)
    case App(I, x) => Some(x)
    case App(App(App(B, x), y), z) => Some(App(x, App(y, z)))
    case App(f, a) =>
      (match RStep(f)
       case Some(f') => Some(App(f', a))
       case None =>
         match RStep(a)
         case Some(a') => Some(App(f, a'))
         case None => None)
    case _ => None
  }

  /** Reduction anywhere: one redex of `e` is contracted. */
  predicate Step(e: Expr, e': Expr) {
    || Contract(e) == Some(e')
    || (e.App? && e'.App? && ((Step(e.f, e'.f) && e.a == e'.a) || (e.f == e'.f && Step(e.a, e'.a))))
  }

  ghost predicate Steps(n: nat, e: Expr, e': Expr) {
    if n == 0 then e == e' else exists m :: Step(e, m) && Steps(n - 1, m, e')
  }

  ghost predicate Reduces(e: Expr, e': Expr) { exists n: nat :: Steps(n, e, e') }

  ghost predicate Normal(e: Expr) { forall e' :: !Step(e, e') }

  /** `rpath e` has at least `n + 1` elements and the one at index `n` is `e'`. */
  predicate RPathAt(n: nat, e: Expr, e': Expr) {
    if n == 0 then e == e' else RStep(e).Some? && RPathAt(n - 1, RStep(e).value, e')
  }

  /** `rpath e` is finite and ends with `e'`. */
  ghost predicate RPathEndsWith(e: Expr, e': Expr) {
    RStep(e').None? && exists n: nat :: RPathAt(n, e, e')
  }

  // ---------------------------------------------------------------------------------------------
  // rstep finds a redex whenever there is one
  // ---------------------------------------------------------------------------------------------

  lemma {:induction false} RStepIsStep(e: Expr)
    requires RStep(e).Some?
    ensures Step(e, RStep(e).value)
  {
    if Contract(e).None? {
      if RStep(e.f).Some? { RStepIsStep(e.f); } else { RStepIsStep(e.a); }
    }
  }

  lemma {:induction false} RStepFinds(e: Expr, e': Expr)
    requires Step(e, e')
    ensures RStep(e).Some?
  {
    if Contract(e) != Some(e') {
      if e.a == e'.a && Step(e.f, e'.f) { RStepFinds(e.f, e'.f); } else { RStepFinds(e.a, e'.a); }
    }
  }

  /** `rstep` gives up exactly when no redex remains anywhere. */
  lemma RStepStopsIffNormal(e: Expr)
    ensures RStep(e).None? <==> Normal(e)
  {
    if RStep(e).Some? {
      RStepIsStep(e);
    } else {
      forall e' | Step(e, e') ensures false { RStepFinds(e, e'); }
    }
  }

  // ---------------------------------------------------------------------------------------------
  // rstep contracts the leftmost-outermost redex
  // ---------------------------------------------------------------------------------------------

  datatype Side = InFunction | InArgument

  /** The subexpression that is reached by walking down from the root, if there is one. */
  function At(e: Expr, p: seq<Side>): Option<Expr> {
    if p == [] then Some(e)
    else if !e.App? then None
    else if p[0] == InFunction then At(e.f, p[1..])
    else At(e.a, p[1..])
  }

  /** `e` with the subexpression at `p` replaced. */
  function With(e: Expr, p: seq<Side>, x: Expr): Expr
    requires At(e, p).Some?
  {
    if p == [] then x
    else if p[0] == InFunction then App(With(e.f, p[1..], x), e.a)
    else App(e.f, With(e.a, p[1..], x))
  }

  predicate RedexAt(e: Expr, p: seq<Side>) { At(e, p).Some? && Contract(At(e, p).value).Some? }

  /** `p` lies further to the outside than `q`, or to the left of it. */
  ghost predicate Before(p: seq<Side>, q: seq<Side>) {
    || p < q
    || exists i: nat :: i < |p| && i < |q| && p[..i] == q[..i] && p[i] == InFunction && q[i] == InArgument
  }

  ghost predicate LeftmostOutermost(e: Expr, p: seq<Side>) {
    RedexAt(e, p) && forall q :: RedexAt(e, q) && q != p ==> Before(p, q)
  }

  lemma BeforeUnder(side: Side, p: seq<Side>, q: seq<Side>)
    requires Before(p, q)
    ensures Before([side] + p, [side] + q)
  {
    if !(p < q) {
      var i: nat :| i < |p| && i < |q| && p[..i] == q[..i] && p[i] == InFunction && q[i] == InArgument;
      assert ([side] + p)[..i + 1] == [side] + p[..i] == ([side] + q)[..i + 1];
    }
  }

  lemma PrefixAgrees(q: seq<Side>, p: seq<Side>, i: nat)
    requires i < |q| && i < |p|
    ensures q < p ==> q[i] == p[i]
  {
  }

  lemma PrefixesAgree(p: seq<Side>, q: seq<Side>, j: nat, i: nat)
    requires j <= |p| && j <= |q| && p[..j] == q[..j]
    ensures i < j ==> p[i] == q[i]
  {
    assert i < j ==> p[..j][i] == q[..j][i];
  }

  lemma NotBothBefore(p: seq<Side>, q: seq<Side>)
    requires Before(p, q)
    ensures !Before(q, p)
  {
    if !(p < q) {
      var i: nat :| i < |p| && i < |q| && p[..i] == q[..i] && p[i] == InFunction && q[i] == InArgument;
      PrefixAgrees(q, p, i);
      forall j: nat | j < |p| && j < |q| && q[..j] == p[..j]
        ensures (i < j ==> p[i] == q[i]) && (j < i ==> p[j] == q[j])
      {
        PrefixesAgree(p, q, j, i);
        PrefixesAgree(p, q, i, j);
      }
    } else if j: nat :| j < |p| && j < |q| && q[..j] == p[..j] && q[j] == InFunction && p[j] == InArgument {
      assert p[j] == q[j];
    }
  }

  /** Where `rstep` works. */
  function RStepAt(e: Expr): (p: seq<Side>)
    requires RStep(e).Some?
    ensures RedexAt(e, p) && RStep(e) == Some(With(e, p, Contract(At(e, p).value).value))
  {
    if Contract(e).Some? then []
    else if RStep(e.f).Some? then [InFunction] + RStepAt(e.f)
    else [InArgument] + RStepAt(e.a)
  }

  lemma {:induction false} RedexIsFound(e: Expr, q: seq<Side>)
    requires RedexAt(e, q)
    ensures RStep(e).Some?
  {
    if q != [] && Contract(e).None? {
      RedexIsFound(if q[0] == InFunction then e.f else e.a, q[1..]);
    }
  }

  lemma {:induction false} RStepAtIsFirst(e: Expr, q: seq<Side>)
    requires RStep(e).Some? && RedexAt(e, q) && q != RStepAt(e)
    ensures Before(RStepAt(e), q)
  {
    if Contract(e).Some? {
      assert [] < q;
    } else {
      var p := RStepAt(e);
      assert q == [q[0]] + q[1..];
      if q[0] == InFunction {
        RedexIsFound(e.f, q[1..]);
        RStepAtIsFirst(e.f, q[1..]);
        BeforeUnder(InFunction, RStepAt(e.f), q[1..]);
      } else if RStep(e.f).Some? {
        assert p[..0] == q[..0] && p[0] == InFunction;
      } else {
        RStepAtIsFirst(e.a, q[1..]);
        BeforeUnder(InArgument, RStepAt(e.a), q[1..]);
      }
    }
  }

  /** `rstep` contracts the leftmost-outermost redex, and no other. */
  lemma RStepIsLeftmostOutermost(e: Expr, e': Expr)
    ensures RStep(e) == Some(e')
       <==> exists p :: LeftmostOutermost(e, p) && e' == With(e, p, Contract(At(e, p).value).value)
  {
    hide At, With, Contract, RStep, RStepAt;
    if p :| LeftmostOutermost(e, p) {
      RedexIsFound(e, p);
      if p != RStepAt(e) {
        RStepAtIsFirst(e, p);
        NotBothBefore(RStepAt(e), p);
      }
    }
    if RStep(e).Some? {
      forall q | RedexAt(e, q) && q != RStepAt(e) ensures Before(RStepAt(e), q) { RStepAtIsFirst(e, q); }
      assert LeftmostOutermost(e, RStepAt(e));
    }
  }

  // ---------------------------------------------------------------------------------------------
  // Parallel reduction and confluence
  // ---------------------------------------------------------------------------------------------

  /** Any number of redexes of `e`, none of them created on the way, are contracted at once. */
  predicate Par(e: Expr, e': Expr) {
    || (!e.App? && e == e')
    || (e.App? && e'.App? && Par(e.f, e'.f) && Par(e.a, e'.a))
    || match e
       case App(App(App(S, x), y), z) =>
         && e'.App? && e'.f.App? && e'.a.App? && e'.f.a == e'.a.a
         && Par(x, e'.f.f) && Par(y, e'.a.f) && Par(z, e'.a.a)
       case App(App(K, x), y) => Par(x, e')
       case App(I, x) => Par(x, e')
       case App(App(App(B, x), y), z) => e'.App? && e'.a.App? && Par(x, e'.f) && Par(y, e'.a.f) && Par(z, e'.a.a)
       case _ => false
  }

  lemma ParRefl(e: Expr)
    ensures Par(e, e)
  {
  }

  lemma {:induction false} StepIsPar(e: Expr, e': Expr)
    requires Step(e, e')
    ensures Par(e, e')
  {
    forall x ensures Par(x, x) { ParRefl(x); }
    if Contract(e) != Some(e') {
      if e.a == e'.a && Step(e.f, e'.f) { StepIsPar(e.f, e'.f); } else { StepIsPar(e.a, e'.a); }
    }
  }

  /** All redexes of `e` are contracted at once. */
  function Develop(e: Expr): Expr {
    match e
    case App(App(App(S, x), y), z) => App(App(Develop(x), Develop(z)), App(Develop(y), Develop(z)))
    case App(App(K, x), y) => Develop(x)
    case App(I, x) => Develop(x)
    case App(App(App(B, x), y), z) => App(Develop(x), App(Develop(y), Develop(z)))
    case App(f, a) => App(Develop(f), Develop(a))
    case _ => e
  }

  /** A combinator with too few arguments stays in front of them. */
  lemma OneArgument(c: Expr, x: Expr, e': Expr)
    requires (c == S || c == K || c == B) && Par(App(c, x), e')
    ensures e'.App? && e'.f == c && Par(x, e'.a)
  {
    assert Contract(App(c, x)).None?;
    assert Par(c, e'.f);
  }

  lemma TwoArguments(c: Expr, x: Expr, y: Expr, e': Expr)
    requires (c == S || c == B) && Par(App(App(c, x), y), e')
    ensures e'.App? && e'.f.App? && e'.f.f == c && Par(x, e'.f.a) && Par(y, e'.a)
  {
    assert Par(App(c, x), e'.f);
    OneArgument(c, x, e'.f);
  }

  lemma ParApp(f: Expr, f': Expr, a: Expr, a': Expr)
    requires Par(f, f') && Par(a, a')
    ensures Par(App(f, a), App(f', a'))
  {
  }

  /** Whatever a parallel step contracts, the remaining redexes lead to the full development. */
  lemma {:induction false} Triangle(e: Expr, e': Expr)
    requires Par(e, e')
    ensures Par(e', Develop(e))
  {
    match e
    case App(App(App(S, x), y), z) =>
      if e'.App? && Par(e.f, e'.f) && Par(z, e'.a) {
        TwoArguments(S, x, y, e'.f);
        Triangle(x, e'.f.f.a);
        Triangle(y, e'.f.a);
        Triangle(z, e'.a);
      } else {
        Triangle(x, e'.f.f);
        Triangle(y, e'.a.f);
        Triangle(z, e'.a.a);
        ParApp(e'.f.f, Develop(x), e'.f.a, Develop(z));
        ParApp(e'.a.f, Develop(y), e'.a.a, Develop(z));
        ParApp(e'.f, App(Develop(x), Develop(z)), e'.a, App(Develop(y), Develop(z)));
      }
    case App(App(K, x), y) =>
      if e'.App? && Par(e.f, e'.f) && Par(y, e'.a) {
        OneArgument(K, x, e'.f);
        Triangle(x, e'.f.a);
      } else {
        Triangle(x, e');
      }
    case App(I, x) =>
      if e'.App? && Par(e.f, e'.f) && Par(x, e'.a) { Triangle(x, e'.a); } else { Triangle(x, e'); }
    case App(App(App(B, x), y), z) =>
      if e'.App? && Par(e.f, e'.f) && Par(z, e'.a) {
        TwoArguments(B, x, y, e'.f);
        Triangle(x, e'.f.f.a);
        Triangle(y, e'.f.a);
        Triangle(z, e'.a);
      } else {
        Triangle(x, e'.f);
        Triangle(y, e'.a.f);
        Triangle(z, e'.a.a);
        ParApp(e'.a.f, Develop(y), e'.a.a, Develop(z));
        ParApp(e'.f, Develop(x), e'.a, App(Develop(y), Develop(z)));
      }
    case App(f, a) =>
      Triangle(f, e'.f);
      Triangle(a, e'.a);
    case _ =>
  }

  ghost predicate Pars(n: nat, e: Expr, e': Expr) {
    if n == 0 then e == e' else exists m :: Par(e, m) && Pars(n - 1, m, e')
  }

  function Develops(n: nat, e: Expr): Expr { if n == 0 then e else Develops(n - 1, Develop(e)) }

  lemma {:induction false} DevelopsMonotone(n: nat, e: Expr, e': Expr)
    requires Par(e, e')
    ensures Par(Develops(n, e), Develops(n, e'))
  {
    if n > 0 {
      Triangle(e, e');
      Triangle(e', Develop(e));
      DevelopsMonotone(n - 1, Develop(e), Develop(e'));
    }
  }

  lemma {:induction false} ParsAppend(n: nat, e: Expr, m: Expr, e': Expr)
    requires Pars(n, e, m) && Par(m, e')
    ensures Pars(n + 1, e, e')
  {
    if n == 0 {
      assert Pars(0, e', e');
    } else {
      var x :| Par(e, x) && Pars(n - 1, x, m);
      ParsAppend(n - 1, x, m, e');
    }
  }

  /** Every expression reached in `n` parallel steps still reaches the `n`-fold full development. */
  lemma {:induction false} ReachesDevelops(n: nat, e: Expr, e': Expr)
    requires Pars(n, e, e')
    ensures Pars(n, e', Develops(n, e))
  {
    if n > 0 {
      var m :| Par(e, m) && Pars(n - 1, m, e');
      ReachesDevelops(n - 1, m, e');
      Triangle(e, m);
      DevelopsMonotone(n - 1, m, Develop(e));
      ParsAppend(n - 1, e', Develops(n - 1, m), Develops(n, e));
    }
  }

  lemma {:induction false} DevelopsFurther(n: nat, k: nat, e: Expr)
    ensures Pars(k, Develops(n, e), Develops(n + k, e))
  {
    if k > 0 {
      DevelopsFurther(n, k - 1, e);
      ParRefl(e);
      Triangle(e, e);
      DevelopsMonotone(n + k - 1, e, Develop(e));
      ParsAppend(k - 1, Develops(n, e), Develops(n + k - 1, e), Develops(n + k, e));
    }
  }

  lemma {:induction false} ParsConcat(n: nat, k: nat, e: Expr, m: Expr, e': Expr)
    requires Pars(n, e, m) && Pars(k, m, e')
    ensures Pars(n + k, e, e')
  {
    if n > 0 {
      var x :| Par(e, x) && Pars(n - 1, x, m);
      ParsConcat(n - 1, k, x, m, e');
    }
  }

  lemma {:induction false} StepsArePars(n: nat, e: Expr, e': Expr)
    requires Steps(n, e, e')
    ensures Pars(n, e, e')
  {
    if n > 0 {
      var m :| Step(e, m) && Steps(n - 1, m, e');
      StepIsPar(e, m);
      StepsArePars(n - 1, m, e');
    }
  }

  // ---------------------------------------------------------------------------------------------
  // A parallel step is a sequence of steps
  // ---------------------------------------------------------------------------------------------

  lemma {:induction false} StepsConcat(n: nat, k: nat, e: Expr, m: Expr, e': Expr)
    requires Steps(n, e, m) && Steps(k, m, e')
    ensures Steps(n + k, e, e')
  {
    if n > 0 {
      var x :| Step(e, x) && Steps(n - 1, x, m);
      StepsConcat(n - 1, k, x, m, e');
    }
  }

  lemma Transitive(e: Expr, m: Expr, e': Expr)
    requires Reduces(e, m) && Reduces(m, e')
    ensures Reduces(e, e')
  {
    var n: nat :| Steps(n, e, m);
    var k: nat :| Steps(k, m, e');
    StepsConcat(n, k, e, m, e');
  }

  lemma {:induction false} StepsInFunction(n: nat, f: Expr, f': Expr, a: Expr)
    requires Steps(n, f, f')
    ensures Steps(n, App(f, a), App(f', a))
  {
    if n > 0 {
      var m :| Step(f, m) && Steps(n - 1, m, f');
      StepsInFunction(n - 1, m, f', a);
      assert Step(App(f, a), App(m, a));
    }
  }

  lemma {:induction false} StepsInArgument(n: nat, f: Expr, a: Expr, a': Expr)
    requires Steps(n, a, a')
    ensures Steps(n, App(f, a), App(f, a'))
  {
    if n > 0 {
      var m :| Step(a, m) && Steps(n - 1, m, a');
      StepsInArgument(n - 1, f, m, a');
      assert Step(App(f, a), App(f, m));
    }
  }

  lemma Congruence(f: Expr, f': Expr, a: Expr, a': Expr)
    requires Reduces(f, f') && Reduces(a, a')
    ensures Reduces(App(f, a), App(f', a'))
  {
    var n: nat :| Steps(n, f, f');
    var k: nat :| Steps(k, a, a');
    StepsInFunction(n, f, f', a);
    StepsInArgument(k, f', a, a');
    StepsConcat(n, k, App(f, a), App(f', a), App(f', a'));
  }

  lemma ContractReduces(e: Expr, m: Expr, e': Expr)
    requires Contract(e) == Some(m) && Reduces(m, e')
    ensures Reduces(e, e')
  {
    var k: nat :| Steps(k, m, e');
    assert Step(e, m) && Steps(k + 1, e, e');
  }

  lemma {:induction false} ParReduces(e: Expr, e': Expr)
    requires Par(e, e')
    ensures Reduces(e, e')
  {
    if !e.App? {
      assert Steps(0, e, e');
    } else if e'.App? && Par(e.f, e'.f) && Par(e.a, e'.a) {
      ParReduces(e.f, e'.f);
      ParReduces(e.a, e'.a);
      Congruence(e.f, e'.f, e.a, e'.a);
    } else {
      match e
      case App(App(App(S, x), y), z) =>
        ParReduces(x, e'.f.f);
        ParReduces(y, e'.a.f);
        ParReduces(z, e'.a.a);
        Congruence(x, e'.f.f, z, e'.a.a);
        Congruence(y, e'.a.f, z, e'.a.a);
        Congruence(App(x, z), e'.f, App(y, z), e'.a);
        ContractReduces(e, App(App(x, z), App(y, z)), e');
      case App(App(K, x), y) =>
        ParReduces(x, e');
        ContractReduces(e, x, e');
      case App(I, x) =>
        ParReduces(x, e');
        ContractReduces(e, x, e');
      case App(App(App(B, x), y), z) =>
        ParReduces(x, e'.f);
        ParReduces(y, e'.a.f);
        ParReduces(z, e'.a.a);
        Congruence(y, e'.a.f, z, e'.a.a);
        Congruence(x, e'.f, App(y, z), e'.a);
        ContractReduces(e, App(x, App(y, z)), e');
    }
  }

  lemma {:induction false} ParsReduce(n: nat, e: Expr, e': Expr)
    requires Pars(n, e, e')
    ensures Reduces(e, e')
  {
    if n == 0 {
      assert Steps(0, e, e');
    } else {
      var m :| Par(e, m) && Pars(n - 1, m, e');
      ParReduces(e, m);
      ParsReduce(n - 1, m, e');
      Transitive(e, m, e');
    }
  }

  /** Two reduction sequences from the same expression, however long, can always be joined again. */
  lemma Confluence(e: Expr, x: Expr, y: Expr)
    requires Reduces(e, x) && Reduces(e, y)
    ensures exists z :: Reduces(x, z) && Reduces(y, z)
  {
    var n: nat :| Steps(n, e, x);
    var k: nat :| Steps(k, e, y);
    StepsArePars(n, e, x);
    StepsArePars(k, e, y);
    ReachesDevelops(n, e, x);
    ReachesDevelops(k, e, y);
    DevelopsFurther(n, k, e);
    DevelopsFurther(k, n, e);
    ParsConcat(n, k, x, Develops(n, e), Develops(n + k, e));
    ParsConcat(k, n, y, Develops(k, e), Develops(n + k, e));
    ParsReduce(n + k, x, Develops(n + k, e));
    ParsReduce(n + k, y, Develops(n + k, e));
  }

  lemma NormalStays(e: Expr, e': Expr)
    requires Normal(e) && Reduces(e, e')
    ensures e == e'
  {
    var n: nat :| Steps(n, e, e');
  }

  /** If `rpath` is finite, its last element is the only normal form that any reduction order can reach. */
  lemma RPathFindsTheNormalForm(e: Expr, e': Expr, other: Expr)
    requires RPathEndsWith(e, e')
    requires Reduces(e, other) && Normal(other)
    ensures Reduces(e, e') && Normal(e') && other == e'
  {
    RStepStopsIffNormal(e');
    var n: nat :| RPathAt(n, e, e');
    RPathReduces(n, e, e');
    Confluence(e, e', other);
    var z :| Reduces(e', z) && Reduces(other, z);
    NormalStays(e', z);
    NormalStays(other, z);
  }

  lemma {:induction false} RPathReduces(n: nat, e: Expr, e': Expr)
    requires RPathAt(n, e, e')
    ensures Reduces(e, e')
  {
    if n == 0 {
      assert Steps(0, e, e');
    } else {
      var m := RStep(e).value;
      RStepIsStep(e);
      RPathReduces(n - 1, m, e');
      var k: nat :| Steps(k, m, e');
      assert Steps(k + 1, e, e');
    }
  }

  // ---------------------------------------------------------------------------------------------
  // rpath finds every normal form: head steps first, then the arguments
  // ---------------------------------------------------------------------------------------------

  function Head(e: Expr): Expr { if e.App? then Head(e.f) else e }

  function Args(e: Expr): nat { if e.App? then 1 + Args(e.f) else 0 }

  /** The number of arguments a combinator consumes; 0 for variables, which consume none. */
  function Arity(e: Expr): nat {
    match e
    case S => 3
    case K => 2
    case I => 1
    case B => 3
    case _ => 0
  }

  predicate HasHeadRedex(e: Expr) { 0 < Arity(Head(e)) <= Args(e) }

  lemma ContractByArity(e: Expr)
    ensures Contract(e).Some? <==> 0 < Arity(Head(e)) == Args(e)
  {
    if e.App? && e.f.App? && e.f.f.App? {
      assert Args(e.f.f) == 1 + Args(e.f.f.f);
      assert Args(e.f) == 2 + Args(e.f.f.f);
      assert Head(e.f) == Head(e.f.f.f);
    } else if e.App? && e.f.App? {
      assert Args(e) == 2 + Args(e.f.f);
    }
  }

  function HeadStep(e: Expr): Expr
    requires HasHeadRedex(e)
  {
    ContractByArity(e);
    if Contract(e).Some? then Contract(e).value else App(HeadStep(e.f), e.a)
  }

  /** `rstep` contracts the head redex as long as there is one. */
  lemma {:induction false} RStepIsHeadStep(e: Expr)
    requires HasHeadRedex(e)
    ensures RStep(e) == Some(HeadStep(e))
  {
    ContractByArity(e);
    if Contract(e).None? {
      RStepIsHeadStep(e.f);
    }
  }

  predicate HeadPath(n: nat, e: Expr, e': Expr) {
    if n == 0 then e == e' else HasHeadRedex(e) && HeadPath(n - 1, HeadStep(e), e')
  }

  /** A parallel step that does not touch the head redex. */
  predicate Internal(e: Expr, e': Expr) {
    if e.App? then e'.App? && Internal(e.f, e'.f) && Par(e.a, e'.a) else e == e'
  }

  lemma {:induction false} InternalIsPar(e: Expr, e': Expr)
    requires Internal(e, e')
    ensures Par(e, e') && Head(e) == Head(e') && Args(e) == Args(e')
  {
    if e.App? {
      InternalIsPar(e.f, e'.f);
    }
  }

  lemma {:induction false} HeadPathInFunction(n: nat, f: Expr, f': Expr, a: Expr)
    requires HeadPath(n, f, f')
    ensures HeadPath(n, App(f, a), App(f', a))
  {
    if n > 0 {
      ContractByArity(App(f, a));
      HeadPathInFunction(n - 1, HeadStep(f), f', a);
    }
  }

  /** Every parallel step is a sequence of head steps followed by an internal parallel step. */
  lemma {:induction false} Factor(e: Expr, e': Expr) returns (n: nat, m: Expr)
    requires Par(e, e')
    ensures HeadPath(n, e, m) && Internal(m, e')
  {
    if !e.App? {
      n, m := 0, e;
    } else if e'.App? && Par(e.f, e'.f) && Par(e.a, e'.a) {
      var k, h := Factor(e.f, e'.f);
      HeadPathInFunction(k, e.f, h, e.a);
      n, m := k, App(h, e.a);
    } else {
      ContractByArity(e);
      match e
      case App(App(App(S, x), y), z) =>
        var k, h := Factor(x, e'.f.f);
        HeadPathInFunction(k, x, h, z);
        HeadPathInFunction(k, App(x, z), App(h, z), App(y, z));
        n, m := k + 1, App(App(h, z), App(y, z));
      case App(App(K, x), y) =>
        var k, h := Factor(x, e');
        n, m := k + 1, h;
      case App(I, x) =>
        var k, h := Factor(x, e');
        n, m := k + 1, h;
      case App(App(App(B, x), y), z) =>
        var k, h := Factor(x, e'.f);
        HeadPathInFunction(k, x, h, App(y, z));
        n, m := k + 1, App(h, App(y, z));
    }
  }

  /** A head step after an internal step can be made before it. */
  lemma {:induction false} HeadStepFirst(e: Expr, e': Expr)
    requires Internal(e, e') && HasHeadRedex(e')
    ensures HasHeadRedex(e) && Par(HeadStep(e), HeadStep(e'))
  {
    InternalIsPar(e, e');
    ContractByArity(e);
    ContractByArity(e');
    if Contract(e).None? {
      HeadStepFirst(e.f, e'.f);
    } else {
      match e
      case App(App(App(S, x), y), z) =>
        assert Internal(App(App(S, x), y), e'.f) && Internal(App(S, x), e'.f.f) && Internal(S, e'.f.f.f);
        assert Par(App(x, z), App(e'.f.f.a, e'.a)) && Par(App(y, z), App(e'.f.a, e'.a));
      case App(App(K, x), y) => assert Internal(App(K, x), e'.f) && Internal(K, e'.f.f);
      case App(I, x) => assert Internal(I, e'.f);
      case App(App(App(B, x), y), z) =>
        assert Internal(App(App(B, x), y), e'.f) && Internal(App(B, x), e'.f.f) && Internal(B, e'.f.f.f);
        assert Par(App(y, z), App(e'.f.a, e'.a));
    }
  }

  lemma {:induction false} HeadPathConcat(n: nat, k: nat, e: Expr, m: Expr, e': Expr)
    requires HeadPath(n, e, m) && HeadPath(k, m, e')
    ensures HeadPath(n + k, e, e')
  {
    if n > 0 {
      HeadPathConcat(n - 1, k, HeadStep(e), m, e');
    }
  }

  lemma {:induction false} HeadPathFirst(k: nat, e: Expr, m: Expr, e': Expr) returns (n: nat, h: Expr)
    requires Internal(e, m) && HeadPath(k, m, e')
    ensures HeadPath(n, e, h) && Internal(h, e')
  {
    hide Internal, HeadStep, HasHeadRedex, Par;
    if k == 0 {
      n, h := 0, e;
    } else {
      HeadStepFirst(e, m);
      var n0, h0 := Factor(HeadStep(e), HeadStep(m));
      var n1, h1 := HeadPathFirst(k - 1, h0, HeadStep(m), e');
      HeadPathConcat(n0, n1, HeadStep(e), h0, h1);
      n, h := 1 + (n0 + n1), h1;
    }
  }

  ghost predicate Internals(n: nat, e: Expr, e': Expr) {
    if n == 0 then e == e' else exists m :: Internal(e, m) && Internals(n - 1, m, e')
  }

  /** Standardization: every reduction is a sequence of head steps followed by internal steps. */
  lemma {:induction false} Standardize(n: nat, e: Expr, e': Expr) returns (k: nat, h: Expr)
    requires Pars(n, e, e')
    ensures HeadPath(k, e, h) && Internals(n, h, e')
  {
    if n == 0 {
      k, h := 0, e;
    } else {
      var m :| Par(e, m) && Pars(n - 1, m, e');
      var k1, h1 := Standardize(n - 1, m, e');
      var k0, h0 := Factor(e, m);
      var k2, h2 := HeadPathFirst(k1, h0, m, h1);
      HeadPathConcat(k0, k2, e, h0, h2);
      k, h := k0 + k2, h2;
    }
  }

  /** Internal steps keep the head and reduce function and argument separately. */
  lemma {:induction false} InternalsSplit(n: nat, e: Expr, e': Expr)
    requires Internals(n, e, e')
    ensures Head(e) == Head(e') && Args(e) == Args(e')
    ensures e.App? ==> e'.App? && Pars(n, e.f, e'.f) && Pars(n, e.a, e'.a)
    ensures !e.App? ==> e == e'
  {
    if n > 0 {
      var m :| Internal(e, m) && Internals(n - 1, m, e');
      InternalIsPar(e, m);
      InternalsSplit(n - 1, m, e');
      if e.App? {
        InternalIsPar(e.f, m.f);
      }
    }
  }

  lemma {:induction false} RPathConcat(n: nat, k: nat, e: Expr, m: Expr, e': Expr)
    requires RPathAt(n, e, m) && RPathAt(k, m, e')
    ensures RPathAt(n + k, e, e')
  {
    if n > 0 {
      RPathConcat(n - 1, k, RStep(e).value, m, e');
    }
  }

  lemma {:induction false} HeadPathIsRPath(n: nat, e: Expr, e': Expr)
    requires HeadPath(n, e, e')
    ensures RPathAt(n, e, e')
  {
    if n > 0 {
      RStepIsHeadStep(e);
      HeadPathIsRPath(n - 1, HeadStep(e), e');
    }
  }

  /** Without a head redex, `rstep` keeps the head and the number of arguments. */
  lemma {:induction false} RStepKeepsHead(e: Expr)
    requires !HasHeadRedex(e) && RStep(e).Some?
    ensures Head(RStep(e).value) == Head(e) && Args(RStep(e).value) == Args(e)
  {
    ContractByArity(e);
    assert e.App?;
    if RStep(e.f).Some? {
      RStepKeepsHead(e.f);
    }
  }

  lemma {:induction false} RPathInFunction(n: nat, f: Expr, f': Expr, a: Expr)
    requires RPathAt(n, f, f') && !HasHeadRedex(App(f, a))
    ensures RPathAt(n, App(f, a), App(f', a))
  {
    if n > 0 {
      ContractByArity(App(f, a));
      RStepKeepsHead(f);
      RPathInFunction(n - 1, RStep(f).value, f', a);
    }
  }

  lemma {:induction false} RPathInArgument(n: nat, f: Expr, a: Expr, a': Expr)
    requires RPathAt(n, a, a') && RStep(f).None? && !HasHeadRedex(App(f, a))
    ensures RPathAt(n, App(f, a), App(f, a'))
  {
    if n > 0 {
      ContractByArity(App(f, a));
      RPathInArgument(n - 1, f, RStep(a).value, a');
    }
  }

  lemma {:induction false} RPathReaches(n: nat, e: Expr, e': Expr) returns (k: nat)
    requires Pars(n, e, e') && RStep(e').None?
    ensures RPathAt(k, e, e')
    decreases e'
  {
    var k0, h := Standardize(n, e, e');
    HeadPathIsRPath(k0, e, h);
    InternalsSplit(n, h, e');
    if HasHeadRedex(e') {
      RStepIsHeadStep(e');
      assert false;
    } else if h.App? {
      ContractByArity(e');
      var k1 := RPathReaches(n, h.f, e'.f);
      var k2 := RPathReaches(n, h.a, e'.a);
      RPathInFunction(k1, h.f, e'.f, h.a);
      InternalsSplitHead(h, e');
      RPathInArgument(k2, e'.f, h.a, e'.a);
      RPathConcat(k1, k2, h, App(e'.f, h.a), e');
      RPathConcat(k0, k1 + k2, e, h, e');
      k := k0 + (k1 + k2);
    } else {
      k := k0;
    }
  }

  lemma InternalsSplitHead(h: Expr, e': Expr)
    requires h.App? && e'.App? && Head(h) == Head(e') && Args(h) == Args(e') && !HasHeadRedex(e')
    ensures !HasHeadRedex(App(e'.f, h.a))
  {
  }

  /** Normalization: `rpath` is finite exactly when some reduction order reaches a normal form, and then ends with
      it. */
  lemma RPathNormalizes(e: Expr, e': Expr)
    ensures RPathEndsWith(e, e') <==> Reduces(e, e') && Normal(e')
  {
    RStepStopsIffNormal(e');
    if RPathEndsWith(e, e') {
      var n: nat :| RPathAt(n, e, e');
      RPathReduces(n, e, e');
    }
    if Reduces(e, e') && Normal(e') {
      var n: nat :| Steps(n, e, e');
      StepsArePars(n, e, e');
      var k := RPathReaches(n, e, e');
    }
  }
}
