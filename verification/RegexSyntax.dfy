/** The printer of simpleRegexp.ml and the parser generated from parser.mly and lexer.mll. */
module RegexSyntax {
  import opened Regex

  const EPSILON_CHAR: char := '\U{03B5}'
  const EMPTY_CHAR: char := '\U{2205}'

  // ---------------------------------------------------------------------------------------------
  // The printer
  // ---------------------------------------------------------------------------------------------

  predicate NeedParens(parent: Reg<char>, child: Reg<char>) {
    match (parent, child)
    case (Or(_, _), Or(_, _)) => false
    case (Concat(_, _), Concat(_, _)) => false
    case (Or(_, _), Concat(_, _)) => false
    case (Or(_, _), Star(_)) => false
    case (Concat(_, _), Star(_)) => false
    case (_, Lit(_)) => false
    case (_, Eps) => false
    case (_, Empty) => false
    case _ => true
  }

  /** How tightly an expression binds. */
  function Strength(r: Reg<char>): nat {
    match r
    case Or(_, _) => 0
    case Concat(_, _) => 1
    case Star(_) => 2
    case _ => 3
  }

  /** An operand is parenthesized if it binds less tightly than its operator; a starred star is, too. */
  lemma ParenthesesByStrength(parent: Reg<char>, child: Reg<char>)
    requires Strength(parent) < 3
    ensures NeedParens(parent, child) <==> Strength(child) < Strength(parent) || (parent.Star? && child.Star?)
  {
  }

  function Repr(r: Reg<char>): string
    decreases r, 0
  {
    match r
    case Lit(c) => [c]
    case Concat(r1, r2) => ReprChild(r, r1) + ReprChild(r, r2)
    case Or(r1, r2) => ReprChild(r, r1) + "|" + ReprChild(r, r2)
    case Star(r1) => ReprChild(r, r1) + "*"
    case Eps => [EPSILON_CHAR]
    case Empty => [EMPTY_CHAR]
  }

  function ReprChild(r: Reg<char>, child: Reg<char>): string
    requires child < r
    decreases child, 1
  {
    if NeedParens(r, child) then "(" + Repr(child) + ")" else Repr(child)
  }

  // ---------------------------------------------------------------------------------------------
  // The lexer
  // ---------------------------------------------------------------------------------------------

  datatype Token = CHAR(c: char) | UNION | CONCAT | STAR | EMPTY | EPSILON | LPAR | RPAR | BADTOK

  predicate IsLetterOrDigit(c: char) { 'a' <= c <= 'z' || 'A' <= c <= 'Z' || '0' <= c <= '9' }

  predicate IsWhite(c: char) { c == ' ' || c == '\t' || c == '\n' }

  function Lex(s: string): seq<Token> {
    if |s| == 0 then []
    else
      var rest := Lex(s[1..]);
      var c := s[0];
      if IsWhite(c) then rest
      else if c == '|' then [UNION] + rest
      else if c == '*' then [STAR] + rest
      else if c == '(' then [LPAR] + rest
      else if c == ')' then [RPAR] + rest
      else if c == EMPTY_CHAR then [EMPTY] + rest
      else if c == EPSILON_CHAR then [EPSILON] + rest
      else if IsLetterOrDigit(c) then [CHAR(c)] + rest
      else [BADTOK] + rest
  }

  // ---------------------------------------------------------------------------------------------
  // The shift-reduce parser: the grammar's conflicts are resolved by the declared precedences
  // ---------------------------------------------------------------------------------------------

  /** The parser stack, top first. */
  datatype Symbol = T(t: Token) | Re(r: Reg<char>)

  datatype Stack = Bottom | Push(top: Symbol, below: Stack)

  datatype Result = Ok(r: Reg<char>) | SyntaxError

  predicate StartsRe(t: Token) { t.CHAR? || t == EPSILON || t == EMPTY || t == LPAR }

  /** Precedence levels, lowest to highest, as declared. */
  function Precedence(t: Token): nat {
    match t
    case UNION => 1
    case CONCAT => 2
    case STAR => 3
    case LPAR => 4
    case RPAR => 4
    case CHAR(_) => 5
    case EPSILON => 5
    case EMPTY => 5
    case BADTOK => 0
  }

  /** With a complete `re` on top, the tokens that some rule can continue with. */
  predicate CanShift(below: Stack, t: Token) {
    || t == UNION || t == CONCAT || t == STAR || StartsRe(t)
    || (t == RPAR && below.Push? && below.top == T(LPAR))
  }

  /** With a complete binary rule of the given precedence on top, left associativity and a lower or equal
      precedence of the next token mean reduce. */
  predicate ReducesFirst(rule: nat, below: Stack, tokens: seq<Token>) {
    |tokens| == 0 || !CanShift(below, tokens[0]) || Precedence(tokens[0]) <= rule
  }

  function Weight(s: Stack): nat {
    if s.Bottom? then 0 else (if s.top.T? then 2 else 1) + Weight(s.below)
  }

  function Shift(stack: Stack, tokens: seq<Token>): Result
    requires |tokens| > 0
    decreases 3 * |tokens| + Weight(stack), 0
  {
    Parse(Push(T(tokens[0]), stack), tokens[1..])
  }

  function Parse(stack: Stack, tokens: seq<Token>): Result
    decreases 3 * |tokens| + Weight(stack), 1
  {
    match stack
    case Push(T(CHAR(c)), st) => Parse(Push(Re(Lit(c)), st), tokens)
    case Push(T(EPSILON), st) => Parse(Push(Re(Eps), st), tokens)
    case Push(T(EMPTY), st) => Parse(Push(Re(Empty), st), tokens)
    case Push(T(RPAR), Push(Re(r), Push(T(LPAR), st))) =>
      assert Weight(stack.below) == 3 + Weight(st);
      Parse(Push(Re(r), st), tokens)
    case Push(T(STAR), Push(Re(r), st)) =>
      assert Weight(stack.below) == 1 + Weight(st);
      Parse(Push(Re(Star(r)), st), tokens)
    case Push(Re(r2), Push(T(UNION), Push(Re(r1), st))) =>
      assert Weight(stack.below) == 3 + Weight(st);
      if ReducesFirst(1, stack.below, tokens) then Parse(Push(Re(Or(r1, r2)), st), tokens)
      else Shift(stack, tokens)
    case Push(Re(r2), Push(T(CONCAT), Push(Re(r1), st))) =>
      assert Weight(stack.below) == 3 + Weight(st);
      if ReducesFirst(2, stack.below, tokens) then Parse(Push(Re(Concat(r1, r2)), st), tokens)
      else Shift(stack, tokens)
    case Push(Re(r2), Push(Re(r1), st)) =>
      assert Weight(stack.below) == 1 + Weight(st);
      if ReducesFirst(2, stack.below, tokens) then Parse(Push(Re(Concat(r1, r2)), st), tokens)
      else Shift(stack, tokens)
    case Push(Re(r), st) =>
      if |tokens| == 0 then (if st.Bottom? then Ok(r) else SyntaxError)
      else if CanShift(st, tokens[0]) then Shift(stack, tokens)
      else SyntaxError
    case _ =>
      if |tokens| > 0 && StartsRe(tokens[0]) then Shift(stack, tokens) else SyntaxError
  }

  function ParseString(s: string): Result { Parse(Bottom, Lex(s)) }

  // ---------------------------------------------------------------------------------------------
  // What parsing the printed form returns
  // ---------------------------------------------------------------------------------------------

  /** Unions associated to the left and concatenations to the right; nothing else changes. */
  function Reassociate(r: Reg<char>): Reg<char>
    decreases r, 2
  {
    match r
    case Or(r1, r2) => JoinLeft(Reassociate(r1), r2)
    case _ => JoinRight(Factors(r))
  }

  /** The union of `acc` with the operands of `r`, associated to the left. */
  function JoinLeft(acc: Reg<char>, r: Reg<char>): Reg<char>
    decreases r, 3
  {
    match r
    case Or(r1, r2) => JoinLeft(JoinLeft(acc, r1), r2)
    case _ => Or(acc, JoinRight(Factors(r)))
  }

  /** The operands of a concatenation, left to right. */
  function Factors(r: Reg<char>): (fs: seq<Reg<char>>)
    ensures |fs| > 0
    decreases r, 1
  {
    match r
    case Concat(r1, r2) => FactorsOf(r1) + FactorsOf(r2)
    case Star(r1) => [Star(Reassociate(r1))]
    case _ => [r]
  }

  function FactorsOf(r: Reg<char>): (fs: seq<Reg<char>>)
    ensures |fs| > 0
    decreases r, 4
  {
    if r.Or? then [Reassociate(r)] else Factors(r)
  }

  function JoinRight(fs: seq<Reg<char>>): Reg<char>
    requires |fs| > 0
  {
    if |fs| == 1 then fs[0] else Concat(fs[0], JoinRight(fs[1..]))
  }

  // ---------------------------------------------------------------------------------------------
  // The printed form as a sequence of tokens
  // ---------------------------------------------------------------------------------------------

  predicate OverLettersAndDigits(r: Reg<char>) {
    match r
    case Lit(c) => IsLetterOrDigit(c)
    case Concat(r1, r2) => OverLettersAndDigits(r1) && OverLettersAndDigits(r2)
    case Or(r1, r2) => OverLettersAndDigits(r1) && OverLettersAndDigits(r2)
    case Star(r1) => OverLettersAndDigits(r1)
    case _ => true
  }

  function Tokens(r: Reg<char>): seq<Token>
    decreases r, 0
  {
    match r
    case Lit(c) => [CHAR(c)]
    case Concat(r1, r2) => ChildTokens(r, r1) + ChildTokens(r, r2)
    case Or(r1, r2) => ChildTokens(r, r1) + [UNION] + ChildTokens(r, r2)
    case Star(r1) => ChildTokens(r, r1) + [STAR]
    case Eps => [EPSILON]
    case Empty => [EMPTY]
  }

  function ChildTokens(r: Reg<char>, child: Reg<char>): seq<Token>
    requires child < r
    decreases child, 1
  {
    if NeedParens(r, child) then [LPAR] + Tokens(child) + [RPAR] else Tokens(child)
  }

  lemma {:induction false} LexConcat(a: string, b: string)
    ensures Lex(a + b) == Lex(a) + Lex(b)
  {
    if |a| == 0 {
      assert a + b == b;
    } else {
      assert (a + b)[1..] == a[1..] + b;
      LexConcat(a[1..], b);
    }
  }

  /** The tokens of a single character. */
  lemma LexSymbols()
    ensures Lex("|") == [UNION] && Lex("*") == [STAR] && Lex("(") == [LPAR] && Lex(")") == [RPAR]
    ensures Lex("\U{2205}") == [EMPTY] && Lex("\U{03B5}") == [EPSILON]
    ensures Lex(" ") == Lex("\t") == Lex("\n") == []
    ensures forall c :: IsLetterOrDigit(c) ==> Lex([c]) == [CHAR(c)]
    ensures forall c :: c !in " \t\n|*()\U{2205}\U{03B5}" && !IsLetterOrDigit(c) ==> Lex([c]) == [BADTOK]
  {
    assert Lex([]) == [];
    forall c: char ensures [c][1..] == [] { }
  }

  lemma {:induction false} LexRepr(r: Reg<char>)
    requires OverLettersAndDigits(r)
    ensures Lex(Repr(r)) == Tokens(r)
    decreases r, 0
  {
    hide Lex;
    LexSymbols();
    match r
    case Lit(c) =>
    case Concat(r1, r2) =>
      LexChild(r, r1);
      LexChild(r, r2);
      LexConcat(ReprChild(r, r1), ReprChild(r, r2));
    case Or(r1, r2) =>
      LexChild(r, r1);
      LexChild(r, r2);
      LexConcat(ReprChild(r, r1), "|");
      LexConcat(ReprChild(r, r1) + "|", ReprChild(r, r2));
    case Star(r1) =>
      LexChild(r, r1);
      LexConcat(ReprChild(r, r1), "*");
    case _ =>
  }

  lemma {:induction false} LexChild(r: Reg<char>, child: Reg<char>)
    requires OverLettersAndDigits(child) && child < r
    ensures Lex(ReprChild(r, child)) == ChildTokens(r, child)
    decreases child, 1
  {
    hide Lex;
    LexSymbols();
    LexRepr(child);
    if NeedParens(r, child) {
      LexConcat("(", Repr(child));
      LexConcat("(" + Repr(child), ")");
    }
  }

  // ---------------------------------------------------------------------------------------------
  // The grammar without its conflicts: a star binds tightest, then juxtaposition, to the right, then an explicit
  // concatenation sign, to the left, then union, to the left
  // ---------------------------------------------------------------------------------------------

  ghost predicate IsFactor(ts: seq<Token>, r: Reg<char>)
    decreases |ts|, 0
  {
    || (|ts| == 1 && ts[0].CHAR? && r == Lit(ts[0].c))
    || (ts == [EPSILON] && r == Eps)
    || (ts == [EMPTY] && r == Empty)
    || (|ts| > 1 && ts[|ts| - 1] == STAR && r.Star? && IsFactor(ts[..|ts| - 1], r.r))
    || (|ts| > 2 && ts[0] == LPAR && ts[|ts| - 1] == RPAR && IsUnion(ts[1..|ts| - 1], r))
  }

  ghost predicate IsChain(ts: seq<Token>, r: Reg<char>)
    decreases |ts|, 1
  {
    IsFactor(ts, r) || (r.Concat? && exists i :: 0 < i < |ts| && IsFactor(ts[..i], r.r1) && IsChain(ts[i..], r.r2))
  }

  ghost predicate IsDotted(ts: seq<Token>, r: Reg<char>)
    decreases |ts|, 2
  {
    || IsChain(ts, r)
    || (r.Concat?
        && exists i :: 0 <= i < |ts| && IsDotted(ts[..i], r.r1) && ts[i] == CONCAT && IsChain(ts[i + 1..], r.r2))
  }

  /** The tokens are a way to write `r`. */
  ghost predicate IsUnion(ts: seq<Token>, r: Reg<char>)
    decreases |ts|, 3
  {
    || IsDotted(ts, r)
    || (r.Or?
        && exists i :: 0 <= i < |ts| && IsUnion(ts[..i], r.r1) && ts[i] == UNION && IsDotted(ts[i + 1..], r.r2))
  }

  lemma Starred(u: seq<Token>, r: Reg<char>)
    requires IsFactor(u, r)
    ensures IsFactor(u + [STAR], Star(r))
  {
    assert (u + [STAR])[..|u|] == u;
  }

  lemma Parenthesized(u: seq<Token>, r: Reg<char>)
    requires |u| > 0 && IsUnion(u, r)
    ensures IsFactor([LPAR] + u + [RPAR], r)
  {
    var ts := [LPAR] + u + [RPAR];
    assert ts[1..|ts| - 1] == u;
  }

  lemma Chained(u: seq<Token>, r1: Reg<char>, v: seq<Token>, r2: Reg<char>)
    requires |u| > 0 && |v| > 0 && IsFactor(u, r1) && IsChain(v, r2)
    ensures IsChain(u + v, Concat(r1, r2))
  {
    assert (u + v)[..|u|] == u && (u + v)[|u|..] == v;
  }

  lemma Dotted(u: seq<Token>, r1: Reg<char>, v: seq<Token>, r2: Reg<char>)
    requires IsDotted(u, r1) && IsChain(v, r2)
    ensures IsDotted(u + [CONCAT] + v, Concat(r1, r2))
  {
    var ts := u + [CONCAT] + v;
    assert ts[..|u|] == u && ts[|u|] == CONCAT && ts[|u| + 1..] == v;
  }

  lemma United(u: seq<Token>, r1: Reg<char>, v: seq<Token>, r2: Reg<char>)
    requires IsUnion(u, r1) && IsDotted(v, r2)
    ensures IsUnion(u + [UNION] + v, Or(r1, r2))
  {
    var ts := u + [UNION] + v;
    assert ts[..|u|] == u && ts[|u|] == UNION && ts[|u| + 1..] == v;
  }

  lemma NothingIsEmpty(ts: seq<Token>, r: Reg<char>)
    requires IsUnion(ts, r)
    ensures |ts| > 0
  {
    assert IsDotted([], r) ==> IsChain([], r);
    assert IsChain([], r) ==> IsFactor([], r);
  }

  // ---------------------------------------------------------------------------------------------
  // The parser accepts everything that the grammar can write
  // ---------------------------------------------------------------------------------------------

  /** A stack on which the first token of an expression is shifted. */
  predicate Ready(st: Stack) {
    st.Bottom? || st.top.Re? || st.top == T(LPAR) || st.top == T(UNION) || st.top == T(CONCAT)
  }

  /** A stack on which an expression starts. */
  predicate Opens(st: Stack) { st.Bottom? || st.top == T(LPAR) }

  predicate Ends(tokens: seq<Token>) { |tokens| == 0 || !(StartsRe(tokens[0]) || tokens[0] == STAR) }

  lemma Shifts(st: Stack, t: Token, rest: seq<Token>)
    requires Ready(st) && StartsRe(t)
    ensures Parse(st, [t] + rest) == Parse(Push(T(t), st), rest)
  {
    assert ([t] + rest)[1..] == rest;
  }

  lemma ShiftsAfter(r: Reg<char>, st: Stack, t: Token, rest: seq<Token>)
    requires Ready(st)
    requires t == STAR || (t == RPAR && st.Push? && st.top == T(LPAR)) || (t == UNION && Opens(st))
             || (t == CONCAT && (Opens(st) || st.top == T(UNION)))
    ensures Parse(Push(Re(r), st), [t] + rest) == Parse(Push(T(t), Push(Re(r), st)), rest)
  {
    assert ([t] + rest)[1..] == rest;
  }

  lemma {:induction false} ParsesFactor(u: seq<Token>, r: Reg<char>, st: Stack, rest: seq<Token>)
    requires Ready(st) && IsFactor(u, r)
    ensures Parse(st, u + rest) == Parse(Push(Re(r), st), rest)
    decreases |u|, 0
  {
    if |u| == 1 {
      assert u == [u[0]];
      Shifts(st, u[0], rest);
    } else if u[|u| - 1] == STAR && r.Star? && IsFactor(u[..|u| - 1], r.r) {
      assert u + rest == u[..|u| - 1] + ([STAR] + rest);
      ParsesFactor(u[..|u| - 1], r.r, st, [STAR] + rest);
      ShiftsAfter(r.r, st, STAR, rest);
    } else {
      var v, inner := u[1..|u| - 1], Push(T(LPAR), st);
      assert u + rest == [LPAR] + (v + ([RPAR] + rest));
      Shifts(st, LPAR, v + ([RPAR] + rest));
      ParsesUnion(v, r, inner, [RPAR] + rest);
      ShiftsAfter(r, inner, RPAR, rest);
    }
  }

  lemma {:induction false} ParsesChain(u: seq<Token>, r: Reg<char>, st: Stack, rest: seq<Token>)
    requires Ready(st) && IsChain(u, r) && Ends(rest)
    ensures Parse(st, u + rest) == Parse(Push(Re(r), st), rest)
    decreases |u|, 1
  {
    if IsFactor(u, r) {
      ParsesFactor(u, r, st, rest);
    } else {
      var i :| 0 < i < |u| && IsFactor(u[..i], r.r1) && IsChain(u[i..], r.r2);
      assert u + rest == u[..i] + (u[i..] + rest);
      ParsesFactor(u[..i], r.r1, st, u[i..] + rest);
      ParsesChain(u[i..], r.r2, Push(Re(r.r1), st), rest);
    }
  }

  lemma {:induction false} ParsesDotted(u: seq<Token>, r: Reg<char>, st: Stack, rest: seq<Token>)
    requires (Opens(st) || st.top == T(UNION)) && IsDotted(u, r) && Ends(rest)
    ensures Parse(st, u + rest) == Parse(Push(Re(r), st), rest)
    decreases |u|, 2
  {
    hide IsChain;
    if IsChain(u, r) {
      ParsesChain(u, r, st, rest);
    } else {
      var i :| 0 <= i < |u| && IsDotted(u[..i], r.r1) && u[i] == CONCAT && IsChain(u[i + 1..], r.r2);
      assert u + rest == u[..i] + ([CONCAT] + (u[i + 1..] + rest));
      ParsesDotted(u[..i], r.r1, st, [CONCAT] + (u[i + 1..] + rest));
      ShiftsAfter(r.r1, st, CONCAT, u[i + 1..] + rest);
      ParsesChain(u[i + 1..], r.r2, Push(T(CONCAT), Push(Re(r.r1), st)), rest);
    }
  }

  lemma {:induction false} ParsesUnion(u: seq<Token>, r: Reg<char>, st: Stack, rest: seq<Token>)
    requires Opens(st) && IsUnion(u, r) && Ends(rest) && (|rest| == 0 || rest[0] != CONCAT)
    ensures Parse(st, u + rest) == Parse(Push(Re(r), st), rest)
    decreases |u|, 3
  {
    if IsDotted(u, r) {
      ParsesDotted(u, r, st, rest);
    } else {
      var i :| 0 <= i < |u| && IsUnion(u[..i], r.r1) && u[i] == UNION && IsDotted(u[i + 1..], r.r2);
      assert u + rest == u[..i] + ([UNION] + (u[i + 1..] + rest));
      ParsesUnion(u[..i], r.r1, st, [UNION] + (u[i + 1..] + rest));
      ShiftsAfter(r.r1, st, UNION, u[i + 1..] + rest);
      ParsesDotted(u[i + 1..], r.r2, Push(T(UNION), Push(Re(r.r1), st)), rest);
    }
  }

  // ---------------------------------------------------------------------------------------------
  // The parser returns nothing that the grammar cannot write
  // ---------------------------------------------------------------------------------------------

  ghost predicate IsAt(level: nat, ts: seq<Token>, r: Reg<char>) {
    match level
    case 0 => IsFactor(ts, r)
    case 1 => IsChain(ts, r)
    case 2 => IsDotted(ts, r)
    case _ => IsUnion(ts, r)
  }

  /** How loosely an expression that is complete on top of the stack may bind. */
  function MaxLevel(st: Stack): nat { if Opens(st) then 3 else if st.top == T(UNION) then 2 else 1 }

  /** The stack, ready for another expression, stands for the tokens read so far. */
  ghost predicate Holds(st: Stack, read: seq<Token>) {
    match st
    case Bottom => read == []
    case Push(T(LPAR), s) => |read| > 0 && read[|read| - 1] == LPAR && Holds(s, read[..|read| - 1])
    case Push(T(UNION), Push(Re(r), s)) => Opens(s) && HoldsOperand(s, read, UNION, r, 3)
    case Push(T(CONCAT), Push(Re(r), s)) => MaxLevel(s) >= 2 && HoldsOperand(s, read, CONCAT, r, 2)
    case Push(Re(r), s) => exists i :: 0 <= i <= |read| && Holds(s, read[..i]) && IsFactor(read[i..], r)
    case _ => false
  }

  ghost predicate HoldsOperand(s: Stack, read: seq<Token>, sign: Token, r: Reg<char>, level: nat) {
    exists i :: 0 <= i < |read| && Holds(s, read[..i]) && IsAt(level, read[i..|read| - 1], r)
      && read[|read| - 1] == sign
  }

  /** A loosely binding expression is complete only before a token that does not bind more tightly. */
  predicate Complete(level: nat, tokens: seq<Token>) {
    |tokens| > 0 ==> (level > 0 ==> Ends(tokens)) && (level > 2 ==> tokens[0] != CONCAT)
  }

  lemma AtMost(level: nat, most: nat, ts: seq<Token>, r: Reg<char>)
    requires IsAt(level, ts, r) && level <= most
    ensures IsAt(most, ts, r)
  {
  }

  function Atom(t: Token): Reg<char> {
    match t
    case CHAR(c) => Lit(c)
    case EPSILON => Eps
    case _ => Empty
  }

  lemma AtomRead(st: Stack, t: Token, rest: seq<Token>)
    requires StartsRe(t) && t != LPAR
    ensures Parse(Push(T(t), st), rest) == Parse(Push(Re(Atom(t)), st), rest) && IsAt(0, [t], Atom(t))
  {
  }

  lemma StarRead(st: Stack, level: nat, u: seq<Token>, r: Reg<char>, rest: seq<Token>)
    requires IsAt(level, u, r) && level == 0
    ensures Parse(Push(T(STAR), Push(Re(r), st)), rest) == Parse(Push(Re(Star(r)), st), rest)
    ensures IsAt(0, u + [STAR], Star(r))
  {
    Starred(u, r);
  }

  lemma ParensRead(st: Stack, level: nat, u: seq<Token>, r: Reg<char>, rest: seq<Token>)
    requires IsAt(level, u, r) && level <= 3
    ensures Parse(Push(T(RPAR), Push(Re(r), Push(T(LPAR), st))), rest) == Parse(Push(Re(r), st), rest)
    ensures IsAt(0, [LPAR] + u + [RPAR], r)
  {
    AtMost(level, 3, u, r);
    NothingIsEmpty(u, r);
    Parenthesized(u, r);
  }

  lemma SoundTop(st: Stack, read: seq<Token>, tokens: seq<Token>, x: Reg<char>)
    requires Holds(st, read) && (st.Bottom? || st.top.T?) && Parse(st, tokens) == Ok(x)
    ensures IsUnion(read + tokens, x)
    decreases 3 * |tokens| + Weight(st), 0
  {
    hide IsUnion, IsAt;
    var t, rest := tokens[0], tokens[1..];
    assert Parse(Push(T(t), st), rest) == Ok(x);
    assert read + tokens == read + [t] + rest;
    if t == LPAR {
      assert (read + [LPAR])[..|read|] == read;
      SoundTop(Push(T(LPAR), st), read + [LPAR], rest, x);
    } else {
      AtomRead(st, t, rest);
      SoundRe(st, read, Atom(t), [t], 0, rest, x);
    }
  }

  lemma SoundShift(st: Stack, read: seq<Token>, r: Reg<char>, u: seq<Token>, level: nat,
                   tokens: seq<Token>, x: Reg<char>)
    requires Holds(st, read) && IsAt(level, u, r) && level <= MaxLevel(st) && Complete(level, tokens)
    requires |tokens| > 0 && CanShift(st, tokens[0])
    requires (tokens[0] == UNION ==> Opens(st)) && (tokens[0] == CONCAT ==> MaxLevel(st) >= 2)
    requires Parse(Push(T(tokens[0]), Push(Re(r), st)), tokens[1..]) == Ok(x)
    ensures IsUnion(read + u + tokens, x)
    decreases 3 * |tokens| + Weight(st) + 1, 1
  {
    hide Parse, IsUnion, IsAt, Holds;
    var t, rest := tokens[0], tokens[1..];
    if StartsRe(t) {
      SoundNext(st, read, r, u, tokens, x);
    } else if t == STAR {
      StarRead(st, level, u, r, rest);
      assert read + u + tokens == read + (u + [STAR]) + rest;
      SoundRe(st, read, Star(r), u + [STAR], 0, rest, x);
    } else if t == RPAR {
      SoundClosing(st, read, r, u, level, tokens, x);
    } else {
      SoundOperator(st, read, r, u, level, tokens, x);
    }
  }

  lemma SoundNext(st: Stack, read: seq<Token>, r: Reg<char>, u: seq<Token>, tokens: seq<Token>, x: Reg<char>)
    requires Holds(st, read) && IsAt(0, u, r) && |tokens| > 0 && StartsRe(tokens[0])
    requires Parse(Push(T(tokens[0]), Push(Re(r), st)), tokens[1..]) == Ok(x)
    ensures IsUnion(read + u + tokens, x)
    decreases 3 * |tokens| + Weight(st) + 1, 0
  {
    hide Parse, IsUnion, IsFactor, IsChain, IsDotted;
    var t, rest, stack := tokens[0], tokens[1..], Push(Re(r), st);
    assert Weight(stack) == 1 + Weight(st);
    FactorHeld(st, read, u, r);
    assert read + u + tokens == read + u + [t] + rest;
    if t == LPAR {
      assert (read + u + [LPAR])[..|read + u|] == read + u;
      SoundTop(Push(T(LPAR), stack), read + u + [LPAR], rest, x);
    } else {
      AtomRead(stack, t, rest);
      SoundRe(stack, read + u, Atom(t), [t], 0, rest, x);
    }
  }

  lemma FactorHeld(st: Stack, read: seq<Token>, u: seq<Token>, r: Reg<char>)
    requires Holds(st, read) && IsFactor(u, r)
    ensures Holds(Push(Re(r), st), read + u)
  {
    hide IsFactor;
    assert (read + u)[..|read|] == read && (read + u)[|read|..] == u;
  }

  lemma SoundClosing(st: Stack, read: seq<Token>, r: Reg<char>, u: seq<Token>, level: nat,
                     tokens: seq<Token>, x: Reg<char>)
    requires Holds(st, read) && IsAt(level, u, r) && level <= MaxLevel(st)
    requires |tokens| > 0 && tokens[0] == RPAR && st.Push? && st.top == T(LPAR)
    requires Parse(Push(T(RPAR), Push(Re(r), st)), tokens[1..]) == Ok(x)
    ensures IsUnion(read + u + tokens, x)
    decreases 3 * |tokens| + Weight(st) + 1, 0
  {
    hide Parse, IsUnion, IsAt;
    var rest, before := tokens[1..], read[..|read| - 1];
    ParensRead(st.below, level, u, r, rest);
    assert read == before + [LPAR] && tokens == [RPAR] + rest;
    assert read + u + tokens == before + ([LPAR] + u + [RPAR]) + rest;
    SoundRe(st.below, before, r, [LPAR] + u + [RPAR], 0, rest, x);
  }

  lemma OperandHeld(st: Stack, read: seq<Token>, sign: Token, r: Reg<char>, u: seq<Token>, level: nat)
    requires Holds(st, read) && IsAt(level, u, r) && level <= MaxLevel(st)
    requires (sign == UNION && Opens(st)) || (sign == CONCAT && MaxLevel(st) >= 2 && level < 3)
    ensures Holds(Push(T(sign), Push(Re(r), st)), read + u + [sign])
  {
    hide IsFactor, IsChain, IsDotted, IsUnion;
    AtMost(level, if sign == UNION then 3 else 2, u, r);
    OperandWitness(st, read, sign, r, u, if sign == UNION then 3 else 2);
  }

  lemma OperandWitness(st: Stack, read: seq<Token>, sign: Token, r: Reg<char>, u: seq<Token>, level: nat)
    requires Holds(st, read) && IsAt(level, u, r)
    ensures HoldsOperand(st, read + u + [sign], sign, r, level)
  {
    hide Holds, IsAt;
    var more := read + u + [sign];
    assert more[..|read|] == read && more[|read|..|more| - 1] == u && more[|more| - 1] == sign;
  }

  lemma Operand(s: Stack, read: seq<Token>, sign: Token, r: Reg<char>, level: nat) returns (i: nat)
    requires HoldsOperand(s, read, sign, r, level)
    ensures i < |read| && Holds(s, read[..i]) && IsAt(level, read[i..|read| - 1], r) && read[|read| - 1] == sign
  {
    hide Holds, IsAt;
    i :| i < |read| && Holds(s, read[..i]) && IsAt(level, read[i..|read| - 1], r) && read[|read| - 1] == sign;
  }

  lemma SoundOperator(st: Stack, read: seq<Token>, r: Reg<char>, u: seq<Token>, level: nat,
                      tokens: seq<Token>, x: Reg<char>)
    requires Holds(st, read) && IsAt(level, u, r) && level <= MaxLevel(st) && Complete(level, tokens)
    requires |tokens| > 0 && ((tokens[0] == UNION && Opens(st)) || (tokens[0] == CONCAT && MaxLevel(st) >= 2))
    requires Parse(Push(T(tokens[0]), Push(Re(r), st)), tokens[1..]) == Ok(x)
    ensures IsUnion(read + u + tokens, x)
    decreases 3 * |tokens| + Weight(st) + 1, 0
  {
    hide Parse, IsUnion, IsAt, Holds;
    var t, rest := tokens[0], tokens[1..];
    OperandHeld(st, read, t, r, u, level);
    assert Weight(Push(Re(r), st)) == 1 + Weight(st);
    assert read + u + tokens == read + u + [t] + rest;
    SoundTop(Push(T(t), Push(Re(r), st)), read + u + [t], rest, x);
  }

  lemma SoundRe(st: Stack, read: seq<Token>, r: Reg<char>, u: seq<Token>, level: nat, tokens: seq<Token>, x: Reg<char>)
    requires Holds(st, read) && IsAt(level, u, r) && level <= MaxLevel(st) && Complete(level, tokens)
    requires Parse(Push(Re(r), st), tokens) == Ok(x)
    ensures IsUnion(read + u + tokens, x)
    decreases 3 * |tokens| + Weight(st) + 1, 2
  {
    hide IsUnion, IsAt, IsFactor;
    if st.Push? && st.top == T(UNION) && ReducesFirst(1, st, tokens) {
      SoundUnion(st, read, r, u, level, tokens, x);
    } else if st.Push? && st.top == T(CONCAT) && ReducesFirst(2, st, tokens) {
      SoundConcat(st, read, r, u, level, tokens, x);
    } else if st.Push? && st.top.Re? && ReducesFirst(2, st, tokens) {
      SoundPair(st, read, r, u, level, tokens, x);
    } else if |tokens| == 0 {
      AtMost(level, 3, u, r);
      assert read + u + tokens == u;
      WholeIsUnion(u, r);
    } else {
      SoundShift(st, read, r, u, level, tokens, x);
    }
  }

  lemma WholeIsUnion(u: seq<Token>, r: Reg<char>)
    ensures IsAt(3, u, r) <==> IsUnion(u, r)
  {
  }

  lemma Regroup(read: seq<Token>, i: nat, u: seq<Token>, tokens: seq<Token>)
    requires i < |read|
    ensures read + u + tokens == read[..i] + (read[i..|read| - 1] + [read[|read| - 1]] + u) + tokens
  {
  }

  lemma UnitedAt(u1: seq<Token>, r1: Reg<char>, level: nat, u: seq<Token>, r: Reg<char>)
    requires IsAt(3, u1, r1) && IsAt(level, u, r) && level <= 2
    ensures IsAt(3, u1 + [UNION] + u, Or(r1, r))
  {
    AtMost(level, 2, u, r);
    United(u1, r1, u, r);
  }

  lemma DottedAt(u1: seq<Token>, r1: Reg<char>, level: nat, u: seq<Token>, r: Reg<char>)
    requires IsAt(2, u1, r1) && IsAt(level, u, r) && level <= 1
    ensures IsAt(2, u1 + [CONCAT] + u, Concat(r1, r))
  {
    AtMost(level, 1, u, r);
    Dotted(u1, r1, u, r);
  }

  lemma SoundUnion(st: Stack, read: seq<Token>, r: Reg<char>, u: seq<Token>, level: nat,
                   tokens: seq<Token>, x: Reg<char>)
    requires Holds(st, read) && IsAt(level, u, r) && level <= MaxLevel(st)
    requires st.Push? && st.top == T(UNION) && ReducesFirst(1, st, tokens)
    requires Parse(Push(Re(Or(st.below.top.r, r)), st.below.below), tokens) == Ok(x)
    ensures IsUnion(read + u + tokens, x)
    decreases 3 * |tokens| + Weight(st) + 1, 0
  {
    hide Parse, IsUnion, IsDotted, IsChain, IsFactor;
    var r1, s := st.below.top.r, st.below.below;
    assert HoldsOperand(s, read, UNION, r1, 3) && Opens(s);
    assert Weight(st) == 3 + Weight(s) by { assert Weight(st.below) == 1 + Weight(s); }
    hide Holds, HoldsOperand, IsAt, Weight;
    var i := Operand(s, read, UNION, r1, 3);
    var u1 := read[i..|read| - 1];
    UnitedAt(u1, r1, level, u, r);
    Regroup(read, i, u, tokens);
    SoundRe(s, read[..i], Or(r1, r), u1 + [UNION] + u, 3, tokens, x);
  }

  lemma SoundConcat(st: Stack, read: seq<Token>, r: Reg<char>, u: seq<Token>, level: nat,
                    tokens: seq<Token>, x: Reg<char>)
    requires Holds(st, read) && IsAt(level, u, r) && level <= MaxLevel(st)
    requires st.Push? && st.top == T(CONCAT) && ReducesFirst(2, st, tokens)
    requires Parse(Push(Re(Concat(st.below.top.r, r)), st.below.below), tokens) == Ok(x)
    ensures IsUnion(read + u + tokens, x)
    decreases 3 * |tokens| + Weight(st) + 1, 0
  {
    hide Parse, IsUnion, IsDotted, IsChain, IsFactor;
    var r1, s := st.below.top.r, st.below.below;
    assert HoldsOperand(s, read, CONCAT, r1, 2) && MaxLevel(s) >= 2;
    assert Weight(st) == 3 + Weight(s) by { assert Weight(st.below) == 1 + Weight(s); }
    hide Holds, HoldsOperand, IsAt, Weight;
    var i := Operand(s, read, CONCAT, r1, 2);
    var u1 := read[i..|read| - 1];
    DottedAt(u1, r1, level, u, r);
    Regroup(read, i, u, tokens);
    SoundRe(s, read[..i], Concat(r1, r), u1 + [CONCAT] + u, 2, tokens, x);
  }

  lemma SoundPair(st: Stack, read: seq<Token>, r: Reg<char>, u: seq<Token>, level: nat,
                  tokens: seq<Token>, x: Reg<char>)
    requires Holds(st, read) && IsAt(level, u, r) && level <= MaxLevel(st)
    requires st.Push? && st.top.Re? && ReducesFirst(2, st, tokens)
    requires Parse(Push(Re(Concat(st.top.r, r)), st.below), tokens) == Ok(x)
    ensures IsUnion(read + u + tokens, x)
    decreases 3 * |tokens| + Weight(st) + 1, 0
  {
    hide Parse, IsUnion, IsDotted, IsChain, IsFactor;
    var r1, s := st.top.r, st.below;
    var i :| 0 <= i <= |read| && Holds(s, read[..i]) && IsFactor(read[i..], r1);
    var u1 := read[i..];
    assert IsAt(0, u1, r1);
    AtMost(0, 3, u1, r1);
    AtMost(level, 1, u, r);
    AtMost(level, 3, u, r);
    NothingIsEmpty(u1, r1);
    NothingIsEmpty(u, r);
    Chained(u1, r1, u, r);
    assert read + u + tokens == read[..i] + (u1 + u) + tokens;
    SoundRe(s, read[..i], Concat(r1, r), u1 + u, 1, tokens, x);
  }

  /** The parser returns `r` exactly if the conflict-free grammar reads the tokens as `r`. */
  lemma ParsesExactly(ts: seq<Token>, r: Reg<char>)
    ensures Parse(Bottom, ts) == Ok(r) <==> IsUnion(ts, r)
  {
    assert ts + [] == ts && [] + ts == ts;
    if IsUnion(ts, r) { ParsesUnion(ts, r, Bottom, []); }
    if Parse(Bottom, ts) == Ok(r) { SoundTop(Bottom, [], ts, r); }
  }

  lemma {:induction false} NoBadToken(ts: seq<Token>, r: Reg<char>)
    requires IsUnion(ts, r)
    ensures BADTOK !in ts
    decreases |ts|, 3
  {
    if !IsDotted(ts, r) {
      var i :| 0 <= i < |ts| && IsUnion(ts[..i], r.r1) && ts[i] == UNION && IsDotted(ts[i + 1..], r.r2);
      NoBadToken(ts[..i], r.r1);
      NoBadToken(ts[i + 1..], r.r2);
      assert ts == ts[..i] + [UNION] + ts[i + 1..];
    } else if !IsChain(ts, r) {
      var i :| 0 <= i < |ts| && IsDotted(ts[..i], r.r1) && ts[i] == CONCAT && IsChain(ts[i + 1..], r.r2);
      NoBadToken(ts[..i], r.r1);
      NoBadToken(ts[i + 1..], r.r2);
      assert ts == ts[..i] + [CONCAT] + ts[i + 1..];
    } else if !IsFactor(ts, r) {
      var i :| 0 < i < |ts| && IsFactor(ts[..i], r.r1) && IsChain(ts[i..], r.r2);
      NoBadToken(ts[..i], r.r1);
      NoBadToken(ts[i..], r.r2);
      assert ts == ts[..i] + ts[i..];
    } else if |ts| > 1 && ts[|ts| - 1] == STAR && r.Star? && IsFactor(ts[..|ts| - 1], r.r) {
      NoBadToken(ts[..|ts| - 1], r.r);
      assert ts == ts[..|ts| - 1] + [STAR];
    } else if |ts| > 1 {
      NoBadToken(ts[1..|ts| - 1], r);
      assert ts == [LPAR] + ts[1..|ts| - 1] + [RPAR];
    }
  }

  lemma {:induction false} WhiteSpaceHasNoTokens(w: string)
    requires forall c :: c in w ==> c in " \t\n"
    ensures Lex(w) == []
  {
    if |w| > 0 {
      WhiteSpaceHasNoTokens(w[1..]);
      assert w[0] in w;
    }
  }

  /** White space between the tokens makes no difference. */
  lemma WhiteSpaceIsIgnored(a: string, w: string, b: string)
    requires forall c :: c in w ==> c in " \t\n"
    ensures ParseString(a + w + b) == ParseString(a + b)
  {
    hide Lex, Parse;
    WhiteSpaceHasNoTokens(w);
    LexConcat(a, w);
    LexConcat(a + w, b);
    LexConcat(a, b);
    assert Lex(a) + [] == Lex(a);
  }

  /** A string with any other character is refused. */
  lemma OtherCharactersAreRefused(s: string, c: char)
    requires c in s && c !in " \t\n|*()\U{2205}\U{03B5}" && !IsLetterOrDigit(c)
    ensures ParseString(s) == SyntaxError
  {
    hide Lex, Parse;
    var i :| 0 <= i < |s| && s[i] == c;
    assert s == s[..i] + [c] + s[i + 1..];
    LexSymbols();
    LexConcat(s[..i], [c]);
    LexConcat(s[..i] + [c], s[i + 1..]);
    assert BADTOK in Lex(s);
    if r :| ParseString(s) == Ok(r) {
      ParsesExactly(Lex(s), r);
      NoBadToken(Lex(s), r);
    }
  }

  // ---------------------------------------------------------------------------------------------
  // What the printed form is a way to write
  // ---------------------------------------------------------------------------------------------

  /** The tokens write the factors one after the other. */
  ghost predicate Write(ts: seq<Token>, fs: seq<Reg<char>>) {
    if |fs| == 0 then ts == []
    else exists i :: 0 < i <= |ts| && IsFactor(ts[..i], fs[0]) && Write(ts[i..], fs[1..])
  }

  lemma WriteOne(ts: seq<Token>, r: Reg<char>)
    requires IsFactor(ts, r)
    ensures Write(ts, [r])
  {
    assert ts[..|ts|] == ts && Write(ts[|ts|..], [r][1..]);
  }

  lemma {:induction false} WriteConcat(u: seq<Token>, fs: seq<Reg<char>>, v: seq<Token>, gs: seq<Reg<char>>)
    requires Write(u, fs) && Write(v, gs)
    ensures Write(u + v, fs + gs)
  {
    hide IsFactor;
    if |fs| == 0 {
      assert u + v == v && fs + gs == gs;
    } else {
      var i :| 0 < i <= |u| && IsFactor(u[..i], fs[0]) && Write(u[i..], fs[1..]);
      WriteConcat(u[i..], fs[1..], v, gs);
      assert (u + v)[..i] == u[..i] && (u + v)[i..] == u[i..] + v && (fs + gs)[1..] == fs[1..] + gs;
    }
  }

  lemma {:induction false} WriteChain(ts: seq<Token>, fs: seq<Reg<char>>)
    requires |fs| > 0 && Write(ts, fs)
    ensures |ts| > 0 && IsChain(ts, JoinRight(fs))
  {
    hide IsFactor;
    var i :| 0 < i <= |ts| && IsFactor(ts[..i], fs[0]) && Write(ts[i..], fs[1..]);
    if |fs| == 1 {
      assert ts[..i] == ts;
    } else {
      WriteChain(ts[i..], fs[1..]);
      Chained(ts[..i], fs[0], ts[i..], JoinRight(fs[1..]));
      assert ts[..i] + ts[i..] == ts;
    }
  }

  lemma {:induction false} TokensWrite(r: Reg<char>)
    requires !r.Or?
    ensures Write(Tokens(r), Factors(r))
    decreases r, 0
  {
    match r
    case Star(r1) =>
      var body := ChildTokens(r, r1);
      TokensAreUnion(r1);
      NothingIsEmpty(Tokens(r1), Reassociate(r1));
      if NeedParens(r, r1) {
        Parenthesized(Tokens(r1), Reassociate(r1));
      } else {
        assert Reassociate(r1) == r1;
      }
      Starred(body, Reassociate(r1));
      WriteOne(Tokens(r), Star(Reassociate(r1)));
    case Concat(r1, r2) =>
      ChildTokensWrite(r, r1);
      ChildTokensWrite(r, r2);
      WriteConcat(ChildTokens(r, r1), FactorsOf(r1), ChildTokens(r, r2), FactorsOf(r2));
    case _ => WriteOne(Tokens(r), r);
  }

  lemma {:induction false} ChildTokensWrite(r: Reg<char>, child: Reg<char>)
    requires r.Concat? && child < r
    ensures Write(ChildTokens(r, child), FactorsOf(child))
    decreases child, 3
  {
    if child.Or? {
      TokensAreUnion(child);
      NothingIsEmpty(Tokens(child), Reassociate(child));
      Parenthesized(Tokens(child), Reassociate(child));
      WriteOne(ChildTokens(r, child), Reassociate(child));
    } else {
      TokensWrite(child);
    }
  }

  lemma {:induction false} TokensAreUnion(r: Reg<char>)
    ensures IsUnion(Tokens(r), Reassociate(r))
    decreases r, 2
  {
    match r
    case Or(r1, r2) =>
      TokensAreUnion(r1);
      TokensJoinLeft(Tokens(r1), Reassociate(r1), r2);
    case _ =>
      TokensWrite(r);
      WriteChain(Tokens(r), Factors(r));
  }

  lemma {:induction false} TokensJoinLeft(u: seq<Token>, a: Reg<char>, r: Reg<char>)
    requires IsUnion(u, a)
    ensures IsUnion(u + [UNION] + Tokens(r), JoinLeft(a, r))
    decreases r, 1
  {
    match r
    case Or(r1, r2) =>
      TokensJoinLeft(u, a, r1);
      TokensJoinLeft(u + [UNION] + Tokens(r1), JoinLeft(a, r1), r2);
      assert u + [UNION] + Tokens(r) == u + [UNION] + Tokens(r1) + [UNION] + Tokens(r2);
    case _ =>
      TokensWrite(r);
      WriteChain(Tokens(r), Factors(r));
      United(u, a, Tokens(r), JoinRight(Factors(r)));
  }

  /** Parsing the printed form succeeds, and returns the expression with unions associated to the left and
      concatenations to the right. */
  lemma ParseOfRepr(r: Reg<char>)
    requires OverLettersAndDigits(r)
    ensures ParseString(Repr(r)) == Ok(Reassociate(r))
  {
    LexRepr(r);
    TokensAreUnion(r);
    ParsesExactly(Tokens(r), Reassociate(r));
  }

  // ---------------------------------------------------------------------------------------------
  // The parsed expression has the same language, and is printed in the same way
  // ---------------------------------------------------------------------------------------------

  lemma AppendAssociates(x: string, y: string, z: string)
    ensures (x + y) + z == x + (y + z)
  {
  }

  lemma ConcatToTheRight(r1: Reg<char>, r2: Reg<char>, r3: Reg<char>, w: string)
    requires InLanguage(Concat(Concat(r1, r2), r3), w)
    ensures InLanguage(Concat(r1, Concat(r2, r3)), w)
  {
    var xy, z := SplitConcat(Concat(r1, r2), r3, w);
    var x, y := SplitConcat(r1, r2, xy);
    AppendAssociates(x, y, z);
    InConcat(r2, r3, y, z);
    InConcat(r1, Concat(r2, r3), x, y + z);
  }

  lemma ConcatToTheLeft(r1: Reg<char>, r2: Reg<char>, r3: Reg<char>, w: string)
    requires InLanguage(Concat(r1, Concat(r2, r3)), w)
    ensures InLanguage(Concat(Concat(r1, r2), r3), w)
  {
    var x, yz := SplitConcat(r1, Concat(r2, r3), w);
    var y, z := SplitConcat(r2, r3, yz);
    AppendAssociates(x, y, z);
    InConcat(r1, r2, x, y);
    InConcat(Concat(r1, r2), r3, x + y, z);
  }

  lemma SameConcat(r1: Reg<char>, s1: Reg<char>, r2: Reg<char>, s2: Reg<char>)
    requires SameLanguage(r1, s1) && SameLanguage(r2, s2)
    ensures SameLanguage(Concat(r1, r2), Concat(s1, s2))
  {
    forall w ensures InLanguage(Concat(r1, r2), w) <==> InLanguage(Concat(s1, s2), w) {
      if InLanguage(Concat(r1, r2), w) { ConcatLanguages(r1, s1, r2, s2, w); }
      if InLanguage(Concat(s1, s2), w) { ConcatLanguages(s1, r1, s2, r2, w); }
    }
  }

  lemma {:induction false} JoinConcat(a: seq<Reg<char>>, b: seq<Reg<char>>)
    requires |a| > 0 && |b| > 0
    ensures SameLanguage(Concat(JoinRight(a), JoinRight(b)), JoinRight(a + b))
  {
    if |a| == 1 {
      assert (a + b)[1..] == b;
    } else {
      assert (a + b)[1..] == a[1..] + b;
      JoinConcat(a[1..], b);
      var first, more, rest := a[0], JoinRight(a[1..]), JoinRight(b);
      SameConcat(first, first, Concat(more, rest), JoinRight(a[1..] + b));
      forall w ensures InLanguage(Concat(JoinRight(a), rest), w) <==> InLanguage(Concat(first, Concat(more, rest)), w) {
        if InLanguage(Concat(JoinRight(a), rest), w) { ConcatToTheRight(first, more, rest, w); }
        if InLanguage(Concat(first, Concat(more, rest)), w) { ConcatToTheLeft(first, more, rest, w); }
      }
    }
  }

  lemma {:induction false} FactorsSound(r: Reg<char>)
    requires !r.Or?
    ensures SameLanguage(r, JoinRight(Factors(r)))
    decreases r, 0
  {
    match r
    case Star(r1) => ReassociateSound(r1);
    case Concat(r1, r2) =>
      FactorsOfSound(r1);
      FactorsOfSound(r2);
      SameConcat(r1, JoinRight(FactorsOf(r1)), r2, JoinRight(FactorsOf(r2)));
      JoinConcat(FactorsOf(r1), FactorsOf(r2));
    case _ =>
  }

  lemma {:induction false} FactorsOfSound(r: Reg<char>)
    ensures SameLanguage(r, JoinRight(FactorsOf(r)))
    decreases r, 2
  {
    if r.Or? { ReassociateSound(r); } else { FactorsSound(r); }
  }

  lemma {:induction false} JoinLeftSound(a: Reg<char>, r: Reg<char>)
    ensures SameLanguage(Or(a, r), JoinLeft(a, r))
    decreases r, 1
  {
    match r
    case Or(r1, r2) =>
      var joined := JoinLeft(a, r1);
      JoinLeftSound(a, r1);
      JoinLeftSound(joined, r2);
      forall w ensures InLanguage(Or(a, r), w) <==> InLanguage(Or(joined, r2), w) {
        assert InLanguage(Or(a, r1), w) <==> InLanguage(joined, w);
      }
    case _ => FactorsSound(r);
  }

  lemma {:induction false} ReassociateSound(r: Reg<char>)
    ensures SameLanguage(r, Reassociate(r))
    decreases r, 1
  {
    match r
    case Or(r1, r2) =>
      ReassociateSound(r1);
      JoinLeftSound(Reassociate(r1), r2);
    case _ => FactorsSound(r);
  }

  /** Parsing what `repr` prints succeeds and gives an expression with the same language. */
  lemma RoundTrip(r: Reg<char>)
    requires OverLettersAndDigits(r)
    ensures ParseString(Repr(r)).Ok? && SameLanguage(r, ParseString(Repr(r)).r)
  {
    ParseOfRepr(r);
    ReassociateSound(r);
  }

  function FactorText(f: Reg<char>): string { if f.Or? then "(" + Repr(f) + ")" else Repr(f) }

  function Texts(fs: seq<Reg<char>>): string {
    if |fs| == 0 then "" else FactorText(fs[0]) + Texts(fs[1..])
  }

  lemma {:induction false} TextsConcat(a: seq<Reg<char>>, b: seq<Reg<char>>)
    ensures Texts(a + b) == Texts(a) + Texts(b)
  {
    if |a| == 0 {
      assert a + b == b;
    } else {
      assert (a + b)[1..] == a[1..] + b;
      TextsConcat(a[1..], b);
    }
  }

  lemma {:induction false} PrintJoinRight(fs: seq<Reg<char>>)
    requires |fs| > 1
    ensures Repr(JoinRight(fs)) == Texts(fs) && JoinRight(fs).Concat?
  {
    if |fs| == 2 {
      assert fs[1..] == [fs[1]];
      assert Texts(fs[1..]) == FactorText(fs[1]) + Texts([]);
    } else {
      PrintJoinRight(fs[1..]);
    }
  }

  lemma {:induction false} PrintFactors(r: Reg<char>)
    requires !r.Or?
    ensures Texts(Factors(r)) == Repr(r)
    ensures r.Concat? <==> |Factors(r)| > 1
    ensures !r.Concat? ==> !Factors(r)[0].Or? && (Factors(r)[0].Star? <==> r.Star?)
    decreases r, 0
  {
    match r
    case Star(r1) =>
      PrintsTheSame(r1);
      var body := Reassociate(r1);
      assert ReprChild(Star(body), body) == ReprChild(r, r1);
      SingleText(Star(body));
    case Concat(r1, r2) =>
      PrintFactorsOf(r1);
      PrintFactorsOf(r2);
      TextsConcat(FactorsOf(r1), FactorsOf(r2));
    case Or(_, _) =>
    case _ => SingleText(r);
  }

  lemma SingleText(f: Reg<char>)
    ensures Texts([f]) == FactorText(f)
  {
    assert Texts([f][1..]) == "";
  }

  lemma {:induction false} PrintFactorsOf(r: Reg<char>)
    ensures Texts(FactorsOf(r)) == FactorText(r)
    decreases r, 3
  {
    if r.Or? {
      PrintsTheSame(r);
      SingleText(Reassociate(r));
    } else {
      PrintFactors(r);
    }
  }

  lemma {:induction false} PrintTerm(r: Reg<char>)
    requires !r.Or?
    ensures Repr(JoinRight(Factors(r))) == Repr(r) && !JoinRight(Factors(r)).Or?
    ensures (JoinRight(Factors(r)).Concat? <==> r.Concat?) && (JoinRight(Factors(r)).Star? <==> r.Star?)
    decreases r, 1
  {
    PrintFactors(r);
    if r.Concat? {
      PrintJoinRight(Factors(r));
    } else {
      assert Factors(r) == [Factors(r)[0]];
      SingleText(Factors(r)[0]);
    }
  }

  lemma {:induction false} PrintJoinLeft(a: Reg<char>, r: Reg<char>)
    ensures JoinLeft(a, r).Or? && Repr(JoinLeft(a, r)) == Repr(a) + "|" + Repr(r)
    decreases r, 2
  {
    match r
    case Or(r1, r2) =>
      PrintJoinLeft(a, r1);
      PrintJoinLeft(JoinLeft(a, r1), r2);
    case _ => PrintTerm(r);
  }

  /** The parsed expression differs from the printed one by association only: it is printed in the same way. */
  lemma {:induction false} PrintsTheSame(r: Reg<char>)
    ensures Repr(Reassociate(r)) == Repr(r)
    ensures (Reassociate(r).Or? <==> r.Or?) && (Reassociate(r).Concat? <==> r.Concat?)
            && (Reassociate(r).Star? <==> r.Star?)
    decreases r, 2
  {
    match r
    case Or(r1, r2) =>
      PrintsTheSame(r1);
      PrintJoinLeft(Reassociate(r1), r2);
    case _ => PrintTerm(r);
  }
}
