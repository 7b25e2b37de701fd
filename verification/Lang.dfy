/** The expression evaluator of programs/lang.c: recursive descent over a moving
    cursor. Values are mathematical integers; the text ends with a zero byte. */
module Lang {

  const NAME_MAX: nat := 15

  datatype Variable = Variable(name: string, value: int)

  /** Character i of the text, the zero byte after its end. */
  function At(t: string, i: nat): char {
    if i < |t| then t[i] else '\0'
  }

  predicate IsBlank(c: char) {
    c == ' ' || c == '\t'
  }

  predicate IsDigit(c: char) {
    '0' <= c <= '9'
  }

  predicate IsIdent(c: char) {
    ('a' <= c <= 'z') || ('A' <= c <= 'Z') || IsDigit(c) || c == '_'
  }

  function SkipBlanks(t: string, i: nat): (j: nat)
    requires i <= |t|
    ensures i <= j <= |t| && !IsBlank(At(t, j))
    decreases |t| - i
  {
    if i < |t| && IsBlank(t[i]) then SkipBlanks(t, i + 1) else i
  }

  function SkipDigits(t: string, i: nat): (j: nat)
    requires i <= |t|
    ensures i <= j <= |t| && !IsDigit(At(t, j)) && forall k :: i <= k < j ==> IsDigit(t[k])
    decreases |t| - i
  {
    if i < |t| && IsDigit(t[i]) then SkipDigits(t, i + 1) else i
  }

  function SkipIdent(t: string, i: nat): (j: nat)
    requires i <= |t|
    ensures i <= j <= |t| && !IsIdent(At(t, j)) && forall k :: i <= k < j ==> IsIdent(t[k])
    decreases |t| - i
  {
    if i < |t| && IsIdent(t[i]) then SkipIdent(t, i + 1) else i
  }

  function Digit(c: char): nat {
    if IsDigit(c) then c as int - '0' as int else 0
  }

  function Number(digits: string): nat {
    if digits == "" then 0 else 10 * Number(digits[..|digits| - 1]) + Digit(digits[|digits| - 1])
  }

  lemma NumberMore(t: string, i: nat, j: nat)
    requires i <= j < |t|
    ensures Number(t[i..j + 1]) == 10 * Number(t[i..j]) + Digit(t[j])
  {
    assert t[i..j + 1][..j - i] == t[i..j];
  }

  function Cut(name: string): string {
    if |name| > NAME_MAX then name[..NAME_MAX] else name
  }

  /** The value of a variable, 0 if it has none; only 15 characters count. */
  function Lookup(vars: seq<Variable>, name: string): int {
    if vars == [] then 0 else if vars[0].name == Cut(name) then vars[0].value else Lookup(vars[1..], name)
  }

  /** Division of the C language: toward zero; by 0 it gives 0. */
  function Divide(a: int, b: int): int {
    if b == 0 then 0
    else if (a >= 0) == (b > 0) then Abs(a) / Abs(b)
    else -(Abs(a) / Abs(b))
  }

  function Abs(a: int): nat {
    if a < 0 then -a else a
  }

  /** The quotient is the one nearest to a from the side of zero. */
  lemma DivideTruncates(a: int, b: int)
    requires b != 0
    ensures Abs(a - Divide(a, b) * b) < Abs(b) && Abs(Divide(a, b) * b) <= Abs(a)
  {
    var q, r := Abs(a) / Abs(b), Abs(a) % Abs(b);
    assert Abs(a) == q * Abs(b) + r;
    assert Divide(a, b) * b == if a >= 0 then q * Abs(b) else -(q * Abs(b));
  }

  function Apply(op: char, a: int, b: int): int {
    if op == '+' then a + b else if op == '-' then a - b else if op == '*' then a * b else Divide(a, b)
  }

  // ---------------------------------------------------------------------------
  // The parsers, as functions of the text and the position. None moves backwards.

  function Factor(t: string, vars: seq<Variable>, i: nat): (r: (int, nat))
    requires i <= |t|
    ensures i <= r.1 <= |t|
    decreases |t| - i, 0
  {
    var j := SkipBlanks(t, i);
    if At(t, j) == '(' then
      var (v, k) := Expr(t, vars, j + 1);
      var m := SkipBlanks(t, k);
      (v, if At(t, m) == ')' then m + 1 else m)
    else if At(t, j) == '-' then
      var (v, k) := Factor(t, vars, j + 1);
      (-v, k)
    else if IsDigit(At(t, j)) then
      (Number(t[j..SkipDigits(t, j)]), SkipDigits(t, j))
    else
      var k := SkipIdent(t, j);
      (if k > j then Lookup(vars, t[j..k]) else 0, k)
  }

  function Term(t: string, vars: seq<Variable>, i: nat): (r: (int, nat))
    requires i <= |t|
    ensures i <= r.1 <= |t|
    decreases |t| - i, 2
  {
    var (v, j) := Factor(t, vars, i);
    TermRest(t, vars, SkipBlanks(t, j), v)
  }

  /** The loop of parse_term, at a position past blanks. */
  function TermRest(t: string, vars: seq<Variable>, i: nat, v: int): (r: (int, nat))
    requires i <= |t|
    ensures i <= r.1 <= |t|
    decreases |t| - i, 1
  {
    if At(t, i) == '*' || At(t, i) == '/' then
      var (rhs, j) := Factor(t, vars, i + 1);
      TermRest(t, vars, SkipBlanks(t, j), Apply(t[i], v, rhs))
    else (v, i)
  }

  function Expr(t: string, vars: seq<Variable>, i: nat): (r: (int, nat))
    requires i <= |t|
    ensures i <= r.1 <= |t|
    decreases |t| - i, 4
  {
    var (v, j) := Term(t, vars, i);
    ExprRest(t, vars, SkipBlanks(t, j), v)
  }

  /** The loop of parse_expr, at a position past blanks. */
  function ExprRest(t: string, vars: seq<Variable>, i: nat, v: int): (r: (int, nat))
    requires i <= |t|
    ensures i <= r.1 <= |t|
    decreases |t| - i, 3
  {
    if At(t, i) == '+' || At(t, i) == '-' then
      var (rhs, j) := Term(t, vars, i + 1);
      ExprRest(t, vars, SkipBlanks(t, j), Apply(t[i], v, rhs))
    else (v, i)
  }

  // ---------------------------------------------------------------------------
  // Expressions and their texts

  /** An expression as written: blanks may stand before every token. */
  datatype Tree =
    | Num(blank: string, digits: string)
    | Name(blank: string, name: string)
    | Negative(blank: string, arg: Tree)
    | Paren(blank: string, inner: Tree, close: string)
    | Op(left: Tree, blank: string, op: char, right: Tree)

  predicate Blanks(s: string) {
    forall k :: 0 <= k < |s| ==> s[k] == ' ' || s[k] == '\t'
  }

  predicate IsName(s: string) {
    && s != "" && !('0' <= s[0] <= '9')
    && forall k :: 0 <= k < |s| ==> 'a' <= s[k] <= 'z' || 'A' <= s[k] <= 'Z' || '0' <= s[k] <= '9' || s[k] == '_'
  }

  predicate IsNumber(s: string) {
    s != "" && forall k :: 0 <= k < |s| ==> '0' <= s[k] <= '9'
  }

  /** The levels of the grammar: 0 for factors, 1 for terms, 2 for sums;
      operators of one level group to the left. */
  predicate WellFormed(e: Tree, level: nat) {
    match e
    case Num(b, d) => Blanks(b) && IsNumber(d)
    case Name(b, n) => Blanks(b) && IsName(n)
    case Negative(b, a) => Blanks(b) && WellFormed(a, 0)
    case Paren(b, a, c) => Blanks(b) && WellFormed(a, 2) && Blanks(c)
    case Op(l, b, op, r) =>
      Blanks(b) && (if op == '*' || op == '/' then level >= 1 && WellFormed(l, 1) && WellFormed(r, 0)
                    else (op == '+' || op == '-') && level >= 2 && WellFormed(l, 2) && WellFormed(r, 1))
  }

  function Text(e: Tree): string {
    match e
    case Num(b, d) => b + d
    case Name(b, n) => b + n
    case Negative(b, a) => b + "-" + Text(a)
    case Paren(b, a, c) => b + "(" + Text(a) + c + ")"
    case Op(l, b, op, r) => Text(l) + b + [op] + Text(r)
  }

  // ---------------------------------------------------------------------------
  // What an expression means, without reference to the parsers

  /** The integer of a decimal numeral, each digit with the weight of its place. */
  function Decimal(d: string): nat {
    if d == "" then 0
    else DigitValue(d[0]) * Tens(|d| - 1) + Decimal(d[1..])
  }

  function DigitValue(c: char): nat {
    if '0' <= c <= '9' then c as int - 48 else 0
  }

  function Tens(n: nat): nat {
    if n == 0 then 1 else 10 * Tens(n - 1)
  }

  /** The quotient rounded toward zero; 0 for a zero divisor. */
  function Truncated(a: int, b: int): int {
    if b == 0 then 0 else if a >= 0 then a / b else -((-a) / b)
  }

  /** The remainder is smaller than the divisor and has the sign of the dividend. */
  predicate IsQuotient(a: int, b: int, q: int) {
    && Abs(a - q * b) < Abs(b)
    && (a >= 0 ==> a - q * b >= 0) && (a <= 0 ==> a - q * b <= 0)
  }

  lemma TruncatedIs(a: int, b: int)
    requires b != 0
    ensures IsQuotient(a, b, Truncated(a, b)) && forall q :: IsQuotient(a, b, q) ==> q == Truncated(a, b)
  {
    hide Truncated;
    var p := Truncated(a, b);
    TruncatedRest(a, b);
    forall q | IsQuotient(a, b, q)
      ensures q == p
    {
      Difference(a, b, p, q);
      SmallMultiple(q - p, b);
    }
  }

  lemma Difference(a: int, b: int, p: int, q: int)
    ensures (q - p) * b == (a - p * b) - (a - q * b)
  {
  }

  lemma TruncatedRest(a: int, b: int)
    requires b != 0
    ensures IsQuotient(a, b, Truncated(a, b))
  {
    hide IsQuotient;
    if a >= 0 {
      Remainder(a, b);
      Upright(a, b, a / b);
    } else {
      Remainder(-a, b);
      Mirrored(a, b, -a / b);
    }
  }

  lemma Upright(a: nat, b: int, q: int)
    requires 0 <= a - q * b < Abs(b)
    ensures IsQuotient(a, b, q)
  {
  }

  lemma Mirrored(a: int, b: int, q: int)
    requires a < 0 && 0 <= -a - q * b < Abs(b)
    ensures IsQuotient(a, b, -q)
  {
    Negated(q, b);
  }

  lemma Remainder(n: int, b: int)
    requires b != 0
    ensures n - (n / b) * b == n % b && 0 <= n % b < Abs(b)
  {
  }

  lemma Negated(n: int, b: int)
    ensures (-n) * b == -(n * b)
  {
  }

  /** A multiple of b that is smaller than b is 0. */
  lemma SmallMultiple(k: int, b: int)
    requires b != 0 && Abs(k * b) < Abs(b)
    ensures k == 0
  {
    if k != 0 {
      AbsProduct(k, b);
      AtLeast(Abs(k), Abs(b));
    }
  }

  lemma AtLeast(m: nat, n: nat)
    requires m >= 1
    ensures m * n >= n
  {
    assert (m - 1) * n >= 0;
  }

  lemma AbsProduct(k: int, b: int)
    ensures Abs(k * b) == Abs(k) * Abs(b)
  {
    if k >= 0 && b >= 0 {
      ProductSign(k, b);
    } else if k >= 0 {
      ProductSign(k, -b);
      assert k * b == -(k * (-b));
    } else if b >= 0 {
      ProductSign(-k, b);
      Negated(-k, b);
    } else {
      ProductSign(-k, -b);
      assert k * b == (-k) * (-b);
    }
  }

  lemma ProductSign(m: nat, n: nat)
    ensures m * n >= 0
  {
  }

  function Arithmetic(op: char, a: int, b: int): int {
    match op
    case '+' => a + b
    case '-' => a - b
    case '*' => a * b
    case _ => Truncated(a, b)
  }

  /** The operators of the parsers. */
  lemma ApplyMeans(op: char, a: int, b: int)
    ensures Apply(op, a, b) == Arithmetic(op, a, b)
  {
    if b != 0 && op != '+' && op != '-' && op != '*' {
      NegativeDivisor(Abs(a), b);
    }
  }

  lemma NegativeDivisor(n: nat, b: int)
    requires b != 0
    ensures n / b == if b > 0 then n / Abs(b) else -(n / Abs(b))
  {
    if b < 0 {
      var q, r := n / b, n % b;
      assert n == (-q) * (-b) + r && 0 <= r < -b;
      QuotientUnique(n, -b, -q, r);
    }
  }

  lemma QuotientUnique(n: int, d: nat, q: int, r: int)
    requires d > 0 && n == q * d + r && 0 <= r < d
    ensures n / d == q
  {
    assert (n / d - q) * d == r - n % d;
    SmallMultiple(n / d - q, d);
  }

  /** The number that the digit loop accumulates. */
  lemma {:induction false} NumberIsDecimal(d: string)
    ensures Number(d) == Decimal(d)
  {
    if d != "" {
      var most, last := d[..|d| - 1], d[|d| - 1];
      NumberIsDecimal(most);
      DecimalMore(most, last);
      assert most + [last] == d;
    }
  }

  lemma {:induction false} DecimalMore(d: string, c: char)
    ensures Decimal(d + [c]) == 10 * Decimal(d) + DigitValue(c)
  {
    hide Decimal, Tens, DigitValue;
    FirstDigit(d + [c]);
    if d == "" {
      LastDigit(c);
      assert d + [c] == [c];
    } else {
      FirstDigit(d);
      assert (d + [c])[1..] == d[1..] + [c];
      DecimalMore(d[1..], c);
      TenTimes(DigitValue(d[0]), |d| - 1);
    }
  }

  lemma FirstDigit(d: string)
    ensures d != "" ==> Decimal(d) == DigitValue(d[0]) * Tens(|d| - 1) + Decimal(d[1..])
  {
  }

  lemma LastDigit(c: char)
    ensures Decimal("") == 0 && Decimal([c]) == DigitValue(c)
  {
    FirstDigit([c]);
    assert Tens(0) == 1;
  }

  lemma TenTimes(x: nat, n: nat)
    ensures x * Tens(n + 1) == 10 * (x * Tens(n))
  {
  }

  function Value(e: Tree, vars: seq<Variable>): int {
    match e
    case Num(_, d) => Decimal(d)
    case Name(_, n) => Lookup(vars, n)
    case Negative(_, a) => -Value(a, vars)
    case Paren(_, a, _) => Value(a, vars)
    case Op(l, _, op, r) => Arithmetic(op, Value(l, vars), Value(r, vars))
  }

  // ---------------------------------------------------------------------------
  // Parsing a text gives back the value

  /** p stands at position i. */
  predicate Here(t: string, i: nat, p: string) {
    i + |p| <= |t| && t[i..i + |p|] == p
  }

  lemma HereSplit(t: string, i: nat, p: string, q: string)
    requires Here(t, i, p + q)
    ensures Here(t, i, p) && Here(t, i + |p|, q)
  {
    assert t[i..i + |p|] == t[i..i + |p + q|][..|p|];
    assert t[i + |p|..i + |p| + |q|] == t[i..i + |p + q|][|p|..];
  }

  lemma {:induction false} BlanksSkipped(t: string, i: nat, b: string)
    requires Here(t, i, b) && Blanks(b) && !IsBlank(At(t, i + |b|))
    ensures SkipBlanks(t, i) == i + |b|
    decreases |b|
  {
    if b != "" {
      assert t[i] == t[i..i + |b|][0];
      assert t[i + 1..i + 1 + |b[1..]|] == t[i..i + |b|][1..];
      BlanksSkipped(t, i + 1, b[1..]);
    }
  }

  lemma DigitsSkipped(t: string, i: nat, d: string)
    requires Here(t, i, d) && IsNumber(d) && !IsDigit(At(t, i + |d|))
    ensures SkipDigits(t, i) == i + |d| && At(t, i) == d[0]
  {
    forall k | 0 <= k < |d|
      ensures t[i + k] == d[k]
    {
      assert t[i + k] == t[i..i + |d|][k];
    }
  }

  lemma NameSkipped(t: string, i: nat, n: string)
    requires Here(t, i, n) && IsName(n) && !IsIdent(At(t, i + |n|))
    ensures SkipIdent(t, i) == i + |n| && At(t, i) == n[0]
  {
    forall k | 0 <= k < |n|
      ensures t[i + k] == n[k]
    {
      assert t[i + k] == t[i..i + |n|][k];
    }
  }

  lemma OneChar(t: string, i: nat, c: char)
    requires Here(t, i, [c])
    ensures i < |t| && t[i] == c
  {
    assert t[i] == t[i..i + 1][0];
  }

  /** Where the text of e ends in t. */
  function EndOf(i: nat, e: Tree): nat {
    i + |Text(e)|
  }

  /** Blanks, then a token character c. */
  lemma Token(t: string, i: nat, b: string, c: char, rest: string)
    requires Blanks(b) && !IsBlank(c) && Here(t, i, b + [c] + rest)
    ensures SkipBlanks(t, i) == i + |b| < |t| && t[i + |b|] == c && Here(t, i + |b| + 1, rest)
    ensures !IsIdent(c) ==> !IsIdent(At(t, i))
  {
    HereSplit(t, i, b + [c], rest);
    HereSplit(t, i, b, [c]);
    OneChar(t, i + |b|, c);
    BlanksSkipped(t, i, b);
    BlankOrNext(t, i, b);
  }

  lemma NegativeParts(t: string, i: nat, b: string, a: Tree)
    requires Blanks(b) && Here(t, i, Text(Negative(b, a)))
    ensures SkipBlanks(t, i) == i + |b| < |t| && t[i + |b|] == '-'
    ensures Here(t, i + |b| + 1, Text(a)) && EndOf(i + |b| + 1, a) == EndOf(i, Negative(b, a))
  {
    hide Here, SkipBlanks;
    Token(t, i, b, '-', Text(a));
  }

  lemma ParenParts(t: string, i: nat, b: string, a: Tree, c: string)
    requires Blanks(b) && Blanks(c) && Here(t, i, Text(Paren(b, a, c)))
    ensures SkipBlanks(t, i) == i + |b| < |t| && t[i + |b|] == '(' && Here(t, i + |b| + 1, Text(a))
    ensures var j := EndOf(i + |b| + 1, a);
      && !IsIdent(At(t, j)) && SkipBlanks(t, j) == j + |c| < |t| && t[j + |c|] == ')'
      && EndOf(i, Paren(b, a, c)) == j + |c| + 1
  {
    hide Here, SkipBlanks;
    assert b + "(" + Text(a) + c + ")" == b + "(" + (Text(a) + (c + ")" + ""));
    Token(t, i, b, '(', Text(a) + (c + ")" + ""));
    HereSplit(t, i + |b| + 1, Text(a), c + ")" + "");
    Token(t, EndOf(i + |b| + 1, a), c, ')', "");
  }

  lemma OpFacts(e: Tree)
    requires e.Op? && WellFormed(e, 2)
    ensures Blanks(e.blank) && !IsBlank(e.op) && !IsIdent(e.op)
  {
  }

  /** The parts of an operation: the left operand, the operator after blanks, the
      right operand up to the end. */
  lemma OpParts(t: string, i: nat, e: Tree)
    requires e.Op? && WellFormed(e, 2) && Here(t, i, Text(e))
    ensures var j := EndOf(i, e.left); var k := j + |e.blank|;
      && Here(t, i, Text(e.left)) && !IsIdent(At(t, j)) && SkipBlanks(t, j) == k < |t| && t[k] == e.op
      && Here(t, k + 1, Text(e.right)) && EndOf(k + 1, e.right) == EndOf(i, e)
  {
    hide Here, SkipBlanks, WellFormed, IsIdent, IsBlank;
    OpFacts(e);
    assert Text(e.left) + e.blank + [e.op] + Text(e.right) == Text(e.left) + (e.blank + [e.op] + Text(e.right));
    HereSplit(t, i, Text(e.left), e.blank + [e.op] + Text(e.right));
    Token(t, EndOf(i, e.left), e.blank, e.op, Text(e.right));
  }

  /** The character after an operand is a blank or the token after the blanks. */
  lemma BlankOrNext(t: string, i: nat, b: string)
    requires Here(t, i, b) && Blanks(b)
    ensures At(t, i) == At(t, i + |b|) || IsBlank(At(t, i))
  {
    if b != "" {
      assert t[i] == t[i..i + |b|][0];
    }
  }

  lemma {:induction false} FactorText(t: string, vars: seq<Variable>, i: nat, e: Tree)
    requires i <= |t| && WellFormed(e, 0) && Here(t, i, Text(e)) && !IsIdent(At(t, EndOf(i, e)))
    ensures Factor(t, vars, i) == (Value(e, vars), EndOf(i, e))
    decreases e, 0
  {
    hide Here, Factor, SkipBlanks, IsIdent, Number, Decimal;
    match e
    case Num(b, d) =>
      NumText(t, vars, i, b, d);
      NumberIsDecimal(d);
    case Name(b, n) => NameText(t, vars, i, b, n);
    case Negative(b, a) => NegativeText(t, vars, i, b, a);
    case Paren(b, a, c) => ParenText(t, vars, i, b, a, c);
  }

  lemma NegativeText(t: string, vars: seq<Variable>, i: nat, b: string, a: Tree)
    requires i <= |t| && Blanks(b) && WellFormed(a, 0) && Here(t, i, Text(Negative(b, a)))
      && !IsIdent(At(t, EndOf(i, Negative(b, a))))
    ensures Factor(t, vars, i) == (-Value(a, vars), EndOf(i, Negative(b, a)))
    decreases a, 4
  {
    hide Here, Text, EndOf, SkipBlanks, WellFormed, Value, Expr, IsIdent;
    NegativeParts(t, i, b, a);
    FactorText(t, vars, i + |b| + 1, a);
  }

  lemma NumText(t: string, vars: seq<Variable>, i: nat, b: string, d: string)
    requires Blanks(b) && IsNumber(d) && Here(t, i, b + d) && !IsIdent(At(t, i + |b + d|))
    ensures Factor(t, vars, i) == (Number(d), i + |b + d|)
  {
    HereSplit(t, i, b, d);
    DigitsSkipped(t, i + |b|, d);
    BlanksSkipped(t, i, b);
  }

  lemma NameText(t: string, vars: seq<Variable>, i: nat, b: string, n: string)
    requires Blanks(b) && IsName(n) && Here(t, i, b + n) && !IsIdent(At(t, i + |b + n|))
    ensures Factor(t, vars, i) == (Lookup(vars, n), i + |b + n|)
  {
    hide Here, SkipBlanks, SkipIdent, Blanks, IsName, Expr, Term;
    NameParts(t, i, b, n);
  }

  lemma NameParts(t: string, i: nat, b: string, n: string)
    requires Blanks(b) && IsName(n) && Here(t, i, b + n) && !IsIdent(At(t, i + |b + n|))
    ensures n != "" && IsIdent(n[0]) && !IsDigit(n[0]) && i + |b| + |n| <= |t| && t[i + |b|..i + |b| + |n|] == n
    ensures SkipBlanks(t, i) == i + |b| && SkipIdent(t, i + |b|) == i + |b| + |n| && At(t, i + |b|) == n[0]
  {
    hide SkipBlanks, SkipIdent;
    HereSplit(t, i, b, n);
    NameSkipped(t, i + |b|, n);
    BlanksSkipped(t, i, b);
  }

  lemma ParenText(t: string, vars: seq<Variable>, i: nat, b: string, a: Tree, c: string)
    requires i <= |t| && Blanks(b) && WellFormed(a, 2) && Blanks(c) && Here(t, i, Text(Paren(b, a, c)))
    ensures Factor(t, vars, i) == (Value(a, vars), EndOf(i, Paren(b, a, c)))
    decreases a, 4
  {
    hide Here, Text, EndOf, SkipBlanks, WellFormed, Value, Expr, IsIdent;
    ParenParts(t, i, b, a, c);
    ExprText(t, vars, i + |b| + 1, a);
    SkippedOnce(t, EndOf(i + |b| + 1, a));
  }

  /** After a term the loop of parse_term stands behind it, with its value. */
  lemma {:induction false} TermText(t: string, vars: seq<Variable>, i: nat, e: Tree)
    requires EndOf(i, e) <= |t| && WellFormed(e, 1) && Here(t, i, Text(e)) && !IsIdent(At(t, EndOf(i, e)))
    ensures Term(t, vars, i) == TermRest(t, vars, SkipBlanks(t, EndOf(i, e)), Value(e, vars))
    decreases e, 1
  {
    hide Here, Text, SkipBlanks, Factor, IsIdent, Apply, Arithmetic, Truncated, Blanks;
    if e.Op? {
      OpParts(t, i, e);
      ApplyMeans(e.op, Value(e.left, vars), Value(e.right, vars));
      TermText(t, vars, i, e.left);
      FactorText(t, vars, EndOf(i, e.left) + |e.blank| + 1, e.right);
    } else {
      FactorText(t, vars, i, e);
    }
  }

  /** After a sum the loop of parse_expr stands behind it, with its value. */
  lemma {:induction false} SumText(t: string, vars: seq<Variable>, i: nat, e: Tree)
    requires EndOf(i, e) <= |t| && WellFormed(e, 2) && Here(t, i, Text(e)) && !IsIdent(At(t, EndOf(i, e)))
    requires At(t, SkipBlanks(t, EndOf(i, e))) != '*' && At(t, SkipBlanks(t, EndOf(i, e))) != '/'
    ensures Expr(t, vars, i) == ExprRest(t, vars, SkipBlanks(t, EndOf(i, e)), Value(e, vars))
    decreases e, 2
  {
    hide Here, Text, SkipBlanks, Term, IsIdent, Apply, Arithmetic, Truncated, Blanks;
    SkippedOnce(t, EndOf(i, e));
    if e.Op? && (e.op == '+' || e.op == '-') {
      OpParts(t, i, e);
      ApplyMeans(e.op, Value(e.left, vars), Value(e.right, vars));
      SumText(t, vars, i, e.left);
      TermText(t, vars, EndOf(i, e.left) + |e.blank| + 1, e.right);
    } else {
      TermText(t, vars, i, e);
    }
  }

  lemma SkippedOnce(t: string, i: nat)
    requires i <= |t|
    ensures SkipBlanks(t, SkipBlanks(t, i)) == SkipBlanks(t, i)
  {
  }

  /** A whole expression, in front of anything that cannot continue it. */
  lemma ExprText(t: string, vars: seq<Variable>, i: nat, e: Tree)
    requires EndOf(i, e) <= |t| && WellFormed(e, 2) && Here(t, i, Text(e)) && !IsIdent(At(t, EndOf(i, e)))
    requires var c := At(t, SkipBlanks(t, EndOf(i, e))); c != '+' && c != '-' && c != '*' && c != '/'
    ensures Expr(t, vars, i) == (Value(e, vars), SkipBlanks(t, EndOf(i, e)))
    decreases e, 3
  {
    hide Here, Text, SkipBlanks, Expr, IsIdent;
    SumText(t, vars, i, e);
  }

  /** The text of an expression, blanks after it included, is consumed whole and
      gives the value of the expression. */
  lemma BothHere(a: string, b: string)
    ensures Here(a + b, 0, a) && Here(a + b, |a|, b)
  {
  }

  lemma ParseIsValue(e: Tree, after: string, vars: seq<Variable>)
    requires WellFormed(e, 2) && Blanks(after)
    ensures Expr(Text(e) + after, vars, 0) == (Value(e, vars), |Text(e) + after|)
  {
    hide Here, Text, Value, Expr, SkipBlanks, WellFormed, Blanks;
    var t := Text(e) + after;
    BothHere(Text(e), after);
    BlanksSkipped(t, |Text(e)|, after);
    BlankOrNext(t, |Text(e)|, after);
    ExprText(t, vars, 0, e);
  }

  // ---------------------------------------------------------------------------
  // Every abstract expression has such a text

  datatype Ast = Lit(n: nat) | Var(name: string) | Minus(arg: Ast) | Bin(op: char, l: Ast, r: Ast)

  predicate AstOk(a: Ast) {
    match a
    case Lit(_) => true
    case Var(n) => IsName(n)
    case Minus(x) => AstOk(x)
    case Bin(op, l, r) => op in "+-*/" && AstOk(l) && AstOk(r)
  }

  function Meaning(a: Ast, vars: seq<Variable>): int {
    match a
    case Lit(n) => n
    case Var(n) => Lookup(vars, n)
    case Minus(x) => -Meaning(x, vars)
    case Bin(op, l, r) => Arithmetic(op, Meaning(l, vars), Meaning(r, vars))
  }

  function Digits(n: nat): (d: string)
    ensures IsNumber(d) && Number(d) == n
  {
    var last := ['0' + (n % 10) as char];
    if n < 10 then
      assert last[..0] == "";
      last
    else
      assert (Digits(n / 10) + last)[..|Digits(n / 10)|] == Digits(n / 10);
      Digits(n / 10) + last
  }

  /** The text of a at a level of the grammar, in parentheses where needed. */
  function Print(a: Ast, level: nat): (e: Tree)
    requires AstOk(a) && level <= 2
    ensures WellFormed(e, level)
    decreases a, 2 - level
  {
    match a
    case Lit(n) => Num("", Digits(n))
    case Var(n) => Name("", n)
    case Minus(x) => Negative("", Print(x, 0))
    case Bin(op, l, r) =>
      var needed := if op == '*' || op == '/' then 1 else 2;
      if level < needed then Paren("", Print(a, 2), "")
      else if needed == 1 then Op(Print(l, 1), "", op, Print(r, 0))
      else Op(Print(l, 2), "", op, Print(r, 1))
  }

  lemma {:induction false} PrintMeans(a: Ast, level: nat, vars: seq<Variable>)
    requires AstOk(a) && level <= 2
    ensures Value(Print(a, level), vars) == Meaning(a, vars)
    decreases a, 2 - level
  {
    match a
    case Lit(n) => NumberIsDecimal(Digits(n));
    case Var(n) =>
    case Minus(x) => PrintMeans(x, 0, vars);
    case Bin(op, l, r) =>
      var needed := if op == '*' || op == '/' then 1 else 2;
      if level < needed {
        PrintMeans(a, 2, vars);
      } else if needed == 1 {
        PrintMeans(l, 1, vars);
        PrintMeans(r, 0, vars);
      } else {
        PrintMeans(l, 2, vars);
        PrintMeans(r, 1, vars);
      }
  }

  /** Printing an expression and evaluating the text gives its meaning. */
  lemma RoundTrip(a: Ast, vars: seq<Variable>)
    requires AstOk(a)
    ensures Expr(Text(Print(a, 2)), vars, 0) == (Meaning(a, vars), |Text(Print(a, 2))|)
  {
    hide Arithmetic;
    PrintMeans(a, 2, vars);
    ParseIsValue(Print(a, 2), "", vars);
    assert Text(Print(a, 2)) + "" == Text(Print(a, 2));
  }

  // ---------------------------------------------------------------------------
  // The interpreter

  const MAX_VARS: nat := 32

  /** Names are distinct and cut to 15 characters. */
  predicate Distinct(vars: seq<Variable>) {
    && (forall i :: 0 <= i < |vars| ==> |vars[i].name| <= NAME_MAX)
    && (forall i, j :: 0 <= i < j < |vars| ==> vars[i].name != vars[j].name)
  }

  lemma {:induction false} LookupAt(vars: seq<Variable>, name: string, i: nat)
    requires Distinct(vars) && i < |vars| && vars[i].name == Cut(name)
    ensures Lookup(vars, name) == vars[i].value
  {
    if i > 0 {
      assert vars[0].name != vars[i].name;
      LookupAt(vars[1..], name, i - 1);
    }
  }

  lemma {:induction false} LookupNone(vars: seq<Variable>, name: string)
    requires forall i :: 0 <= i < |vars| ==> vars[i].name != Cut(name)
    ensures Lookup(vars, name) == 0
  {
    if vars != [] {
      LookupNone(vars[1..], name);
    }
  }

  lemma {:induction false} LookupSet(vars: seq<Variable>, i: nat, v: int, name: string)
    requires Distinct(vars) && i < |vars|
    ensures Distinct(vars[i := vars[i].(value := v)])
    ensures Lookup(vars[i := vars[i].(value := v)], name) == if Cut(name) == vars[i].name then v else Lookup(vars, name)
  {
    var now := vars[i := vars[i].(value := v)];
    if k :| 0 <= k < |vars| && vars[k].name == Cut(name) {
      LookupAt(vars, name, k);
      LookupAt(now, name, k);
    } else {
      LookupNone(vars, name);
      LookupNone(now, name);
    }
  }

  lemma LookupAdded(vars: seq<Variable>, x: string, v: int, name: string)
    requires Distinct(vars) && |x| <= NAME_MAX && forall i :: 0 <= i < |vars| ==> vars[i].name != x
    ensures Distinct(vars + [Variable(x, v)])
    ensures Lookup(vars + [Variable(x, v)], name) == if Cut(name) == x then v else Lookup(vars, name)
  {
    var now := vars + [Variable(x, v)];
    if k :| 0 <= k < |vars| && vars[k].name == Cut(name) {
      LookupAt(vars, name, k);
      LookupAt(now, name, k);
    } else {
      LookupNone(vars, name);
      if Cut(name) == x {
        LookupAt(now, name, |vars|);
      } else {
        LookupNone(now, name);
      }
    }
  }

  class Interpreter {
    const text: string
    var pos: nat
    var vars: seq<Variable>

    constructor (text: string)
      ensures this.text == text && pos == 0 && vars == []
    {
      this.text := text;
      pos, vars := 0, [];
    }

    method SkipWs()
      requires pos <= |text|
      modifies this`pos
      ensures pos == SkipBlanks(text, old(pos))
    {
      while pos < |text| && IsBlank(text[pos])
        invariant pos <= |text| && SkipBlanks(text, pos) == SkipBlanks(text, old(pos))
      {
        pos := pos + 1;
      }
    }

    /** read_ident keeps 15 characters and moves past all of them. */
    method ReadIdent() returns (found: bool, name: string)
      requires pos <= |text|
      modifies this`pos
      ensures pos == SkipIdent(text, old(pos)) && name == Cut(text[old(pos)..pos]) && (found <==> pos > old(pos))
    {
      name := "";
      ghost var start := pos;
      while pos < |text| && IsIdent(text[pos])
        invariant start <= pos <= |text| && SkipIdent(text, pos) == SkipIdent(text, start)
        invariant name == Cut(text[start..pos])
      {
        CutMore(text[start..pos], text[pos]);
        OneMore(text, start, pos);
        if |name| < NAME_MAX {
          name := name + [text[pos]];
        }
        pos := pos + 1;
      }
      found := |name| > 0;
    }

    /** var_ref without creation: where the variable is, if anywhere. */
    method FindVar(name: string) returns (i: nat)
      ensures i <= |vars| && (i < |vars| ==> vars[i].name == Cut(name))
      ensures forall k :: 0 <= k < i ==> vars[k].name != Cut(name)
    {
      i := 0;
      while i < |vars| && vars[i].name != Cut(name)
        invariant 0 <= i <= |vars| && forall k :: 0 <= k < i ==> vars[k].name != Cut(name)
      {
        i := i + 1;
      }
    }

    method ReadVar(name: string) returns (v: int)
      requires Distinct(vars)
      ensures v == Lookup(vars, name)
    {
      var i := FindVar(name);
      if i < |vars| {
        LookupAt(vars, name, i);
        v := vars[i].value;
      } else {
        LookupNone(vars, name);
        v := 0;
      }
    }

    /** `let`: the variable gets the value, the others keep theirs. A new name
        needs room in the table. */
    method Assign(name: string, v: int) returns (ok: bool)
      requires Distinct(vars)
      modifies this`vars
      ensures Distinct(vars)
      ensures ok ==> forall x :: Lookup(vars, x) == if Cut(x) == Cut(name) then v else Lookup(old(vars), x)
      ensures !ok <==> |old(vars)| >= MAX_VARS && forall k :: 0 <= k < |old(vars)| ==> old(vars)[k].name != Cut(name)
      ensures !ok ==> vars == old(vars)
    {
      ghost var was := vars;
      var i := FindVar(name);
      if i == |vars| {
        if |vars| >= MAX_VARS {
          return false;
        }
        vars := vars + [Variable(Cut(name), v)];
        forall x {
          LookupAdded(was, Cut(name), v, x);
        }
      } else {
        vars := vars[i := vars[i].(value := v)];
        forall x {
          LookupSet(was, i, v, x);
        }
      }
      ok := true;
    }

    method ParseNumber() returns (v: int)
      requires pos <= |text|
      modifies this`pos
      ensures pos == SkipDigits(text, old(pos)) && v == Number(text[old(pos)..pos])
    {
      ghost var start := pos;
      v := 0;
      while pos < |text| && IsDigit(text[pos])
        invariant start <= pos <= |text| && SkipDigits(text, pos) == SkipDigits(text, start)
        invariant v == Number(text[start..pos])
      {
        NumberMore(text, start, pos);
        v := v * 10 + Digit(text[pos]);
        pos := pos + 1;
      }
    }

    method ParseFactor() returns (v: int)
      requires pos <= |text| && Distinct(vars)
      modifies this`pos
      ensures (v, pos) == Factor(text, vars, old(pos))
      decreases |text| - pos, 0
    {
      hide Expr, SkipBlanks, SkipDigits, SkipIdent, Lookup, Distinct, IsDigit, Number, Cut;
      SkipWs();
      if At(text, pos) == '(' {
        pos := pos + 1;
        v := ParseExpr();
        SkipWs();
        if At(text, pos) == ')' {
          pos := pos + 1;
        }
        return;
      }
      if At(text, pos) == '-' {
        pos := pos + 1;
        v := ParseFactor();
        v := -v;
        return;
      }
      if IsDigit(At(text, pos)) {
        v := ParseNumber();
        return;
      }
      ghost var start := pos;
      var found, name := ReadIdent();
      if found {
        CutTwice(text[start..pos]);
        SameLookup(vars, text[start..pos]);
        v := ReadVar(name);
      } else {
        v := 0;
      }
    }

    method ParseTerm() returns (v: int)
      requires pos <= |text| && Distinct(vars)
      modifies this`pos
      ensures (v, pos) == Term(text, vars, old(pos))
      decreases |text| - pos, 1
    {
      hide TermRest, Factor, SkipBlanks, Distinct, Divide;
      v := ParseFactor();
      SkipWs();
      while At(text, pos) == '*' || At(text, pos) == '/'
        invariant old(pos) <= pos <= |text|
        invariant TermRest(text, vars, pos, v) == Term(text, vars, old(pos))
        decreases |text| - pos
      {
        TermStep(text, vars, pos, v);
        var op := text[pos];
        pos := pos + 1;
        var rhs := ParseFactor();
        v := if op == '*' then v * rhs else Divide(v, rhs);
        SkipWs();
      }
      TermStep(text, vars, pos, v);
    }

    /** parse_expr computes exactly the function above: on a well-formed text the
        value of the expression. It ends on every text. */
    method ParseExpr() returns (v: int)
      requires pos <= |text| && Distinct(vars)
      modifies this`pos
      ensures (v, pos) == Expr(text, vars, old(pos))
      decreases |text| - pos, 2
    {
      hide ExprRest, Term, SkipBlanks, Distinct, Divide;
      v := ParseTerm();
      SkipWs();
      while At(text, pos) == '+' || At(text, pos) == '-'
        invariant old(pos) <= pos <= |text|
        invariant ExprRest(text, vars, pos, v) == Expr(text, vars, old(pos))
        decreases |text| - pos
      {
        ExprStep(text, vars, pos, v);
        var op := text[pos];
        pos := pos + 1;
        var rhs := ParseTerm();
        v := if op == '+' then v + rhs else v - rhs;
        SkipWs();
      }
      ExprStep(text, vars, pos, v);
    }
  }

  /** One round of the loop of parse_term. */
  lemma TermStep(t: string, vars: seq<Variable>, i: nat, v: int)
    requires i <= |t|
    ensures At(t, i) == '*' || At(t, i) == '/' ==>
      i < |t| && TermRest(t, vars, i, v) ==
        TermRest(t, vars, SkipBlanks(t, Factor(t, vars, i + 1).1), Apply(t[i], v, Factor(t, vars, i + 1).0))
    ensures At(t, i) != '*' && At(t, i) != '/' ==> TermRest(t, vars, i, v) == (v, i)
  {
  }

  /** One round of the loop of parse_expr. */
  lemma ExprStep(t: string, vars: seq<Variable>, i: nat, v: int)
    requires i <= |t|
    ensures At(t, i) == '+' || At(t, i) == '-' ==>
      i < |t| && ExprRest(t, vars, i, v) ==
        ExprRest(t, vars, SkipBlanks(t, Term(t, vars, i + 1).1), Apply(t[i], v, Term(t, vars, i + 1).0))
    ensures At(t, i) != '+' && At(t, i) != '-' ==> ExprRest(t, vars, i, v) == (v, i)
  {
  }

  lemma OneMore(t: string, i: nat, j: nat)
    requires i <= j < |t|
    ensures t[i..j + 1] == t[i..j] + [t[j]]
  {
  }

  lemma CutMore(s: string, c: char)
    ensures Cut(s + [c]) == if |Cut(s)| < NAME_MAX then Cut(s) + [c] else Cut(s)
  {
    if |s| >= NAME_MAX {
      assert (s + [c])[..NAME_MAX] == s[..NAME_MAX];
    }
  }

  lemma CutTwice(name: string)
    ensures Cut(Cut(name)) == Cut(name)
  {
  }

  lemma {:induction false} SameLookup(vars: seq<Variable>, name: string)
    ensures Lookup(vars, Cut(name)) == Lookup(vars, name)
  {
    if vars != [] {
      SameLookup(vars[1..], name);
    }
  }
}
