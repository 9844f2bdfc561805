/**
 * The diagnostic texts are unambiguous: a decoder reads back, from the
 * text alone, the token and the priority it was shown with, for every kind
 * but the unary operator, whose text does not mention its symbol.
 */
module Diagnostics {
  import opened Wrappers
  import opened Int32Arith
  import opened Decimal
  import opened Tokens

  /** A token read back from its text, with the priority the text shows, if any. */
  datatype Decoded = Decoded(token: Token, priority: Option<int>)

  predicate HasPrefix(prefix: string, s: string) {
    |prefix| <= |s| && s[..|prefix|] == prefix
  }

  /** The position of the last occurrence of c in s. */
  function LastIndex(s: string, c: char): (r: Option<nat>)
    ensures r.Some? ==> r.value < |s| && s[r.value] == c
    ensures r.Some? ==> forall j :: r.value < j < |s| ==> s[j] != c
    ensures r.None? ==> forall j :: 0 <= j < |s| ==> s[j] != c
  {
    if |s| == 0 then None
    else if s[|s| - 1] == c then Some(|s| - 1)
    else LastIndex(s[..|s| - 1], c)
  }

  /**
   * Reads a diagnostic text back. A function name may itself contain ':',
   * so the name runs up to the last ':', after which only the priority's
   * digits follow.
   */
  function ParseDiagnostic(s: string): (r: Option<Decoded>)
    ensures r.Some? ==> !r.value.token.TLiteral? && !r.value.token.TOpUnary?
    ensures r.Some? ==> (r.value.priority.Some? <==> r.value.token.IsOperator())
  {
    if s == "end" then Some(Decoded(TEnd, None))
    else if HasPrefix("var:", s) then Some(Decoded(TVariable(s[4..]), None))
    else if HasPrefix("error:", s) then Some(Decoded(TError(s[6..]), None))
    else if HasPrefix("punct:", s) && |s| == 7 then Some(Decoded(TPunctuation(s[6]), None))
    else if HasPrefix("op:", s) && |s| >= 6 && s[4] == ':' && IsIntText(s[5..]) then
      Some(Decoded(TOpArithmetic(s[3]), Some(ParseInt(s[5..]))))
    else if HasPrefix("func:", s) then
      match LastIndex(s, ':')
      case Some(k) =>
        if k >= 5 && IsIntText(s[k + 1..]) then
          Some(Decoded(TOpFunction(s[5..k]), Some(ParseInt(s[k + 1..]))))
        else None
      case None => None
    else None
  }

  /** The decoded form of a token shown at a nesting offset. */
  function Shown(t: Token, basePriority: int32): (d: Decoded)
    requires t.IsOperator() ==> Priority(t, basePriority).Success?
    ensures d.token == t && (d.priority.Some? <==> t.IsOperator())
  {
    Decoded(t, if t.IsOperator() then Some(Priority(t, basePriority).value as int) else None)
  }

  /** A text differing from a prefix at some position does not start with it. */
  lemma NotPrefix(prefix: string, s: string, i: nat)
    requires i < |prefix| && i < |s| && prefix[i] != s[i]
    ensures !HasPrefix(prefix, s)
  {
  }

  /** An occurrence with no later occurrence is the last one. */
  lemma LastIndexIs(s: string, c: char, k: nat)
    requires k < |s| && s[k] == c
    requires forall j :: k < j < |s| ==> s[j] != c
    ensures LastIndex(s, c) == Some(k)
  {
  }

  /** A text ending in c followed by a text without c has its last c at the seam. */
  lemma LastIndexAtSeam(q: string, p: string, c: char)
    requires |q| > 0 && q[|q| - 1] == c
    requires forall j :: 0 <= j < |p| ==> p[j] != c
    ensures LastIndex(q + p, c) == Some(|q| - 1)
  {
    var s := q + p;
    forall j | |q| - 1 < j < |s|
      ensures s[j] != c
    {
      assert s[j] == p[j - |q|];
    }
    LastIndexIs(s, c, |q| - 1);
  }

  lemma VariableRoundTrip(n: string)
    ensures ParseDiagnostic("var:" + n) == Some(Decoded(TVariable(n), None))
  {
    var s := "var:" + n;
    assert HasPrefix("var:", s) && s[4..] == n;
  }

  lemma OperatorRoundTrip(c: char, p: int)
    ensures ParseDiagnostic("op:" + [c] + ":" + IntToString(p)) == Some(Decoded(TOpArithmetic(c), Some(p)))
  {
    var s := "op:" + [c] + ":" + IntToString(p);
    NotPrefix("var:", s, 0);
    NotPrefix("error:", s, 0);
    NotPrefix("punct:", s, 0);
    assert s[..3] == "op:" && s[3] == c && s[4] == ':' && s[5..] == IntToString(p);
    IntRoundTrip(p);
  }

  lemma FunctionRoundTrip(f: string, p: int)
    ensures ParseDiagnostic("func:" + f + ":" + IntToString(p)) == Some(Decoded(TOpFunction(f), Some(p)))
  {
    var digits := IntToString(p);
    var q := "func:" + f + ":";
    var s := q + digits;
    NotPrefix("var:", s, 0);
    NotPrefix("error:", s, 0);
    NotPrefix("punct:", s, 0);
    NotPrefix("op:", s, 0);
    assert HasPrefix("func:", s);
    LastIndexAtSeam(q, digits, ':');
    assert s[5..5 + |f|] == f && s[5 + |f| + 1..] == digits;
    IntRoundTrip(p);
  }

  lemma PunctuationRoundTrip(c: char)
    ensures ParseDiagnostic("punct:" + [c]) == Some(Decoded(TPunctuation(c), None))
  {
    var s := "punct:" + [c];
    NotPrefix("var:", s, 0);
    NotPrefix("error:", s, 0);
    assert HasPrefix("punct:", s) && s[6] == c;
  }

  lemma ErrorRoundTrip(m: string)
    ensures ParseDiagnostic("error:" + m) == Some(Decoded(TError(m), None))
  {
    var s := "error:" + m;
    NotPrefix("var:", s, 0);
    assert HasPrefix("error:", s) && s[6..] == m;
  }

  /**
   * Every diagnostic text but the unary operator's decodes to the token it
   * was made from and the priority that token had.
   */
  lemma DiagnosticRoundTrip(t: Token, basePriority: int32)
    requires !t.TLiteral? && !t.TOpUnary?
    requires ToString(t, basePriority).Success?
    ensures ParseDiagnostic(ToString(t, basePriority).value) == Some(Shown(t, basePriority))
  {
    match t
    case TVariable(n) => VariableRoundTrip(n);
    case TOpArithmetic(c) => OperatorRoundTrip(c, ArithmeticPriority(c, basePriority).value);
    case TOpFunction(f) => FunctionRoundTrip(f, FunctionPriority(basePriority));
    case TPunctuation(c) => PunctuationRoundTrip(c);
    case TEnd =>
    case TError(m) => ErrorRoundTrip(m);
  }

  /**
   * Two tokens other than unary operators with the same text are the same
   * token, even at different nesting offsets.
   */
  lemma DiagnosticInjective(t1: Token, t2: Token, base1: int32, base2: int32)
    requires !t1.TLiteral? && !t1.TOpUnary? && ToString(t1, base1).Success?
    requires !t2.TLiteral? && !t2.TOpUnary? && ToString(t2, base2).Success?
    requires ToString(t1, base1) == ToString(t2, base2)
    ensures t1 == t2
  {
    DiagnosticRoundTrip(t1, base1);
    DiagnosticRoundTrip(t2, base2);
  }

  /** The unary operator's text is its type name: it shows neither symbol nor priority. */
  lemma UnaryDiagnosticIgnoresSymbol(u1: char, u2: char, base1: int32, base2: int32)
    ensures ToString(TOpUnary(u1), base1) == ToString(TOpUnary(u2), base2) == Success("Eval.TOpUnary")
    ensures ParseDiagnostic(ToString(TOpUnary(u1), base1).value) == None
  {
    var s := "Eval.TOpUnary";
    NotPrefix("var:", s, 0);
    NotPrefix("error:", s, 0);
    NotPrefix("punct:", s, 0);
    NotPrefix("op:", s, 0);
    NotPrefix("func:", s, 0);
  }
}
