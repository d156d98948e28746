/** The search-token parser of djgrid/grid.py (`Grid.construct_search`): a
    leading operator character picks the lookup, and the rest of the token is
    coerced according to the field's class. */
module GridSearch {
  import opened Wrappers
  import opened PyErrors
  import opened FieldKinds
  import PyText

  /** The Django lookup a search token selects. */
  datatype Op = IStartsWith | IExact | IEndsWith | Gt | Lt | IContains

  /** The lookup suffix appended to the field name. */
  function Suffix(op: Op): string {
    match op
    case IStartsWith => "__istartswith"
    case IExact => "__iexact"
    case IEndsWith => "__iendswith"
    case Gt => "__gt"
    case Lt => "__lt"
    case IContains => "__icontains"
  }

  /** The operator a token's first character selects, tested in the order of
      grid.py:162-173; no operator character means a substring search. */
  function LeadingOp(token: string): Op {
    if PyText.StartsWith(token, "^") then IStartsWith
    else if PyText.StartsWith(token, "=") then IExact
    else if PyText.StartsWith(token, "$") then IEndsWith
    else if PyText.StartsWith(token, ">") then Gt
    else if PyText.StartsWith(token, "<") then Lt
    else IContains
  }

  /** The operator character that selects `op`, empty for the substring search. */
  function OpPrefix(op: Op): string {
    match op
    case IStartsWith => "^"
    case IExact => "="
    case IEndsWith => "$"
    case Gt => ">"
    case Lt => "<"
    case IContains => ""
  }

  /** The part of the token that is compared: the token without its operator character. */
  function Operand(token: string): string {
    if LeadingOp(token) == IContains then token else token[1..]
  }

  /** A typed lookup value handed to the ORM. */
  datatype Term =
    | IntTerm(n: int)                        // int(text)
    | FloatTerm(text: string)                // float(text) of text float() accepts; the value is not modelled
    | TextTerm(text: string)                 // smart_unicode(text)
    | Moment(text: string, format: string)   // datetime.strptime(text, format)

  /** How the operand is converted, by field class (grid.py:156-161). */
  datatype Coercion = ToInt | ToFloat | ToText

  function CoercionOf(kind: FieldKind): Coercion {
    if kind in IntegerFields then ToInt
    else if kind in FloatFields then ToFloat
    else ToText
  }

  /** `modifier(text)`: int() and float() may raise ValueError, which
      nothing catches. */
  function Coerce(c: Coercion, text: string): (r: Result<Term, PyError>)
    ensures r.Failure? <==> (c == ToInt && PyText.ParseInt(text).None?) || (c == ToFloat && !PyText.FloatText(text))
    ensures r.Failure? ==> r.error == ValueError
    ensures r.Success? && c == ToInt ==> r.value == IntTerm(PyText.ParseInt(text).value)
    ensures r.Success? && c == ToFloat ==> r.value == FloatTerm(text)
    ensures c == ToText ==> r == Success(TextTerm(text))
  {
    match c
    case ToInt =>
      (match PyText.ParseInt(text)
       case Some(n) => Success(IntTerm(n))
       case None => Failure(ValueError))
    case ToFloat => if PyText.FloatText(text) then Success(FloatTerm(text)) else Failure(ValueError)
    case ToText => Success(TextTerm(text))
  }

  /** The coercion fails exactly on text its converter rejects. */
  predicate Rejects(c: Coercion, text: string) {
    (c == ToInt && PyText.ParseInt(text).None?) || (c == ToFloat && !PyText.FloatText(text))
  }

  /** The lookup key `field + suffix` a token produces. */
  function SearchKey(field: string, token: string): string {
    field + Suffix(LeadingOp(token))
  }

  /** `Grid.construct_search(field, value, field_type)`. */
  function ConstructSearch(field: string, token: string, kind: FieldKind): (r: Result<(string, Term), PyError>)
    ensures r.Failure? <==> Rejects(CoercionOf(kind), Operand(token))
    ensures r.Failure? ==> r.error == ValueError
    ensures r.Success? ==> r.value.0 == SearchKey(field, token)
    ensures r.Success? ==> Coerce(CoercionOf(kind), Operand(token)) == Success(r.value.1)
  {
    match Coerce(CoercionOf(kind), Operand(token))
    case Success(t) => Success((SearchKey(field, token), t))
    case Failure(e) => Failure(e)
  }

  /** The operator table of grid.py:162-173 spelled out: each operator
      character gives its suffix and drops one character; any other token
      is a substring search on the whole token. */
  lemma OperatorTable(field: string, token: string)
    ensures |token| > 0 && token[0] == '^' ==> SearchKey(field, token) == field + "__istartswith" && Operand(token) == token[1..]
    ensures |token| > 0 && token[0] == '=' ==> SearchKey(field, token) == field + "__iexact" && Operand(token) == token[1..]
    ensures |token| > 0 && token[0] == '$' ==> SearchKey(field, token) == field + "__iendswith" && Operand(token) == token[1..]
    ensures |token| > 0 && token[0] == '>' ==> SearchKey(field, token) == field + "__gt" && Operand(token) == token[1..]
    ensures |token| > 0 && token[0] == '<' ==> SearchKey(field, token) == field + "__lt" && Operand(token) == token[1..]
    ensures (|token| == 0 || token[0] !in "^=$><") ==> SearchKey(field, token) == field + "__icontains" && Operand(token) == token
  {
    if |token| > 0 {
      assert token[..1] == [token[0]];
    }
  }

  /** Parsing loses nothing: the operator character and the operand put back
      together are the token. */
  lemma OperandRoundTrip(token: string)
    ensures OpPrefix(LeadingOp(token)) + Operand(token) == token
  {
    if LeadingOp(token) != IContains {
      assert token == token[..1] + token[1..];
    }
  }

  /** Building a token from an operator and an operand parses back to both. */
  lemma ParseBuiltToken(op: Op, operand: string)
    requires op == IContains ==> |operand| == 0 || operand[0] !in "^=$><"
    ensures LeadingOp(OpPrefix(op) + operand) == op
    ensures Operand(OpPrefix(op) + operand) == operand
  {
    var t := OpPrefix(op) + operand;
    if op != IContains {
      assert t[..1] == OpPrefix(op);
      assert t[1..] == operand;
    } else {
      assert t == operand;
      if |t| > 0 {
        assert t[..1] == [t[0]];
      }
    }
  }

  /** For an integer-class field the lookup value is the integer the operand
      spells; text written by `unicode()` after any operator character is
      always accepted and read back exactly. */
  lemma IntegerSearch(field: string, op: Op, n: int, kind: FieldKind)
    requires kind in IntegerFields
    ensures var token := OpPrefix(op) + PyText.ShowInt(n);
      ConstructSearch(field, token, kind) == Success((field + Suffix(op), IntTerm(n)))
  {
    var digits := PyText.ShowInt(n);
    assert digits[0] == '-' || PyText.IsDigit(digits[0]);
    ParseBuiltToken(op, digits);
    PyText.ParseShowInt(n);
  }

  /** Outside the integer classes only a float-class field can fail, and
      only on an operand `float()` rejects; an operand `int()` accepts is a
      valid float too, unless whitespace follows its sign. */
  lemma NonIntegerSearch(field: string, token: string, kind: FieldKind)
    requires kind !in IntegerFields
    ensures ConstructSearch(field, token, kind).Failure? <==> kind in FloatFields && !PyText.FloatText(Operand(token))
    ensures kind in FloatFields && PyText.ParseInt(Operand(token)).Some? && !PyText.SpaceAfterSign(Operand(token)) ==>
      ConstructSearch(field, token, kind).Success?
  {
    if kind in FloatFields && PyText.ParseInt(Operand(token)).Some? && !PyText.SpaceAfterSign(Operand(token)) {
      PyText.IntTextIsFloatText(Operand(token));
    }
  }

  /** No lookup suffix ends another one. */
  lemma SuffixesDistinctTails(a: Op, b: Op)
    requires |Suffix(a)| <= |Suffix(b)|
    requires Suffix(b)[|Suffix(b)| - |Suffix(a)|..] == Suffix(a)
    ensures a == b
  {
    var sa, sb := Suffix(a), Suffix(b);
    var k := |sb| - |sa|;
    assert sb[k] == sa[0] == '_' && sb[k + 1] == sa[1] == '_';
    assert sb[k + 2] == sa[2];
    assert sb[|sb| - 1] == sa[|sa| - 1];
  }

  /** The lookup key determines the field it was built for, whatever the tokens. */
  lemma {:induction false} SearchKeyInjective(f1: string, t1: string, f2: string, t2: string)
    requires SearchKey(f1, t1) == SearchKey(f2, t2)
    ensures f1 == f2 && LeadingOp(t1) == LeadingOp(t2)
  {
    var a, b := LeadingOp(t1), LeadingOp(t2);
    var k := SearchKey(f1, t1);
    if |Suffix(a)| <= |Suffix(b)| {
      assert k[|k| - |Suffix(a)|..] == Suffix(a);
      assert k[|k| - |Suffix(b)|..] == Suffix(b);
      assert Suffix(b)[|Suffix(b)| - |Suffix(a)|..] == k[|k| - |Suffix(a)|..];
      SuffixesDistinctTails(a, b);
    } else {
      assert k[|k| - |Suffix(a)|..] == Suffix(a);
      assert k[|k| - |Suffix(b)|..] == Suffix(b);
      assert Suffix(a)[|Suffix(a)| - |Suffix(b)|..] == k[|k| - |Suffix(b)|..];
      SuffixesDistinctTails(b, a);
    }
    assert f1 == k[..|k| - |Suffix(a)|];
    assert f2 == k[..|k| - |Suffix(b)|];
  }
}
