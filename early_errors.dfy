/** Early errors the parser reports on trees it has built: simple
    assignment targets, `delete` in strict mode code, array and object
    literals that must cover assignment patterns, duplicate parameter
    names and setter parameter lists. */
module EarlyErrors {
  import opened Wrappers
  import Tokens
  import Errors
  import Syntax
  import ParserCore

  type Error = Errors.Error
  type Context = ParserCore.Context

  // ---------------------------------------------------------------------
  // Simple assignment targets

  /** An identifier reference that strict mode code may not assign to. */
  predicate IsRestrictedInStrict(e: Syntax.Expr) {
    e.IdentRef? && (e.ident.name == "arguments" || e.ident.name == "eval")
  }

  /** `is_assignment_target_type_simple`: identifier references and member
      expressions are simple targets, except that strict mode code reports
      `eval` and `arguments` as errors; everything else is not simple. */
  function IsAssignmentTargetTypeSimple(e: Syntax.Expr, ctx: Context): (r: Result<bool, Error>)
    ensures r.Err? <==> ctx.isStrict && IsRestrictedInStrict(e)
    ensures r == Ok(true) <==> (e.IdentRef? && !r.Err?) || e.Member?
    ensures r.Err? ==> r.error == Errors.SyntaxErrorOf(
              "Unexpected `eval` or `arguments` in strict mode", Syntax.ExprSpan(e))
  {
    match e
    case IdentRef(ident) =>
      if ctx.isStrict && (ident.name == "arguments" || ident.name == "eval") then
        Err(Errors.SyntaxErrorOf("Unexpected `eval` or `arguments` in strict mode", Syntax.ExprSpan(e)))
      else Ok(true)
    case Member(_, _, _) => Ok(true)
    case _ => Ok(false)
  }

  /** `validate_update_expression_argument`: fails exactly when the
      argument is not a simple assignment target. */
  function ValidateUpdateExpressionArgument(argument: Syntax.Expr, ctx: Context): (r: Result<(), Error>)
    ensures r.Ok? <==> IsAssignmentTargetTypeSimple(argument, ctx) == Ok(true)
    ensures IsAssignmentTargetTypeSimple(argument, ctx) == Ok(false) ==>
              r == Err(Errors.SyntaxErrorOf("Invalid update expression argument", Syntax.ExprSpan(argument)))
  {
    var simple :- IsAssignmentTargetTypeSimple(argument, ctx);
    if !simple then
      Err(Errors.SyntaxErrorOf("Invalid update expression argument", Syntax.ExprSpan(argument)))
    else Ok(())
  }

  // ---------------------------------------------------------------------
  // delete

  /** An expression with every enclosing pair of parentheses removed. */
  function StripParentheses(e: Syntax.Expr): (r: Syntax.Expr)
    ensures !r.Parenthesized?
  {
    if e.Parenthesized? then StripParentheses(e.expression) else e
  }

  /** `validate_delete_argument`: outside strict mode code anything may be
      deleted; in strict mode code deleting an identifier, however many
      parentheses wrap it, is an error reported at the identifier. */
  function ValidateDeleteArgument(argument: Syntax.Expr, ctx: Context): (r: Result<(), Error>)
    ensures !ctx.isStrict ==> r.Ok?
    ensures ctx.isStrict ==> (r.Err? <==> StripParentheses(argument).IdentRef?)
    ensures r.Err? ==> r.error == Errors.SyntaxErrorOf(
              "Delete of an unqualified identifier in strict mode",
              StripParentheses(argument).ident.span)
  {
    if !ctx.isStrict then Ok(())
    else match argument
      case IdentRef(ident) =>
        Err(Errors.SyntaxErrorOf("Delete of an unqualified identifier in strict mode", ident.span))
      case Parenthesized(_, expression) => ValidateDeleteArgument(expression, ctx)
      case _ => Ok(())
  }

  // ---------------------------------------------------------------------
  // Cover grammars

  function RestNotLast(spread: Syntax.Expr): Error {
    Errors.SyntaxErrorOf("Rest element must be last element", Syntax.ExprSpan(spread))
  }

  /** The array rule: a spread anywhere but in the last position is
      reported, the first such one. */
  function ArrayCoverCheck(elements: seq<Syntax.ArrayElement>): (r: Result<(), Error>)
    ensures r.Ok? <==> forall k :: 0 <= k < |elements| - 1 ==> !elements[k].Spread?
    ensures r.Err? ==> exists k :: 0 <= k < |elements| - 1 && elements[k].Spread?
                                   && (forall j :: 0 <= j < k ==> !elements[j].Spread?)
                                   && r.error == RestNotLast(elements[k].spread)
  {
    if |elements| <= 1 then Ok(())
    else if elements[0].Spread? then Err(RestNotLast(elements[0].spread))
    else
      var r := ArrayCoverCheck(elements[1..]);
      assert forall k :: 1 <= k < |elements| ==> elements[k] == elements[1..][k - 1];
      r
  }

  /** `validate_array_literal_cover_assignment`: walks the elements with a
      peekable iterator, stops before the last one, and reports the first
      spread it meets. */
  method ValidateArrayLiteralCoverAssignment(elements: seq<Syntax.ArrayElement>) returns (r: Result<(), Error>)
    ensures r == ArrayCoverCheck(elements)
  {
    var k := 0;
    while k < |elements|
      invariant k <= |elements|
      invariant k < |elements| ==> ArrayCoverCheck(elements) == ArrayCoverCheck(elements[k..])
      invariant k == |elements| ==> ArrayCoverCheck(elements) == Ok(())
    {
      var element := elements[k];
      ghost var rest := elements[k..];
      k := k + 1;
      if k == |elements| {
        break;
      }
      assert rest[1..] == elements[k..];
      if element.Spread? {
        return Err(RestNotLast(element.spread));
      }
    }
    r := Ok(());
  }

  function InvalidTarget(span: Tokens.Span): Error {
    Errors.SyntaxErrorOf("Invalid destructuring assignment target", span)
  }

  /** The object rule: a method anywhere, or a spread anywhere but in the
      last position, is reported, the first offending property. */
  function ObjectCoverCheck(props: seq<Syntax.PropertyDefinition>): (r: Result<(), Error>)
    ensures r.Ok? <==> (forall k :: 0 <= k < |props| ==> !props[k].MethodProperty?)
                       && (forall k :: 0 <= k < |props| - 1 ==> !props[k].SpreadProperty?)
    ensures r.Err? ==> exists k :: 0 <= k < |props|
                         && (props[k].MethodProperty? || (k < |props| - 1 && props[k].SpreadProperty?))
                         && (forall j :: 0 <= j < k ==> !props[j].MethodProperty? && !props[j].SpreadProperty?)
                         && r.error == (if props[k].MethodProperty? then InvalidTarget(props[k].methodSpan)
                                        else RestNotLast(props[k].spreadExpr))
  {
    if props == [] then Ok(())
    else if props[0].MethodProperty? then Err(InvalidTarget(props[0].methodSpan))
    else if |props| > 1 && props[0].SpreadProperty? then Err(RestNotLast(props[0].spreadExpr))
    else
      var r := ObjectCoverCheck(props[1..]);
      assert forall k :: 1 <= k < |props| ==> props[k] == props[1..][k - 1];
      r
  }

  /** `validate_object_literal_cover_assignment`: walks the properties with
      a peekable iterator; a method is reported even in the last position. */
  method ValidateObjectLiteralCoverAssignment(props: seq<Syntax.PropertyDefinition>) returns (r: Result<(), Error>)
    ensures r == ObjectCoverCheck(props)
  {
    var k := 0;
    while k < |props|
      invariant k <= |props|
      invariant ObjectCoverCheck(props) == ObjectCoverCheck(props[k..])
    {
      var prop := props[k];
      ghost var rest := props[k..];
      k := k + 1;
      if prop.MethodProperty? {
        return Err(InvalidTarget(prop.methodSpan));
      }
      if k < |props| {
        if prop.SpreadProperty? {
          return Err(RestNotLast(prop.spreadExpr));
        }
      }
      assert rest[1..] == props[k..];
    }
    r := Ok(());
  }

  /** The rule `validate_left_side_expr` applies: with `=` an array or
      object literal must cover an assignment pattern; every other
      target, and every target of a compound operator, must be simple. */
  function LeftSideExprCheck(e: Syntax.Expr, op: Syntax.AssignmentOperator, ctx: Context): (r: Result<(), Error>)
    ensures op == Syntax.Assign && e.LiteralExpr? && e.literal.ArrayLiteral? ==>
              r == ArrayCoverCheck(e.literal.elements)
    ensures op == Syntax.Assign && e.LiteralExpr? && e.literal.ObjectLiteral? ==>
              r == ObjectCoverCheck(e.literal.props)
    ensures op != Syntax.Assign && e.LiteralExpr? && (e.literal.ArrayLiteral? || e.literal.ObjectLiteral?) ==>
              r == Err(Errors.SyntaxErrorOf("Invalid left-hand side assignment", Syntax.ExprSpan(e)))
    ensures !(e.LiteralExpr? && (e.literal.ArrayLiteral? || e.literal.ObjectLiteral?)) ==>
              (r.Ok? <==> IsAssignmentTargetTypeSimple(e, ctx) == Ok(true))
    ensures !(op == Syntax.Assign && e.LiteralExpr? && (e.literal.ArrayLiteral? || e.literal.ObjectLiteral?))
            && IsAssignmentTargetTypeSimple(e, ctx) == Ok(false) ==>
              r == Err(Errors.SyntaxErrorOf("Invalid left-hand side assignment", Syntax.ExprSpan(e)))
    ensures !(op == Syntax.Assign && e.LiteralExpr? && (e.literal.ArrayLiteral? || e.literal.ObjectLiteral?))
            && IsAssignmentTargetTypeSimple(e, ctx).Err? ==>
              r == Err(IsAssignmentTargetTypeSimple(e, ctx).error)
  {
    if op == Syntax.Assign && e.LiteralExpr? && e.literal.ArrayLiteral? then
      ArrayCoverCheck(e.literal.elements)
    else if op == Syntax.Assign && e.LiteralExpr? && e.literal.ObjectLiteral? then
      ObjectCoverCheck(e.literal.props)
    else
      var simple :- IsAssignmentTargetTypeSimple(e, ctx);
      if !simple then Err(Errors.SyntaxErrorOf("Invalid left-hand side assignment", Syntax.ExprSpan(e)))
      else Ok(())
  }

  /** `validate_left_side_expr`. */
  method ValidateLeftSideExpr(e: Syntax.Expr, op: Syntax.AssignmentOperator, ctx: Context)
    returns (r: Result<(), Error>)
    ensures r == LeftSideExprCheck(e, op, ctx)
  {
    if op == Syntax.Assign && e.LiteralExpr? && e.literal.ArrayLiteral? {
      r := ValidateArrayLiteralCoverAssignment(e.literal.elements);
      return;
    }
    if op == Syntax.Assign && e.LiteralExpr? && e.literal.ObjectLiteral? {
      r := ValidateObjectLiteralCoverAssignment(e.literal.props);
      return;
    }
    var simple := IsAssignmentTargetTypeSimple(e, ctx);
    if simple.Err? {
      return Err(simple.error);
    }
    if !simple.value {
      return Err(Errors.SyntaxErrorOf("Invalid left-hand side assignment", Syntax.ExprSpan(e)));
    }
    r := Ok(());
  }

  // ---------------------------------------------------------------------
  // Parameter lists

  /** `validate_property_set_parameters`: a setter takes exactly one
      parameter and no rest parameter; the rest check comes first. */
  function ValidatePropertySetParameters(params: Syntax.FormalParameters): (r: Result<(), Error>)
    ensures r.Ok? <==> params.rest.None? && |params.bindings| == 1
    ensures params.rest.Some? ==> r == Err(Errors.SyntaxErrorOf(
              "Setter function parameter must not be a rest parameter", params.span))
    ensures params.rest.None? && |params.bindings| != 1 ==> r == Err(Errors.SyntaxErrorOf(
              "Setter must have exactly one parameter", params.span))
  {
    if params.rest.Some? then
      Err(Errors.SyntaxErrorOf("Setter function parameter must not be a rest parameter", params.span))
    else if |params.bindings| != 1 then
      Err(Errors.SyntaxErrorOf("Setter must have exactly one parameter", params.span))
    else Ok(())
  }

  function BindingsNames(bindings: seq<Syntax.BindingElement>): seq<string> {
    if bindings == [] then [] else Syntax.BoundNames(bindings[0].pattern) + BindingsNames(bindings[1..])
  }

  /** `get_bound_names`: the names bound by the parameters in order, then
      those bound by the rest parameter. */
  function GetBoundNames(params: Syntax.FormalParameters): (r: seq<string>)
    ensures params.rest.None? ==> r == BindingsNames(params.bindings)
    ensures params.rest.Some? ==>
              r == BindingsNames(params.bindings) + Syntax.BoundNames(params.rest.value)
  {
    BindingsNames(params.bindings) + (if params.rest.Some? then Syntax.BoundNames(params.rest.value) else [])
  }

  /** Each parameter's names occur among the bound names. */
  lemma {:induction false} BindingsNamesContains(bindings: seq<Syntax.BindingElement>, k: nat, name: string)
    requires k < |bindings| && name in Syntax.BoundNames(bindings[k].pattern)
    ensures name in BindingsNames(bindings)
  {
    if k > 0 {
      BindingsNamesContains(bindings[1..], k - 1, name);
    }
  }

  // ---------------------------------------------------------------------
  // Ordering of names

  /** `Ord for str`: lexicographic by code point, which is the order of
      their UTF-8 bytes. */
  predicate StrLe(a: string, b: string) {
    if a == [] then true
    else if b == [] then false
    else if a[0] != b[0] then a[0] < b[0]
    else StrLe(a[1..], b[1..])
  }

  lemma {:induction false} StrLeTotal(a: string, b: string)
    ensures StrLe(a, b) || StrLe(b, a)
  {
    if a != [] && b != [] && a[0] == b[0] {
      StrLeTotal(a[1..], b[1..]);
    }
  }

  lemma {:induction false} StrLeAntisymmetric(a: string, b: string)
    requires StrLe(a, b) && StrLe(b, a)
    ensures a == b
  {
    if a != [] && b != [] {
      StrLeAntisymmetric(a[1..], b[1..]);
      assert a == [a[0]] + a[1..] && b == [b[0]] + b[1..];
    }
  }

  lemma {:induction false} StrLeTransitive(a: string, b: string, c: string)
    requires StrLe(a, b) && StrLe(b, c)
    ensures StrLe(a, c)
  {
    if a != [] && b != [] && c != [] && a[0] == b[0] && b[0] == c[0] {
      StrLeTransitive(a[1..], b[1..], c[1..]);
    }
  }

  predicate Sorted(s: seq<string>) {
    forall i, j :: 0 <= i < j < |s| ==> StrLe(s[i], s[j])
  }

  /** Inserts `x` before the first larger name. */
  function Insert(x: string, s: seq<string>): (r: seq<string>)
    requires Sorted(s)
    ensures Sorted(r) && multiset(r) == multiset(s) + multiset{x} && |r| == |s| + 1
  {
    if s == [] then [x]
    else if StrLe(x, s[0]) then
      assert forall j :: 0 <= j < |s| ==> StrLe(x, s[j]) by {
        forall j | 0 < j < |s| { StrLeTransitive(x, s[0], s[j]); }
      }
      ConsSorted(x, s);
      [x] + s
    else
      StrLeTotal(x, s[0]);
      var tail := Insert(x, s[1..]);
      assert s == [s[0]] + s[1..];
      var others := s[1..] + [x];
      HeadBoundsOthers(s, x);
      LowerBoundCarriesOver(s[0], others, tail);
      ConsSorted(s[0], tail);
      [s[0]] + tail
  }

  /** A sorted list stays sorted behind a name no larger than any of it. */
  lemma ConsSorted(y: string, t: seq<string>)
    requires Sorted(t) && forall k :: 0 <= k < |t| ==> StrLe(y, t[k])
    ensures Sorted([y] + t)
  {
    forall i, j | 0 <= i < j < |[y] + t|
      ensures StrLe(([y] + t)[i], ([y] + t)[j])
    {
      if i > 0 {
        assert ([y] + t)[i] == t[i - 1];
      }
      assert ([y] + t)[j] == t[j - 1];
    }
  }

  /** The head of a sorted list bounds its other names and any name it
      precedes. */
  lemma HeadBoundsOthers(s: seq<string>, x: string)
    requires Sorted(s) && |s| > 0 && StrLe(s[0], x)
    ensures forall j :: 0 <= j < |s[1..] + [x]| ==> StrLe(s[0], (s[1..] + [x])[j])
  {
    var others := s[1..] + [x];
    forall j | 0 <= j < |others|
      ensures StrLe(s[0], others[j])
    {
      if j < |s| - 1 {
        assert others[j] == s[j + 1];
      }
    }
  }

  /** A lower bound of every name in `a` bounds every name of a list with
      the same names. */
  lemma LowerBoundCarriesOver(y: string, a: seq<string>, b: seq<string>)
    requires multiset(b) == multiset(a) && forall j :: 0 <= j < |a| ==> StrLe(y, a[j])
    ensures forall k :: 0 <= k < |b| ==> StrLe(y, b[k])
  {
    forall k | 0 <= k < |b|
      ensures StrLe(y, b[k])
    {
      assert b[k] in multiset(a);
      var m :| 0 <= m < |a| && a[m] == b[k];
    }
  }

  /** `sort_unstable` on the names: a sorted permutation. */
  function Sort(s: seq<string>): (r: seq<string>)
    ensures Sorted(r) && multiset(r) == multiset(s)
  {
    if s == [] then []
    else
      assert s == [s[0]] + s[1..];
      Insert(s[0], Sort(s[1..]))
  }

  // ---------------------------------------------------------------------
  // Duplicates

  /** Some name occurs twice. */
  predicate HasDuplicate(s: seq<string>) {
    exists i, j :: 0 <= i < j < |s| && s[i] == s[j]
  }

  /** Two neighbours are equal. */
  predicate HasAdjacentDuplicate(s: seq<string>) {
    exists k :: 0 <= k < |s| - 1 && s[k] == s[k + 1]
  }

  /** Position `k` holds the first name equal to its successor. */
  predicate FirstAdjacentDuplicate(s: seq<string>, k: int) {
    0 <= k < |s| - 1 && s[k] == s[k + 1] && forall j :: 0 <= j < k ==> s[j] != s[j + 1]
  }

  /** `get_first_duplicate`: walks the list with a peekable iterator and
      returns the first name equal to its successor. */
  method GetFirstDuplicate(list: seq<string>) returns (r: Option<string>)
    ensures r.Some? <==> HasAdjacentDuplicate(list)
    ensures r.Some? ==> exists k :: FirstAdjacentDuplicate(list, k) && r.value == list[k]
  {
    var k := 0;
    while k < |list|
      invariant k <= |list|
      invariant forall j :: 0 <= j < k && j < |list| - 1 ==> list[j] != list[j + 1]
    {
      var item := list[k];
      k := k + 1;
      if k < |list| {
        if item == list[k] {
          assert FirstAdjacentDuplicate(list, k - 1);
          return Some(item);
        }
      }
    }
    r := None;
  }

  /** In a sorted list equal names are neighbours: a duplicate anywhere
      means a duplicate next to each other. */
  lemma SortedDuplicatesAreAdjacent(s: seq<string>)
    requires Sorted(s)
    ensures HasDuplicate(s) <==> HasAdjacentDuplicate(s)
  {
    if HasDuplicate(s) {
      var i, j :| 0 <= i < j < |s| && s[i] == s[j];
      assert StrLe(s[i], s[i + 1]);
      assert StrLe(s[i + 1], s[j]) by {
        if i + 1 < j {
          assert StrLe(s[i + 1], s[j]);
        } else {
          StrLeTotal(s[j], s[j]);
        }
      }
      StrLeAntisymmetric(s[i], s[i + 1]);
      assert s[i] == s[i + 1];
    }
    if HasAdjacentDuplicate(s) {
      var k :| 0 <= k < |s| - 1 && s[k] == s[k + 1];
      assert 0 <= k < k + 1 < |s|;
    }
  }

  /** Whether a list has a duplicate depends only on its multiset. */
  lemma DuplicateIsPermutationInvariant(s: seq<string>, t: seq<string>)
    requires multiset(s) == multiset(t)
    ensures HasDuplicate(s) ==> HasDuplicate(t)
  {
    if HasDuplicate(s) {
      var i, j :| 0 <= i < j < |s| && s[i] == s[j];
      TwiceCounted(s, i, j);
      CountedTwiceIsDuplicate(t, s[i]);
    }
  }

  /** Two positions holding the same name count it twice. */
  lemma TwiceCounted(s: seq<string>, i: int, j: int)
    requires 0 <= i < j < |s| && s[i] == s[j]
    ensures multiset(s)[s[i]] >= 2
  {
    assert s == s[..i] + [s[i]] + s[i + 1..j] + [s[j]] + s[j + 1..];
  }

  /** A name counted twice occurs at two positions. */
  lemma CountedTwiceIsDuplicate(t: seq<string>, x: string)
    requires multiset(t)[x] >= 2
    ensures HasDuplicate(t)
  {
    assert x in multiset(t);
    var a :| 0 <= a < |t| && t[a] == x;
    var without := t[..a] + t[a + 1..];
    assert t == t[..a] + [x] + t[a + 1..];
    assert multiset(without)[x] >= 1;
    var b :| 0 <= b < |without| && without[b] == x;
    if b < a {
      assert t[b] == x;
    } else {
      assert t[b + 1] == x;
    }
  }

  /** Equal neighbours are two occurrences of the same name. */
  lemma AdjacentDuplicateCountsTwice(s: seq<string>, k: int)
    requires 0 <= k < |s| - 1 && s[k] == s[k + 1]
    ensures multiset(s)[s[k]] >= 2
  {
    assert s == s[..k] + [s[k], s[k]] + s[k + 2..];
  }

  function DuplicateParameter(name: string, span: Tokens.Span): Error {
    Errors.SyntaxErrorOf("Found duplicate parameter '" + name + "', duplicates not allowed here", span)
  }

  /** `validate_unique_formal_parameters`: fails exactly when some name is
      bound twice by the parameter list, naming such a name and reporting
      the whole parameter list. */
  method ValidateUniqueFormalParameters(params: Syntax.FormalParameters) returns (r: Result<(), Error>)
    ensures r.Ok? <==> !HasDuplicate(GetBoundNames(params))
    ensures r.Err? ==> exists name :: multiset(GetBoundNames(params))[name] >= 2
                                     && r.error == DuplicateParameter(name, params.span)
  {
    var boundNames := GetBoundNames(params);
    var sorted := Sort(boundNames);
    var firstDuplicate := GetFirstDuplicate(sorted);
    SortedDuplicatesAreAdjacent(sorted);
    DuplicateIsPermutationInvariant(boundNames, sorted);
    DuplicateIsPermutationInvariant(sorted, boundNames);
    if firstDuplicate.Some? {
      var duplicate := firstDuplicate.value;
      var k :| FirstAdjacentDuplicate(sorted, k) && duplicate == sorted[k];
      AdjacentDuplicateCountsTwice(sorted, k);
      assert multiset(boundNames)[duplicate] >= 2;
      return Err(DuplicateParameter(duplicate, params.span));
    }
    r := Ok(());
  }
}
