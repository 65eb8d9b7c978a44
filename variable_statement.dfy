/** The variable statement parser of the parser's first revision: a
    variable statement holds one declaration, whose binding is an
    identifier or an object pattern listing identifiers. Its own tree
    types are declared here. The token reader of that revision yields
    tokens and cannot fail; reading past the last token, and every
    construct the revision leaves unimplemented, make it give up. */
module VariableStatement {
  import opened Wrappers
  import Tokens
  import Ast

  datatype VariableType = Const | Let | Var

  datatype BindingIdentifier = Ident(ident: Ast.Ident)

  datatype BindingProperty = Single(binding: BindingIdentifier)

  datatype BindingPattern = IdentBinding(identifier: BindingIdentifier) | Object(properties: seq<BindingProperty>)

  datatype VariableDeclaration = VariableDeclaration(identifier: BindingPattern)

  datatype Stmt = VariableStmt(variableType: VariableType, declarations: seq<VariableDeclaration>)

  /** What a routine yields and where it leaves the reader, or `GivesUp`
      where the source panics (`unimplemented!`, a failed `expect`, a read
      past the last token). */
  datatype Outcome<+T> = Parsed(value: T, next: nat) | GivesUp

  const ObjectOpen := Tokens.PunctValue(Tokens.BracketOpen)
  const ObjectClose := Tokens.PunctValue(Tokens.BracketClose)

  /** The identifier an identifier token stands for. */
  function IdentOf(token: Tokens.Token): (r: Ast.Ident)
    requires token.value.Identifier?
    ensures r.name == token.value.name && r.span == token.span
  {
    Ast.TryFrom(token).value
  }

  // ---------------------------------------------------------------------
  // Specification

  /** `parse_object_property_binding`, after `{`, with the properties
      read so far: identifiers up to `}`. */
  function ObjectPropertyBindingAt(tokens: seq<Tokens.Token>, i: nat, props: seq<BindingProperty>)
    : (r: Outcome<BindingPattern>)
    requires i <= |tokens|
    ensures r.Parsed? ==> i < r.next <= |tokens| && r.value.Object?
    decreases |tokens| - i
  {
    if i == |tokens| then GivesUp
    else
      var token := tokens[i];
      if token.value == ObjectClose then Parsed(Object(props), i + 1)
      else if token.value.Identifier? then ObjectPropertyBindingAt(tokens, i + 1, props + [Single(Ident(IdentOf(token)))])
      else GivesUp
  }

  /** The object binding ends at the first `}`, every token before it is an
      identifier, and the properties are the ones read so far followed by
      those identifiers in order. */
  lemma {:induction false} ObjectPropertyBindingShape(tokens: seq<Tokens.Token>, i: nat, props: seq<BindingProperty>)
    requires i <= |tokens| && ObjectPropertyBindingAt(tokens, i, props).Parsed?
    ensures var r := ObjectPropertyBindingAt(tokens, i, props);
            tokens[r.next - 1].value == ObjectClose
            && (forall k :: i <= k < r.next - 1 ==> tokens[k].value.Identifier?)
            && |r.value.properties| == |props| + (r.next - 1 - i)
            && r.value.properties[..|props|] == props
            && (forall k :: i <= k < r.next - 1 ==>
                  r.value.properties[|props| + k - i] == Single(Ident(IdentOf(tokens[k]))))
    decreases |tokens| - i
  {
    var token := tokens[i];
    if token.value != ObjectClose {
      var extended := props + [Single(Ident(IdentOf(token)))];
      ObjectPropertyBindingShape(tokens, i + 1, extended);
      var r := ObjectPropertyBindingAt(tokens, i + 1, extended);
      assert r.value.properties[..|props|] == extended[..|props|];
    }
  }

  /** Conversely, a `}` preceded only by identifiers always completes the
      object binding. */
  lemma {:induction false} ObjectPropertyBindingCompletes(tokens: seq<Tokens.Token>, i: nat, j: nat, props: seq<BindingProperty>)
    requires i <= j < |tokens| && tokens[j].value == ObjectClose
    requires forall k :: i <= k < j ==> tokens[k].value.Identifier?
    ensures ObjectPropertyBindingAt(tokens, i, props).Parsed?
    decreases j - i
  {
    if i < j {
      ObjectPropertyBindingCompletes(tokens, i + 1, j, props + [Single(Ident(IdentOf(tokens[i])))]);
    }
  }

  /** `parse_variable_declaration`: an identifier token, or `{` starting
      an object binding; nothing else is implemented. */
  function VariableDeclarationAt(tokens: seq<Tokens.Token>, i: nat): (r: Outcome<VariableDeclaration>)
    requires i <= |tokens|
    ensures r.Parsed? ==> i < r.next <= |tokens|
    ensures r.Parsed? && r.value.identifier.IdentBinding? ==>
              tokens[i].value.Identifier? && r.next == i + 1
              && r.value.identifier.identifier.ident == IdentOf(tokens[i])
    ensures r.Parsed? && r.value.identifier.Object? ==> tokens[i].value == ObjectOpen
    ensures i < |tokens| && tokens[i].value.Identifier? ==> r.Parsed?
  {
    if i == |tokens| then GivesUp
    else
      var token := tokens[i];
      if token.value.Identifier? then Parsed(VariableDeclaration(IdentBinding(Ident(IdentOf(token)))), i + 1)
      else if token.value == ObjectOpen then
        match ObjectPropertyBindingAt(tokens, i + 1, [])
        case Parsed(pattern, next) => Parsed(VariableDeclaration(pattern), next)
        case GivesUp => GivesUp
      else GivesUp
  }

  /** `parse_variable_statement`: a statement of the given type with one
      declaration. */
  function VariableStatementAt(tokens: seq<Tokens.Token>, i: nat, variableType: VariableType): (r: Outcome<Stmt>)
    requires i <= |tokens|
    ensures r.Parsed? <==> VariableDeclarationAt(tokens, i).Parsed?
    ensures r.Parsed? ==>
              r.value == VariableStmt(variableType, [VariableDeclarationAt(tokens, i).value])
              && r.next == VariableDeclarationAt(tokens, i).next
  {
    match VariableDeclarationAt(tokens, i)
    case Parsed(declaration, next) => Parsed(VariableStmt(variableType, [declaration]), next)
    case GivesUp => GivesUp
  }

  // ---------------------------------------------------------------------
  // The parser object

  /** The parser of that revision: the tokens after the statement keyword
      and the reader's index. */
  class StatementParser {
    const tokens: seq<Tokens.Token>
    var index: nat

    ghost predicate Valid()
      reads this
    {
      index <= |tokens|
    }

    constructor (tokens: seq<Tokens.Token>)
      ensures Valid() && this.tokens == tokens && index == 0
    {
      this.tokens := tokens;
      index := 0;
    }

    /** `Reader::next`: the next token; it must exist. */
    method Next() returns (token: Tokens.Token)
      requires Valid() && index < |tokens|
      modifies this`index
      ensures Valid() && index == old(index) + 1 && token == tokens[old(index)]
    {
      token := tokens[index];
      index := index + 1;
    }

    method ParseVariableStatement(variableType: VariableType) returns (r: Stmt)
      requires Valid() && VariableStatementAt(tokens, index, variableType).Parsed?
      modifies this`index
      ensures Valid() && VariableStatementAt(tokens, old(index), variableType) == Parsed(r, index)
    {
      var declaration := ParseVariableDeclaration();
      r := VariableStmt(variableType, [declaration]);
    }

    method ParseVariableDeclaration() returns (r: VariableDeclaration)
      requires Valid() && VariableDeclarationAt(tokens, index).Parsed?
      modifies this`index
      ensures Valid() && VariableDeclarationAt(tokens, old(index)) == Parsed(r, index)
    {
      var token := Next();
      var identifier: BindingPattern;
      if token.value.Identifier? {
        identifier := IdentBinding(Ident(IdentOf(token)));
      } else if token.value == ObjectOpen {
        identifier := ParseObjectPropertyBinding();
      } else {
        assert false;
      }
      r := VariableDeclaration(identifier);
    }

    method ParseObjectPropertyBinding() returns (r: BindingPattern)
      requires Valid() && ObjectPropertyBindingAt(tokens, index, []).Parsed?
      modifies this`index
      ensures Valid() && ObjectPropertyBindingAt(tokens, old(index), []) == Parsed(r, index)
    {
      ghost var start := index;
      var bindings: seq<BindingProperty> := [];
      while true
        invariant Valid() && start <= index
        invariant ObjectPropertyBindingAt(tokens, index, bindings) == ObjectPropertyBindingAt(tokens, start, [])
        decreases |tokens| - index
      {
        var token := Next();
        if token.value == ObjectClose {
          break;
        } else if token.value.Identifier? {
          bindings := bindings + [Single(Ident(IdentOf(token)))];
        } else {
          assert false;
        }
      }
      r := Object(bindings);
    }
  }

  // ---------------------------------------------------------------------
  // The revision's own test cases

  /** `var foo = 1;`: the declaration binds `foo`, spanning 4 to 7. */
  lemma VarIdentifierExample(foo: Tokens.Token, rest: seq<Tokens.Token>)
    requires foo == Tokens.Token(Tokens.Identifier("foo"), false, Tokens.Span(4, 7))
    ensures VariableStatementAt([foo] + rest, 0, Var)
            == Parsed(VariableStmt(Var, [VariableDeclaration(IdentBinding(Ident(Ast.Ident(Tokens.Span(4, 7), "foo"))))]), 1)
  {
  }

  /** `var {} = 1;`: an empty object binding. */
  lemma VarEmptyObjectExample(open: Tokens.Token, close: Tokens.Token, rest: seq<Tokens.Token>)
    requires open.value == ObjectOpen && close.value == ObjectClose
    ensures VariableStatementAt([open, close] + rest, 0, Var)
            == Parsed(VariableStmt(Var, [VariableDeclaration(Object([]))]), 2)
  {
    assert ObjectPropertyBindingAt([open, close] + rest, 1, []) == Parsed(Object([]), 2);
  }

  /** `var { a } = b;`: an object binding of `a`, spanning 6 to 7. */
  lemma VarSingleObjectExample(open: Tokens.Token, a: Tokens.Token, close: Tokens.Token, rest: seq<Tokens.Token>)
    requires open.value == ObjectOpen && close.value == ObjectClose
    requires a == Tokens.Token(Tokens.Identifier("a"), false, Tokens.Span(6, 7))
    ensures VariableStatementAt([open, a, close] + rest, 0, Var)
            == Parsed(VariableStmt(Var, [VariableDeclaration(Object([Single(Ident(Ast.Ident(Tokens.Span(6, 7), "a")))]))]), 3)
  {
    var tokens := [open, a, close] + rest;
    var prop := Single(Ident(Ast.Ident(Tokens.Span(6, 7), "a")));
    assert [] + [prop] == [prop];
    assert ObjectPropertyBindingAt(tokens, 2, [prop]) == Parsed(Object([prop]), 3);
  }
}
