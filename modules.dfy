/** Import and export declarations of ECMAScript modules (sections 16.2.2
    and 16.2.3 of ECMA-262): their dispatch on the token after `export`,
    namespace and named exports, the forms of an import clause, module
    specifiers and the `{ ... }` lists of import and export specifiers. */
module Modules {
  import opened Wrappers
  import Tokens
  import Ast
  import Errors
  import Syntax
  import opened ParserCore
  import Bindings

  const ExportKeyword := Tokens.KeywordValue(Tokens.Export)
  const ImportKeyword := Tokens.KeywordValue(Tokens.Import)
  const FromKeyword := Tokens.KeywordValue(Tokens.From)
  const AsKeyword := Tokens.KeywordValue(Tokens.As)
  const DefaultKeyword := Tokens.KeywordValue(Tokens.Default)
  const ClassKeyword := Tokens.KeywordValue(Tokens.Class)
  const FunctionKeyword := Tokens.KeywordValue(Tokens.Function)
  const AsyncKeyword := Tokens.KeywordValue(Tokens.Async)
  const Star := Tokens.PunctValue(Tokens.Star)

  /** The token at `i` consumed and reported as unexpected (`err!`, with
      no span), or the error of reading it. */
  function UnexpectedAt<T>(items: seq<Item>, i: nat): (r: Step<T>)
    requires i <= |items|
    ensures r.Done? && r.result.Err? && r.next == (if i < |items| then i + 1 else i)
    ensures CurrentAt(items, i).Ok? ==> r.result.error == Bindings.UnexpectedToken(items[i].token)
    ensures CurrentAt(items, i).Err? ==> r.result.error == CurrentAt(items, i).error
  {
    var token :- ConsumeAt(items, i);
    Done(Err(Bindings.UnexpectedToken(token.value)), token.next)
  }

  /** `as` followed by an identifier, or nothing when `as` is absent. */
  function OptionalAliasAt(items: seq<Item>, ctx: Context, i: nat): (r: Step<Option<Ast.Ident>>)
    requires i <= |items|
    ensures r.Done? && r.Within(i, |items|)
    ensures !CurrentMatches(items, i, AsKeyword) ==> r == Done(Ok(None), i)
    ensures CurrentMatches(items, i, AsKeyword) ==>
              r == MapStep(ParseIdentifierAt(items, i + 1, ctx), (id: Ast.Ident) => Some(id))
  {
    var keyword := MaybeConsumeAt(items, i, AsKeyword);
    ThenTryStep(keyword.result.value, keyword.next, ParseIdentifierAt(items, keyword.next, ctx))
  }

  // ---------------------------------------------------------------------
  // Specification: module specifiers and specifier lists

  /** `parse_module_specifier`: a literal that must be a string literal; its
      text is the module name. Any other expression is where the source
      unwraps and gives up. */
  function ModuleSpecifierAt(items: seq<Item>, sub: SubParsers, ctx: Context, i: nat): (r: Step<string>)
    requires sub.Valid() && i <= |items|
    ensures r.Within(i, |items|)
    ensures r.Ok() ==>
              var literal := sub.literal(items, i, ctx);
              literal.Ok() && r.next == literal.next
              && literal.result.value.LiteralExpr? && literal.result.value.literal.StringLiteral?
              && r.result.value == literal.result.value.literal.str.value
    ensures var literal := sub.literal(items, i, ctx);
            literal.Ok() && !(literal.result.value.LiteralExpr? && literal.result.value.literal.StringLiteral?) ==>
              r.Unsupported?
  {
    var literal :- sub.literal(items, i, ctx);
    if literal.value.LiteralExpr? && literal.value.literal.StringLiteral? then
      Done(Ok(literal.value.literal.str.value), literal.next)
    else Unsupported
  }

  /** `parse_import_specifier`: a name and an optional `as` alias. */
  function ImportSpecifierAt(items: seq<Item>, ctx: Context, i: nat): (r: Step<Syntax.NamedImport>)
    requires i <= |items|
    ensures r.Done? && r.Within(i, |items|)
    ensures r.Ok() ==>
              ParseIdentifierAt(items, i, ctx) == Done(Ok(r.result.value.name), i + 1)
              && (r.result.value.alias.None? <==> !CurrentMatches(items, i + 1, AsKeyword))
              && (r.result.value.alias.Some? ==>
                    ParseIdentifierAt(items, i + 2, ctx) == Done(Ok(r.result.value.alias.value), i + 3))
              && r.result.value.span == Tokens.Span(items[i].token.span.start, ReaderPosition(items, r.next))
  {
    var spanStart := PositionAt(items, i);
    var name :- ParseIdentifierAt(items, i, ctx);
    var alias :- OptionalAliasAt(items, ctx, name.next);
    Done(Ok(Syntax.NamedImport(SpanFrom(items, alias.next, spanStart), name.value, alias.value)), alias.next)
  }

  /** `parse_export_specifier`: with `a as b` the exported name is `b` and
      `a` is what it is an alias of; without `as` the name is `a`. */
  function ExportSpecifierAt(items: seq<Item>, ctx: Context, i: nat): (r: Step<Syntax.NamedExport>)
    requires i <= |items|
    ensures r.Done? && r.Within(i, |items|)
    ensures r.Ok() ==> i < |items| && (r.result.value.aliasOf.Some? <==> CurrentMatches(items, i + 1, AsKeyword))
    ensures r.Ok() && r.result.value.aliasOf.None? ==>
              ParseIdentifierAt(items, i, ctx) == Done(Ok(r.result.value.name), i + 1) && r.next == i + 1
    ensures r.Ok() && r.result.value.aliasOf.Some? ==>
              ParseIdentifierAt(items, i, ctx) == Done(Ok(r.result.value.aliasOf.value), i + 1)
              && ParseIdentifierAt(items, i + 2, ctx) == Done(Ok(r.result.value.name), i + 3)
              && r.next == i + 3
    ensures r.Ok() ==> r.result.value.span == Tokens.Span(items[i].token.span.start, ReaderPosition(items, r.next))
  {
    var spanStart := PositionAt(items, i);
    var name :- ParseIdentifierAt(items, i, ctx);
    var alias :- OptionalAliasAt(items, ctx, name.next);
    var span := SpanFrom(items, alias.next, spanStart);
    match alias.value
    case Some(exported) => Done(Ok(Syntax.NamedExport(span, exported, Some(name.value))), alias.next)
    case None => Done(Ok(Syntax.NamedExport(span, name.value, None)), alias.next)
  }

  /** One import specifier of a list and the `,` or `}` after it; a
      `}` is left for the loop to consume. */
  function NamedImportItemAt(items: seq<Item>, ctx: Context, i: nat): (r: Step<Syntax.NamedImport>)
    requires i <= |items|
    ensures r.Done? && r.Within(i, |items|)
    ensures r.Ok() ==> i < r.next
    ensures r.Ok() ==>
              var specifier := ImportSpecifierAt(items, ctx, i);
              specifier.Ok() && r.result.value == specifier.result.value
              && ConsumeListDelimiterAt(items, specifier.next, ObjectEnd) == Done(Ok(()), r.next)
  {
    var specifier :- ImportSpecifierAt(items, ctx, i);
    var delimiter :- ConsumeListDelimiterAt(items, specifier.next, ObjectEnd);
    Done(Ok(specifier.value), delimiter.next)
  }

  /** The loop of `parse_named_imports`, after `{`: specifiers, each
      followed by `,` or `}`, until `}`, which is consumed. */
  function NamedImportsLoopAt(items: seq<Item>, ctx: Context, i: nat, acc: seq<Syntax.NamedImport>)
    : (r: Step<seq<Syntax.NamedImport>>)
    requires i <= |items|
    ensures r.Done? && r.Within(i, |items|)
    ensures r.Ok() ==> i < r.next
    decreases |items| - i
  {
    if CurrentMatches(items, i, ObjectEnd) then Done(Ok(acc), i + 1)
    else
      var specifier :- NamedImportItemAt(items, ctx, i);
      NamedImportsLoopAt(items, ctx, specifier.next, acc + [specifier.value])
  }

  /** One export specifier of a list and the `,` or `}` after it; a
      `}` is left for the loop to consume. */
  function NamedExportItemAt(items: seq<Item>, ctx: Context, i: nat): (r: Step<Syntax.NamedExport>)
    requires i <= |items|
    ensures r.Done? && r.Within(i, |items|)
    ensures r.Ok() ==> i < r.next
    ensures r.Ok() ==>
              var specifier := ExportSpecifierAt(items, ctx, i);
              specifier.Ok() && r.result.value == specifier.result.value
              && ConsumeListDelimiterAt(items, specifier.next, ObjectEnd) == Done(Ok(()), r.next)
  {
    var specifier :- ExportSpecifierAt(items, ctx, i);
    var delimiter :- ConsumeListDelimiterAt(items, specifier.next, ObjectEnd);
    Done(Ok(specifier.value), delimiter.next)
  }

  /** The loop of `parse_named_exports`, after `{`. */
  function NamedExportsLoopAt(items: seq<Item>, ctx: Context, i: nat, acc: seq<Syntax.NamedExport>)
    : (r: Step<seq<Syntax.NamedExport>>)
    requires i <= |items|
    ensures r.Done? && r.Within(i, |items|)
    ensures r.Ok() ==> i < r.next
    decreases |items| - i
  {
    if CurrentMatches(items, i, ObjectEnd) then Done(Ok(acc), i + 1)
    else
      var specifier :- NamedExportItemAt(items, ctx, i);
      NamedExportsLoopAt(items, ctx, specifier.next, acc + [specifier.value])
  }

  /** `parse_named_imports`: `{`, then the list. */
  function NamedImportsAt(items: seq<Item>, ctx: Context, i: nat): (r: Step<seq<Syntax.NamedImport>>)
    requires i <= |items|
    ensures r.Done? && r.Within(i, |items|)
    ensures r.Ok() ==>
              CurrentMatches(items, i, Bindings.ObjectOpen) && NamedImportsLoopAt(items, ctx, i + 1, []) == r
  {
    var open :- ConsumeAssertAt(items, i, Bindings.ObjectOpen);
    NamedImportsLoopAt(items, ctx, open.next, [])
  }

  /** `parse_named_exports`: `{`, then the list. */
  function NamedExportsAt(items: seq<Item>, ctx: Context, i: nat): (r: Step<seq<Syntax.NamedExport>>)
    requires i <= |items|
    ensures r.Done? && r.Within(i, |items|)
    ensures r.Ok() ==>
              CurrentMatches(items, i, Bindings.ObjectOpen) && NamedExportsLoopAt(items, ctx, i + 1, []) == r
  {
    var open :- ConsumeAssertAt(items, i, Bindings.ObjectOpen);
    NamedExportsLoopAt(items, ctx, open.next, [])
  }

  // ---------------------------------------------------------------------
  // Specification: import declarations

  /** `parse_namespace_import`: `* as name`. */
  function NamespaceImportAt(items: seq<Item>, ctx: Context, i: nat): (r: Step<Ast.Ident>)
    requires i <= |items|
    ensures r.Done? && r.Within(i, |items|)
    ensures r.Ok() <==>
              CurrentMatches(items, i, Star) && CurrentMatches(items, i + 1, AsKeyword) && IsIdentifierAt(items, i + 2, ctx)
    ensures r.Ok() ==> ParseIdentifierAt(items, i + 2, ctx) == r
  {
    var star :- ConsumeAssertAt(items, i, Star);
    var keyword :- ConsumeAssertAt(items, star.next, AsKeyword);
    ParseIdentifierAt(items, keyword.next, ctx)
  }

  /** The bindings an import clause must have after a missing default
      binding or after `,`: a namespace import at `*`, named imports at
      `{`, and otherwise the token is consumed and reported. */
  function ImportBindingsAt(items: seq<Item>, ctx: Context, i: nat)
    : (r: Step<(Option<seq<Syntax.NamedImport>>, Option<Ast.Ident>)>)
    requires i <= |items|
    ensures r.Done? && r.Within(i, |items|)
    ensures CurrentMatches(items, i, Star) ==>
              r == MapStep(NamespaceImportAt(items, ctx, i),
                           (id: Ast.Ident) => (None, Some(id)))
    ensures CurrentMatches(items, i, Bindings.ObjectOpen) ==>
              r == MapStep(NamedImportsAt(items, ctx, i),
                           (named: seq<Syntax.NamedImport>) => (Some(named), None))
    ensures !CurrentMatches(items, i, Star) && !CurrentMatches(items, i, Bindings.ObjectOpen) ==> r == UnexpectedAt(items, i)
  {
    if CurrentMatches(items, i, Star) then
      MapStep(NamespaceImportAt(items, ctx, i), (id: Ast.Ident) => (None, Some(id)))
    else if CurrentMatches(items, i, Bindings.ObjectOpen) then
      MapStep(NamedImportsAt(items, ctx, i), (named: seq<Syntax.NamedImport>) => (Some(named), None))
    else UnexpectedAt(items, i)
  }

  /** The rest of an import clause after its optional default binding: a
      namespace import or named imports, required when there is no default
      binding and after `,`; nothing when the default binding stands
      alone. */
  function ImportClauseRestAt(items: seq<Item>, ctx: Context, i: nat, defaultBinding: Option<Ast.Ident>)
    : (r: Step<(Option<Ast.Ident>, Option<seq<Syntax.NamedImport>>, Option<Ast.Ident>)>)
    requires i <= |items|
    ensures r.Done? && r.Within(i, |items|)
    ensures r.Ok() ==> r.result.value.0 == defaultBinding
    ensures var required := defaultBinding.None? || CurrentMatches(items, i, Comma);
            var at := if defaultBinding.None? then i else i + 1;
            (required ==> r == MapStep(ImportBindingsAt(items, ctx, at),
                                       (b: (Option<seq<Syntax.NamedImport>>, Option<Ast.Ident>)) => (defaultBinding, b.0, b.1)))
            && (!required ==> r == Done(Ok((defaultBinding, None, None)), i))
  {
    var comma := if defaultBinding.None? then Done(Ok(true), i) else MaybeConsumeAt(items, i, Comma);
    if comma.result.value then
      MapStep(ImportBindingsAt(items, ctx, comma.next),
              (b: (Option<seq<Syntax.NamedImport>>, Option<Ast.Ident>)) => (defaultBinding, b.0, b.1))
    else Done(Ok((defaultBinding, None, None)), comma.next)
  }

  /** The bindings of an import clause: an optional default binding, then
      the rest. */
  function ImportClauseAt(items: seq<Item>, ctx: Context, i: nat)
    : (r: Step<(Option<Ast.Ident>, Option<seq<Syntax.NamedImport>>, Option<Ast.Ident>)>)
    requires i <= |items|
    ensures r.Done? && r.Within(i, |items|)
    ensures var default := ParseOptionalIdentifierAt(items, i, ctx);
            r == ImportClauseRestAt(items, ctx, default.next, default.result.value)
            && (default.result.value.Some? <==> IsIdentifierAt(items, i, ctx))
  {
    var default := ParseOptionalIdentifierAt(items, i, ctx);
    ImportClauseRestAt(items, ctx, default.next, default.result.value)
  }

  /** A clause without a default binding and one whose default binding is
      not followed by `,` are the two cases the source tells apart: the
      first always has a namespace import or named imports, the second
      never does. */
  lemma ImportClauseShape(items: seq<Item>, ctx: Context, i: nat)
    requires i <= |items|
    requires ImportClauseAt(items, ctx, i).Ok()
    ensures var clause := ImportClauseAt(items, ctx, i).result.value;
            var standsAlone := clause.0.Some? && !CurrentMatches(items, i + 1, Comma);
            (clause.1.Some? || clause.2.Some?) <==> !standsAlone
  {
    var default := ParseOptionalIdentifierAt(items, i, ctx);
    var rest := ImportClauseRestAt(items, ctx, default.next, default.result.value);
    if default.result.value.None? || CurrentMatches(items, default.next, Comma) {
      var at := if default.result.value.None? then default.next else default.next + 1;
      var bindings := ImportBindingsAt(items, ctx, at);
      assert bindings.Ok();
      if CurrentMatches(items, at, Star) {
        assert bindings.result.value.1.Some?;
      } else {
        assert CurrentMatches(items, at, Bindings.ObjectOpen);
        assert bindings.result.value.0.Some?;
      }
    }
  }

  /** The end of an import declaration: the module specifier and an
      optional `;`. */
  function ImportSourceAt(items: seq<Item>, sub: SubParsers, ctx: Context, i: nat, spanStart: nat,
                          defaultBinding: Option<Ast.Ident>, namedImports: Option<seq<Syntax.NamedImport>>,
                          namespaceBinding: Option<Ast.Ident>)
    : (r: Step<Syntax.Stmt>)
    requires sub.Valid() && i <= |items|
    ensures r.Within(i, |items|)
    ensures r.Ok() ==>
              r.result.value.Import?
              && var decl := r.result.value.importDecl;
              decl.defaultBinding == defaultBinding && decl.namedImports == namedImports
              && decl.namespaceBinding == namespaceBinding
              && var from := ModuleSpecifierAt(items, sub, ctx, i);
              from.Ok() && decl.from == from.result.value
              && sub.optionalSemicolon(items, from.next, ctx).Ok() && sub.optionalSemicolon(items, from.next, ctx).next == r.next
              && decl.span == Tokens.Span(spanStart, ReaderPosition(items, r.next))
  {
    var from :- ModuleSpecifierAt(items, sub, ctx, i);
    var semicolon :- sub.optionalSemicolon(items, from.next, ctx);
    var decl := Syntax.DeclImport(SpanFrom(items, semicolon.next, spanStart), defaultBinding, namespaceBinding,
                                  namedImports, from.value);
    Done(Ok(Syntax.Import(decl)), semicolon.next)
  }

  /** `parse_import_declaration`: `import` followed directly by a module
      specifier imports nothing; otherwise an import clause and a
      mandatory `from`. */
  function ImportDeclarationAt(items: seq<Item>, sub: SubParsers, ctx: Context, i: nat): (r: Step<Syntax.Stmt>)
    requires sub.Valid() && i <= |items|
    ensures r.Within(i, |items|)
    ensures r.Ok() ==> CurrentMatches(items, i, ImportKeyword) && r.result.value.Import?
    ensures r.Ok() && CurrentMatchesStringLiteral(items, i + 1) ==>
              ImportSourceAt(items, sub, ctx, i + 1, items[i].token.span.start, None, None, None) == r
    ensures r.Ok() && !CurrentMatchesStringLiteral(items, i + 1) ==>
              var clause := ImportClauseAt(items, ctx, i + 1);
              clause.Ok() && CurrentMatches(items, clause.next, FromKeyword)
              && ImportSourceAt(items, sub, ctx, clause.next + 1, items[i].token.span.start,
                                clause.result.value.0, clause.result.value.1, clause.result.value.2) == r
  {
    var spanStart := PositionAt(items, i);
    var keyword :- ConsumeAssertAt(items, i, ImportKeyword);
    if CurrentMatchesStringLiteral(items, keyword.next) then
      ImportSourceAt(items, sub, ctx, keyword.next, spanStart, None, None, None)
    else
      var clause :- ImportClauseAt(items, ctx, keyword.next);
      var from :- ConsumeAssertAt(items, clause.next, FromKeyword);
      ImportSourceAt(items, sub, ctx, from.next, spanStart, clause.value.0, clause.value.1, clause.value.2)
  }

  // ---------------------------------------------------------------------
  // Specification: export declarations

  /** `parse_var_decl_export`: a variable statement of the given kind. */
  function VarDeclExportAt(items: seq<Item>, sub: SubParsers, ctx: Context, i: nat, spanStart: nat,
                           kind: Syntax.VariableKind)
    : (r: Step<Syntax.Stmt>)
    requires sub.Valid() && i <= |items|
    ensures r.Within(i, |items|)
    ensures r.Ok() ==>
              r.result.value.Export? && r.result.value.exportDecl.ExportDecl?
              && sub.variableStmt(items, i, ctx, kind) == Done(Ok(r.result.value.exportDecl.decl), r.next)
              && r.result.value.exportDecl.declSpan == Tokens.Span(spanStart, ReaderPosition(items, r.next))
  {
    var decl :- sub.variableStmt(items, i, ctx, kind);
    Done(Ok(Syntax.Export(Syntax.ExportDecl(SpanFrom(items, decl.next, spanStart), decl.value))), decl.next)
  }

  /** `parse_default_export`: after `default` and a current token every
      form is unsupported by the source. */
  function DefaultExportAt(items: seq<Item>, i: nat): (r: Step<Syntax.Stmt>)
    requires i <= |items|
    ensures r.Done? ==> r.result.Err?
    ensures r.Done? <==> !CurrentMatches(items, i, DefaultKeyword) || CurrentAt(items, i + 1).Err?
  {
    var keyword :- ConsumeAssertAt(items, i, DefaultKeyword);
    var current :- CurrentStep(items, keyword.next);
    Unsupported
  }

  /** `parse_namespace_export`: `*`, an optional `as name`, then `from` and
      a module specifier. */
  function NamespaceExportAt(items: seq<Item>, sub: SubParsers, ctx: Context, i: nat, spanStart: nat)
    : (r: Step<Syntax.Stmt>)
    requires sub.Valid() && i <= |items|
    ensures r.Within(i, |items|)
    ensures r.Ok() ==>
              CurrentMatches(items, i, Star)
              && r.result.value.Export? && r.result.value.exportDecl.ExportNamespace?
              && var alias := OptionalAliasAt(items, ctx, i + 1);
              alias.Ok() && r.result.value.exportDecl.alias == alias.result.value
              && CurrentMatches(items, alias.next, FromKeyword)
              && var from := ModuleSpecifierAt(items, sub, ctx, alias.next + 1);
              from == Done(Ok(r.result.value.exportDecl.namespaceFrom), r.next)
              && r.result.value.exportDecl.namespaceSpan == Tokens.Span(spanStart, ReaderPosition(items, r.next))
  {
    var star :- ConsumeAssertAt(items, i, Star);
    var alias :- OptionalAliasAt(items, ctx, star.next);
    var keyword :- ConsumeAssertAt(items, alias.next, FromKeyword);
    var from :- ModuleSpecifierAt(items, sub, ctx, keyword.next);
    Done(Ok(Syntax.Export(Syntax.ExportNamespace(SpanFrom(items, from.next, spanStart), alias.value, from.value))),
         from.next)
  }

  /** `parse_named_export`: the named exports, then an optional `from` and
      module specifier. */
  function NamedExportAt(items: seq<Item>, sub: SubParsers, ctx: Context, i: nat, spanStart: nat)
    : (r: Step<Syntax.Stmt>)
    requires sub.Valid() && i <= |items|
    ensures r.Within(i, |items|)
    ensures r.Ok() ==>
              r.result.value.Export? && r.result.value.exportDecl.ExportNamed?
              && var named := NamedExportsAt(items, ctx, i);
              named.Ok() && r.result.value.exportDecl.namedExports == named.result.value
              && (r.result.value.exportDecl.namedFrom.None? <==> !CurrentMatches(items, named.next, FromKeyword))
              && (r.result.value.exportDecl.namedFrom.None? ==> r.next == named.next)
              && (r.result.value.exportDecl.namedFrom.Some? ==>
                    ModuleSpecifierAt(items, sub, ctx, named.next + 1)
                    == Done(Ok(r.result.value.exportDecl.namedFrom.value), r.next))
              && r.result.value.exportDecl.namedSpan == Tokens.Span(spanStart, ReaderPosition(items, r.next))
  {
    var named :- NamedExportsAt(items, ctx, i);
    var keyword := MaybeConsumeAt(items, named.next, FromKeyword);
    var from :- ThenTryStep(keyword.result.value, keyword.next, ModuleSpecifierAt(items, sub, ctx, keyword.next));
    Done(Ok(Syntax.Export(Syntax.ExportNamed(SpanFrom(items, from.next, spanStart), named.value, from.value))),
         from.next)
  }

  /** Whether the source leaves the declaration at `i` unimplemented: a
      class, a function, or `async function`. */
  predicate HoistableAt(items: seq<Item>, i: nat)
    requires i <= |items|
  {
    CurrentMatches(items, i, ClassKeyword) || CurrentMatches(items, i, FunctionKeyword)
    || (CurrentMatches(items, i, AsyncKeyword) && PeekMatches(items, i, FunctionKeyword))
  }

  /** What follows `export`. */
  function ExportBodyAt(items: seq<Item>, sub: SubParsers, ctx: Context, i: nat, spanStart: nat): (r: Step<Syntax.Stmt>)
    requires sub.Valid() && i <= |items|
    ensures r.Within(i, |items|)
    ensures CurrentMatches(items, i, Bindings.ObjectOpen) ==> r == NamedExportAt(items, sub, ctx, i, spanStart)
    ensures CurrentMatches(items, i, Star) ==> r == NamespaceExportAt(items, sub, ctx, i, spanStart)
    ensures CurrentAt(items, i).Ok? && VariableKindOf(items[i].token.value).Some? ==>
              r == VarDeclExportAt(items, sub, ctx, i, spanStart, VariableKindOf(items[i].token.value).value)
    ensures HoistableAt(items, i) ==> r.Unsupported?
    ensures CurrentMatches(items, i, DefaultKeyword) ==> r == DefaultExportAt(items, i)
    ensures !CurrentMatches(items, i, Bindings.ObjectOpen) && !CurrentMatches(items, i, Star)
            && !(CurrentAt(items, i).Ok? && VariableKindOf(items[i].token.value).Some?)
            && !HoistableAt(items, i) && !CurrentMatches(items, i, DefaultKeyword) ==>
              r == UnexpectedAt(items, i)
  {
    if CurrentMatches(items, i, Bindings.ObjectOpen) then NamedExportAt(items, sub, ctx, i, spanStart)
    else if CurrentMatches(items, i, Star) then NamespaceExportAt(items, sub, ctx, i, spanStart)
    else if CurrentAt(items, i).Ok? && VariableKindOf(items[i].token.value).Some? then
      VarDeclExportAt(items, sub, ctx, i, spanStart, VariableKindOf(items[i].token.value).value)
    else if HoistableAt(items, i) then Unsupported
    else if CurrentMatches(items, i, DefaultKeyword) then DefaultExportAt(items, i)
    else UnexpectedAt(items, i)
  }

  /** `parse_export_declaration`: `export`, then what follows it. */
  function ExportDeclarationAt(items: seq<Item>, sub: SubParsers, ctx: Context, i: nat): (r: Step<Syntax.Stmt>)
    requires sub.Valid() && i <= |items|
    ensures r.Within(i, |items|)
    ensures r.Ok() ==> CurrentMatches(items, i, ExportKeyword) && r.result.value.Export?
    ensures r.Ok() ==> ExportBodyAt(items, sub, ctx, i + 1, items[i].token.span.start) == r
  {
    var spanStart := PositionAt(items, i);
    var keyword :- ConsumeAssertAt(items, i, ExportKeyword);
    ExportBodyAt(items, sub, ctx, keyword.next, spanStart)
  }

  // ---------------------------------------------------------------------
  // Properties of the specifier lists

  /** The list keeps the specifiers read before it, in order, and ends
      right after a `}`. */
  lemma {:induction false} NamedImportsLoopOrder(items: seq<Item>, ctx: Context, i: nat, acc: seq<Syntax.NamedImport>)
    requires i <= |items| && NamedImportsLoopAt(items, ctx, i, acc).Ok()
    ensures var r := NamedImportsLoopAt(items, ctx, i, acc);
            |acc| <= |r.result.value| && r.result.value[..|acc|] == acc
            && 0 < r.next && CurrentMatches(items, r.next - 1, ObjectEnd)
    decreases |items| - i
  {
    if !CurrentMatches(items, i, ObjectEnd) {
      var specifier := NamedImportItemAt(items, ctx, i);
      var acc' := acc + [specifier.result.value];
      NamedImportsLoopOrder(items, ctx, specifier.next, acc');
      var r := NamedImportsLoopAt(items, ctx, specifier.next, acc');
      assert r.result.value[..|acc|] == r.result.value[..|acc'|][..|acc|];
    }
  }

  /** The same for export specifiers. */
  lemma {:induction false} NamedExportsLoopOrder(items: seq<Item>, ctx: Context, i: nat, acc: seq<Syntax.NamedExport>)
    requires i <= |items| && NamedExportsLoopAt(items, ctx, i, acc).Ok()
    ensures var r := NamedExportsLoopAt(items, ctx, i, acc);
            |acc| <= |r.result.value| && r.result.value[..|acc|] == acc
            && 0 < r.next && CurrentMatches(items, r.next - 1, ObjectEnd)
    decreases |items| - i
  {
    if !CurrentMatches(items, i, ObjectEnd) {
      var specifier := NamedExportItemAt(items, ctx, i);
      var acc' := acc + [specifier.result.value];
      NamedExportsLoopOrder(items, ctx, specifier.next, acc');
      var r := NamedExportsLoopAt(items, ctx, specifier.next, acc');
      assert r.result.value[..|acc|] == r.result.value[..|acc'|][..|acc|];
    }
  }

  /** `{}` is an empty list. */
  lemma EmptyNamedImports(items: seq<Item>, ctx: Context, i: nat)
    requires i + 1 < |items|
    requires CurrentMatches(items, i, Bindings.ObjectOpen) && CurrentMatches(items, i + 1, ObjectEnd)
    ensures NamedImportsAt(items, ctx, i) == Done(Ok([]), i + 2)
  {
  }

  // ---------------------------------------------------------------------
  // The parser's methods

  /** `err!(UnexpectedToken(self.consume()?))`. */
  method ParseUnexpected<T>(p: Parser) returns (r: Result<T, Error>)
    requires p.Valid()
    modifies p`pos
    ensures p.Valid() && UnexpectedAt(p.items, old(p.pos)) == Done(r, p.pos)
  {
    var token := p.Consume();
    if token.Err? {
      return Err(token.error);
    }
    r := Err(Bindings.UnexpectedToken(token.value));
  }

  /** `maybe_consume(as)` and `then_try(parse_identifier)`. */
  method ParseOptionalAlias(p: Parser) returns (r: Result<Option<Ast.Ident>, Error>)
    requires p.Valid()
    modifies p`pos
    ensures p.Valid() && OptionalAliasAt(p.items, p.context, old(p.pos)) == Done(r, p.pos)
  {
    var keyword := p.MaybeConsume(AsKeyword);
    if !keyword.value {
      return Ok(None);
    }
    var alias := p.ParseIdentifier();
    if alias.Err? {
      return Err(alias.error);
    }
    r := Ok(Some(alias.value));
  }

  /** `parse_module_specifier`. */
  method ParseModuleSpecifier(p: Parser) returns (r: Result<string, Error>)
    requires p.Valid() && ModuleSpecifierAt(p.items, p.sub, p.context, p.pos) != Unsupported
    modifies p`pos
    ensures p.Valid() && ModuleSpecifierAt(p.items, p.sub, p.context, old(p.pos)) == Done(r, p.pos)
  {
    var literal := p.Run(p.sub.literal, p.context);
    if literal.Err? {
      return Err(literal.error);
    }
    if !(literal.value.LiteralExpr? && literal.value.literal.StringLiteral?) {
      assert false;
    }
    r := Ok(literal.value.literal.str.value);
  }

  /** `parse_import_specifier`. */
  method ParseImportSpecifier(p: Parser) returns (r: Result<Syntax.NamedImport, Error>)
    requires p.Valid()
    modifies p`pos
    ensures p.Valid() && ImportSpecifierAt(p.items, p.context, old(p.pos)) == Done(r, p.pos)
  {
    var spanStart := PositionAt(p.items, p.pos);
    var name := p.ParseIdentifier();
    if name.Err? {
      return Err(name.error);
    }
    var alias := ParseOptionalAlias(p);
    if alias.Err? {
      return Err(alias.error);
    }
    r := Ok(Syntax.NamedImport(SpanFrom(p.items, p.pos, spanStart), name.value, alias.value));
  }

  /** `parse_export_specifier`: the name and the alias change places when
      there is an alias. */
  method ParseExportSpecifier(p: Parser) returns (r: Result<Syntax.NamedExport, Error>)
    requires p.Valid()
    modifies p`pos
    ensures p.Valid() && ExportSpecifierAt(p.items, p.context, old(p.pos)) == Done(r, p.pos)
  {
    var spanStart := PositionAt(p.items, p.pos);
    var name := p.ParseIdentifier();
    if name.Err? {
      return Err(name.error);
    }
    var alias := ParseOptionalAlias(p);
    if alias.Err? {
      return Err(alias.error);
    }
    var exported := name.value;
    var aliasOf: Option<Ast.Ident> := None;
    if alias.value.Some? {
      aliasOf := Some(exported);
      exported := alias.value.value;
    }
    r := Ok(Syntax.NamedExport(SpanFrom(p.items, p.pos, spanStart), exported, aliasOf));
  }

  /** One import specifier and its delimiter. */
  method ParseNamedImportItem(p: Parser) returns (r: Result<Syntax.NamedImport, Error>)
    requires p.Valid()
    modifies p`pos
    ensures p.Valid() && NamedImportItemAt(p.items, p.context, old(p.pos)) == Done(r, p.pos)
  {
    var specifier := ParseImportSpecifier(p);
    if specifier.Err? {
      return Err(specifier.error);
    }
    var delimiter := p.ConsumeObjectDelimiter();
    if delimiter.Err? {
      return Err(delimiter.error);
    }
    r := Ok(specifier.value);
  }

  /** One export specifier and its delimiter. */
  method ParseNamedExportItem(p: Parser) returns (r: Result<Syntax.NamedExport, Error>)
    requires p.Valid()
    modifies p`pos
    ensures p.Valid() && NamedExportItemAt(p.items, p.context, old(p.pos)) == Done(r, p.pos)
  {
    var specifier := ParseExportSpecifier(p);
    if specifier.Err? {
      return Err(specifier.error);
    }
    var delimiter := p.ConsumeObjectDelimiter();
    if delimiter.Err? {
      return Err(delimiter.error);
    }
    r := Ok(specifier.value);
  }

  /** `parse_named_imports`. */
  method ParseNamedImports(p: Parser) returns (r: Result<seq<Syntax.NamedImport>, Error>)
    requires p.Valid()
    modifies p`pos
    ensures p.Valid() && NamedImportsAt(p.items, p.context, old(p.pos)) == Done(r, p.pos)
  {
    var open := p.ConsumeAssert(Bindings.ObjectOpen);
    if open.Err? {
      return Err(open.error);
    }
    ghost var start := p.pos;
    var namedImports: seq<Syntax.NamedImport> := [];
    while true
      invariant p.Valid() && start <= p.pos
      invariant NamedImportsLoopAt(p.items, p.context, p.pos, namedImports)
                == NamedImportsLoopAt(p.items, p.context, start, [])
      decreases |p.items| - p.pos
    {
      if CurrentMatches(p.items, p.pos, ObjectEnd) {
        var _ := p.Consume();
        return Ok(namedImports);
      }
      var specifier := ParseNamedImportItem(p);
      if specifier.Err? {
        return Err(specifier.error);
      }
      namedImports := namedImports + [specifier.value];
    }
  }

  /** `parse_named_exports`. */
  method ParseNamedExports(p: Parser) returns (r: Result<seq<Syntax.NamedExport>, Error>)
    requires p.Valid()
    modifies p`pos
    ensures p.Valid() && NamedExportsAt(p.items, p.context, old(p.pos)) == Done(r, p.pos)
  {
    var open := p.ConsumeAssert(Bindings.ObjectOpen);
    if open.Err? {
      return Err(open.error);
    }
    ghost var start := p.pos;
    var namedExports: seq<Syntax.NamedExport> := [];
    while true
      invariant p.Valid() && start <= p.pos
      invariant NamedExportsLoopAt(p.items, p.context, p.pos, namedExports)
                == NamedExportsLoopAt(p.items, p.context, start, [])
      decreases |p.items| - p.pos
    {
      if CurrentMatches(p.items, p.pos, ObjectEnd) {
        var _ := p.Consume();
        return Ok(namedExports);
      }
      var specifier := ParseNamedExportItem(p);
      if specifier.Err? {
        return Err(specifier.error);
      }
      namedExports := namedExports + [specifier.value];
    }
  }

  /** `parse_namespace_import`. */
  method ParseNamespaceImport(p: Parser) returns (r: Result<Ast.Ident, Error>)
    requires p.Valid()
    modifies p`pos
    ensures p.Valid() && NamespaceImportAt(p.items, p.context, old(p.pos)) == Done(r, p.pos)
  {
    var star := p.ConsumeAssert(Star);
    if star.Err? {
      return Err(star.error);
    }
    var keyword := p.ConsumeAssert(AsKeyword);
    if keyword.Err? {
      return Err(keyword.error);
    }
    r := p.ParseIdentifier();
  }

  /** The namespace import or named imports of an import clause. */
  method ParseImportBindings(p: Parser) returns (r: Result<(Option<seq<Syntax.NamedImport>>, Option<Ast.Ident>), Error>)
    requires p.Valid()
    modifies p`pos
    ensures p.Valid() && ImportBindingsAt(p.items, p.context, old(p.pos)) == Done(r, p.pos)
  {
    if CurrentMatches(p.items, p.pos, Star) {
      var namespace := ParseNamespaceImport(p);
      if namespace.Err? {
        return Err(namespace.error);
      }
      r := Ok((None, Some(namespace.value)));
    } else if CurrentMatches(p.items, p.pos, Bindings.ObjectOpen) {
      var named := ParseNamedImports(p);
      if named.Err? {
        return Err(named.error);
      }
      r := Ok((Some(named.value), None));
    } else {
      r := ParseUnexpected(p);
    }
  }

  /** The import clause: the optional default binding, then the rest. */
  method ParseImportClause(p: Parser)
    returns (r: Result<(Option<Ast.Ident>, Option<seq<Syntax.NamedImport>>, Option<Ast.Ident>), Error>)
    requires p.Valid()
    modifies p`pos
    ensures p.Valid() && ImportClauseAt(p.items, p.context, old(p.pos)) == Done(r, p.pos)
  {
    var defaultBinding := p.ParseOptionalIdentifier();
    var required := defaultBinding.value.None?;
    if !required {
      var comma := p.MaybeConsume(Comma);
      required := comma.value;
    }
    if !required {
      return Ok((defaultBinding.value, None, None));
    }
    var bindings := ParseImportBindings(p);
    if bindings.Err? {
      return Err(bindings.error);
    }
    r := Ok((defaultBinding.value, bindings.value.0, bindings.value.1));
  }

  /** The module specifier and optional `;` that end an import. */
  method ParseImportSource(p: Parser, spanStart: nat, defaultBinding: Option<Ast.Ident>,
                           namedImports: Option<seq<Syntax.NamedImport>>, namespaceBinding: Option<Ast.Ident>)
    returns (r: Result<Syntax.Stmt, Error>)
    requires p.Valid()
    requires ImportSourceAt(p.items, p.sub, p.context, p.pos, spanStart, defaultBinding, namedImports, namespaceBinding)
             != Unsupported
    modifies p`pos
    ensures p.Valid()
    ensures ImportSourceAt(p.items, p.sub, p.context, old(p.pos), spanStart, defaultBinding, namedImports, namespaceBinding)
            == Done(r, p.pos)
  {
    var from := ParseModuleSpecifier(p);
    if from.Err? {
      return Err(from.error);
    }
    var semicolon := p.Run(p.sub.optionalSemicolon, p.context);
    if semicolon.Err? {
      return Err(semicolon.error);
    }
    var decl := Syntax.DeclImport(SpanFrom(p.items, p.pos, spanStart), defaultBinding, namespaceBinding,
                                  namedImports, from.value);
    r := Ok(Syntax.Import(decl));
  }

  /** `parse_import_declaration`. */
  method ParseImportDeclaration(p: Parser) returns (r: Result<Syntax.Stmt, Error>)
    requires p.Valid() && ImportDeclarationAt(p.items, p.sub, p.context, p.pos) != Unsupported
    modifies p`pos
    ensures p.Valid() && ImportDeclarationAt(p.items, p.sub, p.context, old(p.pos)) == Done(r, p.pos)
  {
    var spanStart := PositionAt(p.items, p.pos);
    var keyword := p.ConsumeAssert(ImportKeyword);
    if keyword.Err? {
      return Err(keyword.error);
    }
    if CurrentMatchesStringLiteral(p.items, p.pos) {
      r := ParseImportSource(p, spanStart, None, None, None);
      return;
    }
    var clause := ParseImportClause(p);
    if clause.Err? {
      return Err(clause.error);
    }
    var from := p.ConsumeAssert(FromKeyword);
    if from.Err? {
      return Err(from.error);
    }
    r := ParseImportSource(p, spanStart, clause.value.0, clause.value.1, clause.value.2);
  }

  /** `parse_var_decl_export`. */
  method ParseVarDeclExport(p: Parser, spanStart: nat, kind: Syntax.VariableKind) returns (r: Result<Syntax.Stmt, Error>)
    requires p.Valid() && VarDeclExportAt(p.items, p.sub, p.context, p.pos, spanStart, kind) != Unsupported
    modifies p`pos
    ensures p.Valid() && VarDeclExportAt(p.items, p.sub, p.context, old(p.pos), spanStart, kind) == Done(r, p.pos)
  {
    var decl := p.RunVariableStmt(p.context, kind);
    if decl.Err? {
      return Err(decl.error);
    }
    r := Ok(Syntax.Export(Syntax.ExportDecl(SpanFrom(p.items, p.pos, spanStart), decl.value)));
  }

  /** `parse_default_export`, on the paths where it does not give up. */
  method ParseDefaultExport(p: Parser) returns (r: Result<Syntax.Stmt, Error>)
    requires p.Valid() && DefaultExportAt(p.items, p.pos) != Unsupported
    modifies p`pos
    ensures p.Valid() && DefaultExportAt(p.items, old(p.pos)) == Done(r, p.pos)
  {
    var keyword := p.ConsumeAssert(DefaultKeyword);
    if keyword.Err? {
      return Err(keyword.error);
    }
    var current := CurrentAt(p.items, p.pos);
    if current.Ok? {
      assert false;
    }
    r := Err(current.error);
  }

  /** `parse_namespace_export`. */
  method ParseNamespaceExport(p: Parser, spanStart: nat) returns (r: Result<Syntax.Stmt, Error>)
    requires p.Valid() && NamespaceExportAt(p.items, p.sub, p.context, p.pos, spanStart) != Unsupported
    modifies p`pos
    ensures p.Valid() && NamespaceExportAt(p.items, p.sub, p.context, old(p.pos), spanStart) == Done(r, p.pos)
  {
    var star := p.ConsumeAssert(Star);
    if star.Err? {
      return Err(star.error);
    }
    var alias := ParseOptionalAlias(p);
    if alias.Err? {
      return Err(alias.error);
    }
    var keyword := p.ConsumeAssert(FromKeyword);
    if keyword.Err? {
      return Err(keyword.error);
    }
    var from := ParseModuleSpecifier(p);
    if from.Err? {
      return Err(from.error);
    }
    r := Ok(Syntax.Export(Syntax.ExportNamespace(SpanFrom(p.items, p.pos, spanStart), alias.value, from.value)));
  }

  /** `parse_named_export`. */
  method ParseNamedExport(p: Parser, spanStart: nat) returns (r: Result<Syntax.Stmt, Error>)
    requires p.Valid() && NamedExportAt(p.items, p.sub, p.context, p.pos, spanStart) != Unsupported
    modifies p`pos
    ensures p.Valid() && NamedExportAt(p.items, p.sub, p.context, old(p.pos), spanStart) == Done(r, p.pos)
  {
    var named := ParseNamedExports(p);
    if named.Err? {
      return Err(named.error);
    }
    var keyword := p.MaybeConsume(FromKeyword);
    var from: Option<string> := None;
    if keyword.value {
      var specifier := ParseModuleSpecifier(p);
      if specifier.Err? {
        return Err(specifier.error);
      }
      from := Some(specifier.value);
    }
    r := Ok(Syntax.Export(Syntax.ExportNamed(SpanFrom(p.items, p.pos, spanStart), named.value, from)));
  }

  /** What follows `export`. */
  method ParseExportBody(p: Parser, spanStart: nat) returns (r: Result<Syntax.Stmt, Error>)
    requires p.Valid() && ExportBodyAt(p.items, p.sub, p.context, p.pos, spanStart) != Unsupported
    modifies p`pos
    ensures p.Valid() && ExportBodyAt(p.items, p.sub, p.context, old(p.pos), spanStart) == Done(r, p.pos)
  {
    if CurrentMatches(p.items, p.pos, Bindings.ObjectOpen) {
      r := ParseNamedExport(p, spanStart);
    } else if CurrentMatches(p.items, p.pos, Star) {
      r := ParseNamespaceExport(p, spanStart);
    } else if CurrentAt(p.items, p.pos).Ok? && VariableKindOf(p.items[p.pos].token.value).Some? {
      r := ParseVarDeclExport(p, spanStart, VariableKindOf(p.items[p.pos].token.value).value);
    } else if HoistableAt(p.items, p.pos) {
      assert false;
    } else if CurrentMatches(p.items, p.pos, DefaultKeyword) {
      r := ParseDefaultExport(p);
    } else {
      r := ParseUnexpected(p);
    }
  }

  /** `parse_export_declaration`. */
  method ParseExportDeclaration(p: Parser) returns (r: Result<Syntax.Stmt, Error>)
    requires p.Valid() && ExportDeclarationAt(p.items, p.sub, p.context, p.pos) != Unsupported
    modifies p`pos
    ensures p.Valid() && ExportDeclarationAt(p.items, p.sub, p.context, old(p.pos)) == Done(r, p.pos)
  {
    var spanStart := PositionAt(p.items, p.pos);
    var keyword := p.ConsumeAssert(ExportKeyword);
    if keyword.Err? {
      return Err(keyword.error);
    }
    r := ParseExportBody(p, spanStart);
  }
}
