# fajt, modelled in Dafny

fajt is an ECMAScript parser written in Rust. Source text goes through a
lexer that produces tokens. A token cursor then feeds a hand-written
recursive-descent parser, which builds the syntax tree and reports early
errors. This project models the core of that pipeline and proves properties
of the model:

- **Tokens** (`token.dfy`). The keyword and punctuator tables and the
  `KeywordContext` flags. Also the rule that decides when a reserved word
  may act as an identifier (ECMA-262, 2022 edition, section 12.6.2), and
  the iterator that serves a token list to the parser.
- **The early lexer and its character reader** (`lexer.dfy`). Maximal-munch
  scanning of identifiers, keywords, numbers and assignment operators over
  a `seq<char>`. White space and line terminators follow sections 12.2 and
  12.3 of ECMA-262.
- **The newer character reader** (`reader.dfy`). A class whose `consume`,
  `next` and `read_until` update its position, end-of-file flag and current
  character.
- **Syntax tree pieces** (`ast.dfy`, `ast_literal.dfy`, `syntax.dfy`):
  - the program constructor;
  - identifiers and the conversion of tokens into identifiers;
  - the conversion of lexer literals into tree literals;
  - the node types the parser builds.
- **Errors** (`errors.dfy`). The error constructors and their spans, the
  short descriptions, the one-line rendering, and the conversions from
  lexer and reader errors.
- **The parser cursor** (`parser_core.dfy`). The parsing context and its
  modifiers, and the cursor primitives. Also identifiers, property names,
  the directive prologue and the parse of a whole program.
- **Parsing routines**, one module per source file:
  - binding patterns (`bindings.dfy`);
  - the early variable statement (`variable_statement.dfy`);
  - functions, arrow functions, formal parameters and function bodies
    (`functions.dfy`);
  - the newer loop parser with its rewind (`iteration.dfy`) and the older
    one (`legacy_iteration.dfy`);
  - imports and exports (`modules.dfy`);
  - the parenthesis-counting look-ahead that resolves cover grammars
    (`cover.dfy`).
- **Early errors** (`early_errors.dfy`). Simple assignment targets,
  `delete` in strict code, the rules that array and object literals must
  meet to cover a pattern, setter arity and duplicate parameter names.
- **The Markdown helpers of the snapshot tests** (`snapshot.dfy`). They
  extract a fenced code block from a test file and generate one.

The source files come from several revisions of the repository, and each
module follows the revision of the file it models. So there are two token
shapes, two loop parsers and two character readers.

Every parsing routine appears twice:

- **A function `XAt(items, …, i)`.** It gives what the routine does from
  position `i` of the token stream: a result and the next position, or
  `Unsupported` where the source gives up (`todo!`, `unimplemented!`, a
  failed `unwrap`).
- **A method over the `ParserCore.Parser` cursor class.** It follows the
  statements of the Rust code, its loops carry invariants, and its
  `ensures` ties the new cursor position and the result to that function.

The token stream is a sequence of items. Each item is a token or the lexer
error that reading it produced. Routines whose bodies are outside the
modelled files are fields of `ParserCore.SubParsers`. The only thing
assumed about them is that they stay within the stream and that those
parsing a non-empty production consume a token.

## Model

| member | source | states |
|---|---|---|
| Tokens.KeywordTextRoundTrip | lexer/src/token.rs:64-125 | parsing the text of any keyword gives that keyword back, so no two keywords share a text |
| Tokens.IdentifierAcceptanceRules | lexer/src/token.rs:139-164 | contextual words are always accepted as identifiers; `await` only without the AWAIT flag; `yield` only without YIELD and STRICT; the strict-mode words only without STRICT; every other keyword never |
| Tokens.ContextualWordsAccepted | lexer/src/token.rs:141-147 | `as`, `async`, `from`, `get`, `of`, `set` and `target` are accepted in every context |
| Tokens.StrictModeReservedRule | lexer/src/token.rs:150-161 | a strict-mode reserved word is accepted exactly when the context does not hold STRICT |
| Tokens.ReservedWordsRejected | lexer/src/token.rs:162 | every other keyword is rejected in every context |
| Tokens.AcceptanceIsAntitone | lexer/src/token.rs:139-164 | adding flags to a context never turns a rejected keyword into an accepted one |
| Tokens.StrictestContext | lexer/src/token.rs:139-164 | with AWAIT, YIELD and STRICT all set, exactly the contextual words are accepted |
| Tokens.IntoIdentifierString | lexer/src/token.rs:130-136 | succeeds exactly when the keyword is allowed in the context, and then gives the keyword's text; otherwise fails with ForbiddenIdentifier of that keyword |
| Tokens.IntoIdentifierStringExamples | lexer/src/token.rs:380-413 | `async` and `yield` convert in the empty context; `yield` under YIELD and `function` anywhere give ForbiddenIdentifier |
| Tokens.PunctTextRoundTrip | lexer/src/token.rs:179-295 | parsing the text of any punctuator gives that punctuator back, so no two punctuators share a text |
| Tokens.TokenIter.constructor | lexer/src/token.rs:363-373 | a token iterator starts with all the given tokens remaining |
| Tokens.TokenIter.Next | lexer/src/token.rs:363-373 | never fails; yields the first remaining token paired with the end of its span and drops it, or `None` when no tokens remain |
| Ast.FromBody | parser/src/ast.rs:25-30 | the program is a script with span (0, 0) whose body is the given statements |
| Ast.FromBodyInjective | parser/src/ast.rs:25-30 | two bodies give the same program exactly when they are equal |
| Ast.NewIdent | parser/src/ast.rs:47-56 | the identifier has the given name and span |
| Ast.TryFrom | parser/src/ast.rs:62-83 | succeeds exactly for identifier tokens and the keywords `await` and `yield`; the identifier keeps the token's span and its name or keyword text; any other token gives a syntax error with the token's value and span |
| Ast.TryFromKeywords | parser/src/ast.rs:69-78 | the keywords that convert are exactly those accepted in the empty context but forbidden once the await and yield flags are set |
| AstLiteral.BaseFrom | parser/src/ast/literal.rs:54-63 | each lexer base maps to the tree base that maps back to it |
| AstLiteral.BaseFromBijective | parser/src/ast/literal.rs:54-63 | the base conversion is injective and onto |
| AstLiteral.LiteralFrom | parser/src/ast/literal.rs:72-82 | integers keep value and base, decimals their payload, strings their text and delimiter, so the lexer literal can be read back |
| AstLiteral.LiteralFromInjective | parser/src/ast/literal.rs:72-82 | distinct lexer literals give distinct tree literals |
| Errors.LexerErrorOf | parser/src/error/mod.rs:29-35 | the error has the lexer error as kind, the given span and no diagnostic |
| Errors.SyntaxErrorOf | parser/src/error/mod.rs:37-43 | the message goes into the kind with an empty span of its own; the given span is the error's; no diagnostic |
| Errors.UnexpectedIdentifierOf | parser/src/error/mod.rs:45-52 | the kind holds the identifier and the error covers the identifier's span |
| Errors.UnexpectedTokenOf | parser/src/error/mod.rs:54-61 | the kind holds the token and the error covers the token's span |
| Errors.ForbiddenIdentifierOf | parser/src/error/mod.rs:63-69 | the kind holds the identifier text and the error has the given span |
| Errors.EndOfStreamAt | parser/src/error/mod.rs:71-77 | an end-of-stream error with the empty span at the given position |
| Errors.GetDescription | parser/src/error/mod.rs:96-107 | a description exists exactly for forbidden identifiers and unexpected tokens, with the texts the source gives |
| Errors.Display | parser/src/error/mod.rs:111-130 | a lexer error renders as "Lexer error '…'", an unexpected identifier as "Syntax Error: Unexpected identifier `name…", every other kind starts with "Syntax error: ", and a syntax error's message follows that prefix verbatim; the end of the stream renders as "Syntax error: Unexpected end of input" |
| Errors.DisplayDependsOnKindOnly | parser/src/error/mod.rs:111-130 | two errors of the same kind render identically, whatever their spans and diagnostics |
| Errors.FromLexError | parser/src/error/mod.rs:135-140 | a lexer error becomes a parser error of that kind that keeps the lexer error's own span |
| Errors.FromReaderError | parser/src/error/mod.rs:142-149 | a reader's end of stream becomes an end-of-stream error at its position, a wrapped lexer error converts as above, and the result is end-of-stream exactly in the first case |
| Lexing.IsStartOfIdentifier | lexer/src/lib.rs:209-223 | every character that may start an identifier may also continue one |
| Lexing.WhitespaceAndLineTerminatorsDisjoint | lexer/src/lib.rs:191-207 | no character is both ECMAScript white space and a line terminator |
| Lexing.CompoundOperator | lexer/src/lib.rs:116-131 | each of `/ * % + - \| ^ &` before `=` denotes a real compound operator, never the plain assignment |
| Lexing.CompoundOperatorInjective | lexer/src/lib.rs:120-130 | distinct operator characters denote distinct compound assignments |
| Lexing.SkipFrom | lexer/src/lib.rs:76-83 | the first index at or after the start whose character is neither white space nor `;`, every character before it being skipped; `None` when the rest of the input is all skipped |
| Lexing.WordEnd | lexer/src/lib.rs:164-171 | the end of the maximal run of identifier-part characters: all characters before it continue an identifier and the one at it (if any) does not |
| Lexing.AlphanumericEnd | lexer/src/lib.rs:147-154 | the end of the maximal run of alphanumeric characters |
| Lexing.NumberAt | lexer/src/lib.rs:141-158 | the number is the maximal run of ASCII alphanumeric characters from the digit, which must all be digits; its token is the decimal integer they spell, spanning the run; running into the end of the input, a letter in the run or a value beyond i64 is a panic |
| Lexing.WordAt | lexer/src/lib.rs:160-180 | the word is the maximal run of identifier-part characters from the first one, spanning the run; it is the keyword whose text it is, and an identifier with that text otherwise; a run reaching the end of the input is a panic |
| Lexing.NextAt | lexer/src/lib.rs:103-139 | a token starts at or after the reader and the reader moves strictly forward, staying inside the input |
| Lexing.NextAtCases | lexer/src/lib.rs:103-135 | after the skipped characters, `=` not followed by `=` is a one-column assignment, an operator character of `/ * % + - \| ^ &` followed by `=` the two-column compound assignment it names, a digit starts a number and an identifier-start character a word; any other character panics; the end is reported when only skipped characters remain or the input ends within an operator |
| Lexing.LexFromUnfolds | lexer/src/lib.rs:85-101 | `read` yields the token `next` produces followed by what is read after it, and nothing once `next` reports the end |
| Lexing.LexFromOrdered | lexer/src/lib.rs:85-101 | the tokens `read` returns are non-empty, lie inside the input and appear in source order without overlapping |
| Lexing.NextTokenBounds | lexer/src/lib.rs:103-139 | the token `next` produces is non-empty and ends where the reader stops |
| Lexing.AssignmentExamples | lexer/src/lib.rs:108-131 | in "a = 1;" the `=` spans columns 2 to 3, in "a *= 1;" the `*=` spans columns 2 to 4 |
| Lexing.LexAssignmentConst | lexer/src/lib.rs:246-256 | "const variable = 1;" lexes to the keyword `const` (0, 5), the identifier `variable` (6, 14), `=` (15, 16) and the number 1 (17, 18) |
| Lexing.Reader.constructor | lexer/src/lib.rs:25-38 | a reader on non-empty input starts on its first character |
| Lexing.Reader.Next | lexer/src/lib.rs:55-63 | moves to the next character and returns it, one column further on the same line; at the last character fails with EndOfFile and changes nothing |
| Lexing.NewReader | lexer/src/lib.rs:25-38 | fails with EndOfFile exactly on empty input; otherwise starts on the first character at line 0, column 0 |
| Lexing.Lexer.constructor | lexer/src/lib.rs:71-74 | the lexer reads from the given reader |
| Lexing.Lexer.SkipWhitespaces | lexer/src/lib.rs:76-83 | succeeds exactly when a character other than white space and `;` remains, and stops on the first one; otherwise fails with EndOfFile |
| Lexing.Lexer.ReadNumber | lexer/src/lib.rs:141-158 | returns the number token `NumberAt` describes and leaves the reader where it ends |
| Lexing.Lexer.ReadIdentifierOrKeyword | lexer/src/lib.rs:160-180 | returns the keyword or identifier `WordAt` describes and leaves the reader where it ends |
| Lexing.Lexer.Next | lexer/src/lib.rs:103-139 | returns the token `NextAt` describes and moves the reader to its end, or fails with EndOfFile when only skipped characters remain |
| Lexing.Lexer.Read | lexer/src/lib.rs:85-101 | returns all tokens `LexFrom` describes, so always succeeds, in source order |
| Lexing.NewLexer | lexer/src/lib.rs:71-74 | fails exactly on empty input; otherwise reads from the start of the data |
| CharReader.RunEnd | lexer/src/reader.rs:77-94 | the end of the maximal run of characters satisfying the check: every character before it satisfies it and the one at it (if any) does not |
| CharReader.Reader.constructor | lexer/src/reader.rs:17-29 | a reader on non-empty input starts on its first character at position 0 with the end-of-file flag clear |
| CharReader.Reader.Next | lexer/src/reader.rs:57-71 | the position grows by one unless the end was already reached; moves to and returns the next character, or at the last character sets the end-of-file flag, keeps its character and fails with EndOfFile |
| CharReader.Reader.Consume | lexer/src/reader.rs:48-55 | fails with EndOfFile, changing nothing, once the end was reached; otherwise advances and succeeds even when that step runs off the last character |
| CharReader.Reader.ReadUntil | lexer/src/reader.rs:73-97 | returns the current character followed by the maximal run of following characters satisfying the check; the reader stops on the first that fails it, or flags the end; its position is the end of the run; it never fails |
| CharReader.NewReader | lexer/src/reader.rs:17-29 | fails with EndOfFile exactly on empty input; otherwise starts on the first character at position 0 with the end-of-file flag clear |
| ParserCore.ThenTry | parser/src/lib.rs:33-51 | a false condition gives `Ok(None)` without running the closure; a true one gives the closure's value wrapped in `Some`, or its error |
| ParserCore.ThenTryStep | parser/src/lib.rs:40-51 | with a parsing closure: a false condition consumes nothing and gives `None`; a true one gives the routine's outcome wrapped in `Some` |
| ParserCore.MapStep | parser/src/lib.rs:45-46 | mapping a step's value keeps where it stops, whether it failed and its error |
| ParserCore.Context.WithAwait | parser/src/lib.rs:75-91 | only the await flag changes |
| ParserCore.Context.WithYield | parser/src/lib.rs:75-91 | only the yield flag changes |
| ParserCore.Context.WithIn | parser/src/lib.rs:75-91 | only the in flag changes |
| ParserCore.Context.WithStrict | parser/src/lib.rs:75-91 | only the strict flag changes |
| ParserCore.Context.WithDefault | parser/src/lib.rs:75-91 | only the default flag changes |
| ParserCore.Context.KeywordContext | parser/src/lib.rs:93-108 | AWAIT, YIELD and STRICT are set exactly when the matching flag is, and no other bit |
| ParserCore.KeywordContextIgnoresInAndDefault | parser/src/lib.rs:93-108 | the in and default flags never change which words are reserved |
| ParserCore.ContextModifiersCommute | parser/src/lib.rs:75-91 | modifiers of different flags commute and a second modifier of the same flag overrides the first |
| ParserCore.CurrentAt | parser/src/lib.rs:210-212 | the token under the cursor when there is one; the lexer error there converted, or end of stream at the read position past the last token |
| ParserCore.ConsumeAt | parser/src/lib.rs:214-216 | yields what `current` yields and moves past it; at the end of the stream the cursor stays |
| ParserCore.PeekAt | parser/src/lib.rs:218-220 | the token after the current one exactly when there is one and it lexed |
| ParserCore.PositionAt | parser/src/lib.rs:226-230 | the start of the current token, or the read position when there is none |
| ParserCore.SpanFrom | parser/src/lib.rs:232-234 | the span from the given start to the current read position |
| ParserCore.IsIdentifier | parser/src/lib.rs:392-404 | identifier tokens always qualify, keywords exactly when the keyword context accepts them, nothing else and no missing token |
| ParserCore.ConsumeAssertAt | parser/src/lib.rs:271-277 | always consumes one token; succeeds exactly when it is the expected one, else reports the token found and the one expected |
| ParserCore.MaybeConsumeAt | parser/src/lib.rs:279-286 | never fails; consumes the current token exactly when it matches and says whether it did |
| ParserCore.ConsumeListDelimiterAt | parser/src/lib.rs:382-389 | consumes a `,`, leaves the list's end in place, and consumes anything else as an "expected `,`" error |
| ParserCore.ParseIdentifierAt | parser/src/lib.rs:300-313 | consumes one token and succeeds exactly where `is_identifier` holds, with the token's span and its name or keyword text |
| ParserCore.ParseIdentifierErrors | parser/src/lib.rs:300-313 | a keyword the context forbids is reported as a forbidden identifier by its text; any other non-identifier token as "expected identifier" |
| ParserCore.ParseOptionalIdentifierAt | parser/src/lib.rs:315-321 | never fails; an identifier parsed as `parse_identifier` does exactly when the current token is one, otherwise `None` with nothing consumed |
| ParserCore.ParsePropertyNameAt | parser/src/lib.rs:324-347 | string and number literals become names, consuming one token; a regular-expression literal is consumed and reported as unexpected; an identifier name needs `is_identifier`; a computed name starts with `[`; lexer errors and the end of the stream are reported without consuming; `PropertyNameFull` and `PropertyNameComputed` state the identifier, other-token and computed cases in full |
| ParserCore.PropertyNameFull | parser/src/lib.rs:342-343 | on a token that is neither a literal nor `[`, an identifier in the context gives `IdentName` of what `parse_identifier` reads, consuming one token; any other token is consumed and reported as an unexpected token |
| ParserCore.PropertyNameComputed | parser/src/lib.rs:336-340 | after `[`, the name succeeds exactly when the assignment expression does and `]` follows it; a failing expression passes on its error or give-up; a wrong closer is "expected `]`" on the token found; a success holds that expression and ends right after the `]` |
| ParserCore.DirectivePrologueAt | parser/src/lib.rs:349-368 | the prologue ends on a token that is not a string literal; when the first token is not one, it is empty and consumes nothing |
| ParserCore.DirectivePrologueSplits | parser/src/lib.rs:352-361 | a non-empty prologue starts on a string literal whose statement, read by the statement routine, is the first directive; the rest of the prologue is read after that statement and ends where the whole does |
| ParserCore.ProgramAt | parser/src/lib.rs:140-168 | the program holds the directive prologue, then every statement parsed in strict mode exactly when some directive is "use strict", with the given source type and the span from the first token to the read position after the last |
| ParserCore.UseStrictMakesBodyStrict | parser/src/lib.rs:148-157 | a successful program's body is read by the all-statements routine in strict mode when some directive, in particular the first, is "use strict", and in the caller's context otherwise |
| ParserCore.Parser.constructor | parser/src/lib.rs:185-192 | a parser starts at the first token in the default context with the given source type |
| ParserCore.Parser.Consume | parser/src/lib.rs:214-216 | the cursor moves as `ConsumeAt` says and the result is its token or error |
| ParserCore.Parser.ConsumeAssert | parser/src/lib.rs:271-277 | the cursor and the result are those of `ConsumeAssertAt` |
| ParserCore.Parser.MaybeConsume | parser/src/lib.rs:279-286 | the cursor and the result are those of `MaybeConsumeAt` |
| ParserCore.Parser.ConsumeListDelimiter | parser/src/lib.rs:382-389 | the cursor and the result are those of `ConsumeListDelimiterAt` |
| ParserCore.Parser.ConsumeArrayDelimiter | parser/src/lib.rs:370-372 | a list delimiter whose list ends with `]` |
| ParserCore.Parser.ConsumeObjectDelimiter | parser/src/lib.rs:374-376 | a list delimiter whose list ends with `}` |
| ParserCore.Parser.ConsumeParameterDelimiter | parser/src/lib.rs:378-380 | a list delimiter whose list ends with `)` |
| ParserCore.Parser.ParseIdentifier | parser/src/lib.rs:300-313 | the cursor and the result are those of `ParseIdentifierAt` in the parser's context |
| ParserCore.Parser.ParseOptionalIdentifier | parser/src/lib.rs:315-321 | the cursor and the result are those of `ParseOptionalIdentifierAt` |
| ParserCore.Parser.ParsePropertyName | parser/src/lib.rs:324-347 | the cursor and the result are those of `ParsePropertyNameAt` |
| ParserCore.Parser.ParseDirectivePrologue | parser/src/lib.rs:349-368 | the loop collects exactly the directives `DirectivePrologueAt` describes and stops where it does |
| ParserCore.ParseProgram | parser/src/lib.rs:140-168 | the program and the cursor are those of `ProgramAt`, and the parser's context is restored afterwards |
| Bindings.RestBindingIdentAt | parser/src/parser/binding.rs:171-185 | succeeds exactly when an identifier is followed by the expected closing punctuator, consuming both and giving the identifier `parse_identifier` gives |
| Bindings.RestEndAt | parser/src/parser/binding.rs:173-184 | the token after the rest identifier is consumed; the identifier comes back exactly when that token is the expected punctuator |
| Bindings.RestBindingIdentNotLast | parser/src/parser/binding.rs:181-184 | any other token after the identifier is reported as "Rest element must be last element" at the identifier's span, with both tokens consumed |
| Bindings.ObjectPropsAt | parser/src/parser/binding.rs:40-58 | the loop consumes at least one token and only extends the properties collected so far |
| Bindings.ObjectPropsEnd | parser/src/parser/binding.rs:40-58 | when the loop succeeds, the last token it consumed is a `}`: the pattern's own or the one after a rest identifier |
| Bindings.ObjectPropsIdentifierStep | parser/src/parser/binding.rs:51-55 | an identifier property is appended and the loop continues after its delimiter |
| Bindings.ObjectPropsPrefix | parser/src/parser/binding.rs:37-58 | running the loop with properties already collected yields them followed by what the loop yields from nothing |
| Bindings.ObjectPatternAt | parser/src/parser/binding.rs:32-66 | an object pattern whose properties and rest are those the loop after `{` collects, ended as `ObjectPatternEndAt` says |
| Bindings.ObjectPatternEndAt | parser/src/parser/binding.rs:60-65 | a current token must exist after the pattern; a `;` there is consumed; the span runs from the `{` to the read position after that |
| Bindings.ObjectPatternExample | parser/src/parser/binding.rs:26-66 | `{ a, b };` parses as an object pattern consuming all six tokens and binding exactly `a` and `b` |
| Bindings.BindingPatternAt | parser/src/parser/binding.rs:16-23 | `{` gives an object pattern and `[` an array pattern, exactly; an identifier is a pattern of its own; any other token is consumed and reported as unexpected |
| Bindings.ArrayPatternAt | parser/src/parser/binding.rs:75-117 | an array pattern whose elements and rest are those the loop after `[` collects, spanning from the `[` to the read position after the loop |
| Bindings.ArrayElementsAt | parser/src/parser/binding.rs:83-108 | the loop consumes at least one token, only extends the elements collected so far, and a successful loop stops right after a `]`, the closing bracket or the one after a rest identifier |
| Bindings.ArrayElementsHole | parser/src/parser/binding.rs:89-92 | a `,` alone appends a hole and the loop goes on after it |
| Bindings.ArrayElementsPrefix | parser/src/parser/binding.rs:83-108 | running the loop with elements already collected yields them followed by what the loop yields from nothing |
| Bindings.ArrayElementsStep | parser/src/parser/binding.rs:89-105 | where a `,` or a binding element with its delimiter is read, its entry is appended to whatever was collected and the loop goes on further along |
| Bindings.ArrayElementsStop | parser/src/parser/binding.rs:84-106 | where the loop stops (at `]`, a rest element, an error or any other token), what was collected only prefixes its result |
| Bindings.ArrayPatternExample | parser/src/parser/binding.rs:75-117 | `[, a]` parses as an array pattern of a hole and then `a`, with no rest, consuming all four tokens and binding exactly `a` |
| Bindings.ArrayElementAt | parser/src/parser/binding.rs:98-105 | an element is the binding element `parse_binding_element` gives, followed by its delimiter |
| Bindings.BindingElementAt | parser/src/parser/binding.rs:123-137 | the element is the binding pattern at the cursor with no initializer; a following `=` is not reached (it is unsupported), and a current token must exist |
| Bindings.ParseRestBindingIdent | parser/src/parser/binding.rs:171-185 | the cursor and the result are those of `RestBindingIdentAt` |
| Bindings.ParseRestEnd | parser/src/parser/binding.rs:173-184 | the cursor and the result are those of `RestEndAt` |
| Bindings.ParseBindingPattern | parser/src/parser/binding.rs:16-23 | the cursor and the result are those of `BindingPatternAt` |
| Bindings.ParseObjectBindingPattern | parser/src/parser/binding.rs:32-66 | the cursor and the result are those of `ObjectPatternAt` |
| Bindings.ParseObjectPatternEnd | parser/src/parser/binding.rs:60-65 | the cursor and the result are those of `ObjectPatternEndAt` |
| Bindings.ParseObjectProps | parser/src/parser/binding.rs:37-58 | the loop collects exactly the properties `ObjectPropsAt` describes and stops where it does |
| Bindings.ParseArrayBindingPattern | parser/src/parser/binding.rs:75-117 | the cursor and the result are those of `ArrayPatternAt` |
| Bindings.ParseArrayElements | parser/src/parser/binding.rs:80-108 | the loop collects exactly the elements `ArrayElementsAt` describes and stops where it does |
| Bindings.ParseArrayElement | parser/src/parser/binding.rs:98-105 | the cursor and the result are those of `ArrayElementAt` |
| Bindings.ParseBindingElement | parser/src/parser/binding.rs:123-137 | the cursor and the result are those of `BindingElementAt` |
| Bindings.ParseBindingRestElement | parser/src/parser/binding.rs:155-159 | the `...` is consumed; the cursor and the result are those of `BindingPatternAt` after it |
| EarlyErrors.IsAssignmentTargetTypeSimple | parser/src/early_error.rs:131-146 | identifier references and member expressions are simple and nothing else is, except that in strict mode code `eval` and `arguments` are reported, exactly then, at the expression's span |
| EarlyErrors.ValidateUpdateExpressionArgument | parser/src/early_error.rs:18-27 | succeeds exactly when the argument is a simple assignment target; a target that is not simple is reported as an invalid update argument at its span |
| EarlyErrors.StripParentheses | parser/src/early_error.rs:42-44 | the expression with every enclosing pair of parentheses removed is not itself parenthesized |
| EarlyErrors.ValidateDeleteArgument | parser/src/early_error.rs:30-49 | outside strict mode code always succeeds; in strict mode code fails exactly when the argument, under any parentheses, is an identifier, reported at that identifier |
| EarlyErrors.ArrayCoverCheck | parser/src/early_error.rs:86-103 | succeeds exactly when no spread occurs before the last element; otherwise reports the first such spread as "Rest element must be last element" |
| EarlyErrors.ValidateArrayLiteralCoverAssignment | parser/src/early_error.rs:86-103 | the peekable-iterator loop gives exactly what `ArrayCoverCheck` gives |
| EarlyErrors.ObjectCoverCheck | parser/src/early_error.rs:106-128 | succeeds exactly when no property is a method and no spread occurs before the last property; otherwise reports the first offending property with its message |
| EarlyErrors.ValidateObjectLiteralCoverAssignment | parser/src/early_error.rs:106-128 | the peekable-iterator loop gives exactly what `ObjectCoverCheck` gives |
| EarlyErrors.LeftSideExprCheck | parser/src/early_error.rs:52-83 | with `=` an array or object literal must cover an assignment pattern; with a compound operator such a literal is an invalid left-hand side; every other target succeeds exactly when it is simple, is "Invalid left-hand side assignment" at its span when it is not, and passes on the error of the simplicity check |
| EarlyErrors.ValidateLeftSideExpr | parser/src/early_error.rs:52-83 | gives exactly what `LeftSideExprCheck` gives |
| EarlyErrors.ValidatePropertySetParameters | parser/src/early_error.rs:170-186 | succeeds exactly for one parameter and no rest parameter; the rest parameter is reported first, then a wrong count, each at the parameter list's span |
| EarlyErrors.GetBoundNames | parser/src/early_error.rs:188-200 | the names bound by each parameter in order, followed by those bound by the rest parameter |
| EarlyErrors.BindingsNamesContains | parser/src/early_error.rs:189-193 | every name a parameter binds occurs among the bound names |
| EarlyErrors.Sort | parser/src/early_error.rs:152-153 | the names sorted, as a permutation of the input |
| EarlyErrors.Insert | parser/src/early_error.rs:152-153 | inserting a name into a sorted list keeps it sorted and adds exactly that name |
| EarlyErrors.StrLeTotal | parser/src/early_error.rs:153 | any two names are ordered one way or the other |
| EarlyErrors.StrLeAntisymmetric | parser/src/early_error.rs:153 | names ordered both ways are equal |
| EarlyErrors.StrLeTransitive | parser/src/early_error.rs:153 | the order of names is transitive |
| EarlyErrors.GetFirstDuplicate | parser/src/early_error.rs:204-215 | finds a name exactly when two neighbours are equal, and then returns the first name equal to its successor |
| EarlyErrors.SortedDuplicatesAreAdjacent | parser/src/early_error.rs:203-204 | in a sorted list some name occurs twice exactly when two neighbours are equal, which is what `get_first_duplicate` assumes |
| EarlyErrors.DuplicateIsPermutationInvariant | parser/src/early_error.rs:152-155 | sorting neither creates nor hides a duplicate |
| EarlyErrors.ValidateUniqueFormalParameters | parser/src/early_error.rs:148-168 | fails exactly when some name is bound twice by the parameter list, naming a name bound at least twice and reporting it at the parameter list's span |
| VariableStatement.IdentOf | parser/src/statement.rs:21-23 | the identifier has the token's name and span |
| VariableStatement.ObjectPropertyBindingAt | parser/src/statement.rs:32-48 | a parsed object binding consumes at least the closing `}` and stays inside the tokens |
| VariableStatement.ObjectPropertyBindingShape | parser/src/statement.rs:35-47 | the binding ends at the first `}`, every token before it is an identifier, and the properties are those read so far followed by one single binding per identifier, in order |
| VariableStatement.ObjectPropertyBindingCompletes | parser/src/statement.rs:35-47 | conversely, a `}` preceded only by identifiers always completes the binding |
| VariableStatement.VariableDeclarationAt | parser/src/statement.rs:17-30 | an identifier token always gives a declaration binding that identifier and consuming one token; an object binding starts with `{`; nothing else is parsed |
| VariableStatement.VariableStatementAt | parser/src/statement.rs:10-15 | a statement of the given type holding exactly the one declaration parsed, succeeding exactly when it does |
| VariableStatement.StatementParser.constructor | parser/src/statement.rs:9-15 | the parser starts at the first token |
| VariableStatement.StatementParser.Next | parser/src/statement.rs:18 | returns the next token, which must exist, and moves past it |
| VariableStatement.StatementParser.ParseVariableStatement | parser/src/statement.rs:10-15 | the cursor and the statement are those of `VariableStatementAt` |
| VariableStatement.StatementParser.ParseVariableDeclaration | parser/src/statement.rs:17-30 | the cursor and the declaration are those of `VariableDeclarationAt` |
| VariableStatement.StatementParser.ParseObjectPropertyBinding | parser/src/statement.rs:32-48 | the loop collects exactly the properties `ObjectPropertyBindingAt` describes and stops after the `}` |
| VariableStatement.VarIdentifierExample | parser/src/statement.rs:70-87 | `var foo = 1;` declares `foo` with span (4, 7) |
| VariableStatement.VarEmptyObjectExample | parser/src/statement.rs:90-104 | `var {} = 1;` declares an empty object binding |
| VariableStatement.VarSingleObjectExample | parser/src/statement.rs:107-126 | `var { a } = b;` declares an object binding of `a` with span (6, 7) |
| Functions.MatchStringLiteral | parser/src/parser/function.rs:272-286 | gives a string exactly for an expression statement made of a string literal alone, and then that literal's text, picking out the same statements as a program's directive prologue |
| Functions.SplitDirectives | parser/src/parser/function.rs:245-261 | splits the statements into the leading run of string-literal statements, as strings, and all statements from the first other one on, which is not a directive |
| Functions.BodyStatementsAt | parser/src/parser/function.rs:245-261 | the statements up to the closing `}`, which is consumed, so at least one token is consumed |
| Functions.BodyLoopAt | parser/src/parser/function.rs:243-261 | the body loop consumes at least the closing `}` |
| Functions.BodyLoopSplitsDirectives | parser/src/parser/function.rs:243-261 | the loop reads the same statements as `BodyStatementsAt` and arranges them so that a string-literal statement counts as a directive only while no other statement has been collected |
| Functions.ArrangeShifts | parser/src/parser/function.rs:250-260 | one loop step moves one statement into the directives or the statements exactly as the loop does |
| Functions.FunctionBodyAt | parser/src/parser/function.rs:239-269 | `{`, then the statements up to `}`; the directives are the leading string-literal statements and the statements the rest; the span runs from the `{` to after the `}` |
| Functions.FormalParametersLoopAt | parser/src/parser/function.rs:213-228 | the parameter loop consumes at least the closing `)` |
| Functions.FormalParametersLoopRound | parser/src/parser/function.rs:214-226 | `)` ends the loop with what was collected; otherwise a rest element or a binding element with its delimiter is read and the loop goes on further along, the earlier parameters kept in order and a rest element kept once read |
| Functions.FormalParametersLoopOrder | parser/src/parser/function.rs:213-228 | the parameters read earlier are kept, in order, at the head of the list, and a rest element once read stays |
| Functions.FormalParametersLoopEnds | parser/src/parser/function.rs:215-217 | a successful loop stops right after a `)`: the item before the index where it stops is that `)` |
| Functions.Delimited | parser/src/parser/function.rs:220-225 | a parameter followed by its delimiter keeps the parameter's value and consumes at least what the parameter did |
| Functions.FormalParametersAt | parser/src/parser/function.rs:206-236 | `(`, then the parameters and rest the loop collects; the span runs from the `(` to after the `)` |
| Functions.ArrowIdentifierArgumentAt | parser/src/parser/function.rs:84-97 | succeeds exactly on an identifier, giving a parameter list of that one identifier with no rest, the list and its element spanning the identifier; otherwise the identifier error |
| Functions.ArrowBodyAt | parser/src/parser/function.rs:29-33 | a block body exactly when the body starts with `{`, then the function body; otherwise an assignment expression |
| Functions.ArrowFunctionAt | parser/src/parser/function.rs:21-44 | `=>`, then the body in the same context; not async, with the given parameters and binding flag, spanning from the given start to after the body |
| Functions.AsyncArrowFunctionAt | parser/src/parser/function.rs:49-79 | `=>`, then the body read with `[Await]` set; async, with the given parameters and binding flag |
| Functions.FunctionRestAt | parser/src/parser/function.rs:104-118 | a generator exactly when `*` follows `function`; a name exactly when an identifier follows that; the asynchrony given; the span from the given start |
| Functions.FunctionExprAt | parser/src/parser/function.rs:100-119 | `function`, then the rest of a function expression that is not async, starting at the `function` token |
| Functions.AsyncFunctionOpeningAt | parser/src/parser/function.rs:123-127 | succeeds exactly on `async` followed by `function` on the same line, consuming both and giving the start of `async` |
| Functions.AsyncFunctionExprAt | parser/src/parser/function.rs:122-144 | the `async function` opening, then the rest of an async function expression |
| Functions.FunctionImplementationAt | parser/src/parser/function.rs:183-203 | a declaration with the given name, generator and async flags, the formal parameters, then the body, spanning from the given start |
| Functions.DeclarationRestAt | parser/src/parser/function.rs:151-155 | a generator exactly when `*` follows; then the named declaration |
| Functions.NamedDeclarationAt | parser/src/parser/function.rs:152-155 | the name is read in the outer context; parameters and body are read in the inner one |
| Functions.FunctionDeclarationAt | parser/src/parser/function.rs:147-156 | `function`, then a declaration whose parameters and body are read without `[Yield]` and `[Await]` |
| Functions.AsyncFunctionDeclarationAt | parser/src/parser/function.rs:159-171 | `async function`, then an async declaration whose parameters and body are read with `[Await]` and without `[Yield]` |
| Functions.ParseFunctionBody | parser/src/parser/function.rs:239-269 | the loop gives exactly the body `FunctionBodyAt` describes and stops where it does |
| Functions.ParseFormalParameters | parser/src/parser/function.rs:206-236 | the cursor and the result are those of `FormalParametersAt` |
| Functions.ParseParameterList | parser/src/parser/function.rs:211-228 | the loop collects exactly the parameters `FormalParametersLoopAt` describes and stops where it does |
| Functions.ParseDelimitedRest | parser/src/parser/function.rs:219-222 | a rest parameter and its delimiter, as `Delimited` describes |
| Functions.ParseDelimitedElement | parser/src/parser/function.rs:223-226 | a parameter and its delimiter, as `Delimited` describes |
| Functions.ParseArrowIdentifierArgument | parser/src/parser/function.rs:84-97 | the cursor and the result are those of `ArrowIdentifierArgumentAt` |
| Functions.ParseArrowBody | parser/src/parser/function.rs:29-33 | the cursor and the result are those of `ArrowBodyAt` |
| Functions.ParseArrowFunctionExpr | parser/src/parser/function.rs:21-44 | the cursor and the result are those of `ArrowFunctionAt` |
| Functions.ParseAsyncArrowFunctionExpr | parser/src/parser/function.rs:49-79 | the cursor and the result are those of `AsyncArrowFunctionAt`; the caller's context is restored |
| Functions.ParseFunctionRest | parser/src/parser/function.rs:104-118 | the cursor and the result are those of `FunctionRestAt` |
| Functions.ParseFunctionExpr | parser/src/parser/function.rs:100-119 | the cursor and the result are those of `FunctionExprAt` |
| Functions.ParseAsyncFunctionOpening | parser/src/parser/function.rs:123-127 | the cursor and the result are those of `AsyncFunctionOpeningAt` |
| Functions.ParseAsyncFunctionExpr | parser/src/parser/function.rs:122-144 | the cursor and the result are those of `AsyncFunctionExprAt` |
| Functions.ParseFunctionImplementation | parser/src/parser/function.rs:183-203 | the cursor and the result are those of `FunctionImplementationAt` |
| Functions.ParseDeclarationRest | parser/src/parser/function.rs:151-155 | the cursor and the result are those of `DeclarationRestAt`; the caller's context is restored |
| Functions.ParseFunctionDeclaration | parser/src/parser/function.rs:147-156 | the cursor and the result are those of `FunctionDeclarationAt`; the caller's context is restored |
| Functions.ParseAsyncFunctionDeclaration | parser/src/parser/function.rs:159-171 | the cursor and the result are those of `AsyncFunctionDeclarationAt`; the caller's context is restored |
| Iteration.ParenthesizedTestAt | parser/src/iteration.rs:47-51 | `(`, an expression read with `[In]` set, then `)` |
| Iteration.DoWhileAt | parser/src/iteration.rs:20-41 | `do`, the body statement, `while`, the parenthesized test and an optional `;`, which is consumed when present; the span runs from `do` to the read position after that |
| Iteration.WhileAt | parser/src/iteration.rs:44-62 | `while`, the parenthesized test, then the body statement, spanning from `while` to after the body |
| Iteration.OptionalVariableKindAt | parser/src/iteration.rs:261-276 | needs a current token; `var` and `const` always give a kind and `let` exactly when a lexical binding follows; the keyword is consumed exactly when a kind is recognised |
| Iteration.ForLeftExprAt | parser/src/iteration.rs:211-216 | a left-hand-side expression that passes its early errors; an early error is reported after the expression |
| Iteration.ForDeclarationAt | parser/src/iteration.rs:193-218 | a declaration exactly when a variable kind is recognised, then a binding pattern spanning from the keyword; otherwise an assignment pattern when `[` or `{` comes first, else a left-hand-side expression |
| Iteration.ForInitDeclarationAt | parser/src/iteration.rs:244-259 | the declarations after the keyword, read with `[In]` cleared, spanning from the keyword |
| Iteration.ForInitAt | parser/src/iteration.rs:230-242 | a declaration exactly when a variable kind is recognised; otherwise an expression read with `[In]` cleared |
| Iteration.OptionalForInitAt | parser/src/iteration.rs:222-228 | nothing, with nothing consumed, when `;` comes first; otherwise the initializer wrapped in `Some` |
| Iteration.ForUpdateAt | parser/src/iteration.rs:107-123 | an update exactly when `)` does not come first, read with `[In]` set, then `)` and the body; the loop keeps the given initializer and test |
| Iteration.ForTestAt | parser/src/iteration.rs:103-105 | a test exactly when `;` does not come first, read with `[In]` set, then `;` and the rest |
| Iteration.TryForAt | parser/src/iteration.rs:85-124 | the initializer is read first; its failure gives `Ok(None)`, and after a successful one the outcome is what `AfterForInitAt` gives; a loop comes back only when not asynchronous, and it is a `for (;;)` loop |
| Iteration.TryForOutcome | parser/src/iteration.rs:85-124 | `Ok(None)` exactly when the initializer fails or no `;` follows it; after `for await` the `;` is reported as "'for await' loops must be used with 'of'"; otherwise a `for (;;)` loop read by `ForTestAt` after the `;` |
| Iteration.AfterForInitAt | parser/src/iteration.rs:91-124 | `Ok(None)` with nothing consumed exactly when no `;` follows the initializer; after the `;` an asynchronous loop is the "'for await' loops must be used with 'of'" error spanning to after the `;`, and any other loop is the `for (;;)` loop read by `ForTestAt` |
| Iteration.ForInAt | parser/src/iteration.rs:150-166 | `in`, the right side read with `[In]` set, `)` and the body, with the given left side |
| Iteration.ForOfAt | parser/src/iteration.rs:168-190 | `of`, the right side read with `[In]` set, `)` and the body, with the given left side and asynchrony |
| Iteration.InOrOfAt | parser/src/iteration.rs:131-147 | `of` gives a `for-of`, `in` a `for-in` except after `for await`, which is an error; any other token is consumed and reported as unexpected |
| Iteration.ForInOfAt | parser/src/iteration.rs:128-148 | the left side, then `in` or `of`; only a `for-of` can be asynchronous, and exactly when the caller says so |
| Iteration.ForHeadAt | parser/src/iteration.rs:72-79 | a `for (;;)` loop exactly when `try_parse_for` gives one; when it gives `None`, the head is read again from the same token as `for-in`/`for-of` |
| Iteration.AwaitMarkerAt | parser/src/iteration.rs:69 | never fails; `await` is consumed and reported exactly when the context has `[Await]` and it is the current token |
| Iteration.ForStmtAt | parser/src/iteration.rs:65-80 | `for`, the optional `await`, `(`, then the head; the loop is an asynchronous `for-of` exactly when the context has `[Await]` and `await` follows `for` |
| Iteration.ParseParenthesizedTest | parser/src/iteration.rs:47-51 | the cursor and the result are those of `ParenthesizedTestAt` |
| Iteration.ParseDoWhileStmt | parser/src/iteration.rs:20-41 | the cursor and the result are those of `DoWhileAt` |
| Iteration.ParseWhileStmt | parser/src/iteration.rs:44-62 | the cursor and the result are those of `WhileAt` |
| Iteration.ParseOptionalVariableKind | parser/src/iteration.rs:261-276 | the cursor and the result are those of `OptionalVariableKindAt` |
| Iteration.ParseForLeftExpr | parser/src/iteration.rs:211-216 | the cursor and the result are those of `ForLeftExprAt` |
| Iteration.ParseForDeclaration | parser/src/iteration.rs:193-218 | the cursor and the result are those of `ForDeclarationAt` |
| Iteration.ParseForInitDeclaration | parser/src/iteration.rs:244-259 | the cursor and the result are those of `ForInitDeclarationAt` |
| Iteration.ParseForInit | parser/src/iteration.rs:230-242 | the cursor and the result are those of `ForInitAt` |
| Iteration.ParseOptionalForInit | parser/src/iteration.rs:222-228 | the cursor and the result are those of `OptionalForInitAt` |
| Iteration.ParseForUpdate | parser/src/iteration.rs:107-123 | the cursor and the result are those of `ForUpdateAt` |
| Iteration.ParseForTest | parser/src/iteration.rs:103-123 | the cursor and the result are those of `ForTestAt` |
| Iteration.TryParseFor | parser/src/iteration.rs:85-124 | the cursor and the result are those of `TryForAt` |
| Iteration.ParseAfterForInit | parser/src/iteration.rs:91-124 | the cursor and the result are those of `AfterForInitAt` |
| Iteration.ParseForIn | parser/src/iteration.rs:150-166 | the cursor and the result are those of `ForInAt` |
| Iteration.ParseForOf | parser/src/iteration.rs:168-190 | the cursor and the result are those of `ForOfAt` |
| Iteration.ParseInOrOf | parser/src/iteration.rs:131-147 | the cursor and the result are those of `InOrOfAt` |
| Iteration.ParseForInOf | parser/src/iteration.rs:128-148 | the cursor and the result are those of `ForInOfAt` |
| Iteration.ParseForHead | parser/src/iteration.rs:72-79 | `try_parse_for`, then on `None` the cursor is rewound to the first token of the head and `parse_for_in_of` runs, as `ForHeadAt` says |
| Iteration.ParseForStmt | parser/src/iteration.rs:65-80 | the cursor and the result are those of `ForStmtAt` |
| ParserCore.VariableKindOf | parser/src/parser/iteration.rs:162-167 | `var`, `let` and `const` each give their own kind, exactly; `let` needs no lookahead in this revision |
| LegacyIteration.ParenthesizedTestAt | parser/src/parser/iteration.rs:25-29 | `(`, an expression read in the caller's context, then `)` |
| LegacyIteration.DoWhileAt | parser/src/parser/iteration.rs:18-38 | `do`, the body, `while` and the parenthesized test; a following `;` is not consumed; the span runs from `do` to after the `)` |
| LegacyIteration.WhileAt | parser/src/parser/iteration.rs:40-58 | `while`, the parenthesized test, then the body, spanning from `while` to after the body |
| LegacyIteration.FirstDeclarationAt | parser/src/parser/iteration.rs:169-181 | the declarations after the keyword, read with `[In]` cleared, with the keyword's kind and a span from the keyword |
| LegacyIteration.FirstArgumentAt | parser/src/parser/iteration.rs:160-190 | a current token is required; `var`, `let` and `const` start a declaration; `;` gives nothing with nothing consumed; anything else is an expression read with `[In]` cleared |
| LegacyIteration.PlainForUpdateAt | parser/src/parser/iteration.rs:88-100 | an update exactly when `)` does not come first, read in the caller's context, then `)` and the body; the loop keeps the given initializer and test |
| LegacyIteration.PlainForAt | parser/src/parser/iteration.rs:83-101 | `;`, a test exactly when `;` does not come next, `;`, then the rest |
| LegacyIteration.ForInAt | parser/src/parser/iteration.rs:103-123 | `in`, the right side read with `[In]` set, `)` and the body, with the given left side |
| LegacyIteration.ForOfAt | parser/src/parser/iteration.rs:137-158 | `of`, the right side read with `[In]` set, `)` and the body, with the given left side and `wait` flag |
| LegacyIteration.UnexpectedAt | parser/src/parser/iteration.rs:79 | the current token is consumed and reported as unexpected with no span, or the error of reading it is reported |
| LegacyIteration.ForFormAt | parser/src/parser/iteration.rs:71-80 | `;` gives a plain `for`; `of` and `in` give `for-of` (without `wait`) and `for-in` when there is a first argument; anything else is consumed and reported as unexpected |
| LegacyIteration.ForAwaitOfAt | parser/src/parser/iteration.rs:125-135 | `await`, `(`, a first argument that must be there (a missing one reports the token after it), then a `for-of` loop with `wait` set |
| LegacyIteration.ForHeadAt | parser/src/parser/iteration.rs:68-80 | the first argument, then the form chosen by the token after it; never a `for await` loop |
| LegacyIteration.ForStmtAt | parser/src/parser/iteration.rs:60-81 | `for` is required, then what follows it with a span from `for`; the loop has `wait` set exactly when the context has `[Await]` and `await` follows `for` |
| LegacyIteration.AfterForKeywordAt | parser/src/parser/iteration.rs:64-80 | `for await` exactly when the context has `[Await]` and `await` comes next; otherwise `(` is required, then the head; the loop has `wait` set exactly in the first case |
| LegacyIteration.ParseParenthesizedTest | parser/src/parser/iteration.rs:25-29 | the cursor and the result are those of `ParenthesizedTestAt` |
| LegacyIteration.ParseDoWhileStmt | parser/src/parser/iteration.rs:18-38 | the cursor and the result are those of `DoWhileAt` |
| LegacyIteration.ParseWhileStmt | parser/src/parser/iteration.rs:40-58 | the cursor and the result are those of `WhileAt` |
| LegacyIteration.ParseFirstDeclaration | parser/src/parser/iteration.rs:169-181 | the cursor and the result are those of `FirstDeclarationAt` |
| LegacyIteration.ParseForFirstArgument | parser/src/parser/iteration.rs:160-190 | the cursor and the result are those of `FirstArgumentAt` |
| LegacyIteration.ParsePlainForUpdate | parser/src/parser/iteration.rs:88-100 | the cursor and the result are those of `PlainForUpdateAt` |
| LegacyIteration.ParsePlainFor | parser/src/parser/iteration.rs:83-101 | the cursor and the result are those of `PlainForAt` |
| LegacyIteration.ParseForIn | parser/src/parser/iteration.rs:103-123 | the cursor and the result are those of `ForInAt` |
| LegacyIteration.ParseForOf | parser/src/parser/iteration.rs:137-158 | the cursor and the result are those of `ForOfAt` |
| LegacyIteration.ParseUnexpected | parser/src/parser/iteration.rs:79 | the cursor and the result are those of `UnexpectedAt` |
| LegacyIteration.ParseForForm | parser/src/parser/iteration.rs:71-80 | the cursor and the result are those of `ForFormAt` |
| LegacyIteration.ParseForAwaitOf | parser/src/parser/iteration.rs:125-135 | the cursor and the result are those of `ForAwaitOfAt` |
| LegacyIteration.ParseForHead | parser/src/parser/iteration.rs:68-80 | the cursor and the result are those of `ForHeadAt` |
| LegacyIteration.ParseForStmt | parser/src/parser/iteration.rs:60-81 | the cursor and the result are those of `ForStmtAt` |
| LegacyIteration.ParseAfterForKeyword | parser/src/parser/iteration.rs:64-80 | the cursor and the result are those of `AfterForKeywordAt` |
| Modules.UnexpectedAt | parser/src/parser/module.rs:42 | the current token is consumed and reported as unexpected with no span, or the error of reading it is reported |
| Modules.OptionalAliasAt | parser/src/parser/module.rs:77-79 | without `as` nothing is read and there is no alias; after `as` the alias is the identifier that follows |
| Modules.ModuleSpecifierAt | parser/src/parser/module.rs:150-157 | a module name is the text of the string literal read there; a literal of another kind is where the source gives up |
| Modules.ImportSpecifierAt | parser/src/parser/module.rs:185-193 | an identifier, then an alias exactly when `as` follows, with a span over both |
| Modules.ExportSpecifierAt | parser/src/parser/module.rs:213-230 | with `a as b` the exported name is `b` and `a` is what it is an alias of; without `as` the name is `a`; the span covers the whole specifier |
| Modules.NamedImportItemAt | parser/src/parser/module.rs:177-178 | one import specifier followed by `,` or a `}` that is left in place |
| Modules.NamedImportsLoopAt | parser/src/parser/module.rs:171-179 | the loop always makes progress when it succeeds |
| Modules.NamedImportsLoopOrder | parser/src/parser/module.rs:170-181 | the list keeps the specifiers read before, in order, and ends right after a `}` |
| Modules.NamedExportItemAt | parser/src/parser/module.rs:206-207 | one export specifier followed by `,` or a `}` that is left in place |
| Modules.NamedExportsLoopAt | parser/src/parser/module.rs:200-208 | the loop always makes progress when it succeeds |
| Modules.NamedExportsLoopOrder | parser/src/parser/module.rs:199-210 | the list keeps the specifiers read before, in order, and ends right after a `}` |
| Modules.NamedImportsAt | parser/src/parser/module.rs:167-182 | `{` is required, then the specifier list |
| Modules.EmptyNamedImports | parser/src/parser/module.rs:167-182 | `{}` reads as the empty list and consumes both tokens |
| Modules.NamedExportsAt | parser/src/parser/module.rs:196-211 | `{` is required, then the specifier list |
| Modules.NamespaceImportAt | parser/src/parser/module.rs:160-164 | succeeds exactly on `*`, `as` and an identifier, whose name it gives |
| Modules.ImportBindingsAt | parser/src/parser/module.rs:124-128 | `*` gives a namespace import, `{` gives named imports, anything else is consumed and reported as unexpected |
| Modules.ImportClauseRestAt | parser/src/parser/module.rs:122-131 | the bindings are required when there is no default binding or when `,` follows it; otherwise there are none and nothing is read |
| Modules.ImportClauseAt | parser/src/parser/module.rs:121-131 | a default binding exactly when an identifier comes first, then the rest of the clause |
| Modules.ImportClauseShape | parser/src/parser/module.rs:121-131 | a clause has a namespace import or named imports exactly unless its default binding stands alone |
| Modules.ImportSourceAt | parser/src/parser/module.rs:133-146 | the module specifier and an optional `;`, with the given bindings and a span from the given start |
| Modules.ImportDeclarationAt | parser/src/parser/module.rs:102-147 | `import` is required; a string literal right after it imports nothing; otherwise a clause, a required `from` and the module specifier |
| Modules.VarDeclExportAt | parser/src/parser/module.rs:46-58 | the variable statement of the given kind, wrapped as an exported declaration spanning from `export` |
| Modules.DefaultExportAt | parser/src/parser/module.rs:60-72 | never a success: it fails exactly when `default` is missing or the token after it cannot be read, and every other form is where the source gives up |
| Modules.NamespaceExportAt | parser/src/parser/module.rs:75-84 | `*`, an optional `as name`, a required `from` and the module specifier |
| Modules.NamedExportAt | parser/src/parser/module.rs:87-99 | the named exports, then a module specifier exactly when `from` follows |
| Modules.ExportBodyAt | parser/src/parser/module.rs:23-43 | `{`, `*`, a variable keyword and `default` choose their forms; a class or (async) function is where the source gives up; anything else is consumed and reported as unexpected |
| Modules.ExportDeclarationAt | parser/src/parser/module.rs:19-44 | `export` is required, then what follows it, with a span from `export` |
| Modules.ParseUnexpected | parser/src/parser/module.rs:42 | the cursor and the result are those of `UnexpectedAt` |
| Modules.ParseOptionalAlias | parser/src/parser/module.rs:77-79 | the cursor and the result are those of `OptionalAliasAt` |
| Modules.ParseModuleSpecifier | parser/src/parser/module.rs:150-157 | the cursor and the result are those of `ModuleSpecifierAt` |
| Modules.ParseImportSpecifier | parser/src/parser/module.rs:185-193 | the cursor and the result are those of `ImportSpecifierAt` |
| Modules.ParseExportSpecifier | parser/src/parser/module.rs:213-230 | the cursor and the result are those of `ExportSpecifierAt` |
| Modules.ParseNamedImportItem | parser/src/parser/module.rs:177-178 | the cursor and the result are those of `NamedImportItemAt` |
| Modules.ParseNamedExportItem | parser/src/parser/module.rs:206-207 | the cursor and the result are those of `NamedExportItemAt` |
| Modules.ParseNamedImports | parser/src/parser/module.rs:167-182 | the cursor and the result are those of `NamedImportsAt` |
| Modules.ParseNamedExports | parser/src/parser/module.rs:196-211 | the cursor and the result are those of `NamedExportsAt` |
| Modules.ParseNamespaceImport | parser/src/parser/module.rs:160-164 | the cursor and the result are those of `NamespaceImportAt` |
| Modules.ParseImportBindings | parser/src/parser/module.rs:124-128 | the cursor and the result are those of `ImportBindingsAt` |
| Modules.ParseImportClause | parser/src/parser/module.rs:121-131 | the cursor and the result are those of `ImportClauseAt` |
| Modules.ParseImportSource | parser/src/parser/module.rs:133-146 | the cursor and the result are those of `ImportSourceAt` |
| Modules.ParseImportDeclaration | parser/src/parser/module.rs:102-147 | the cursor and the result are those of `ImportDeclarationAt` |
| Modules.ParseVarDeclExport | parser/src/parser/module.rs:46-58 | the cursor and the result are those of `VarDeclExportAt` |
| Modules.ParseDefaultExport | parser/src/parser/module.rs:60-72 | the cursor and the result are those of `DefaultExportAt` |
| Modules.ParseNamespaceExport | parser/src/parser/module.rs:75-84 | the cursor and the result are those of `NamespaceExportAt` |
| Modules.ParseNamedExport | parser/src/parser/module.rs:87-99 | the cursor and the result are those of `NamedExportAt` |
| Modules.ParseExportBody | parser/src/parser/module.rs:23-43 | the cursor and the result are those of `ExportBodyAt` |
| Modules.ParseExportDeclaration | parser/src/parser/module.rs:19-44 | the cursor and the result are those of `ExportDeclarationAt` |
| Cover.SkipUntilClosingAt | parser/src/cover.rs:57-88 | a successful skip consumes at least one item and ends right after a `)`; the end of the stream is reported where it is reached |
| Cover.SkipErrorItems | parser/src/cover.rs:72-82 | an unrecognized code point is stepped over at the same depth; any other error ends the skip with that error, past its item |
| Cover.SkipStopsAtMatchingParen | parser/src/cover.rs:58-67 | without template literals in between, the skip stops at the first `)` that brings the nesting back to zero, and at no earlier one |
| Cover.TokenAfterParenthesisAt | parser/src/cover.rs:45-53 | on success the cursor is back where it started and the token after the matching `)` is returned exactly when there is one; a failed skip keeps its error and position; no current token is an error at once |
| Cover.CoveredCallAt | parser/src/cover.rs:37-41 | `async` read as an identifier is the callee handed to the call-expression routine, with a span from where it started; a failure to read it is returned as is |
| Cover.CoverParenthesizedAt | parser/src/cover.rs:17-24 | the arrow function exactly when `=>` follows the matching `)` on the same line, the parenthesized expression otherwise, both read from the `(` |
| Cover.CoverCallOrAsyncArrowAt | parser/src/cover.rs:27-34 | the async arrow function exactly when `=>` follows the matching `)`, on any line, the covered call otherwise |
| Cover.SkipUntilClosingParenthesis | parser/src/cover.rs:57-88 | the loop starting at depth zero leaves the cursor and the result of `SkipUntilClosingAt` |
| Cover.TokenAfterParenthesis | parser/src/cover.rs:45-53 | the cursor and the result are those of `TokenAfterParenthesisAt` |
| Cover.ParseCoveredCallExpression | parser/src/cover.rs:37-41 | the cursor and the result are those of `CoveredCallAt` |
| Cover.ParseCoverParenthesizedAndArrowParameters | parser/src/cover.rs:17-24 | the cursor and the result are those of `CoverParenthesizedAt` |
| Cover.ParseCoverCallOrAsyncArrowHead | parser/src/cover.rs:27-34 | the cursor and the result are those of `CoverCallOrAsyncArrowAt` |
| Snapshot.BlockStart | parser/tests/snapshot.rs:112-115 | the opening marker starts with the three-backtick delimiter and ends with a line break, around the annotation |
| Snapshot.Find | parser/tests/snapshot.rs:116 | the offset of the first occurrence of the pattern, or none when the text holds none |
| Snapshot.BlockAt | parser/tests/snapshot.rs:123-127 | the text from the data offset up to the first delimiter after it: it holds no delimiter, it is a slice of the source, and a delimiter follows it; none when no delimiter follows |
| Snapshot.GetCodeBlock | parser/tests/snapshot.rs:114-131 | no block without a marker or when the marker neither starts the text nor follows a line break; a block found is the text from the end of the marker to the next delimiter, and holds no delimiter |
| Snapshot.GetCodeBlockAsWritten | parser/tests/snapshot.rs:114-131 | the function with its string slices, which panic off character boundaries; where it does not panic it agrees with `GetCodeBlock` |
| Snapshot.AsWrittenPanicsAfterMultibyte | parser/tests/snapshot.rs:118 | on UTF-8 text the function as written panics exactly when a non-ASCII character directly precedes the marker it finds |
| Snapshot.MultibyteBeforeMarkerPanics | parser/tests/snapshot.rs:118 | the UTF-8 text `é` followed by a `js` block makes the function as written panic where no block is the intended answer |
| Snapshot.GenerateCodeBlock | parser/tests/snapshot.rs:133-138 | the generated block is the data, the marker and the closing delimiter, with nothing else but three line breaks |
| Snapshot.ClosingDelimiterAfterData | parser/tests/snapshot.rs:124 | the first delimiter after delimiter-free data and a line break is the one written after them |
| Snapshot.CodeBlockRoundTrip | parser/tests/snapshot.rs:114-138 | a generated block reads back as its data followed by the line break before the closing delimiter, for data without a delimiter of its own |

## Left out

- Test-runner I/O is not modelled, because it is file reads and writes and JSON round trips. This covers `Markdown::from_file`, `append_json_block`, `read_string` and `snapshot_runner` in parser/tests/snapshot.rs, and the AST and code-generation checks in tests/.
- The procedural macro that derives `FromStr` for keywords and punctuators is not modelled. Only its effect is: a fixed table between texts and variants.
- Floating-point numbers are not modelled. A decimal literal's value is an opaque 64-bit payload that the conversions pass through unchanged.
- Routines whose bodies are outside the modelled files are parameters (`ParserCore.SubParsers`). This covers expressions, statements, literals, variable declarations and statements, parenthesized expressions, arrow functions of the cover grammar, call expressions, template literal parts, the optional semicolon, the lexical-binding look-ahead and the left-hand-side early errors. Their results are unconstrained beyond staying in bounds and progress.
- `PeekReader` and `rewind_to` of the common crate are not modelled as code. The token stream is a sequence read by index, and a rewind restores the index. A rewind to a token that was never read cannot be expressed, so its error is not modelled.
- The source type, shared through `Rc<Cell<…>>`, is a plain field of the cursor.
- `Error::of`, `Error::expected_other_token`, `Error::expected_ident` and the `err!` macro are not defined in the modelled error file. They become `Errors.Of`, `Errors.ExpectedOtherToken` and `Errors.ExpectedIdentOf`, with the kinds `ExpectedToken` and `ExpectedIdent`, and have no rows above. `Errors.Display` does not cover those two kinds.
- The `Display` texts of lexer errors and of token values are defined outside the modelled files. They are parameters of `Errors.Display`.
- The error emitter and its diagnostics are not modelled.
- Panics are not modelled as behaviour. `todo!`, `unimplemented!`, `debug_assert!` and failed `unwrap`s (for example an `=` initializer in a binding element, `[` in the early variable statement, or `export default`, class and function exports) are the `Unsupported` outcome. Each method requires that its routine's outcome is not `Unsupported`.
- Lexing.Reader.Next: the `u32` column counter is a `nat`, so its overflow after 2^32 characters is not modelled.
- Lexing.NumberAt: a number followed by a non-ASCII character is `Unsupported`, because the Unicode class that `char::is_alphanumeric` gives it is not modelled.
- EarlyErrors.Sort: `sort_unstable` of the bound names is a functional insertion sort on a sequence. The in-place update of the vector is not modelled; the sort's ordering and permutation are what is proved.
- Cover.SkipUntilClosingAt: the nesting depth, an `i32` in the source, is an unbounded integer.
- Cover.SkipStopsAtMatchingParen: it is proved only for skips that meet no template literal, since the template routine's consumption is a parameter.
- Syntax.BoundNames: `BindingPattern::get_bound_names` is defined outside the modelled files. `Syntax.BoundNames`, `Syntax.PropNames` and `Syntax.ElementNames` give it an assumed definition: the identifiers a pattern binds, left to right, each rest identifier after the elements before it. The early-error checks and the binding examples rely on that definition.
- Ast.TryFrom: a failed conversion gives the model's own `Ast.ConversionError`, holding the token value and the token's span. The source builds the parser's error with `Error::of`, so that error has an empty outer span, and its message formats the token value with `Debug`. The parser's error type is not used here, and the message text is not modelled.
- Snapshot.Utf8Shaped: test files are byte sequences. This predicate is a necessary condition of valid UTF-8, not a full UTF-8 check, so `Snapshot.AsWrittenPanicsAfterMultibyte` holds for every text of that shape.

## Findings

| source | as written | input that shows it | evidently intended | confidence | as-written member | corrected member |
|---|---|---|---|---|---|---|
| parser/tests/snapshot.rs:118 | `get_code_block` takes the byte before the marker as the string slice `source[start - 1..start]`, and slicing a `&str` panics off a character boundary | `"é```js\n```"` with annotation `js`: the byte before the marker ends the two-byte `é` | no block, because the marker does not start a line, as the comment on the line above says | not executed | Snapshot.GetCodeBlockAsWritten, Snapshot.MultibyteBeforeMarkerPanics | Snapshot.GetCodeBlock, Snapshot.CodeBlockRoundTrip |
