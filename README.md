# ATL front end: lexer wrapper and recursive-descent parser, in Dafny

ATL (Algebraic Type Language) describes algebraic data types. Its front end is a
lexer plus a recursive-descent parser that turns text such as `option|some, none>`
into a tree of type definitions. The grammar has sums and products, but as
written only sums parse: a product panics. This project models that front end
and proves what each part does:

- **The lexer wrapper** (`lexer.dfy`, module `Lexer`). This is the `Lexer`
  struct over the token matcher. The matcher itself is abstract: its output is
  a sequence of `Item`s, each a recognised `Token` with its text or an
  unmatched slice. The struct's state has two parts:
  - the matcher's cursor and current slice;
  - `current_tok`, `next_tok` (the one-token lookahead) and `tok_string`.

  `Start` and `Advance` are the pure meaning of `new` and `next`. The class
  `Lexer` holds the same fields and its methods are proved to match those
  functions. `WellFormed` states what the matcher can yield: the identifier
  pattern, numbers, literals, fixed spellings, and keywords taking priority
  over identifiers.
- **`ParseError`** (`parse_error.dfy`, module `ParseErrors`). It holds the
  offending token text and a trace of context strings, innermost cause first.
  The module defines `new`, `err`, `context`, `Result::context`, and `Display`
  as the fold the source performs.
- **The grammar rules** (`grammar.dfy`, module `Grammar`). Each of `Ident`,
  `Ty`, `Def`, `Sum` and `Subtypes` has a pure function of the lexer state. It
  returns the rule's outcome and the state the shared lexer is left in. The
  rules are mutually recursive: Def, Sum, Subtypes, Ty, Def again. They
  terminate on `Remaining`, which is two per unscanned item plus one while a
  lookahead is held. Every `next` on a present lookahead lowers it. An outcome
  is either a returned `Result` or `Panicked`. `Panicked` stands for reaching
  `Prod::parse`, which is `todo!()`. No rule catches it, `Ty` included.
- **The parse methods** (`parser.dfy`, module `Parser`). These are the
  imperative `parse` functions. They work on one `Lexer` object and the
  `Subtypes` loop keeps a growing local list. Each is proved to return, and
  to leave the lexer, exactly as its rule function says.
- **Properties** (`grammar_lemmas.dfy`) and **test cases** (`fixtures.dfy`).
  Each test input is given as the item stream the matcher yields for it
  (`WellFormed`), so `let` and `def` come as keywords, never as identifiers.

The model follows the code as written:

- A sum opens on `|`, not `<`.
- A subtype list closes on either `>` or `]`, whatever opened it.
- Commas are optional, and one may come before the first element.
- `Ty` discards any error of its nested-definition attempt. It then names the
  lexer's last token text, with no rollback.
- A product always panics.

As a consequence, the parser only ever yields sums (`DefOnlySums`). Also,
`a|b|,>` parses to a sum whose single element is `Named(Ident(","))`, a name
that is not an identifier (`FallbackNamesNonIdentifier`). A lexical error
can have the same effect: `a|b@>` parses to a sum of `Named(Ident("b"))` and
`Named(Ident("@"))`, as the next paragraph explains (`StaleLookaheadNamesBadSlice`).

A lexical error inside `next` leaves a stale lookahead: `tok_string` and
`current_tok` have moved, but `next_tok` has not. Because `Ty` swallows errors,
parsing can go on from that state. The model keeps this behaviour. `Synced`
names the states in which the lookahead and the matcher agree.

Assumption: `src/ast/def.rs:24` and `src/ast/def/sum.rs:16` call
`ParseError::err` with only the cause, although it takes two arguments. The
model gives these errors the token text `lexer.tok_string()`, as `ident.rs` and
`ty.rs` do.

## Model

| member | source | states |
|---|---|---|
| `ParseErrors.New` | src/ast.rs:20-25 | a new error has trace exactly `[cause]` and the given token text |
| `ParseErrors.Raise` | src/ast.rs:27-29 | `err` always fails, with the error `new` builds |
| `ParseErrors.Context` | src/ast.rs:31-35 | `context` appends the description at the end of the trace; earlier entries keep their order and the token text is unchanged |
| `ParseErrors.WithContext` | src/ast.rs:65-69 | `Result::context` leaves `Ok` untouched (both directions) and appends the description to an `Err`'s trace, keeping its token text |
| `ParseErrors.ContextAllTrace` | src/ast.rs:31-35 | after a series of `context` calls the trace is the original trace followed by every description in call order |
| `ParseErrors.TraceOfNewWithContexts` | src/ast.rs:20-35 | trace length is 1 plus the number of `context` calls, and the first entry is the innermost cause |
| `ParseErrors.RenderIsJoined` | src/ast.rs:40-51 | when no trace entry is empty, the fold renders the first entry, then each later entry after `\n-> while parsing `, and the result is non-empty |
| `ParseErrors.Display` | src/ast.rs:38-52 | the message opens with `error encountered at token "<tok>" while parsing `, goes on with the left fold of the trace, and ends with the newline of `writeln!` |
| `ParseErrors.DisplayIsJoined` | src/ast.rs:40-51 | when no trace entry is empty, the message is the header, the innermost cause, one `\n-> while parsing <context>` line per enclosing context, and a newline |
| `ParseErrors.DisplayNew` | src/ast.rs:40-51 | a fresh error renders as `error encountered at token "<tok>" while parsing <cause>` plus a newline |
| `ParseErrors.DisplayContext` | src/ast.rs:40-51 | adding a context adds one `\n-> while parsing <description>` line before the final newline |
| `Lexer.Spelling` | src/lexer.rs:9-97 | exactly `String`, `Char`, `Identifier` and `Number` are matched by a pattern; every other token has one fixed, non-empty spelling |
| `Lexer.IdentifierTextShape` | src/lexer.rs:93-94 | identifier text is non-empty, never starts with a digit and holds no blank or `/` |
| `Lexer.SpellingShape` | src/lexer.rs:15-91 | no fixed token spelling starts with a blank or with the comment opener `//` |
| `Lexer.TokensAreNotSkipped` | src/lexer.rs:5-98 | no recognised token text starts with a blank or `//`, so whitespace and comments never appear as tokens |
| `Lexer.Start` | src/lexer.rs:109-120 | `new` fails exactly when the first item is unmatched, with "unrecognized token" and that slice; otherwise nothing is consumed, `tok_string` is empty and the lookahead is the first token or None |
| `Lexer.Advance` | src/lexer.rs:128-139 | `next` sets `tok_string` to the last scanned slice and `current_tok` to the old lookahead; on success it returns that lookahead and the new lookahead is the following token or None; it fails exactly on an unmatched item, with the consumed token's text and the lookahead unchanged; a present lookahead lowers the termination measure |
| `Lexer.StartSynced` | src/lexer.rs:109-125 | after `new` the lookahead agrees with the matcher, and input of only blanks and comments peeks None |
| `Lexer.AdvanceSynced` | src/lexer.rs:128-139 | from an agreeing state `tok_string` becomes the consumed token's text, success keeps the agreement, and at end of input `next` returns `Ok(None)` |
| `Lexer.AdvanceLexicalError` | src/lexer.rs:129-136 | on an unmatched item the error carries the consumed token's text, not the bad slice; `current_tok` has moved, `next_tok` is unchanged and the cursor has advanced |
| `Lexer.Lexer.New` | src/lexer.rs:109-121 | the method fails or builds a fresh lexer exactly as `Start` says |
| `Lexer.Lexer.Peek` | src/lexer.rs:123-125 | `peek` returns the lookahead and changes no state, so repeated calls agree |
| `Lexer.Lexer.TokString` | src/lexer.rs:141-143 | returns the text of the last consumed token |
| `Lexer.Lexer.Next` | src/lexer.rs:128-139 | the result and the new fields are exactly those of `Advance` on the old state |
| `Grammar.IdentRule` | src/ast/ident.rs:9-17 | `Ident::parse` always returns (never panics); consuming an identifier lowers the measure |
| `Grammar.TyRule` | src/ast/ty.rs:12-20 | `Ty::parse` leaves a valid state; a successful `Ty` has consumed input, which is what makes the `Subtypes` loop terminate |
| `Grammar.DefRule` | src/ast/def.rs:19-28 | `Def::parse` consumes input whenever its lookahead is an identifier |
| `Grammar.SumRule` | src/ast/def/sum.rs:10-18 | `Sum::parse` never lengthens the remaining input |
| `Grammar.SubtypesRule` | src/ast/subtypes.rs:9-24 | the `Subtypes` loop terminates and never lengthens the remaining input |
| `Parser.ParseIdent` | src/ast/ident.rs:9-17 | the method returns and leaves the lexer as `IdentRule` says |
| `Parser.ParseTy` | src/ast/ty.rs:12-20 | the method returns and leaves the lexer as `TyRule` says, with no state rollback on the fallback |
| `Parser.ParseDef` | src/ast/def.rs:19-28 | the method returns and leaves the lexer as `DefRule` says |
| `Parser.ParseSum` | src/ast/def/sum.rs:10-18 | the method returns and leaves the lexer as `SumRule` says |
| `Parser.ParseSubtypes` | src/ast/subtypes.rs:9-24 | the loop returns and leaves the lexer as `SubtypesRule` from an empty list says |
| `GrammarLemmas.IdentAccepts` | src/ast/ident.rs:10-14 | with an identifier in the lookahead and a matched item after it, `Ident` holds that token's text, consumes exactly one token and moves the lookahead to the following token |
| `GrammarLemmas.IdentLexicalError` | src/ast/ident.rs:12 | a lexical error while consuming the identifier propagates unchanged |
| `GrammarLemmas.IdentRejects` | src/ast/ident.rs:15 | without an identifier in the lookahead, `Ident` fails with trace `["Ident: expected identifier"]` and the current token text, consuming nothing |
| `GrammarLemmas.IdentIsIdentifierText` | src/ast/ident.rs:10-14 | from a synced state (lookahead agreeing with the matcher) on a well-formed stream, a parsed `Ident` matches `[a-zA-Z_][a-zA-Z\d_]*` and is no keyword; without `Synced` this fails (`StaleLookaheadNamesBadSlice`) |
| `GrammarLemmas.TyRejects` | src/ast/ty.rs:13-18 | without an identifier in the lookahead, `Ty` fails with "Ty: expected identifier" and the current token text, consuming nothing |
| `GrammarLemmas.TyAttemptsDef` | src/ast/ty.rs:14-16 | with an identifier in the lookahead `Ty` never returns `Err`: a nested `Def` is wrapped, a failed one becomes `Named` with the lexer's `tok_string` afterwards, consumed tokens stay consumed, and a panic passes through |
| `GrammarLemmas.TyFallbackNamesIdentifier` | src/ast/ty.rs:16 | when `Def` fails right after reading the identifier, the fallback names exactly that identifier |
| `GrammarLemmas.DefIdentFailure` | src/ast/def.rs:20-26 | a failed identifier fails `Def` with "expected type identifier" appended; with no identifier the trace is `["Ident: expected identifier", "expected type identifier"]` |
| `GrammarLemmas.DefDispatch` | src/ast/def.rs:21-25 | after the identifier, `\|` gives `Sum(ident, …)` and `Sum`'s errors propagate with no context; `[` reaches the product rule and panics; anything else, end of input included, fails with the single cause "expected left bracket or bar for type definition" after the identifier was consumed |
| `GrammarLemmas.DefOnlySums` | src/ast/def.rs:18-28 | every definition a successful `Def` yields, nested ones included, is a sum: `Func` is never produced, and neither is `Prod` |
| `GrammarLemmas.TyOnlySums` | src/ast/ty.rs:14-16 | a successful `Ty` is a name or a sum-only definition |
| `GrammarLemmas.SumOnlySums` | src/ast/def/sum.rs:12-14 | every element of a parsed sum is a name or a sum-only definition |
| `GrammarLemmas.SubtypesOnlySums` | src/ast/subtypes.rs:19-20 | the loop appends only names and sum-only definitions |
| `GrammarLemmas.SumRejects` | src/ast/def/sum.rs:16 | without `\|` in the lookahead, `Sum` fails with "expected bar" and consumes nothing |
| `GrammarLemmas.SumWrapsSubtypes` | src/ast/def/sum.rs:12-14 | with `\|` in the lookahead, `Sum` consumes it and wraps the `Subtypes` result; errors from `next` and `Subtypes` propagate with no added context |
| `GrammarLemmas.SumClosedByAngleOrBracket` | src/ast/def/sum.rs:12-14 | a sum opened by `\|` succeeds only after consuming `>` or `]` |
| `GrammarLemmas.SubtypesEndOnCloser` | src/ast/subtypes.rs:12-14 | `Ok` is returned only right after consuming `>` or `]`, whatever opened the list (a sum opens on `\|`) |
| `GrammarLemmas.SubtypesEmpty` | src/ast/subtypes.rs:10-14 | a closer as the very first lookahead yields an empty list |
| `GrammarLemmas.SubtypesAppends` | src/ast/subtypes.rs:10-23 | the loop only appends: its result is the elements collected so far followed by those it collects itself, in parse order |
| `GrammarLemmas.SubtypesOneElementPerTy` | src/ast/subtypes.rs:19-20 | after the optional comma, each successful `Ty` appends exactly one element, after the earlier ones, and the loop goes on from the state `Ty` left |
| `GrammarLemmas.SubtypesTyFailure` | src/ast/subtypes.rs:19-21 | any `Ty` failure is returned with "Subtypes: expected type" appended to its trace |
| `GrammarLemmas.SubtypesAtEnd` | src/ast/subtypes.rs:12-21 | at end of input the list fails with trace `["Ty: expected identifier", "Subtypes: expected type"]` |
| `GrammarLemmas.SubtypesCommaNeedsType` | src/ast/subtypes.rs:15-21 | at most one comma is skipped: a closer, a second comma or end of input after a comma fails the list, with the comma's text |
| `Fixtures.TestParseIdent` | src/ast/ident.rs:24-33 | a lexer over one identifier (pattern text other than the keywords `let` and `def`) parses to `Ident` of that text and leaves the lookahead None |
| `Fixtures.KeywordsAreNotIdentifiers` | src/lexer.rs:15-19 | `let` and `def` match the identifier pattern, but the matcher yields them as keywords, and `Ident` rejects them |
| `Fixtures.IdentifierTestNames` | src/ast/ident.rs:35-73 | `hi`, `hi2`, `_hi`, `___hi`, `__index__`, `snake_case`, `CamelCase` and `pascalCase` all match the identifier pattern, so each parses to itself |
| `Fixtures.DigitLeadingRejected` | src/ast/ident.rs:75-83 | any well-formed input whose first token starts with a digit fails `Ident` |
| `Fixtures.NumberTests` | src/ast/ident.rs:75-83 | `10810ident` and `10` fail with "Ident: expected identifier" |
| `Fixtures.IllegalCharacterTest` | src/ast/ident.rs:85-88 | `identifier@name` fails with "unrecognized token" at token `identifier` |
| `Fixtures.AngleOpenerRejected` | src/ast/def.rs:21-24 | `never<>` fails after its name: a sum does not open on `<` |
| `Fixtures.BareIdentifierRejected` | src/ast/def.rs:24 | a bare identifier `mytype` is no definition |
| `Fixtures.ProductPanics` | src/ast/def.rs:23 | `void[]` reaches `Prod::parse` and panics |
| `Fixtures.SumOfNames` | src/ast/subtypes.rs:11-23 | `option\|some, none>` parses to a sum of the names `some` and `none`, in order, with nothing left |
| `Fixtures.NamedVariant` | src/ast/ty.rs:16 | an identifier followed by another identifier becomes a name |
| `Fixtures.NestedVariant` | src/ast/ty.rs:15 | `c\|d>` inside a list is a nested sum closed by `>` |
| `Fixtures.NestedSumWithoutCommas` | src/ast/subtypes.rs:12-17 | `a\|b c\|d>]` parses with no commas and two different closers |
| `Fixtures.BadSliceWellFormed` | src/lexer.rs:5-98 | `a\|b@>` is a stream the matcher can yield, with `@` as its one unmatched slice |
| `Fixtures.StaleLookaheadSteps` | src/lexer.rs:128-139 | in `a\|b@>` the `Ty` for `b` swallows the lexical error at `@`, the lookahead still shows Identifier, and the next `Ident` reads `@` |
| `Fixtures.StaleLookaheadList` | src/ast/subtypes.rs:11-23 | the list of `a\|b@>` collects `b`, then `@`, and closes on `>` |
| `Fixtures.StaleLookaheadNamesBadSlice` | src/ast/ty.rs:16 | `a\|b@>` parses to a sum of `Named(Ident("b"))` and `Named(Ident("@"))`, a name that is not an identifier |
| `Fixtures.FallbackNamesNonIdentifier` | src/ast/ty.rs:16 | `a\|b\|,>` yields `Named(Ident(","))`: after a failed attempt that consumed tokens, the name is not an identifier |
| `Fixtures.SubtypesErrorMessage` | src/ast.rs:40-51 | the message for a missing list element names the cause of `Ty`, then one "while parsing Subtypes: expected type" line |

## Left out

- The `logos` matcher and its longest-match and priority rules (src/lexer.rs:5-98) are not modelled: the token stream is an input sequence of items. `WellFormed` states only which texts each token class can have. The skip patterns are represented only by their absence from the stream.
- `Prod::parse` (src/ast/def/prod.rs:8) is `todo!()`. Reaching it is the `Panicked` outcome; the panic message and unwinding are not modelled. `ProdBody` is kept only as data.
- `Func` (src/ast/def/func.rs) is kept as data holding only its argument type. Its body refers to `Expr`, and `Expr` is not part of this model. The parser never builds a `Func`.
- `Block::parse` and the expression sublanguage (src/ast/expr/block.rs) are left out. The rule is unfinished (`todo!()`), and `Expr` is not part of this model.
- `main` (src/main.rs) only prints a greeting.
- The `test_bool` test (src/ast/def.rs:79-88) contradicts the code, so it is not used. It expects the name to equal the whole input, and a single subtype where two appear. It would also reach `Prod::parse`.
- `std::fmt::Formatter` is not modelled: `Display` is a function returning the rendered string.
- Borrowed slices (`&str` with lifetimes) are copied `string` values. `Box<Def>` in `Ty::Def` is the constructor `Nested`.
- Re-parsing the same input twice gives equal trees. This holds trivially because every rule is a function; no separate lemma states it.
