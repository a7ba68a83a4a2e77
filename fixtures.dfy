/**
 * The test cases of src/ast/ident.rs and a few whole definitions, each given
 * as the item stream the matcher yields for the input text.
 */
module Fixtures {
  import opened Wrappers
  import opened ParseErrors
  import opened Lexer
  import opened Grammar
  import opened Parser

  function IdentStream(name: string): seq<Item>
  {
    [Matched(Identifier, name)]
  }

  /**
   * `test_parse_ident(name, true)`: a lexer over a lone identifier parses to
   * that identifier's text and leaves the lookahead at end of input. The
   * keywords `let` and `def` match the identifier pattern too, but the matcher
   * yields them as `Let` and `Def` (see `KeywordsAreNotIdentifiers`).
   */
  method TestParseIdent(name: string) returns (r: Outcome<Ident>, rest: Option<Token>)
    requires IsIdentifierText(name) && name != "let" && name != "def"
    ensures r == Returned(Ok(Ident(name)))
    ensures rest == None
  {
    var made := Lexer.New(IdentStream(name));
    var lx := made.value;
    r := ParseIdent(lx);
    rest := lx.Peek();
  }

  /** The names of the passing identifier tests all match the identifier pattern. */
  lemma IdentifierTestNames()
    ensures IsIdentifierText("hi") && IsIdentifierText("hi2")
    ensures IsIdentifierText("_hi") && IsIdentifierText("___hi") && IsIdentifierText("__index__")
    ensures IsIdentifierText("snake_case") && IsIdentifierText("CamelCase") && IsIdentifierText("pascalCase")
  {
  }

  /**
   * `let` and `def` match the identifier pattern, but the matcher yields their
   * fixed tokens instead, so `Ident` rejects them.
   */
  lemma KeywordsAreNotIdentifiers()
    ensures IsIdentifierText("let") && !WellFormed(IdentStream("let"))
    ensures IsIdentifierText("def") && !WellFormed(IdentStream("def"))
    ensures IdentRule(Start([Matched(Let, "let")]).value).outcome
            == Returned(Err(ParseError(["Ident: expected identifier"], "")))
    ensures IdentRule(Start([Matched(Def, "def")]).value).outcome
            == Returned(Err(ParseError(["Ident: expected identifier"], "")))
  {
    assert !WellFormedItem(IdentStream("let")[0]);
    assert !WellFormedItem(IdentStream("def")[0]);
  }

  /**
   * Input that starts with a digit never parses as `Ident`: the first item of
   * a well-formed stream is then a Number (as for `10810ident` and `10`), or
   * the lexer cannot even be made.
   */
  lemma {:induction false} DigitLeadingRejected(items: seq<Item>)
    requires WellFormed(items) && |items| > 0 && |items[0].text| > 0 && IsDigit(items[0].text[0])
    requires Start(items).Ok?
    ensures IdentRule(Start(items).value).outcome.IsErr()
  {
    assert WellFormedItem(items[0]);
    if items[0].kind == Identifier {
      IdentifierTextShape(items[0].text);
    }
  }

  /** `10810ident` and `10`. */
  lemma NumberTests()
    ensures IdentRule(Start([Matched(Number, "10810"), Matched(Identifier, "ident")]).value).outcome
            == Returned(Err(ParseError(["Ident: expected identifier"], "")))
    ensures IdentRule(Start([Matched(Number, "10")]).value).outcome
            == Returned(Err(ParseError(["Ident: expected identifier"], "")))
  {
  }

  /** `identifier@name`: consuming the identifier scans `@`, and the error names the identifier. */
  lemma IllegalCharacterTest()
    ensures var items := [Matched(Identifier, "identifier"), Unmatched("@"), Matched(Identifier, "name")];
            IdentRule(Start(items).value).outcome == Returned(Err(ParseError(["unrecognized token"], "identifier")))
  {
  }

  /** `never<>`: a sum does not open on `<`, so the definition fails after its name. */
  lemma AngleOpenerRejected()
    ensures var items := [Matched(Identifier, "never"), Matched(LeftAngleBracket, "<"), Matched(RightAngleBracket, ">")];
            var s := DefRule(Start(items).value);
            && s.outcome == Returned(Err(ParseError(["expected left bracket or bar for type definition"], "never")))
            && s.after.nextTok == Some(LeftAngleBracket)
  {
  }

  /** `mytype`: a bare identifier is no definition. */
  lemma BareIdentifierRejected()
    ensures DefRule(Start([Matched(Identifier, "mytype")]).value).outcome
            == Returned(Err(ParseError(["expected left bracket or bar for type definition"], "mytype")))
  {
  }

  /** `void[]`: a product reaches `Prod::parse`, which is `todo!()`. */
  lemma ProductPanics()
    ensures var items := [Matched(Identifier, "void"), Matched(LeftBracket, "["), Matched(RightBracket, "]")];
            DefRule(Start(items).value).outcome == Panicked
  {
  }

  /**
   * `option|some, none>`: a sum opens on `|`, each variant not followed by
   * `|` or `[` falls back to a name, and `>` closes the list.
   */
  lemma SumOfNames()
    ensures var items := [Matched(Identifier, "option"), Matched(Bar, "|"), Matched(Identifier, "some"),
                          Matched(Comma, ","), Matched(Identifier, "none"), Matched(RightAngleBracket, ">")];
            var s := DefRule(Start(items).value);
            && s.outcome == Returned(Ok(Sum(Ident("option"), SumBody(Subtypes([Named(Ident("some")), Named(Ident("none"))])))))
            && s.after.nextTok == None
  {
    var items := [Matched(Identifier, "option"), Matched(Bar, "|"), Matched(Identifier, "some"),
                  Matched(Comma, ","), Matched(Identifier, "none"), Matched(RightAngleBracket, ">")];
    var some, none := Named(Ident("some")), Named(Ident("none"));
    var s0 := LexState(items, 1, "option", None, Some(Identifier), "");
    var s1 := LexState(items, 2, "|", Some(Identifier), Some(Bar), "option");
    var s2 := LexState(items, 3, "some", Some(Bar), Some(Identifier), "|");
    var s3 := LexState(items, 4, ",", Some(Identifier), Some(Comma), "some");
    var s4 := LexState(items, 5, "none", Some(Comma), Some(Identifier), ",");
    var s5 := LexState(items, 6, ">", Some(Identifier), Some(RightAngleBracket), "none");
    var s6 := LexState(items, 6, "", Some(RightAngleBracket), None, ">");
    assert Start(items).value == s0;
    assert IdentRule(s0) == Step(Returned(Ok(Ident("option"))), s1);
    // the variant `some`: its definition attempt stops at `,`
    assert IdentRule(s2) == Step(Returned(Ok(Ident("some"))), s3);
    assert DefRule(s2).outcome.IsErr() && DefRule(s2).after == s3;
    assert TyRule(s2) == Step(Returned(Ok(some)), s3);
    // the variant `none`: its definition attempt stops at `>`
    assert Advance(s3) == Moved(Ok(Some(Comma)), s4);
    assert IdentRule(s4) == Step(Returned(Ok(Ident("none"))), s5);
    assert DefRule(s4).outcome.IsErr() && DefRule(s4).after == s5;
    assert TyRule(s4) == Step(Returned(Ok(none)), s5);
    // the list
    assert SubtypesRule(s5, [some, none]) == Step(Returned(Ok(Subtypes([some, none]))), s6);
    assert [some] + [none] == [some, none] && [] + [some] == [some];
    assert SubtypesRule(s3, [some]) == SubtypesRule(s5, [some, none]);
    assert SubtypesRule(s2, []) == SubtypesRule(s3, [some]);
    assert Advance(s1) == Moved(Ok(Some(Bar)), s2);
    assert SumRule(s1) == Step(Returned(Ok(SumBody(Subtypes([some, none])))), s6);
  }

  /** The item stream of `a|b c|d>]`. */
  const NestedItems: seq<Item> :=
    [Matched(Identifier, "a"), Matched(Bar, "|"), Matched(Identifier, "b"),
     Matched(Identifier, "c"), Matched(Bar, "|"), Matched(Identifier, "d"),
     Matched(RightAngleBracket, ">"), Matched(RightBracket, "]")]

  /** Within `a|b c|d>]`, the variant `c|d>` is a nested sum closed by `>`. */
  lemma NestedVariant()
    ensures TyRule(LexState(NestedItems, 4, "c", Some(Identifier), Some(Identifier), "b"))
            == Step(Returned(Ok(Nested(Sum(Ident("c"), SumBody(Subtypes([Named(Ident("d"))])))))),
                    LexState(NestedItems, 8, "]", Some(RightAngleBracket), Some(RightBracket), ">"))
  {
    var items := NestedItems;
    var d := Named(Ident("d"));
    var s3 := LexState(items, 4, "c", Some(Identifier), Some(Identifier), "b");
    var s4 := LexState(items, 5, "|", Some(Identifier), Some(Bar), "c");
    var s5 := LexState(items, 6, "d", Some(Bar), Some(Identifier), "|");
    var s6 := LexState(items, 7, ">", Some(Identifier), Some(RightAngleBracket), "d");
    var s7 := LexState(items, 8, "]", Some(RightAngleBracket), Some(RightBracket), ">");
    assert IdentRule(s3) == Step(Returned(Ok(Ident("c"))), s4);
    assert Advance(s4) == Moved(Ok(Some(Bar)), s5);
    assert IdentRule(s5) == Step(Returned(Ok(Ident("d"))), s6);
    assert DefRule(s5).outcome.IsErr() && DefRule(s5).after == s6;
    assert TyRule(s5) == Step(Returned(Ok(d)), s6);
    assert SubtypesRule(s6, [d]) == Step(Returned(Ok(Subtypes([d]))), s7);
    assert [] + [d] == [d];
    assert SubtypesRule(s5, []) == SubtypesRule(s6, [d]);
    assert SumRule(s4) == Step(Returned(Ok(SumBody(Subtypes([d])))), s7);
    assert DefRule(s3) == Step(Returned(Ok(Sum(Ident("c"), SumBody(Subtypes([d]))))), s7);
  }

  /** Within `a|b c|d>]`, the variant `b` is followed by another identifier: a name. */
  lemma NamedVariant()
    ensures TyRule(LexState(NestedItems, 3, "b", Some(Bar), Some(Identifier), "|"))
            == Step(Returned(Ok(Named(Ident("b")))), LexState(NestedItems, 4, "c", Some(Identifier), Some(Identifier), "b"))
  {
    var s2 := LexState(NestedItems, 3, "b", Some(Bar), Some(Identifier), "|");
    var s3 := LexState(NestedItems, 4, "c", Some(Identifier), Some(Identifier), "b");
    assert IdentRule(s2) == Step(Returned(Ok(Ident("b"))), s3);
    assert DefRule(s2).outcome.IsErr() && DefRule(s2).after == s3;
  }

  /**
   * `a|b c|d>]`: commas are optional, a nested sum can close on `>` and the
   * outer one on `]`, whatever opened them.
   */
  lemma NestedSumWithoutCommas()
    ensures var s := DefRule(Start(NestedItems).value);
            && s.outcome == Returned(Ok(Sum(Ident("a"), SumBody(Subtypes([
                 Named(Ident("b")),
                 Nested(Sum(Ident("c"), SumBody(Subtypes([Named(Ident("d"))]))))])))))
            && s.after.nextTok == None
  {
    var items := NestedItems;
    var b := Named(Ident("b"));
    var c := Nested(Sum(Ident("c"), SumBody(Subtypes([Named(Ident("d"))]))));
    var s0 := LexState(items, 1, "a", None, Some(Identifier), "");
    var s1 := LexState(items, 2, "|", Some(Identifier), Some(Bar), "a");
    var s2 := LexState(items, 3, "b", Some(Bar), Some(Identifier), "|");
    var s3 := LexState(items, 4, "c", Some(Identifier), Some(Identifier), "b");
    var s7 := LexState(items, 8, "]", Some(RightAngleBracket), Some(RightBracket), ">");
    var s8 := LexState(items, 8, "", Some(RightBracket), None, "]");
    assert Start(items).value == s0;
    assert IdentRule(s0) == Step(Returned(Ok(Ident("a"))), s1);
    assert Advance(s1) == Moved(Ok(Some(Bar)), s2);
    NamedVariant();
    NestedVariant();
    // the outer list closes on `]`
    assert SubtypesRule(s7, [b, c]) == Step(Returned(Ok(Subtypes([b, c]))), s8);
    assert [b] + [c] == [b, c] && [] + [b] == [b];
    assert SubtypesRule(s3, [b]) == SubtypesRule(s7, [b, c]);
    assert SubtypesRule(s2, []) == SubtypesRule(s3, [b]);
    assert SumRule(s1) == Step(Returned(Ok(SumBody(Subtypes([b, c])))), s8);
  }

  /**
   * `a|b|,>`: the nested attempt for `b` consumes `|` and `,` before failing,
   * and `Ty` then names the last token text, so the tree holds a `Named`
   * whose text is not an identifier.
   */
  lemma FallbackNamesNonIdentifier()
    ensures var items := [Matched(Identifier, "a"), Matched(Bar, "|"), Matched(Identifier, "b"),
                          Matched(Bar, "|"), Matched(Comma, ","), Matched(RightAngleBracket, ">")];
            var s := DefRule(Start(items).value);
            && s.outcome == Returned(Ok(Sum(Ident("a"), SumBody(Subtypes([Named(Ident(","))])))))
            && !IsIdentifierText(",")
  {
    var items := [Matched(Identifier, "a"), Matched(Bar, "|"), Matched(Identifier, "b"),
                  Matched(Bar, "|"), Matched(Comma, ","), Matched(RightAngleBracket, ">")];
    var comma := Named(Ident(","));
    var s0 := LexState(items, 1, "a", None, Some(Identifier), "");
    var s1 := LexState(items, 2, "|", Some(Identifier), Some(Bar), "a");
    var s2 := LexState(items, 3, "b", Some(Bar), Some(Identifier), "|");
    var s3 := LexState(items, 4, "|", Some(Identifier), Some(Bar), "b");
    var s4 := LexState(items, 5, ",", Some(Bar), Some(Comma), "|");
    var s5 := LexState(items, 6, ">", Some(Comma), Some(RightAngleBracket), ",");
    var s6 := LexState(items, 6, "", Some(RightAngleBracket), None, ">");
    assert Start(items).value == s0;
    assert IdentRule(s0) == Step(Returned(Ok(Ident("a"))), s1);
    // the attempt at `b|,>` consumes `b`, `|` and `,`, then fails on `>`
    assert IdentRule(s2) == Step(Returned(Ok(Ident("b"))), s3);
    assert Advance(s4) == Moved(Ok(Some(Comma)), s5);
    assert TyRule(s5).outcome.IsErr() && TyRule(s5).after == s5;
    assert SubtypesRule(s4, []).outcome.IsErr() && SubtypesRule(s4, []).after == s5;
    assert SumRule(s3).outcome.IsErr() && SumRule(s3).after == s5;
    assert DefRule(s2).outcome.IsErr() && DefRule(s2).after == s5;
    assert TyRule(s2) == Step(Returned(Ok(comma)), s5);
    // the outer list then closes on `>`
    assert SubtypesRule(s5, [comma]) == Step(Returned(Ok(Subtypes([comma]))), s6);
    assert [] + [comma] == [comma];
    assert SubtypesRule(s2, []) == SubtypesRule(s5, [comma]);
    assert Advance(s1) == Moved(Ok(Some(Bar)), s2);
    assert SumRule(s1) == Step(Returned(Ok(SumBody(Subtypes([comma])))), s6);
    assert !IsIdentStart(","[0]);
  }

  /**
   * The message for a list element that is not a type: the cause of `Ty`,
   * then one "while parsing" line for `Subtypes`.
   */
  lemma SubtypesErrorMessage(tokString: string)
    ensures Display(Context(New(tokString, "Ty: expected identifier"), "Subtypes: expected type"))
         == "error encountered at token \"" + tokString + "\" while parsing Ty: expected identifier"
            + "\n-> while parsing Subtypes: expected type\n"
  {
    var e := New(tokString, "Ty: expected identifier");
    assert e.trace[..0] == [];
    assert Render(e.trace) == "Ty: expected identifier";
    DisplayContext(e, "Subtypes: expected type");
  }

  /** `a|b@>`, where `@` matches no pattern. */
  const BadSliceItems := [Matched(Identifier, "a"), Matched(Bar, "|"), Matched(Identifier, "b"),
                          Unmatched("@"), Matched(RightAngleBracket, ">")]

  /** `a|b@>` is a stream the matcher can yield: `@` is its one unmatched slice. */
  lemma BadSliceWellFormed()
    ensures WellFormed(BadSliceItems)
  {
    var items := BadSliceItems;
    assert WellFormedItem(items[0]) && WellFormedItem(items[1]) && WellFormedItem(items[2]);
    assert WellFormedItem(items[3]) && WellFormedItem(items[4]);
  }

  /**
   * Inside `a|b@>`: the `Ty` for `b` swallows the lexical error at `@` and
   * leaves the lookahead showing the stale Identifier; the next `Ty` then
   * reads the unmatched slice `@` as an `Ident` and falls back to naming it.
   */
  lemma StaleLookaheadSteps()
    ensures TyRule(LexState(BadSliceItems, 3, "b", Some(Bar), Some(Identifier), "|"))
            == Step(Returned(Ok(Named(Ident("b")))),
                    LexState(BadSliceItems, 4, "@", Some(Identifier), Some(Identifier), "b"))
    ensures IdentRule(LexState(BadSliceItems, 4, "@", Some(Identifier), Some(Identifier), "b")).outcome
            == Returned(Ok(Ident("@")))
    ensures TyRule(LexState(BadSliceItems, 4, "@", Some(Identifier), Some(Identifier), "b"))
            == Step(Returned(Ok(Named(Ident("@")))),
                    LexState(BadSliceItems, 5, ">", Some(Identifier), Some(RightAngleBracket), "@"))
  {
    var items := BadSliceItems;
    var s2 := LexState(items, 3, "b", Some(Bar), Some(Identifier), "|");
    var s3 := LexState(items, 4, "@", Some(Identifier), Some(Identifier), "b");
    var s4 := LexState(items, 5, ">", Some(Identifier), Some(RightAngleBracket), "@");
    // `next` over `b` fails on `@` and keeps the Identifier lookahead
    assert Advance(s2) == Moved(Err(New("b", "unrecognized token")), s3);
    assert IdentRule(s2).after == s3 && IdentRule(s2).outcome.IsErr();
    assert DefRule(s2).outcome.IsErr() && DefRule(s2).after == s3;
    // the stale lookahead lets `Ident` consume the slice `@`
    assert Advance(s3) == Moved(Ok(Some(Identifier)), s4);
    assert IdentRule(s3) == Step(Returned(Ok(Ident("@"))), s4);
    assert DefRule(s3).outcome.IsErr() && DefRule(s3).after == s4;
  }

  /** The list of `a|b@>` collects `b`, then `@`, and closes on `>`. */
  lemma StaleLookaheadList()
    ensures SubtypesRule(LexState(BadSliceItems, 3, "b", Some(Bar), Some(Identifier), "|"), [])
            == Step(Returned(Ok(Subtypes([Named(Ident("b")), Named(Ident("@"))]))),
                    LexState(BadSliceItems, 5, "", Some(RightAngleBracket), None, ">"))
  {
    var items := BadSliceItems;
    var b := Named(Ident("b"));
    var at := Named(Ident("@"));
    var s2 := LexState(items, 3, "b", Some(Bar), Some(Identifier), "|");
    var s3 := LexState(items, 4, "@", Some(Identifier), Some(Identifier), "b");
    var s4 := LexState(items, 5, ">", Some(Identifier), Some(RightAngleBracket), "@");
    var s5 := LexState(items, 5, "", Some(RightAngleBracket), None, ">");
    StaleLookaheadSteps();
    assert Advance(s4) == Moved(Ok(Some(RightAngleBracket)), s5);
    assert SubtypesRule(s4, [b, at]) == Step(Returned(Ok(Subtypes([b, at]))), s5);
    assert [] + [b] == [b] && [b] + [at] == [b, at];
    assert SubtypesRule(s3, [b]) == SubtypesRule(s4, [b, at]);
    assert SubtypesRule(s2, []) == SubtypesRule(s3, [b]);
  }

  /**
   * `a|b@>` parses although `@` is a lexical error, and the tree holds a name
   * that is not an identifier although the stream is well formed.
   */
  lemma StaleLookaheadNamesBadSlice()
    ensures DefRule(Start(BadSliceItems).value).outcome
            == Returned(Ok(Sum(Ident("a"), SumBody(Subtypes([Named(Ident("b")), Named(Ident("@"))])))))
    ensures !IsIdentifierText("@")
  {
    var items := BadSliceItems;
    var s0 := LexState(items, 1, "a", None, Some(Identifier), "");
    var s1 := LexState(items, 2, "|", Some(Identifier), Some(Bar), "a");
    var s2 := LexState(items, 3, "b", Some(Bar), Some(Identifier), "|");
    assert Start(items).value == s0;
    assert IdentRule(s0) == Step(Returned(Ok(Ident("a"))), s1);
    assert Advance(s1) == Moved(Ok(Some(Bar)), s2);
    StaleLookaheadList();
    assert SumRule(s1).outcome == Returned(Ok(SumBody(Subtypes([Named(Ident("b")), Named(Ident("@"))]))));
    assert !IsIdentStart("@"[0]);
  }
}
