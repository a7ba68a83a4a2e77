/**
 * What each grammar rule promises, stated over the rule functions of `Grammar`
 * (and so, through their `ensures`, over the `Parser` methods).
 */
module GrammarLemmas {
  import opened Wrappers
  import opened ParseErrors
  import opened Lexer
  import opened Grammar

  // ---------------------------------------------------------------- Ident

  /**
   * With an identifier in the lookahead and a matched item after it, `Ident`
   * returns that identifier's text and consumes exactly that one token.
   */
  lemma IdentAccepts(st: LexState)
    requires Synced(st) && st.nextTok == Some(Identifier)
    requires !(st.cursor < |st.items| && st.items[st.cursor].Unmatched?)
    ensures IdentRule(st).outcome == Returned(Ok(Ident(st.items[st.cursor - 1].text)))
    ensures IdentRule(st).after == Advance(st).after
    ensures IdentRule(st).after.currentTok == Some(Identifier)
    ensures IdentRule(st).after.nextTok == KindAt(st.items, st.cursor)
    ensures Synced(IdentRule(st).after)
  {
    AdvanceSynced(st);
  }

  /** A lexical error while consuming the identifier is returned unchanged. */
  lemma IdentLexicalError(st: LexState)
    requires Synced(st) && st.nextTok == Some(Identifier)
    requires st.cursor < |st.items| && st.items[st.cursor].Unmatched?
    ensures IdentRule(st).outcome == Returned(Err(New(st.items[st.cursor - 1].text, "unrecognized token")))
    ensures IdentRule(st).outcome.result.error == Advance(st).result.error
  {
    AdvanceLexicalError(st);
  }

  /** Without an identifier in the lookahead, `Ident` fails and consumes nothing. */
  lemma IdentRejects(st: LexState)
    requires st.Valid() && st.nextTok != Some(Identifier)
    ensures IdentRule(st) == Step(Returned(Err(ParseError(["Ident: expected identifier"], st.tokString))), st)
  {
  }

  /**
   * From a synced state on a well-formed stream a parsed `Ident` satisfies the
   * identifier pattern. Without `Synced` it need not: after a swallowed lexical
   * error the stale lookahead lets `Ident` read an unmatched slice.
   */
  lemma IdentIsIdentifierText(st: LexState)
    requires Synced(st) && WellFormed(st.items)
    requires IdentRule(st).outcome.IsOk()
    ensures IsIdentifierText(IdentRule(st).outcome.result.value.name)
    ensures IdentRule(st).outcome.result.value.name != "let"
    ensures IdentRule(st).outcome.result.value.name != "def"
  {
    assert st.nextTok == Some(Identifier);
    assert WellFormedItem(st.items[st.cursor - 1]);
    AdvanceSynced(st);
  }

  // ---------------------------------------------------------------- Ty

  /** Without an identifier in the lookahead, `Ty` fails with the current token text and consumes nothing. */
  lemma TyRejects(st: LexState)
    requires st.Valid() && st.nextTok != Some(Identifier)
    ensures TyRule(st) == Step(Returned(Err(ParseError(["Ty: expected identifier"], st.tokString))), st)
  {
  }

  /**
   * With an identifier in the lookahead `Ty` never returns an error: a nested
   * definition is wrapped, any error of the attempt becomes a name taken from
   * the lexer's last token text, and the consumed tokens stay consumed.
   */
  lemma TyAttemptsDef(st: LexState)
    requires st.Valid() && st.nextTok == Some(Identifier)
    ensures !TyRule(st).outcome.IsErr()
    ensures TyRule(st).after == DefRule(st).after
    ensures DefRule(st).outcome.IsOk() ==>
              TyRule(st).outcome == Returned(Ok(Nested(DefRule(st).outcome.result.value)))
    ensures DefRule(st).outcome.IsErr() ==>
              TyRule(st).outcome == Returned(Ok(Named(Ident(DefRule(st).after.tokString))))
    ensures TyRule(st).outcome.Panicked? <==> DefRule(st).outcome.Panicked?
  {
  }

  /**
   * When the identifier is followed by neither `|` nor `[`, the attempt fails
   * right after the identifier and `Ty` names exactly that identifier.
   */
  lemma TyFallbackNamesIdentifier(st: LexState)
    requires Synced(st) && st.nextTok == Some(Identifier)
    requires Advance(st).result.Ok?
    requires Advance(st).after.nextTok != Some(Bar) && Advance(st).after.nextTok != Some(LeftBracket)
    ensures TyRule(st) == Step(Returned(Ok(Named(Ident(st.items[st.cursor - 1].text)))), Advance(st).after)
  {
    AdvanceSynced(st);
  }

  // ---------------------------------------------------------------- Def

  /** A failed identifier fails `Def` with "expected type identifier" appended. */
  lemma DefIdentFailure(st: LexState)
    requires st.Valid() && IdentRule(st).outcome.IsErr()
    ensures DefRule(st) == Step(Returned(Err(Context(IdentRule(st).outcome.result.error, "expected type identifier"))),
                                IdentRule(st).after)
    ensures st.nextTok != Some(Identifier) ==>
              DefRule(st).outcome.result.error
              == ParseError(["Ident: expected identifier", "expected type identifier"], st.tokString)
  {
  }

  /**
   * After the identifier the lookahead decides: `|` gives a sum whose errors
   * pass through with no context added, `[` reaches the product rule (a
   * panic), and anything else, end of input included, fails with one cause.
   */
  lemma DefDispatch(st: LexState)
    requires st.Valid() && IdentRule(st).outcome.IsOk()
    ensures var i := IdentRule(st);
            var ident := i.outcome.result.value;
            && (i.after.nextTok == Some(Bar) ==>
                  match SumRule(i.after).outcome
                  case Returned(Ok(sum)) => DefRule(st) == Step(Returned(Ok(Sum(ident, sum))), SumRule(i.after).after)
                  case Returned(Err(e)) => DefRule(st) == Step(Returned(Err(e)), SumRule(i.after).after)
                  case Panicked => DefRule(st) == Step(Panicked, SumRule(i.after).after))
            && (i.after.nextTok == Some(LeftBracket) ==> DefRule(st) == Step(Panicked, i.after))
            && (i.after.nextTok != Some(Bar) && i.after.nextTok != Some(LeftBracket) ==>
                  DefRule(st) == Step(Returned(Err(ParseError(["expected left bracket or bar for type definition"],
                                                               i.after.tokString))), i.after))
  {
  }

  /** Every definition in a tree is a sum: no `Prod` and no `Func` anywhere. */
  predicate DefSumsOnly(d: Def)
  {
    d.Sum? && TysSumsOnly(d.sum.subtypes.tys)
  }

  predicate TysSumsOnly(tys: seq<Ty>)
  {
    forall i :: 0 <= i < |tys| ==> TySumsOnly(tys[i])
  }

  predicate TySumsOnly(ty: Ty)
  {
    match ty
    case Named(_) => true
    case Nested(d) => DefSumsOnly(d)
  }

  /**
   * A successful `Def` is a sum all the way down: the parser never produces
   * `Def::Func`, and never `Def::Prod` since the product rule always panics.
   */
  lemma {:induction false} DefOnlySums(st: LexState)
    requires st.Valid()
    ensures DefRule(st).outcome.IsOk() ==> DefSumsOnly(DefRule(st).outcome.result.value)
    decreases Remaining(st), 1
  {
    var i := IdentRule(st);
    if i.outcome.IsOk() && i.after.nextTok == Some(Bar) {
      SumOnlySums(i.after);
    }
  }

  lemma {:induction false} TyOnlySums(st: LexState)
    requires st.Valid()
    ensures TyRule(st).outcome.IsOk() ==> TySumsOnly(TyRule(st).outcome.result.value)
    decreases Remaining(st), 2
  {
    if st.nextTok == Some(Identifier) {
      DefOnlySums(st);
    }
  }

  lemma {:induction false} SumOnlySums(st: LexState)
    requires st.Valid()
    ensures SumRule(st).outcome.IsOk() ==> TysSumsOnly(SumRule(st).outcome.result.value.subtypes.tys)
    decreases Remaining(st), 0
  {
    if st.nextTok == Some(Bar) && Advance(st).result.Ok? {
      SubtypesOnlySums(Advance(st).after, []);
    }
  }

  lemma {:induction false} SubtypesOnlySums(st: LexState, tys: seq<Ty>)
    requires st.Valid() && TysSumsOnly(tys)
    ensures SubtypesRule(st, tys).outcome.IsOk() ==> TysSumsOnly(SubtypesRule(st, tys).outcome.result.value.tys)
    decreases Remaining(st), 3
  {
    if !IsCloser(st.nextTok) {
      var c := if st.nextTok == Some(Comma) then Advance(st) else Moved(Ok(None), st);
      if c.result.Ok? {
        var t := TyRule(c.after);
        TyOnlySums(c.after);
        if t.outcome.IsOk() {
          SubtypesOnlySums(t.after, tys + [t.outcome.result.value]);
        }
      }
    }
  }

  // ---------------------------------------------------------------- Sum

  /** Without `|` in the lookahead, `Sum` fails with "expected bar" and consumes nothing. */
  lemma SumRejects(st: LexState)
    requires st.Valid() && st.nextTok != Some(Bar)
    ensures SumRule(st) == Step(Returned(Err(ParseError(["expected bar"], st.tokString))), st)
  {
  }

  /**
   * With `|` in the lookahead, `Sum` consumes it and wraps the subtype list;
   * errors of `next` and of the list come back with no context added.
   */
  lemma SumWrapsSubtypes(st: LexState)
    requires st.Valid() && st.nextTok == Some(Bar)
    ensures Advance(st).result.Err? ==> SumRule(st) == Step(Returned(Err(Advance(st).result.error)), Advance(st).after)
    ensures Advance(st).result.Ok? ==>
              var l := SubtypesRule(Advance(st).after, []);
              && SumRule(st).after == l.after
              && (l.outcome.IsOk() ==> SumRule(st).outcome == Returned(Ok(SumBody(l.outcome.result.value))))
              && (l.outcome.IsErr() ==> SumRule(st).outcome == Returned(Err(l.outcome.result.error)))
              && (l.outcome.Panicked? ==> SumRule(st).outcome.Panicked?)
  {
  }

  /** A sum opened by `|` is only ever closed by `>` or `]`, the token consumed last. */
  lemma SumClosedByAngleOrBracket(st: LexState)
    requires st.Valid() && SumRule(st).outcome.IsOk()
    ensures IsCloser(SumRule(st).after.currentTok)
  {
    SubtypesEndOnCloser(Advance(st).after, []);
  }

  // ---------------------------------------------------------------- Subtypes

  /** `Subtypes` returns `Ok` only right after consuming `>` or `]`, whatever opened the list (a sum opens on `|`). */
  lemma {:induction false} SubtypesEndOnCloser(st: LexState, tys: seq<Ty>)
    requires st.Valid() && SubtypesRule(st, tys).outcome.IsOk()
    ensures IsCloser(SubtypesRule(st, tys).after.currentTok)
    decreases Remaining(st)
  {
    if !IsCloser(st.nextTok) {
      var c := if st.nextTok == Some(Comma) then Advance(st) else Moved(Ok(None), st);
      var t := TyRule(c.after);
      SubtypesEndOnCloser(t.after, tys + [t.outcome.result.value]);
    }
  }

  /** A closer as the first lookahead yields the empty list. */
  lemma SubtypesEmpty(st: LexState)
    requires st.Valid() && IsCloser(st.nextTok) && Advance(st).result.Ok?
    ensures SubtypesRule(st, []) == Step(Returned(Ok(Subtypes([]))), Advance(st).after)
  {
  }

  /** The list parsed with `prefix` already collected. */
  function Prefixed(prefix: seq<Ty>, s: Step<Subtypes>): Step<Subtypes>
  {
    match s.outcome
    case Returned(Ok(l)) => Step(Returned(Ok(Subtypes(prefix + l.tys))), s.after)
    case _ => s
  }

  /**
   * The loop only appends: parsing with `tys` collected so far gives `tys`
   * followed by what the loop collects on its own, so elements keep parse order.
   */
  lemma {:induction false} SubtypesAppends(st: LexState, tys: seq<Ty>)
    requires st.Valid()
    ensures SubtypesRule(st, tys) == Prefixed(tys, SubtypesRule(st, []))
    decreases Remaining(st)
  {
    if IsCloser(st.nextTok) {
      assert tys + [] == tys;
    } else {
      var c := if st.nextTok == Some(Comma) then Advance(st) else Moved(Ok(None), st);
      if c.result.Ok? {
        var t := TyRule(c.after);
        if t.outcome.IsOk() {
          var ty := t.outcome.result.value;
          assert SubtypesRule(st, tys) == SubtypesRule(t.after, tys + [ty]);
          assert SubtypesRule(st, []) == SubtypesRule(t.after, [] + [ty]);
          assert [] + [ty] == [ty];
          SubtypesAppends(t.after, tys + [ty]);
          SubtypesAppends(t.after, [ty]);
          var rest := SubtypesRule(t.after, []);
          if rest.outcome.IsOk() {
            assert tys + [ty] + rest.outcome.result.value.tys == tys + ([ty] + rest.outcome.result.value.tys);
          }
        }
      }
    }
  }

  /**
   * Each successful `Ty` adds exactly one element, after those collected
   * before it, whether or not a comma was skipped first.
   */
  lemma SubtypesOneElementPerTy(st: LexState, tys: seq<Ty>)
    requires st.Valid() && !IsCloser(st.nextTok)
    requires var c := if st.nextTok == Some(Comma) then Advance(st) else Moved(Ok(None), st);
             c.result.Ok? && TyRule(c.after).outcome.IsOk()
    ensures var c := if st.nextTok == Some(Comma) then Advance(st) else Moved(Ok(None), st);
            var t := TyRule(c.after);
            SubtypesRule(st, tys) == Prefixed(tys + [t.outcome.result.value], SubtypesRule(t.after, []))
  {
    var c := if st.nextTok == Some(Comma) then Advance(st) else Moved(Ok(None), st);
    var t := TyRule(c.after);
    SubtypesAppends(t.after, tys + [t.outcome.result.value]);
  }

  /** A failing `Ty` fails the list with "Subtypes: expected type" appended to its trace. */
  lemma SubtypesTyFailure(st: LexState, tys: seq<Ty>)
    requires st.Valid() && !IsCloser(st.nextTok)
    requires var c := if st.nextTok == Some(Comma) then Advance(st) else Moved(Ok(None), st);
             c.result.Ok? && TyRule(c.after).outcome.IsErr()
    ensures var c := if st.nextTok == Some(Comma) then Advance(st) else Moved(Ok(None), st);
            var t := TyRule(c.after);
            SubtypesRule(st, tys) == Step(Returned(Err(Context(t.outcome.result.error, "Subtypes: expected type"))), t.after)
  {
  }

  /** At end of input the list fails: a type was expected. */
  lemma SubtypesAtEnd(st: LexState, tys: seq<Ty>)
    requires st.Valid() && st.nextTok == None
    ensures SubtypesRule(st, tys)
            == Step(Returned(Err(ParseError(["Ty: expected identifier", "Subtypes: expected type"], st.tokString))), st)
  {
    assert ["Ty: expected identifier"] + ["Subtypes: expected type"]
        == ["Ty: expected identifier", "Subtypes: expected type"];
  }

  /**
   * At most one comma is skipped per element: after a comma anything but an
   * identifier (a closer, a second comma, end of input) fails the list, and
   * the error carries the comma's text.
   */
  lemma SubtypesCommaNeedsType(st: LexState, tys: seq<Ty>)
    requires Synced(st) && st.nextTok == Some(Comma)
    requires Advance(st).result.Ok? && Advance(st).after.nextTok != Some(Identifier)
    ensures st.items[st.cursor - 1].text == Advance(st).after.tokString
    ensures SubtypesRule(st, tys)
            == Step(Returned(Err(ParseError(["Ty: expected identifier", "Subtypes: expected type"],
                                            st.items[st.cursor - 1].text))), Advance(st).after)
  {
    AdvanceSynced(st);
    assert ["Ty: expected identifier"] + ["Subtypes: expected type"]
        == ["Ty: expected identifier", "Subtypes: expected type"];
  }
}
