/**
 * The AST of src/ast and the meaning of each grammar rule as a function of the
 * lexer state: what `parse` returns and the state it leaves the shared lexer
 * in. The rules are mutually recursive (Def, Sum, Subtypes, Ty, Def, ...) and
 * terminate because every consumed lookahead lowers `Remaining`.
 */
module Grammar {
  import opened Wrappers
  import opened ParseErrors
  import opened Lexer

  datatype Ident = Ident(name: string)

  /** `Ty`: a named reference, or a nested definition (`Ty::Def` in the source). */
  datatype Ty = Named(ident: Ident) | Nested(def: Def)

  datatype Subtypes = Subtypes(tys: seq<Ty>)

  datatype SumBody = SumBody(subtypes: Subtypes)

  datatype ProdBody = ProdBody(subtypes: Subtypes)

  /** `Func` holds an argument type and an expression body; the body is not modelled. */
  datatype FuncBody = FuncBody(argument: Ty)

  datatype Def = Sum(ident: Ident, sum: SumBody) | Prod(ident: Ident, prod: ProdBody) | Func(ident: Ident, func: FuncBody)

  /** What a call to a rule does: return a `Result`, or panic (reaching `todo!()`). */
  datatype Outcome<+T> = Returned(result: Result<T>) | Panicked
  {
    predicate IsOk() { Returned? && result.Ok? }
    predicate IsErr() { Returned? && result.Err? }
  }

  /** The outcome of a rule and the lexer state it leaves. */
  datatype Step<+T> = Step(outcome: Outcome<T>, after: LexState)

  predicate IsCloser(t: Option<Token>)
  {
    t == Some(RightAngleBracket) || t == Some(RightBracket)
  }

  /** `Ident::parse` */
  function IdentRule(st: LexState): (s: Step<Ident>)
    requires st.Valid()
    ensures s.after.Valid() && s.after.items == st.items
    ensures s.outcome.Returned?
    ensures Remaining(s.after) <= Remaining(st)
    ensures st.nextTok == Some(Identifier) ==> Remaining(s.after) < Remaining(st)
  {
    if st.nextTok == Some(Identifier) then
      var m := Advance(st);
      match m.result
      case Err(e) => Step(Returned(Err(e)), m.after)
      case Ok(_) => Step(Returned(Ok(Ident(m.after.tokString))), m.after)
    else
      Step(Returned(Raise(st.tokString, "Ident: expected identifier")), st)
  }

  /** `Ty::parse`: try a nested definition, and on any error name the last token text. */
  function TyRule(st: LexState): (s: Step<Ty>)
    requires st.Valid()
    ensures s.after.Valid() && s.after.items == st.items
    ensures Remaining(s.after) <= Remaining(st)
    ensures st.nextTok == Some(Identifier) ==> Remaining(s.after) < Remaining(st)
    ensures s.outcome.IsOk() ==> Remaining(s.after) < Remaining(st)
    decreases Remaining(st), 2
  {
    if st.nextTok == Some(Identifier) then
      var d := DefRule(st);
      match d.outcome
      case Returned(Ok(def)) => Step(Returned(Ok(Nested(def))), d.after)
      case Returned(Err(_)) => Step(Returned(Ok(Named(Ident(d.after.tokString)))), d.after)
      case Panicked => Step(Panicked, d.after)
    else
      Step(Returned(Raise(st.tokString, "Ty: expected identifier")), st)
  }

  /**
   * `Def::parse`: an identifier, then `|` for a sum or `[` for a product.
   * `Prod::parse` is `todo!()`, so that branch panics with the lexer as it is.
   */
  function DefRule(st: LexState): (s: Step<Def>)
    requires st.Valid()
    ensures s.after.Valid() && s.after.items == st.items
    ensures Remaining(s.after) <= Remaining(st)
    ensures st.nextTok == Some(Identifier) ==> Remaining(s.after) < Remaining(st)
    decreases Remaining(st), 1
  {
    var i := IdentRule(st);
    match i.outcome
    case Returned(Err(e)) => Step(Returned(Err(Context(e, "expected type identifier"))), i.after)
    case Returned(Ok(ident)) =>
      if i.after.nextTok == Some(Bar) then
        var b := SumRule(i.after);
        match b.outcome
        case Returned(Ok(sum)) => Step(Returned(Ok(Sum(ident, sum))), b.after)
        case Returned(Err(e)) => Step(Returned(Err(e)), b.after)
        case Panicked => Step(Panicked, b.after)
      else if i.after.nextTok == Some(LeftBracket) then
        Step(Panicked, i.after)
      else
        Step(Returned(Raise(i.after.tokString, "expected left bracket or bar for type definition")), i.after)
  }

  /** `Sum::parse`: consume `|`, then the subtype list. */
  function SumRule(st: LexState): (s: Step<SumBody>)
    requires st.Valid()
    ensures s.after.Valid() && s.after.items == st.items
    ensures Remaining(s.after) <= Remaining(st)
    decreases Remaining(st), 0
  {
    if st.nextTok == Some(Bar) then
      var m := Advance(st);
      match m.result
      case Err(e) => Step(Returned(Err(e)), m.after)
      case Ok(_) =>
        var l := SubtypesRule(m.after, []);
        match l.outcome
        case Returned(Ok(subtypes)) => Step(Returned(Ok(SumBody(subtypes))), l.after)
        case Returned(Err(e)) => Step(Returned(Err(e)), l.after)
        case Panicked => Step(Panicked, l.after)
    else
      Step(Returned(Raise(st.tokString, "expected bar")), st)
  }

  /**
   * The loop of `Subtypes::parse`, from an iteration's start with `tys` parsed
   * so far: a closer (`>` or `]`) ends the list; otherwise one comma is
   * skipped if present and one `Ty` is parsed and appended.
   */
  function SubtypesRule(st: LexState, tys: seq<Ty>): (s: Step<Subtypes>)
    requires st.Valid()
    ensures s.after.Valid() && s.after.items == st.items
    ensures Remaining(s.after) <= Remaining(st)
    decreases Remaining(st), 3
  {
    if IsCloser(st.nextTok) then
      var m := Advance(st);
      match m.result
      case Err(e) => Step(Returned(Err(e)), m.after)
      case Ok(_) => Step(Returned(Ok(Subtypes(tys))), m.after)
    else
      var c := if st.nextTok == Some(Comma) then Advance(st) else Moved(Ok(None), st);
      match c.result
      case Err(e) => Step(Returned(Err(e)), c.after)
      case Ok(_) =>
        var t := TyRule(c.after);
        match t.outcome
        case Returned(Ok(ty)) => SubtypesRule(t.after, tys + [ty])
        case Returned(Err(e)) => Step(Returned(Err(Context(e, "Subtypes: expected type"))), t.after)
        case Panicked => Step(Panicked, t.after)
  }
}
