/**
 * The `parse` methods of src/ast/ident.rs, ty.rs, subtypes.rs, def.rs and
 * def/sum.rs, each working on the one shared `Lexer` object, and each proved
 * to return and to leave the lexer exactly as its rule in `Grammar` says.
 */
module Parser {
  import opened Wrappers
  import opened ParseErrors
  import opened Lexer
  import opened Grammar

  /** `Ident::parse` */
  method ParseIdent(lx: Lexer) returns (r: Outcome<Ident>)
    requires lx.Valid()
    modifies lx
    ensures lx.Valid()
    ensures Step(r, lx.State()) == IdentRule(old(lx.State()))
  {
    var t := lx.Peek();
    if t == Some(Identifier) {
      var n := lx.Next();
      if n.Err? {
        return Returned(Err(n.error));
      }
      var s := lx.TokString();
      r := Returned(Ok(Ident(s)));
    } else {
      var s := lx.TokString();
      r := Returned(Raise(s, "Ident: expected identifier"));
    }
  }

  /** `Ty::parse`: a failed nested definition falls back to a name, with no rollback. */
  method ParseTy(lx: Lexer) returns (r: Outcome<Ty>)
    requires lx.Valid()
    modifies lx
    ensures lx.Valid()
    ensures Step(r, lx.State()) == TyRule(old(lx.State()))
    decreases Remaining(lx.State()), 2
  {
    var t := lx.Peek();
    if t == Some(Identifier) {
      var d := ParseDef(lx);
      match d
      case Returned(Ok(def)) =>
        r := Returned(Ok(Nested(def)));
      case Returned(Err(_)) =>
        var s := lx.TokString();
        r := Returned(Ok(Named(Ident(s))));
      case Panicked =>
        r := Panicked;
    } else {
      var s := lx.TokString();
      r := Returned(Raise(s, "Ty: expected identifier"));
    }
  }

  /** `Def::parse` */
  method ParseDef(lx: Lexer) returns (r: Outcome<Def>)
    requires lx.Valid()
    modifies lx
    ensures lx.Valid()
    ensures Step(r, lx.State()) == DefRule(old(lx.State()))
    decreases Remaining(lx.State()), 1
  {
    var i := ParseIdent(lx);
    match i
    case Returned(Err(e)) =>
      r := Returned(Err(Context(e, "expected type identifier")));
    case Returned(Ok(ident)) =>
      var t := lx.Peek();
      if t == Some(Bar) {
        var b := ParseSum(lx);
        match b
        case Returned(Ok(sum)) => r := Returned(Ok(Sum(ident, sum)));
        case Returned(Err(e)) => r := Returned(Err(e));
        case Panicked => r := Panicked;
      } else if t == Some(LeftBracket) {
        // `Prod::parse` is `todo!()`
        r := Panicked;
      } else {
        var s := lx.TokString();
        r := Returned(Raise(s, "expected left bracket or bar for type definition"));
      }
  }

  /** `Sum::parse` */
  method ParseSum(lx: Lexer) returns (r: Outcome<SumBody>)
    requires lx.Valid()
    modifies lx
    ensures lx.Valid()
    ensures Step(r, lx.State()) == SumRule(old(lx.State()))
    decreases Remaining(lx.State()), 0
  {
    var t := lx.Peek();
    if t == Some(Bar) {
      var n := lx.Next();
      if n.Err? {
        return Returned(Err(n.error));
      }
      var l := ParseSubtypes(lx);
      match l
      case Returned(Ok(subtypes)) => r := Returned(Ok(SumBody(subtypes)));
      case Returned(Err(e)) => r := Returned(Err(e));
      case Panicked => r := Panicked;
    } else {
      var s := lx.TokString();
      r := Returned(Raise(s, "expected bar"));
    }
  }

  /** `Subtypes::parse`: the loop pushes each parsed `Ty` until a closer is consumed. */
  method ParseSubtypes(lx: Lexer) returns (r: Outcome<Subtypes>)
    requires lx.Valid()
    modifies lx
    ensures lx.Valid()
    ensures Step(r, lx.State()) == SubtypesRule(old(lx.State()), [])
    decreases Remaining(lx.State()), 3
  {
    var tys: seq<Ty> := [];
    while true
      invariant lx.Valid()
      invariant Remaining(lx.State()) <= Remaining(old(lx.State()))
      invariant SubtypesRule(lx.State(), tys) == SubtypesRule(old(lx.State()), [])
      decreases Remaining(lx.State())
    {
      var t := lx.Peek();
      if IsCloser(t) {
        var n := lx.Next();
        if n.Err? {
          return Returned(Err(n.error));
        }
        return Returned(Ok(Subtypes(tys)));
      } else if t == Some(Comma) {
        var n := lx.Next();
        if n.Err? {
          return Returned(Err(n.error));
        }
      }
      var ty := ParseTy(lx);
      match ty
      case Returned(Ok(v)) =>
        tys := tys + [v];
      case Returned(Err(e)) =>
        return Returned(Err(Context(e, "Subtypes: expected type")));
      case Panicked =>
        return Panicked;
    }
  }
}
