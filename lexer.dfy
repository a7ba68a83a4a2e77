/**
 * The lexer wrapper of src/lexer.rs. The regular-expression matcher underneath
 * it is taken as given: its output is a sequence of `Item`s, each a recognised
 * token with its text or a slice of text that matched no pattern. Skipped
 * whitespace and `//` comments never become items.
 */
module Lexer {
  import opened Wrappers
  import opened ParseErrors

  datatype Token =
    | String | Char | Let | Def
    | DoubleColon | Colon | SemiColon | Equals | Arrow | Dot | Comma
    | Plus | Minus | Asterisk | Slash | Percent | Caret | Ampersand | Bar | ExclamationPoint
    | LeftParen | RightParen | LeftBracket | RightBracket
    | LeftCurlyBrace | RightCurlyBrace | LeftAngleBracket | RightAngleBracket
    | Identifier | Number

  /** One step of the underlying matcher: a token and its slice, or an unmatched slice. */
  datatype Item = Matched(kind: Token, text: string) | Unmatched(text: string)

  /** The literal text of the tokens declared with a fixed spelling. */
  function Spelling(t: Token): (r: Option<string>)
    ensures r.None? <==> t in {String, Char, Identifier, Number}
    ensures r.Some? ==> |r.value| > 0
  {
    match t
    case Let => Some("let")
    case Def => Some("def")
    case DoubleColon => Some("::")
    case Colon => Some(":")
    case SemiColon => Some(";")
    case Equals => Some("=")
    case Arrow => Some("->")
    case Dot => Some(".")
    case Comma => Some(",")
    case Plus => Some("+")
    case Minus => Some("-")
    case Asterisk => Some("*")
    case Slash => Some("/")
    case Percent => Some("%")
    case Caret => Some("^")
    case Ampersand => Some("&")
    case Bar => Some("|")
    case ExclamationPoint => Some("!")
    case LeftParen => Some("(")
    case RightParen => Some(")")
    case LeftBracket => Some("[")
    case RightBracket => Some("]")
    case LeftCurlyBrace => Some("{")
    case RightCurlyBrace => Some("}")
    case LeftAngleBracket => Some("<")
    case RightAngleBracket => Some(">")
    case _ => None
  }

  predicate IsDigit(c: char) { '0' <= c <= '9' }

  predicate IsIdentStart(c: char) { 'a' <= c <= 'z' || 'A' <= c <= 'Z' || c == '_' }

  predicate IsIdentChar(c: char) { IsIdentStart(c) || IsDigit(c) }

  /** The skip pattern `[ \t\n\f]+`. */
  predicate IsBlank(c: char) { c == ' ' || c == '\t' || c == '\n' || c == 12 as char }

  /** `[a-zA-Z_][a-zA-Z\d_]*` */
  predicate IsIdentifierText(s: string)
  {
    |s| > 0 && IsIdentStart(s[0]) && forall i :: 1 <= i < |s| ==> IsIdentChar(s[i])
  }

  /** `\d+` */
  predicate IsNumberText(s: string)
  {
    |s| > 0 && forall i :: 0 <= i < |s| ==> IsDigit(s[i])
  }

  /** A literal between two delimiters that does not contain the delimiter. */
  predicate IsQuoted(s: string, q: char)
  {
    |s| >= 2 && s[0] == q && s[|s| - 1] == q && forall i :: 0 < i < |s| - 1 ==> s[i] != q
  }

  /**
   * What the matcher can yield: every item has text, a token with a fixed
   * spelling has exactly that text, and a keyword is never an Identifier
   * (a fixed token wins over the identifier pattern on a tie).
   */
  predicate WellFormedItem(it: Item)
  {
    match it
    case Unmatched(s) => |s| > 0
    case Matched(k, s) =>
      && (Spelling(k).Some? ==> s == Spelling(k).value)
      && (k == Identifier ==> IsIdentifierText(s) && s != "let" && s != "def")
      && (k == Number ==> IsNumberText(s))
      && (k == String ==> IsQuoted(s, '"'))
      && (k == Char ==> IsQuoted(s, '\''))
  }

  predicate WellFormed(items: seq<Item>)
  {
    forall i :: 0 <= i < |items| ==> WellFormedItem(items[i])
  }

  /** Identifier texts are never empty and never start with a digit or a skipped character. */
  lemma IdentifierTextShape(s: string)
    requires IsIdentifierText(s)
    ensures |s| > 0 && !IsDigit(s[0])
    ensures forall i :: 0 <= i < |s| ==> !IsBlank(s[i]) && s[i] != '/'
  {
  }

  /** No fixed spelling is blank-led or a comment opener. */
  lemma SpellingShape(k: Token)
    requires Spelling(k).Some?
    ensures |Spelling(k).value| > 0 && !IsBlank(Spelling(k).value[0])
    ensures !(|Spelling(k).value| >= 2 && Spelling(k).value[..2] == "//")
  {
    var v := Spelling(k).value;
    assert |v| <= 3 && v[0] != ' ' && v[0] != '\t' && v[0] != '\n' && v[0] != 12 as char;
    assert |v| >= 2 ==> v[..2] != "//" by {
      if |v| >= 2 { assert v[1] != '/'; }
    }
  }

  /** No recognised token starts with a skipped character or with the comment opener `//`. */
  lemma TokensAreNotSkipped(it: Item)
    requires WellFormedItem(it) && it.Matched?
    ensures |it.text| > 0 && !IsBlank(it.text[0])
    ensures !(|it.text| >= 2 && it.text[..2] == "//")
  {
    if Spelling(it.kind).Some? {
      SpellingShape(it.kind);
    } else if it.kind == Identifier {
      IdentifierTextShape(it.text);
    } else if it.kind == Number {
      assert IsDigit(it.text[0]);
    }
  }

  /**
   * The whole state of a `Lexer`: the matcher's items, its cursor and the
   * slice of its last scan (`lexer.slice()`, empty once the end has been
   * scanned), then the three fields the wrapper keeps.
   */
  datatype LexState = LexState(
    items: seq<Item>,
    cursor: nat,
    slice: string,
    currentTok: Option<Token>,
    nextTok: Option<Token>,
    tokString: string)
  {
    predicate Valid() { cursor <= |items| }
  }

  /** A `next` call: what it returned and the state it left. */
  datatype Moved = Moved(result: Result<Option<Token>>, after: LexState)

  /**
   * The measure every grammar rule decreases: two per unscanned item, plus
   * one while a lookahead token is held.
   */
  function Remaining(st: LexState): nat
    requires st.Valid()
  {
    2 * (|st.items| - st.cursor) + (if st.nextTok.Some? then 1 else 0)
  }

  /** The lookahead the matcher yields for the item at `i`, or end of input. */
  function KindAt(items: seq<Item>, i: nat): Option<Token>
  {
    if i < |items| && items[i].Matched? then Some(items[i].kind) else None
  }

  /** `Lexer::new`: scans the first item into the lookahead. */
  function Start(items: seq<Item>): (r: Result<LexState>)
    ensures r.Err? <==> |items| > 0 && items[0].Unmatched?
    ensures r.Err? ==> r.error == New(items[0].text, "unrecognized token")
    ensures r.Ok? ==> && r.value.Valid() && r.value.items == items
                      && r.value.currentTok == None && r.value.tokString == ""
                      && r.value.nextTok == KindAt(items, 0)
  {
    if |items| == 0 then Ok(LexState(items, 0, "", None, None, ""))
    else match items[0]
      case Matched(k, text) => Ok(LexState(items, 1, text, None, Some(k), ""))
      case Unmatched(text) => Err(New(text, "unrecognized token"))
  }

  /**
   * `Lexer::next`: `tok_string` and `current_tok` move first, then the
   * matcher scans; an unmatched slice returns before `next_tok` is replaced.
   */
  function Advance(st: LexState): (m: Moved)
    requires st.Valid()
    ensures m.after.Valid() && m.after.items == st.items
    ensures m.after.tokString == st.slice && m.after.currentTok == st.nextTok
    ensures m.result.Ok? ==> m.result.value == st.nextTok
    ensures m.result.Ok? ==> m.after.nextTok == KindAt(st.items, st.cursor)
    ensures m.result.Err? <==> st.cursor < |st.items| && st.items[st.cursor].Unmatched?
    ensures m.result.Err? ==> m.result.error == New(st.slice, "unrecognized token")
                              && m.after.nextTok == st.nextTok
    ensures Remaining(m.after) <= Remaining(st)
    ensures st.nextTok.Some? ==> Remaining(m.after) < Remaining(st)
  {
    var tokString := st.slice;
    var currentTok := st.nextTok;
    if st.cursor == |st.items| then
      Moved(Ok(currentTok), LexState(st.items, st.cursor, "", currentTok, None, tokString))
    else match st.items[st.cursor]
      case Matched(k, text) =>
        Moved(Ok(currentTok), LexState(st.items, st.cursor + 1, text, currentTok, Some(k), tokString))
      case Unmatched(text) =>
        Moved(Err(New(tokString, "unrecognized token")),
              LexState(st.items, st.cursor + 1, text, currentTok, st.nextTok, tokString))
  }

  /**
   * The lookahead and the matcher agree: a held token is the item just
   * scanned, with the slice its text; no lookahead means the end was scanned.
   * A lexical error in `next` breaks this (the lookahead goes stale).
   */
  predicate Synced(st: LexState)
  {
    && st.Valid()
    && (st.nextTok.Some? ==> st.cursor > 0 && st.items[st.cursor - 1] == Matched(st.nextTok.value, st.slice))
    && (st.nextTok.None? ==> st.cursor == |st.items| && st.slice == "")
  }

  /**
   * After a successful `new`, nothing is consumed and the lookahead is the
   * first token; input with no items (only blanks and comments) peeks None.
   */
  lemma StartSynced(items: seq<Item>)
    requires Start(items).Ok?
    ensures Synced(Start(items).value)
    ensures |items| == 0 ==> Start(items).value.nextTok == None
  {
  }

  /**
   * From a synced state a successful `next` returns the token `peek` showed,
   * leaves its text in `tok_string`, and stays synced; at end of input it
   * returns None and only clears `current_tok` and `tok_string`.
   */
  lemma AdvanceSynced(st: LexState)
    requires Synced(st)
    ensures Advance(st).result.Ok? ==> Synced(Advance(st).after)
    ensures st.nextTok.Some? ==> Advance(st).after.tokString == st.items[st.cursor - 1].text
    ensures st.nextTok.None? ==> Advance(st) == Moved(Ok(None), st.(currentTok := None, tokString := ""))
  {
  }

  /**
   * When the next item is unmatched, `next` fails with the text of the token
   * it consumed, not the bad slice, and the lookahead still shows that token.
   */
  lemma AdvanceLexicalError(st: LexState)
    requires Synced(st) && st.cursor < |st.items| && st.items[st.cursor].Unmatched?
    ensures st.nextTok.Some?
    ensures Advance(st).result == Err(New(st.items[st.cursor - 1].text, "unrecognized token"))
    ensures Advance(st).after.currentTok == st.nextTok == Advance(st).after.nextTok
    ensures Advance(st).after.cursor == st.cursor + 1
  {
  }

  /** The wrapper object that the grammar rules share by `&mut`. */
  class Lexer {
    const items: seq<Item>
    var cursor: nat
    var slice: string
    var currentTok: Option<Token>
    var nextTok: Option<Token>
    var tokString: string

    predicate Valid()
      reads this
    {
      cursor <= |items|
    }

    function State(): LexState
      reads this
    {
      LexState(items, cursor, slice, currentTok, nextTok, tokString)
    }

    constructor Primed(items: seq<Item>, cursor: nat, slice: string, nextTok: Option<Token>)
      requires cursor <= |items|
      ensures Valid()
      ensures State() == LexState(items, cursor, slice, None, nextTok, "")
    {
      this.items := items;
      this.cursor := cursor;
      this.slice := slice;
      this.currentTok := None;
      this.nextTok := nextTok;
      this.tokString := "";
    }

    /** `Lexer::new` */
    static method New(items: seq<Item>) returns (r: Result<Lexer>)
      ensures r.Ok? <==> Start(items).Ok?
      ensures r.Err? ==> r.error == Start(items).error
      ensures r.Ok? ==> fresh(r.value) && r.value.Valid() && r.value.State() == Start(items).value
    {
      if |items| > 0 && items[0].Unmatched? {
        return Err(ParseErrors.New(items[0].text, "unrecognized token"));
      }
      var lx: Lexer;
      if |items| == 0 {
        lx := new Lexer.Primed(items, 0, "", None);
      } else {
        lx := new Lexer.Primed(items, 1, items[0].text, Some(items[0].kind));
      }
      r := Ok(lx);
    }

    /** `Lexer::peek`: reads the lookahead and changes nothing. */
    method Peek() returns (t: Option<Token>)
      ensures t == nextTok
    {
      t := nextTok;
    }

    /** `Lexer::tok_string` */
    method TokString() returns (s: string)
      ensures s == tokString
    {
      s := tokString;
    }

    /** `Lexer::next` */
    method Next() returns (r: Result<Option<Token>>)
      requires Valid()
      modifies this
      ensures Valid()
      ensures Moved(r, State()) == Advance(old(State()))
    {
      tokString := slice;
      currentTok := nextTok;
      if cursor == |items| {
        slice := "";
        nextTok := None;
      } else {
        var item := items[cursor];
        cursor := cursor + 1;
        slice := item.text;
        match item
        case Matched(k, _) =>
          nextTok := Some(k);
        case Unmatched(_) =>
          return Err(ParseErrors.New(tokString, "unrecognized token"));
      }
      r := Ok(currentTok);
    }
  }
}
