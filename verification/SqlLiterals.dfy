/** What SQLite makes of a rewritten statement: it takes no `?` for a placeholder that stands in a literal, in
    a quoted name or in a comment, while the rewriting does. */
module SqlLiterals {
  import opened Text
  import opened SqlPlaceholders

  /** Where SQLite's tokenizer stands: in plain text, maybe just after a `-` or a `/`; between quotes of one of
      four kinds; in a comment to the end of the line, or in one of several lines, maybe just after a `*`. */
  datatype Region = Plain | Dash | Slash | Single | Double | Back | Bracket | Line | Block | Star {
    /** A `?` here is a placeholder. */
    predicate Open() {
      Plain? || Dash? || Slash?
    }
  }

  function AfterPlain(b: Byte): Region {
    if b == '-' as int then Dash
    else if b == '/' as int then Slash
    else if b == '\'' as int then Single
    else if b == '"' as int then Double
    else if b == '`' as int then Back
    else if b == '[' as int then Bracket
    else Plain
  }

  /** The region behind a byte that is no placeholder. */
  function After(r: Region, b: Byte): Region {
    match r
    case Plain => AfterPlain(b)
    case Dash => if b == '-' as int then Line else AfterPlain(b)
    case Slash => if b == '*' as int then Block else AfterPlain(b)
    case Single => if b == '\'' as int then Plain else r
    case Double => if b == '"' as int then Plain else r
    case Back => if b == '`' as int then Plain else r
    case Bracket => if b == ']' as int then Plain else r
    case Line => if b == '\n' as int then Plain else r
    case Block => if b == '*' as int then Star else Block
    case Star => if b == '/' as int then Plain else if b == '*' as int then Star else Block
  }

  /** The region behind a text without placeholders. */
  function Behind(r: Region, text: seq<Byte>): Region {
    if text == [] then r else After(Behind(r, text[..|text| - 1]), text[|text| - 1])
  }

  /** The two ends of a literal or a quoted name. */
  predicate Quotes(open: Byte, close: Byte) {
    (open == close && open in {'\'' as int, '"' as int, '`' as int}) || (open == '[' as int && close == ']' as int)
  }

  lemma BehindExtends(r: Region, text: seq<Byte>, b: Byte)
    ensures Behind(r, text + [b]) == After(Behind(r, text), b)
  {
    assert (text + [b])[..|text|] == text;
  }

  /** From the first quote to the next one that closes it nothing is a placeholder, and behind it there may be one. */
  lemma {:induction false} QuotedRegion(open: Byte, close: Byte, text: seq<Byte>)
    requires Quotes(open, close) && close !in text
    ensures !Behind(AfterPlain(open), text).Open() && Behind(AfterPlain(open), text + [close]) == Plain
    ensures Behind(AfterPlain(open), text) == AfterPlain(open)
  {
    if text != [] {
      QuotedRegion(open, close, text[..|text| - 1]);
    }
    BehindExtends(AfterPlain(open), text, close);
  }

  /** The same from two dashes to the end of the line. */
  lemma {:induction false} LineComment(text: seq<Byte>)
    requires '\n' as int !in text
    ensures Behind(Plain, ['-' as int, '-' as int]) == Line
    ensures Behind(Line, text) == Line && Behind(Line, text + ['\n' as int]) == Plain
  {
    BehindExtends(Plain, [], '-' as int);
    BehindExtends(Plain, ['-' as int], '-' as int);
    if text != [] {
      LineComment(text[..|text| - 1]);
    }
    BehindExtends(Line, text, '\n' as int);
  }

  /** No star is followed by a slash. */
  predicate NoEnd(text: seq<Byte>) {
    forall i :: 0 <= i < |text| - 1 ==> text[i] != '*' as int || text[i + 1] != '/' as int
  }

  /** The same from a slash and a star to the next star and slash. */
  lemma {:induction false} BlockComment(text: seq<Byte>)
    requires NoEnd(text)
    ensures Behind(Plain, ['/' as int, '*' as int]) == Block
    ensures Behind(Block, text) == if text != [] && text[|text| - 1] == '*' as int then Star else Block
    ensures Behind(Block, text + ['*' as int] + ['/' as int]) == Plain
  {
    BehindExtends(Plain, [], '/' as int);
    BehindExtends(Plain, ['/' as int], '*' as int);
    if text != [] {
      var n := |text| - 1;
      BlockComment(text[..n]);
      assert n > 0 ==> text[..n][n - 1] == text[n - 1];
    }
    BehindExtends(Block, text, '*' as int);
    BehindExtends(Block, text + ['*' as int], '/' as int);
  }

  /** The pieces of a statement as SQLite reads it. */
  function Lex(sql: seq<Byte>, r: Region): seq<Token> {
    if sql == [] then []
    else if sql[0] == QUESTION && r.Open() then
      var n := DigitRun(sql[1..]);
      [Hole(sql[1..1 + n])] + Lex(sql[1 + n..], Plain)
    else [Char(sql[0])] + Lex(sql[1..], After(r, sql[0]))
  }

  /** How many `?` stand where SQLite sees no placeholder. */
  function Hidden(sql: seq<Byte>, r: Region): nat {
    if sql == [] then 0
    else if sql[0] == QUESTION then
      var rest := sql[1 + DigitRun(sql[1..])..];
      if r.Open() then Hidden(rest, Plain) else 1 + Hidden(rest, After(r, QUESTION))
    else Hidden(sql[1..], After(r, sql[0]))
  }

  /** How many digits directly follow such a `?`: the rewriting takes them away. */
  function Eaten(sql: seq<Byte>, r: Region): nat {
    if sql == [] then 0
    else if sql[0] == QUESTION then
      var n := DigitRun(sql[1..]);
      if r.Open() then Eaten(sql[1 + n..], Plain) else n + Eaten(sql[1 + n..], After(r, QUESTION))
    else Eaten(sql[1..], After(r, sql[0]))
  }

  function Holes(tokens: seq<Token>): nat {
    if tokens == [] then 0 else (if tokens[0].Hole? then 1 else 0) + Holes(tokens[1..])
  }

  lemma {:induction false} HolesAreNumbered(tokens: seq<Token>)
    ensures |Numbers(tokens)| == Holes(tokens)
  {
    if tokens != [] {
      assert tokens == [tokens[0]] + tokens[1..];
      NumbersConcat([tokens[0]], tokens[1..]);
      TokensExtend([], tokens[0]);
      assert [] + [tokens[0]] == [tokens[0]];
      HolesAreNumbered(tokens[1..]);
    }
  }

  // ----- the rewritten text, piece by piece -----

  /** The rewriting of a statement that starts with a placeholder, hidden or not. */
  lemma RewrittenHole(sql: seq<Byte>)
    requires sql != [] && sql[0] == QUESTION
    ensures var rest := sql[1 + DigitRun(sql[1..])..];
            && Rendered(Tokens(sql)) == [QUESTION] + Rendered(Tokens(rest))
            && DigitRun(Rendered(Tokens(rest))) == 0
  {
    var n := DigitRun(sql[1..]);
    var rest := sql[1 + n..];
    RenderedFirst(Hole(sql[1..1 + n]), Tokens(rest));
    RunStops(sql[1..]);
    assert rest != [] ==> rest[0] == sql[1..][n];
    NoDigitFirst(rest);
  }

  lemma NoDigitFirst(sql: seq<Byte>)
    requires sql == [] || !IsDigit(sql[0])
    ensures DigitRun(Rendered(Tokens(sql))) == 0
  {
    TokensSeparated(sql);
    TokensOfRendered(Tokens(sql));
  }

  lemma RewrittenChar(sql: seq<Byte>)
    requires sql != [] && sql[0] != QUESTION
    ensures Rendered(Tokens(sql)) == Pushed(sql[0]) + Rendered(Tokens(sql[1..]))
  {
    RenderedFirst(Char(sql[0]), Tokens(sql[1..]));
  }

  /** Digits in a literal or a comment are text, and lead nowhere else. */
  lemma {:induction false} SkipDigits(sql: seq<Byte>, r: Region, n: nat)
    requires !r.Open() && !r.Star? && n <= |sql| && forall k :: 0 <= k < n ==> IsDigit(sql[k])
    ensures Holes(Lex(sql, r)) == Holes(Lex(sql[n..], r))
    ensures |Lex(sql, r)| == n + |Lex(sql[n..], r)|
  {
    if n == 0 {
      assert sql[0..] == sql;
    } else {
      assert IsDigit(sql[0]) && After(r, sql[0]) == r;
      SkipDigits(sql[1..], r, n - 1);
      assert sql[1..][n - 1..] == sql[n..];
      assert Lex(sql, r) == [Char(sql[0])] + Lex(sql[1..], r);
    }
  }

  /** A hidden placeholder and its digits are text. */
  lemma LexHidden(sql: seq<Byte>, r: Region)
    requires sql != [] && sql[0] == QUESTION && !r.Open()
    ensures var n := DigitRun(sql[1..]);
            && Holes(Lex(sql, r)) == Holes(Lex(sql[1 + n..], After(r, QUESTION)))
            && |Lex(sql, r)| == 1 + n + |Lex(sql[1 + n..], After(r, QUESTION))|
  {
    var n, next := DigitRun(sql[1..]), After(r, QUESTION);
    RunStops(sql[1..]);
    SkipDigits(sql[1..], next, n);
    assert sql[1..][n..] == sql[1 + n..];
    HiddenFirst(sql, r);
    NoHoleFirst(QUESTION, Lex(sql[1..], next));
  }

  lemma HiddenFirst(sql: seq<Byte>, r: Region)
    requires sql != [] && sql[0] == QUESTION && !r.Open()
    ensures Lex(sql, r) == [Char(QUESTION)] + Lex(sql[1..], After(r, QUESTION))
  {
  }

  lemma NoHoleFirst(b: Byte, tokens: seq<Token>)
    ensures Holes([Char(b)] + tokens) == Holes(tokens) && |[Char(b)] + tokens| == 1 + |tokens|
  {
    assert ([Char(b)] + tokens)[1..] == tokens;
  }

  lemma LexOpen(bytes: seq<Byte>, r: Region)
    requires r.Open() && DigitRun(bytes) == 0
    ensures Lex([QUESTION] + bytes, r) == [Hole([])] + Lex(bytes, Plain)
  {
    var text := [QUESTION] + bytes;
    assert text[1..] == bytes && text[1..1 + 0] == [] && text[1 + 0..] == bytes;
  }

  lemma LexChar(b: Byte, bytes: seq<Byte>, r: Region)
    requires b != QUESTION || !r.Open()
    ensures Lex([b] + bytes, r) == [Char(b)] + Lex(bytes, After(r, b))
  {
    assert ([b] + bytes)[1..] == bytes;
  }

  lemma LexPushed(b: Byte, bytes: seq<Byte>, r: Region)
    requires b != QUESTION
    ensures Holes(Lex(Pushed(b) + bytes, r)) == Holes(Lex(bytes, After(r, b)))
    ensures b < 128 ==> Lex(Pushed(b) + bytes, r) == [Char(b)] + Lex(bytes, After(r, b))
  {
    if b < 128 {
      LexChar(b, bytes, r);
    } else {
      LexTwoBytes(Pushed(b)[0], Pushed(b)[1], bytes, r);
      AboveAscii(r, b, Pushed(b)[0], Pushed(b)[1]);
    }
  }

  lemma LexTwoBytes(x: Byte, y: Byte, bytes: seq<Byte>, r: Region)
    requires x >= 128 && y >= 128
    ensures Holes(Lex([x, y] + bytes, r)) == Holes(Lex(bytes, After(After(r, x), y)))
  {
    LexChar(y, bytes, After(r, x));
    LexChar(x, [y] + bytes, r);
    Associates([x], [y], bytes);
    assert [x] + [y] == [x, y];
  }

  /** No byte above 127 opens or closes anything. */
  lemma AboveAscii(r: Region, b: Byte, x: Byte, y: Byte)
    requires b >= 128 && x >= 128 && y >= 128
    ensures After(After(r, x), y) == After(r, b)
  {
  }

  /** SQLite finds as many placeholders in the new statement as in the old one. */
  lemma {:induction false} SamePlaceholders(sql: seq<Byte>, r: Region)
    ensures Holes(Lex(Rendered(Tokens(sql)), r)) == Holes(Lex(sql, r))
    decreases |sql|
  {
    if sql != [] && sql[0] == QUESTION {
      var rest := sql[1 + DigitRun(sql[1..])..];
      SamePlaceholders(rest, if r.Open() then Plain else After(r, QUESTION));
      SameHole(sql, rest, r);
    } else if sql != [] {
      RewrittenChar(sql);
      SamePlaceholders(sql[1..], After(r, sql[0]));
      LexPushed(sql[0], Rendered(Tokens(sql[1..])), r);
    }
  }

  lemma SameHole(sql: seq<Byte>, rest: seq<Byte>, r: Region)
    requires sql != [] && sql[0] == QUESTION && rest == sql[1 + DigitRun(sql[1..])..]
    requires var next := if r.Open() then Plain else After(r, QUESTION);
             Holes(Lex(Rendered(Tokens(rest)), next)) == Holes(Lex(rest, next))
    ensures Holes(Lex(Rendered(Tokens(sql)), r)) == Holes(Lex(sql, r))
  {
    RewrittenHole(sql);
    if r.Open() {
      LexOpen(Rendered(Tokens(rest)), r);
      OneMoreHole([], Lex(Rendered(Tokens(rest)), Plain));
      OneMoreHole(sql[1..1 + DigitRun(sql[1..])], Lex(rest, Plain));
    } else {
      LexChar(QUESTION, Rendered(Tokens(rest)), r);
      LexHidden(sql, r);
    }
  }

  lemma OneMoreHole(digits: seq<Byte>, tokens: seq<Token>)
    ensures Holes([Hole(digits)] + tokens) == 1 + Holes(tokens)
  {
    assert ([Hole(digits)] + tokens)[1..] == tokens;
  }

  /** The rewriting counts the hidden ones as well. */
  lemma {:induction false} PlaceholdersCounted(sql: seq<Byte>, r: Region)
    ensures Holes(Tokens(sql)) == Holes(Lex(sql, r)) + Hidden(sql, r)
  {
    if sql != [] && sql[0] == QUESTION {
      var rest := sql[1 + DigitRun(sql[1..])..];
      PlaceholdersCounted(rest, if r.Open() then Plain else After(r, QUESTION));
      if !r.Open() {
        LexHidden(sql, r);
      }
    } else if sql != [] {
      PlaceholdersCounted(sql[1..], After(r, sql[0]));
    }
  }

  lemma {:induction false} NothingHidden(sql: seq<Byte>, r: Region)
    requires Hidden(sql, r) == 0
    ensures Lex(sql, r) == Tokens(sql)
  {
    if sql != [] && sql[0] == QUESTION {
      NothingHidden(sql[1 + DigitRun(sql[1..])..], Plain);
    } else if sql != [] {
      NothingHidden(sql[1..], After(r, sql[0]));
    }
  }

  /** The rewriting and SQLite read a statement alike exactly when nothing is hidden. */
  lemma ReadAlike(sql: seq<Byte>)
    ensures Lex(sql, Plain) == Tokens(sql) <==> Hidden(sql, Plain) == 0
  {
    PlaceholdersCounted(sql, Plain);
    if Hidden(sql, Plain) == 0 {
      NothingHidden(sql, Plain);
    }
  }

  // ----- the binding -----

  /** Read by SQLite, the new statement has one value for each placeholder, and each gets the value that the
      placeholder in its place denoted in the old statement. */
  ghost predicate BindsAlike<T>(sql: seq<Byte>, params: seq<T>, out: seq<Byte>, values: seq<T>) {
    var old_, new_ := Numbers(Lex(sql, Plain)), Numbers(Lex(out, Plain));
    && |new_| == |old_| == |values|
    && AllBound(old_, |params|) && AllBound(new_, |values|)
    && Values(new_, values) == Values(old_, params)
  }

  /** A statement that the rewriting accepts is bound as SQLite would bind it exactly when no `?` stands in a
      literal, in a quoted name or in a comment. */
  lemma BindingIsSqlite<T>(sql: seq<Byte>, params: seq<T>)
    requires AllBound(Numbers(Tokens(sql)), |params|)
    ensures BindsAlike(sql, params, Rendered(Tokens(sql)), Values(Numbers(Tokens(sql)), params))
        <==> Hidden(sql, Plain) == 0
  {
    var out, values := Rendered(Tokens(sql)), Values(Numbers(Tokens(sql)), params);
    PlaceholdersCounted(sql, Plain);
    SamePlaceholders(sql, Plain);
    HolesAreNumbered(Tokens(sql));
    HolesAreNumbered(Lex(sql, Plain));
    HolesAreNumbered(Lex(out, Plain));
    if Hidden(sql, Plain) == 0 {
      ReadAlike(sql);
      NewStatementBinds(sql, params);
      NothingHiddenInOutput(sql, Plain);
      NothingHidden(out, Plain);
    }
  }

  lemma {:induction false} NothingHiddenInOutput(sql: seq<Byte>, r: Region)
    requires Hidden(sql, r) == 0
    ensures Hidden(Rendered(Tokens(sql)), r) == 0
  {
    var out := Rendered(Tokens(sql));
    PlaceholdersCounted(out, r);
    SamePlaceholders(sql, r);
    PlaceholdersCounted(sql, r);
    TokensSeparated(sql);
    TokensOfRendered(Tokens(sql));
    ReencodedIsBare(Tokens(sql));
    HolesAreNumbered(Tokens(out));
    HolesAreNumbered(Tokens(sql));
  }

  // ----- the text -----

  lemma BareFirst(token: Token, rest: seq<Token>)
    ensures Bare([token] + rest) == [if token.Hole? then Hole([]) else token] + Bare(rest)
  {
  }

  lemma {:induction false} RewrittenText(sql: seq<Byte>, r: Region)
    requires Ascii(sql)
    ensures |Lex(sql, r)| == |Lex(Rendered(Tokens(sql)), r)| + Eaten(sql, r)
    ensures Eaten(sql, r) == 0 ==> Lex(Rendered(Tokens(sql)), r) == Bare(Lex(sql, r))
    decreases |sql|, 1
  {
    if sql != [] && sql[0] == QUESTION {
      HoleText(sql, r);
    } else if sql != [] {
      var b, rest := sql[0], sql[1..];
      RewrittenChar(sql);
      RewrittenText(rest, After(r, b));
      LexPushed(b, Rendered(Tokens(rest)), r);
      BareFirst(Char(b), Lex(rest, After(r, b)));
    }
  }

  lemma {:induction false} HoleText(sql: seq<Byte>, r: Region)
    requires Ascii(sql) && sql != [] && sql[0] == QUESTION
    ensures |Lex(sql, r)| == |Lex(Rendered(Tokens(sql)), r)| + Eaten(sql, r)
    ensures Eaten(sql, r) == 0 ==> Lex(Rendered(Tokens(sql)), r) == Bare(Lex(sql, r))
    decreases |sql|, 0
  {
    var n := DigitRun(sql[1..]);
    var rest := sql[1 + n..];
    RewrittenHole(sql);
    if r.Open() {
      RewrittenText(rest, Plain);
      LexOpen(Rendered(Tokens(rest)), r);
      BareFirst(Hole(sql[1..1 + n]), Lex(rest, Plain));
    } else {
      RewrittenText(rest, After(r, QUESTION));
      LexChar(QUESTION, Rendered(Tokens(rest)), r);
      LexHidden(sql, r);
      BareFirst(Char(QUESTION), Lex(rest, After(r, QUESTION)));
      assert n == 0 ==> Lex(sql, r) == [Char(QUESTION)] + Lex(rest, After(r, QUESTION));
    }
  }

  /** The text of an ASCII statement, literals and comments included, is kept exactly when no digit follows a
      `?` in one of them. */
  lemma TextIsSqlite(sql: seq<Byte>)
    requires Ascii(sql)
    ensures Lex(Rendered(Tokens(sql)), Plain) == Bare(Lex(sql, Plain)) <==> Eaten(sql, Plain) == 0
  {
    RewrittenText(sql, Plain);
  }

  // ----- an input -----

  /** Text that opens no literal, no name and no comment. */
  predicate Harmless(b: Byte) {
    b != QUESTION && b < 128 && AfterPlain(b) == Plain
  }

  lemma {:induction false} NumbersSkipText(b: Byte, tokens: seq<Token>)
    ensures Numbers([Char(b)] + tokens) == Numbers(tokens)
  {
    if tokens == [] {
      TokensExtend([], Char(b));
      assert [Char(b)] + tokens == [] + [Char(b)];
    } else {
      var n := |tokens| - 1;
      var init, last := tokens[..n], tokens[n];
      NumbersSkipText(b, init);
      TokensExtend([Char(b)] + init, last);
      TokensExtend(init, last);
      assert tokens == init + [last];
      Associates([Char(b)], init, [last]);
    }
  }

  /** One byte of such text in front changes nothing of what follows it. */
  lemma ByteInFront(b: Byte, sql: seq<Byte>)
    requires Harmless(b)
    ensures Numbers(Tokens([b] + sql)) == Numbers(Tokens(sql))
    ensures Rendered(Tokens([b] + sql)) == [b] + Rendered(Tokens(sql))
    ensures Numbers(Lex([b] + sql, Plain)) == Numbers(Lex(sql, Plain))
    ensures Hidden([b] + sql, Plain) == Hidden(sql, Plain) && Eaten([b] + sql, Plain) == Eaten(sql, Plain)
  {
    assert ([b] + sql)[1..] == sql;
    RewrittenChar([b] + sql);
    NumbersSkipText(b, Tokens(sql));
    NumbersSkipText(b, Lex(sql, Plain));
  }

  /** The same of a whole text. */
  ghost predicate InFront(text: seq<Byte>, sql: seq<Byte>) {
    && Numbers(Tokens(text + sql)) == Numbers(Tokens(sql))
      && Rendered(Tokens(text + sql)) == text + Rendered(Tokens(sql))
    && Numbers(Lex(text + sql, Plain)) == Numbers(Lex(sql, Plain))
    && Hidden(text + sql, Plain) == Hidden(sql, Plain) && Eaten(text + sql, Plain) == Eaten(sql, Plain)
  }

  lemma {:induction false} TextInFront(text: seq<Byte>, sql: seq<Byte>)
    requires forall k :: 0 <= k < |text| ==> Harmless(text[k])
    ensures InFront(text, sql)
  {
    if text == [] {
      assert text + sql == sql;
    } else {
      TextInFront(text[1..], sql);
      ByteInFront(text[0], text[1..] + sql);
      Associates([text[0]], text[1..], sql);
      Associates([text[0]], text[1..], Rendered(Tokens(sql)));
      assert [text[0]] + text[1..] == text;
    }
  }

  /** `SELECT ` */
  const SELECT: seq<Byte> := [83, 69, 76, 69, 67, 84, 32]
  /** `, ?2` and `, ?` */
  const SECOND: seq<Byte> := [44, 32, 63, 50]
  const LAST: seq<Byte> := [44, 32, 63]
  /** `'?1'` and `'?'` */
  const LITERAL: seq<Byte> := [39, 63, 49, 39]
  const SHORTER: seq<Byte> := [39, 63, 39]

  /** A byte that is no placeholder in front, as both read it. */
  lemma OneByte(b: Byte, rest: seq<Byte>, r: Region)
    requires b != QUESTION && b < 128
    ensures Tokens([b] + rest) == [Char(b)] + Tokens(rest) && Lex([b] + rest, r) == [Char(b)] + Lex(rest, After(r, b))
    ensures Hidden([b] + rest, r) == Hidden(rest, After(r, b)) && Eaten([b] + rest, r) == Eaten(rest, After(r, b))
    ensures Rendered(Tokens([b] + rest)) == [b] + Rendered(Tokens(rest))
  {
    assert ([b] + rest)[1..] == rest;
    RewrittenChar([b] + rest);
  }

  /** A placeholder with one digit in front, open or hidden. */
  lemma OneHole(digit: Byte, rest: seq<Byte>, r: Region)
    requires IsDigit(digit) && (rest == [] || !IsDigit(rest[0])) && r in {Plain, Single}
    ensures var sql := [QUESTION] + ([digit] + rest);
            && Tokens(sql) == [Hole([digit])] + Tokens(rest)
              && Rendered(Tokens(sql)) == [QUESTION] + Rendered(Tokens(rest))
            && Lex(sql, Plain) == [Hole([digit])] + Lex(rest, Plain)
            && Lex(sql, Single) == [Char(QUESTION)] + ([Char(digit)] + Lex(rest, Single))
            && Hidden(sql, r) == Hidden(rest, r) + (if r.Plain? then 0 else 1)
            && Eaten(sql, r) == Eaten(rest, r) + (if r.Plain? then 0 else 1)
  {
    var sql := [QUESTION] + ([digit] + rest);
    assert sql[1..] == [digit] + rest && ([digit] + rest)[1..] == rest && DigitRun(sql[1..]) == 1;
    assert sql[1..1 + 1] == [digit] && sql[1 + 1..] == rest;
    RewrittenHole(sql);
    LexChar(QUESTION, [digit] + rest, Single);
    LexChar(digit, rest, Single);
  }

  /** The placeholder after the literal. */
  lemma SecondColumn()
    ensures Tokens(SECOND) == [Char(44), Char(32), Hole([50])] == Lex(SECOND, Plain)
    ensures Hidden(SECOND, Plain) == 0 && Eaten(SECOND, Plain) == 0 && Rendered(Tokens(SECOND)) == LAST
  {
    var hole := [QUESTION] + ([50] + []);
    OneHole(50, [], Plain);
    OneByte(32, hole, Plain);
    OneByte(44, [32] + hole, Plain);
    assert SECOND == [44] + ([32] + hole);
  }

  lemma LastColumn()
    ensures Lex(LAST, Plain) == [Char(44), Char(32), Hole([])]
  {
    var bare: seq<Byte> := [63];
    LexOpen([], Plain);
    assert [QUESTION] + [] == bare;
    OneByte(32, bare, Plain);
    OneByte(44, [32] + bare, Plain);
    assert LAST == [44] + ([32] + bare);
  }

  /** The literal in front of it, as the rewriting reads it and as SQLite does. */
  lemma LiteralInFront()
    ensures Tokens(LITERAL + SECOND) == [Char(39), Hole([49]), Char(39)] + Tokens(SECOND)
    ensures Lex(LITERAL + SECOND, Plain) == [Char(39), Char(63), Char(49), Char(39)] + Lex(SECOND, Plain)
    ensures Hidden(LITERAL + SECOND, Plain) == 1 && Eaten(LITERAL + SECOND, Plain) == 1
    ensures Rendered(Tokens(LITERAL + SECOND)) == SHORTER + LAST
  {
    SecondColumn();
    LiteralBefore(SECOND);
    assert LITERAL + SECOND == [39] + ([QUESTION] + ([49] + ([39] + SECOND)));
    assert SHORTER + LAST == [39] + ([QUESTION] + ([39] + LAST));
  }

  lemma LiteralBefore(rest: seq<Byte>)
    ensures var sql := [39] + ([QUESTION] + ([49] + ([39] + rest)));
            && Tokens(sql) == [Char(39), Hole([49]), Char(39)] + Tokens(rest)
            && Rendered(Tokens(sql)) == [39] + ([QUESTION] + ([39] + Rendered(Tokens(rest))))
    ensures var sql := [39] + ([QUESTION] + ([49] + ([39] + rest)));
            && Lex(sql, Plain) == [Char(39), Char(63), Char(49), Char(39)] + Lex(rest, Plain)
            && Hidden(sql, Plain) == Hidden(rest, Plain) + 1 && Eaten(sql, Plain) == Eaten(rest, Plain) + 1
  {
    var quoted := [39] + rest;
    var hole := [QUESTION] + ([49] + quoted);
    OneByte(39, rest, Single);
    OneHole(49, quoted, Single);
    OneByte(39, hole, Plain);
    FourInARow(Char(39), Char(63), Char(49), Char(39), Lex(rest, Plain));
    ThreeInARow(Char(39), Hole([49]), Char(39), Tokens(rest));
  }

  lemma ThreeInARow<T>(a: T, b: T, c: T, rest: seq<T>)
    ensures [a] + ([b] + ([c] + rest)) == [a, b, c] + rest
  {
  }

  lemma FourInARow<T>(a: T, b: T, c: T, d: T, rest: seq<T>)
    ensures [a] + ([b] + ([c] + ([d] + rest))) == [a, b, c, d] + rest
  {
  }

  lemma ShorterInFront()
    ensures Lex(SHORTER + LAST, Plain) == [Char(39), Char(63), Char(39)] + Lex(LAST, Plain)
  {
    LexChar(39, LAST, Single);
    LexChar(63, [39] + LAST, Single);
    LexChar(39, [63] + ([39] + LAST), Plain);
    assert SHORTER + LAST == [39] + ([63] + ([39] + LAST));
  }

  lemma ReadNumbers(tokens: seq<Token>, digits: seq<Byte>)
    requires tokens == [Char(44), Char(32), Hole(digits)]
    ensures Numbers(tokens) == [if digits == [] then 1 else Value(digits)]
  {
    TokensExtend([], Hole(digits));
    assert [] + [Hole(digits)] == [Hole(digits)];
    NumbersSkipText(32, [Hole(digits)]);
    NumbersSkipText(44, [Char(32), Hole(digits)]);
    assert [Char(32)] + [Hole(digits)] == [Char(32), Hole(digits)];
    assert [Char(44)] + [Char(32), Hole(digits)] == tokens;
  }

  lemma LiteralRead()
    ensures Numbers(Lex(LITERAL + SECOND, Plain)) == [2]
    ensures Numbers(Lex(SHORTER + LAST, Plain)) == [1]
  {
    SecondColumn();
    LastColumn();
    LiteralInFront();
    ShorterInFront();
    assert Value([50]) == 2 by {
      assert [50 as Byte][..0] == [];
    }
    var second, last := Lex(SECOND, Plain), Lex(LAST, Plain);
    ReadNumbers(second, [50]);
    ReadNumbers(last, []);
    SkipThree(39, 63, 49, [Char(39)] + second);
    NumbersSkipText(39, second);
    SkipThree(39, 63, 39, last);
    assert [Char(39), Char(63), Char(49)] + ([Char(39)] + second) == [Char(39), Char(63), Char(49), Char(39)] + second;
  }

  lemma SkipThree(a: Byte, b: Byte, c: Byte, tokens: seq<Token>)
    ensures Numbers([Char(a), Char(b), Char(c)] + tokens) == Numbers(tokens)
  {
    NumbersSkipText(c, tokens);
    NumbersSkipText(b, [Char(c)] + tokens);
    NumbersSkipText(a, [Char(b)] + ([Char(c)] + tokens));
    assert [Char(a), Char(b), Char(c)] + tokens == [Char(a)] + ([Char(b)] + ([Char(c)] + tokens));
  }

  lemma TextBehind(tokens: seq<Token>, b: Byte)
    ensures Numbers(tokens + [Char(b)]) == Numbers(tokens)
  {
    TokensExtend(tokens, Char(b));
  }

  /** An explicit first placeholder, text, and an explicit second one. */
  lemma OneAndTwo(a: Byte, b: Byte, c: Byte)
    ensures Numbers([Hole([49])] + [Char(a)] + [Char(b)] + [Char(c)] + [Hole([50])]) == [1, 2]
  {
    assert Value([49]) == 1 && Value([50]) == 2 by {
      assert [49 as Byte][..0] == [] && [50 as Byte][..0] == [];
    }
    var one := [Hole([49])];
    TokensExtend([], Hole([49]));
    assert [] + one == one;
    TextBehind(one, a);
    TextBehind(one + [Char(a)], b);
    TextBehind(one + [Char(a)] + [Char(b)], c);
    TokensExtend(one + [Char(a)] + [Char(b)] + [Char(c)], Hole([50]));
  }

  lemma LiteralNumbers()
    ensures Numbers(Tokens(LITERAL + SECOND)) == [1, 2]
  {
    SecondColumn();
    LiteralInFront();
    OneAndTwo(39, 44, 32);
    NumbersSkipText(39, [Hole([49])] + [Char(39)] + [Char(44)] + [Char(32)] + [Hole([50])]);
    assert Tokens(LITERAL + SECOND)
        == [Char(39)] + ([Hole([49])] + [Char(39)] + [Char(44)] + [Char(32)] + [Hole([50])]);
  }

  lemma SelectInFront(sql: seq<Byte>)
    ensures InFront(SELECT, sql)
  {
    TextInFront(SELECT, sql);
  }

  /** `SELECT '?1', ?2`: the literal loses its digit, and SQLite's one placeholder, which denoted the second
      parameter, comes to denote the first of the values, which is the first parameter. */
  lemma LiteralIsRewritten()
    ensures var sql, out := SELECT + (LITERAL + SECOND), SELECT + (SHORTER + LAST);
            && Rendered(Tokens(sql)) == out && Numbers(Tokens(sql)) == [1, 2]
            && Numbers(Lex(sql, Plain)) == [2] && Numbers(Lex(out, Plain)) == [1]
            && Hidden(sql, Plain) == 1 && Eaten(sql, Plain) == 1
  {
    LiteralInFront();
    LiteralNumbers();
    LiteralRead();
    SelectInFront(LITERAL + SECOND);
    SelectInFront(SHORTER + LAST);
  }
}
