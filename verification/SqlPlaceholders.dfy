/** Rewriting numbered SQL placeholders into positional ones, byte by byte. */
module SqlPlaceholders {
  import opened Text

  type Byte = b: int | 0 <= b < 256 witness 0

  const QUESTION: Byte := 63
  const ZERO: Byte := 48
  const NINE: Byte := 57
  /** `usize` has 64 bits. */
  const USIZE_MAX: nat := 0xFFFF_FFFF_FFFF_FFFF

  predicate IsDigit(b: Byte) {
    ZERO <= b <= NINE
  }

  /** A byte pushed as a `char`: above 127 it is written back as two bytes of UTF-8. */
  function Pushed(b: Byte): seq<Byte> {
    if b < 128 then [b] else [0xC0 + b / 64, 0x80 + b % 64]
  }

  // ----- what a statement says -----

  /** A piece of SQL: one byte of text, or a placeholder with its digits. */
  datatype Token = Char(b: Byte) | Hole(digits: seq<Byte>)

  /** How many digits a text starts with. */
  function DigitRun(sql: seq<Byte>): (r: nat)
    ensures r <= |sql|
  {
    if sql != [] && IsDigit(sql[0]) then 1 + DigitRun(sql[1..]) else 0
  }

  function Tokens(sql: seq<Byte>): seq<Token> {
    if sql == [] then []
    else if sql[0] == QUESTION then
      var n := DigitRun(sql[1..]);
      [Hole(sql[1..1 + n])] + Tokens(sql[1 + n..])
    else [Char(sql[0])] + Tokens(sql[1..])
  }

  function Value(digits: seq<Byte>): nat {
    if digits == [] then 0
    else 10 * Value(digits[..|digits| - 1]) + (if IsDigit(digits[|digits| - 1]) then digits[|digits| - 1] - ZERO else 0)
  }

  /** The digits of a number. */
  function Decimal(n: nat): seq<Byte> {
    if n < 10 then [ZERO + n] else Decimal(n / 10) + [ZERO + n % 10]
  }

  /** The value of a run of digits is the number that it is written as, */
  lemma {:induction false} ValueOfDecimal(n: nat)
    ensures Value(Decimal(n)) == n && forall k :: 0 <= k < |Decimal(n)| ==> IsDigit(Decimal(n)[k])
  {
    var digits := Decimal(n);
    if n < 10 {
      assert digits[..0] == [];
    } else {
      ValueOfDecimal(n / 10);
      assert digits[..|digits| - 1] == Decimal(n / 10);
    }
  }

  /** whatever zeros stand in front. */
  lemma {:induction false} LeadingZero(digits: seq<Byte>)
    ensures Value([ZERO] + digits) == Value(digits)
  {
    if digits == [] {
      assert ([ZERO] + digits)[..0] == [];
    } else {
      var n := |digits| - 1;
      assert ([ZERO] + digits)[..n + 1] == [ZERO] + digits[..n];
      LeadingZero(digits[..n]);
    }
  }

  function Largest(numbers: seq<nat>): nat {
    if numbers == [] then 0
    else
      var n := |numbers| - 1;
      var rest := Largest(numbers[..n]);
      if numbers[n] > rest then numbers[n] else rest
  }

  function NumberOf(digits: seq<Byte>, before: seq<nat>): nat {
    if digits == [] then Largest(before) + 1 else Value(digits)
  }

  /** The numbers of the placeholders under SQLite's rule: an explicit one is its own number, and a bare `?`
      is one above the largest so far. */
  function Numbers(tokens: seq<Token>): seq<nat> {
    if tokens == [] then []
    else
      var n := |tokens| - 1;
      var before := Numbers(tokens[..n]);
      match tokens[n]
      case Char(_) => before
      case Hole(digits) => before + [NumberOf(digits, before)]
  }

  /** `param_index.saturating_sub(1)`: `?0` is taken for `?1`. */
  function Index(number: nat): nat {
    if number == 0 then 0 else number - 1
  }

  function Bytes(token: Token): seq<Byte> {
    match token
    case Char(b) => Pushed(b)
    case Hole(_) => [QUESTION]
  }

  function Rendered(tokens: seq<Token>): seq<Byte> {
    if tokens == [] then [] else Rendered(tokens[..|tokens| - 1]) + Bytes(tokens[|tokens| - 1])
  }

  // ----- the loop -----

  datatype Outcome<T> =
    | Bound(sql: seq<Byte>, values: seq<T>)
    | InvalidIndex
    | MissingParameter(number: nat)

  /** The value that each number denotes. */
  function Values<T>(numbers: seq<nat>, params: seq<T>): seq<T>
    requires forall k :: 0 <= k < |numbers| ==> Index(numbers[k]) < |params|
  {
    seq(|numbers|, k requires 0 <= k < |numbers| => params[Index(numbers[k])])
  }

  predicate AllBound(numbers: seq<nat>, count: nat) {
    forall k :: 0 <= k < |numbers| ==> Index(numbers[k]) < count
  }

  lemma TokensExtend(tokens: seq<Token>, token: Token)
    ensures Rendered(tokens + [token]) == Rendered(tokens) + Bytes(token)
    ensures Numbers(tokens + [token]) ==
            Numbers(tokens) + (if token.Hole? then [NumberOf(token.digits, Numbers(tokens))] else [])
  {
    assert (tokens + [token])[..|tokens|] == tokens;
  }

  lemma LargestExtends(numbers: seq<nat>, n: nat)
    ensures Largest(numbers + [n]) == if n > Largest(numbers) then n else Largest(numbers)
  {
    assert (numbers + [n])[..|numbers|] == numbers;
  }

  lemma NumbersPrefix(done: seq<Token>, rest: seq<Token>)
    ensures Numbers(done) <= Numbers(done + rest)
  {
    if rest == [] {
      assert done + rest == done;
    } else {
      var n := |rest| - 1;
      NumbersPrefix(done, rest[..n]);
      assert (done + rest)[..|done + rest| - 1] == done + rest[..n];
    }
  }

  lemma HoleStep(done: seq<Token>, digits: seq<Byte>, rest: seq<Token>)
    ensures var longer, numbers, n := done + [Hole(digits)], Numbers(done), NumberOf(digits, Numbers(done));
            && Rendered(longer) == Rendered(done) + [QUESTION]
            && Numbers(longer) == numbers + [n] && n in Numbers(longer + rest)
            && Largest(Numbers(longer)) == if n > Largest(numbers) then n else Largest(numbers)
  {
    var longer, numbers, n := done + [Hole(digits)], Numbers(done), NumberOf(digits, Numbers(done));
    TokensExtend(done, Hole(digits));
    LargestExtends(numbers, n);
    NumbersPrefix(longer, rest);
    LastOfPrefix(numbers, n, Numbers(longer + rest));
  }

  lemma LastOfPrefix<T>(a: seq<T>, x: T, longer: seq<T>)
    requires a + [x] <= longer
    ensures x in longer
  {
    assert longer[|a|] == (a + [x])[|a|];
  }

  lemma Unbound(numbers: seq<nat>, n: nat, count: nat)
    requires n in numbers && Index(n) >= count
    ensures !AllBound(numbers, count)
  {
  }

  lemma ValuesExtend<T>(numbers: seq<nat>, n: nat, params: seq<T>)
    requires AllBound(numbers, |params|) && Index(n) < |params|
    ensures AllBound(numbers + [n], |params|)
    ensures Values(numbers + [n], params) == Values(numbers, params) + [params[Index(n)]]
  {
  }

  lemma Regroup(done: seq<Token>, token: Token, rest: seq<Token>)
    ensures done + ([token] + rest) == done + [token] + rest
  {
  }

  lemma CharStep(done: seq<Token>, b: Byte)
    ensures var longer := done + [Char(b)];
            && Rendered(longer) == Rendered(done) + Pushed(b) && Numbers(longer) == Numbers(done)
  {
    TokensExtend(done, Char(b));
  }

  method ScanDigits(sql: seq<Byte>, start: nat) returns (end: nat)
    requires start <= |sql|
    ensures end == start + DigitRun(sql[start..])
  {
    end := start;
    while end < |sql| && IsDigit(sql[end])
      invariant start <= end <= |sql|
      invariant end + DigitRun(sql[end..]) == start + DigitRun(sql[start..])
    {
      assert sql[end..][1..] == sql[end + 1..];
      end := end + 1;
    }
  }

  /** The loop has turned the pieces `done`, everything before `index`, into `out` and `values`. */
  ghost predicate Scanned<T>(sql: seq<Byte>, params: seq<T>, done: seq<Token>, index: nat, out: seq<Byte>,
                             values: seq<T>, max: nat) {
    && index <= |sql| && Tokens(sql) == done + Tokens(sql[index..])
    && out == Rendered(done) && max == Largest(Numbers(done))
    && AllBound(Numbers(done), |params|) && values == Values(Numbers(done), params)
  }

  /** The number of the placeholder at `index`, as the loop works it out. */
  lemma HoleNumber<T>(sql: seq<Byte>, params: seq<T>, done: seq<Token>, index: nat, end: nat, out: seq<Byte>,
                      values: seq<T>, max: nat)
    returns (number: nat)
    requires Scanned(sql, params, done, index, out, values, max) && index < |sql| && sql[index] == QUESTION
    requires end == index + 1 + DigitRun(sql[index + 1..]) && end <= |sql|
    ensures number == if end > index + 1 then Value(sql[index + 1..end]) else max + 1
    ensures number in Numbers(Tokens(sql))
    ensures Index(number) >= |params| ==> !AllBound(Numbers(Tokens(sql)), |params|)
    ensures Index(number) < |params| ==>
              Scanned(sql, params, done + [Hole(sql[index + 1..end])], end, out + [QUESTION],
                      values + [params[Index(number)]],
                      if number > max then number else max)
  {
    var digits, rest, numbers := sql[index + 1..end], Tokens(sql[end..]), Numbers(done);
    number := NumberOf(digits, numbers);
    NextHole(sql, index, end);
    Regroup(done, Hole(digits), rest);
    HoleStep(done, digits, rest);
    if Index(number) >= |params| {
      Unbound(Numbers(Tokens(sql)), number, |params|);
    } else {
      ValuesExtend(numbers, number, params);
    }
  }

  lemma CharScanned<T>(sql: seq<Byte>, params: seq<T>, done: seq<Token>, index: nat, out: seq<Byte>, values: seq<T>,
                       max: nat)
    requires Scanned(sql, params, done, index, out, values, max) && index < |sql| && sql[index] != QUESTION
    ensures Scanned(sql, params, done + [Char(sql[index])], index + 1, out + Pushed(sql[index]), values, max)
  {
    NextChar(sql, index);
    Regroup(done, Char(sql[index]), Tokens(sql[index + 1..]));
    CharStep(done, sql[index]);
  }

  lemma ScannedAll<T>(sql: seq<Byte>, params: seq<T>, done: seq<Token>, out: seq<Byte>, values: seq<T>, max: nat)
    requires Scanned(sql, params, done, |sql|, out, values, max)
    ensures done == Tokens(sql)
  {
    assert sql[|sql|..] == [];
    assert done + [] == done;
  }

  /** `normalize_sql_and_params`. It succeeds exactly when every placeholder denotes a parameter; it answers
      with the statement of the same pieces with bare placeholders, and the values in their order. */
  method Normalize<T>(sql: seq<Byte>, params: seq<T>) returns (r: Outcome<T>)
    requires |params| <= USIZE_MAX
    ensures r.Bound? <==> AllBound(Numbers(Tokens(sql)), |params|)
    ensures r.Bound? ==> r.sql == Rendered(Tokens(sql))
    ensures r.Bound? ==> r.values == Values(Numbers(Tokens(sql)), params)
    ensures r.MissingParameter? ==> r.number in Numbers(Tokens(sql)) && Index(r.number) >= |params|
    ensures r.InvalidIndex? ==> exists n :: n in Numbers(Tokens(sql)) && n > USIZE_MAX
  {
    var out, ordered := [], [];
    var max: nat, index: nat := 0, 0;
    ghost var done: seq<Token> := [];
    while index < |sql|
      invariant Scanned(sql, params, done, index, out, ordered, max)
    {
      if sql[index] == QUESTION {
        var end := ScanDigits(sql, index + 1);
        ghost var n := HoleNumber(sql, params, done, index, end, out, ordered, max);
        done := done + [Hole(sql[index + 1..end])];
        var number;
        if end > index + 1 {
          number := Value(sql[index + 1..end]);
          if number > USIZE_MAX {
            return InvalidIndex;
          }
          max := if number > max then number else max;
        } else {
          max := max + 1;
          number := max;
        }
        if Index(number) >= |params| {
          return MissingParameter(number);
        }
        ordered := ordered + [params[Index(number)]];
        out := out + [QUESTION];
        index := end;
      } else {
        CharScanned(sql, params, done, index, out, ordered, max);
        done := done + [Char(sql[index])];
        out := out + Pushed(sql[index]);
        index := index + 1;
      }
    }
    ScannedAll(sql, params, done, out, ordered, max);
    r := Bound(out, ordered);
  }

  lemma NextChar(sql: seq<Byte>, index: nat)
    requires index < |sql| && sql[index] != QUESTION
    ensures Tokens(sql[index..]) == [Char(sql[index])] + Tokens(sql[index + 1..])
  {
    assert sql[index..][1..] == sql[index + 1..];
  }

  lemma NextHole(sql: seq<Byte>, index: nat, end: nat)
    requires index < |sql| && sql[index] == QUESTION && end == index + 1 + DigitRun(sql[index + 1..])
    ensures end <= |sql| && Tokens(sql[index..]) == [Hole(sql[index + 1..end])] + Tokens(sql[end..])
  {
    var rest := sql[index..];
    assert rest[1..] == sql[index + 1..];
    assert rest[1..1 + DigitRun(rest[1..])] == sql[index + 1..end];
    assert rest[1 + DigitRun(rest[1..])..] == sql[end..];
  }

  // ----- what the new statement says -----

  /** The pieces of the new statement: holes are bare, and each byte became what it is written back as. */
  function Reencoded(tokens: seq<Token>): seq<Token> {
    if tokens == [] then [] else Pieces(tokens[0]) + Reencoded(tokens[1..])
  }

  function Pieces(token: Token): seq<Token> {
    match token
    case Char(b) => if b < 128 then [Char(b)] else [Char(Pushed(b)[0]), Char(Pushed(b)[1])]
    case Hole(_) => [Hole([])]
  }

  predicate AsciiToken(token: Token) {
    token.Char? ==> token.b < 128
  }

  predicate AsciiTokens(tokens: seq<Token>) {
    forall k :: 0 <= k < |tokens| ==> AsciiToken(tokens[k])
  }

  lemma AsciiFirst(token: Token, rest: seq<Token>)
    ensures AsciiTokens([token] + rest) <==> AsciiToken(token) && AsciiTokens(rest)
  {
    var all := [token] + rest;
    assert all[0] == token && forall k :: 0 <= k < |rest| ==> all[k + 1] == rest[k];
  }

  predicate Ascii(sql: seq<Byte>) {
    forall k :: 0 <= k < |sql| ==> sql[k] < 128
  }

  predicate IsDigitChar(token: Token) {
    token.Char? && IsDigit(token.b)
  }

  /** Text holds no question mark, and no digit follows a placeholder that did not take it. */
  ghost predicate Separated(tokens: seq<Token>) {
    && (forall k :: 0 <= k < |tokens| && tokens[k].Char? ==> tokens[k].b != QUESTION)
    && (forall k :: 0 <= k < |tokens| - 1 && tokens[k].Hole? ==> !IsDigitChar(tokens[k + 1]))
  }

  lemma {:induction false} RunStops(sql: seq<Byte>)
    ensures DigitRun(sql) < |sql| ==> !IsDigit(sql[DigitRun(sql)])
    ensures forall k :: 0 <= k < DigitRun(sql) ==> IsDigit(sql[k])
  {
    if sql != [] && IsDigit(sql[0]) {
      RunStops(sql[1..]);
      assert forall k :: 1 <= k < |sql| ==> sql[k] == sql[1..][k - 1];
    }
  }

  lemma {:induction false} TokensSeparated(sql: seq<Byte>)
    ensures Separated(Tokens(sql))
    ensures sql != [] ==> Tokens(sql) != [] && (Tokens(sql)[0].Char? ==> Tokens(sql)[0].b == sql[0])
  {
    if sql != [] {
      if sql[0] == QUESTION {
        var rest := sql[1 + DigitRun(sql[1..])..];
        RunStops(sql[1..]);
        TokensSeparated(rest);
        assert rest != [] ==> rest[0] == sql[1..][DigitRun(sql[1..])];
      } else {
        TokensSeparated(sql[1..]);
      }
    }
  }

  lemma RenderedExtends(tokens: seq<Token>, token: Token)
    ensures Rendered(tokens + [token]) == Rendered(tokens) + Bytes(token)
  {
    assert (tokens + [token])[..|tokens|] == tokens;
  }

  lemma {:induction false} RenderedFirst(token: Token, rest: seq<Token>)
    ensures Rendered([token] + rest) == Bytes(token) + Rendered(rest)
  {
    if rest == [] {
      RenderedExtends([], token);
      assert [token] + rest == [] + [token];
    } else {
      var n := |rest| - 1;
      var init, last := rest[..n], rest[n];
      RenderedFirst(token, init);
      assert rest == init + [last];
      Associates([token], init, [last]);
      RenderedExtends([token] + init, last);
      RenderedExtends(init, last);
      Associates(Bytes(token), Rendered(init), Bytes(last));
    }
  }

  lemma Associates<T>(a: seq<T>, b: seq<T>, c: seq<T>)
    ensures a + (b + c) == a + b + c
  {
  }

  lemma CharBytes(b: Byte, bytes: seq<Byte>)
    requires b != QUESTION
    ensures Tokens(Pushed(b) + bytes) == Pieces(Char(b)) + Tokens(bytes)
  {
    var text := Pushed(b) + bytes;
    if b < 128 {
      assert text[1..] == bytes;
    } else {
      assert text[1..] == [Pushed(b)[1]] + bytes;
      assert text[1..][1..] == bytes;
    }
  }

  lemma HoleBytes(bytes: seq<Byte>)
    requires bytes == [] || !IsDigit(bytes[0])
    ensures Tokens([QUESTION] + bytes) == [Hole([])] + Tokens(bytes)
  {
    var text := [QUESTION] + bytes;
    assert text[1..] == bytes && DigitRun(bytes) == 0;
    assert text[1..1 + 0] == [] && text[1 + 0..] == bytes;
  }

  lemma {:induction false} TokensOfRendered(tokens: seq<Token>)
    requires Separated(tokens)
    ensures Tokens(Rendered(tokens)) == Reencoded(tokens)
    ensures tokens != [] && !IsDigitChar(tokens[0]) ==> Rendered(tokens) != [] && !IsDigit(Rendered(tokens)[0])
    ensures tokens == [] ==> Rendered(tokens) == []
  {
    if tokens != [] {
      var first, rest := tokens[0], tokens[1..];
      assert tokens == [first] + rest;
      RenderedFirst(first, rest);
      TokensOfRendered(rest);
      match first
      case Char(b) => CharBytes(b, Rendered(rest));
      case Hole(_) => HoleBytes(Rendered(rest));
    }
  }

  predicate AllBare(tokens: seq<Token>) {
    forall t :: t in tokens && t.Hole? ==> t.digits == []
  }

  lemma {:induction false} ReencodedIsBare(tokens: seq<Token>)
    ensures AllBare(Reencoded(tokens)) && |Numbers(Reencoded(tokens))| == |Numbers(tokens)|
  {
    if tokens != [] {
      ReencodedIsBare(tokens[1..]);
      assert tokens == [tokens[0]] + tokens[1..];
      NumbersConcat([tokens[0]], tokens[1..]);
      NumbersConcat(Pieces(tokens[0]), Reencoded(tokens[1..]));
      FirstCount(tokens[0]);
    }
  }

  lemma FirstCount(token: Token)
    ensures |Numbers(Pieces(token))| == |Numbers([token])| && AllBare(Pieces(token))
  {
    TokensExtend([], token);
    assert [] + [token] == [token];
    if token.Char? && token.b >= 128 {
      var a, b := Char(Pushed(token.b)[0]), Char(Pushed(token.b)[1]);
      TokensExtend([], a);
      TokensExtend([a], b);
      assert [] + [a] == [a] && [a] + [b] == [a, b];
    } else if token.Hole? {
      TokensExtend([], Hole([]));
      assert [] + [Hole([])] == [Hole([])];
    }
  }

  lemma {:induction false} NumbersConcat(a: seq<Token>, b: seq<Token>)
    ensures |Numbers(a + b)| == |Numbers(a)| + |Numbers(b)|
  {
    if b == [] {
      assert a + b == a;
    } else {
      var n := |b| - 1;
      assert (a + b)[..|a + b| - 1] == a + b[..n];
      NumbersConcat(a, b[..n]);
    }
  }

  /** Bare placeholders count from one. */
  lemma {:induction false} BareNumbers(tokens: seq<Token>)
    requires AllBare(tokens)
    ensures forall k :: 0 <= k < |Numbers(tokens)| ==> Numbers(tokens)[k] == k + 1
    ensures Largest(Numbers(tokens)) == |Numbers(tokens)|
  {
    if tokens != [] {
      var n := |tokens| - 1;
      BareNumbers(tokens[..n]);
      assert tokens[n] in tokens;
      LargestExtends(Numbers(tokens[..n]), |Numbers(tokens[..n])| + 1);
    }
  }

  /** The k-th `?` of the new statement is bound to the value that the k-th placeholder of the old one
      denotes: read by SQLite's own rule, the new statement with its values binds exactly those values. */
  lemma NewStatementBinds<T>(sql: seq<Byte>, params: seq<T>)
    requires AllBound(Numbers(Tokens(sql)), |params|)
    ensures var out, values := Rendered(Tokens(sql)), Values(Numbers(Tokens(sql)), params);
            && |Numbers(Tokens(out))| == |Numbers(Tokens(sql))|
            && AllBound(Numbers(Tokens(out)), |values|) && Values(Numbers(Tokens(out)), values) == values
  {
    TokensSeparated(sql);
    TokensOfRendered(Tokens(sql));
    ReencodedIsBare(Tokens(sql));
    BareNumbers(Reencoded(Tokens(sql)));
  }

  lemma {:induction false} BareStatement(sql: seq<Byte>, i: nat)
    requires AllBare(Tokens(sql)) && i + 1 < |sql| && sql[i] == QUESTION
    ensures !IsDigit(sql[i + 1])
  {
    var n := if sql[0] == QUESTION then DigitRun(sql[1..]) else 0;
    var rest := sql[1 + n..];
    if sql[0] == QUESTION {
      assert Hole(sql[1..1 + n]) in Tokens(sql);
      assert n == 0;
    }
    assert forall t :: t in Tokens(rest) ==> t in Tokens(sql);
    if i == 0 {
      assert sql[1..][0] == sql[1];
    } else {
      BareStatement(rest, i - 1);
    }
  }

  /** No placeholder of the new statement is followed by a digit. */
  lemma NoDigitAfterPlaceholder(sql: seq<Byte>, i: nat)
    requires i + 1 < |Rendered(Tokens(sql))| && Rendered(Tokens(sql))[i] == QUESTION
    ensures !IsDigit(Rendered(Tokens(sql))[i + 1])
  {
    TokensSeparated(sql);
    TokensOfRendered(Tokens(sql));
    ReencodedIsBare(Tokens(sql));
    BareStatement(Rendered(Tokens(sql)), i);
  }

  function Bare(tokens: seq<Token>): seq<Token> {
    seq(|tokens|, i requires 0 <= i < |tokens| => if tokens[i].Hole? then Hole([]) else tokens[i])
  }

  lemma {:induction false} ReencodedLength(tokens: seq<Token>)
    ensures |Reencoded(tokens)| >= |tokens|
    ensures |Reencoded(tokens)| == |tokens| <==> AsciiTokens(tokens)
    ensures AsciiTokens(tokens) ==> Reencoded(tokens) == Bare(tokens)
  {
    if tokens != [] {
      ReencodedLength(tokens[1..]);
      AsciiFirst(tokens[0], tokens[1..]);
      assert tokens == [tokens[0]] + tokens[1..];
      assert Bare(tokens) == (if tokens[0].Hole? then [Hole([])] else [tokens[0]]) + Bare(tokens[1..]);
    }
  }

  lemma AsciiConcat(a: seq<Byte>, b: seq<Byte>)
    ensures Ascii(a + b) <==> Ascii(a) && Ascii(b)
  {
    assert forall k :: 0 <= k < |a| ==> (a + b)[k] == a[k];
    assert forall k :: 0 <= k < |b| ==> (a + b)[|a| + k] == b[k];
  }

  lemma {:induction false} AsciiPieces(sql: seq<Byte>)
    ensures Ascii(sql) <==> AsciiTokens(Tokens(sql))
  {
    if sql != [] {
      var n := if sql[0] == QUESTION then DigitRun(sql[1..]) else 0;
      var rest := sql[1 + n..];
      AsciiPieces(rest);
      AsciiConcat(sql[..1 + n], rest);
      assert sql == sql[..1 + n] + rest;
      if sql[0] == QUESTION {
        RunStops(sql[1..]);
        assert Ascii(sql[..1 + n]);
        AsciiFirst(Hole(sql[1..1 + n]), Tokens(rest));
      } else {
        assert sql[..1] == [sql[0]];
        AsciiFirst(Char(sql[0]), Tokens(rest));
      }
    }
  }

  /** The text of a statement is kept, piece by piece, exactly when the statement is ASCII. */
  lemma TextIsKept(sql: seq<Byte>)
    ensures Tokens(Rendered(Tokens(sql))) == Bare(Tokens(sql)) <==> Ascii(sql)
  {
    TokensSeparated(sql);
    TokensOfRendered(Tokens(sql));
    ReencodedLength(Tokens(sql));
    AsciiPieces(sql);
  }

  lemma {:induction false} RenderedBare(tokens: seq<Token>)
    ensures Rendered(Bare(tokens)) == Rendered(tokens)
  {
    if tokens != [] {
      var n := |tokens| - 1;
      RenderedBare(tokens[..n]);
      assert Bare(tokens)[..n] == Bare(tokens[..n]);
      assert Bytes(Bare(tokens)[n]) == Bytes(tokens[n]);
    }
  }

  /** A second pass over an ASCII statement changes nothing, neither the statement nor its values. */
  lemma SecondPassIsIdentity<T>(sql: seq<Byte>, params: seq<T>)
    requires Ascii(sql) && AllBound(Numbers(Tokens(sql)), |params|)
    ensures var out, values := Rendered(Tokens(sql)), Values(Numbers(Tokens(sql)), params);
            && Rendered(Tokens(out)) == out
            && AllBound(Numbers(Tokens(out)), |values|) && Values(Numbers(Tokens(out)), values) == values
  {
    TextIsKept(sql);
    RenderedBare(Tokens(sql));
    NewStatementBinds(sql, params);
  }
}
