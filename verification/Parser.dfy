/**
 The order grammar: a line split at semicolons, each piece matched by one regular
 expression whose TYPE is as short as possible, then decoded.
 */
module Parser {
  import opened Menu
  import opened Orders

  datatype Error =
    | EmptySegment
    | EmptyOrder
    | InvalidToken
    | UnknownType(token: string)
    | UnknownSize(token: string)
    | NumberExpected(token: string)
    | NumberNotPositive(token: string)
    | NumberFormat(token: string)

  datatype Result<+T> = Ok(value: T) | Err(error: Error)

  // --------------------------------------------------------------- characters

  /** The blanks that parse() itself looks for. */
  predicate IsBlank(c: char) {
    c == ' ' || c == '\t' || c == '\r' || c == '\n'
  }

  /** What \s matches: two more than that. */
  predicate IsSpace(c: char) {
    IsBlank(c) || c as int == 11 || c as int == 12
  }

  predicate IsLetter(c: char) {
    'a' <= c <= 'z' || 'A' <= c <= 'Z'
  }

  predicate IsDigit(c: char) {
    '0' <= c <= '9'
  }

  function LowerChar(c: char): char {
    if 'A' <= c <= 'Z' then (c as int + 32) as char else c
  }

  function Lower(s: string): (low: string)
    ensures |low| == |s|
    ensures forall i :: 0 <= i < |s| ==> low[i] == LowerChar(s[i])
  {
    if s == "" then "" else Lower(s[..|s| - 1]) + [LowerChar(s[|s| - 1])]
  }

  method ToLower(str: string) returns (low: string)
    ensures low == Lower(str)
  {
    low := "";
    for i := 0 to |str|
      invariant low == Lower(str[..i])
    {
      assert str[..i + 1][..i] == str[..i];
      low := low + [LowerChar(str[i])];
    }
    assert str[..|str|] == str;
  }

  predicate All(p: char -> bool, s: string) {
    forall i :: 0 <= i < |s| ==> p(s[i])
  }

  /** How many characters of this class a string starts with. */
  function Leading(p: char -> bool, s: string): (n: nat)
    ensures n <= |s| && All(p, s[..n]) && (n < |s| ==> !p(s[n]))
  {
    if s == "" || !p(s[0]) then 0 else 1 + Leading(p, s[1..])
  }

  lemma {:induction false} LeadingIs(p: char -> bool, a: string, b: string)
    requires All(p, a) && (b == "" || !p(b[0]))
    ensures Leading(p, a + b) == |a|
  {
    if a == "" {
      assert a + b == b;
    } else {
      assert (a + b)[1..] == a[1..] + b;
      assert p(a[0]);
      LeadingIs(p, a[1..], b);
    }
  }

  // ------------------------------------------------------------------ numbers

  const LONG_LIMIT: nat := 0x1_0000_0000_0000_0000

  function DigitValue(c: char): nat
    requires IsDigit(c)
  {
    c as int - '0' as int
  }

  function Value(digits: string): nat
    requires All(IsDigit, digits)
  {
    if digits == "" then 0
    else Value(digits[..|digits| - 1]) * 10 + DigitValue(digits[|digits| - 1])
  }

  /** A number written in decimal, without leading zeros. */
  function Decimal(n: nat): (s: string)
    ensures s != "" && All(IsDigit, s) && (n > 0 ==> s[0] != '0')
  {
    var last := [('0' as int + n % 10) as char];
    if n < 10 then last else Decimal(n / 10) + last
  }

  lemma {:induction false} ValueOfDecimal(n: nat)
    ensures Value(Decimal(n)) == n
  {
    if n >= 10 {
      ValueOfDecimal(n / 10);
      assert Decimal(n)[..|Decimal(n)| - 1] == Decimal(n / 10);
    } else {
      assert Decimal(n)[..0] == "";
    }
  }

  lemma {:induction false} DecimalOfValue(digits: string)
    requires digits != "" && All(IsDigit, digits) && (digits[0] != '0' || |digits| == 1)
    ensures Decimal(Value(digits)) == digits
    ensures digits[0] != '0' ==> Value(digits) > 0
  {
    var n := |digits| - 1;
    if n > 0 {
      DecimalOfValue(digits[..n]);
      assert Value(digits) / 10 == Value(digits[..n]) && Value(digits) % 10 == DigitValue(digits[n]);
      assert digits == digits[..n] + [digits[n]];
    } else {
      assert digits[..0] == "";
      assert digits == [digits[0]];
    }
  }

  /** What parseNumber makes of a token. */
  function NumberOf(token: string): Result<nat> {
    var low := Lower(token);
    if low == "" || low[0] != 'x' then Err(NumberExpected(token))
    else if |low| < 2 || low[1] < '1' || low[1] > '9' then Err(NumberNotPositive(token))
    else if !All(IsDigit, low[2..]) then Err(NumberFormat(token))
    else
      assert low[1..] == [low[1]] + low[2..];
      if Value(low[1..]) < LONG_LIMIT then Ok(Value(low[1..])) else Err(NumberFormat(token))
  }

  method ParseNumber(token: string) returns (result: Result<nat>)
    ensures result == NumberOf(token)
    ensures result == Err(NumberExpected(token)) <==> token == "" || token[0] !in {'x', 'X'}
    ensures result == Err(NumberNotPositive(token)) <==>
      token != "" && token[0] in {'x', 'X'} && (|token| < 2 || !('1' <= token[1] <= '9'))
    ensures result == Err(NumberFormat(token)) <==>
      && |token| >= 2 && token[0] in {'x', 'X'} && '1' <= token[1] <= '9'
      && !exists n :: n < 0x1_0000_0000_0000_0000 && token[1..] == Decimal(n)
  {
    NumberComplaints(token);
    hide Decimal;
    var low := ToLower(token);
    if low == "" || low[0] != 'x' {
      return Err(NumberExpected(token));
    }
    if |low| < 2 || low[1] < '1' || low[1] > '9' {
      return Err(NumberNotPositive(token));
    }
    for i := 2 to |low|
      invariant forall j :: 2 <= j < i ==> IsDigit(low[j])
    {
      if !IsDigit(low[i]) {
        assert low[2..][i - 2] == low[i];
        return Err(NumberFormat(token));
      }
    }
    assert low[1..] == [low[1]] + low[2..];
    result := Stoul(low[1..], token);
  }

  /** std::stoul on a string of digits: it throws when the value does not fit. */
  method Stoul(digits: string, token: string) returns (result: Result<nat>)
    requires All(IsDigit, digits)
    ensures result == if Value(digits) < LONG_LIMIT then Ok(Value(digits)) else Err(NumberFormat(token))
  {
    var value := 0;
    for i := 0 to |digits|
      invariant value == Value(digits[..i])
    {
      assert digits[..i + 1][..i] == digits[..i];
      value := value * 10 + DigitValue(digits[i]);
    }
    assert digits[..|digits|] == digits;
    result := if value < LONG_LIMIT then Ok(value) else Err(NumberFormat(token));
  }

  predicate IsX(c: char) {
    c == 'x' || c == 'X'
  }

  lemma LowerChars(c: char)
    ensures IsDigit(LowerChar(c)) <==> IsDigit(c)
    ensures IsDigit(c) || IsSpace(c) ==> LowerChar(c) == c
    ensures LowerChar(c) == 'x' <==> IsX(c)
    ensures IsLetter(LowerChar(c)) <==> IsLetter(c)
  {
  }

  /** A number token denotes n exactly if it is an x and n in decimal, for the n that fit in 64 bits. */
  lemma NumberIsDecimal(token: string, n: nat)
    ensures NumberOf(token) == Ok(n) <==>
            1 <= n < 0x1_0000_0000_0000_0000 && token != "" && token[0] in {'x', 'X'} && token[1..] == Decimal(n)
  {
    if token != "" { LowerChars(token[0]); }
    if NumberOf(token) == Ok(n) {
      NumberIsPrinted(token, n);
    }
    if 1 <= n < LONG_LIMIT && token != "" && IsX(token[0]) && token[1..] == Decimal(n) {
      PrintedIsNumber(token, n);
    }
  }

  /** What is wrong with a token that denotes no number. */
  lemma NumberComplaints(token: string)
    ensures NumberOf(token) == Err(NumberExpected(token)) <==> token == "" || token[0] !in {'x', 'X'}
    ensures NumberOf(token) == Err(NumberNotPositive(token)) <==>
      token != "" && token[0] in {'x', 'X'} && (|token| < 2 || !('1' <= token[1] <= '9'))
    ensures NumberOf(token) == Err(NumberFormat(token)) <==>
      && |token| >= 2 && token[0] in {'x', 'X'} && '1' <= token[1] <= '9'
      && !exists n :: n < 0x1_0000_0000_0000_0000 && token[1..] == Decimal(n)
  {
    NumberStart(token);
    hide NumberOf, Decimal;
    if NumberOf(token).Ok? { NumberIsDecimal(token, NumberOf(token).value); }
    if |token| >= 2 && '1' <= token[1] <= '9' && exists n :: n < 0x1_0000_0000_0000_0000 && token[1..] == Decimal(n) {
      var n :| n < 0x1_0000_0000_0000_0000 && token[1..] == Decimal(n);
      ZeroIsNotPositive();
      NumberIsDecimal(token, n);
    }
  }

  lemma ZeroIsNotPositive()
    ensures Decimal(0) == "0"
  {
  }

  /** The first two letters decide between the complaints. */
  lemma NumberStart(token: string)
    ensures var x := token != "" && token[0] in {'x', 'X'};
      var digit := |token| >= 2 && '1' <= token[1] <= '9';
      && (NumberOf(token) == Err(NumberExpected(token)) <==> !x)
      && (NumberOf(token) == Err(NumberNotPositive(token)) <==> x && !digit)
      && (x && digit ==> NumberOf(token).Ok? || NumberOf(token) == Err(NumberFormat(token)))
  {
    var low := Lower(token);
    if token != "" { LowerChars(token[0]); }
    if |token| >= 2 { assert low[1] == LowerChar(token[1]); }
    hide Lower, Value, All;
  }

  lemma NumberIsPrinted(token: string, n: nat)
    requires NumberOf(token) == Ok(n)
    ensures 1 <= n < LONG_LIMIT && token != "" && IsX(token[0]) && token[1..] == Decimal(n)
  {
    var low := Lower(token);
    LowerChars(token[0]);
    var digits := low[1..];
    assert digits == [low[1]] + low[2..];
    assert token[1..] == digits by {
      forall i | 1 <= i < |token| ensures token[i] == low[i] {
        LowerChars(token[i]);
        assert IsDigit(digits[i - 1]);
      }
    }
    DecimalOfValue(digits);
  }

  lemma PrintedIsNumber(token: string, n: nat)
    requires 1 <= n < LONG_LIMIT && token != "" && IsX(token[0]) && token[1..] == Decimal(n)
    ensures NumberOf(token) == Ok(n)
  {
    var low := Lower(token);
    LowerChars(token[0]);
    forall i | 1 <= i < |token| ensures low[i] == token[i] && IsDigit(low[i]) {
      LowerChars(token[i]);
      assert token[i] == Decimal(n)[i - 1];
    }
    var digits := Decimal(n);
    assert low[1..] == digits;
    ValueOfDecimal(n);
    hide Decimal, LowerChar, Lower;
    assert low[1] == digits[0];
    assert low[2..] == digits[1..];
    forall i | 0 <= i < |low[2..]| ensures IsDigit(low[2..][i]) { assert digits[1..][i] == digits[i + 1]; }
  }

  // ----------------------------------------------------------- types and sizes

  function TypeName(kind: PizzaType): string {
    match kind
    case Regina => "regina"
    case Margarita => "margarita"
    case Americana => "americana"
    case Fantasia => "fantasia"
  }

  function SizeName(size: PizzaSize): string {
    match size
    case S => "s"
    case M => "m"
    case L => "l"
    case XL => "xl"
    case XXL => "xxl"
  }

  function ParseType(token: string): Result<PizzaType> {
    var low := Lower(token);
    if low == "regina" then Ok(Regina)
    else if low == "margarita" then Ok(Margarita)
    else if low == "americana" then Ok(Americana)
    else if low == "fantasia" then Ok(Fantasia)
    else Err(UnknownType(token))
  }

  function ParseSize(token: string): Result<PizzaSize> {
    var low := Lower(token);
    if low == "s" then Ok(S)
    else if low == "m" then Ok(M)
    else if low == "l" then Ok(L)
    else if low == "xl" then Ok(XL)
    else if low == "xxl" then Ok(XXL)
    else Err(UnknownSize(token))
  }

  lemma TypeIsName(token: string, kind: PizzaType)
    ensures ParseType(token) == Ok(kind) <==> Lower(token) == TypeName(kind)
  {
    match kind case Regina => case Margarita => case Americana => case Fantasia =>
  }

  lemma SizeIsName(token: string, size: PizzaSize)
    ensures ParseSize(token) == Ok(size) <==> Lower(token) == SizeName(size)
  {
    match size case S => case M => case L => case XL => case XXL =>
  }

  // --------------------------------------------------- the regular expression

  /** The alternatives of the size group, in their order, at the start of a string. */
  function SizeLength(s: string): (n: nat)
    ensures n <= |s|
  {
    if |s| >= 3 && Lower(s[..3]) == "xxl" then 3
    else if |s| >= 2 && Lower(s[..2]) == "xl" then 2
    else if |s| >= 1 && (Lower(s[..1]) == "s" || Lower(s[..1]) == "m" || Lower(s[..1]) == "l") then 1
    else 0
  }

  /** The length of x[1-9][0-9]* at the start of a string. */
  function NumberLength(s: string): (n: nat)
    ensures n <= |s|
  {
    if |s| >= 2 && IsX(s[0]) && '1' <= s[1] <= '9' then 2 + Leading(IsDigit, s[2..]) else 0
  }

  function Skip(s: string): string {
    s[Leading(IsSpace, s)..]
  }

  /** Everything after the type: spaces, a size, spaces, a number, spaces, and the end. */
  function MatchRest(s: string): Option<(string, string)> {
    var a := Skip(s);
    var size := a[..SizeLength(a)];
    var b := Skip(a[SizeLength(a)..]);
    var number := b[..NumberLength(b)];
    if size != "" && number != "" && Skip(b[NumberLength(b)..]) == "" then Some((size, number)) else None
  }

  /** The type grows from one letter until the rest matches. */
  function MatchFrom(s: string, k: nat): Option<(string, string, string)>
    requires k >= 1
    decreases |s| - k
  {
    if k > |s| || !IsLetter(s[k - 1]) then None
    else
      match MatchRest(s[k..])
      case Some(rest) => Some((s[..k], rest.0, rest.1))
      case None => MatchFrom(s, k + 1)
  }

  function Match(line: string): Option<(string, string, string)> {
    MatchFrom(Skip(line), 1)
  }

  function ParseLine(line: string): Result<PizzaOrder> {
    match Match(line)
    case None => Err(InvalidToken)
    case Some((kindToken, sizeToken, numberToken)) =>
      match ParseType(kindToken)
      case Err(e) => Err(e)
      case Ok(kind) =>
        match ParseSize(sizeToken)
        case Err(e) => Err(e)
        case Ok(size) =>
          match NumberOf(numberToken)
          case Err(e) => Err(e)
          case Ok(quantity) => Ok(PizzaOrder(kind, size, quantity))
  }

  // ------------------------------------------------------------- what it means

  /** The same letter, in the same or the other case. */
  predicate SameLetter(a: char, b: char) {
    a == b || ('a' <= a <= 'z' && a as int - b as int == 32) || ('a' <= b <= 'z' && b as int - a as int == 32)
  }

  /** The name, with each letter in either case. */
  predicate Spelled(token: string, name: string) {
    |token| == |name| && forall i :: 0 <= i < |name| ==> SameLetter(token[i], name[i])
  }

  /** Nothing but spaces, tabs, and the four ways to end a line or a page. */
  predicate Spacing(s: string) {
    forall i :: 0 <= i < |s| ==> s[i] as int in {32, 9, 10, 11, 12, 13}
  }

  predicate IsSizeToken(s: string) {
    exists size :: Spelled(s, SizeName(size))
  }

  lemma SpacingIs(s: string)
    ensures Spacing(s) <==> All(IsSpace, s)
  {
    forall i | 0 <= i < |s| ensures IsSpace(s[i]) <==> s[i] as int in {32, 9, 10, 11, 12, 13} {
      SpaceCodes(s[i]);
    }
  }

  lemma SpaceCodes(c: char)
    ensures IsSpace(c) <==> c as int in {32, 9, 10, 11, 12, 13}
    ensures IsBlank(c) <==> c as int in {32, 9, 10, 13}
  {
  }

  /** tolower finds every spelling of a name in small letters, and no other string. */
  lemma SpelledIsLower(token: string, name: string)
    requires forall i :: 0 <= i < |name| ==> 'a' <= name[i] <= 'z'
    ensures Spelled(token, name) <==> Lower(token) == name
  {
    if |token| == |name| {
      forall i | 0 <= i < |name| ensures SameLetter(token[i], name[i]) <==> Lower(token)[i] == name[i] {}
    }
  }

  lemma TypeSpelled(token: string, kind: PizzaType)
    ensures Spelled(token, TypeName(kind)) <==> Lower(token) == TypeName(kind)
  {
    SmallLetters(kind);
    hide TypeName, Spelled, Lower;
    SpelledIsLower(token, TypeName(kind));
  }

  lemma SmallLetters(kind: PizzaType)
    ensures forall i :: 0 <= i < |TypeName(kind)| ==> 'a' <= TypeName(kind)[i] <= 'z'
  {
    match kind case Regina => case Margarita => case Americana => case Fantasia =>
  }

  lemma SizeSpelled(token: string, size: PizzaSize)
    ensures Spelled(token, SizeName(size)) <==> Lower(token) == SizeName(size)
  {
    hide Spelled, Lower;
    SpelledIsLower(token, SizeName(size));
  }

  lemma SizeTokenIs(token: string)
    ensures IsSizeToken(token) <==> exists size :: Lower(token) == SizeName(size)
  {
    hide Spelled, Lower, SizeName;
    forall size ensures Spelled(token, SizeName(size)) <==> Lower(token) == SizeName(size) {
      SizeSpelled(token, size);
    }
  }

  predicate IsNumberToken(s: string) {
    |s| >= 2 && IsX(s[0]) && '1' <= s[1] <= '9' && All(IsDigit, s[2..])
  }

  /** A string is spaces, a size, spaces, a number, and spaces. */
  ghost predicate RestOf(s: string, gap: string, size: string, gap': string, number: string, tail: string) {
    && s == gap + size + gap' + number + tail
    && Spacing(gap) && Spacing(gap') && Spacing(tail)
    && IsSizeToken(size) && IsNumberToken(number)
  }

  lemma NoSpace(c: char)
    ensures IsX(c) || IsLetter(c) || IsDigit(c) ==> !IsSpace(c)
    ensures IsX(c) ==> !IsDigit(c)
  {
  }

  lemma SizeTokenStart(size: string, y: string)
    requires IsSizeToken(size)
    ensures size != "" && SizeLength(size + y) == |size| && IsLetter(size[0])
  {
    SizeTokenIs(size);
    hide *;
    var which :| Lower(size) == SizeName(which);
    SizeNameStart(size, which, y);
  }

  /** The alternatives, by the first letters. */
  lemma SizeLengthIs(s: string)
    ensures SizeLength(s) ==
      if |s| >= 3 && LowerChar(s[0]) == 'x' && LowerChar(s[1]) == 'x' && LowerChar(s[2]) == 'l' then 3
      else if |s| >= 2 && LowerChar(s[0]) == 'x' && LowerChar(s[1]) == 'l' then 2
      else if |s| >= 1 && LowerChar(s[0]) in {'s', 'm', 'l'} then 1
      else 0
  {
    hide LowerChar, Lower;
    if |s| >= 3 { ThreeLetters(s); }
    if |s| >= 2 { TwoLetters(s); }
    if |s| >= 1 { OneLetter(s, "s"); OneLetter(s, "m"); OneLetter(s, "l"); }
  }

  lemma OneLetter(s: string, name: string)
    requires |s| >= 1 && |name| == 1
    ensures Lower(s[..1]) == name <==> LowerChar(s[0]) == name[0]
  {
    hide *;
    LettersOf(s[..1], name);
  }

  lemma TwoLetters(s: string)
    requires |s| >= 2
    ensures Lower(s[..2]) == "xl" <==> LowerChar(s[0]) == 'x' && LowerChar(s[1]) == 'l'
  {
    hide *;
    LettersOf(s[..2], "xl");
  }

  lemma ThreeLetters(s: string)
    requires |s| >= 3
    ensures Lower(s[..3]) == "xxl" <==> LowerChar(s[0]) == 'x' && LowerChar(s[1]) == 'x' && LowerChar(s[2]) == 'l'
  {
    hide *;
    LettersOf(s[..3], "xxl");
  }

  lemma LettersOf(s: string, name: string)
    requires |s| == |name|
    ensures Lower(s) == name <==> forall i :: 0 <= i < |name| ==> LowerChar(s[i]) == name[i]
  {
    hide LowerChar;
    forall i | 0 <= i < |s| ensures Lower(s)[i] == LowerChar(s[i]) {}
  }

  lemma SizeNameStart(size: string, which: PizzaSize, y: string)
    requires Lower(size) == SizeName(which)
    ensures size != "" && SizeLength(size + y) == |size| && IsLetter(size[0])
  {
    hide *;
    SizeLetters(which);
    assert |size| == |SizeName(which)|;
    LettersOf(size, SizeName(which));
    forall i | 0 <= i < |size| ensures LowerChar((size + y)[i]) == SizeName(which)[i] {}
    SizeLengthIs(size + y);
    LowerChars(size[0]);
  }

  /** What tells the alternatives apart. */
  lemma SizeLetters(size: PizzaSize)
    ensures var name := SizeName(size);
      && |name| in {1, 2, 3} && IsLetter(name[0])
      && (|name| == 1 <==> name[0] in {'s', 'm', 'l'}) && (|name| > 1 ==> name[0] == 'x')
      && (|name| == 2 ==> name[1] == 'l') && (|name| == 3 ==> name[1] == 'x' && name[2] == 'l')
  {
  }

  lemma NumberTokenStart(number: string, tail: string)
    requires IsNumberToken(number) && All(IsSpace, tail)
    ensures NumberLength(number + tail) == |number| >= 2 && IsX(number[0]) && IsDigit(number[1])
  {
    if tail != "" { NoSpace(tail[0]); }
    assert (number + tail)[2..] == number[2..] + tail;
    LeadingIs(IsDigit, number[2..], tail);
  }

  lemma SkipSpaces(gap: string, s: string)
    requires All(IsSpace, gap) && (s == "" || !IsSpace(s[0]))
    ensures Skip(gap + s) == s
  {
    LeadingIs(IsSpace, gap, s);
  }

  /** The match finds the one way there is to read a rest. */
  lemma RestFound(s: string, gap: string, size: string, gap': string, number: string, tail: string)
    requires RestOf(s, gap, size, gap', number, tail)
    ensures MatchRest(s) == Some((size, number))
  {
    SpacingIs(gap);
    SpacingIs(gap');
    SpacingIs(tail);
    hide IsNumberToken, IsSizeToken, SizeLength, NumberLength, Spacing;
    var y := gap' + number + tail;
    NumberTokenStart(number, tail);
    NoSpace(number[0]);
    if gap' != "" { assert IsSpace(gap'[0]); }
    assert y[0] == if gap' != "" then gap'[0] else number[0];
    SizeTokenStart(size, y);
    NoSpace(size[0]);
    assert s == gap + (size + y);
    SkipSpaces(gap, size + y);
    assert (size + y)[..|size|] == size && (size + y)[|size|..] == y;
    assert y == gap' + (number + tail);
    SkipSpaces(gap', number + tail);
    assert (number + tail)[..|number|] == number && (number + tail)[|number|..] == tail;
    assert tail + "" == tail;
    SkipSpaces(tail, "");
  }

  lemma SizeLengthIsToken(s: string)
    requires SizeLength(s) > 0
    ensures IsSizeToken(s[..SizeLength(s)])
  {
    var low := Lower(s[..SizeLength(s)]);
    SizeTokenIs(s[..SizeLength(s)]);
    assert low == SizeName(XXL) || low == SizeName(XL) || low == SizeName(S) || low == SizeName(M) || low == SizeName(L);
  }

  lemma NumberLengthIsToken(s: string)
    requires NumberLength(s) > 0
    ensures IsNumberToken(s[..NumberLength(s)])
  {
    var n := Leading(IsDigit, s[2..]);
    assert s[..2 + n][2..] == s[2..][..n];
  }

  /** The spaces that skipping takes away. */
  lemma Skipped(s: string) returns (gap: string)
    ensures s == gap + Skip(s) && All(IsSpace, gap) && Spacing(gap) && (Skip(s) == "" ==> gap == s)
  {
    gap := s[..Leading(IsSpace, s)];
    SpacingIs(gap);
  }

  /** What the match finds is there. */
  lemma RestIsThere(s: string) returns (gap: string, gap': string, tail: string)
    requires MatchRest(s).Some?
    ensures RestOf(s, gap, MatchRest(s).value.0, gap', MatchRest(s).value.1, tail)
  {
    hide SizeLength, NumberLength, Skip, IsSizeToken, IsNumberToken, Spacing;
    var a := Skip(s);
    var z := a[SizeLength(a)..];
    var b := Skip(z);
    tail := b[NumberLength(b)..];
    SizeLengthIsToken(a);
    NumberLengthIsToken(b);
    gap := Skipped(s);
    gap' := Skipped(z);
    var all := Skipped(tail);
    var size, number := a[..SizeLength(a)], b[..NumberLength(b)];
    calc {
      s;
      gap + a;
      { assert a == size + z; }
      gap + (size + (gap' + b));
      { assert b == number + tail; }
      gap + (size + (gap' + (number + tail)));
      { Flatten(gap, size, gap', number, tail); }
      gap + size + gap' + number + tail;
    }
  }

  lemma Flatten(a: string, b: string, c: string, d: string, e: string)
    ensures a + (b + (c + (d + e))) == a + b + c + d + e
  {
  }

  /** The search stops at the first type length whose rest matches, if its letters reach that far. */
  lemma {:induction false} SearchIsLazy(s: string, k: nat, n: nat)
    requires 1 <= k <= n <= |s| && All(IsLetter, s[..n])
    requires forall j :: k <= j < n ==> MatchRest(s[j..]).None?
    requires MatchRest(s[n..]).Some?
    ensures MatchFrom(s, k) == Some((s[..n], MatchRest(s[n..]).value.0, MatchRest(s[n..]).value.1))
    decreases n - k
  {
    hide MatchRest;
    assert s[..n][k - 1] == s[k - 1];
    if k < n { SearchIsLazy(s, k + 1, n); }
  }

  lemma {:induction false} SearchFinds(s: string, k: nat) returns (n: nat)
    requires k >= 1 && MatchFrom(s, k).Some? && k - 1 <= |s| && All(IsLetter, s[..k - 1])
    ensures k <= n <= |s| && All(IsLetter, s[..n]) && MatchRest(s[n..]).Some?
    ensures MatchFrom(s, k) == Some((s[..n], MatchRest(s[n..]).value.0, MatchRest(s[n..]).value.1))
    decreases |s| - k
  {
    hide MatchRest;
    assert s[..k] == s[..k - 1] + [s[k - 1]];
    if MatchRest(s[k..]).Some? { n := k; } else { n := SearchFinds(s, k + 1); }
  }

  lemma SkipNothing(s: string)
    requires s == "" || !IsSpace(s[0])
    ensures Skip(s) == s
  {
  }

  lemma NoNumberAt(s: string)
    requires s != "" && IsLetter(s[0]) && !IsX(s[0])
    ensures Skip(s) == s && NumberLength(s) == 0
  {
    NoSpace(s[0]);
    SkipNothing(s);
  }

  /** Inside the name of a pizza a size can begin only with an s or m, and a letter other than x follows. */
  lemma NoRestInsideName(token: string, kind: PizzaType, rest: string, k: nat)
    requires Lower(token) == TypeName(kind) && 1 <= k < |token|
    ensures MatchRest(token[k..] + rest).None?
  {
    hide Skip, SizeLength, NumberLength, Lower, TypeName;
    var t := token[k..] + rest;
    LettersInside(token, kind, k);
    NoNumberAt(t);
    if SizeLength(t) > 0 {
      SizeAtLetter(t);
      LettersInside(token, kind, k + 1);
      assert t[1..][0] == token[k + 1];
      NoNumberAt(t[1..]);
    }
  }

  lemma LettersInside(token: string, kind: PizzaType, k: nat)
    requires Lower(token) == TypeName(kind) && k < |token|
    ensures IsLetter(token[k]) && !IsX(token[k]) && LowerChar(token[k]) != 'l'
    ensures LowerChar(token[k]) == 's' || LowerChar(token[k]) == 'm' ==> k + 1 < |token|
  {
    NameLetters(kind);
    LowerChars(token[k]);
    assert LowerChar(token[k]) == TypeName(kind)[k];
  }

  /** A size that does not begin with x or l is a single s or m. */
  lemma SizeAtLetter(t: string)
    requires SizeLength(t) > 0 && !IsX(t[0]) && LowerChar(t[0]) != 'l'
    ensures SizeLength(t) == 1 && (LowerChar(t[0]) == 's' || LowerChar(t[0]) == 'm')
  {
    LowerChars(t[0]);
    assert Lower(t[..SizeLength(t)])[0] == LowerChar(t[0]);
  }

  lemma NameLetters(kind: PizzaType)
    ensures forall i :: 0 <= i < |TypeName(kind)| ==>
      IsLetter(TypeName(kind)[i]) && TypeName(kind)[i] != 'x' && TypeName(kind)[i] != 'l'
    ensures |TypeName(kind)| > 1 && TypeName(kind)[|TypeName(kind)| - 1] == 'a'
  {
    match kind case Regina => case Margarita => case Americana => case Fantasia =>
  }

  // ------------------------------------------------------------ the round trip

  /** A piece of text that prints an order: any letter case, any spaces between its parts. */
  ghost predicate Prints(line: string, order: PizzaOrder) {
    exists lead, kind, rest ::
      && line == lead + kind + rest && Spacing(lead) && Spelled(kind, TypeName(order.kind))
      && PrintsRest(rest, order)
  }

  ghost predicate PrintsRest(rest: string, order: PizzaOrder) {
    exists gap, size, gap', number, tail ::
      && RestOf(rest, gap, size, gap', number, tail)
      && Spelled(size, SizeName(order.size))
      && 1 <= order.quantity < 0x1_0000_0000_0000_0000 && number[1..] == Decimal(order.quantity)
  }

  /** A type name is found whole, although the search begins with its first letter. */
  lemma NameFoundWhole(lead: string, token: string, kind: PizzaType, rest: string)
    requires Spacing(lead) && Spelled(token, TypeName(kind)) && MatchRest(rest).Some?
    ensures Match(lead + token + rest) == Some((token, MatchRest(rest).value.0, MatchRest(rest).value.1))
  {
    TypeSpelled(token, kind);
    SpacingIs(lead);
    hide MatchRest, Skip, MatchFrom, TypeName, Spelled, Spacing;
    var s := token + rest;
    forall i | 0 <= i < |token| ensures IsLetter(token[i]) { LettersInside(token, kind, i); }
    NameLetters(kind);
    NoSpace(token[0]);
    assert lead + token + rest == lead + s;
    SkipSpaces(lead, s);
    assert s[..|token|] == token && s[|token|..] == rest;
    forall j | 1 <= j < |token| ensures MatchRest(s[j..]).None? {
      assert s[j..] == token[j..] + rest;
      NoRestInsideName(token, kind, rest, j);
    }
    SearchIsLazy(s, 1, |token|);
  }

  /** Every printed order is read back. */
  lemma PrintedIsParsed(line: string, order: PizzaOrder)
    requires Prints(line, order)
    ensures ParseLine(line) == Ok(order)
  {
    hide MatchRest, Decimal, Lower, TypeName, SizeName, Match, ParseType, ParseSize, NumberOf, Spelled, Spacing;
    var lead, kind, rest :|
      && line == lead + kind + rest && Spacing(lead) && Spelled(kind, TypeName(order.kind))
      && PrintsRest(rest, order);
    var gap, size, gap', number, tail :|
      && RestOf(rest, gap, size, gap', number, tail) && Spelled(size, SizeName(order.size))
      && 1 <= order.quantity < 0x1_0000_0000_0000_0000 && number[1..] == Decimal(order.quantity);
    RestFound(rest, gap, size, gap', number, tail);
    NameFoundWhole(lead, kind, order.kind, rest);
    TypeIsName(kind, order.kind);
    TypeSpelled(kind, order.kind);
    SizeIsName(size, order.size);
    SizeSpelled(size, order.size);
    RestStartsNumber(rest, gap, size, gap', number, tail);
    NumberIsDecimal(number, order.quantity);
  }

  lemma RestStartsNumber(s: string, gap: string, size: string, gap': string, number: string, tail: string)
    requires RestOf(s, gap, size, gap', number, tail)
    ensures |number| >= 2 && IsX(number[0])
  {
  }

  /** Whatever is read was printed. */
  lemma ParsedIsPrinted(line: string, order: PizzaOrder)
    requires ParseLine(line) == Ok(order)
    ensures Prints(line, order)
  {
    hide MatchRest, RestOf, Skip, Decimal, Lower, TypeName, Spelled, Spacing;
    var lead := Skipped(line);
    var s := Skip(line);
    var n := SearchFinds(s, 1);
    var gap, gap', tail := RestIsThere(s[n..]);
    var size, number := MatchRest(s[n..]).value.0, MatchRest(s[n..]).value.1;
    TypeIsName(s[..n], order.kind);
    TypeSpelled(s[..n], order.kind);
    SizeIsName(size, order.size);
    SizeSpelled(size, order.size);
    NumberIsDecimal(number, order.quantity);
    assert s == s[..n] + s[n..];
    assert line == lead + s[..n] + s[n..];
    assert PrintsRest(s[n..], order);
  }

  // ---------------------------------------------------------------- the line

  predicate NotSemicolon(c: char) {
    c != ';'
  }

  /** The pieces of a line between its semicolons: one more than there are semicolons. */
  function Split(s: string): (pieces: seq<string>)
    ensures pieces != []
    decreases |s|
  {
    var n := Leading(NotSemicolon, s);
    if n == |s| then [s] else [s[..n]] + Split(s[n + 1..])
  }

  /** The pieces std::getline yields: the same, except for an empty one at the end. */
  function Pieces(s: string): seq<string>
    decreases |s|
  {
    if s == "" then []
    else
      var n := Leading(NotSemicolon, s);
      [s[..n]] + if n == |s| then [] else Pieces(s[n + 1..])
  }

  function Join(pieces: seq<string>): string {
    if pieces == [] then "" else if |pieces| == 1 then pieces[0] else pieces[0] + ";" + Join(pieces[1..])
  }

  ghost predicate Plain(pieces: seq<string>) {
    forall i :: 0 <= i < |pieces| ==> All(NotSemicolon, pieces[i])
  }

  /** A line up to a semicolon, and what is left after it. */
  lemma CutAtSemicolon(s: string, n: nat)
    requires n < |s| && s[n] == ';'
    ensures s == s[..n] + ";" + s[n + 1..]
  {
  }

  lemma SplitStep(s: string)
    ensures var n := Leading(NotSemicolon, s);
      if n < |s| then s[n] == ';' && Split(s) == [s[..n]] + Split(s[n + 1..]) else Split(s) == [s]
    ensures All(NotSemicolon, s[..Leading(NotSemicolon, s)])
  {
    hide Leading, All;
  }

  lemma PiecesStep(s: string)
    requires s != ""
    ensures var n := Leading(NotSemicolon, s);
      if n < |s| then s[n] == ';' && Pieces(s) == [s[..n]] + Pieces(s[n + 1..]) else Pieces(s) == [s]
  {
    hide Leading, All;
    var n := Leading(NotSemicolon, s);
    if n == |s| { assert s[..n] == s; }
  }

  lemma {:induction false} SplitJoins(s: string)
    ensures Join(Split(s)) == s && Plain(Split(s))
    decreases |s|
  {
    hide Split, Pieces, Leading;
    SplitStep(s);
    var n := Leading(NotSemicolon, s);
    if n < |s| {
      CutAtSemicolon(s, n);
      SplitJoins(s[n + 1..]);
      assert Split(s)[1..] == Split(s[n + 1..]);
    } else {
      assert s[..n] == s;
    }
  }

  lemma {:induction false} JoinSplits(pieces: seq<string>)
    requires pieces != [] && Plain(pieces)
    ensures Split(Join(pieces)) == pieces
  {
    if |pieces| == 1 {
      LeadingIs(NotSemicolon, pieces[0], "");
      assert pieces[0] + "" == pieces[0];
    } else {
      var rest := Join(pieces[1..]);
      JoinSplits(pieces[1..]);
      assert Join(pieces) == pieces[0] + (";" + rest);
      LeadingIs(NotSemicolon, pieces[0], ";" + rest);
      assert Join(pieces)[|pieces[0]| + 1..] == rest;
    }
  }

  /** The line's last character other than blanks is a semicolon. */
  ghost predicate EndsInSemicolon(line: string) {
    exists i :: 0 <= i < |line| && line[i] == ';' && All(IsBlank, line[i + 1..])
  }

  function ParsePiece(piece: string): Result<PizzaOrder> {
    if All(IsBlank, piece) then Err(EmptySegment) else ParseLine(piece)
  }

  /** The orders of all the pieces, or the first error among them. */
  function Collect(pieces: seq<string>): Result<seq<PizzaOrder>> {
    if pieces == [] then Ok([])
    else
      match Collect(pieces[..|pieces| - 1])
      case Err(e) => Err(e)
      case Ok(orders) =>
        match ParsePiece(pieces[|pieces| - 1])
        case Err(e) => Err(e)
        case Ok(order) => Ok(orders + [order])
  }

  ghost function Outcome(line: string): Result<seq<PizzaOrder>> {
    if EndsInSemicolon(line) then Err(EmptySegment)
    else
      match Collect(Pieces(line))
      case Err(e) => Err(e)
      case Ok(orders) => if orders == [] then Err(EmptyOrder) else Ok(orders)
  }

  /** find_last_not_of(" \t\r\n"), and the test of what is found. */
  method LastIsSemicolon(line: string) returns (answer: bool)
    ensures answer <==> EndsInSemicolon(line)
  {
    var end := |line|;
    while end > 0 && IsBlank(line[end - 1])
      invariant 0 <= end <= |line|
      invariant forall j :: end <= j < |line| ==> IsBlank(line[j])
    {
      end := end - 1;
    }
    if end > 0 && line[end - 1] == ';' {
      return true;
    }
    forall i | 0 <= i < |line| && line[i] == ';' ensures !All(IsBlank, line[i + 1..]) {
      assert line[i + 1..][end - 1 - (i + 1)] == line[end - 1];
    }
    return false;
  }

  lemma {:induction false} CollectStops(pieces: seq<string>, more: seq<string>)
    requires Collect(pieces).Err?
    ensures Collect(pieces + more) == Collect(pieces)
  {
    if more == [] {
      assert pieces + more == pieces;
    } else {
      var n := |more| - 1;
      assert (pieces + more)[..|pieces + more| - 1] == pieces + more[..n];
      CollectStops(pieces, more[..n]);
    }
  }

  /** std::getline up to a semicolon, on what is left of the line. */
  method GetLine(rest: string) returns (segment: string, after: string)
    requires rest != ""
    ensures Pieces(rest) == [segment] + Pieces(after) && |after| < |rest|
  {
    hide Pieces, Leading;
    var stop := 0;
    while stop < |rest| && rest[stop] != ';'
      invariant 0 <= stop <= |rest| && All(NotSemicolon, rest[..stop])
    {
      stop := stop + 1;
    }
    StopsThere(rest, stop);
    PiecesStep(rest);
    NoPieces();
    segment := rest[..stop];
    assert rest[..|rest|] == rest;
    after := if stop < |rest| then rest[stop + 1..] else "";
  }

  lemma StopsThere(rest: string, stop: nat)
    requires stop <= |rest| && All(NotSemicolon, rest[..stop]) && (stop < |rest| ==> rest[stop] == ';')
    ensures Leading(NotSemicolon, rest) == stop
  {
    hide Leading;
    assert rest == rest[..stop] + rest[stop..];
    LeadingIs(NotSemicolon, rest[..stop], rest[stop..]);
  }

  lemma NoneCollected()
    ensures Collect([]) == Ok([])
  {
  }

  lemma CollectMore(pieces: seq<string>, piece: string)
    requires Collect(pieces).Ok?
    ensures Collect(pieces + [piece]) ==
            if ParsePiece(piece).Err? then Err(ParsePiece(piece).error)
            else Ok(Collect(pieces).value + [ParsePiece(piece).value])
  {
    hide ParsePiece;
    assert (pieces + [piece])[..|pieces|] == pieces;
  }

  method Parse(line: string) returns (result: Result<seq<PizzaOrder>>)
    ensures result == Outcome(line)
  {
    hide Collect, ParsePiece, EndsInSemicolon, Leading;
    var trailing := LastIsSemicolon(line);
    if trailing {
      return Err(EmptySegment);
    }
    var orders: seq<PizzaOrder> := [];
    var rest := line;
    ghost var done: seq<string> := [];
    assert Collect(done) == Ok(orders) by { NoneCollected(); }
    while rest != ""
      invariant Pieces(line) == done + Pieces(rest)
      invariant Collect(done) == Ok(orders)
      decreases |rest|
    {
      var segment, after := GetLine(rest);
      assert done + ([segment] + Pieces(after)) == done + [segment] + Pieces(after);
      CollectMore(done, segment);
      done := done + [segment];
      var parsed := ParsePiece(segment);
      if parsed.Err? {
        CollectStops(done, Pieces(after));
        return Err(parsed.error);
      }
      orders := orders + [parsed.value];
      rest := after;
    }
    assert Pieces(line) == done + [] == done;
    if orders == [] {
      return Err(EmptyOrder);
    }
    return Ok(orders);
  }

  // ------------------------------------------------------------- the main result

  lemma {:induction false} PiecesOfSplit(s: string)
    ensures s == "" ==> Split(s) == [""]
    ensures s != "" ==> Split(s) == if s[|s| - 1] == ';' then Pieces(s) + [""] else Pieces(s)
    decreases |s|
  {
    hide Split, Pieces, Leading;
    SplitStep(s);
    if s != "" {
      PiecesStep(s);
      var n := Leading(NotSemicolon, s);
      if n < |s| {
        var t := s[n + 1..];
        PiecesOfSplit(t);
        if t == "" {
          assert Pieces(t) == [] by { NoPieces(); }
        } else {
          assert s[|s| - 1] == t[|t| - 1];
          assert [s[..n]] + (Pieces(t) + [""]) == [s[..n]] + Pieces(t) + [""];
        }
      } else {
        assert NotSemicolon(s[..n][|s| - 1]);
      }
    }
  }

  lemma NoPieces()
    ensures Pieces("") == []
  {
  }

  lemma {:induction false} LastPiece(a: string, b: string)
    requires All(NotSemicolon, b)
    ensures Split(a + ";" + b)[|Split(a + ";" + b)| - 1] == b
    decreases |a|
  {
    hide Split, Leading;
    var s := a + ";" + b;
    var n := Leading(NotSemicolon, a);
    SplitStep(s);
    if n < |a| {
      assert s == a[..n] + (a[n..] + ";" + b);
      LeadingIs(NotSemicolon, a[..n], a[n..] + ";" + b);
      assert s[n + 1..] == a[n + 1..] + ";" + b;
      LastPiece(a[n + 1..], b);
    } else {
      assert a[..n] == a && s == a + (";" + b);
      LeadingIs(NotSemicolon, a, ";" + b);
      assert s[n + 1..] == b;
      WholePiece(b);
    }
  }

  lemma WholePiece(b: string)
    requires All(NotSemicolon, b)
    ensures Split(b) == [b]
  {
    LeadingIs(NotSemicolon, b, "");
    assert b + "" == b;
  }

  lemma BlankIsNoOrder(piece: string)
    requires All(IsBlank, piece)
    ensures ParseLine(piece).Err?
  {
    LeadingIs(IsSpace, piece, "");
    assert piece + "" == piece;
  }

  lemma {:induction false} CollectIsPointwise(pieces: seq<string>, orders: seq<PizzaOrder>)
    ensures Collect(pieces) == Ok(orders) <==>
            |pieces| == |orders| && forall i :: 0 <= i < |pieces| ==> ParseLine(pieces[i]) == Ok(orders[i])
  {
    hide ParseLine;
    if pieces == [] {
    } else if |orders| != |pieces| {
      CollectLength(pieces);
    } else {
      var n := |pieces| - 1;
      CollectIsPointwise(pieces[..n], orders[..n]);
      if All(IsBlank, pieces[n]) { BlankIsNoOrder(pieces[n]); }
      assert orders == orders[..n] + [orders[n]];
      if Collect(pieces) == Ok(orders) {
        assert Collect(pieces[..n]).Ok?;
        assert Collect(pieces[..n]).value + [ParsePiece(pieces[n]).value] == orders;
        assert Collect(pieces[..n]).value == orders[..n];
      }
      forall i | 0 <= i < n ensures pieces[..n][i] == pieces[i] && orders[..n][i] == orders[i] {}
    }
  }

  lemma {:induction false} CollectLength(pieces: seq<string>)
    ensures Collect(pieces).Ok? ==> |Collect(pieces).value| == |pieces|
  {
    hide ParseLine;
    if pieces != [] { CollectLength(pieces[..|pieces| - 1]); }
  }

  /** A semicolon at the end leaves a blank piece behind it; so does an empty line. */
  lemma BlankPieceAtEnd(line: string)
    requires EndsInSemicolon(line) || line == ""
    ensures exists i :: 0 <= i < |Split(line)| && ParseLine(Split(line)[i]).Err?
  {
    hide ParseLine, Split;
    if EndsInSemicolon(line) {
      var i :| 0 <= i < |line| && line[i] == ';' && All(IsBlank, line[i + 1..]);
      assert line == line[..i] + ";" + line[i + 1..];
      LastPiece(line[..i], line[i + 1..]);
      BlankIsNoOrder(line[i + 1..]);
      assert ParseLine(Split(line)[|Split(line)| - 1]).Err?;
    } else {
      PiecesOfSplit(line);
      BlankIsNoOrder("");
      assert ParseLine(Split(line)[0]).Err?;
    }
  }

  lemma NoSemicolonAtEnd(line: string)
    requires !EndsInSemicolon(line) && line != ""
    ensures Pieces(line) == Split(line)
  {
    PiecesOfSplit(line);
    assert All(IsBlank, line[|line|..]);
  }

  lemma OutcomeIsPointwise(line: string, orders: seq<PizzaOrder>)
    ensures Outcome(line) == Ok(orders) <==>
            |Split(line)| == |orders| && forall i :: 0 <= i < |orders| ==> ParseLine(Split(line)[i]) == Ok(orders[i])
  {
    hide ParseLine, Split, Collect, EndsInSemicolon;
    CollectIsPointwise(Split(line), orders);
    if EndsInSemicolon(line) || line == "" {
      BlankPieceAtEnd(line);
      if line == "" { NoneCollected(); }
    } else {
      NoSemicolonAtEnd(line);
      CollectLength(Split(line));
    }
  }

  /**
   The parser reads exactly what is printed: a line gives these orders if and only if it
   splits at its semicolons into as many pieces, each of which prints its order.
   */
  lemma ParserIsExact(line: string, orders: seq<PizzaOrder>)
    ensures Outcome(line) == Ok(orders) <==>
            |Split(line)| == |orders| && forall i :: 0 <= i < |orders| ==> Prints(Split(line)[i], orders[i])
  {
    hide ParseLine, Prints, Split, Outcome;
    OutcomeIsPointwise(line, orders);
    forall i | 0 <= i < |orders| && i < |Split(line)|
      ensures ParseLine(Split(line)[i]) == Ok(orders[i]) <==> Prints(Split(line)[i], orders[i])
    {
      if ParseLine(Split(line)[i]) == Ok(orders[i]) { ParsedIsPrinted(Split(line)[i], orders[i]); }
      if Prints(Split(line)[i], orders[i]) { PrintedIsParsed(Split(line)[i], orders[i]); }
    }
  }

  /** Any non-empty list of orders, printed in any of its ways and joined by semicolons, is read back. */
  lemma RoundTrip(pieces: seq<string>, orders: seq<PizzaOrder>)
    requires orders != [] && |pieces| == |orders|
    requires forall i :: 0 <= i < |orders| ==> Prints(pieces[i], orders[i])
    ensures Outcome(Join(pieces)) == Ok(orders)
  {
    hide Prints;
    forall i | 0 <= i < |pieces| ensures All(NotSemicolon, pieces[i]) {
      PrintedIsPlain(pieces[i], orders[i]);
    }
    JoinSplits(pieces);
    ParserIsExact(Join(pieces), orders);
  }

  lemma PrintedIsPlain(line: string, order: PizzaOrder)
    requires Prints(line, order)
    ensures All(NotSemicolon, line)
  {
    hide Decimal, Lower, TypeName, IsSizeToken, IsNumberToken, RestOf, PrintsRest, Spelled;
    var lead, kind, rest :|
      && line == lead + kind + rest && Spacing(lead) && Spelled(kind, TypeName(order.kind))
      && PrintsRest(rest, order);
    TypeSpelled(kind, order.kind);
    forall i | 0 <= i < |kind| ensures kind[i] != ';' { LettersInside(kind, order.kind, i); }
    RestIsPlain(rest, order);
  }

  lemma RestIsPlain(rest: string, order: PizzaOrder)
    requires PrintsRest(rest, order)
    ensures All(NotSemicolon, rest)
  {
    hide Decimal, Lower, IsSizeToken, IsNumberToken;
    var gap, size, gap', number, tail :| RestOf(rest, gap, size, gap', number, tail);
    SizeIsPlain(size);
    NumberIsPlain(number);
  }

  lemma NumberIsPlain(number: string)
    requires IsNumberToken(number)
    ensures All(NotSemicolon, number)
  {
    forall i | 2 <= i < |number| ensures number[i] != ';' { assert number[2..][i - 2] == number[i]; }
  }

  lemma SizeIsPlain(size: string)
    requires IsSizeToken(size)
    ensures All(NotSemicolon, size)
  {
    SizeTokenIs(size);
    forall i | 0 <= i < |size| ensures size[i] != ';' {
      LowerChars(size[i]);
      assert IsLetter(Lower(size)[i]);
    }
  }
}
