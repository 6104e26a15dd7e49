/** What the parser says of a line that it refuses: which complaint, and about which piece and token. */
module Complaints {
  import opened Menu
  import opened Orders
  import opened Parser

  /** Spaces, tabs and ends of lines; the parser itself looks for nothing else. */
  predicate Blank(s: string) {
    forall i :: 0 <= i < |s| ==> s[i] as int in {32, 9, 10, 13}
  }

  predicate Letters(s: string) {
    forall i :: 0 <= i < |s| ==> 'a' <= s[i] <= 'z' || 'A' <= s[i] <= 'Z'
  }

  lemma BlankIs(s: string)
    ensures Blank(s) <==> All(IsBlank, s)
  {
    forall i | 0 <= i < |s| ensures IsBlank(s[i]) <==> s[i] as int in {32, 9, 10, 13} { SpaceCodes(s[i]); }
  }

  lemma LettersAre(s: string)
    ensures Letters(s) <==> All(IsLetter, s)
  {
  }

  /** The line is letters followed by a size and a number, with spacing around them. */
  ghost predicate Shaped(line: string, lead: string, token: string, rest: string) {
    && line == lead + token + rest && Spacing(lead) && token != "" && Letters(token)
    && exists gap, size, gap', number, tail :: RestOf(rest, gap, size, gap', number, tail)
  }

  // ------------------------------------------------------------------ one piece

  lemma {:induction false} SearchIsComplete(s: string, k: nat, n: nat)
    requires 1 <= k <= n <= |s| && All(IsLetter, s[..n]) && MatchRest(s[n..]).Some?
    ensures MatchFrom(s, k).Some?
    decreases n - k
  {
    hide MatchRest;
    assert s[..n][k - 1] == s[k - 1];
    if k < n && MatchRest(s[k..]).None? { SearchIsComplete(s, k + 1, n); }
  }

  lemma ShapedMatches(line: string, lead: string, token: string, rest: string)
    requires Shaped(line, lead, token, rest)
    ensures Match(line).Some?
  {
    hide RestOf, MatchRest, Skip, Spacing, Letters, MatchFrom;
    var gap, size, gap', number, tail :| RestOf(rest, gap, size, gap', number, tail);
    RestFound(rest, gap, size, gap', number, tail);
    SpacingIs(lead);
    LettersAre(token);
    NoSpace(token[0]);
    var s := token + rest;
    assert line == lead + s;
    SkipSpaces(lead, s);
    assert s[..|token|] == token && s[|token|..] == rest;
    SearchIsComplete(s, 1, |token|);
  }

  /** What is matched is shaped. */
  lemma MatchIsShaped(line: string) returns (lead: string, rest: string, gap: string, gap': string, tail: string)
    requires Match(line).Some?
    ensures var (token, size, number) := Match(line).value;
      Shaped(line, lead, token, rest) && RestOf(rest, gap, size, gap', number, tail)
  {
    hide RestOf, MatchRest, Skip, Spacing, MatchFrom;
    lead := Skipped(line);
    var s := Skip(line);
    var n := SearchFinds(s, 1);
    rest := s[n..];
    gap, gap', tail := RestIsThere(rest);
    LettersAre(s[..n]);
    assert s == s[..n] + rest;
    assert line == lead + s[..n] + rest;
  }

  /** InvalidToken is said exactly of what has not the shape of an order. */
  lemma InvalidTokenExactly(line: string)
    ensures ParseLine(line) == Err(InvalidToken) <==> !exists lead, token, rest :: Shaped(line, lead, token, rest)
  {
    hide Shaped, Match, ParseLine;
    if exists lead, token, rest :: Shaped(line, lead, token, rest) {
      var lead, token, rest :| Shaped(line, lead, token, rest);
      ShapedMatches(line, lead, token, rest);
    }
    if Match(line).Some? {
      var lead, rest, gap, gap', tail := OtherComplaints(line);
      assert Shaped(line, lead, Match(line).value.0, rest);
    } else {
      Unmatched(line);
    }
  }

  lemma Unmatched(line: string)
    requires Match(line).None?
    ensures ParseLine(line) == Err(InvalidToken)
  {
    hide Match;
  }

  /** The number of a shaped line fails only by its size. */
  lemma NumberFails(number: string)
    requires IsNumberToken(number)
    ensures NumberOf(number).Err? ==>
      NumberOf(number) == Err(NumberFormat(number)) && exists n :: n >= 0x1_0000_0000_0000_0000 && number[1..] == Decimal(n)
  {
    var low := Lower(number);
    forall i | 0 <= i < |number| ensures low[i] == LowerChar(number[i]) {}
    LowerChars(number[0]);
    LowerChars(number[1]);
    forall i | 2 <= i < |number| ensures IsDigit(number[i]) && low[i] == number[i] {
      assert IsDigit(number[2..][i - 2]);
      LowerChars(number[i]);
    }
    var digits := number[1..];
    assert low[1..] == digits;
    forall i | 0 <= i < |digits| ensures IsDigit(digits[i]) { assert digits[i] == number[i + 1]; }
    assert low[2..] == number[2..];
    DecimalOfValue(digits);
    hide Lower, LowerChar, Value, Decimal, IsNumberToken;
    if Value(digits) >= 0x1_0000_0000_0000_0000 { assert number[1..] == Decimal(Value(digits)); }
  }

  lemma SizeParses(size: string)
    requires IsSizeToken(size)
    ensures ParseSize(size).Ok?
  {
    hide Spelled, ParseSize, Lower, SizeName;
    var which :| Spelled(size, SizeName(which));
    SizeSpelled(size, which);
    SizeIsName(size, which);
  }

  lemma TypeFails(token: string)
    ensures ParseType(token).Err? ==> ParseType(token) == Err(UnknownType(token))
    ensures ParseType(token).Err? <==> forall kind :: !Spelled(token, TypeName(kind))
  {
    hide Spelled, Lower, TypeName;
    forall kind ensures ParseType(token) == Ok(kind) <==> Spelled(token, TypeName(kind)) {
      TypeSpelled(token, kind);
      TypeIsName(token, kind);
    }
    if ParseType(token).Ok? { assert Spelled(token, TypeName(ParseType(token).value)); }
  }

  /** The complaint about these tokens, if there is one. */
  ghost predicate Blames(e: Error, token: string, number: string) {
    if forall kind :: !Spelled(token, TypeName(kind)) then e == UnknownType(token)
    else
      && e == NumberFormat(number) && number != ""
      && exists n :: n >= 0x1_0000_0000_0000_0000 && number[1..] == Decimal(n)
  }

  /**
   Of a shaped line only two complaints are ever made: about its type, if that spells no pizza's name, and
   otherwise about its number, if that does not fit in 64 bits.
   */
  lemma OtherComplaints(line: string) returns (lead: string, rest: string, gap: string, gap': string, tail: string)
    requires Match(line).Some?
    ensures var (token, size, number) := Match(line).value;
      && Shaped(line, lead, token, rest) && RestOf(rest, gap, size, gap', number, tail)
      && (ParseLine(line).Err? ==> Blames(ParseLine(line).error, token, number))
      && ParseLine(line) != Err(InvalidToken)
  {
    hide *;
    lead, rest, gap, gap', tail := MatchIsShaped(line);
    var (token, size, number) := Match(line).value;
    TokensOfRest(rest, gap, size, gap', number, tail);
    TokensFail(line, token, size, number);
  }

  lemma TokensFail(line: string, token: string, size: string, number: string)
    requires Match(line) == Some((token, size, number)) && IsSizeToken(size) && IsNumberToken(number)
    ensures ParseLine(line) != Err(InvalidToken)
    ensures ParseLine(line).Err? ==> Blames(ParseLine(line).error, token, number)
  {
    TypeFails(token);
    SizeParses(size);
    NumberFails(number);
    hide Match, ParseType, ParseSize, NumberOf, Spelled, TypeName, Decimal, IsSizeToken;
  }

  lemma TokensOfRest(rest: string, gap: string, size: string, gap': string, number: string, tail: string)
    requires RestOf(rest, gap, size, gap', number, tail)
    ensures IsSizeToken(size) && IsNumberToken(number)
  {
  }

  // ---------------------------------------------------------------- the whole line

  /** The complaint about one piece. */
  ghost predicate Fails(piece: string, e: Error) {
    if Blank(piece) then e == EmptySegment else ParseLine(piece) == Err(e)
  }

  lemma PieceFails(piece: string, e: Error)
    ensures ParsePiece(piece) == Err(e) <==> Fails(piece, e)
  {
    BlankIs(piece);
    hide ParseLine, Blank;
  }

  /** The piece prints some order. */
  ghost predicate Readable(piece: string) {
    exists order :: Prints(piece, order)
  }

  lemma PieceReads(piece: string)
    ensures ParsePiece(piece).Ok? <==> Readable(piece)
  {
    hide ParseLine, Prints;
    if All(IsBlank, piece) { BlankIsNoOrder(piece); }
    if ParseLine(piece).Ok? { ParsedIsPrinted(piece, ParseLine(piece).value); }
    if exists order :: Prints(piece, order) {
      var order :| Prints(piece, order);
      PrintedIsParsed(piece, order);
    }
  }

  lemma {:induction false} CollectFails(pieces: seq<string>, e: Error)
    ensures Collect(pieces) == Err(e) <==>
            exists i :: 0 <= i < |pieces| && ParsePiece(pieces[i]) == Err(e) && AllRead(pieces[..i])
    ensures Collect(pieces).Ok? <==> AllRead(pieces)
  {
    hide ParsePiece;
    if pieces != [] {
      var n := |pieces| - 1;
      var front := pieces[..n];
      CollectFails(front, e);
      forall i | 0 <= i <= n ensures front[..i] == pieces[..i] {}
      if exists i :: 0 <= i < |pieces| && ParsePiece(pieces[i]) == Err(e) && AllRead(pieces[..i]) {
        var i :| 0 <= i < |pieces| && ParsePiece(pieces[i]) == Err(e) && AllRead(pieces[..i]);
        if i < n { assert front[i] == pieces[i]; } else { assert pieces[..i] == front; }
      }
      if Collect(pieces) == Err(e) {
        if Collect(front) == Err(e) {
          var i :| 0 <= i < |front| && ParsePiece(front[i]) == Err(e) && AllRead(front[..i]);
          assert pieces[i] == front[i] && pieces[..i] == front[..i];
        } else {
          assert AllRead(pieces[..n]);
        }
      }
      AllReadMore(pieces);
    }
  }

  ghost predicate AllRead(pieces: seq<string>) {
    forall j :: 0 <= j < |pieces| ==> ParsePiece(pieces[j]).Ok?
  }

  lemma AllReadMore(pieces: seq<string>)
    requires pieces != []
    ensures AllRead(pieces) <==> AllRead(pieces[..|pieces| - 1]) && ParsePiece(pieces[|pieces| - 1]).Ok?
  {
    hide ParsePiece;
    forall j | 0 <= j < |pieces| - 1 ensures pieces[..|pieces| - 1][j] == pieces[j] {}
  }

  /** The last character other than blanks is a semicolon. */
  ghost predicate Trailing(line: string) {
    exists i :: 0 <= i < |line| && line[i] == ';' && Blank(line[i + 1..])
  }

  lemma TrailingIs(line: string)
    ensures Trailing(line) <==> EndsInSemicolon(line)
  {
    if Trailing(line) {
      var i :| 0 <= i < |line| && line[i] == ';' && Blank(line[i + 1..]);
      BlankIs(line[i + 1..]);
    }
    if EndsInSemicolon(line) {
      var i :| 0 <= i < |line| && line[i] == ';' && All(IsBlank, line[i + 1..]);
      BlankIs(line[i + 1..]);
    }
  }

  /**
   Every complaint about a line. A semicolon at its end is an empty segment, whatever is before it; nothing at all
   is an empty order; and otherwise the first piece that prints no order is complained about.
   */
  lemma FirstComplaint(line: string, e: Error)
    ensures Outcome(line) == Err(e) <==>
      if Trailing(line) then e == EmptySegment
      else if line == "" then e == EmptyOrder
      else exists i :: 0 <= i < |Split(line)| && Fails(Split(line)[i], e)
                       && forall j :: 0 <= j < i ==> Readable(Split(line)[j])
  {
    hide Fails, Readable, Split, Collect, EndsInSemicolon, Trailing, ParsePiece;
    TrailingIs(line);
    if !Trailing(line) {
      if line == "" {
        NoPieces();
        NoneCollected();
      } else {
        NoSemicolonAtEnd(line);
        CollectLength(Split(line));
        PiecesComplain(Split(line), e);
      }
    }
  }

  lemma PiecesComplain(pieces: seq<string>, e: Error)
    ensures Collect(pieces) == Err(e) <==>
            exists i :: 0 <= i < |pieces| && Fails(pieces[i], e) && forall j :: 0 <= j < i ==> Readable(pieces[j])
  {
    hide Fails, Readable, Collect, ParsePiece, AllRead;
    CollectFails(pieces, e);
    if Collect(pieces) == Err(e) {
      var i :| 0 <= i < |pieces| && ParsePiece(pieces[i]) == Err(e) && AllRead(pieces[..i]);
      PieceFails(pieces[i], e);
      EarlierRead(pieces, i);
    }
    if i :| 0 <= i < |pieces| && Fails(pieces[i], e) && forall j :: 0 <= j < i ==> Readable(pieces[j]) {
      PieceFails(pieces[i], e);
      EarlierRead(pieces, i);
    }
  }

  lemma EarlierRead(pieces: seq<string>, i: nat)
    requires i <= |pieces|
    ensures AllRead(pieces[..i]) <==> forall j :: 0 <= j < i ==> Readable(pieces[j])
  {
    hide Readable, ParsePiece;
    var front := pieces[..i];
    forall j | 0 <= j < i ensures ParsePiece(front[j]).Ok? <==> Readable(pieces[j]) {
      PieceReads(pieces[j]);
    }
  }

  // ------------------------------------------------------- as the requirements write it

  lemma Writes(kind: PizzaType, size: PizzaSize, quantity: nat, token: string, sizeToken: string, number: string)
    requires Spelled(token, TypeName(kind)) && Spelled(sizeToken, SizeName(size))
    requires 1 <= quantity < 10 && |number| == 2
    requires number[0] in {'x', 'X'} && number[1] as int == '0' as int + quantity
    ensures Prints(token + sizeToken + number, PizzaOrder(kind, size, quantity))
  {
    hide Spelled, TypeName, SizeName;
    var rest := sizeToken + number;
    assert Decimal(quantity) == [('0' as int + quantity) as char] == number[1..];
    assert rest == "" + sizeToken + "" + number + "";
    assert RestOf(rest, "", sizeToken, "", number, "");
    assert PrintsRest(rest, PizzaOrder(kind, size, quantity));
    assert token + sizeToken + number == "" + token + rest;
  }

  /** The requirements' own example, its last number completed. */
  lemma PublishedExample()
    ensures Outcome("reginaXXLx2;fantasiaMx3;margaritaSx1") ==
            Ok([PizzaOrder(Regina, XXL, 2), PizzaOrder(Fantasia, M, 3), PizzaOrder(Margarita, S, 1)])
  {
    hide *;
    First();
    Second();
    Third();
    ReadThree("reginaXXLx2", "fantasiaMx3", "margaritaSx1",
              PizzaOrder(Regina, XXL, 2), PizzaOrder(Fantasia, M, 3), PizzaOrder(Margarita, S, 1));
    assert "reginaXXLx2" + ";" + ("fantasiaMx3" + ";" + "margaritaSx1") == "reginaXXLx2;fantasiaMx3;margaritaSx1";
  }

  /** The name and the sizes it leaves out, in capitals and in small letters. */
  lemma AnotherExample()
    ensures Outcome("AMERICANAxlX7;AmericanaLx9;americanaMx1") ==
            Ok([PizzaOrder(Americana, XL, 7), PizzaOrder(Americana, L, 9), PizzaOrder(Americana, M, 1)])
  {
    hide *;
    Fourth();
    Fifth();
    Sixth();
    ReadThree("AMERICANAxlX7", "AmericanaLx9", "americanaMx1",
              PizzaOrder(Americana, XL, 7), PizzaOrder(Americana, L, 9), PizzaOrder(Americana, M, 1));
    assert "AMERICANAxlX7" + ";" + ("AmericanaLx9" + ";" + "americanaMx1") == "AMERICANAxlX7;AmericanaLx9;americanaMx1";
  }

  lemma Fourth()
    ensures Prints("AMERICANAxlX7", PizzaOrder(Americana, XL, 7))
  {
    hide Prints;
    Writes(Americana, XL, 7, "AMERICANA", "xl", "X7");
    assert "AMERICANA" + "xl" + "X7" == "AMERICANAxlX7";
  }

  lemma Fifth()
    ensures Prints("AmericanaLx9", PizzaOrder(Americana, L, 9))
  {
    hide Prints;
    Writes(Americana, L, 9, "Americana", "L", "x9");
    assert "Americana" + "L" + "x9" == "AmericanaLx9";
  }

  lemma Sixth()
    ensures Prints("americanaMx1", PizzaOrder(Americana, M, 1))
  {
    hide Prints;
    Writes(Americana, M, 1, "americana", "M", "x1");
    assert "americana" + "M" + "x1" == "americanaMx1";
  }

  lemma First()
    ensures Prints("reginaXXLx2", PizzaOrder(Regina, XXL, 2))
  {
    hide Prints;
    Writes(Regina, XXL, 2, "regina", "XXL", "x2");
    assert "regina" + "XXL" + "x2" == "reginaXXLx2";
  }

  lemma Second()
    ensures Prints("fantasiaMx3", PizzaOrder(Fantasia, M, 3))
  {
    hide Prints;
    Writes(Fantasia, M, 3, "fantasia", "M", "x3");
    assert "fantasia" + "M" + "x3" == "fantasiaMx3";
  }

  lemma Third()
    ensures Prints("margaritaSx1", PizzaOrder(Margarita, S, 1))
  {
    hide Prints;
    Writes(Margarita, S, 1, "margarita", "S", "x1");
    assert "margarita" + "S" + "x1" == "margaritaSx1";
  }

  lemma ReadThree(a: string, b: string, c: string, x: PizzaOrder, y: PizzaOrder, z: PizzaOrder)
    requires Prints(a, x) && Prints(b, y) && Prints(c, z)
    ensures Outcome(a + ";" + (b + ";" + c)) == Ok([x, y, z])
  {
    hide Prints, Outcome;
    RoundTrip([a, b, c], [x, y, z]);
    assert [a, b, c][1..] == [b, c] && [b, c][1..] == [c];
    assert Join([c]) == c;
    assert Join([b, c]) == b + ";" + c;
    assert Join([a, b, c]) == a + ";" + (b + ";" + c);
  }
}
