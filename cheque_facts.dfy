/** What the extracted fields look like, derived from the regex semantics
    of `ChequeFields`. */
module ChequeFacts {
  import opened Results
  import opened Text
  import opened ChequeFields

  /** The trial order is a strict total order on the ways of matching, so
      the reported match is determined: two first matches are the same. */
  lemma FirstMatchIsUnique(f: Field, s: string, i1: int, c1: Choice, i2: int, c2: Choice)
    requires IsFirstMatch(f, s, i1, c1) && IsFirstMatch(f, s, i2, c2)
    ensures i1 == i2 && c1 == c2
  {
  }

  /** The best match behind a reported value. */
  lemma BestOf(f: Field, s: string) returns (j: int, c: Choice)
    requires Extract(f, s).Some?
    ensures IsBest(f, s, j, c) && Extract(f, s).value == Capture(s, c)
  {
    j, c :| IsFirstMatch(f, s, j, c) && Extract(f, s).value == Capture(s, c);
  }

  /** The digit-token fields with their length bounds. */
  predicate DigitField(f: Field, lo: nat, hi: nat) {
    (f == ChequeNumber && lo == 6 && hi == 12) || (f == AccountNumber && lo == 10 && hi == 16)
  }

  /** The digit token behind a reported number. */
  lemma DigitOf(f: Field, lo: nat, hi: nat, s: string) returns (j: int, c: Choice)
    requires DigitField(f, lo, hi) && Extract(f, s).Some?
    ensures DigitToken(s, j, c, lo, hi) && Extract(f, s) == Some(s[j..c.e])
  {
    j, c := BestOf(f, s);
  }

  /** chequeNumber is a run of 6 to 12 digits, and accountNumber one of 10
      to 16 digits, of the text, with a non-word character or the edge of
      the text on each side. */
  lemma DigitFieldValue(f: Field, lo: nat, hi: nat, s: string) returns (q: int, e: int)
    requires DigitField(f, lo, hi) && Extract(f, s).Some?
    ensures 0 <= q && lo <= e - q <= hi && e <= |s| && Extract(f, s) == Some(s[q..e])
    ensures forall k :: q <= k < e ==> IsDigit(s[k])
    ensures AtBoundary(s, q) && AtBoundary(s, e)
  {
    var j, c := DigitOf(f, lo, hi, s);
    q, e := j, c.e;
    forall k | q <= k < e ensures IsDigit(s[k]) {
      assert In(Digit, s[k]);
    }
  }

  /** A text that is one word (letters, digits, underscores) yields a digit
      field exactly when it is all digits of an admissible length, and then
      the whole text: a longer digit run, or one adjoining a letter or an
      underscore, is not matched. */
  lemma {:induction false} DigitFieldOfOneWord(f: Field, lo: nat, hi: nat, s: string)
    requires DigitField(f, lo, hi)
    requires forall k :: 0 <= k < |s| ==> IsWord(s[k])
    ensures Extract(f, s) == if AllIn(Digit, s, 0, |s|) && lo <= |s| <= hi then Some(s) else None
  {
    if AllIn(Digit, s, 0, |s|) && lo <= |s| <= hi {
      var c := Choice(0, 0, |s|);
      assert IsMatch(f, s, 0, c);
      var j, d := DigitOf(f, lo, hi, s);
      assert j == 0 && d.e == |s| by {
        assert WordAt(s, j) && WordBefore(s, d.e);
      }
      assert s[0..|s|] == s;
    } else {
      forall j, d | 0 <= j <= |s| ensures !IsMatch(f, s, j, d) {
      }
    }
  }

  /** The two number fields are searched independently: a lone 10 to 12
      digit number fills both. */
  lemma ChequeAndAccountOverlap(s: string)
    requires AllIn(Digit, s, 0, |s|) && 10 <= |s| <= 12
    ensures Extract(ChequeNumber, s) == Some(s) && Extract(AccountNumber, s) == Some(s)
  {
    assert forall k :: 0 <= k < |s| ==> IsWord(s[k]) by {
      forall k | 0 <= k < |s| ensures IsWord(s[k]) {
        assert In(Digit, s[k]);
      }
    }
    DigitFieldOfOneWord(ChequeNumber, 6, 12, s);
    DigitFieldOfOneWord(AccountNumber, 10, 16, s);
  }

  /** date is `dd/dd/dddd` of the text with word boundaries round it; the
      day and month are not range-checked. */
  lemma DateValue(s: string) returns (q: int)
    requires Extract(Date, s).Some?
    ensures 0 <= q && q + 10 <= |s| && Extract(Date, s) == Some(s[q..q + 10])
    ensures s[q + 2] == '/' && s[q + 5] == '/'
    ensures forall k :: q <= k < q + 10 && k != q + 2 && k != q + 5 ==> IsDigit(s[k])
    ensures AtBoundary(s, q) && AtBoundary(s, q + 10)
  {
    var j, c := BestOf(Date, s);
    assert DateToken(s, j, c);
    q := j;
    forall k | q <= k < q + 10 && k != q + 2 && k != q + 5 ensures IsDigit(s[k]) {
      assert In(Digit, s[k]);
    }
  }

  /** amount_numbers starts with a digit, ends in a point and two digits,
      and has word boundaries round it. */
  lemma AmountValue(s: string) returns (q: int, e: int)
    requires Extract(AmountNumbers, s).Some?
    ensures 0 <= q && q + 4 <= e <= |s| && Extract(AmountNumbers, s) == Some(s[q..e])
    ensures IsDigit(s[q]) && s[e - 3] == '.' && IsDigit(s[e - 2]) && IsDigit(s[e - 1])
    ensures AtBoundary(s, q) && AtBoundary(s, e)
  {
    var j, c := AmountOf(s);
    AmountTokenFacts(s, j, c);
    q, e := j, c.e;
  }

  lemma AmountTokenFacts(s: string, j: int, c: Choice)
    requires AmountToken(s, j, c)
    ensures 0 <= j && j + 4 <= c.e <= |s|
    ensures IsDigit(s[j]) && s[c.e - 3] == '.' && IsDigit(s[c.e - 2]) && IsDigit(s[c.e - 1])
    ensures AtBoundary(s, j) && AtBoundary(s, c.e)
  {
    AmountStartsWithDigit(s, j, c);
  }

  /** The amount token behind a reported amount. */
  lemma AmountOf(s: string) returns (j: int, c: Choice)
    requires Extract(AmountNumbers, s).Some?
    ensures AmountToken(s, j, c) && Extract(AmountNumbers, s) == Some(s[j..c.e])
  {
    j, c := BestOf(AmountNumbers, s);
  }

  lemma AmountStartsWithDigit(s: string, j: int, c: Choice)
    requires AmountToken(s, j, c)
    ensures 0 <= j < |s| && IsDigit(s[j])
  {
    var m :| j < m <= j + 3 && AllIn(Digit, s, j, m) && Groups(s, m, c.e - 3);
    assert In(Digit, s[j]);
  }

  /** Thousands must be grouped: an integer part of four or more digits
      without commas, as in "1234.56", is not an amount. */
  lemma {:induction false} UngroupedAmountIsRejected(u: string, d: string)
    requires 4 <= |u| && AllIn(Digit, u, 0, |u|) && |d| == 2 && AllIn(Digit, d, 0, 2)
    ensures Extract(AmountNumbers, u + "." + d) == None
  {
    var s := u + "." + d;
    assert forall k :: 0 <= k < |u| ==> s[k] == u[k] && IsDigit(s[k]);
    assert s[|u|] == '.';
    assert forall k :: |u| < k < |s| ==> s[k] == d[k - |u| - 1] && IsDigit(s[k]);
    forall j, c | 0 <= j <= |s| ensures !AmountToken(s, j, c) {
      if j == 0 {
        // the integer part cannot stop inside the leading digit run
        assert forall m :: 0 < m <= 3 ==> IsDigit(s[m]);
      } else if j < |u| {
        assert WordBefore(s, j) && WordAt(s, j);
      } else if j == |u| {
        assert !IsDigit(s[j]);
      }
    }
  }

  /** The fields searched with a head/separator/capture pattern. */
  predicate ShapeField(f: Field, sh: Shape) {
    (f == AmountWords && sh == WordsShape) || (f == Payee && sh == PayeeShape) || (f == Bank && sh == BankShape)
  }

  /** `c` is the way `sh` matches at `i` that the engine tries first. */
  ghost predicate ShapeBest(sh: Shape, s: string, i: int, c: Choice) {
    ShapeMatch(sh, s, i, c) && forall d :: ShapeMatch(sh, s, i, d) ==> d == c || Preferred(c, d)
  }

  /** The match of the pattern behind a reported head/separator/capture
      field. */
  lemma ShapeOf(f: Field, sh: Shape, s: string) returns (j: int, c: Choice)
    requires ShapeField(f, sh) && Extract(f, s).Some?
    ensures ShapeBest(sh, s, j, c) && Extract(f, s) == Some(s[c.q..c.e])
  {
    j, c := BestOf(f, s);
    forall d | ShapeMatch(sh, s, j, d) ensures d == c || Preferred(c, d) {
      assert IsMatch(f, s, j, d);
    }
  }

  /** Group 1 of a head/separator/capture pattern, as the engine reports
      it, is greedy: it runs as far as the capture class allows. */
  lemma WholeCapture(sh: Shape, s: string, j: int, c: Choice)
    requires ShapeBest(sh, s, j, c)
    ensures c.q + Least(sh.capPlus) <= c.e <= |s| && AllIn(sh.cap, s, c.q, c.e)
    ensures c.e == |s| || !In(sh.cap, s[c.e])
  {
    var d := Choice(c.alt, c.q, c.q + RunOf(sh.cap, s, c.q));
    RunBound(sh.cap, s, c.q, c.e);
    assert ShapeMatch(sh, s, j, d);
  }

  /** amount_words is a non-empty run of letters, whitespace and hyphens of
      the text, as long as those characters last. */
  lemma AmountWordsValue(s: string) returns (q: int, e: int)
    requires Extract(AmountWords, s).Some?
    ensures 0 <= q < e <= |s| && Extract(AmountWords, s) == Some(s[q..e])
    ensures forall k :: q <= k < e ==> In(LetterSpaceOrDash, s[k])
    ensures e == |s| || !In(LetterSpaceOrDash, s[e])
  {
    var j, c := ShapeOf(AmountWords, WordsShape, s);
    WholeCapture(WordsShape, s, j, c);
    q, e := c.q, c.e;
  }

  /** Group 1 of `(.+)` or `(.*)` holds no newline and stops at the end of
      its line. */
  lemma LineCapture(f: Field, sh: Shape, s: string) returns (q: int, e: int)
    requires ShapeField(f, sh) && sh.cap == NotNewline && Extract(f, s).Some?
    ensures 0 <= q && q + Least(sh.capPlus) <= e <= |s| && Extract(f, s) == Some(s[q..e])
    ensures forall k :: q <= k < e ==> s[k] != '\n'
    ensures e == |s| || s[e] == '\n'
  {
    var j, c := ShapeOf(f, sh, s);
    WholeCapture(sh, s, j, c);
    q, e := c.q, c.e;
    forall k | q <= k < e ensures s[k] != '\n' {
      assert In(NotNewline, s[k]);
    }
  }

  /** payee is a non-empty part of one line of the text that runs to the
      end of that line. */
  lemma PayeeValue(s: string) returns (q: int, e: int)
    requires Extract(Payee, s).Some?
    ensures 0 <= q < e <= |s| && Extract(Payee, s) == Some(s[q..e])
    ensures forall k :: q <= k < e ==> s[k] != '\n'
    ensures e == |s| || s[e] == '\n'
  {
    q, e := LineCapture(Payee, PayeeShape, s);
  }

  /** bank is found as soon as "bank" occurs in any letter case, inside
      longer words too. */
  lemma BankFound(s: string)
    ensures Extract(Bank, s).Some? <==> exists i :: CiAt(s, i, "bank")
  {
    if i :| CiAt(s, i, "bank") {
      assert AllIn(BankShape.sep, s, i + 4, i + 4) && AllIn(BankShape.cap, s, i + 4, i + 4);
      assert ShapeMatch(BankShape, s, i, Choice(0, i + 4, i + 4));
      assert IsMatch(Bank, s, i, Choice(0, i + 4, i + 4));
    }
    if Extract(Bank, s).Some? {
      var j, c := ShapeOf(Bank, BankShape, s);
      assert c.alt == 0 && CiAt(s, j, BankShape.heads[0]);
    }
  }

  /** The bank value may be empty; it is a part of one line of the text
      that runs to the end of that line. */
  lemma BankValue(s: string) returns (q: int, e: int)
    requires Extract(Bank, s).Some?
    ensures 0 <= q <= e <= |s| && Extract(Bank, s) == Some(s[q..e])
    ensures forall k :: q <= k < e ==> s[k] != '\n'
    ensures e == |s| || s[e] == '\n'
  {
    q, e := LineCapture(Bank, BankShape, s);
  }

  /** `[:\s]*` also consumes line breaks, so the bank value can be taken
      from the line after the word "Bank". */
  lemma BankOnNextLine()
    ensures Extract(Bank, "Bank\nX") == Some("X")
  {
    var s := "Bank\nX";
    assert CiAt(s, 0, "bank") by {
      assert Lower('B') == 'b';
    }
    assert RunOf(ColonOrSpace, s, 4) == 1 by {
      assert In(ColonOrSpace, s[4]) && !In(ColonOrSpace, s[5]);
      RunEnds(ColonOrSpace, s, 4, 5);
    }
    assert RunOf(NotNewline, s, 5) == 1 by {
      assert In(NotNewline, s[5]);
      RunEnds(NotNewline, s, 5, 6);
    }
    assert LastStart(s, 4, 5, NotNewline, false) == Some(5);
    assert ScanShapeAlt(BankShape, s, 0, 0) == Some(Choice(0, 5, 6));
    assert ScanAt(Bank, s, 0) == Some(Choice(0, 5, 6));
    assert Search(Bank, s, 0) == Some(Hit(0, Choice(0, 5, 6)));
    assert s[5..6] == "X";
  }

  /** "Payee" is matched through its own alternative after " to" fails,
      and the colon and space after it are separators. */
  lemma PayeeAfterColon()
    ensures Extract(Payee, "Payee: Ann") == Some("Ann")
  {
    var s := "Payee: Ann";
    PayeeAlternatives(s);
    assert ScanAt(Payee, s, 0) == Some(Choice(1, 7, 10));
    assert Search(Payee, s, 0) == Some(Hit(0, Choice(1, 7, 10)));
    assert s[7..10] == "Ann";
  }

  lemma PayeeAlternatives(s: string)
    requires s == "Payee: Ann"
    ensures ScanShapeFrom(PayeeShape, s, 0, 0) == Some(Choice(1, 7, 10))
  {
    assert !CiAt(s, 0, "pay to") by {
      assert s[3] == 'e' && "pay to"[3] == ' ' && Lower('e') == 'e';
    }
    assert ScanShapeAlt(PayeeShape, s, 0, 0) == None;
    assert CiAt(s, 0, "payee") by {
      assert Lower('P') == 'p';
    }
    assert RunOf(ColonOrSpace, s, 5) == 2 by {
      assert In(ColonOrSpace, s[5]) && In(ColonOrSpace, s[6]) && !In(ColonOrSpace, s[7]);
      RunEnds(ColonOrSpace, s, 5, 7);
    }
    assert RunOf(NotNewline, s, 7) == 3 by {
      assert AllIn(NotNewline, s, 7, 10);
      RunEnds(NotNewline, s, 7, 10);
    }
    assert LastStart(s, 6, 7, NotNewline, true) == Some(7);
    assert ScanShapeAlt(PayeeShape, s, 0, 1) == Some(Choice(1, 7, 10));
  }
}
