/** `extract_cheque_info`: seven independent `re.search` calls over the OCR
    text, each reporting capture group 1 of its first match or `None`.

    Each pattern is given twice: declaratively, as the set of ways it can
    match at a start position (`IsMatch`), and as a hand-written scanner
    (`ScanAt`). A way of matching is a `Choice`: which alternative was
    taken and the span of group 1. Python's backtracking engine reports,
    at the leftmost position where anything matches, the way it tries
    first; `Preferred` is that trial order. The scanners are proved to
    return exactly that preferred match, `Search` finds the leftmost
    position, and `Extract` is group 1 of the result. */
module ChequeFields {
  import opened Results
  import opened Text

  datatype Field =
    | ChequeNumber    // \b(\d{6,12})\b
    | AccountNumber   // \b(\d{10,16})\b
    | AmountNumbers   // \b(\d{1,3}(?:,\d{3})*\.\d{2})\b
    | AmountWords     // (?i)(?:Rupees|INR|Amount|Rs\.)\s+([a-zA-Z\s-]+)
    | Date            // \b(\d{2}/\d{2}/\d{4})\b
    | Payee           // Pay(?: to|ee)?[:\s]+(.+)          with re.IGNORECASE
    | Bank            // Bank[:\s]*(.*)                    with re.IGNORECASE

  /** The fields in the order the dictionary lists them. */
  const Fields: seq<Field> := [ChequeNumber, AccountNumber, AmountNumbers, AmountWords, Date, Payee, Bank]

  /** The dictionary key under which each field is reported. */
  function Key(f: Field): string {
    match f
    case ChequeNumber => "chequeNumber"
    case AccountNumber => "accountNumber"
    case AmountNumbers => "amount_numbers"
    case AmountWords => "amount_words"
    case Date => "date"
    case Payee => "payee"
    case Bank => "bank"
  }

  /** One way of matching at a start position: the alternative taken and
      the span `q..e` of group 1. */
  datatype Choice = Choice(alt: nat, q: nat, e: nat)

  /** A match found by the search: where it starts and how it matched. */
  datatype Hit = Hit(start: nat, choice: Choice)

  /** The order in which the backtracking engine tries the ways of matching
      at one position: earlier alternatives first, then greedy repetitions
      longest first, so a later start of group 1 (more separators eaten)
      before an earlier one, then a longer group before a shorter one. */
  predicate Preferred(c1: Choice, c2: Choice) {
    c1.alt < c2.alt || (c1.alt == c2.alt && (c1.q > c2.q || (c1.q == c2.q && c1.e > c2.e)))
  }

  /** Group 1 of a match, as a string. */
  function Capture(s: string, c: Choice): string {
    if c.q <= c.e <= |s| then s[c.q..c.e] else []
  }

  // ---------------------------------------------------------------------
  // Digit tokens: \b(\d{lo,hi})\b

  ghost predicate DigitToken(s: string, i: int, c: Choice, lo: nat, hi: nat) {
    c.alt == 0 && c.q == i && AllIn(Digit, s, i, c.e) && lo <= c.e - i <= hi
    && AtBoundary(s, i) && AtBoundary(s, c.e)
  }

  function ScanDigits(s: string, i: nat, lo: nat, hi: nat): (r: Option<Choice>)
    requires i <= |s| && 0 < lo
    ensures r.Some? ==> DigitToken(s, i, r.value, lo, hi)
  {
    if !AtBoundary(s, i) then None
    else
      var n := RunOf(Digit, s, i);
      if lo <= n <= hi && AtBoundary(s, i + n) then Some(Choice(0, i, i + n)) else None
  }

  /** A digit token is the whole digit run it starts: the boundary after it
      rules out a further digit. So the scanner finds every token, and there
      is at most one per position. */
  lemma ScanDigitsComplete(s: string, i: nat, lo: nat, hi: nat)
    requires i <= |s| && 0 < lo
    ensures forall c :: DigitToken(s, i, c, lo, hi) ==> ScanDigits(s, i, lo, hi) == Some(c)
  {
    forall c | DigitToken(s, i, c, lo, hi)
      ensures ScanDigits(s, i, lo, hi) == Some(c)
    {
      assert WordBefore(s, c.e);
      RunEnds(Digit, s, i, c.e);
    }
  }

  // ---------------------------------------------------------------------
  // Date: \b(\d{2}/\d{2}/\d{4})\b

  ghost predicate DateToken(s: string, i: int, c: Choice) {
    c.alt == 0 && c.q == i && c.e == i + 10 && c.e <= |s|
    && AllIn(Digit, s, i, i + 2) && s[i + 2] == '/'
    && AllIn(Digit, s, i + 3, i + 5) && s[i + 5] == '/'
    && AllIn(Digit, s, i + 6, i + 10)
    && AtBoundary(s, i) && AtBoundary(s, c.e)
  }

  function ScanDate(s: string, i: nat): (r: Option<Choice>)
    requires i <= |s|
    ensures r.Some? ==> DateToken(s, i, r.value)
    ensures forall c :: DateToken(s, i, c) ==> r == Some(c)
  {
    if i + 10 <= |s|
       && AllIn(Digit, s, i, i + 2) && s[i + 2] == '/'
       && AllIn(Digit, s, i + 3, i + 5) && s[i + 5] == '/'
       && AllIn(Digit, s, i + 6, i + 10)
       && AtBoundary(s, i) && AtBoundary(s, i + 10)
    then Some(Choice(0, i, i + 10))
    else None
  }

  // ---------------------------------------------------------------------
  // Amount in figures: \b(\d{1,3}(?:,\d{3})*\.\d{2})\b

  /** `s[p..g]` is a sequence of `,ddd` groups. */
  ghost predicate Groups(s: string, p: int, g: int)
    decreases g - p
  {
    0 <= p <= g <= |s|
    && (p == g || (p + 4 <= g && s[p] == ',' && AllIn(Digit, s, p + 1, p + 4) && Groups(s, p + 4, g)))
  }

  ghost predicate AmountToken(s: string, i: int, c: Choice) {
    c.alt == 0 && c.q == i && i + 4 <= c.e <= |s|
    && s[c.e - 3] == '.' && IsDigit(s[c.e - 2]) && IsDigit(s[c.e - 1])
    && (exists m :: i < m <= i + 3 && AllIn(Digit, s, i, m) && Groups(s, m, c.e - 3))
    && AtBoundary(s, i) && AtBoundary(s, c.e)
  }

  /** End of the longest sequence of `,ddd` groups from `p`. */
  function GroupsEnd(s: string, p: nat): (g: nat)
    requires p <= |s|
    ensures p <= g <= |s| && Groups(s, p, g)
    ensures !(g + 4 <= |s| && s[g] == ',' && AllIn(Digit, s, g + 1, g + 4))
    decreases |s| - p
  {
    if p + 4 <= |s| && s[p] == ',' && AllIn(Digit, s, p + 1, p + 4) then GroupsEnd(s, p + 4) else p
  }

  /** Groups followed by the decimal point are the longest groups. */
  lemma {:induction false} GroupsEndAtPoint(s: string, p: nat, g: int)
    requires Groups(s, p, g) && g < |s| && s[g] == '.'
    ensures GroupsEnd(s, p) == g
    decreases g - p
  {
    if p < g {
      GroupsEndAtPoint(s, p + 4, g);
    }
  }

  function ScanAmount(s: string, i: nat): (r: Option<Choice>)
    requires i <= |s|
    ensures r.Some? ==> AmountToken(s, i, r.value)
  {
    if !AtBoundary(s, i) then None
    else
      var m := i + RunOf(Digit, s, i);
      if !(i < m <= i + 3) then None
      else
        var g := GroupsEnd(s, m);
        if g + 3 <= |s| && s[g] == '.' && IsDigit(s[g + 1]) && IsDigit(s[g + 2]) && AtBoundary(s, g + 3)
        then Some(Choice(0, i, g + 3))
        else None
  }

  /** The integer part of an amount is the whole digit run (a comma or the
      point follows it) and the groups are the longest ones (the point
      follows them), so there is at most one amount per position and the
      scanner finds it. */
  lemma ScanAmountComplete(s: string, i: nat)
    requires i <= |s|
    ensures forall c :: AmountToken(s, i, c) ==> ScanAmount(s, i) == Some(c)
  {
    forall c | AmountToken(s, i, c)
      ensures ScanAmount(s, i) == Some(c)
    {
      var m :| i < m <= i + 3 && AllIn(Digit, s, i, m) && Groups(s, m, c.e - 3);
      assert s[m] == ',' || s[m] == '.';
      RunEnds(Digit, s, i, m);
      GroupsEndAtPoint(s, m, c.e - 3);
    }
  }

  // ---------------------------------------------------------------------
  // Head Sep{min,} (Cap{min,}) with case-insensitive literal heads

  /** A pattern made of a case-insensitive literal chosen among `heads` (in
      trial order), a greedy run of `sep` characters (at least one when
      `sepPlus`), and group 1, a greedy run of `cap` characters (at least
      one when `capPlus`). */
  datatype Shape = Shape(heads: seq<string>, sep: Class, sepPlus: bool, cap: Class, capPlus: bool)

  /** `(?:Rupees|INR|Amount|Rs\.)\s+([a-zA-Z\s-]+)` */
  const WordsShape := Shape(["rupees", "inr", "amount", "rs."], Space, true, LetterSpaceOrDash, true)

  /** `Pay(?: to|ee)?[:\s]+(.+)`: the optional group is greedy, so " to"
      and "ee" are tried before skipping it. */
  const PayeeShape := Shape(["pay to", "payee", "pay"], ColonOrSpace, true, NotNewline, true)

  /** `Bank[:\s]*(.*)` */
  const BankShape := Shape(["bank"], ColonOrSpace, false, NotNewline, false)

  function Least(plus: bool): nat {
    if plus then 1 else 0
  }

  ghost predicate ShapeMatch(sh: Shape, s: string, i: int, c: Choice) {
    c.alt < |sh.heads| && CiAt(s, i, sh.heads[c.alt])
    && i + |sh.heads[c.alt]| + Least(sh.sepPlus) <= c.q
    && AllIn(sh.sep, s, i + |sh.heads[c.alt]|, c.q)
    && c.q + Least(sh.capPlus) <= c.e && AllIn(sh.cap, s, c.q, c.e)
  }

  /** Group 1 can start at `q`: it may be empty, or `s[q]` is in `cap`. */
  predicate CanStart(s: string, q: int, cap: Class, plus: bool) {
    0 <= q <= |s| && (!plus || (q < |s| && In(cap, s[q])))
  }

  /** The latest position in `lo..hi` where group 1 can start: the first
      one the engine reaches while giving back separators. */
  function LastStart(s: string, lo: int, hi: int, cap: Class, plus: bool): (r: Option<int>)
    requires hi <= |s|
    ensures r.Some? ==> lo <= r.value <= hi && CanStart(s, r.value, cap, plus)
    ensures r.Some? ==> forall q :: r.value < q <= hi ==> !CanStart(s, q, cap, plus)
    ensures r.None? ==> forall q :: lo <= q <= hi ==> !CanStart(s, q, cap, plus)
    decreases hi - lo + 1
  {
    if hi < lo then None
    else if CanStart(s, hi, cap, plus) then Some(hi)
    else LastStart(s, lo, hi - 1, cap, plus)
  }

  /** The first way alternative `a` matches at `i`, if any. */
  function ScanShapeAlt(sh: Shape, s: string, i: nat, a: nat): (r: Option<Choice>)
    requires i <= |s| && a < |sh.heads|
    ensures r.Some? ==> r.value.alt == a && ShapeMatch(sh, s, i, r.value)
  {
    if !CiAt(s, i, sh.heads[a]) then None
    else
      var p := i + |sh.heads[a]|;
      var w := RunOf(sh.sep, s, p);
      match LastStart(s, p + Least(sh.sepPlus), p + w, sh.cap, sh.capPlus)
      case None => None
      case Some(q) => Some(Choice(a, q, q + RunOf(sh.cap, s, q)))
  }

  /** Within one alternative the scanner's choice comes first in trial
      order: group 1 starts as late as the separators allow, and runs as
      far as `cap` allows. */
  lemma ScanShapeAltFirst(sh: Shape, s: string, i: nat, c: Choice)
    requires i <= |s| && ShapeMatch(sh, s, i, c)
    ensures ScanShapeAlt(sh, s, i, c.alt).Some?
    ensures var d := ScanShapeAlt(sh, s, i, c.alt).value; d == c || Preferred(d, c)
  {
    var p := i + |sh.heads[c.alt]|;
    RunBound(sh.sep, s, p, c.q);
    assert CanStart(s, c.q, sh.cap, sh.capPlus);
    var d := ScanShapeAlt(sh, s, i, c.alt).value;
    if d.q == c.q {
      RunBound(sh.cap, s, c.q, c.e);
    }
  }

  /** Tries the alternatives from `a` on, in order. */
  function ScanShapeFrom(sh: Shape, s: string, i: nat, a: nat): (r: Option<Choice>)
    requires i <= |s| && a <= |sh.heads|
    ensures r.Some? ==> a <= r.value.alt && ShapeMatch(sh, s, i, r.value)
    decreases |sh.heads| - a
  {
    if a == |sh.heads| then None
    else
      match ScanShapeAlt(sh, s, i, a)
      case Some(c) => Some(c)
      case None => ScanShapeFrom(sh, s, i, a + 1)
  }

  lemma {:induction false} ScanShapeFromFirst(sh: Shape, s: string, i: nat, a: nat, c: Choice)
    requires i <= |s| && a <= c.alt && ShapeMatch(sh, s, i, c)
    ensures ScanShapeFrom(sh, s, i, a).Some?
    ensures var d := ScanShapeFrom(sh, s, i, a).value; d == c || Preferred(d, c)
    decreases |sh.heads| - a
  {
    ScanShapeAltFirst(sh, s, i, c);
    if ScanShapeAlt(sh, s, i, a).None? {
      assert a != c.alt;
      ScanShapeFromFirst(sh, s, i, a + 1, c);
    }
  }

  // ---------------------------------------------------------------------
  // Every field

  /** The ways field `f`'s pattern matches `s` at position `i`. */
  ghost predicate IsMatch(f: Field, s: string, i: int, c: Choice) {
    match f
    case ChequeNumber => DigitToken(s, i, c, 6, 12)
    case AccountNumber => DigitToken(s, i, c, 10, 16)
    case AmountNumbers => AmountToken(s, i, c)
    case AmountWords => ShapeMatch(WordsShape, s, i, c)
    case Date => DateToken(s, i, c)
    case Payee => ShapeMatch(PayeeShape, s, i, c)
    case Bank => ShapeMatch(BankShape, s, i, c)
  }

  /** `c` is the match the engine reports when it tries position `i`. */
  ghost predicate IsBest(f: Field, s: string, i: int, c: Choice) {
    IsMatch(f, s, i, c) && forall d :: IsMatch(f, s, i, d) ==> d == c || Preferred(c, d)
  }

  /** `c` at `i` is what `re.search` reports: the preferred match at the
      leftmost position where the pattern matches at all. */
  ghost predicate IsFirstMatch(f: Field, s: string, i: int, c: Choice) {
    0 <= i <= |s| && IsBest(f, s, i, c) && forall j, d :: 0 <= j < i ==> !IsMatch(f, s, j, d)
  }

  /** Field `f`'s pattern tried at position `i`. */
  function ScanAt(f: Field, s: string, i: nat): (r: Option<Choice>)
    requires i <= |s|
    ensures r.Some? ==> IsBest(f, s, i, r.value)
    ensures r.None? ==> forall c :: !IsMatch(f, s, i, c)
  {
    match f
    case ChequeNumber => ScanDigitsComplete(s, i, 6, 12); ScanDigits(s, i, 6, 12)
    case AccountNumber => ScanDigitsComplete(s, i, 10, 16); ScanDigits(s, i, 10, 16)
    case AmountNumbers => ScanAmountComplete(s, i); ScanAmount(s, i)
    case Date => ScanDate(s, i)
    case AmountWords => ScanShapeAt(WordsShape, s, i); ScanShapeFrom(WordsShape, s, i, 0)
    case Payee => ScanShapeAt(PayeeShape, s, i); ScanShapeFrom(PayeeShape, s, i, 0)
    case Bank => ScanShapeAt(BankShape, s, i); ScanShapeFrom(BankShape, s, i, 0)
  }

  lemma ScanShapeAt(sh: Shape, s: string, i: nat)
    requires i <= |s|
    ensures forall c :: ShapeMatch(sh, s, i, c) ==>
              ScanShapeFrom(sh, s, i, 0).Some?
              && (ScanShapeFrom(sh, s, i, 0).value == c || Preferred(ScanShapeFrom(sh, s, i, 0).value, c))
  {
    forall c | ShapeMatch(sh, s, i, c)
      ensures ScanShapeFrom(sh, s, i, 0).Some?
      ensures ScanShapeFrom(sh, s, i, 0).value == c || Preferred(ScanShapeFrom(sh, s, i, 0).value, c)
    {
      ScanShapeFromFirst(sh, s, i, 0, c);
    }
  }

  /** `re.search` from position `from`: the pattern is tried at `from`,
      `from + 1`, ... up to and including `|s|`. */
  function Search(f: Field, s: string, from: nat): (r: Option<Hit>)
    requires from <= |s|
    ensures r.Some? ==> from <= r.value.start <= |s| && IsBest(f, s, r.value.start, r.value.choice)
    ensures r.Some? ==> forall j, d :: from <= j < r.value.start ==> !IsMatch(f, s, j, d)
    ensures r.None? ==> forall j, d :: from <= j <= |s| ==> !IsMatch(f, s, j, d)
    decreases |s| - from
  {
    match ScanAt(f, s, from)
    case Some(c) => Some(Hit(from, c))
    case None => if from == |s| then None else Search(f, s, from + 1)
  }

  /** `match.group(1) if match else None` for field `f`. */
  function Extract(f: Field, s: string): (r: Option<string>)
    ensures r.None? <==> forall j, d :: 0 <= j <= |s| ==> !IsMatch(f, s, j, d)
    ensures r.Some? ==> exists j, c :: IsFirstMatch(f, s, j, c) && r.value == Capture(s, c)
  {
    match Search(f, s, 0)
    case None => None
    case Some(h) =>
      assert IsFirstMatch(f, s, h.start, h.choice);
      Some(Capture(s, h.choice))
  }

  /** `extract_cheque_info(text)`. */
  function ExtractChequeInfo(text: string): (info: map<string, Option<string>>)
    ensures forall k :: k in info <==> exists f :: Key(f) == k
    ensures forall f :: Key(f) in info && info[Key(f)] == Extract(f, text)
  {
    KeyIsInjective();
    map f | f in Fields :: Key(f) := Extract(f, text)
  }

  /** Distinct fields are reported under distinct keys. */
  lemma KeyIsInjective()
    ensures forall f, g :: Key(f) == Key(g) ==> f == g
  {
    forall f, g | Key(f) == Key(g) ensures f == g {
      assert Key(f)[0] == Key(g)[0] && |Key(f)| == |Key(g)|;
    }
  }
}
