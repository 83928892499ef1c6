/** Ticket letters, printed ticket numbers, and the per-product cursor that
    hands out ticket ranges. Letters are Unicode code points. */
module Tickets {
  import opened Outcomes
  import opened Sums

  const CONSONANT_START := 0x0E01
  const CONSONANT_END := 0x0E2E
  const VOWEL_RU := 0x0E24
  const VOWEL_LU := 0x0E26
  const LETTERS := 44
  const TICKETS_PER_LETTER := 10_000_000

  datatype LetterError = NotOneRune | NotInCycle | CycleExhausted
  datatype ReserveError = UnitsExceedLetter | NoNextLetter(error: LetterError)

  predicate IsLetter(cp: int) {
    CONSONANT_START <= cp <= CONSONANT_END && cp != VOWEL_RU && cp != VOWEL_LU
  }

  /** The letters below `cp` in the cycle. */
  function LetterIndex(cp: int): (i: int)
    requires IsLetter(cp)
    ensures 0 <= i < LETTERS
  {
    cp - CONSONANT_START - (if cp > VOWEL_RU then 1 else 0) - (if cp > VOWEL_LU then 1 else 0)
  }

  /** The letter at a place of the cycle. */
  function LetterAt(i: int): (cp: int)
    requires 0 <= i < LETTERS
    ensures IsLetter(cp) && LetterIndex(cp) == i
  {
    if i < 35 then CONSONANT_START + i else if i == 35 then 0x0E25 else CONSONANT_START + i + 2
  }

  function TicketLetters(): (s: seq<int>)
    ensures |s| == LETTERS && forall i :: 0 <= i < LETTERS ==> s[i] == LetterAt(i)
  {
    seq(LETTERS, i requires 0 <= i < LETTERS => LetterAt(i))
  }

  /** The cycle is every consonant of the block, once, in increasing order. */
  lemma {:induction false} LettersAreTheConsonants()
    ensures forall cp :: cp in TicketLetters() <==> 0x0E01 <= cp <= 0x0E2E && cp != 0x0E24 && cp != 0x0E26
    ensures |TicketLetters()| == 44 && forall cp :: cp in TicketLetters() <==> IsLetter(cp)
    ensures forall i, j :: 0 <= i < j < LETTERS ==> TicketLetters()[i] < TicketLetters()[j]
  {
    forall cp | IsLetter(cp) ensures cp in TicketLetters() {
      assert TicketLetters()[LetterIndex(cp)] == cp;
    }
  }

  method BuildTicketLetters() returns (letters: seq<int>)
    ensures letters == TicketLetters()
  {
    letters := [];
    var cp := CONSONANT_START;
    while cp <= CONSONANT_END
      invariant CONSONANT_START <= cp <= CONSONANT_END + 1
      invariant |letters| == cp - CONSONANT_START - (if cp > VOWEL_RU then 1 else 0) - (if cp > VOWEL_LU then 1 else 0)
      invariant forall i :: 0 <= i < |letters| ==> letters[i] == LetterAt(i)
    {
      if cp != VOWEL_RU && cp != VOWEL_LU {
        letters := letters + [cp];
      }
      cp := cp + 1;
    }
  }

  /** The successor in the cycle of a one-rune string. */
  function Successor(current: seq<int>): Result<int, LetterError> {
    if |current| != 1 then Failure(NotOneRune)
    else if !IsLetter(current[0]) then Failure(NotInCycle)
    else if LetterIndex(current[0]) == LETTERS - 1 then Failure(CycleExhausted)
    else Success(LetterAt(LetterIndex(current[0]) + 1))
  }

  method NextLetter(current: seq<int>) returns (r: Result<int, LetterError>)
    ensures r == Successor(current)
    ensures r.Success? ==> IsLetter(current[0]) && IsLetter(r.value) && current[0] < r.value
    ensures r.Success? ==> forall cp :: current[0] < cp < r.value ==> !IsLetter(cp)
  {
    if |current| != 1 {
      return Failure(NotOneRune);
    }
    var letters := BuildTicketLetters();
    var idx := -1;
    var i := 0;
    while i < |letters|
      invariant 0 <= i <= |letters|
      invariant idx == -1
      invariant forall k :: 0 <= k < i ==> letters[k] != current[0]
    {
      if letters[i] == current[0] {
        idx := i;
        break;
      }
      i := i + 1;
    }
    if idx == -1 {
      LettersAreTheConsonants();
      return Failure(NotInCycle);
    }
    if idx == |letters| - 1 {
      return Failure(CycleExhausted);
    }
    return Success(letters[idx + 1]);
  }

  // ---- the cursor

  datatype Cursor = Cursor(letter: int, number: int)
  datatype Grant = Grant(letter: int, start: int, end: int)

  predicate ValidCursor(c: Cursor) {
    IsLetter(c.letter) && 0 <= c.number <= TICKETS_PER_LETTER
  }

  predicate ValidGrant(g: Grant) {
    IsLetter(g.letter) && 0 <= g.start <= g.end < TICKETS_PER_LETTER
  }

  function Units(g: Grant): int {
    g.end - g.start + 1
  }

  /** The rank of a ticket among all tickets of a product. */
  function Position(letter: int, number: int): int
    requires IsLetter(letter)
  {
    LetterIndex(letter) * TICKETS_PER_LETTER + number
  }

  /** One cursor step: the range handed out and the cursor it leaves. */
  function Reserve(c: Cursor, units: int): Result<(Grant, Cursor), ReserveError> {
    if units > TICKETS_PER_LETTER then Failure(UnitsExceedLetter)
    else if units <= TICKETS_PER_LETTER - c.number then
      Success((Grant(c.letter, c.number, c.number + units - 1), Cursor(c.letter, c.number + units)))
    else
      match Successor([c.letter])
      case Failure(e) => Failure(NoNextLetter(e))
      case Success(next) => Success((Grant(next, 0, units - 1), Cursor(next, units)))
  }

  /** The tickets between the cursor and the range it handed out. */
  function Abandoned(c: Cursor, g: Grant): int
    requires IsLetter(c.letter) && IsLetter(g.letter)
  {
    Position(g.letter, g.start) - Position(c.letter, c.number)
  }

  /** A step succeeds exactly when the request fits some block not yet left
      behind; it skips fewer tickets than it hands out. */
  lemma {:induction false} ReserveStep(c: Cursor, units: int)
    requires ValidCursor(c) && units > 0
    ensures Reserve(c, units).Success? <==>
              && units <= TICKETS_PER_LETTER
              && (c.number + units <= TICKETS_PER_LETTER || c.letter != CONSONANT_END)
    ensures Reserve(c, units).Success? ==>
              var (g, next) := Reserve(c, units).value;
              && ValidGrant(g) && ValidCursor(next) && Units(g) == units
              && Position(next.letter, next.number) == Position(g.letter, g.end) + 1
              && 0 <= Abandoned(c, g) < units
              && (g.letter == c.letter ==> Abandoned(c, g) == 0)
              && Position(next.letter, next.number) == Position(c.letter, c.number) + units + Abandoned(c, g)
  {}

  function First(g: Grant): int
    requires IsLetter(g.letter)
  {
    Position(g.letter, g.start)
  }

  function Last(g: Grant): int
    requires IsLetter(g.letter)
  {
    Position(g.letter, g.end)
  }

  function Place(c: Cursor): int
    requires IsLetter(c.letter)
  {
    Position(c.letter, c.number)
  }

  predicate Positive(requests: seq<int>) {
    forall k :: 0 <= k < |requests| ==> requests[k] > 0
  }

  /** What a sequence of requests leaves behind; a refused request leaves no trace. */
  datatype Served = Served(grants: seq<Grant>, lost: seq<int>, cursor: Cursor)

  function Serve(c: Cursor, requests: seq<int>): (s: Served)
    requires ValidCursor(c) && Positive(requests)
    ensures ValidCursor(s.cursor)
  {
    if requests == [] then Served([], [], c)
    else
      var n := |requests| - 1;
      var before := Serve(c, requests[..n]);
      ReserveStep(before.cursor, requests[n]);
      match Reserve(before.cursor, requests[n])
      case Failure(_) => before
      case Success((g, next)) =>
        Served(before.grants + [g], before.lost + [Abandoned(before.cursor, g)], next)
  }

  function UnitsOf(): Grant -> int { (g: Grant) => Units(g) }
  function Itself(): int -> int { (n: int) => n }

  /** Ranges in strictly increasing order inside their letters. */
  ghost predicate InOrder(grants: seq<Grant>) {
    && (forall i :: 0 <= i < |grants| ==> ValidGrant(grants[i]))
    && (forall i, j :: 0 <= i < j < |grants| ==> Last(grants[i]) < First(grants[j]))
  }

  ghost predicate Between(low: int, grants: seq<Grant>, high: int) {
    forall i :: 0 <= i < |grants| ==>
      IsLetter(grants[i].letter) && low <= First(grants[i]) && Last(grants[i]) < high
  }

  lemma {:induction false} InOrderSnoc(grants: seq<Grant>, g: Grant, low: int, place: int, high: int)
    requires InOrder(grants) && Between(low, grants, place)
    requires ValidGrant(g) && low <= place <= First(g) && Last(g) < high
    ensures InOrder(grants + [g]) && Between(low, grants + [g], high)
  {}

  /** Over any requests: ranges are handed out in strictly increasing order, so
      no two share a ticket, and all lie at or after the first cursor and below
      the last. */
  lemma {:induction false} ServedInOrder(c: Cursor, requests: seq<int>)
    requires ValidCursor(c) && Positive(requests)
    ensures InOrder(Serve(c, requests).grants)
    ensures Between(Place(c), Serve(c, requests).grants, Place(Serve(c, requests).cursor))
    ensures Place(c) <= Place(Serve(c, requests).cursor)
  {
    if requests != [] {
      var n := |requests| - 1;
      ServedInOrder(c, requests[..n]);
      var before := Serve(c, requests[..n]);
      ReserveStep(before.cursor, requests[n]);
      if Reserve(before.cursor, requests[n]).Success? {
        var (g, next) := Reserve(before.cursor, requests[n]).value;
        InOrderSnoc(before.grants, g, Place(c), Place(before.cursor), Place(next));
      }
    }
  }

  /** The cursor moves by exactly the tickets issued and abandoned; each
      abandoned tail is smaller than the request that caused it; so no more
      than the 440,000,000 tickets of the cycle are ever issued. */
  lemma {:induction false} ServedConserves(c: Cursor, requests: seq<int>)
    requires ValidCursor(c) && Positive(requests)
    ensures var s := Serve(c, requests);
            && |s.lost| == |s.grants|
            && (forall i :: 0 <= i < |s.lost| ==> 0 <= s.lost[i] < Units(s.grants[i]))
            && Place(s.cursor) == Place(c) + Sum(s.grants, UnitsOf()) + Sum(s.lost, Itself())
            && Sum(s.grants, UnitsOf()) <= 440_000_000 - Place(c)
  {
    var s := Serve(c, requests);
    if requests != [] {
      var n := |requests| - 1;
      ServedConserves(c, requests[..n]);
      var before := Serve(c, requests[..n]);
      ReserveStep(before.cursor, requests[n]);
      if Reserve(before.cursor, requests[n]).Success? {
        var g := Reserve(before.cursor, requests[n]).value.0;
        SumSnoc(before.grants, g, UnitsOf());
        SumSnoc(before.lost, Abandoned(before.cursor, g), Itself());
      }
    }
    SumNonNegative(s.lost, Itself());
  }

  // ---- printed ticket numbers

  function Digit(d: int): char
    requires 0 <= d < 10
  {
    '0' + d as char
  }

  function Digits(n: nat): string {
    if n < 10 then [Digit(n)] else Digits(n / 10) + [Digit(n % 10)]
  }

  function Zeros(k: nat): string {
    if k == 0 then [] else ['0'] + Zeros(k - 1)
  }

  /** "%07d" of a non-negative number. */
  function Pad7(n: nat): string {
    var d := Digits(n);
    if |d| < 7 then Zeros(7 - |d|) + d else d
  }

  function TicketId(letter: int, n: nat): string
    requires IsLetter(letter)
  {
    [letter as char] + Pad7(n)
  }

  predicate AllDigits(s: string) {
    forall i :: 0 <= i < |s| ==> '0' <= s[i] <= '9'
  }

  function ParseDigits(s: string): nat
    requires AllDigits(s)
  {
    if s == [] then 0 else 10 * ParseDigits(s[..|s| - 1]) + (s[|s| - 1] - '0') as int
  }

  lemma {:induction false} DigitsParse(n: nat)
    ensures AllDigits(Digits(n))
    ensures ParseDigits(Digits(n)) == n
  {
    if n >= 10 {
      DigitsParse(n / 10);
      assert Digits(n)[..|Digits(n)| - 1] == Digits(n / 10);
    }
  }

  lemma {:induction false} ZerosAreZero(k: nat)
    ensures AllDigits(Zeros(k)) && ParseDigits(Zeros(k)) == 0
  {
    if k > 0 {
      ZerosAreZero(k - 1);
      ZerosSnoc(k - 1);
      assert Zeros(k)[..k - 1] == Zeros(k - 1);
    }
  }

  lemma {:induction false} ZerosParse(k: nat, s: string)
    requires AllDigits(s)
    ensures AllDigits(Zeros(k) + s)
    ensures ParseDigits(Zeros(k) + s) == ParseDigits(s)
  {
    ZerosAreZero(k);
    var n := |s| - 1;
    if s == [] {
      assert Zeros(k) + s == Zeros(k);
    } else {
      ZerosParse(k, s[..n]);
      var padded := Zeros(k) + s;
      assert padded[..|padded| - 1] == Zeros(k) + s[..n];
      assert padded[|padded| - 1] == s[n];
    }
  }

  lemma {:induction false} ZerosSnoc(k: nat)
    ensures |Zeros(k)| == k
    ensures Zeros(k + 1) == Zeros(k) + ['0']
  {
    if k > 0 {
      ZerosSnoc(k - 1);
    }
  }

  lemma {:induction false} Pad7Parses(n: nat)
    ensures |Pad7(n)| >= 7 && AllDigits(Pad7(n)) && ParseDigits(Pad7(n)) == n
  {
    DigitsParse(n);
    var d := Digits(n);
    hide Digits, Zeros, ParseDigits;
    if |d| < 7 {
      ZerosParse(7 - |d|, d);
      ZerosSnoc(7 - |d|);
    }
  }

  lemma {:induction false} DigitsFit(n: nat, k: nat)
    requires k > 0 && n < Power10(k)
    ensures |Digits(n)| <= k
    decreases k
  {
    if n >= 10 {
      var p := Power10(k - 1);
      assert n / 10 < p;
      hide Power10;
      DigitsFit(n / 10, k - 1);
    }
  }

  function Power10(k: nat): nat {
    if k == 0 then 1 else 10 * Power10(k - 1)
  }

  /** Seven digits print every ticket number of a letter. */
  lemma {:induction false} Pad7Fits(n: nat)
    ensures n < 10_000_000 ==> |Pad7(n)| == 7
  {
    var d := Digits(n);
    if n < 10_000_000 {
      assert Power10(3) == 1000 && Power10(5) == 100_000 && Power10(7) == 10_000_000;
      DigitsFit(n, 7);
      ZerosSnoc(7 - |d|);
    }
  }

  /** Parsing the printed id gives back the letter and the number. */
  lemma {:induction false} TicketIdParses(letter: int, n: nat)
    requires IsLetter(letter)
    ensures var id := TicketId(letter, n);
            && |id| >= 8 && id[0] as int == letter
            && (n < 10_000_000 ==> |id| == 8)
            && AllDigits(id[1..])
            && ParseDigits(id[1..]) == n
  {
    hide Pad7, ParseDigits, AllDigits;
    Pad7Parses(n);
    Pad7Fits(n);
    assert TicketId(letter, n)[1..] == Pad7(n);
  }

  /** No two tickets handed out for one product print alike. */
  lemma {:induction false} IssuedIdsDiffer(c: Cursor, requests: seq<int>, i: nat, j: nat, m: nat, n: nat)
    requires ValidCursor(c) && Positive(requests)
    requires i <= j < |Serve(c, requests).grants|
    requires Serve(c, requests).grants[i].start <= m <= Serve(c, requests).grants[i].end
    requires Serve(c, requests).grants[j].start <= n <= Serve(c, requests).grants[j].end
    requires i != j || m != n
    ensures IsLetter(Serve(c, requests).grants[i].letter) && IsLetter(Serve(c, requests).grants[j].letter)
    ensures TicketId(Serve(c, requests).grants[i].letter, m) != TicketId(Serve(c, requests).grants[j].letter, n)
  {
    ServedInOrder(c, requests);
    var g, h := Serve(c, requests).grants[i], Serve(c, requests).grants[j];
    assert ValidGrant(g) && ValidGrant(h);
    TicketIdParses(g.letter, m);
    TicketIdParses(h.letter, n);
    if i < j {
      assert Last(g) < First(h);
    }
  }
}
