/**
 Person codes: Crockford Base32 numbers of fixed width, the generator that never repeats one, and
 the action codes printed from them and parsed back by scan intake.
 */
module PersonCodes {
  import opened Base

  const ALPHABET: string := "0123456789ABCDEFGHJKMNPQRSTVWXYZ"
  const RANDOM_SUFFIX_MAX := 0x1ff_ffff
  const SUFFIXES := 0x200_0000

  function Pow32(w: nat): (p: nat)
    ensures p > 0
  {
    if w == 0 then 1 else 32 * Pow32(w - 1)
  }

  /** The `width` low digits of `value`, most significant first. */
  function Digits(value: nat, width: nat): (s: string)
    ensures |s| == width
  {
    if width == 0 then "" else Digits(value / 32, width - 1) + [ALPHABET[value % 32]]
  }

  /** encodeCrockfordBase32; None stands for the RangeError. */
  method EncodeCrockfordBase32(value: nat, width: nat) returns (encoded: Option<string>)
    ensures encoded == if value < Pow32(width) then Some(Digits(value, width)) else None
  {
    var remaining: nat := value;
    var text := "";
    var position := 0;
    while position < width
      invariant 0 <= position <= width && |text| == position
      invariant Digits(remaining, width - position) + text == Digits(value, width)
      invariant remaining < Pow32(width - position) <==> value < Pow32(width)
    {
      ghost var rest := width - position - 1;
      assert Digits(remaining, rest + 1) + text == Digits(remaining / 32, rest) + ([ALPHABET[remaining % 32]] + text);
      text := [ALPHABET[remaining % 32]] + text;
      remaining := remaining / 32;
      position := position + 1;
    }
    assert Digits(remaining, 0) + text == text;
    encoded := if remaining != 0 then None else Some(text);
  }

  /** The character class [0-9A-HJKMNP-TV-Z] of the action-code and person-code patterns. */
  predicate InClass(c: char) {
    '0' <= c <= '9' || 'A' <= c <= 'H' || c == 'J' || c == 'K' || c == 'M' || c == 'N' || 'P' <= c <= 'T' || 'V' <= c <= 'Z'
  }

  function DigitOf(c: char): (d: nat)
    requires InClass(c)
    ensures d < 32
  {
    if c <= '9' then c as int - '0' as int
    else if c <= 'H' then c as int - 'A' as int + 10
    else if c <= 'K' then c as int - 'J' as int + 18
    else if c <= 'N' then c as int - 'M' as int + 20
    else if c <= 'T' then c as int - 'P' as int + 22
    else c as int - 'V' as int + 27
  }

  /** The alphabet is the character class in increasing order, so it grows with the digit. */
  lemma AlphabetDigit(d: nat)
    requires d < 32
    ensures |ALPHABET| == 32 && InClass(ALPHABET[d]) && DigitOf(ALPHABET[d]) == d
  {
  }

  // ---- the number is recovered, and order is kept --------------------------------------------------

  function Decode(s: string): nat
    requires forall c | c in s :: InClass(c)
    decreases |s|
  {
    if s == "" then 0 else Decode(s[..|s| - 1]) * 32 + DigitOf(s[|s| - 1])
  }

  lemma {:induction false} DigitsInClass(value: nat, width: nat)
    ensures forall c | c in Digits(value, width) :: InClass(c)
  {
    if width > 0 {
      DigitsInClass(value / 32, width - 1);
      AlphabetDigit(value % 32);
    }
  }

  /** A decoder inverts the encoding of every number that fits. */
  lemma {:induction false} DecodeInverts(value: nat, width: nat)
    requires value < Pow32(width)
    ensures forall c | c in Digits(value, width) :: InClass(c)
    ensures Decode(Digits(value, width)) == value
  {
    DigitsInClass(value, width);
    if width > 0 {
      DecodeInverts(value / 32, width - 1);
      AlphabetDigit(value % 32);
      assert Digits(value, width)[..width - 1] == Digits(value / 32, width - 1);
    }
  }

  /** Alphabetical order of strings. */
  predicate LexLess(s: string, t: string)
    decreases |s|
  {
    t != "" && (s == "" || s[0] < t[0] || (s[0] == t[0] && LexLess(s[1..], t[1..])))
  }

  lemma {:induction false} LexLessOfExtended(s: string, t: string, c: char, d: char)
    requires |s| == |t|
    ensures LexLess(s + [c], t + [d]) <==> LexLess(s, t) || (s == t && c < d)
    decreases |s|
  {
    if s == "" {
      assert (s + [c])[1..] == "" && (t + [d])[1..] == "";
    } else {
      assert (s + [c])[1..] == s[1..] + [c] && (t + [d])[1..] == t[1..] + [d];
      LexLessOfExtended(s[1..], t[1..], c, d);
      assert s == [s[0]] + s[1..] && t == [t[0]] + t[1..];
    }
  }

  lemma DigitOrder(d: nat, e: nat)
    requires d < 32 && e < 32
    ensures ALPHABET[d] < ALPHABET[e] <==> d < e
  {
    AlphabetDigit(d);
    AlphabetDigit(e);
  }

  /** Encodings of one width differ for different numbers. */
  lemma {:induction false} DigitsInjective(u: nat, v: nat, width: nat)
    requires u < Pow32(width) && v < Pow32(width)
    ensures Digits(u, width) == Digits(v, width) <==> u == v
  {
    DecodeInverts(u, width);
    DecodeInverts(v, width);
  }

  lemma DigitwiseOrder(u: nat, v: nat)
    ensures u < v <==> u / 32 < v / 32 || (u / 32 == v / 32 && u % 32 < v % 32)
  {
  }

  lemma DigitsStep(u: nat, v: nat, width: nat)
    requires width > 0
    ensures LexLess(Digits(u, width), Digits(v, width)) <==>
            LexLess(Digits(u / 32, width - 1), Digits(v / 32, width - 1))
            || (Digits(u / 32, width - 1) == Digits(v / 32, width - 1) && u % 32 < v % 32)
  {
    DigitOrder(u % 32, v % 32);
    LexLessOfExtended(Digits(u / 32, width - 1), Digits(v / 32, width - 1), ALPHABET[u % 32], ALPHABET[v % 32]);
  }

  /** Codes of the same width sort as their numbers do. */
  lemma {:induction false} OrderIsKept(u: nat, v: nat, width: nat)
    requires u < Pow32(width) && v < Pow32(width)
    ensures LexLess(Digits(u, width), Digits(v, width)) <==> u < v
    decreases width
  {
    if width > 0 {
      OrderIsKept(u / 32, v / 32, width - 1);
      DigitsInjective(u / 32, v / 32, width - 1);
      DigitsStep(u, v, width);
      DigitwiseOrder(u, v);
    }
  }

  // ---- person codes -------------------------------------------------------------------------------

  const SECOND_WIDTH := 7
  const SUFFIX_WIDTH := 5

  lemma Widths()
    ensures Pow32(SUFFIX_WIDTH) == SUFFIXES && Pow32(SECOND_WIDTH) == 0x8_0000_0000
  {
    assert Pow32(0) == 1 && Pow32(1) == 32 && Pow32(2) == 1024 && Pow32(3) == 32768;
    assert Pow32(4) == 0x10_0000 && Pow32(5) == 0x200_0000 && Pow32(6) == 0x4000_0000;
  }

  /** formatPersonCode; None stands for either RangeError. */
  function FormatPersonCode(unixSecond: nat, randomSuffix: int): Option<string> {
    if 0 <= randomSuffix <= RANDOM_SUFFIX_MAX && unixSecond < Pow32(SECOND_WIDTH)
    then Some(Digits(unixSecond, SECOND_WIDTH) + Digits(randomSuffix, SUFFIX_WIDTH)) else None
  }

  /** PERSON_CODE_PATTERN */
  predicate ValidPersonCode(code: string) {
    |code| == 12 && forall c | c in code :: InClass(c)
  }

  /** A code is well formed, and says which second and suffix it was made from. */
  lemma CodeIdentifies(s: nat, x: nat, t: nat, y: nat)
    requires s < Pow32(SECOND_WIDTH) && t < Pow32(SECOND_WIDTH) && x <= RANDOM_SUFFIX_MAX && y <= RANDOM_SUFFIX_MAX
    ensures FormatPersonCode(s, x).Some? && ValidPersonCode(FormatPersonCode(s, x).value)
    ensures FormatPersonCode(s, x) == FormatPersonCode(t, y) <==> (s, x) == (t, y)
  {
    Widths();
    DigitsInClass(s, SECOND_WIDTH);
    DigitsInClass(x, SUFFIX_WIDTH);
    DigitsInjective(s, t, SECOND_WIDTH);
    DigitsInjective(x, y, SUFFIX_WIDTH);
    var a, b := FormatPersonCode(s, x).value, FormatPersonCode(t, y).value;
    assert a[..7] == Digits(s, 7) && a[7..] == Digits(x, 5) && b[..7] == Digits(t, 7) && b[7..] == Digits(y, 5);
  }

  // ---- the generator ------------------------------------------------------------------------------

  datatype Stamp = Stamp(second: int, suffix: int)

  /** One call: the second of the clock and the 25 random bits drawn. */
  datatype Call = Call(second: nat, random: nat)

  function Next(last: Stamp, call: Call): Stamp {
    if call.second == last.second then Stamp(call.second, (last.suffix + 1) % SUFFIXES) else Stamp(call.second, call.random)
  }

  class PersonCodeGenerator {
    var lastSecond: int
    var lastSuffix: int

    constructor ()
      ensures lastSecond == -1 && lastSuffix == -1
    {
      lastSecond, lastSuffix := -1, -1;
    }

    function Last(): Stamp
      reads this
    {
      Stamp(lastSecond, lastSuffix)
    }

    method Generate(nowMs: nat, random: nat) returns (code: Option<string>)
      requires random <= RANDOM_SUFFIX_MAX && (lastSecond >= 0 ==> 0 <= lastSuffix <= RANDOM_SUFFIX_MAX)
      modifies this
      ensures Last() == Next(old(Last()), Call(nowMs / 1000, random))
      ensures lastSecond == nowMs / 1000 && 0 <= lastSuffix <= RANDOM_SUFFIX_MAX
      ensures code == FormatPersonCode(nowMs / 1000, lastSuffix)
    {
      var unixSecond := nowMs / 1000;
      var suffix := random;
      if unixSecond == lastSecond {
        suffix := (lastSuffix + 1) % SUFFIXES;
      }
      lastSecond := unixSecond;
      lastSuffix := suffix;
      Widths();
      var high := EncodeCrockfordBase32(unixSecond, SECOND_WIDTH);
      var low := EncodeCrockfordBase32(suffix, SUFFIX_WIDTH);
      code := if high.None? || low.None? then None else Some(high.value + low.value);
    }
  }

  /** The stamps a new generator gives to a sequence of calls. */
  function Stamps(calls: seq<Call>): (s: seq<Stamp>)
    ensures |s| == |calls|
    decreases |calls|
  {
    if calls == [] then []
    else
      var before := Stamps(calls[..|calls| - 1]);
      before + [Next(if before == [] then Stamp(-1, -1) else before[|before| - 1], calls[|calls| - 1])]
  }

  predicate ClockNeverGoesBack(calls: seq<Call>) {
    forall i, j | 0 <= i < j < |calls| :: calls[i].second <= calls[j].second
  }

  /** Some second has more than 2^25 calls: the one at i and the one 2^25 later are both in it. */
  predicate Crowded(calls: seq<Call>) {
    exists i | 0 <= i < |calls| - SUFFIXES :: calls[i].second == calls[i + SUFFIXES].second
  }

  lemma {:induction false} StampsPrefix(calls: seq<Call>, n: nat)
    requires n <= |calls|
    ensures Stamps(calls[..n]) == Stamps(calls)[..n]
    decreases |calls|
  {
    if n == |calls| {
      assert calls[..n] == calls;
    } else {
      StampsPrefix(calls[..|calls| - 1], n);
      assert calls[..|calls| - 1][..n] == calls[..n];
    }
  }

  /** Each stamp carries its call's second, and follows from the stamp before it. */
  lemma {:induction false} StampAt(calls: seq<Call>, j: nat)
    requires j < |calls|
    ensures Stamps(calls)[j].second == calls[j].second
    ensures j > 0 ==> Stamps(calls)[j] == Next(Stamps(calls)[j - 1], calls[j])
  {
    StampsPrefix(calls, j + 1);
    StampsPrefix(calls, j);
    assert calls[..j + 1][..j] == calls[..j] && calls[..j + 1][j] == calls[j];
  }

  /** Within one second the suffixes count up, modulo 2^25. */
  lemma {:induction false} SuffixesCountUp(calls: seq<Call>, i: nat, j: nat)
    requires ClockNeverGoesBack(calls) && i <= j < |calls| && calls[i].second == calls[j].second
    requires forall c | c in calls :: c.random <= RANDOM_SUFFIX_MAX
    ensures 0 <= Stamps(calls)[i].suffix <= RANDOM_SUFFIX_MAX
    ensures Stamps(calls)[j].suffix == (Stamps(calls)[i].suffix + (j - i)) % SUFFIXES
    decreases j
  {
    StampAt(calls, j);
    if i < j {
      StampAt(calls, j - 1);
      SuffixesCountUp(calls, i, j - 1);
    } else {
      assert calls[j].random <= RANDOM_SUFFIX_MAX by { assert calls[j] in calls; }
      if j > 0 { StampAt(calls, j - 1); }
      StampZero(calls);
    }
  }

  lemma {:induction false} StampZero(calls: seq<Call>)
    requires calls != []
    ensures Stamps(calls)[0] == Stamp(calls[0].second, calls[0].random)
  {
    StampsPrefix(calls, 1);
    assert calls[..1] == [calls[0]] && [calls[0]][..0] == [];
  }

  lemma {:induction false} RepeatIsCrowded(calls: seq<Call>, i: nat, j: nat)
    requires ClockNeverGoesBack(calls) && forall c | c in calls :: c.random <= RANDOM_SUFFIX_MAX
    requires i < j < |calls| && Stamps(calls)[i] == Stamps(calls)[j]
    ensures j - i >= SUFFIXES && calls[i].second == calls[i + SUFFIXES].second
  {
    StampAt(calls, i);
    StampAt(calls, j);
    SuffixesCountUp(calls, i, j);
    assert j - i >= SUFFIXES;
    assert i + SUFFIXES < j ==> calls[i + SUFFIXES].second <= calls[j].second;
  }

  lemma {:induction false} CrowdedRepeats(calls: seq<Call>, i: nat)
    requires ClockNeverGoesBack(calls) && forall c | c in calls :: c.random <= RANDOM_SUFFIX_MAX
    requires i + SUFFIXES < |calls| && calls[i].second == calls[i + SUFFIXES].second
    ensures Stamps(calls)[i] == Stamps(calls)[i + SUFFIXES]
  {
    StampAt(calls, i);
    StampAt(calls, i + SUFFIXES);
    SuffixesCountUp(calls, i, i + SUFFIXES);
  }

  /** Two calls got the same stamp. */
  ghost predicate Repeats(calls: seq<Call>) {
    exists i, j | 0 <= i < j < |calls| :: Stamps(calls)[i] == Stamps(calls)[j]
  }

  lemma RepeatingImpliesCrowded(calls: seq<Call>)
    requires ClockNeverGoesBack(calls) && forall c | c in calls :: c.random <= RANDOM_SUFFIX_MAX
    requires Repeats(calls)
    ensures Crowded(calls)
  {
    var i, j :| 0 <= i < j < |calls| && Stamps(calls)[i] == Stamps(calls)[j];
    RepeatIsCrowded(calls, i, j);
  }

  /**
   With a clock that never goes back, the generator repeats a stamp exactly if it is called more
   than 2^25 times within one second.
   */
  lemma RepeatsExactlyWhenCrowded(calls: seq<Call>)
    requires ClockNeverGoesBack(calls) && forall c | c in calls :: c.random <= RANDOM_SUFFIX_MAX
    ensures Repeats(calls) <==> Crowded(calls)
  {
    if Crowded(calls) {
      var i :| 0 <= i < |calls| - SUFFIXES && calls[i].second == calls[i + SUFFIXES].second;
      CrowdedRepeats(calls, i);
    } else if Repeats(calls) {
      RepeatingImpliesCrowded(calls);
    }
  }

  lemma {:induction false} StampInRange(calls: seq<Call>, i: nat)
    requires ClockNeverGoesBack(calls) && (forall c | c in calls :: c.random <= RANDOM_SUFFIX_MAX) && i < |calls|
    ensures Stamps(calls)[i].second == calls[i].second && 0 <= Stamps(calls)[i].suffix <= RANDOM_SUFFIX_MAX
  {
    StampAt(calls, i);
    SuffixesCountUp(calls, i, i);
  }

  /** The code handed out by call `i`. */
  function CodeOf(calls: seq<Call>, i: nat): Option<string>
    requires i < |calls|
  {
    FormatPersonCode(calls[i].second, Stamps(calls)[i].suffix)
  }

  lemma {:induction false} SameCodeSameStamp(calls: seq<Call>, i: nat, j: nat)
    requires ClockNeverGoesBack(calls) && (forall c | c in calls :: c.random <= RANDOM_SUFFIX_MAX && c.second < Pow32(SECOND_WIDTH))
    requires i < |calls| && j < |calls|
    ensures CodeOf(calls, i).Some?
    ensures CodeOf(calls, i) == CodeOf(calls, j) <==> Stamps(calls)[i] == Stamps(calls)[j]
  {
    StampInRange(calls, i);
    StampInRange(calls, j);
    assert calls[i] in calls && calls[j] in calls;
    CodeIdentifies(calls[i].second, Stamps(calls)[i].suffix, calls[j].second, Stamps(calls)[j].suffix);
  }

  /**
   Until the seventh digit of the second overflows, every call gets a code, and two calls get the
   same one exactly if more than 2^25 calls fell into one second.
   */
  lemma {:induction false} CodesAreUnique(calls: seq<Call>)
    requires ClockNeverGoesBack(calls) && (forall c | c in calls :: c.random <= RANDOM_SUFFIX_MAX && c.second < Pow32(SECOND_WIDTH))
    ensures forall i: nat | i < |calls| :: CodeOf(calls, i).Some?
    ensures (exists i: nat, j: nat | i < j < |calls| :: CodeOf(calls, i) == CodeOf(calls, j)) <==> Crowded(calls)
  {
    forall i: nat, j: nat | i < |calls| && j < |calls|
      ensures CodeOf(calls, i).Some? && (CodeOf(calls, i) == CodeOf(calls, j) <==> Stamps(calls)[i] == Stamps(calls)[j])
    {
      SameCodeSameStamp(calls, i, j);
    }
    RepeatsExactlyWhenCrowded(calls);
  }

  // ---- action codes -------------------------------------------------------------------------------

  datatype PersonAction = Entry | Exit

  /** The payload that createPersonActionCodeSpecs prints for a person code. */
  function Payload(action: PersonAction, code: string): string {
    (if action == Entry then "E" else "X") + code
  }

  function WithoutLineEnd(value: string): string {
    if |value| >= 2 && value[|value| - 2..] == "\r\n" then value[..|value| - 2]
    else if |value| >= 1 && (value[|value| - 1] == '\r' || value[|value| - 1] == '\n') then value[..|value| - 1]
    else value
  }

  /** parseActionCode; None stands for ACTION_CODE_INVALID. */
  function ParseActionCode(value: string): Option<(PersonAction, string)> {
    var raw := WithoutLineEnd(value);
    if |raw| == 13 && (raw[0] == 'E' || raw[0] == 'X') && (forall c | c in raw[1..] :: InClass(c))
    then Some((if raw[0] == 'E' then Entry else Exit, raw[1..])) else None
  }

  const LINE_ENDS: seq<string> := ["", "\r", "\n", "\r\n"]

  lemma LineEnds(end: string)
    ensures end in LINE_ENDS <==> end == "" || end == "\r" || end == "\n" || end == "\r\n"
  {
    assert LINE_ENDS[0] == "" && LINE_ENDS[1] == "\r" && LINE_ENDS[2] == "\n" && LINE_ENDS[3] == "\r\n";
  }

  /** Stripping takes exactly one line end off a text that does not itself end in one. */
  lemma StripsOneLineEnd(p: string, end: string)
    requires p != "" && p[|p| - 1] != '\r' && p[|p| - 1] != '\n' && end in LINE_ENDS
    ensures WithoutLineEnd(p + end) == p
  {
    LineEnds(end);
    var value := p + end;
    assert value[..|p|] == p && value[|p|..] == end;
    if end == "" {
      assert value == p;
    } else if end == "\r\n" {
      assert value[|value| - 2..] == "\r\n";
    } else {
      assert value[|value| - 2] == p[|p| - 1] && value[|value| - 1] == end[0];
    }
  }

  lemma StrippedIsLineEnd(value: string)
    ensures WithoutLineEnd(value) <= value && value[|WithoutLineEnd(value)|..] in LINE_ENDS
  {
    LineEnds(value[|WithoutLineEnd(value)|..]);
  }

  /** What the parser accepts is what the printer prints, followed by at most one line end. */
  lemma ParserInvertsPrinter(value: string, action: PersonAction, code: string)
    ensures ParseActionCode(value) == Some((action, code)) <==>
            ValidPersonCode(code) && exists end | end in LINE_ENDS :: value == Payload(action, code) + end
  {
    if ParseActionCode(value) == Some((action, code)) {
      StrippedIsLineEnd(value);
      var raw := WithoutLineEnd(value);
      assert raw == Payload(action, code) && value == raw + value[|raw|..];
    }
    if end :| ValidPersonCode(code) && end in LINE_ENDS && value == Payload(action, code) + end {
      PayloadEndsInClass(action, code);
      StripsOneLineEnd(Payload(action, code), end);
    }
  }

  lemma PayloadEndsInClass(action: PersonAction, code: string)
    requires ValidPersonCode(code)
    ensures var p := Payload(action, code);
            |p| == 13 && p[1..] == code && p[12] != '\r' && p[12] != '\n'
  {
    assert code[11] in code && Payload(action, code)[12] == code[11];
  }

  /** Every code the generator formats is accepted, for both actions and all four line ends. */
  lemma GeneratedCodesParse(unixSecond: nat, suffix: nat, action: PersonAction, end: string)
    requires unixSecond < Pow32(SECOND_WIDTH) && suffix <= RANDOM_SUFFIX_MAX && end in LINE_ENDS
    ensures FormatPersonCode(unixSecond, suffix).Some?
    ensures var code := FormatPersonCode(unixSecond, suffix).value;
            ParseActionCode(Payload(action, code) + end) == Some((action, code))
  {
    CodeIdentifies(unixSecond, suffix, unixSecond, suffix);
    var code := FormatPersonCode(unixSecond, suffix).value;
    ParserInvertsPrinter(Payload(action, code) + end, action, code);
  }

  // ---- what is printed ------------------------------------------------------------------------------------

  /** Digits and capital letters without the four that are easily misread. */
  predicate IsCrockford(c: char) {
    ('0' <= c <= '9' || 'A' <= c <= 'Z') && c != 'I' && c != 'L' && c != 'O' && c != 'U'
  }

  lemma CodesAreCrockford(code: string)
    ensures ValidPersonCode(code) <==> |code| == 12 && forall c | c in code :: IsCrockford(c)
  {
    if |code| == 12 && forall c | c in code :: IsCrockford(c) {
      forall c | c in code ensures InClass(c) { assert IsCrockford(c); }
    }
    if ValidPersonCode(code) {
      forall c | c in code ensures IsCrockford(c) { assert InClass(c); }
    }
  }

  /** A printed code reads E or X and then twelve of those characters; E enters and X leaves. */
  lemma ScansReadEntryAndExit(value: string, action: PersonAction, code: string)
    ensures ParseActionCode(value) == Some((action, code)) ==>
              && |value| >= 13 && value[1..13] == code && |code| == 12 && (forall c | c in code :: IsCrockford(c))
              && (value[0] == 'E' <==> action == Entry) && (value[0] == 'X' <==> action == Exit)
              && value[13..] in ["", "\r", "\n", "\r\n"]
    ensures |code| == 12 && (forall c | c in code :: IsCrockford(c)) ==>
              ParseActionCode("E" + code) == Some((Entry, code)) && ParseActionCode("X" + code) == Some((Exit, code))
  {
    CodesAreCrockford(code);
    if ParseActionCode(value) == Some((action, code)) {
      ParserInvertsPrinter(value, action, code);
      var end :| end in LINE_ENDS && value == Payload(action, code) + end;
      LineEnds(end);
      assert value[1..13] == code && value[13..] == end;
      assert ["", "\r", "\n", "\r\n"][0] == "" && ["", "\r", "\n", "\r\n"][1] == "\r";
      assert ["", "\r", "\n", "\r\n"][2] == "\n" && ["", "\r", "\n", "\r\n"][3] == "\r\n";
    }
    if ValidPersonCode(code) {
      LineEnds("");
      assert Payload(Entry, code) + "" == "E" + code && Payload(Exit, code) + "" == "X" + code;
      ParserInvertsPrinter("E" + code, Entry, code);
      ParserInvertsPrinter("X" + code, Exit, code);
    }
  }
}
