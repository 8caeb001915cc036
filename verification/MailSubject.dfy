/** The subject line: two names cut down fairly to fit a 255-character column. */
module MailSubject {

  type CodePoint = nat

  const SPACE: CodePoint := 0x20
  const ELLIPSIS: CodePoint := 0x2026
  const OPEN: seq<CodePoint> := [0x3010]
  const CLOSE: seq<CodePoint> := [0x3011]
  const NOTICE: seq<CodePoint> := [0x304B, 0x3089, 0x306E, 0x304A, 0x77E5, 0x3089, 0x305B, 0x2D]
  const ENTRY_TEXT: seq<CodePoint> := [0x5165, 0x5BA4]
  const EXIT_TEXT: seq<CodePoint> := [0x9000, 0x5BA4]

  const SUBJECT_LIMIT := 255

  predicate IsControl(c: CodePoint) { c < 32 || c == 127 }

  /** singleLineMailText, over the code points of a name */
  function SingleLine(name: seq<CodePoint>): (r: seq<CodePoint>)
    ensures |r| == |name| && forall c | c in r :: !IsControl(c)
  {
    seq(|name|, i requires 0 <= i < |name| => if IsControl(name[i]) then SPACE else name[i])
  }

  function Frame(first: seq<CodePoint>, second: seq<CodePoint>, entry: bool): seq<CodePoint> {
    OPEN + first + CLOSE + OPEN + second + CLOSE + NOTICE + (if entry then ENTRY_TEXT else EXIT_TEXT)
  }

  /** A name that lost characters shows an ellipsis in place of its last remaining one. */
  function Display(kept: seq<CodePoint>, originalLength: nat): seq<CodePoint> {
    if |kept| < originalLength then (if kept == [] then [] else kept[..|kept| - 1]) + [ELLIPSIS] else kept
  }

  const BUDGET: nat := SUBJECT_LIMIT - |Frame([], [], true)|

  /**
   How many characters of each name survive, as a closed form: within the budget both do, a name
   of at most 120 is kept whole, and two longer names end at 120 and 121.
   */
  function Kept(first: nat, second: nat): (k: (nat, nat)) {
    if first + second <= BUDGET then (first, second)
    else if second <= 120 then (BUDGET - second, second)
    else if first <= 120 then (first, BUDGET - first)
    else (120, 121)
  }

  function Subject(tenantName: seq<CodePoint>, locationName: seq<CodePoint>, entry: bool): seq<CodePoint> {
    var a, b := SingleLine(tenantName), SingleLine(locationName);
    var k := Kept(|a|, |b|);
    if k.0 <= |a| && k.1 <= |b| then Frame(Display(a[..k.0], |a|), Display(b[..k.1], |b|), entry) else []
  }

  /** buildMailSubject: the loop drops one character of the longer name at a time, the first on a tie. */
  method BuildMailSubject(tenantName: seq<CodePoint>, locationName: seq<CodePoint>, entry: bool) returns (subject: seq<CodePoint>)
    ensures subject == Subject(tenantName, locationName, entry)
  {
    var a0, b0 := SingleLine(tenantName), SingleLine(locationName);
    var a, b := a0, b0;
    while |a| + |b| > BUDGET
      invariant |a| <= |a0| && a == a0[..|a|] && |b| <= |b0| && b == b0[..|b|]
      invariant Kept(|a|, |b|) == Kept(|a0|, |b0|)
      invariant |a| + |b| <= BUDGET ==> (|a|, |b|) == Kept(|a0|, |b0|)
      decreases |a| + |b|
    {
      if |a| >= |b| {
        a := a[..|a| - 1];
      } else {
        b := b[..|b| - 1];
      }
    }
    subject := Frame(Display(a, |a0|), Display(b, |b0|), entry);
  }

  /**
   The subject fits its column, holds no control character, keeps names that fit as they are,
   keeps a name of at most 120 characters whole however long the other is, and fills the column
   exactly when anything was cut.
   */
  lemma SubjectFits(tenantName: seq<CodePoint>, locationName: seq<CodePoint>, entry: bool)
    ensures var s := Subject(tenantName, locationName, entry);
            && |s| <= 255
            && (forall c | c in s :: !IsControl(c))
            && (|tenantName| + |locationName| > BUDGET ==> |s| == 255)
            && (|tenantName| + |locationName| <= BUDGET ==> s == Frame(SingleLine(tenantName), SingleLine(locationName), entry))
            && (|tenantName| <= 120 ==> OPEN + SingleLine(tenantName) + CLOSE <= s)
  {
    var a, b := SingleLine(tenantName), SingleLine(locationName);
    var k := Kept(|a|, |b|);
    assert |Frame([], [], true)| == 14 && |Frame([], [], false)| == 14;
    var x, y := Display(a[..k.0], |a|), Display(b[..k.1], |b|);
    assert a[..|a|] == a && b[..|b|] == b;
    forall c | c in Frame(x, y, entry) ensures !IsControl(c) {
      assert c in OPEN || c in x || c in CLOSE || c in y || c in NOTICE || c in ENTRY_TEXT || c in EXIT_TEXT;
    }
    if |tenantName| <= 120 {
      assert x == a;
      assert Frame(x, y, entry)[..|OPEN + x + CLOSE|] == OPEN + x + CLOSE;
    }
  }

  /** The name on one line: every control character has become a space, and every other one is there. */
  predicate OnOneLine(name: seq<CodePoint>, line: seq<CodePoint>) {
    |line| == |name| && forall i | 0 <= i < |name| :: line[i] == if name[i] < 32 || name[i] == 127 then 0x20 else name[i]
  }

  /** The name is shown whole, or its beginning with an ellipsis in the place of the next character. */
  predicate Shown(name: seq<CodePoint>, shown: seq<CodePoint>) {
    || OnOneLine(name, shown)
    || (0 < |shown| <= |name| && shown[|shown| - 1] == 0x2026 && OnOneLine(name[..|shown| - 1], shown[..|shown| - 1]))
  }

  lemma DisplayShows(name: seq<CodePoint>, n: nat)
    requires n <= |name| && (n == 0 ==> name == [])
    ensures Shown(name, Display(SingleLine(name)[..n], |name|))
    ensures n == |name| ==> OnOneLine(name, Display(SingleLine(name)[..n], |name|))
  {
    var line := SingleLine(name);
    assert OnOneLine(name, line);
    if n == |name| {
      assert line[..n] == line;
    } else {
      var shown := Display(line[..n], |name|);
      assert line[..n][..n - 1] == line[..n - 1] && shown[..n - 1] == line[..n - 1];
    }
  }

  /** The text between the names and at the end. */
  const FRAME_BETWEEN: seq<CodePoint> := [0x3011, 0x3010]
  const FRAME_BEFORE_WORD: seq<CodePoint> := [0x3011, 0x304B, 0x3089, 0x306E, 0x304A, 0x77E5, 0x3089, 0x305B, 0x2D]

  predicate Reads(s: seq<CodePoint>, a: seq<CodePoint>, b: seq<CodePoint>, entry: bool) {
    s == [0x3010] + a + FRAME_BETWEEN + b + FRAME_BEFORE_WORD + (if entry then [0x5165, 0x5BA4] else [0x9000, 0x5BA4])
  }

  lemma FrameReads(x: seq<CodePoint>, y: seq<CodePoint>, entry: bool)
    ensures Reads(Frame(x, y, entry), x, y, entry)
  {
    assert CLOSE + OPEN == FRAME_BETWEEN && CLOSE + NOTICE == FRAME_BEFORE_WORD;
    assert OPEN + x + CLOSE + OPEN + y + CLOSE + NOTICE == OPEN + x + (CLOSE + OPEN) + y + (CLOSE + NOTICE);
  }

  /**
   The subject is the two names in their brackets, tenant first, and the notice with the word of its own
   action. Each name is shown whole or cut with an ellipsis; names that fit are both shown whole.
   */
  lemma SubjectReads(tenantName: seq<CodePoint>, locationName: seq<CodePoint>, entry: bool)
    ensures exists a, b :: Reads(Subject(tenantName, locationName, entry), a, b, entry) && Shown(tenantName, a) && Shown(locationName, b)
                           && (|tenantName| + |locationName| <= 241 ==> OnOneLine(tenantName, a) && OnOneLine(locationName, b))
  {
    var a, b := SingleLine(tenantName), SingleLine(locationName);
    var k := Kept(|a|, |b|);
    assert |Frame([], [], true)| == 14;
    DisplayShows(tenantName, k.0);
    DisplayShows(locationName, k.1);
    var x, y := Display(a[..k.0], |a|), Display(b[..k.1], |b|);
    assert Subject(tenantName, locationName, entry) == Frame(x, y, entry);
    FrameReads(x, y, entry);
  }

  /** Whenever something is cut, neither name is cut below 120 characters, and a whole name stays whole. */
  lemma CutsAreFair(first: nat, second: nat)
    requires first + second > BUDGET
    ensures var k := Kept(first, second);
            && k.0 + k.1 == BUDGET && k.0 <= first && k.1 <= second
            && (k.0 < first ==> k.0 >= 120) && (k.1 < second ==> k.1 >= 121)
            && (first <= 120 ==> k.0 == first) && (second <= 120 ==> k.1 == second)
  {
    assert |Frame([], [], true)| == 14;
  }
}
