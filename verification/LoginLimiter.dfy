/**
 The fixed-window login limiter: the service with its mutable counter map, and what a run of calls
 lets through for one value of one dimension. HMAC fingerprints are treated as injective, so a key
 is the value it was computed from.
 */
module LoginLimiter {
  import opened Base

  const MAX_COUNTERS: nat := 20_000

  datatype Key = Ip(ip: string) | Tenant(tenant: string) | Identifier(identifier: string) | Composite(joined: string)

  datatype Counter = Counter(count: nat, resetAt: int)

  /** The five environment settings; numberSetting replaces anything that is not positive. */
  datatype Settings = Settings(window: int, perIp: nat, perTenant: nat, perIdentifier: nat, perComposite: nat) {
    predicate Positive() {
      window > 0 && perIp > 0 && perTenant > 0 && perIdentifier > 0 && perComposite > 0
    }

    function LimitOf(k: Key): nat {
      match k
      case Ip(_) => perIp
      case Tenant(_) => perTenant
      case Identifier(_) => perIdentifier
      case Composite(_) => perComposite
    }
  }

  /** One login attempt; `identifier` is already trimmed and in lower case. */
  datatype Call = Call(sourceIp: string, tenantId: string, identifier: string, now: int)

  function Keys(c: Call): (ks: seq<Key>)
    ensures |ks| == 4
  {
    [Ip(if c.sourceIp == "" then "unknown" else c.sourceIp), Tenant(c.tenantId), Identifier(c.identifier),
     Composite(c.sourceIp + "|" + c.tenantId + "|" + c.identifier)]
  }

  predicate NoBar(x: string) { '|' !in x }

  lemma BarStandsBehind(a: string, b: string, c: string, d: string)
    requires NoBar(c) && a + "|" + b == c + "|" + d
    ensures |c| <= |a|
  {
    var x := a + "|" + b;
    assert x[|a|] == '|';
    forall i | 0 <= i < |c| ensures x[i] == c[i] && c[i] != '|' { assert x == c + "|" + d && c[i] in c; }
  }

  /** What stands before the first bar, and what stands after it, are determined by the joined string. */
  lemma BarSplits(a: string, b: string, c: string, d: string)
    requires NoBar(a) && NoBar(c) && a + "|" + b == c + "|" + d
    ensures a == c && b == d
  {
    BarStandsBehind(a, b, c, d);
    BarStandsBehind(c, d, a, b);
    var x, y := a + "|" + b, c + "|" + d;
    assert a == x[..|a|] && c == y[..|c|];
    assert b == x[|a| + 1..] && d == y[|c| + 1..];
  }

  lemma CompositeIdentifies(c: Call, d: Call)
    requires NoBar(c.sourceIp) && NoBar(c.tenantId) && NoBar(d.sourceIp) && NoBar(d.tenantId)
    ensures Keys(c)[3] == Keys(d)[3] <==> c.sourceIp == d.sourceIp && c.tenantId == d.tenantId && c.identifier == d.identifier
  {
    if Keys(c)[3] == Keys(d)[3] {
      assert c.sourceIp + "|" + c.tenantId + "|" + c.identifier == c.sourceIp + "|" + (c.tenantId + "|" + c.identifier);
      assert d.sourceIp + "|" + d.tenantId + "|" + d.identifier == d.sourceIp + "|" + (d.tenantId + "|" + d.identifier);
      BarSplits(c.sourceIp, c.tenantId + "|" + c.identifier, d.sourceIp, d.tenantId + "|" + d.identifier);
      BarSplits(c.tenantId, c.identifier, d.tenantId, d.identifier);
    }
  }

  /**
   Two calls share a counter of one dimension exactly if they agree in that dimension's value, a missing
   address being the address "unknown"; counters of different dimensions are never shared; and each
   counts against its own limit. Addresses and tenant identifiers hold no bar, which joins the fourth.
   */
  lemma KeysNameTheirDimension(c: Call, d: Call, s: Settings)
    requires NoBar(c.sourceIp) && NoBar(c.tenantId) && NoBar(d.sourceIp) && NoBar(d.tenantId)
    ensures Keys(c)[0] == Keys(d)[0] <==>
              c.sourceIp == d.sourceIp || {c.sourceIp, d.sourceIp} == {"", "unknown"}
    ensures Keys(c)[1] == Keys(d)[1] <==> c.tenantId == d.tenantId
    ensures Keys(c)[2] == Keys(d)[2] <==> c.identifier == d.identifier
    ensures Keys(c)[3] == Keys(d)[3] <==> c.sourceIp == d.sourceIp && c.tenantId == d.tenantId && c.identifier == d.identifier
    ensures forall i, j | 0 <= i < 4 && 0 <= j < 4 && i != j :: Keys(c)[i] != Keys(d)[j]
    ensures s.LimitOf(Keys(c)[0]) == s.perIp && s.LimitOf(Keys(c)[1]) == s.perTenant
    ensures s.LimitOf(Keys(c)[2]) == s.perIdentifier && s.LimitOf(Keys(c)[3]) == s.perComposite
  {
    CompositeIdentifies(c, d);
    if c.sourceIp != d.sourceIp && Keys(c)[0] == Keys(d)[0] {
      assert "unknown" in {c.sourceIp, d.sourceIp} && "" in {c.sourceIp, d.sourceIp};
      assert {c.sourceIp, d.sourceIp} == {"", "unknown"};
    }
    if {c.sourceIp, d.sourceIp} == {"", "unknown"} {
      assert c.sourceIp in {"", "unknown"} && d.sourceIp in {"", "unknown"};
      assert "" in {c.sourceIp, d.sourceIp} && "unknown" in {c.sourceIp, d.sourceIp};
    }
  }

  // ---- one access to the map ------------------------------------------------------------------------

  function Prune(m: map<Key, Counter>, now: int): map<Key, Counter> {
    if |m| < MAX_COUNTERS then m else map k | k in m && m[k].resetAt > now :: m[k]
  }

  predicate Opens(m: map<Key, Counter>, k: Key, now: int) {
    if k in m then m[k].resetAt <= now else |m| < MAX_COUNTERS
  }

  /** What `increment` returns. */
  predicate Admits(m: map<Key, Counter>, k: Key, now: int, s: Settings) {
    Opens(m, k, now) || (k in m && m[k].resetAt > now && m[k].count + 1 <= s.LimitOf(k))
  }

  /** What `increment` leaves in the map. */
  function Increment(m: map<Key, Counter>, k: Key, now: int, s: Settings): map<Key, Counter> {
    if Opens(m, k, now) then m[k := Counter(1, now + s.window)]
    else if k in m then m[k := m[k].(count := m[k].count + 1)]
    else m
  }

  /** All increments run, also after one of them has refused. */
  function IncrementAll(m: map<Key, Counter>, ks: seq<Key>, now: int, s: Settings): map<Key, Counter>
    decreases |ks|
  {
    if ks == [] then m else Increment(IncrementAll(m, ks[..|ks| - 1], now, s), ks[|ks| - 1], now, s)
  }

  predicate AllAdmit(m: map<Key, Counter>, ks: seq<Key>, now: int, s: Settings)
    decreases |ks|
  {
    ks == [] || (AllAdmit(m, ks[..|ks| - 1], now, s)
                 && Admits(IncrementAll(m, ks[..|ks| - 1], now, s), ks[|ks| - 1], now, s))
  }

  function AfterCall(m: map<Key, Counter>, c: Call, s: Settings): map<Key, Counter> {
    IncrementAll(Prune(m, c.now), Keys(c), c.now, s)
  }

  predicate Allowed(m: map<Key, Counter>, c: Call, s: Settings) {
    AllAdmit(Prune(m, c.now), Keys(c), c.now, s)
  }

  // ---- the service ----------------------------------------------------------------------------------

  class LoginRateLimiterService {
    var counters: map<Key, Counter>

    constructor ()
      ensures counters == map[]
    {
      counters := map[];
    }

    /** The map is walked and expired counters are deleted as they are met. */
    method PruneCounters(now: int)
      modifies this
      ensures counters == Prune(old(counters), now)
    {
      if |counters| < MAX_COUNTERS { return; }
      ghost var before := counters;
      var left := counters.Keys;
      while left != {}
        invariant left <= before.Keys
        invariant counters == map k | k in before && (k in left || before[k].resetAt > now) :: before[k]
        decreases left
      {
        var k :| k in left;
        if counters[k].resetAt <= now {
          counters := map l | l in counters && l != k :: counters[l];
        }
        left := left - {k};
      }
    }

    method IncrementCounter(k: Key, limit: nat, now: int, s: Settings) returns (ok: bool)
      requires limit == s.LimitOf(k)
      modifies this
      ensures counters == Increment(old(counters), k, now, s)
      ensures ok == Admits(old(counters), k, now, s)
    {
      if k !in counters || counters[k].resetAt <= now {
        if k !in counters && |counters| >= MAX_COUNTERS {
          return false;
        }
        counters := counters[k := Counter(1, now + s.window)];
        return true;
      }
      counters := counters[k := Counter(counters[k].count + 1, counters[k].resetAt)];
      ok := counters[k].count <= limit;
    }

    method Allow(c: Call, s: Settings) returns (ok: bool)
      modifies this
      ensures counters == AfterCall(old(counters), c, s)
      ensures ok == Allowed(old(counters), c, s)
    {
      PruneCounters(c.now);
      ghost var pruned := counters;
      var ks := Keys(c);
      ok := true;
      for i := 0 to |ks|
        invariant counters == IncrementAll(pruned, ks[..i], c.now, s)
        invariant ok == AllAdmit(pruned, ks[..i], c.now, s)
      {
        assert ks[..i + 1][..i] == ks[..i];
        var one := IncrementCounter(ks[i], s.LimitOf(ks[i]), c.now, s);
        ok := ok && one;
      }
      assert ks[..|ks|] == ks;
    }
  }

  // ---- what one key lets through --------------------------------------------------------------------

  /** An admitted increment, with the start of the counter's window at that time. */
  datatype Entry = Entry(time: int, start: int)

  function InWindow(log: seq<Entry>, start: int): nat
    decreases |log|
  {
    if log == [] then 0
    else InWindow(log[..|log| - 1], start) + (if log[|log| - 1].start == start then 1 else 0)
  }

  function InSpan(log: seq<Entry>, from: int, length: int): nat
    decreases |log|
  {
    if log == [] then 0
    else InSpan(log[..|log| - 1], from, length) + (if from <= log[|log| - 1].time < from + length then 1 else 0)
  }

  /** Entries lie in their windows, windows do not overlap, and none holds more than the limit. */
  ghost predicate WindowsOk(log: seq<Entry>, limit: nat, window: int) {
    && (forall e | e in log :: e.start <= e.time < e.start + window)
    && (forall d, e | d in log && e in log :: d.start == e.start || d.start + window <= e.start || e.start + window <= d.start)
    && (forall start: int :: InWindow(log, start) <= limit)
  }

  function Min(x: nat, y: nat): nat { if x <= y then x else y }

  /** The log of key `k` agrees with its counter; `last` is the latest clock reading so far. */
  ghost predicate Tracks(m: map<Key, Counter>, log: seq<Entry>, last: int, k: Key, s: Settings) {
    && WindowsOk(log, s.LimitOf(k), s.window)
    && (forall e | e in log :: e.time <= last)
    && (k in m ==>
          var start := m[k].resetAt - s.window;
          && start <= last && m[k].count > 0
          && InWindow(log, start) == Min(m[k].count, s.LimitOf(k))
          && forall e | e in log :: e.start == start || e.start + s.window <= start)
    && (k !in m ==> forall e | e in log :: e.start + s.window <= last)
  }

  /** The log grows by one entry when `k` itself is incremented and admitted. */
  function Logged(log: seq<Entry>, m: map<Key, Counter>, k: Key, hit: Key, now: int, s: Settings): seq<Entry> {
    if hit != k || !Admits(m, k, now, s) then log
    else log + [Entry(now, if Opens(m, k, now) || k !in m then now else m[k].resetAt - s.window)]
  }

  lemma {:induction false} InWindowGrows(log: seq<Entry>, e: Entry, start: int)
    ensures InWindow(log + [e], start) == InWindow(log, start) + (if e.start == start then 1 else 0)
  {
    assert (log + [e])[..|log|] == log;
  }

  lemma {:induction false} NoEntryNoCount(log: seq<Entry>, start: int)
    requires forall e | e in log :: e.start != start
    ensures InWindow(log, start) == 0
    decreases |log|
  {
    if log != [] {
      assert log[|log| - 1] in log;
      forall e | e in log[..|log| - 1] ensures e in log {}
      NoEntryNoCount(log[..|log| - 1], start);
    }
  }

  lemma PruneTracks(m: map<Key, Counter>, log: seq<Entry>, last: int, k: Key, now: int, s: Settings)
    requires s.Positive() && Tracks(m, log, last, k, s) && last <= now
    ensures Tracks(Prune(m, now), log, now, k, s)
  {
  }

  lemma {:induction false} LimitKept(log: seq<Entry>, e: Entry, limit: nat)
    requires InWindow(log, e.start) < limit && forall start: int :: InWindow(log, start) <= limit
    ensures forall start: int :: InWindow(log + [e], start) <= limit
  {
    forall start: int ensures InWindow(log + [e], start) <= limit {
      InWindowGrows(log, e, start);
      assert InWindow(log, start) <= limit;
    }
  }

  /** One more entry, in the latest window or in a new one after it. */
  lemma {:induction false} WindowsGrow(log: seq<Entry>, e: Entry, limit: nat, window: int)
    requires WindowsOk(log, limit, window) && InWindow(log, e.start) < limit && e.start <= e.time < e.start + window
    requires forall d | d in log :: d.start == e.start || d.start + window <= e.start
    ensures WindowsOk(log + [e], limit, window)
  {
    LimitKept(log, e, limit);
    forall d | d in log + [e] ensures d in log || d == e {}
  }

  lemma OpeningTracks(m: map<Key, Counter>, log: seq<Entry>, last: int, k: Key, now: int, s: Settings)
    requires s.Positive() && Tracks(m, log, last, k, s) && last <= now && Opens(m, k, now)
    ensures Tracks(m[k := Counter(1, now + s.window)], log + [Entry(now, now)], now, k, s)
  {
    var e := Entry(now, now);
    forall d | d in log ensures d.start + s.window <= now {}
    NoEntryNoCount(log, now);
    InWindowGrows(log, e, now);
    WindowsGrow(log, e, s.LimitOf(k), s.window);
  }

  lemma CountingTracks(m: map<Key, Counter>, log: seq<Entry>, last: int, k: Key, now: int, s: Settings)
    requires s.Positive() && Tracks(m, log, last, k, s) && last <= now && k in m && m[k].resetAt > now && m[k].count < s.LimitOf(k)
    ensures Tracks(m[k := m[k].(count := m[k].count + 1)], log + [Entry(now, m[k].resetAt - s.window)], now, k, s)
  {
    var e := Entry(now, m[k].resetAt - s.window);
    InWindowGrows(log, e, e.start);
    WindowsGrow(log, e, s.LimitOf(k), s.window);
  }

  lemma RefusingTracks(m: map<Key, Counter>, log: seq<Entry>, last: int, k: Key, now: int, s: Settings)
    requires s.Positive() && Tracks(m, log, last, k, s) && last <= now && k in m && m[k].resetAt > now && m[k].count >= s.LimitOf(k)
    ensures Tracks(m[k := m[k].(count := m[k].count + 1)], log, now, k, s)
  {
  }

  /** A counter that is not touched goes on agreeing with its log. */
  lemma UntouchedTracks(m: map<Key, Counter>, m': map<Key, Counter>, log: seq<Entry>, last: int, k: Key, now: int, s: Settings)
    requires Tracks(m, log, last, k, s) && last <= now && (k in m' <==> k in m) && (k in m ==> m'[k] == m[k])
    ensures Tracks(m', log, now, k, s)
  {
  }

  lemma IncrementTracks(m: map<Key, Counter>, log: seq<Entry>, last: int, k: Key, hit: Key, now: int, s: Settings)
    requires s.Positive() && Tracks(m, log, last, k, s) && last <= now
    ensures Tracks(Increment(m, hit, now, s), Logged(log, m, k, hit, now, s), now, k, s)
  {
    var m', log' := Increment(m, hit, now, s), Logged(log, m, k, hit, now, s);
    if hit != k || (k !in m && !Opens(m, k, now)) {
      assert log' == log;
      UntouchedTracks(m, m', log, last, k, now, s);
    } else if Opens(m, k, now) {
      assert m' == m[k := Counter(1, now + s.window)] && log' == log + [Entry(now, now)];
      OpeningTracks(m, log, last, k, now, s);
    } else {
      assert m' == m[k := m[k].(count := m[k].count + 1)];
      if m[k].count < s.LimitOf(k) {
        assert log' == log + [Entry(now, m[k].resetAt - s.window)];
        CountingTracks(m, log, last, k, now, s);
      } else {
        assert log' == log;
        RefusingTracks(m, log, last, k, now, s);
      }
    }
  }

  // ---- runs -----------------------------------------------------------------------------------------

  /** The log of `k` over the increments of one call. */
  function LogKeys(log: seq<Entry>, m: map<Key, Counter>, ks: seq<Key>, k: Key, now: int, s: Settings): seq<Entry>
    decreases |ks|
  {
    if ks == [] then log
    else
      var before := ks[..|ks| - 1];
      Logged(LogKeys(log, m, before, k, now, s), IncrementAll(m, before, now, s), k, ks[|ks| - 1], now, s)
  }

  function Counters(calls: seq<Call>, s: Settings): map<Key, Counter>
    decreases |calls|
  {
    if calls == [] then map[] else AfterCall(Counters(calls[..|calls| - 1], s), calls[|calls| - 1], s)
  }

  /** Every admitted increment of `k` since the service started. */
  function Log(calls: seq<Call>, k: Key, s: Settings): seq<Entry>
    decreases |calls|
  {
    if calls == [] then []
    else
      var before, c := calls[..|calls| - 1], calls[|calls| - 1];
      LogKeys(Log(before, k, s), Prune(Counters(before, s), c.now), Keys(c), k, c.now, s)
  }

  /** Calls that were let through and involve `k`, in the half-open span of `length` from `from`. */
  function AllowedIn(calls: seq<Call>, k: Key, s: Settings, from: int, length: int): nat
    decreases |calls|
  {
    if calls == [] then 0
    else
      var before, c := calls[..|calls| - 1], calls[|calls| - 1];
      AllowedIn(before, k, s, from, length)
      + (if k in Keys(c) && Allowed(Counters(before, s), c, s) && from <= c.now < from + length then 1 else 0)
  }

  predicate ClockNeverGoesBack(calls: seq<Call>) {
    forall i, j | 0 <= i < j < |calls| :: calls[i].now <= calls[j].now
  }

  lemma {:induction false} KeysTrack(m: map<Key, Counter>, log: seq<Entry>, last: int, k: Key, ks: seq<Key>, now: int, s: Settings)
    requires s.Positive() && Tracks(m, log, last, k, s) && last <= now
    ensures ks != [] ==> Tracks(IncrementAll(m, ks, now, s), LogKeys(log, m, ks, k, now, s), now, k, s)
    decreases |ks|
  {
    if ks != [] {
      var before := ks[..|ks| - 1];
      KeysTrack(m, log, last, k, before, now, s);
      IncrementTracks(IncrementAll(m, before, now, s), LogKeys(log, m, before, k, now, s),
                      if before == [] then last else now, k, ks[|ks| - 1], now, s);
    }
  }

  /** Over every run with a clock that does not go back, log and counter agree. */
  lemma {:induction false} RunTracks(calls: seq<Call>, k: Key, s: Settings)
    requires s.Positive() && ClockNeverGoesBack(calls)
    ensures calls != [] ==> Tracks(Counters(calls, s), Log(calls, k, s), calls[|calls| - 1].now, k, s)
    decreases |calls|
  {
    if calls != [] {
      var before, c := calls[..|calls| - 1], calls[|calls| - 1];
      RunTracks(before, k, s);
      var last := if before == [] then c.now else before[|before| - 1].now;
      assert last <= c.now;
      PruneTracks(Counters(before, s), Log(before, k, s), last, k, c.now, s);
      KeysTrack(Prune(Counters(before, s), c.now), Log(before, k, s), c.now, k, Keys(c), c.now, s);
    }
  }

  // ---- bounds ---------------------------------------------------------------------------------------

  lemma {:induction false} SpanWithinTwoWindows(log: seq<Entry>, from: int, length: int, a: int, b: int)
    requires forall e | e in log && from <= e.time < from + length :: e.start == a || e.start == b
    ensures InSpan(log, from, length) <= InWindow(log, a) + InWindow(log, b)
    decreases |log|
  {
    if log != [] {
      var before := log[..|log| - 1];
      assert log[|log| - 1] in log;
      forall e | e in before ensures e in log {}
      SpanWithinTwoWindows(before, from, length, a, b);
    }
  }

  /** A half-open span as long as a window meets at most two windows. */
  lemma {:induction false} SpanMeetsTwoWindows(log: seq<Entry>, limit: nat, window: int, from: int)
    requires window > 0 && WindowsOk(log, limit, window)
    ensures InSpan(log, from, window) <= 2 * limit
  {
    var a, b := 0, 0;
    if d :| d in log && from <= d.time < from + window {
      a := d.start;
      b := a;
      if e :| e in log && from <= e.time < from + window && e.start != a { b := e.start; }
    }
    SpanWithinTwoWindows(log, from, window, a, b);
    assert InWindow(log, a) <= limit && InWindow(log, b) <= limit;
  }

  lemma {:induction false} SpanGrows(log: seq<Entry>, e: Entry, from: int, length: int)
    ensures InSpan(log + [e], from, length) == InSpan(log, from, length) + (if from <= e.time < from + length then 1 else 0)
  {
    assert (log + [e])[..|log|] == log;
  }

  lemma {:induction false} CallIsLogged(
    log: seq<Entry>, m: map<Key, Counter>, ks: seq<Key>, k: Key, now: int, s: Settings, from: int, length: int)
    ensures InSpan(LogKeys(log, m, ks, k, now, s), from, length) >=
            InSpan(log, from, length) + (if k in ks && AllAdmit(m, ks, now, s) && from <= now < from + length then 1 else 0)
    decreases |ks|
  {
    if ks != [] {
      var before, hit := ks[..|ks| - 1], ks[|ks| - 1];
      CallIsLogged(log, m, before, k, now, s, from, length);
      assert k in ks ==> k in before || k == hit;
      var sofar := LogKeys(log, m, before, k, now, s);
      var after := Logged(sofar, IncrementAll(m, before, now, s), k, hit, now, s);
      if after != sofar { SpanGrows(sofar, after[|after| - 1], from, length); }
    }
  }

  /** Whatever the other dimensions decide, a call that is let through is in the log of each of its keys. */
  lemma {:induction false} AllowedIsLogged(calls: seq<Call>, k: Key, s: Settings, from: int, length: int)
    ensures AllowedIn(calls, k, s, from, length) <= InSpan(Log(calls, k, s), from, length)
    decreases |calls|
  {
    if calls != [] {
      var before, c := calls[..|calls| - 1], calls[|calls| - 1];
      AllowedIsLogged(before, k, s, from, length);
      CallIsLogged(Log(before, k, s), Prune(Counters(before, s), c.now), Keys(c), k, c.now, s, from, length);
    }
  }

  /**
   Over every run with a clock that does not go back: for each value of each dimension at most
   twice the limit of calls are let through in any half-open interval as long as the window, and
   no fixed window admits more than the limit.
   */
  lemma {:induction false} AtMostTwiceTheLimit(calls: seq<Call>, k: Key, s: Settings, from: int)
    requires s.Positive() && ClockNeverGoesBack(calls)
    ensures AllowedIn(calls, k, s, from, s.window) <= 2 * s.LimitOf(k)
    ensures WindowsOk(Log(calls, k, s), s.LimitOf(k), s.window)
  {
    RunTracks(calls, k, s);
    AllowedIsLogged(calls, k, s, from, s.window);
    SpanMeetsTwoWindows(Log(calls, k, s), s.LimitOf(k), s.window, from);
  }

  lemma {:induction false} OthersLogNothing(log: seq<Entry>, m: map<Key, Counter>, ks: seq<Key>, k: Key, now: int, s: Settings)
    requires k !in ks
    ensures LogKeys(log, m, ks, k, now, s) == log
    decreases |ks|
  {
    if ks != [] {
      assert ks[|ks| - 1] in ks;
      OthersLogNothing(log, m, ks[..|ks| - 1], k, now, s);
    }
  }

  /** The map that the increment of the call's `i`-th key meets: after pruning and the increments before it. */
  function MetBy(calls: seq<Call>, c: Call, i: nat, s: Settings): map<Key, Counter>
    requires i <= 4
  {
    IncrementAll(Prune(Counters(calls, s), c.now), Keys(c)[..i], c.now, s)
  }

  predicate NoRoom(m: map<Key, Counter>, k: Key) {
    k !in m && |m| >= MAX_COUNTERS
  }

  /** The key's window is open and has already admitted its limit. */
  predicate Spent(m: map<Key, Counter>, log: seq<Entry>, k: Key, now: int, s: Settings) {
    k in m && now < m[k].resetAt && InWindow(log, m[k].resetAt - s.window) == s.LimitOf(k)
  }

  lemma {:induction false} MetTracks(calls: seq<Call>, c: Call, i: nat, s: Settings)
    requires s.Positive() && ClockNeverGoesBack(calls + [c]) && i < 4
    ensures Tracks(MetBy(calls, c, i, s), Log(calls, Keys(c)[i], s), c.now, Keys(c)[i], s)
  {
    var k, now := Keys(c)[i], c.now;
    assert ClockNeverGoesBack(calls) by {
      forall j | 0 <= j < |calls| ensures (calls + [c])[j] == calls[j] {}
    }
    RunTracks(calls, k, s);
    var last := if calls == [] then now else calls[|calls| - 1].now;
    assert last <= now by {
      assert (calls + [c])[|calls|] == c;
      if calls != [] { assert (calls + [c])[|calls| - 1] == calls[|calls| - 1]; }
    }
    PruneTracks(Counters(calls, s), Log(calls, k, s), last, k, now, s);
    var pruned := Prune(Counters(calls, s), now);
    KeysTrack(pruned, Log(calls, k, s), now, k, Keys(c)[..i], now, s);
    OthersLogNothing(Log(calls, k, s), pruned, Keys(c)[..i], k, now, s);
  }

  /**
   Exactness: in every run, the increment of each of a call's four keys is refused exactly if the
   map it meets has no room for it, or the key's window is open and has already admitted its limit.
   */
  lemma {:induction false} RefusalIsExact(calls: seq<Call>, c: Call, i: nat, s: Settings)
    requires s.Positive() && ClockNeverGoesBack(calls + [c]) && i < 4
    ensures var k, m := Keys(c)[i], MetBy(calls, c, i, s);
            !Admits(m, k, c.now, s) <==> NoRoom(m, k) || Spent(m, Log(calls, k, s), k, c.now, s)
  {
    MetTracks(calls, c, i, s);
  }

  predicate AdmitsAt(m: map<Key, Counter>, ks: seq<Key>, i: nat, now: int, s: Settings)
    requires i < |ks|
  {
    Admits(IncrementAll(m, ks[..i], now, s), ks[i], now, s)
  }

  lemma AdmitsAtPrefix(m: map<Key, Counter>, ks: seq<Key>, i: nat, now: int, s: Settings)
    requires i + 1 < |ks|
    ensures AdmitsAt(m, ks[..|ks| - 1], i, now, s) == AdmitsAt(m, ks, i, now, s)
  {
    assert ks[..|ks| - 1][..i] == ks[..i];
  }

  lemma {:induction false} AllAdmitMeansEach(m: map<Key, Counter>, ks: seq<Key>, now: int, s: Settings)
    ensures AllAdmit(m, ks, now, s) <==> forall i: nat | i < |ks| :: AdmitsAt(m, ks, i, now, s)
    decreases |ks|
  {
    if ks != [] {
      var before := ks[..|ks| - 1];
      AllAdmitMeansEach(m, before, now, s);
      forall i: nat | i < |before| ensures AdmitsAt(m, before, i, now, s) == AdmitsAt(m, ks, i, now, s) {
        AdmitsAtPrefix(m, ks, i, now, s);
      }
      assert AllAdmit(m, ks, now, s) <==> AllAdmit(m, before, now, s) && AdmitsAt(m, ks, |ks| - 1, now, s);
    }
  }

  /** A call is let through exactly if none of its four keys lacks room or has spent its window. */
  lemma {:induction false} CallIsLetThroughExactly(calls: seq<Call>, c: Call, s: Settings)
    requires s.Positive() && ClockNeverGoesBack(calls + [c])
    ensures Allowed(Counters(calls, s), c, s) <==>
            forall i: nat | i < 4 ::
              !NoRoom(MetBy(calls, c, i, s), Keys(c)[i]) && !Spent(MetBy(calls, c, i, s), Log(calls, Keys(c)[i], s), Keys(c)[i], c.now, s)
  {
    AllAdmitMeansEach(Prune(Counters(calls, s), c.now), Keys(c), c.now, s);
    forall i: nat | i < 4
      ensures !AdmitsAt(Prune(Counters(calls, s), c.now), Keys(c), i, c.now, s) <==>
              NoRoom(MetBy(calls, c, i, s), Keys(c)[i]) || Spent(MetBy(calls, c, i, s), Log(calls, Keys(c)[i], s), Keys(c)[i], c.now, s)
    {
      RefusalIsExact(calls, c, i, s);
    }
  }

  // ---- the map itself -------------------------------------------------------------------------------

  lemma PruneSize(m: map<Key, Counter>, now: int)
    ensures |Prune(m, now)| <= |m|
  {
    SubsetSize(Prune(m, now).Keys, m.Keys);
    assert |Prune(m, now).Keys| == |Prune(m, now)| && |m.Keys| == |m|;
  }

  lemma IncrementSize(m: map<Key, Counter>, k: Key, now: int, s: Settings)
    ensures |m| <= |Increment(m, k, now, s)| <= |m| + 1
    ensures |m| <= MAX_COUNTERS ==> |Increment(m, k, now, s)| <= MAX_COUNTERS
  {
    var m' := Increment(m, k, now, s);
    assert m'.Keys == if k in m || m' == m then m.Keys else m.Keys + {k};
    assert |m'.Keys| == |m'| && |m.Keys| == |m|;
  }

  lemma {:induction false} IncrementAllSize(m: map<Key, Counter>, ks: seq<Key>, now: int, s: Settings)
    ensures |m| <= |IncrementAll(m, ks, now, s)| <= |m| + |ks|
    ensures |m| <= MAX_COUNTERS ==> |IncrementAll(m, ks, now, s)| <= MAX_COUNTERS
    decreases |ks|
  {
    if ks != [] {
      var before := ks[..|ks| - 1];
      IncrementAllSize(m, before, now, s);
      IncrementSize(IncrementAll(m, before, now, s), ks[|ks| - 1], now, s);
    }
  }

  /** The map never holds more than MAX_COUNTERS entries, whatever the clock does. */
  lemma {:induction false} MapStaysBounded(calls: seq<Call>, s: Settings)
    ensures |Counters(calls, s)| <= 20_000
    decreases |calls|
  {
    if calls != [] {
      var before, c := calls[..|calls| - 1], calls[|calls| - 1];
      MapStaysBounded(before, s);
      PruneSize(Counters(before, s), c.now);
      IncrementAllSize(Prune(Counters(before, s), c.now), Keys(c), c.now, s);
    }
  }

  lemma {:induction false} UnexpiredStays(m: map<Key, Counter>, ks: seq<Key>, k: Key, now: int, s: Settings)
    requires k in m && m[k].resetAt > now
    ensures var m' := IncrementAll(m, ks, now, s); k in m' && m'[k].resetAt == m[k].resetAt && m'[k].count >= m[k].count
    decreases |ks|
  {
    if ks != [] { UnexpiredStays(m, ks[..|ks| - 1], k, now, s); }
  }

  /** A call removes only expired counters: an unexpired one keeps its deadline and its count never drops. */
  lemma CallKeepsUnexpired(m: map<Key, Counter>, c: Call, k: Key, s: Settings)
    requires k in m && m[k].resetAt > c.now
    ensures var m' := AfterCall(m, c, s); k in m' && m'[k].resetAt == m[k].resetAt && m'[k].count >= m[k].count
  {
    UnexpiredStays(Prune(m, c.now), Keys(c), k, c.now, s);
  }

  lemma {:induction false} NothingExpired(m: map<Key, Counter>, ks: seq<Key>, now: int, s: Settings)
    requires s.Positive() && forall k | k in m :: m[k].resetAt > now
    ensures forall k | k in IncrementAll(m, ks, now, s) :: IncrementAll(m, ks, now, s)[k].resetAt > now
    decreases |ks|
  {
    if ks != [] { NothingExpired(m, ks[..|ks| - 1], now, s); }
  }

  /**
   A new key is refused for lack of space while an expired counter still takes up space only if
   the call began with one to three places left: pruning looks at the size once, before the four
   increments. Otherwise a full map holds unexpired counters only.
   */
  lemma {:induction false} RefusedForSpace(m: map<Key, Counter>, c: Call, i: nat, expired: Key, s: Settings)
    requires s.Positive() && |m| <= MAX_COUNTERS && i < 4
    requires var m' := IncrementAll(Prune(m, c.now), Keys(c)[..i], c.now, s);
             Keys(c)[i] !in m' && |m'| >= MAX_COUNTERS && expired in m' && m'[expired].resetAt <= c.now
    ensures MAX_COUNTERS - 3 <= |m| < MAX_COUNTERS
  {
    var p := Prune(m, c.now);
    PruneSize(m, c.now);
    IncrementAllSize(p, Keys(c)[..i], c.now, s);
    if |m| >= MAX_COUNTERS { NothingExpired(p, Keys(c)[..i], c.now, s); }
  }
}
