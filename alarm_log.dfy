/**
 * The bounded alarm history of the counting service: `createAlarm` prepends the new
 * alarm and keeps the first 50 entries; `getCurrentStats` hands out the first 10
 * (opencv-person-counter/server/person-counter-service.js).
 */
module AlarmLog {
  import opened Types

  const AlarmCap: nat := 50
  const RecentAlarmCount: nat := 10

  function Min(a: int, b: int): int {
    if a <= b then a else b
  }

  function Digit(d: nat): char
    requires d < 10
  {
    "0123456789"[d]
  }

  predicate AllDigits(s: string) {
    forall i :: 0 <= i < |s| ==> '0' <= s[i] <= '9'
  }

  /** The number a string of decimal digits spells, most significant digit first. */
  function DigitsValue(s: string): nat
    requires AllDigits(s)
    decreases |s|
  {
    if s == [] then 0 else DigitsValue(s[..|s| - 1]) * 10 + (s[|s| - 1] as int - '0' as int)
  }

  /** `n.toString()` for the non-negative integer `Date.now()` returns. */
  function DecimalString(n: nat): (s: string)
    ensures 1 <= |s|
    ensures AllDigits(s)
    ensures DigitsValue(s) == n
    ensures |s| > 1 ==> s[0] != '0'
  {
    if n < 10 then [Digit(n)] else DecimalString(n / 10) + [Digit(n % 10)]
  }

  /**
   * `alarms.unshift(alarm)`, then `alarms.slice(0, 50)` when longer than 50: the new
   * alarm comes first, the old log follows, and only the first 50 entries are kept.
   */
  function Record(log: seq<Alarm>, a: Alarm): (r: seq<Alarm>)
    ensures |r| == Min(|log| + 1, AlarmCap)
    ensures r[0] == a
    ensures forall i :: 0 < i < |r| ==> r[i] == log[i - 1]
  {
    var grown := [a] + log;
    if |grown| > AlarmCap then grown[..AlarmCap] else grown
  }

  /** The first `min(n, |s|)` entries. */
  function Take<T>(s: seq<T>, n: nat): (r: seq<T>)
    ensures |r| == Min(n, |s|)
    ensures r == s[..|r|]
  {
    if |s| <= n then s else s[..n]
  }

  function Reverse<T>(s: seq<T>): seq<T>
    decreases |s|
  {
    if s == [] then [] else Reverse(s[1..]) + [s[0]]
  }

  /** The log after recording `alarms` in order, one `createAlarm` each. */
  function RecordAll(log: seq<Alarm>, alarms: seq<Alarm>): seq<Alarm>
    decreases |alarms|
  {
    if alarms == [] then log
    else Record(RecordAll(log, alarms[..|alarms| - 1]), alarms[|alarms| - 1])
  }

  lemma RecordTakesNewest(s: seq<Alarm>, a: Alarm)
    ensures Record(Take(s, AlarmCap), a) == Take([a] + s, AlarmCap)
  {
    var r, t := Record(Take(s, AlarmCap), a), Take([a] + s, AlarmCap);
    assert |r| == |t|;
    forall i | 0 <= i < |r| ensures r[i] == t[i] {
      if i > 0 {
        assert t[i] == ([a] + s)[i] == s[i - 1];
      }
    }
  }

  lemma ReverseSnoc(s: seq<Alarm>, a: Alarm)
    ensures Reverse(s + [a]) == [a] + Reverse(s)
    decreases |s|
  {
    if s == [] {
      assert [a][1..] == [];
    } else {
      assert (s + [a])[1..] == s[1..] + [a];
      ReverseSnoc(s[1..], a);
    }
  }

  /**
   * After any number of alarms, starting from a log within the cap, the log holds
   * the 50 most recent alarms, newest first: older ones are evicted first.
   */
  lemma {:induction false} RecordAllKeepsNewest(log: seq<Alarm>, alarms: seq<Alarm>)
    requires |log| <= AlarmCap
    ensures RecordAll(log, alarms) == Take(Reverse(alarms) + log, AlarmCap)
    decreases |alarms|
  {
    if alarms == [] {
      assert Reverse(alarms) + log == log;
    } else {
      var prefix, a := alarms[..|alarms| - 1], alarms[|alarms| - 1];
      RecordAllKeepsNewest(log, prefix);
      RecordTakesNewest(Reverse(prefix) + log, a);
      assert alarms == prefix + [a];
      ReverseSnoc(prefix, a);
      assert [a] + (Reverse(prefix) + log) == Reverse(alarms) + log;
    }
  }

  /** The cap holds whatever was recorded: the log never exceeds 50 entries. */
  lemma {:induction false} RecordAllBounded(log: seq<Alarm>, alarms: seq<Alarm>)
    requires |log| <= AlarmCap
    ensures |RecordAll(log, alarms)| <= AlarmCap
    ensures |alarms| > AlarmCap ==> |RecordAll(log, alarms)| == AlarmCap
  {
    RecordAllKeepsNewest(log, alarms);
    ReverseLength(alarms);
  }

  lemma {:induction false} ReverseLength<T>(s: seq<T>)
    ensures |Reverse(s)| == |s|
    decreases |s|
  {
    if s != [] {
      ReverseLength(s[1..]);
    }
  }
}
