/** Names of run files in testkit/failures/store.py: their pattern, their order and the start time
    read from them. */
module RunNames {
  import opened Common

  predicate IsDigit(c: char) { '0' <= c <= '9' }

  predicate IsHex(c: char) { IsDigit(c) || 'a' <= c <= 'f' || 'A' <= c <= 'F' }

  /** Eight digits, T, six digits, Z. */
  predicate IsStamp(s: string) {
    && |s| == 16 && s[8] == 'T' && s[15] == 'Z'
    && (forall i :: 0 <= i < 15 && i != 8 ==> IsDigit(s[i]))
  }

  ghost predicate NameParts(name: string, stamp: string, commit: string, pid: string) {
    && name == stamp + "-" + commit + "-" + pid + ".jsonl"
    && IsStamp(stamp)
    && |commit| >= 7 && (forall c :: c in commit ==> IsHex(c))
    && |pid| >= 1 && (forall c :: c in pid ==> IsDigit(c))
  }

  /** The pattern a run file's name has to match. */
  ghost predicate IsRunName(name: string) {
    exists stamp, commit, pid :: NameParts(name, stamp, commit, pid)
  }

  lemma {:induction false} RunNameStamp(name: string)
    requires IsRunName(name)
    ensures |name| > 16 && IsStamp(name[..16])
  {
    var stamp, commit, pid :| NameParts(name, stamp, commit, pid);
    assert name[..16] == stamp;
  }

  function DigitOf(c: char): (d: nat)
    ensures d <= 9
  {
    if IsDigit(c) then c as int - '0' as int else 0
  }

  function Two(s: string, i: nat): nat
    requires i + 2 <= |s|
  {
    10 * DigitOf(s[i]) + DigitOf(s[i + 1])
  }

  function DaysIn(year: nat, month: nat): nat {
    if month == 2 then (if year % 4 == 0 && (year % 100 != 0 || year % 400 == 0) then 29 else 28)
    else if month in {4, 6, 9, 11} then 30
    else 31
  }

  /** The digits name a time of the calendar. */
  predicate IsTime(s: string)
    requires |s| == 16
  {
    var year, month, day := 100 * Two(s, 0) + Two(s, 2), Two(s, 4), Two(s, 6);
    && year >= 1 && 1 <= month <= 12 && 1 <= day <= DaysIn(year, month)
    && Two(s, 9) < 24 && Two(s, 11) < 60 && Two(s, 13) < 60
  }

  function Pow10(n: nat): (p: nat)
    ensures p >= 1
  {
    if n == 0 then 1 else 10 * Pow10(n - 1)
  }

  /** The digits as one number, a letter counting as zero.  Times compare as these numbers do. */
  function Value(s: string): nat
    decreases |s|
  {
    if s == [] then 0 else DigitOf(s[0]) * Pow10(|s| - 1) + Value(s[1..])
  }

  /** `_run_started`: the start time in the name, if it is one. */
  function Started(name: string): Option<nat> {
    if |name| >= 16 && IsTime(name[..16]) then Some(Value(name[..16])) else None
  }

  /** The time fields of a stamp, read as numbers. */
  function Year(s: string): nat requires |s| == 16 { 1000 * DigitOf(s[0]) + 100 * DigitOf(s[1]) + 10 * DigitOf(s[2]) + DigitOf(s[3]) }

  /** A stamp names a time iff its fields are in the ranges of the Gregorian calendar. */
  lemma {:induction false} TimeMeans(s: string)
    requires |s| == 16
    ensures IsTime(s) <==>
      && Year(s) >= 1 && 1 <= Two(s, 4) <= 12 && 1 <= Two(s, 6) <= LastDay(Year(s), Two(s, 4))
      && Two(s, 9) <= 23 && Two(s, 11) <= 59 && Two(s, 13) <= 59
  {
    assert Year(s) == 100 * Two(s, 0) + Two(s, 2);
    if 1 <= Two(s, 4) <= 12 {
      DaysMean(Year(s), Two(s, 4));
    }
  }

  /** The months' lengths, from January on, but for the leap day. */
  const Lengths: seq<nat> := [31, 28, 31, 30, 31, 30, 31, 31, 30, 31, 30, 31]

  predicate Leap(year: nat) {
    year % 400 == 0 || (year % 4 == 0 && year % 100 != 0)
  }

  function LastDay(year: nat, month: nat): nat {
    (if 1 <= month <= 12 then Lengths[month - 1] else 0) + (if month == 2 && Leap(year) then 1 else 0)
  }

  lemma {:induction false} DaysMean(year: nat, month: nat)
    requires 1 <= month <= 12
    ensures DaysIn(year, month) == LastDay(year, month)
  {
    assert year % 400 == 0 ==> year % 4 == 0;
  }

  // ---------------------------------------------------------------- names sort by time

  /** The order of Python strings. */
  predicate NameLeq(a: string, b: string)
    decreases |a|
  {
    a == [] || (b != [] && (a[0] < b[0] || (a[0] == b[0] && NameLeq(a[1..], b[1..]))))
  }

  lemma {:induction false} LeqPrefix(a: string, b: string, n: nat)
    requires NameLeq(a, b) && n <= |a| && n <= |b|
    ensures NameLeq(a[..n], b[..n])
    decreases n
  {
    if n > 0 && a[0] == b[0] {
      LeqPrefix(a[1..], b[1..], n - 1);
      assert a[..n][1..] == a[1..][..n - 1] && b[..n][1..] == b[1..][..n - 1];
    }
  }

  lemma {:induction false} ValueBound(s: string)
    ensures Value(s) < Pow10(|s|)
    decreases |s|
  {
    if s != [] {
      ValueBound(s[1..]);
      var p := Pow10(|s| - 1);
      Times(DigitOf(s[0]), 9, p);
    }
  }

  lemma {:induction false} Times(x: nat, y: nat, p: nat)
    requires x <= y
    ensures x * p <= y * p
  {
  }

  /** Digits and letters stand at the same places. */
  ghost predicate SameShape(a: string, b: string) {
    |a| == |b| && forall i :: 0 <= i < |a| ==> (IsDigit(a[i]) && IsDigit(b[i])) || a[i] == b[i]
  }

  lemma {:induction false} LeqValue(a: string, b: string)
    requires SameShape(a, b) && NameLeq(a, b)
    ensures Value(a) <= Value(b)
    decreases |a|
  {
    if a != [] {
      var p := Pow10(|a| - 1);
      if a[0] == b[0] {
        assert SameShape(a[1..], b[1..]) by {
          assert forall i :: 0 <= i < |a| - 1 ==> a[1..][i] == a[i + 1] && b[1..][i] == b[i + 1];
        }
        LeqValue(a[1..], b[1..]);
      } else {
        assert IsDigit(a[0]) && IsDigit(b[0]) && DigitOf(a[0]) + 1 <= DigitOf(b[0]);
        ValueBound(a[1..]);
        Times(DigitOf(a[0]) + 1, DigitOf(b[0]), p);
        assert (DigitOf(a[0]) + 1) * p == DigitOf(a[0]) * p + p;
      }
    }
  }

  lemma {:induction false} StampsSameShape(a: string, b: string)
    requires IsStamp(a) && IsStamp(b)
    ensures SameShape(a, b)
  {
  }

  /** Of two run names with valid times, the earlier in name order is not the later in time. */
  lemma {:induction false} NamesSortByTime(a: string, b: string)
    requires IsRunName(a) && IsRunName(b) && NameLeq(a, b)
    requires Started(a).Some? && Started(b).Some?
    ensures Started(a).value <= Started(b).value
  {
    RunNameStamp(a);
    RunNameStamp(b);
    LeqPrefix(a, b, 16);
    StampsSameShape(a[..16], b[..16]);
    LeqValue(a[..16], b[..16]);
  }
}
