/**
 * Session identifiers and result file names.
 *
 * A session id is the current timestamp, an underscore and the decimal value
 * of the session counter. The counter is recovered from the id by reading the
 * digits after its last underscore, so ids built from different counter
 * values differ whatever the timestamps are.
 */
module SessionIds {

  /** The directory separator placed between the result directory and the file name. */
  const DirectorySeparator: char := '/'

  function DigitChar(d: nat): char
    requires d < 10
  {
    ('0' as int + d) as char
  }

  function DigitValue(c: char): nat
  {
    if '0' <= c <= '9' then c as int - '0' as int else 0
  }

  /** The decimal text of `n`, most significant digit first, as a non-negative int prints. */
  function Decimal(n: nat): (s: string)
    ensures |s| >= 1
    ensures forall i :: 0 <= i < |s| ==> '0' <= s[i] <= '9'
  {
    if n < 10 then [DigitChar(n)] else Decimal(n / 10) + [DigitChar(n % 10)]
  }

  /** The number a string of decimal digits denotes. */
  function DecimalValue(s: string): nat
  {
    if |s| == 0 then 0 else DecimalValue(s[..|s| - 1]) * 10 + DigitValue(s[|s| - 1])
  }

  lemma {:induction false} DecimalRoundTrip(n: nat)
    ensures DecimalValue(Decimal(n)) == n
  {
    var s := Decimal(n);
    if n < 10 {
      assert s[..|s| - 1] == [];
    } else {
      assert s[..|s| - 1] == Decimal(n / 10);
      DecimalRoundTrip(n / 10);
    }
  }

  /** The part of `s` after its last occurrence of `c` (all of `s` when `c` does not occur). */
  function AfterLast(s: string, c: char): string
  {
    if |s| == 0 then []
    else if s[|s| - 1] == c then []
    else AfterLast(s[..|s| - 1], c) + [s[|s| - 1]]
  }

  lemma {:induction false} AfterLastOfJoin(p: string, c: char, d: string)
    requires c !in d
    ensures AfterLast(p + [c] + d, c) == d
    decreases |d|
  {
    var q := p + [c] + d;
    if |d| == 0 {
      assert q == p + [c];
    } else {
      var d' := d[..|d| - 1];
      assert q[..|q| - 1] == p + [c] + d';
      assert q[|q| - 1] == d[|d| - 1];
      AfterLastOfJoin(p, c, d');
      assert d' + [d[|d| - 1]] == d;
    }
  }

  /** The id `InitSession` gives the session opened at time `now` with counter value `n`. */
  function CaptureId(now: string, n: nat): string
  {
    now + "_" + Decimal(n)
  }

  /** The counter value a session id was built from: the inverse of `CaptureId` in its counter. */
  function CounterOf(id: string): nat
  {
    DecimalValue(AfterLast(id, '_'))
  }

  lemma CounterOfCaptureId(now: string, n: nat)
    ensures CounterOf(CaptureId(now, n)) == n
  {
    var d := Decimal(n);
    assert forall i :: 0 <= i < |d| ==> d[i] != '_';
    assert CaptureId(now, n) == now + ['_'] + d;
    AfterLastOfJoin(now, '_', d);
    DecimalRoundTrip(n);
  }

  /** Sessions opened with different counter values have different ids, whatever their timestamps. */
  lemma CaptureIdInjective(now1: string, n1: nat, now2: string, n2: nat)
    ensures CaptureId(now1, n1) == CaptureId(now2, n2) ==> n1 == n2
  {
    CounterOfCaptureId(now1, n1);
    CounterOfCaptureId(now2, n2);
  }

  /** The gif's file name for session `id`. */
  function FileName(id: string): string
  {
    "GifRecorder_" + id + ".gif"
  }

  /** The path the gif of session `id` is written to, inside the result directory `dir`. */
  function ResultPath(dir: string, id: string): string
  {
    dir + [DirectorySeparator] + FileName(id)
  }

  /** Two sessions with different ids never share a result file. */
  lemma ResultPathInjective(dir: string, id1: string, id2: string)
    ensures ResultPath(dir, id1) == ResultPath(dir, id2) ==> id1 == id2
  {
    var pre := dir + [DirectorySeparator] + "GifRecorder_";
    assert ResultPath(dir, id1) == pre + id1 + ".gif";
    assert ResultPath(dir, id2) == pre + id2 + ".gif";
    if ResultPath(dir, id1) == ResultPath(dir, id2) {
      var p := ResultPath(dir, id1);
      assert |id1| == |id2|;
      assert id1 == p[|pre|..|pre| + |id1|];
      assert id2 == p[|pre|..|pre| + |id2|];
    }
  }
}
