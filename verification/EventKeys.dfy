/**
 The string keys under which the transport stores pending frames: a run event is
 keyed by its run and sequence, any other frame by a counter.
 */
module EventKeys {
  /** The decimal spelling JavaScript gives a nonnegative integer in a string concatenation. */
  function Decimal(n: nat): (s: string)
    ensures |s| > 0
    ensures forall i | 0 <= i < |s| :: '0' <= s[i] <= '9'
    ensures |s| == 1 <==> n < 10
  {
    if n < 10 then ['0' + n as char] else Decimal(n / 10) + ['0' + (n % 10) as char]
  }

  function EventKey(runId: string, sequence: nat): string {
    runId + ":" + Decimal(sequence)
  }

  function FrameKey(counter: nat): string {
    "frame:" + Decimal(counter)
  }

  lemma {:induction false} DecimalInjective(m: nat, n: nat)
    requires Decimal(m) == Decimal(n)
    ensures m == n
  {
    var s, t := Decimal(m), Decimal(n);
    assert s[|s| - 1] == t[|t| - 1];
    if m >= 10 {
      assert Decimal(m / 10) == s[..|s| - 1];
      assert Decimal(n / 10) == t[..|t| - 1];
      DecimalInjective(m / 10, n / 10);
    }
  }

  lemma LastColon(a: string, n: nat)
    ensures var s := a + ":" + Decimal(n);
            |a| < |s| && s[|a|] == ':' && forall i | |a| < i < |s| :: s[i] != ':'
  {
    var s := a + ":" + Decimal(n);
    forall i | |a| < i < |s| ensures s[i] != ':' {
      assert s[i] == Decimal(n)[i - |a| - 1];
    }
  }

  /** The part after the last colon is the number, whatever colons the prefix contains. */
  lemma SplitAtLastColon(a: string, m: nat, b: string, n: nat)
    requires a + ":" + Decimal(m) == b + ":" + Decimal(n)
    ensures a == b && m == n
  {
    var s, t := a + ":" + Decimal(m), b + ":" + Decimal(n);
    LastColon(a, m);
    LastColon(b, n);
    assert a == s[..|a|] == t[..|b|] == b;
    assert Decimal(m) == s[|a| + 1..] == t[|b| + 1..] == Decimal(n);
    DecimalInjective(m, n);
  }

  /** Two run events share a key exactly when they are the same run and sequence. */
  lemma EventKeyInjective(r1: string, s1: nat, r2: string, s2: nat)
    ensures EventKey(r1, s1) == EventKey(r2, s2) <==> r1 == r2 && s1 == s2
  {
    if EventKey(r1, s1) == EventKey(r2, s2) {
      SplitAtLastColon(r1, s1, r2, s2);
    }
  }

  /** Counter keys never repeat, and only a run that is literally named `frame` can meet one. */
  lemma FrameKeyInjective(c: nat, d: nat, runId: string, sequence: nat)
    ensures FrameKey(c) == FrameKey(d) <==> c == d
    ensures EventKey(runId, sequence) == FrameKey(c) <==> runId == "frame" && sequence == c
  {
    assert FrameKey(c) == "frame" + ":" + Decimal(c);
    assert FrameKey(d) == "frame" + ":" + Decimal(d);
    if FrameKey(c) == FrameKey(d) { SplitAtLastColon("frame", c, "frame", d); }
    if EventKey(runId, sequence) == FrameKey(c) { SplitAtLastColon(runId, sequence, "frame", c); }
  }
}
