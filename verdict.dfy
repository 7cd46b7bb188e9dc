/**
 * The verdict classifier: six fixed tiers, chosen by lower-closed breakpoints
 * tried from the highest down.
 */
module Verdicts {

  datatype Verdict = Verdict(name: string, grade: string, color: string, dialColor: string)

  const Excellent := Verdict("Excellent", "A+", "#22d97e", "#22d97e")
  const Great     := Verdict("Great", "A", "#22d97e", "#22d97e")
  const Good      := Verdict("Good", "B", "#00e5cc", "#00e5cc")
  const Fair      := Verdict("Fair", "C", "#f5c542", "#f5c542")
  const Poor      := Verdict("Poor", "D", "#ff7a35", "#ff7a35")
  const Critical  := Verdict("Critical", "F", "#ff4060", "#ff4060")

  /** `getVerdict` */
  function GetVerdict(score: int): (v: Verdict)
    ensures v == Excellent <==> score >= 90
    ensures v == Great <==> 80 <= score < 90
    ensures v == Good <==> 65 <= score < 80
    ensures v == Fair <==> 50 <= score < 65
    ensures v == Poor <==> 30 <= score < 50
    ensures v == Critical <==> score < 30
  {
    if score >= 90 then Excellent
    else if score >= 80 then Great
    else if score >= 65 then Good
    else if score >= 50 then Fair
    else if score >= 30 then Poor
    else Critical
  }

  /** The breakpoint table, highest first; a score below every breakpoint is Critical. */
  const Breakpoints: seq<(int, Verdict)> :=
    [(90, Excellent), (80, Great), (65, Good), (50, Fair), (30, Poor)]

  /** The verdict of the first breakpoint in `table` that `score` reaches. */
  function FirstReached(table: seq<(int, Verdict)>, score: int): Verdict
  {
    if table == [] then Critical
    else if score >= table[0].0 then table[0].1
    else FirstReached(table[1..], score)
  }

  /** The position of a verdict in the tier list, 0 for the best. */
  function Rank(v: Verdict): nat
  {
    if v == Excellent then 0 else if v == Great then 1 else if v == Good then 2
    else if v == Fair then 3 else if v == Poor then 4 else 5
  }

  /** The chain of `if`s is the breakpoint table read from the top. */
  lemma GetVerdictMatchesTable(score: int)
    ensures GetVerdict(score) == FirstReached(Breakpoints, score)
  {
    var t1, t2, t3, t4 := Breakpoints[1..], Breakpoints[2..], Breakpoints[3..], Breakpoints[4..];
    assert t1[1..] == t2 && t2[1..] == t3 && t3[1..] == t4 && t4[1..] == [];
    assert FirstReached(t4, score) == if score >= 30 then Poor else Critical;
    assert FirstReached(t3, score) == if score >= 50 then Fair else FirstReached(t4, score);
    assert FirstReached(t2, score) == if score >= 65 then Good else FirstReached(t3, score);
    assert FirstReached(t1, score) == if score >= 80 then Great else FirstReached(t2, score);
  }

  /** A higher score never yields a worse tier. */
  lemma GetVerdictMonotone(lo: int, hi: int)
    requires lo <= hi
    ensures Rank(GetVerdict(hi)) <= Rank(GetVerdict(lo))
  {
  }

  /** The breakpoints are closed below: 89 is Great, 90 is Excellent. */
  lemma GetVerdictBoundaries()
    ensures GetVerdict(89) == Great && GetVerdict(90) == Excellent
    ensures GetVerdict(79) == Good && GetVerdict(80) == Great
    ensures GetVerdict(64) == Fair && GetVerdict(65) == Good
    ensures GetVerdict(49) == Poor && GetVerdict(50) == Fair
    ensures GetVerdict(29) == Critical && GetVerdict(30) == Poor
  {
  }
}
