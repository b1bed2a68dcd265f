/**
  Light estimation: two candidate luminance values computed from the Ch0 and
  Ch1 counts, and the rule that picks one of them or reports darkness.
  Arithmetic is exact `real`; every comparison the rule makes is also given
  in an equivalent integer form.
 */
module Light {
  import opened Wire

  /** Counts per lux for a 2.73 ms integration time and 1x gain. */
  const CPL: real := 2.73 * 1.0 / 20.0

  /** First candidate: Ch0 minus 1.75 times Ch1, scaled by CPL. */
  function Lum1(c0: int, c1: int): real
  {
    (1.0 * c0 as real - 1.75 * c1 as real) / CPL
  }

  /** Second candidate: 0.63 times Ch0 minus Ch1, scaled by CPL. */
  function Lum2(c0: int, c1: int): real
  {
    (0.63 * c0 as real - 1.00 * c1 as real) / CPL
  }

  function Max(a: real, b: real): real
  {
    if a < b then b else a
  }

  /**
    The selection rule: the first candidate when it is positive and strictly
    above the second, else the second when it is positive and strictly above
    the first, else 0.
   */
  function SelectLuminance(l1: real, l2: real): (r: real)
    ensures r >= 0.0
    ensures r == l1 || r == l2 || r == 0.0
  {
    if l1 > 0.0 && l1 > l2 then l1
    else if l2 > 0.0 && l2 > l1 then l2
    else 0.0
  }

  /** Each outcome of the rule, with both directions of its condition. */
  lemma SelectLuminanceBranches(l1: real, l2: real)
    ensures SelectLuminance(l1, l2) > 0.0 <==> l1 != l2 && (l1 > 0.0 || l2 > 0.0)
    ensures SelectLuminance(l1, l2) > 0.0 && SelectLuminance(l1, l2) == l1 <==> l1 > 0.0 && l1 > l2
    ensures SelectLuminance(l1, l2) > 0.0 && SelectLuminance(l1, l2) == l2 <==> l2 > 0.0 && l2 > l1
    ensures SelectLuminance(l1, l2) == 0.0 <==> !(l1 > 0.0 && l1 > l2) && !(l2 > 0.0 && l2 > l1)
  {
  }

  /**
    The rule as a reference: the larger of the two candidates and 0, except
    that equal candidates give 0 even when both are positive.
   */
  lemma SelectLuminanceReference(l1: real, l2: real)
    ensures SelectLuminance(l1, l2) == if l1 == l2 then 0.0 else Max(Max(l1, l2), 0.0)
  {
  }

  /** Strict comparisons: a tie gives 0 whatever the common value. */
  lemma TieGivesZero(l: real)
    ensures SelectLuminance(l, l) == 0.0
  {
  }

  /** The luminance the driver reports for one pair of channel counts. */
  function Luminance(c0: int, c1: int): (r: real)
    ensures r >= 0.0
    ensures r == Lum1(c0, c1) || r == Lum2(c0, c1) || r == 0.0
  {
    SelectLuminance(Lum1(c0, c1), Lum2(c0, c1))
  }

  /** The three comparisons the rule makes, restated exactly over integers. */
  lemma ComparisonsOverIntegers(c0: int, c1: int)
    ensures Lum1(c0, c1) > 0.0 <==> 4 * c0 > 7 * c1
    ensures Lum2(c0, c1) > 0.0 <==> 63 * c0 > 100 * c1
    ensures Lum1(c0, c1) > Lum2(c0, c1) <==> 37 * c0 > 75 * c1
    ensures Lum1(c0, c1) == Lum2(c0, c1) <==> 37 * c0 == 75 * c1
  {
  }

  /** Which candidate is reported, decided by integer comparisons alone. */
  lemma LuminanceOverIntegers(c0: int, c1: int)
    ensures Luminance(c0, c1) ==
      if 4 * c0 > 7 * c1 && 37 * c0 > 75 * c1 then Lum1(c0, c1)
      else if 63 * c0 > 100 * c1 && 75 * c1 > 37 * c0 then Lum2(c0, c1)
      else 0.0
  {
    ComparisonsOverIntegers(c0, c1);
  }

  /** For counts that cannot be negative, a positive first candidate implies a positive second one. */
  lemma Lum1PositiveImpliesLum2Positive(c0: int, c1: int)
    requires c0 >= 0 && c1 >= 0
    requires Lum1(c0, c1) > 0.0
    ensures Lum2(c0, c1) > 0.0
  {
  }

  /** The first candidate is never reported unless Ch0 exceeds about 2.03 times Ch1. */
  lemma Lum1ReportedOnlyAboveRatio(c0: int, c1: int)
    ensures Luminance(c0, c1) > 0.0 && Luminance(c0, c1) == Lum1(c0, c1) ==> 37 * c0 > 75 * c1
  {
  }

  /** When Ch1 is at least 0.63 times Ch0, both candidates are non-positive and the result is 0. */
  lemma DarkWhenCh1Dominates(c0: int, c1: int)
    requires c0 >= 0 && 100 * c1 >= 63 * c0
    ensures Lum1(c0, c1) <= 0.0 && Lum2(c0, c1) <= 0.0
    ensures Luminance(c0, c1) == 0.0
  {
  }

  /** No light on either channel, or Ch1 ten times Ch0, reads as 0. */
  lemma DarkExamples()
    ensures Luminance(0, 0) == 0.0
    ensures Luminance(10, 100) == 0.0
  {
  }

  /** Ch0 = 500, Ch1 = 100: both candidates positive, the first (about 2381) is reported. */
  lemma BrightExample()
    ensures Lum1(500, 100) > Lum2(500, 100) > 0.0
    ensures Luminance(500, 100) == Lum1(500, 100)
    ensures 2380.0 < Luminance(500, 100) < 2382.0
  {
  }

  /** Equal positive candidates occur for real counts (Ch0 = 75, Ch1 = 37), and the rule reports 0. */
  lemma TieWithPositiveCandidatesIsReachable()
    ensures exists c0: Word, c1: Word ::
      Lum1(c0, c1) == Lum2(c0, c1) && Lum1(c0, c1) > 0.0 && Luminance(c0, c1) == 0.0
  {
    var c0: Word, c1: Word := 75, 37;
    assert Lum1(c0, c1) == Lum2(c0, c1) > 0.0;
    TieGivesZero(Lum1(c0, c1));
  }

  /** The second candidate is reported while the first is not positive (Ch0 = 17, Ch1 = 10). */
  lemma Lum2ReportedWithLum1NonPositiveIsReachable()
    ensures exists c0: Word, c1: Word ::
      Lum1(c0, c1) <= 0.0 < Lum2(c0, c1) && Luminance(c0, c1) == Lum2(c0, c1)
  {
    var c0: Word, c1: Word := 17, 10;
    assert Lum1(c0, c1) <= 0.0 < Lum2(c0, c1);
  }

  /** The largest luminance any pair of 16-bit counts can produce: all of Ch0 through the first candidate. */
  lemma LuminanceBound(c0: Word, c1: Word)
    ensures 0.0 <= Luminance(c0, c1) <= Lum1(0xFFFF, 0)
  {
  }
}
