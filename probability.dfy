/**
 * `parseProbability`: a percentage such as `"23.4%"` becomes the number it
 * denotes divided by 100. The accepted shape is the regular expression
 * `^(\d+\.?\d*)\w*%$`; the value is the captured group read as a decimal.
 * Values are exact rationals here, where the program stores a float32.
 */
module Probability {
  import opened Wrappers
  import opened Strings

  datatype ProbabilityError = InvalidProbability(text: string)

  predicate DigitsIn(s: string, lo: int, hi: int)
    requires 0 <= lo <= hi <= |s|
  {
    forall x :: lo <= x < hi ==> IsDigit(s[x])
  }

  predicate WordCharsIn(s: string, lo: int, hi: int)
    requires 0 <= lo <= hi <= |s|
  {
    forall x :: lo <= x < hi ==> IsWordChar(s[x])
  }

  /** Length of the longest run of digits starting at `from` (what a greedy `\d*` takes). */
  function DigitRun(s: string, from: nat): (n: nat)
    requires from <= |s|
    ensures from + n <= |s| && DigitsIn(s, from, from + n)
    ensures from + n == |s| || !IsDigit(s[from + n])
    decreases |s| - from
  {
    if from < |s| && IsDigit(s[from]) then 1 + DigitRun(s, from + 1) else 0
  }

  /** `whole.fraction` read as a decimal number. */
  function DecimalNumber(whole: string, fraction: string): (v: real)
    requires AllDigits(whole) && AllDigits(fraction)
    ensures v >= 0.0
  {
    DigitsValue(whole) as real + DigitsValue(fraction) as real / Pow10(|fraction|) as real
  }

  /**
   * The regex match and the numeric conversion. The greedy capture ends at
   * `k`: the leading digits `p[..i]`, then a `.` when one follows them, then
   * the digits after it, `p[j..k]`. What lies between the capture and the
   * final `%` must be word characters and is otherwise ignored.
   */
  function ParseProbability(p: string): (r: Result<real, ProbabilityError>)
    ensures r.Err? ==> r.error == InvalidProbability(p)
    ensures r.Ok? ==> r.value >= 0.0
  {
    var i := DigitRun(p, 0);
    var j := if i < |p| && p[i] == '.' then i + 1 else i;
    var k := j + DigitRun(p, j);
    if 0 < i && k < |p| && p[|p| - 1] == '%' && WordCharsIn(p, k, |p| - 1) then
      assert AllDigits(p[..i]) && AllDigits(p[j..k]);
      Ok(DecimalNumber(p[..i], p[j..k]) / 100.0)
    else
      Err(InvalidProbability(p))
  }

  // ---------------------------------------------------------------------
  // The regular expression itself, as a split of the text into its parts:
  // `\d+` is p[..i], `\.?` is p[i..j], `\d*` is p[j..k], `\w*` is
  // p[k..|p|-1], and the last character is `%`.

  ghost predicate RegexSplit(p: string, i: int, j: int, k: int)
  {
    && 0 < i <= j <= k < |p|
    && DigitsIn(p, 0, i)
    && (j == i || (j == i + 1 && p[i] == '.'))
    && DigitsIn(p, j, k)
    && WordCharsIn(p, k, |p| - 1)
    && p[|p| - 1] == '%'
  }

  ghost predicate MatchesProbabilityRegex(p: string)
  {
    exists i, j, k :: RegexSplit(p, i, j, k)
  }

  lemma DigitRunCovers(s: string, from: nat, to: nat)
    requires from <= to <= |s| && DigitsIn(s, from, to)
    ensures from + DigitRun(s, from) >= to
    decreases (to as int) - from
  {
    if from < to {
      DigitRunCovers(s, from + 1, to);
    }
  }

  /** The text is accepted exactly when it matches `^(\d+\.?\d*)\w*%$`. */
  lemma ParseProbabilityAcceptsRegex(p: string)
    ensures ParseProbability(p).Ok? <==> MatchesProbabilityRegex(p)
  {
    var i := DigitRun(p, 0);
    var j := if i < |p| && p[i] == '.' then i + 1 else i;
    var k := j + DigitRun(p, j);
    if ParseProbability(p).Ok? {
      assert RegexSplit(p, i, j, k);
    }
    if MatchesProbabilityRegex(p) {
      var i', j', k' :| RegexSplit(p, i', j', k');
      DigitRunCovers(p, 0, i');
      assert p[|p| - 1] == '%' && !IsDigit(p[|p| - 1]);
      if i == i' {
        if p[i] == '.' {
          // the `.` cannot be left to `\w*`, which does not take it
          assert j' == i + 1;
        }
        assert j == j';
        DigitRunCovers(p, j, k');
        assert k' <= k < |p|;
      } else {
        // the greedy digits reach into what the split gave to `\w*`
        assert p[i'] != '.';
        assert j' == i' && WordCharsIn(p, i', |p| - 1);
        assert i <= |p| - 1;
        if i < |p| - 1 {
          assert IsWordChar(p[i]) && !IsDigit(p[i]);
        }
        assert j == i && k == i;
      }
      assert 0 < i && k < |p| && WordCharsIn(p, k, |p| - 1);
    }
  }

  /**
   * The capture is greedy: `\d+` takes all leading digits, `\.?` takes the
   * `.` when one follows them, and `\d*` all digits after that.
   */
  ghost predicate GreedySplit(p: string, i: int, j: int, k: int)
  {
    && RegexSplit(p, i, j, k)
    && !IsDigit(p[i])
    && (j == i ==> p[i] != '.')
    && !IsDigit(p[k])
  }

  /**
   * The value is the greedy capture read as a decimal, divided by 100: all
   * leading digits, then, if a `.` follows them, the `.` and all digits
   * after it.
   */
  lemma ParseProbabilityReadsGreedyCapture(p: string)
    requires ParseProbability(p).Ok?
    ensures exists i, j, k :: && GreedySplit(p, i, j, k)
                              && ParseProbability(p).value == DecimalNumber(p[..i], p[j..k]) / 100.0
  {
    var i := DigitRun(p, 0);
    var j := if i < |p| && p[i] == '.' then i + 1 else i;
    var k := j + DigitRun(p, j);
    assert RegexSplit(p, i, j, k);
    if j == i {
      assert k == i;
    }
    assert GreedySplit(p, i, j, k);
  }

  /**
   * There is only one greedy split, and the value is read from it: whatever
   * split of an accepted text is greedy, the value is its whole part and
   * fraction divided by 100.
   */
  lemma ParseProbabilityValueOfGreedySplit(p: string, i: int, j: int, k: int)
    requires GreedySplit(p, i, j, k)
    ensures AllDigits(p[..i]) && AllDigits(p[j..k])
    ensures ParseProbability(p) == Ok(DecimalNumber(p[..i], p[j..k]) / 100.0)
  {
    assert DigitRun(p, 0) == i by {
      DigitRunCovers(p, 0, i);
    }
    assert j + DigitRun(p, j) == k by {
      DigitRunCovers(p, j, k);
    }
    assert AllDigits(p[..i]) && AllDigits(p[j..k]);
  }

  /** The three values of the example configuration. */
  lemma ParseProbabilityExamples()
    ensures ParseProbability("5%") == Ok(0.05)
    ensures ParseProbability("23.4%") == Ok(0.234)
  {
    WholePercent("5%");
    FractionalPercent("23.4%");
  }

  lemma WholePercent(s: string)
    requires s == "5%"
    ensures ParseProbability(s) == Ok(0.05)
  {
    assert GreedySplit(s, 1, 1, 1);
    ParseProbabilityValueOfGreedySplit(s, 1, 1, 1);
    assert s[..1] == "5" && s[1..1] == "";
    assert DigitsValue("5") == 5 by { assert "5"[..0] == ""; }
  }

  lemma FractionalPercent(s: string)
    requires s == "23.4%"
    ensures ParseProbability(s) == Ok(0.234)
  {
    assert GreedySplit(s, 2, 3, 4);
    ParseProbabilityValueOfGreedySplit(s, 2, 3, 4);
    assert s[..2] == "23" && s[3..4] == "4";
    assert DigitsValue("23") == 23 by { assert "23"[..1] == "2" && "2"[..0] == ""; }
    assert DigitsValue("4") == 4 by { assert "4"[..0] == ""; }
  }

  /** Nothing is clamped: `"150%"` is accepted and gives 1.5. */
  lemma ParseProbabilityAboveOne()
    ensures ParseProbability("150%") == Ok(1.5)
  {
    var s := "150%";
    assert DigitRun(s, 3) == 0;
    assert DigitRun(s, 0) == 3;
    assert s[..3] == "150" && s[3..3] == "";
    assert DigitsValue("150") == 150 by {
      assert "150"[..2] == "15" && "15"[..1] == "1" && "1"[..0] == "";
    }
  }

  /** Unit characters between the number and `%` are ignored, digits among them too. */
  lemma ParseProbabilityIgnoresUnit()
    ensures ParseProbability("5abc%") == Ok(0.05)
    ensures ParseProbability("12a3%") == Ok(0.12)
  {
    UnitLettersIgnored("5abc%");
    UnitDigitsIgnored("12a3%");
  }

  lemma UnitLettersIgnored(s: string)
    requires s == "5abc%"
    ensures ParseProbability(s) == Ok(0.05)
  {
    assert GreedySplit(s, 1, 1, 1);
    ParseProbabilityValueOfGreedySplit(s, 1, 1, 1);
    assert s[..1] == "5" && s[1..1] == "";
    assert DigitsValue("5") == 5 by { assert "5"[..0] == ""; }
  }

  lemma UnitDigitsIgnored(s: string)
    requires s == "12a3%"
    ensures ParseProbability(s) == Ok(0.12)
  {
    assert GreedySplit(s, 2, 2, 2);
    ParseProbabilityValueOfGreedySplit(s, 2, 2, 2);
    assert s[..2] == "12" && s[2..2] == "";
    assert DigitsValue("12") == 12 by {
      assert "12"[..1] == "1" && "1"[..0] == "";
    }
  }

  /** A fraction with a leading zero keeps its place value. */
  lemma ParseProbabilityLeadingZeroFraction()
    ensures ParseProbability("2.01%") == Ok(0.0201)
  {
    var s := "2.01%";
    assert GreedySplit(s, 1, 2, 4);
    ParseProbabilityValueOfGreedySplit(s, 1, 2, 4);
    assert s[..1] == "2" && s[2..4] == "01";
    LeadingZeroValue("2", "01");
  }

  lemma LeadingZeroValue(whole: string, fraction: string)
    requires whole == "2" && fraction == "01"
    ensures AllDigits(whole) && AllDigits(fraction)
    ensures DecimalNumber(whole, fraction) == 2.01
  {
    assert DigitsValue(fraction) == 1 by { assert fraction[..1] == "0" && "0"[..0] == ""; }
    assert DigitsValue(whole) == 2 by { assert whole[..0] == ""; }
    assert Pow10(2) == 100;
  }

  /** Texts outside the grammar, each rejected with an error quoting it. */
  lemma ParseProbabilityRejects()
    ensures ParseProbability("") == Err(InvalidProbability(""))
    ensures ParseProbability("%") == Err(InvalidProbability("%"))
    ensures ParseProbability(".5%") == Err(InvalidProbability(".5%"))
    ensures ParseProbability("abc%") == Err(InvalidProbability("abc%"))
    ensures ParseProbability("5") == Err(InvalidProbability("5"))
    ensures ParseProbability("5% ") == Err(InvalidProbability("5% "))
    ensures ParseProbability("1.2.3%") == Err(InvalidProbability("1.2.3%"))
  {
    RejectsWithoutLeadingDigit("");
    RejectsWithoutLeadingDigit("%");
    RejectsWithoutLeadingDigit(".5%");
    RejectsWithoutLeadingDigit("abc%");
    RejectsWithoutPercent("5");
    RejectsWithoutPercent("5% ");
    RejectsSecondDot("1.2.3%");
  }

  /** `\d+` needs at least one digit at the very start. */
  lemma RejectsWithoutLeadingDigit(p: string)
    requires p == [] || !IsDigit(p[0])
    ensures ParseProbability(p) == Err(InvalidProbability(p))
  {
    assert DigitRun(p, 0) == 0;
  }

  /** The text must end in `%`. */
  lemma RejectsWithoutPercent(p: string)
    requires p == [] || p[|p| - 1] != '%'
    ensures ParseProbability(p) == Err(InvalidProbability(p))
  {
  }

  lemma RejectsSecondDot(p: string)
    requires p == "1.2.3%"
    ensures ParseProbability(p) == Err(InvalidProbability(p))
  {
    assert DigitRun(p, 0) == 1 by { assert DigitRun(p, 1) == 0; }
    assert DigitRun(p, 2) == 1 by { assert DigitRun(p, 3) == 0; }
    assert !IsWordChar(p[3]);
  }
}
