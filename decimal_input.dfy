/**
 * The amount inputs accept a keystroke only when the whole new text
 * matches `^\d*\.?\d*$`: ASCII digits, at most one '.', nothing else (no
 * sign, no exponent, no blank).
 */
module DecimalInput {
  import opened Text

  /** The regex read as a shape: the text splits at `k` into digits, then nothing or a '.' and digits. */
  predicate SplitsAt(s: string, k: int) {
    0 <= k <= |s| && AllDigits(s[..k]) && (k == |s| || (s[k] == '.' && AllDigits(s[k + 1..])))
  }

  ghost predicate DecimalShape(s: string) {
    exists k :: SplitsAt(s, k)
  }

  /** The length of the longest all-digit prefix. */
  function LeadingDigits(s: string): (k: nat)
    ensures k <= |s| && AllDigits(s[..k])
    ensures k < |s| ==> !IsDigit(s[k])
  {
    if s != [] && IsDigit(s[0]) then
      var k := 1 + LeadingDigits(s[1..]);
      assert forall i :: 1 <= i < k ==> s[..k][i] == s[1..][..k - 1][i - 1];
      k
    else 0
  }

  /** The number of '.' characters. */
  function Dots(s: string): nat {
    if s == [] then 0 else (if s[0] == '.' then 1 else 0) + Dots(s[1..])
  }

  predicate DigitsAndDots(s: string) {
    forall i :: 0 <= i < |s| ==> IsDigit(s[i]) || s[i] == '.'
  }

  /**
   * The matcher, scanning once: skip the leading digits, then accept the end
   * of the text or a '.' followed only by digits. It accepts exactly the
   * regex shape, and exactly the texts made of digits and at most one '.'.
   */
  function MatchesDecimal(s: string): (r: bool)
    ensures r <==> DecimalShape(s)
    ensures r <==> DigitsAndDots(s) && Dots(s) <= 1
  {
    var k := LeadingDigits(s);
    var r := k == |s| || (s[k] == '.' && AllDigits(s[k + 1..]));
    assert r ==> SplitsAt(s, k);
    ShapeAtLeadingDigits(s);
    CountingCharacterisation(s, k);
    r
  }

  /** A split can only happen after the longest digit prefix. */
  lemma ShapeAtLeadingDigits(s: string)
    ensures DecimalShape(s) ==> SplitsAt(s, LeadingDigits(s))
  {
    if DecimalShape(s) {
      var j :| SplitsAt(s, j);
      var k := LeadingDigits(s);
      assert j == k;
    }
  }

  lemma {:induction false} DotsAppend(a: string, b: string)
    ensures Dots(a + b) == Dots(a) + Dots(b)
    decreases |a|
  {
    if a == [] {
      assert a + b == b;
    } else {
      assert (a + b)[1..] == a[1..] + b;
      DotsAppend(a[1..], b);
    }
  }

  lemma {:induction false} DotsOfDigits(s: string)
    requires AllDigits(s)
    ensures Dots(s) == 0
    decreases |s|
  {
    if s != [] {
      assert AllDigits(s[1..]) by {
        assert forall i :: 0 <= i < |s| - 1 ==> s[1..][i] == s[i + 1];
      }
      DotsOfDigits(s[1..]);
    }
  }

  lemma {:induction false} DigitsWithoutDots(s: string)
    requires DigitsAndDots(s) && Dots(s) == 0
    ensures AllDigits(s)
    decreases |s|
  {
    if s != [] {
      assert DigitsAndDots(s[1..]) by {
        assert forall i :: 0 <= i < |s| - 1 ==> s[1..][i] == s[i + 1];
      }
      DigitsWithoutDots(s[1..]);
      assert forall i :: 1 <= i < |s| ==> s[i] == s[1..][i - 1];
    }
  }

  lemma CountingCharacterisation(s: string, k: nat)
    requires k == LeadingDigits(s)
    ensures (k == |s| || (s[k] == '.' && AllDigits(s[k + 1..]))) <==> DigitsAndDots(s) && Dots(s) <= 1
  {
    DotsAfterLeadingDigits(s, k);
    if k == |s| {
      assert forall i :: 0 <= i < |s| ==> s[i] == s[..k][i];
    } else {
      DotsAfterSplit(s, k);
      if s[k] == '.' && AllDigits(s[k + 1..]) {
        DotAndDigits(s, k);
      }
      if DigitsAndDots(s) && Dots(s) <= 1 {
        OneDotAtSplit(s, k);
      }
    }
  }

  /** The leading digits hold no '.'. */
  lemma DotsAfterLeadingDigits(s: string, k: nat)
    requires k == LeadingDigits(s)
    ensures Dots(s) == Dots(s[k..])
  {
    assert s == s[..k] + s[k..];
    DotsAppend(s[..k], s[k..]);
    DotsOfDigits(s[..k]);
  }

  lemma DotsAfterSplit(s: string, k: nat)
    requires k < |s|
    ensures Dots(s[k..]) == (if s[k] == '.' then 1 else 0) + Dots(s[k + 1..])
  {
    assert s[k..] == [s[k]] + s[k + 1..];
    DotsAppend([s[k]], s[k + 1..]);
  }

  lemma DotAndDigits(s: string, k: nat)
    requires k == LeadingDigits(s) && k < |s|
    requires s[k] == '.' && AllDigits(s[k + 1..])
    ensures DigitsAndDots(s) && Dots(s[k + 1..]) == 0
  {
    var rest := s[k + 1..];
    DotsOfDigits(rest);
    assert forall i :: k < i < |s| ==> s[i] == rest[i - k - 1];
    assert forall i :: 0 <= i < k ==> s[i] == s[..k][i];
  }

  lemma OneDotAtSplit(s: string, k: nat)
    requires k == LeadingDigits(s) && k < |s|
    requires DigitsAndDots(s) && Dots(s[k..]) <= 1
    requires Dots(s[k..]) == (if s[k] == '.' then 1 else 0) + Dots(s[k + 1..])
    ensures s[k] == '.' && AllDigits(s[k + 1..])
  {
    var rest := s[k + 1..];
    assert s[k] == '.';
    assert DigitsAndDots(rest) by {
      assert forall i :: 0 <= i < |rest| ==> rest[i] == s[i + k + 1];
    }
    DigitsWithoutDots(rest);
  }

  /** What an accepted keystroke does to the amount: the empty text means 0, any other is parsed. */
  datatype AmountEdit = Rejected | Zero | Parse(text: string)

  /** The amount input's `onChange`. */
  function AmountKeystroke(value: string): (e: AmountEdit)
    ensures e.Rejected? <==> !DecimalShape(value)
    ensures e.Zero? <==> value == ""
    ensures e.Parse? ==> e.text == value && value != "" && DigitsAndDots(value) && Dots(value) <= 1
  {
    if !MatchesDecimal(value) then Rejected
    else if value == "" then
      assert SplitsAt(value, 0);
      Zero
    else Parse(value)
  }

  /** A sign, an exponent or a second '.' is refused; a plain decimal is kept as typed. */
  lemma RejectedTexts()
    ensures AmountKeystroke("-1").Rejected?
    ensures AmountKeystroke("1e5").Rejected?
    ensures AmountKeystroke("1.2.3").Rejected?
    ensures AmountKeystroke("12.50") == Parse("12.50")
  {
    RejectedSign();
    RejectedExponent();
    RejectedSecondDot();
    AcceptedDecimal();
  }

  lemma RejectedSign()
    ensures !DigitsAndDots("-1")
  {
    assert "-1"[0] == '-';
  }

  lemma RejectedExponent()
    ensures !DigitsAndDots("1e5")
  {
    assert "1e5"[1] == 'e';
  }

  lemma RejectedSecondDot()
    ensures Dots("1.2.3") == 2
  {
  }

  lemma AcceptedDecimal()
    ensures DigitsAndDots("12.50") && Dots("12.50") == 1
  {
    assert forall i :: 0 <= i < 5 ==> "12.50"[i] in "0123456789.";
  }
}
