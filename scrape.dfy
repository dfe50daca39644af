/**
 * The two numeric scrapers of the worker, `clean_int` and `clean_float`.
 * Each searches free text for the leftmost match of a regular expression
 * (`\d+`, resp. `\d+(?:\.\d+)?`) and falls back to zero when nothing matches.
 * Only the ASCII digits '0'..'9' are digits here.
 */
module Scrape {
  import opened Wrappers

  predicate IsDigit(c: char)
  {
    '0' <= c <= '9'
  }

  predicate AllDigits(s: string)
  {
    forall k :: 0 <= k < |s| ==> IsDigit(s[k])
  }

  predicate NoDigit(s: string)
  {
    forall k :: 0 <= k < |s| ==> !IsDigit(s[k])
  }

  /** Python's `s or ""`: a missing text reads as the empty string. */
  function OrEmpty(s: Option<string>): string
  {
    s.GetOr("")
  }

  function DigitValue(c: char): nat
    requires IsDigit(c)
  {
    c as int - '0' as int
  }

  /** The number `int(s)` denotes for a string of decimal digits (leading zeros allowed). */
  function DecimalValue(s: string): nat
    requires AllDigits(s)
  {
    if s == [] then 0 else 10 * DecimalValue(s[..|s| - 1]) + DigitValue(s[|s| - 1])
  }

  /** The first position at or after `from` that holds a digit, or |s| if there is none. */
  function FirstDigit(s: string, from: nat): (k: nat)
    requires from <= |s|
    ensures from <= k <= |s|
    ensures k < |s| ==> IsDigit(s[k])
    ensures forall j :: from <= j < k ==> !IsDigit(s[j])
    decreases |s| - from
  {
    if from == |s| || IsDigit(s[from]) then from else FirstDigit(s, from + 1)
  }

  /** The end of the maximal run of digits that starts at `from`. */
  function RunEnd(s: string, from: nat): (k: nat)
    requires from <= |s|
    ensures from <= k <= |s|
    ensures forall j :: from <= j < k ==> IsDigit(s[j])
    ensures k < |s| ==> !IsDigit(s[k])
    decreases |s| - from
  {
    if from == |s| || !IsDigit(s[from]) then from else RunEnd(s, from + 1)
  }

  /** The half-open span [start, end) of a regular-expression match. */
  datatype Span = Span(start: nat, end: nat)

  /** [start, end) is the first digit of s followed by the longest run of digits. */
  predicate IsLeftmostRun(s: string, start: nat, end: nat)
  {
    && start < end <= |s|
    && (forall j :: 0 <= j < start ==> !IsDigit(s[j]))
    && (forall j :: start <= j < end ==> IsDigit(s[j]))
    && (end < |s| ==> !IsDigit(s[end]))
  }

  /** `re.search(r"\d+", s)`: the leftmost match, which is greedy. */
  function SearchDigits(s: string): (m: Option<Span>)
    ensures m.None? <==> NoDigit(s)
    ensures m.Some? ==> IsLeftmostRun(s, m.value.start, m.value.end)
  {
    var start := FirstDigit(s, 0);
    if start == |s| then None else Some(Span(start, RunEnd(s, start)))
  }

  /** The matched text of a run of digits. */
  function RunText(s: string, m: Span): (t: string)
    requires IsLeftmostRun(s, m.start, m.end)
    ensures AllDigits(t) && |t| == m.end - m.start > 0
  {
    s[m.start..m.end]
  }

  /**
   * The longest digit string `int()` converts: the default of
   * `sys.int_max_str_digits` since CPython 3.11. A longer string makes
   * `int()` raise `ValueError`.
   */
  const MaxIntDigits := 4300

  /** A digit run one digit too long for `int()`. */
  const OverlongRun := seq(MaxIntDigits + 1, _ => '1')

  /**
   * `clean_int`: the value of the first maximal run of digits, or 0 when
   * there is none; `None` stands for the `ValueError` that `int()` raises
   * on a run longer than `MaxIntDigits`.
   */
  function CleanInt(s: Option<string>): (n: Option<nat>)
    ensures NoDigit(OrEmpty(s)) ==> n == Some(0)
  {
    var text := OrEmpty(s);
    match SearchDigits(text)
    case None => Some(0)
    case Some(m) =>
      if m.end - m.start > MaxIntDigits then None else Some(DecimalValue(RunText(text, m)))
  }

  /**
   * The token `clean_float` matches: the digits before the point and,
   * when the pattern's optional group matched, the digits after it.
   * The model keeps the token; the float it converts to is not modelled.
   */
  datatype FloatToken = FloatToken(whole: string, fraction: Option<string>)

  /** The fallback `0.0`, written as the token it equals ("0"). */
  const ZeroToken := FloatToken("0", None)

  /** A well-formed token: a non-empty digit run, then optionally a non-empty digit run. */
  predicate IsNumberToken(t: FloatToken)
  {
    && t.whole != [] && AllDigits(t.whole)
    && (t.fraction.Some? ==> t.fraction.value != [] && AllDigits(t.fraction.value))
  }

  /** The optional group `(?:\.\d+)?` tried at position `end`: a point followed by at least one digit. */
  function FractionAt(s: string, end: nat): (f: Option<string>)
    requires end <= |s|
    ensures f.Some? <==> end + 1 < |s| && s[end] == '.' && IsDigit(s[end + 1])
    ensures f.Some? ==> f.value != [] && AllDigits(f.value)
  {
    if end + 1 < |s| && s[end] == '.' && IsDigit(s[end + 1])
    then Some(s[end + 1..RunEnd(s, end + 1)])
    else None
  }

  /** `clean_float`: the leftmost match of `\d+(?:\.\d+)?`, or the zero token. */
  function CleanFloat(s: Option<string>): (t: FloatToken)
    ensures IsNumberToken(t)
    ensures NoDigit(OrEmpty(s)) ==> t == ZeroToken
  {
    var text := OrEmpty(s);
    match SearchDigits(text)
    case None => ZeroToken
    case Some(m) => FloatToken(RunText(text, m), FractionAt(text, m.end))
  }

  /** Whatever precedes, a maximal digit run is the leftmost match when no digit comes before it. */
  lemma LeftmostRunOf(pre: string, run: string, post: string)
    requires NoDigit(pre) && run != [] && AllDigits(run)
    requires post == [] || !IsDigit(post[0])
    ensures var s := pre + run + post;
      SearchDigits(s) == Some(Span(|pre|, |pre| + |run|)) && s[|pre|..|pre| + |run|] == run
  {
    var s := pre + run + post;
    assert s[|pre|] == run[0];
    var m := SearchDigits(s).value;
    assert m.start == |pre|;
    assert s[|pre|..|pre| + |run|] == run;
  }

  /**
   * `clean_int` reads the first maximal digit run and ignores all text after
   * it; it fails exactly when that run is too long for `int()`.
   */
  lemma CleanIntOfRun(pre: string, run: string, post: string)
    requires NoDigit(pre) && run != [] && AllDigits(run)
    requires post == [] || !IsDigit(post[0])
    ensures CleanInt(Some(pre + run + post)) == if |run| <= MaxIntDigits then Some(DecimalValue(run)) else None
  {
    LeftmostRunOf(pre, run, post);
  }

  /** A run of 4301 digits makes `clean_int` fail, even with nothing else in the text. */
  lemma CleanIntRefusesOverlongRun()
    ensures CleanInt(Some(OverlongRun)) == None
  {
    CleanIntOfRun("", OverlongRun, "");
    assert "" + OverlongRun + "" == OverlongRun;
  }

  /** When the first digit run is not followed by a point and a digit, `clean_float` takes no fraction. */
  lemma CleanFloatOfRun(pre: string, run: string, post: string)
    requires NoDigit(pre) && run != [] && AllDigits(run)
    requires post == [] || !IsDigit(post[0])
    requires !(|post| >= 2 && post[0] == '.' && IsDigit(post[1]))
    ensures CleanFloat(Some(pre + run + post)) == FloatToken(run, None)
  {
    LeftmostRunOf(pre, run, post);
    var s := pre + run + post;
    var end := |pre| + |run|;
    if end + 1 < |s| {
      assert s[end] == post[0] && s[end + 1] == post[1];
    }
  }

  /** A digit run ends exactly where the first non-digit after it stands. */
  lemma RunEndAt(s: string, from: nat, to: nat)
    requires from <= to <= |s|
    requires forall j :: from <= j < to ==> IsDigit(s[j])
    requires to < |s| ==> !IsDigit(s[to])
    ensures RunEnd(s, from) == to
  {
  }

  lemma SliceOfConcat(a: string, b: string, c: string)
    ensures (a + b + c)[|a|..|a| + |b|] == b
    ensures forall j :: |a| <= j < |a| + |b| ==> (a + b + c)[j] == b[j - |a|]
  {
    assert (a + b + c)[|a|..|a| + |b|] == (a + b)[|a|..];
  }

  /** When the first digit run is followed by a point and a digit run, `clean_float` takes exactly that one fraction. */
  lemma CleanFloatOfFraction(pre: string, run: string, frac: string, post: string)
    requires NoDigit(pre) && run != [] && AllDigits(run)
    requires frac != [] && AllDigits(frac)
    requires post == [] || !IsDigit(post[0])
    ensures CleanFloat(Some(pre + run + ("." + frac + post))) == FloatToken(run, Some(frac))
  {
    var rest := "." + frac + post;
    LeftmostRunOf(pre, run, rest);
    var t := pre + run + ".";
    assert pre + run + rest == t + frac + post;
    FractionAfterPoint(t, frac, post);
  }

  /** After a point that ends `t`, the optional group takes exactly the digit run `frac`. */
  lemma FractionAfterPoint(t: string, frac: string, post: string)
    requires t != [] && t[|t| - 1] == '.'
    requires frac != [] && AllDigits(frac)
    requires post == [] || !IsDigit(post[0])
    ensures FractionAt(t + frac + post, |t| - 1) == Some(frac)
  {
    var s := t + frac + post;
    var stop := |t| + |frac|;
    assert s[|t| - 1] == '.' && s[|t|] == frac[0];
    SliceOfConcat(t, frac, post);
    assert stop < |s| ==> s[stop] == post[0];
    RunEndAt(s, |t|, stop);
  }

  /**
   * The whole part of `clean_float`'s token is the number `clean_int` reads
   * from the same text, unless it is too long for `int()`.
   */
  lemma CleanFloatWholeIsCleanInt(s: Option<string>)
    ensures var w := CleanFloat(s).whole;
      CleanInt(s) == if |w| <= MaxIntDigits then Some(DecimalValue(w)) else None
  {
    var text := OrEmpty(s);
    if SearchDigits(text).None? {
      assert DecimalValue("0") == 10 * DecimalValue("") + DigitValue('0');
    }
  }

  /** Text after the first run is ignored: "12ab34" gives 12. */
  lemma CleanIntIgnoresLaterDigits()
    ensures CleanInt(Some("12ab34")) == Some(12)
  {
    CleanIntOfRun("", "12", "ab34");
    assert "" + "12" + "ab34" == "12ab34";
    assert DecimalValue("12") == 10 * DecimalValue("1") + 2;
  }

  /** A sign is not part of a match: "-5" gives 5, never a negative number. */
  lemma CleanIntDropsSign()
    ensures CleanInt(Some("-5")) == Some(5)
  {
    CleanIntOfRun("-", "5", "");
    assert "-" + "5" + "" == "-5";
  }

  /** A point without a digit after it is not consumed: "5." gives 5. */
  lemma CleanFloatTrailingPoint()
    ensures CleanFloat(Some("5.")) == FloatToken("5", None)
  {
    CleanFloatOfRun("", "5", ".");
    assert "" + "5" + "." == "5.";
  }

  /** Only one fractional part is taken: "1.2.3" gives 1.2. */
  lemma CleanFloatOneFraction()
    ensures CleanFloat(Some("1.2.3")) == FloatToken("1", Some("2"))
  {
    CleanFloatOfFraction("", "1", "2", ".3");
    assert "" + "1" + ("." + "2" + ".3") == "1.2.3";
  }

  /** Text after the number is ignored: "78.5 pts" gives 78.5. */
  lemma CleanFloatScoreText()
    ensures CleanFloat(Some("78.5 pts")) == FloatToken("78", Some("5"))
  {
    CleanFloatOfFraction("", "78", "5", " pts");
    assert "" + "78" + ("." + "5" + " pts") == "78.5 pts";
  }

  /** No input and text without digits both give zero, and neither fails. */
  lemma ScrapersDefaultToZero(s: Option<string>)
    requires s.None? || NoDigit(s.value)
    ensures CleanInt(s) == Some(0) && CleanFloat(s) == ZeroToken
  {
  }
}
