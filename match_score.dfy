/** The match percent the recruiter's applicants list shows
    (static/portal.js:1067-1078): the application's score read as a number,
    0 when it is not finite; a value above 1 is taken as a percent already
    and rounded, any other value as a fraction and scaled by 100 first; the
    result is clamped to [0, 100]. */
module MatchScore {
  /** `Number(app.similarity_score)`: a finite value, or NaN / an infinity. */
  datatype RawScore = Finite(x: real) | NonFinite

  /** `Math.round(x)`: the nearest integer, halves rounded up. */
  function JsRound(x: real): (r: int)
    ensures r as real - 0.5 <= x < r as real + 0.5
  {
    (x + 0.5).Floor
  }

  function Clamp(n: int): (r: int)
    ensures 0 <= r <= 100
    ensures 0 <= n <= 100 ==> r == n
    ensures n < 0 ==> r == 0
    ensures n > 100 ==> r == 100
  {
    if n < 0 then 0 else if n > 100 then 100 else n
  }

  /** The percent the card shows. */
  function MatchPercent(s: RawScore): (r: int)
    ensures 0 <= r <= 100
  {
    var raw := if s.NonFinite? then 0.0 else s.x;
    var percent := if raw > 1.0 then JsRound(raw) else JsRound(raw * 100.0);
    Clamp(percent)
  }

  // ---------- Properties ----------

  /** A score that is not a finite number shows 0. */
  lemma NonFiniteShowsZero()
    ensures MatchPercent(NonFinite) == 0
  {
  }

  /** A value above 1 is a percent: it is rounded to the nearest integer
      and capped at 100. */
  lemma AboveOneIsPercent(x: real)
    requires x > 1.0
    ensures var r := MatchPercent(Finite(x));
      r == 100 || (r as real - 0.5 <= x < r as real + 0.5)
    ensures x < 99.5 ==> MatchPercent(Finite(x)) == JsRound(x)
    ensures x >= 99.5 ==> MatchPercent(Finite(x)) == 100
  {
  }

  /** A value of at most 1 is a fraction: a hundredfold is rounded, and
      negative values show 0. */
  lemma FractionIsScaled(x: real)
    requires x <= 1.0
    ensures var r := MatchPercent(Finite(x));
      r == 0 || (r as real - 0.5 <= x * 100.0 < r as real + 0.5)
    ensures x >= -0.005 ==> MatchPercent(Finite(x)) == JsRound(x * 100.0)
    ensures x < -0.005 ==> MatchPercent(Finite(x)) == 0
  {
  }

  /** A fraction of whole hundredths shows those hundredths, and a whole
      percent above 1 shows itself. */
  lemma WholeValuesExact(k: int)
    requires 0 <= k <= 100
    ensures MatchPercent(Finite(k as real / 100.0)) == k
    ensures k > 1 ==> MatchPercent(Finite(k as real)) == k
  {
    assert (k as real / 100.0) * 100.0 == k as real;
    RoundWhole(k);
  }

  lemma RoundWhole(k: int)
    ensures JsRound(k as real) == k
  {
  }

  /** The two readings meet at 1: 1 shows 100, but 1.2 is read as a percent
      and shows 1; 0.85 and 85 both show 85; 150 shows 100 and -5 shows 0. */
  lemma Examples()
    ensures MatchPercent(Finite(1.0)) == 100
    ensures MatchPercent(Finite(1.2)) == 1
    ensures MatchPercent(Finite(0.85)) == 85
    ensures MatchPercent(Finite(85.0)) == 85
    ensures MatchPercent(Finite(150.0)) == 100
    ensures MatchPercent(Finite(-5.0)) == 0
  {
    WholeValuesExact(100);
    WholeValuesExact(85);
    assert JsRound(1.2) == 1;
  }
}
