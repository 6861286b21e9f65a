/** Group keys and table versions as text. */
module Numbers {
  import opened Common
  import opened Text

  /** A group key as text; the invalid key is minus one. */
  function KeyText(k: nat): string {
    if k == INVALID then "-1" else Decimal(k)
  }

  /** A table version as text; temporary and invalid versions are negative. */
  function VersionText(v: nat): string {
    if SCRATCH < v < TWO_TO_32 then "-" + Decimal(TWO_TO_32 - v) else Decimal(v)
  }

  lemma KeyTextInjective(a: nat, b: nat)
    requires KeyText(a) == KeyText(b)
    ensures a == b
  {
    DecimalRoundTrip(a);
    DecimalRoundTrip(b);
    if a != INVALID && b != INVALID { DecimalInjective(a, b); }
    assert "-1"[0] == '-';
  }

  lemma VersionTextInjective(a: nat, b: nat)
    requires a < TWO_TO_32 && b < TWO_TO_32 && VersionText(a) == VersionText(b)
    ensures a == b
  {
    DecimalRoundTrip(a);
    DecimalRoundTrip(b);
    assert (VersionText(a)[0] == '-') == (a > SCRATCH);
    assert (VersionText(b)[0] == '-') == (b > SCRATCH);
    if a <= SCRATCH && b <= SCRATCH {
      DecimalInjective(a, b);
    } else if a > SCRATCH && b > SCRATCH {
      var x, y := Decimal(TWO_TO_32 - a), Decimal(TWO_TO_32 - b);
      assert x == ("-" + x)[1..] && y == ("-" + y)[1..];
      DecimalInjective(TWO_TO_32 - a, TWO_TO_32 - b);
    }
  }
}
