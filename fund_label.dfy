/**
 * The labels of a fund in the charts: "pip - linea (societa)", and a version cut to
 * a maximum length with an ellipsis.
 */
module FundLabel {
  import opened Wrappers
  import opened Text
  import opened Sequences
  import opened FundTypes

  /** `formatFundLabel`: the company part appears only when the company is a non-empty text. */
  function FormatFundLabel(f: Fund): (r: string)
    ensures StartsWith(r, f.pip + " - " + f.linea)
    ensures Truthy(f.societa) ==> r == f.pip + " - " + f.linea + " (" + f.societa.value + ")"
    ensures !Truthy(f.societa) ==> r == f.pip + " - " + f.linea
  {
    var societaPart := if Truthy(f.societa) then " (" + f.societa.value + ")" else "";
    f.pip + " - " + f.linea + societaPart
  }

  function Max(a: int, b: int): int {
    if a >= b then a else b
  }

  /**
   * `formatShortFundLabel`: the label when it fits, else its first `maxLength - 3`
   * characters (none when that is negative) and "...".
   */
  function FormatShortFundLabel(f: Fund, maxLength: int): (r: string)
    ensures |FormatFundLabel(f)| <= maxLength ==> r == FormatFundLabel(f)
    ensures |FormatFundLabel(f)| > maxLength ==>
      r == FormatFundLabel(f)[..Max(0, maxLength - 3)] + "..."
    ensures maxLength >= 3 ==> |r| <= maxLength
  {
    var full := FormatFundLabel(f);
    if |full| <= maxLength then full
    else SliceTo(full, Max(0, maxLength - 3)) + "..."
  }

  const DefaultMaxLength := 32

  /** With the default length the short label never exceeds 32 characters. */
  lemma ShortLabelDefaultFits(f: Fund)
    ensures |FormatShortFundLabel(f, DefaultMaxLength)| <= DefaultMaxLength
  {
  }

  /** A shortened label keeps the start of the full one, as long as the cut leaves room for it. */
  lemma ShortLabelKeepsPrefix(f: Fund, maxLength: int)
    requires |FormatFundLabel(f)| > maxLength >= 3
    ensures var full := FormatFundLabel(f);
      var short := FormatShortFundLabel(f, maxLength);
      && StartsWith(full, short[..maxLength - 3])
      && EndsWith(short, "...")
      && |short| == maxLength
  {
  }
}
