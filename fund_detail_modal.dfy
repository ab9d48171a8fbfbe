/**
 * The fund detail dialog: its header shows the fund's line and product, the
 * contractual categories one chip each, and a link to the fund's website with the
 * protocol made explicit. A missing fund renders nothing; Escape closes the dialog.
 */
module FundDetailModal {
  import opened Wrappers
  import opened Text
  import opened FundTypes

  const Http := "http://"
  const Https := "https://"

  predicate HasProtocol(s: string) {
    StartsWith(s, Http) || StartsWith(s, Https)
  }

  /** `normalizedSite`: none for a missing or empty site, else the site with a protocol. */
  function NormalizedSite(site: Option<string>): (r: Option<string>)
    ensures r.None? <==> !Truthy(site)
    ensures r.Some? ==> HasProtocol(r.value)
    ensures r.Some? && HasProtocol(site.value) ==> r.value == site.value
    ensures r.Some? && !HasProtocol(site.value) ==> r.value == Https + site.value
  {
    match site
    case None => None
    case Some(s) =>
      if s == "" then None
      else if HasProtocol(s) then Some(s)
      else
        assert (Https + s)[..|Https|] == Https;
        Some(Https + s)
  }

  /** Normalising a normalised site changes nothing. */
  lemma NormalizedSiteIdempotent(site: Option<string>)
    ensures NormalizedSite(NormalizedSite(site)) == NormalizedSite(site)
  {
  }

  /** `replace(/^https?:\/\//, '')`: one leading protocol goes. */
  function StripProtocol(s: string): (r: string)
    ensures StartsWith(s, Https) ==> r == s[|Https|..]
    ensures !StartsWith(s, Https) && StartsWith(s, Http) ==> r == s[|Http|..]
    ensures !HasProtocol(s) ==> r == s
  {
    if StartsWith(s, Https) then s[|Https|..]
    else if StartsWith(s, Http) then s[|Http|..]
    else s
  }

  /** `replace(/\/$/, '')`: one trailing slash goes. */
  function StripTrailingSlash(s: string): (r: string)
    ensures EndsWith(s, "/") ==> r == s[..|s| - 1]
    ensures !EndsWith(s, "/") ==> r == s
  {
    if s != [] && s[|s| - 1] == '/' then s[..|s| - 1] else s
  }

  /** `displaySite`: the normalised site without protocol and trailing slash, or ''. */
  function DisplaySite(normalized: Option<string>): (r: string)
    ensures normalized.None? || normalized.value == "" ==> r == ""
  {
    match normalized
    case None => ""
    case Some(s) => if s == "" then "" else StripTrailingSlash(StripProtocol(s))
  }

  /** A bare host, typed without protocol or trailing slash, is displayed as typed. */
  lemma DisplayBareSite(s: string)
    requires s != "" && !HasProtocol(s) && !EndsWith(s, "/")
    ensures NormalizedSite(Some(s)) == Some(Https + s)
    ensures DisplaySite(NormalizedSite(Some(s))) == s
  {
    var n := Https + s;
    assert StartsWith(n, Https);
    assert n[|Https|..] == s;
  }

  /** A site with a protocol is linked as given, and displayed without it. */
  lemma DisplaySiteWithProtocol(s: string)
    requires StartsWith(s, Https) && !EndsWith(s, "/")
    ensures NormalizedSite(Some(s)) == Some(s)
    ensures DisplaySite(NormalizedSite(Some(s))) == s[|Https|..]
  {
    assert EndsWith(s[|Https|..], "/") ==> EndsWith(s, "/");
  }

  /** The contractual categories: the text split on commas, each piece trimmed. */
  function ContractCategories(cc: Option<string>): (r: seq<string>)
    ensures !Truthy(cc) ==> r == []
    ensures Truthy(cc) ==>
      (|r| == |Split(cc.value, ',')| && forall k :: 0 <= k < |r| ==> r[k] == Trim(Split(cc.value, ',')[k]))
    ensures forall k :: 0 <= k < |r| ==> ',' !in r[k]
  {
    if !Truthy(cc) then []
    else
      var parts := Split(cc.value, ',');
      seq(|parts|, k requires 0 <= k < |parts| => Trim(parts[k]))
  }

  /** One chip per comma-separated piece: the untrimmed pieces join back to the text. */
  lemma CategoriesCoverText(cc: string)
    requires cc != ""
    ensures |ContractCategories(Some(cc))| == |Split(cc, ',')|
    ensures Join(Split(cc, ','), ",") == cc
  {
    JoinSplit(cc, ',');
  }

  /** The header of the dialog, for a fund that is there. */
  datatype Header = Header(linea: string, pip: string, categories: seq<string>,
                           site: Option<string>, displaySite: string)

  /** `if (!fund) return null`, else the header. */
  function ModalHeader(fund: Option<Fund>): (r: Option<Header>)
    ensures r.None? <==> fund.None?
    ensures r.Some? ==>
      (&& r.value.site == NormalizedSite(fund.value.sitoWeb)
       && r.value.categories == ContractCategories(fund.value.categoriaContratto)
       && (r.value.site.Some? ==> HasProtocol(r.value.site.value)))
  {
    match fund
    case None => None
    case Some(f) =>
      var site := NormalizedSite(f.sitoWeb);
      Some(Header(f.linea, f.pip, ContractCategories(f.categoriaContratto), site, DisplaySite(site)))
  }

  /** The Escape key closes the dialog; no other key does. */
  predicate ClosesOnKey(key: string) {
    key == "Escape"
  }

  datatype Tone = Neutral | Positive | Negative

  /** A figure row: 'N/A' in grey when missing, green from zero, red below zero. */
  function ValueTone(value: Option<real>): (t: Tone)
    ensures t == Neutral <==> value.None?
    ensures t == Positive <==> value.Some? && value.value >= 0.0
    ensures t == Negative <==> value.Some? && value.value < 0.0
  {
    match value
    case None => Neutral
    case Some(v) => if v >= 0.0 then Positive else Negative
  }
}
