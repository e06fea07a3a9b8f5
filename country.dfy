/**
 * The country context: the initial country read from the saved choice, the timezone
 * guess made once when nothing is saved, and the explicit choice that is saved.
 */
module CountryContext {
  import opened Wrappers
  import Text
  import opened Pricing

  /** The stored spelling of a country. */
  function CountryCode(c: Country): (r: string)
    ensures r == "NG" <==> c == NG
    ensures r == "CIV" <==> c == CIV
    ensures r == "OTHER" <==> c == OTHER
  {
    match c
    case NG => "NG"
    case CIV => "CIV"
    case OTHER => "OTHER"
  }

  /** The state initialiser: a saved "NG", "CIV" or "OTHER" is taken, anything else
      (including nothing saved) gives CIV. */
  function InitialCountry(saved: Option<string>): (c: Country)
    ensures saved.Some? && saved.value in ["NG", "CIV", "OTHER"] ==> CountryCode(c) == saved.value
    ensures !(saved.Some? && saved.value in ["NG", "CIV", "OTHER"]) ==> c == CIV
  {
    if saved == Some("NG") then NG
    else if saved == Some("CIV") then CIV
    else if saved == Some("OTHER") then OTHER
    else CIV
  }

  /** What `setCountry` saves is read back as the same country. */
  lemma SavedCountryReadBack(c: Country)
    ensures InitialCountry(Some(CountryCode(c))) == c
  {
    assert CountryCode(c) in ["NG", "CIV", "OTHER"];
  }

  /** `if (saved)`: any non-empty saved text, valid or not, counts as a saved choice. */
  predicate HasSaved(saved: Option<string>) {
    saved.Some? && saved.value != ""
  }

  /** The timezone heuristic: Lagos means Nigeria, Abidjan means Côte d'Ivoire, anything
      else is another country. */
  function ClassifyTimezone(tz: string): (c: Country)
    ensures c == NG <==> Text.StartsWith(tz, "Africa/Lagos")
    ensures c == CIV <==> !Text.StartsWith(tz, "Africa/Lagos") && Text.StartsWith(tz, "Africa/Abidjan")
    ensures c == OTHER <==> !Text.StartsWith(tz, "Africa/Lagos") && !Text.StartsWith(tz, "Africa/Abidjan")
  {
    if Text.StartsWith(tz, "Africa/Lagos") then NG
    else if Text.StartsWith(tz, "Africa/Abidjan") then CIV
    else OTHER
  }

  /** The two prefixes exclude each other, so the order of the tests does not matter. */
  lemma TimezonePrefixesExclusive(tz: string)
    ensures !(Text.StartsWith(tz, "Africa/Lagos") && Text.StartsWith(tz, "Africa/Abidjan"))
  {
    if Text.StartsWith(tz, "Africa/Lagos") {
      assert tz[..12][7] == 'L';
      assert |tz| < 14 || tz[..14][7] == 'L';
    }
  }

  class CountryProvider {
    var country: Country
    var detected: bool
    /** The value stored under "phi-country", if any. */
    var saved: Option<string>

    constructor (saved: Option<string>)
      ensures country == InitialCountry(saved) && !detected && this.saved == saved
    {
      country := InitialCountry(saved);
      detected := false;
      this.saved := saved;
    }

    /** The mount effect. `tz` is the resolved timezone, or nothing when reading it
        throws. A saved choice skips the guess; a failed guess keeps the country. Either
        way detection is then done. */
    method Detect(tz: Option<string>)
      modifies this
      ensures detected && saved == old(saved)
      ensures HasSaved(saved) || tz.None? ==> country == old(country)
      ensures !HasSaved(saved) && tz.Some? ==> country == ClassifyTimezone(tz.value)
    {
      if HasSaved(saved) {
        detected := true;
        return;
      }
      if tz.Some? {
        country := ClassifyTimezone(tz.value);
      }
      detected := true;
    }

    /** `setCountry`: the state and the saved value both become `c`. */
    method SetCountry(c: Country)
      modifies this
      ensures country == c && saved == Some(CountryCode(c)) && detected == old(detected)
      ensures InitialCountry(saved) == c
    {
      country := c;
      saved := Some(CountryCode(c));
      SavedCountryReadBack(c);
    }

    /** The provider renders its children, with the current country, only once detection
        is done. */
    method Render() returns (provided: Option<Country>)
      ensures provided.Some? <==> detected
      ensures provided.Some? ==> provided.value == country
    {
      provided := if detected then Some(country) else None;
    }
  }

  /** A saved but unknown value starts at CIV and is never replaced by a guess. */
  method StartWithUnknownSaved(value: string, tz: Option<string>) returns (p: CountryProvider)
    requires value != "" && value !in ["NG", "CIV", "OTHER"]
    ensures p.country == CIV && p.detected
  {
    p := new CountryProvider(Some(value));
    p.Detect(tz);
  }
}
