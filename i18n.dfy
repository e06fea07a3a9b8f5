/** The two interface languages and their path codes. */
module I18n {
  datatype Lang = Fr | En

  /** The code used as first path segment and in the language switch. */
  function LangCode(lang: Lang): (r: string)
    ensures |r| == 2
    ensures r == "fr" <==> lang == Fr
    ensures r == "en" <==> lang == En
  {
    match lang
    case Fr => "fr"
    case En => "en"
  }
}
