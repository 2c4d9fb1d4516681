/**
  The site configuration the core reads: each setting is taken from the build
  environment when it is set to a non-empty value and falls back to a fixed default
  otherwise.
 */
module Brand {
  import opened Optional

  /** `env || fallback`: an unset or empty environment value gives the fallback. */
  function Setting(env: Option<string>, fallback: string): (v: string)
    ensures env.Some? && env.value != "" ==> v == env.value
    ensures env.None? || env.value == "" ==> v == fallback
  {
    if env.Some? && env.value != "" then env.value else fallback
  }

  const DefaultName: string := "Zal Partners"
  const DefaultFormEndpoint: string := "https://formspree.io/f/[[FORM_ID]]"
  const DefaultSiteUrl: string := "https://zalpartners.com"

  /** The keywords every page advertises. */
  const SeoKeywords: seq<string> := [
    "staffing agency consulting",
    "staffing firm growth",
    "recruitment analytics dashboard",
    "staffing lead generation",
    "recruiting automation",
    "staffing tech strategy",
    "staffing CRM optimization",
    "ATS data analytics",
    "staffing pipeline management",
    "staffing business growth"]
}
