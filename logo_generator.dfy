/** The logo panel's share of the view logic: which errors it displays. */
module LogoGenerator {
  import opened Wrappers
  import opened Text

  /** The word that routes an error to this panel. */
  const LogoWord := "logo"

  /** The panel shows a present, non-empty error exactly when its text mentions a logo. */
  predicate ShowsError(error: Option<string>)
  {
    Truthy(error) && Includes(error.value, LogoWord)
  }
}
