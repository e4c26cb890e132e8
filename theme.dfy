/** The theme toggle of the settings header: light, then dark, then system. */
module Theme {
  import opened Common

  predicate IsTheme(t: string)
  {
    t == "light" || t == "dark" || t == "system"
  }

  /** The theme the toggle starts from: the stored value, or "system" when
      nothing (or the empty string) is stored. */
  function CurrentTheme(stored: Option<string>): (t: string)
    ensures stored.Some? && stored.value != "" ==> t == stored.value
    ensures stored.None? || stored.value == "" ==> t == "system"
  {
    match stored
    case Some(s) => if s != "" then s else "system"
    case None => "system"
  }

  /** One click of the toggle. Anything that is not "light" or "dark" is
      treated like "system" and moves to "light", so whatever was stored, one
      click lands on a valid theme and later clicks stay in the cycle. */
  function NextTheme(current: string): (t: string)
    ensures IsTheme(t)
    ensures t == "dark" <==> current == "light"
    ensures t == "system" <==> current == "dark"
    ensures t == "light" <==> current != "light" && current != "dark"
  {
    if current == "light" then "dark"
    else if current == "dark" then "system"
    else "light"
  }

  /** Three clicks bring every valid theme back to itself. */
  lemma NextThemeCycle(t: string)
    requires IsTheme(t)
    ensures NextTheme(NextTheme(NextTheme(t))) == t
    ensures NextTheme(t) != t
  {
  }
}
