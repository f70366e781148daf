/**
 The colour theme (src/context/ThemeProvider.jsx): the theme read from
 localStorage at start-up, the toggle, and the `dark` class on the document
 root. localStorage and the DOM are represented by values.
 */
module ThemeProvider {
  import opened Js

  /** `localStorage.getItem("theme") || "light"`. */
  function InitialTheme(saved: Option<string>): (t: string)
    ensures Truthy(saved) ==> t == saved.value
    ensures !Truthy(saved) ==> t == "light"
    ensures t != ""
  {
    OrElse(saved, "light")
  }

  /** `theme === "light" ? "dark" : "light"`: any theme other than "light",
      including a foreign saved value, toggles to "light". */
  function ToggleTheme(t: string): (r: string)
    ensures t == "light" <==> r == "dark"
    ensures r == "light" || r == "dark"
  {
    if t == "light" then "dark" else "light"
  }

  /** The effect puts the `dark` class on the document root exactly for the
      "dark" theme. */
  predicate HasDarkClass(t: string) {
    t == "dark"
  }

  /** On "light" and "dark" toggling is an involution and flips the class;
      a foreign saved value (here "blue") renders light and its first toggle
      gives "light" again, so that click changes nothing on screen. */
  lemma ToggleFlipsKnownThemes(t: string)
    ensures t == "light" || t == "dark" ==> ToggleTheme(ToggleTheme(t)) == t
    ensures t == "light" || t == "dark" ==> (HasDarkClass(ToggleTheme(t)) <==> !HasDarkClass(t))
    ensures !HasDarkClass("blue") && !HasDarkClass(ToggleTheme("blue"))
  {
  }

  /** The effect writes every theme back under "theme", so a reload starts
      from the theme last shown, and that theme only ever changes by
      toggling. */
  lemma ReloadRestoresTheme(saved: Option<string>, toggles: nat)
    ensures InitialTheme(Some(Toggled(InitialTheme(saved), toggles))) == Toggled(InitialTheme(saved), toggles)
  {
  }

  /** The theme after a number of toggles. */
  function Toggled(t: string, toggles: nat): (r: string)
    ensures toggles == 0 ==> r == t
    ensures toggles > 0 ==> r == "light" || r == "dark"
    ensures t == "light" || t == "dark" ==> (r == t <==> toggles % 2 == 0)
  {
    if toggles == 0 then t else ToggleTheme(Toggled(t, toggles - 1))
  }
}
