/**
 * The theme provider: the dark-mode flag, the theme persisted under the
 * storage key "theme", and whether the document carries the class "dark".
 * The stored value is None when the key is absent. The system colour-scheme
 * preference is the parameter `prefersDark`.
 */
module Theme {
  import opened Interface

  const MissingProviderMessage: string := "UseDarkMode must be used within a ThemeProvider"

  /** `toLowerCase` on one character, over ASCII. */
  function LowerChar(c: char): char {
    if 'A' <= c <= 'Z' then (c as int - 'A' as int + 'a' as int) as char else c
  }

  /** `toLowerCase` on a string, character by character. */
  function Lower(s: string): (r: string)
    ensures |r| == |s|
    ensures forall i :: 0 <= i < |s| ==> r[i] == LowerChar(s[i])
    ensures forall i :: 0 <= i < |s| ==> !('A' <= r[i] <= 'Z')
  {
    seq(|s|, i requires 0 <= i < |s| => LowerChar(s[i]))
  }

  /**
   * The initial dark-mode flag: a stored non-empty theme decides, by its
   * lower-cased value; otherwise the system preference does.
   */
  function DefaultTheme(stored: Option<string>, prefersDark: bool): (r: bool)
    ensures Truthy(stored) ==> (r <==> Lower(stored.value) == "dark")
    ensures !Truthy(stored) ==> r == prefersDark
  {
    if stored.Some? && stored.value != "" then Lower(stored.value) == "dark" else prefersDark
  }

  /** The stored theme's spelling does not matter, only its lower-cased value. */
  lemma DefaultThemeIgnoresCase(s: string, t: string, prefersDark: bool)
    requires s != "" && Lower(s) == Lower(t)
    ensures DefaultTheme(Some(s), prefersDark) == DefaultTheme(Some(t), prefersDark)
  {
    assert |t| == |s|;
  }

  /** A stored non-empty theme overrides the system preference. */
  lemma StoredThemeOverridesSystem(s: string)
    requires s != ""
    ensures DefaultTheme(Some(s), true) == DefaultTheme(Some(s), false)
  {
  }

  /** What the effect reads and writes: the persisted theme and the document's "dark" class. */
  datatype Persisted = Persisted(stored: Option<string>, darkClass: bool)

  /** The theme the effect persists for a dark-mode flag. */
  function Target(darkMode: bool): string {
    if darkMode then "dark" else "light"
  }

  /**
   * The effect that runs whenever the flag changes: in dark mode, unless
   * "dark" is already stored, it adds the class and stores "dark"; in light
   * mode, unless "light" is already stored, it removes the class and stores
   * "light".
   */
  function ThemeEffect(darkMode: bool, p: Persisted): (r: Persisted)
    ensures r.stored == Some(Target(darkMode))
    ensures p.stored == Some(Target(darkMode)) ==> r == p
    ensures p.stored != Some(Target(darkMode)) ==> r.darkClass == darkMode
  {
    if darkMode && (p.stored.None? || p.stored.value != "dark") then
      Persisted(Some("dark"), true)
    else if !darkMode && p.stored != Some("light") then
      Persisted(Some("light"), false)
    else
      p
  }

  /** Running the effect a second time with the same flag changes nothing. */
  lemma ThemeEffectIdempotent(darkMode: bool, p: Persisted)
    ensures ThemeEffect(darkMode, ThemeEffect(darkMode, p)) == ThemeEffect(darkMode, p)
  {
  }

  /** The class agrees with the persisted theme. */
  predicate Consistent(p: Persisted) {
    p.darkClass <==> p.stored == Some("dark")
  }

  /** From a consistent state the effect leaves the class equal to the flag, and consistent. */
  lemma ThemeEffectKeepsConsistent(darkMode: bool, p: Persisted)
    requires Consistent(p)
    ensures Consistent(ThemeEffect(darkMode, p))
    ensures ThemeEffect(darkMode, p).darkClass == darkMode
  {
  }

  /** A stored "DARK" gives dark mode, and the effect then rewrites it to "dark" and adds the class. */
  lemma UppercaseDarkIsRewritten(prefersDark: bool, darkClass: bool)
    ensures DefaultTheme(Some("DARK"), prefersDark)
    ensures ThemeEffect(DefaultTheme(Some("DARK"), prefersDark), Persisted(Some("DARK"), darkClass))
      == Persisted(Some("dark"), true)
  {
    assert Lower("DARK") == "dark";
  }

  /**
   * A stored "dark" with the class missing: dark mode is on, yet the effect
   * skips, so the class stays missing.
   */
  lemma StoredDarkSkipsClass(prefersDark: bool)
    ensures DefaultTheme(Some("dark"), prefersDark)
    ensures ThemeEffect(true, Persisted(Some("dark"), false)).darkClass == false
  {
    assert Lower("dark") == "dark";
  }

  /** What the theme provider publishes. */
  datatype ThemeContextValue = ThemeContextValue(darkMode: bool)

  /** The hook: outside every provider it raises instead of defaulting. */
  function UseDarkMode(nearest: Option<ThemeContextValue>): (r: Result<ThemeContextValue>)
    ensures r.Error? <==> nearest.None?
    ensures r.Error? ==> r.message == MissingProviderMessage
    ensures r.Ok? ==> r.value == nearest.value
  {
    match nearest
    case None => Error(MissingProviderMessage)
    case Some(value) => Ok(value)
  }

  /** A mounted theme provider and the browser state it writes. */
  class ThemeProvider {
    var darkMode: bool
    var stored: Option<string>
    var darkClass: bool

    function Persist(): Persisted
      reads this
    {
      Persisted(stored, darkClass)
    }

    /**
     * Mounting: the flag starts at the default theme, then the effect runs
     * once on the storage and class found in the browser.
     */
    constructor (initialStored: Option<string>, prefersDark: bool, initialClass: bool)
      ensures darkMode == DefaultTheme(initialStored, prefersDark)
      ensures Persist() == ThemeEffect(darkMode, Persisted(initialStored, initialClass))
    {
      darkMode := DefaultTheme(initialStored, prefersDark);
      stored := initialStored;
      darkClass := initialClass;
      new;
      ApplyEffect();
    }

    /** The effect body: it reads the stored theme and writes the storage and the class list. */
    method ApplyEffect()
      modifies this
      ensures darkMode == old(darkMode)
      ensures Persist() == ThemeEffect(darkMode, old(Persist()))
    {
      var currentTheme := stored;
      if darkMode && (currentTheme.None? || currentTheme.value != "dark") {
        darkClass := true;
        stored := Some("dark");
      } else if !darkMode && currentTheme != Some("light") {
        darkClass := false;
        stored := Some("light");
      }
    }

    /** The toggle button: the flag flips, and the effect runs for the new flag. */
    method Toggle()
      modifies this
      ensures darkMode == !old(darkMode)
      ensures Persist() == ThemeEffect(darkMode, old(Persist()))
    {
      darkMode := !darkMode;
      ApplyEffect();
    }
  }
}
