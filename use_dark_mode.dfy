/**
 * The dark-mode hook: it picks the initial flag from local storage or the operating
 * system's colour-scheme preference, toggles it on request, and after every change
 * mirrors it into the root element's class list and back into local storage.
 */
module UseDarkMode {
  import opened Optional

  const StorageKey: string := "im3-dark-mode"
  const DarkClass: string := "dark"

  /** Where the hook runs: without a `window` (rendering on a server), or in a browser
      with its local storage and the OS `prefers-color-scheme: dark` answer. */
  datatype Environment = NoWindow | Browser(storage: map<string, string>, prefersDark: bool)

  /** `localStorage.getItem(key)`: the stored string, or null. */
  function GetItem(storage: map<string, string>, key: string): Option<string>
  {
    if key in storage then Some(storage[key]) else None
  }

  /** `String(b)` for a boolean. */
  function BoolString(b: bool): string
  {
    if b then "true" else "false"
  }

  /** The initial flag: false without a window; otherwise the stored value when there
      is one (true exactly for the string "true"), else the OS preference. */
  function InitialDark(env: Environment): (dark: bool)
    ensures env.NoWindow? ==> !dark
    ensures env.Browser? && StorageKey in env.storage ==> (dark <==> env.storage[StorageKey] == "true")
    ensures env.Browser? && StorageKey !in env.storage ==> dark == env.prefersDark
  {
    match env
    case NoWindow => false
    case Browser(storage, prefersDark) =>
      match GetItem(storage, StorageKey)
      case Some(stored) => stored == "true"
      case None => prefersDark
  }

  /** What the hook writes is what it reads back: after storing `String(dark)`, the
      initial flag is `dark` again, whatever else is stored and whatever the OS
      prefers. */
  lemma StoredFlagRoundTrip(storage: map<string, string>, dark: bool, prefersDark: bool)
    ensures InitialDark(Browser(storage[StorageKey := BoolString(dark)], prefersDark)) == dark
  {
  }

  /** `setIsDark(prev => !prev)`. */
  function Toggled(prev: bool): (next: bool)
    ensures next != prev
  {
    !prev
  }

  lemma ToggleTwice(b: bool)
    ensures Toggled(Toggled(b)) == b
  {
  }

  /** The hook's state in a browser: the flag, the root element's class list and the
      local storage it writes to. */
  class DarkModeHook {
    var isDark: bool
    var rootClasses: set<string>
    var storage: map<string, string>

    /** The root element's class and the stored value both mirror the flag. */
    ghost predicate Synced()
      reads this
    {
      (DarkClass in rootClasses <==> isDark)
      && StorageKey in storage && storage[StorageKey] == BoolString(isDark)
    }

    /** First render: the flag is resolved from what is stored and from the OS. */
    constructor Mount(storage: map<string, string>, prefersDark: bool, rootClasses: set<string>)
      ensures isDark == InitialDark(Browser(storage, prefersDark))
      ensures this.storage == storage && this.rootClasses == rootClasses
    {
      isDark := InitialDark(Browser(storage, prefersDark));
      this.storage := storage;
      this.rootClasses := rootClasses;
    }

    /** The effect that runs after every change of the flag: add or remove the `dark`
        class and store `String(isDark)`. Afterwards a fresh mount would resolve the
        same flag. */
    method SyncEffect()
      modifies this`rootClasses, this`storage
      ensures Synced()
      ensures rootClasses - {DarkClass} == old(rootClasses) - {DarkClass}
      ensures storage == old(storage)[StorageKey := BoolString(isDark)]
      ensures forall prefersDark: bool :: InitialDark(Browser(storage, prefersDark)) == isDark
    {
      if isDark {
        rootClasses := rootClasses + {DarkClass};
      } else {
        rootClasses := rootClasses - {DarkClass};
      }
      storage := storage[StorageKey := BoolString(isDark)];
      forall prefersDark: bool
        ensures InitialDark(Browser(storage, prefersDark)) == isDark
      {
        StoredFlagRoundTrip(old(storage), isDark, prefersDark);
      }
    }

    /** The toggle button: negate the flag (the effect then runs on the new value). */
    method Toggle()
      modifies this`isDark
      ensures isDark == Toggled(old(isDark))
    {
      isDark := Toggled(isDark);
    }
  }
}
