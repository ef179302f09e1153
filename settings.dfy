/**
 * The settings store: a dictionary of named values seeded from fixed
 * defaults, read with a fallback, written key by key, reset to the defaults
 * and merged with the contents of a settings file on load.
 */
module SettingsStore {
  /** The JSON values a setting can hold. */
  datatype Value = Null | Bool(b: bool) | Number(n: real) | Text(s: string)

  type Entries = map<string, Value>

  /**
   * What reading the settings file produced: no file, a file that could not
   * be parsed (the error is reported and nothing changes), or its entries.
   */
  datatype StoredFile = Missing | Malformed | Contents(entries: Entries)

  /** The seventeen default settings. */
  function Defaults(): (d: Entries)
    ensures "left_click_threshold" in d && "right_click_threshold" in d && "move_threshold" in d
    ensures d["left_click_threshold"] == d["right_click_threshold"] == Number(0.2244444444)
    ensures d["move_threshold"] == Number(0.2877777778)
    ensures "dead_zone" in d && d["dead_zone"] == Number(0.8)
    ensures "mouse_sensitivity" in d && d["mouse_sensitivity"] == Number(6.0)
  {
    var d := map[
      "hand_detection_confidence" := Number(0.7),
      "hand_tracking_confidence" := Number(0.5),
      "left_click_threshold" := Number(0.2244444444),
      "right_click_threshold" := Number(0.2244444444),
      "move_threshold" := Number(0.2877777778),
      "drag_threshold" := Number(0.20),
      "scroll_threshold" := Number(0.2477777778),
      "scroll_base_speed" := Number(10.0),
      "scroll_max_speed" := Number(30.0),
      "scroll_straightness_factor" := Number(2.0),
      "mouse_sensitivity" := Number(6.0),
      "mouse_smoothing" := Number(0.4),
      "base_palm_size" := Number(110.0),
      "dead_zone" := Number(0.8),
      "show_debug_info" := Bool(true),
      "show_gestures" := Bool(true),
      "show_fps" := Bool(true)
    ];
    d
  }

  /** Dictionary update: loaded keys override, all other keys keep their values. */
  function Merge(current: Entries, loaded: Entries): (r: Entries)
    ensures r.Keys == current.Keys + loaded.Keys
    ensures forall k :: k in loaded ==> r[k] == loaded[k]
    ensures forall k :: k in current && k !in loaded ==> r[k] == current[k]
  {
    current + loaded
  }

  /** Loading the same entries twice has the effect of loading them once. */
  lemma MergeIdempotent(current: Entries, loaded: Entries)
    ensures Merge(Merge(current, loaded), loaded) == Merge(current, loaded)
  {
    assert Merge(Merge(current, loaded), loaded).Keys == Merge(current, loaded).Keys;
  }

  /**
   * Saving writes `current` out; loading that file back changes nothing, and
   * after a reset it restores every setting as long as the saved entries
   * cover all defaults.
   */
  lemma ReloadSaved(current: Entries)
    ensures Merge(current, current) == current
    ensures Defaults().Keys <= current.Keys ==> Merge(Defaults(), current) == current
  {
    assert Merge(current, current).Keys == current.Keys;
    if Defaults().Keys <= current.Keys {
      assert Merge(Defaults(), current).Keys == current.Keys;
    }
  }

  class Settings {
    const configPath: string
    const defaults: Entries
    var current: Entries

    /** Starts from a copy of the defaults and then loads `stored`. */
    constructor (configPath: string, stored: StoredFile)
      ensures this.configPath == configPath && defaults == Defaults()
      ensures current == if stored.Contents? then Merge(Defaults(), stored.entries) else Defaults()
    {
      this.configPath := configPath;
      defaults := Defaults();
      current := Defaults();
      new;
      Load(stored);
    }

    /** Merges the settings file's entries into `current`; a missing or unreadable file changes nothing. */
    method Load(stored: StoredFile)
      modifies this
      ensures current == if stored.Contents? then Merge(old(current), stored.entries) else old(current)
    {
      match stored
      case Contents(entries) =>
        current := Merge(current, entries);
      case _ =>
    }

    /** The stored value for `key`, or `default` when there is none. */
    function Get(key: string, default: Value): (v: Value)
      reads this
      ensures key in current ==> v == current[key]
      ensures key !in current ==> v == default
    {
      if key in current then current[key] else default
    }

    /** Stores `value` under `key`; no other key and not the defaults change. */
    method Set(key: string, value: Value)
      modifies this
      ensures forall d :: Get(key, d) == value
      ensures forall k, d :: k != key ==> Get(k, d) == old(Get(k, d))
      ensures current.Keys == old(current.Keys) + {key}
    {
      current := current[key := value];
    }

    /** Makes `current` a fresh copy of the defaults. */
    method Reset()
      modifies this
      ensures current == defaults
    {
      current := defaults;
    }
  }
}
