/**
  The history and preset store (js/storage.js) over the browser's `localStorage`.

  The key-value store is a map from key to stored text, plus whether the store
  works at all (`setItem` and `removeItem` throw when it does not). Stored text is
  kept as what `JSON.parse` makes of it: an empty string (which reads as "nothing
  stored"), text the parser rejects, or a parsed value. A value written with
  `JSON.stringify` parses back to itself. The clock is a parameter: the ISO
  timestamp of a new history entry, the two instants of a relative time, and the
  locale date shown for old entries.
 */
module Storage {
  import opened Text
  import opened Dice

  const HISTORY_KEY := "diceroller_history"
  const PRESETS_KEY := "diceroller_presets"
  const TEST_KEY := "__storage_test__"
  const MAX_HISTORY := 20

  /** One saved roll: its selection summary, its result, its total and when it was made. */
  datatype HistoryEntry = HistoryEntry(dice: string, results: Results, total: int, timestamp: string)

  /** A parsed JSON value, as far as the store tells values apart. */
  datatype JsonValue =
    | JArray(entries: seq<HistoryEntry>)
    | JObject(presets: map<string, Config>)
    | JNull
    | JScalar

  /** The text stored under a key. */
  datatype StoredText = Blank | Unparsable | Json(value: JsonValue)

  type Items = map<string, StoredText>

  /** What the availability probe leaves: its test key written, then removed. */
  function Probed(items: Items): Items {
    items - {TEST_KEY}
  }

  /** The stored history is text `JSON.parse` rejects. */
  predicate Corrupt(items: Items) {
    HISTORY_KEY in items && items[HISTORY_KEY] == Unparsable
  }

  /**
    What loadHistory returns from a working store: the stored array, and an empty
    history when nothing is stored, the text is empty or does not parse, or the
    parsed value is not an array.
   */
  function HistoryOf(items: Items): (h: seq<HistoryEntry>)
    ensures HISTORY_KEY !in items ==> h == []
    ensures Corrupt(items) ==> h == []
    ensures h != [] ==> items[HISTORY_KEY] == Json(JArray(h))
  {
    if HISTORY_KEY !in items then []
    else match items[HISTORY_KEY]
      case Json(JArray(entries)) => entries
      case _ => []
  }

  /**
    What loadPresets returns from a working store: the stored object, and no presets
    when nothing is stored, the text is empty or does not parse, or the parsed value
    is null or not an object.
   */
  function PresetsOf(items: Items): (p: map<string, Config>)
    ensures PRESETS_KEY !in items ==> p == map[]
    ensures p != map[] ==> items[PRESETS_KEY] == Json(JObject(p))
  {
    if PRESETS_KEY !in items then map[]
    else match items[PRESETS_KEY]
      case Json(JObject(presets)) => presets
      case _ => map[]
  }

  /**
    `unshift` of the new entry, then one `pop` when the list has grown past
    MAX_HISTORY: the new entry first, then the older ones in their order.
   */
  function Pushed(history: seq<HistoryEntry>, e: HistoryEntry): (r: seq<HistoryEntry>)
    ensures |r| == if |history| < MAX_HISTORY then |history| + 1 else |history|
    ensures |history| <= MAX_HISTORY ==> |r| <= MAX_HISTORY
    ensures r[0] == e && forall i :: 1 <= i < |r| ==> r[i] == history[i - 1]
  {
    var longer := [e] + history;
    if |longer| > MAX_HISTORY then longer[..|longer| - 1] else longer
  }

  // ---------------------------------------------------------------------------
  // The store after each operation, when it works

  /** loadHistory: the probe, and the history key removed when its text does not parse. */
  function AfterLoadHistory(items: Items): Items {
    if Corrupt(items) then Probed(items) - {HISTORY_KEY} else Probed(items)
  }

  /** clearHistory: the probe, then the history key removed. */
  function AfterClearHistory(items: Items): Items {
    Probed(items) - {HISTORY_KEY}
  }

  /** saveRoll: the loaded history with the new entry pushed, written back as JSON. */
  function AfterSaveRoll(items: Items, e: HistoryEntry): Items {
    Probed(items)[HISTORY_KEY := Json(JArray(Pushed(HistoryOf(items), e)))]
  }

  /** savePreset: the loaded presets with `name` set to `config`, written back as JSON. */
  function AfterSavePreset(items: Items, name: string, config: Config): Items {
    Probed(items)[PRESETS_KEY := Json(JObject(PresetsOf(items)[name := config]))]
  }

  /** removePreset: the loaded presets without `name`, written back as JSON. */
  function AfterRemovePreset(items: Items, name: string): Items {
    Probed(items)[PRESETS_KEY := Json(JObject(PresetsOf(items) - {name}))]
  }

  class Store {
    /** Whether `localStorage` accepts writes; when it does not, every access throws. */
    var available: bool
    var items: Items

    constructor (available: bool, items: Items)
      ensures this.available == available && this.items == items
    {
      this.available := available;
      this.items := items;
    }

    /** isLocalStorageAvailable: write and remove a test key; false when that throws. */
    method IsLocalStorageAvailable() returns (ok: bool)
      modifies this`items
      ensures ok == available
      ensures items == if available then Probed(old(items)) else old(items)
    {
      if !available {
        return false;
      }
      items := items[TEST_KEY := Unparsable];
      items := items - {TEST_KEY};
      return true;
    }

    /** loadHistory: the stored history, or none; text that does not parse is cleared. */
    method LoadHistory() returns (history: seq<HistoryEntry>)
      modifies this`items
      ensures history == if available then HistoryOf(old(items)) else []
      ensures items == if available then AfterLoadHistory(old(items)) else old(items)
    {
      var ok := IsLocalStorageAvailable();
      if !ok {
        return [];
      }
      if HISTORY_KEY !in items || items[HISTORY_KEY] == Blank {
        return [];
      }
      match items[HISTORY_KEY]
      case Unparsable =>
        ClearHistory();
        history := [];
      case Json(value) =>
        history := if value.JArray? then value.entries else [];
    }

    /** clearHistory: remove the history key. */
    method ClearHistory()
      modifies this`items
      ensures items == if available then AfterClearHistory(old(items)) else old(items)
    {
      var ok := IsLocalStorageAvailable();
      if !ok {
        return;
      }
      items := items - {HISTORY_KEY};
    }

    /** saveRoll: put a new entry, stamped `timestamp`, at the front of the history, keeping at most MAX_HISTORY. */
    method SaveRoll(dice: string, results: Results, total: int, timestamp: string)
      modifies this`items
      ensures items == if available then AfterSaveRoll(old(items), HistoryEntry(dice, results, total, timestamp)) else old(items)
    {
      var ok := IsLocalStorageAvailable();
      if !ok {
        return;
      }
      var history := LoadHistory();
      var entry := HistoryEntry(dice, results, total, timestamp);
      history := [entry] + history;
      if |history| > MAX_HISTORY {
        history := history[..|history| - 1];
      }
      items := items[HISTORY_KEY := Json(JArray(history))];
    }

    /** loadPresets: the stored presets, or none. */
    method LoadPresets() returns (presets: map<string, Config>)
      modifies this`items
      ensures presets == if available then PresetsOf(old(items)) else map[]
      ensures items == if available then Probed(old(items)) else old(items)
    {
      var ok := IsLocalStorageAvailable();
      if !ok {
        return map[];
      }
      if PRESETS_KEY !in items || items[PRESETS_KEY] == Blank {
        return map[];
      }
      match items[PRESETS_KEY]
      case Unparsable =>
        presets := map[];
      case Json(value) =>
        presets := if value.JObject? then value.presets else map[];
    }

    /** savePreset: store `config` under `name`. */
    method SavePreset(name: string, config: Config)
      modifies this`items
      ensures items == if available then AfterSavePreset(old(items), name, config) else old(items)
    {
      var ok := IsLocalStorageAvailable();
      if !ok {
        return;
      }
      var presets := LoadPresets();
      presets := presets[name := config];
      items := items[PRESETS_KEY := Json(JObject(presets))];
    }

    /** removePreset: delete the preset `name`. */
    method RemovePreset(name: string)
      modifies this`items
      ensures items == if available then AfterRemovePreset(old(items), name) else old(items)
    {
      var ok := IsLocalStorageAvailable();
      if !ok {
        return;
      }
      var presets := LoadPresets();
      presets := presets - {name};
      items := items[PRESETS_KEY := Json(JObject(presets))];
    }
  }

  // ---------------------------------------------------------------------------
  // Properties of the history

  /** Loading after a save gives the new entry first, then the previous history in order, at most MAX_HISTORY long. */
  lemma SaveThenLoad(items: Items, e: HistoryEntry)
    ensures HistoryOf(AfterSaveRoll(items, e)) == Pushed(HistoryOf(items), e)
    ensures HistoryOf(AfterSaveRoll(items, e))[0] == e
    ensures forall i :: 1 <= i < |HistoryOf(AfterSaveRoll(items, e))| ==>
      HistoryOf(AfterSaveRoll(items, e))[i] == HistoryOf(items)[i - 1]
  {
    assert AfterSaveRoll(items, e)[HISTORY_KEY] == Json(JArray(Pushed(HistoryOf(items), e)));
  }

  /** Loading after clearHistory gives no history. */
  lemma ClearThenLoad(items: Items)
    ensures HistoryOf(AfterClearHistory(items)) == []
    ensures !Corrupt(AfterClearHistory(items))
  {
  }

  /**
    Loading twice gives the same history as loading once, and after the first load
    the stored text is no longer corrupt: a corrupt record is dropped, not kept.
   */
  lemma LoadHistoryStable(items: Items)
    ensures HistoryOf(AfterLoadHistory(items)) == HistoryOf(items)
    ensures !Corrupt(AfterLoadHistory(items))
    ensures Corrupt(items) ==> HISTORY_KEY !in AfterLoadHistory(items)
    ensures !Corrupt(items) ==> AfterLoadHistory(items) == Probed(items)
  {
  }

  /** The store after saving `entries` one by one, oldest first. */
  function SavedAll(items: Items, entries: seq<HistoryEntry>): Items
    decreases |entries|
  {
    if entries == [] then items
    else AfterSaveRoll(SavedAll(items, entries[..|entries| - 1]), entries[|entries| - 1])
  }

  /** `h` is the last MAX_HISTORY of `entries` (all of them when fewer), the most recent first. */
  predicate Latest(h: seq<HistoryEntry>, entries: seq<HistoryEntry>) {
    |h| == (if |entries| < MAX_HISTORY then |entries| else MAX_HISTORY) &&
    forall i :: 0 <= i < |h| ==> h[i] == entries[|entries| - 1 - i]
  }

  /** Pushing the next entry onto the latest entries gives the latest entries of the longer list. */
  lemma LatestPushed(h: seq<HistoryEntry>, entries: seq<HistoryEntry>, e: HistoryEntry)
    requires Latest(h, entries)
    ensures Latest(Pushed(h, e), entries + [e])
  {
    var r, all := Pushed(h, e), entries + [e];
    forall i | 1 <= i < |r| ensures r[i] == all[|all| - 1 - i] {
      assert r[i] == h[i - 1] == entries[|entries| - 1 - (i - 1)];
    }
  }

  /** Saving onto an empty history keeps the last MAX_HISTORY entries saved, the most recent first. */
  lemma {:induction false} SavedAllHistory(items: Items, entries: seq<HistoryEntry>)
    requires HistoryOf(items) == []
    ensures Latest(HistoryOf(SavedAll(items, entries)), entries)
  {
    if entries != [] {
      var init, last := entries[..|entries| - 1], entries[|entries| - 1];
      SavedAllHistory(items, init);
      SaveThenLoad(SavedAll(items, init), last);
      assert init + [last] == entries;
      LatestPushed(HistoryOf(SavedAll(items, init)), init, last);
    }
  }

  /** The roll saved `i`-th by the history test: "roll i", no dice, total i. */
  function TestRoll(i: int, timestamp: string): HistoryEntry {
    HistoryEntry("roll " + IntToString(i), [], i, timestamp)
  }

  /** Twenty-five saves onto an empty history keep twenty: total 25 first, total 6 last. */
  lemma TwentyFiveSaves(items: Items, timestamp: string)
    requires HistoryOf(items) == []
    ensures var h := HistoryOf(SavedAll(items, seq(25, i => TestRoll(i + 1, timestamp))));
      |h| == 20 && h[0].total == 25 && h[19].total == 6
  {
    var entries := seq(25, i => TestRoll(i + 1, timestamp));
    SavedAllHistory(items, entries);
  }

  /** The history test's single save after a clear: it loads back with its summary and total. */
  lemma SaveAfterClear(items: Items, timestamp: string)
    ensures var e := HistoryEntry("2d6 + 1d20", [Rolls(D6, [3, 5]), Rolls(D20, [15])], 23, timestamp);
      HistoryOf(AfterSaveRoll(AfterClearHistory(items), e)) == [e]
  {
    var e := HistoryEntry("2d6 + 1d20", [Rolls(D6, [3, 5]), Rolls(D20, [15])], 23, timestamp);
    SaveThenLoad(AfterClearHistory(items), e);
  }

  // ---------------------------------------------------------------------------
  // Properties of the presets

  /** After savePreset, `name` holds `config` and every other preset is as it was. */
  lemma SavePresetThenLoad(items: Items, name: string, config: Config)
    ensures PresetsOf(AfterSavePreset(items, name, config)) == PresetsOf(items)[name := config]
    ensures forall other :: other != name ==>
      (other in PresetsOf(AfterSavePreset(items, name, config)) <==> other in PresetsOf(items))
    ensures forall other :: other != name && other in PresetsOf(items) ==>
      PresetsOf(AfterSavePreset(items, name, config))[other] == PresetsOf(items)[other]
  {
    assert AfterSavePreset(items, name, config)[PRESETS_KEY] == Json(JObject(PresetsOf(items)[name := config]));
  }

  /** After removePreset, `name` is gone and every other preset is as it was. */
  lemma RemovePresetThenLoad(items: Items, name: string)
    ensures PresetsOf(AfterRemovePreset(items, name)) == PresetsOf(items) - {name}
    ensures name !in PresetsOf(AfterRemovePreset(items, name))
    ensures forall other :: other != name && other in PresetsOf(items) ==>
      other in PresetsOf(AfterRemovePreset(items, name)) &&
      PresetsOf(AfterRemovePreset(items, name))[other] == PresetsOf(items)[other]
  {
    assert AfterRemovePreset(items, name)[PRESETS_KEY] == Json(JObject(PresetsOf(items) - {name}));
  }

  /** Preset writes leave the history alone, and history writes leave the presets alone. */
  lemma KeysIndependent(items: Items, name: string, config: Config, e: HistoryEntry)
    ensures HistoryOf(AfterSavePreset(items, name, config)) == HistoryOf(items)
    ensures HistoryOf(AfterRemovePreset(items, name)) == HistoryOf(items)
    ensures PresetsOf(AfterSaveRoll(items, e)) == PresetsOf(items)
    ensures PresetsOf(AfterClearHistory(items)) == PresetsOf(items)
  {
  }

  // ---------------------------------------------------------------------------
  // Relative time

  /**
    formatRelativeTime: the elapsed time `nowMs - thenMs`, in floored whole seconds,
    minutes or hours, or `localeDate` once a day has passed. Dafny's `/` by a positive
    divisor floors, as `Math.floor(x / d)` does.
   */
  function FormatRelativeTime(nowMs: int, thenMs: int, localeDate: string): (s: string)
    ensures nowMs - thenMs < 10000 ==> s == "just now"
    ensures nowMs - thenMs >= 86400000 ==> s == localeDate
    ensures 10000 <= nowMs - thenMs < 86400000 ==> |s| >= 5 && '0' <= s[0] <= '9' && s[|s| - 4..] == " ago"
  {
    var diffMs := nowMs - thenMs;
    var diffSec := diffMs / 1000;
    var diffMin := diffSec / 60;
    var diffHour := diffMin / 60;
    if diffSec < 10 then "just now"
    else if diffSec < 60 then IntToString(diffSec) + "s ago"
    else if diffMin < 60 then IntToString(diffMin) + "m ago"
    else if diffHour < 24 then IntToString(diffHour) + "h ago"
    else localeDate
  }

  /** The buckets by elapsed milliseconds, each count the floor of the elapsed time in its unit. */
  lemma RelativeTimeBuckets(nowMs: int, thenMs: int, localeDate: string)
    ensures var d := nowMs - thenMs;
      (d < 10000 ==> FormatRelativeTime(nowMs, thenMs, localeDate) == "just now") &&
      (10000 <= d < 60000 ==> FormatRelativeTime(nowMs, thenMs, localeDate) == IntToString(d / 1000) + "s ago") &&
      (60000 <= d < 3600000 ==> FormatRelativeTime(nowMs, thenMs, localeDate) == IntToString(d / 60000) + "m ago") &&
      (3600000 <= d < 86400000 ==> FormatRelativeTime(nowMs, thenMs, localeDate) == IntToString(d / 3600000) + "h ago") &&
      (86400000 <= d ==> FormatRelativeTime(nowMs, thenMs, localeDate) == localeDate)
  {
  }

  /** The relative-time test: 5 s ago, 2 min ago and 1 h ago. */
  lemma RelativeTimeExamples(nowMs: int, localeDate: string)
    ensures FormatRelativeTime(nowMs, nowMs - 5000, localeDate) == "just now"
    ensures FormatRelativeTime(nowMs, nowMs - 120000, localeDate) == "2m ago"
    ensures FormatRelativeTime(nowMs, nowMs - 3600000, localeDate) == "1h ago"
  {
    assert IntToString(2) == "2" && IntToString(1) == "1";
  }
}
