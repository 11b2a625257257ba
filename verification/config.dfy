/**
 The configuration document of study_timer_gui.py: `DEFAULT_CONFIG`, the key
 back-fill of `load_or_create_config`, and the typed timing settings the cycle
 engine reads from it. The JSON file is modelled by what reading it yields.
 */
module Config {
  import opened Wrappers

  /**
   The JSON values the configuration holds: integers, strings and the cue-name table.
   JSON numbers with a fraction, booleans, null and lists have no `Value`.
   */
  datatype Value = Num(n: int) | Str(s: string) | Names(names: map<string, string>)

  /** The keys of `DEFAULT_CONFIG` in their insertion order, the order the back-fill visits them. */
  const DefaultKeys: seq<string> := [
    "study_time_min", "study_time_max", "short_break_duration", "long_break_threshold",
    "long_break_duration", "music_folder", "sound_files", "total_study_time"
  ]

  const DefaultSoundFiles: map<string, string> := map[
    "start_study" := "start_study.mp3",
    "start_short_break" := "start_short_break.mp3",
    "start_long_break" := "start_long_break.mp3",
    "end_long_break" := "end_long_break.mp3"
  ]

  const DefaultConfig: map<string, Value> := map[
    "study_time_min" := Num(3 * 60),
    "study_time_max" := Num(5 * 60),
    "short_break_duration" := Num(10),
    "long_break_threshold" := Num(90 * 60),
    "long_break_duration" := Num(20 * 60),
    "music_folder" := Str("study_music"),
    "sound_files" := Names(DefaultSoundFiles),
    "total_study_time" := Num(0)
  ]

  /** The default keys, listed once each, are exactly the keys of the default document. */
  lemma DefaultKeysListDefaults()
    ensures forall i, j :: 0 <= i < j < |DefaultKeys| ==> DefaultKeys[i] != DefaultKeys[j]
    ensures forall k :: k in DefaultConfig <==> k in DefaultKeys
  {
  }

  /**
   The loop of `load_or_create_config` over the items of a defaults table, visited in
   `order`: every missing key is added with its default value, and `updated` records
   whether any was.
   */
  method FillMissing<V>(defaults: map<string, V>, order: seq<string>, user: map<string, V>)
    returns (merged: map<string, V>, updated: bool)
    requires forall k :: k in defaults <==> k in order
    ensures merged.Keys == user.Keys + defaults.Keys
    ensures forall k :: k in user ==> merged[k] == user[k]
    ensures forall k :: k in defaults && k !in user ==> merged[k] == defaults[k]
    ensures updated <==> exists k :: k in defaults && k !in user
  {
    merged := user;
    updated := false;
    var i := 0;
    while i < |order|
      invariant 0 <= i <= |order|
      invariant forall k :: k in merged <==> k in user || k in order[..i]
      invariant forall k :: k in user ==> merged[k] == user[k]
      invariant forall k :: k in order[..i] && k !in user ==> k in defaults && merged[k] == defaults[k]
      invariant updated <==> exists k :: k in order[..i] && k !in user
    {
      var key := order[i];
      assert order[..i + 1] == order[..i] + [key];
      if key !in merged {
        merged := merged[key := defaults[key]];
        updated := true;
      }
      i := i + 1;
    }
    assert order[..i] == order;
  }

  /** The back-fill of the user's document with `DEFAULT_CONFIG`: user entries win over defaults. */
  method BackFill(user: map<string, Value>) returns (merged: map<string, Value>, updated: bool)
    ensures merged.Keys == user.Keys + DefaultConfig.Keys
    ensures forall k :: k in user ==> merged[k] == user[k]
    ensures forall k :: k in DefaultConfig && k !in user ==> merged[k] == DefaultConfig[k]
    ensures merged == DefaultConfig + user
    ensures updated <==> exists k :: k in DefaultConfig && k !in user
  {
    DefaultKeysListDefaults();
    merged, updated := FillMissing(DefaultConfig, DefaultKeys, user);
  }

  /** What reading `config.json` yields: no file, a document `json.load` rejects, or a JSON object. */
  datatype ConfigFile = Missing | Malformed | Document(entries: map<string, Value>)

  /**
   `load_or_create_config`: the configuration returned, and the document written back
   to `config.json` (`None` when nothing is written).
   */
  method LoadOrCreate(file: ConfigFile) returns (config: map<string, Value>, written: Option<map<string, Value>>)
    ensures file.Missing? ==> config == DefaultConfig && written == Some(DefaultConfig)
    ensures file.Malformed? ==> config == DefaultConfig && written == None
    ensures file.Document? ==> config == DefaultConfig + file.entries
    ensures file.Document? ==> (written.Some? <==> !(DefaultConfig.Keys <= file.entries.Keys))
    ensures written.Some? ==> written.value == config
    ensures DefaultConfig.Keys <= config.Keys
  {
    match file
    case Missing =>
      config, written := DefaultConfig, Some(DefaultConfig);
    case Malformed =>
      config, written := DefaultConfig, None;
    case Document(entries) =>
      var updated;
      config, updated := BackFill(entries);
      written := if updated then Some(config) else None;
  }

  /** The timing values the cycle engine reads through `config[...]`. */
  datatype Settings = Settings(
    studyMin: int, studyMax: int, shortBreak: int, longBreakThreshold: int, longBreakDuration: int)

  /** The keys whose integers the engine reads as its timings. */
  const TimingKeys: seq<string> := [
    "study_time_min", "study_time_max", "short_break_duration", "long_break_threshold", "long_break_duration"
  ]

  function NumAt(config: map<string, Value>, key: string): Option<int> {
    if key in config && config[key].Num? then Some(config[key].n) else None
  }

  /** The engine's typed view of a configuration, present when every timing key holds an integer. */
  function ReadSettings(config: map<string, Value>): (s: Option<Settings>)
    ensures s.Some? <==> forall k :: k in TimingKeys ==> NumAt(config, k).Some?
    ensures s.Some? ==>
              && NumAt(config, "study_time_min") == Some(s.value.studyMin)
              && NumAt(config, "study_time_max") == Some(s.value.studyMax)
              && NumAt(config, "short_break_duration") == Some(s.value.shortBreak)
              && NumAt(config, "long_break_threshold") == Some(s.value.longBreakThreshold)
              && NumAt(config, "long_break_duration") == Some(s.value.longBreakDuration)
  {
    match (NumAt(config, "study_time_min"), NumAt(config, "study_time_max"),
           NumAt(config, "short_break_duration"), NumAt(config, "long_break_threshold"),
           NumAt(config, "long_break_duration"))
    case (Some(lo), Some(hi), Some(sb), Some(th), Some(lb)) => Some(Settings(lo, hi, sb, th, lb))
    case _ => None
  }

  /** `config.get("total_study_time", 0)`, present when the stored total is an integer or absent. */
  function StoredTotal(config: map<string, Value>): (t: Option<int>)
    ensures "total_study_time" !in config ==> t == Some(0)
    ensures "total_study_time" in config ==> (t.Some? <==> config["total_study_time"].Num?)
    ensures "total_study_time" in config && config["total_study_time"].Num? ==>
              t == Some(config["total_study_time"].n)
  {
    if "total_study_time" !in config then Some(0) else NumAt(config, "total_study_time")
  }

  /** The default document yields the default timings: 3-5 minute rounds, 90 minutes to a 20 minute break. */
  lemma DefaultSettings()
    ensures ReadSettings(DefaultConfig) == Some(Settings(180, 300, 10, 5400, 1200))
    ensures StoredTotal(DefaultConfig) == Some(0)
  {
  }
}
