/** The process-wide configuration record (`state` in main.py) and the four
    HTTP setters that overwrite one field each. Every setter stores the
    supplied value verbatim, falls back to a fixed default when the request
    body lacks the key, and answers `{ok: true, <field>: <stored value>}`. */
module Config {
  import opened Wrappers

  /** `detect` and `mode` are free strings: the setters perform no validation,
      so any string can end up stored. `confidence` is passed to the detector
      only and is kept as an opaque number. */
  datatype Config = Config(detect: string, mode: string, alerts: bool, confidence: real)

  const DefaultDetect: string := "both"
  const DefaultMode: string := "active"
  const DefaultAlerts: bool := true
  const DefaultConfidence: real := 0.5

  /** The configuration a freshly started process holds. */
  const Initial: Config := Config(DefaultDetect, DefaultMode, DefaultAlerts, DefaultConfidence)

  /** The JSON answer of a setter: `ok` and the value now stored. */
  datatype Reply<T> = Reply(ok: bool, value: T)

  /** The configuration after a setter ran, and the setter's reply. */
  datatype Update<T> = Update(config: Config, reply: Reply<T>)

  /** A JSON scalar, as the configuration endpoints exchange them. */
  datatype Json = JString(str: string) | JBool(flag: bool) | JNumber(num: real)

  /** GET /config: the record as a JSON object with exactly its four keys. */
  function GetConfig(c: Config): (r: map<string, Json>)
    ensures r.Keys == {"detect", "mode", "alerts", "confidence"}
    ensures r["detect"] == JString(c.detect) && r["mode"] == JString(c.mode)
    ensures r["alerts"] == JBool(c.alerts) && r["confidence"] == JNumber(c.confidence)
  {
    map["detect" := JString(c.detect), "mode" := JString(c.mode),
        "alerts" := JBool(c.alerts), "confidence" := JNumber(c.confidence)]
  }

  /** The snapshot hides nothing: two records with the same snapshot are equal. */
  lemma SnapshotDeterminesConfig(a: Config, b: Config)
    requires GetConfig(a) == GetConfig(b)
    ensures a == b
  {
  }

  /** POST /set-detect; `v` is the body's "detect" entry, None when absent. */
  function SetDetect(c: Config, v: Option<string>): (u: Update<string>)
    ensures u.reply.ok
    ensures u.config == c.(detect := u.reply.value)
    ensures v.Some? ==> u.reply.value == v.value
    ensures v.None? ==> u.reply.value == DefaultDetect
  {
    var d := v.GetOr(DefaultDetect);
    Update(c.(detect := d), Reply(true, d))
  }

  /** POST /set-mode; `v` is the body's "mode" entry, None when absent. */
  function SetMode(c: Config, v: Option<string>): (u: Update<string>)
    ensures u.reply.ok
    ensures u.config == c.(mode := u.reply.value)
    ensures v.Some? ==> u.reply.value == v.value
    ensures v.None? ==> u.reply.value == DefaultMode
  {
    var m := v.GetOr(DefaultMode);
    Update(c.(mode := m), Reply(true, m))
  }

  /** POST /set-sensitivity; `v` is the body's "confidence" entry. */
  function SetSensitivity(c: Config, v: Option<real>): (u: Update<real>)
    ensures u.reply.ok
    ensures u.config == c.(confidence := u.reply.value)
    ensures v.Some? ==> u.reply.value == v.value
    ensures v.None? ==> u.reply.value == DefaultConfidence
  {
    var x := v.GetOr(DefaultConfidence);
    Update(c.(confidence := x), Reply(true, x))
  }

  /** POST /set-alerts; `v` is the body's "alerts" entry. */
  function SetAlerts(c: Config, v: Option<bool>): (u: Update<bool>)
    ensures u.reply.ok
    ensures u.config == c.(alerts := u.reply.value)
    ensures v.Some? ==> u.reply.value == v.value
    ensures v.None? ==> u.reply.value == DefaultAlerts
  {
    var b := v.GetOr(DefaultAlerts);
    Update(c.(alerts := b), Reply(true, b))
  }

  /** Reading the record back after any setter returns exactly what the
      setter reported, and the three other fields as they were. */
  lemma SetThenGet(c: Config, d: Option<string>, m: Option<string>, x: Option<real>, b: Option<bool>)
    ensures var u := SetDetect(c, d); var g := GetConfig(u.config);
      g["detect"] == JString(u.reply.value) && g["mode"] == JString(c.mode)
      && g["alerts"] == JBool(c.alerts) && g["confidence"] == JNumber(c.confidence)
    ensures var u := SetMode(c, m); var g := GetConfig(u.config);
      g["mode"] == JString(u.reply.value) && g["detect"] == JString(c.detect)
      && g["alerts"] == JBool(c.alerts) && g["confidence"] == JNumber(c.confidence)
    ensures var u := SetSensitivity(c, x); var g := GetConfig(u.config);
      g["confidence"] == JNumber(u.reply.value) && g["detect"] == JString(c.detect)
      && g["mode"] == JString(c.mode) && g["alerts"] == JBool(c.alerts)
    ensures var u := SetAlerts(c, b); var g := GetConfig(u.config);
      g["alerts"] == JBool(u.reply.value) && g["detect"] == JString(c.detect)
      && g["mode"] == JString(c.mode) && g["confidence"] == JNumber(c.confidence)
  {
  }

  /** Setters on different fields commute, and repeating a setter with the
      same body is the same as running it once. */
  lemma SettersCommuteAndAreIdempotent(c: Config, d: Option<string>, m: Option<string>)
    ensures SetMode(SetDetect(c, d).config, m).config == SetDetect(SetMode(c, m).config, d).config
    ensures SetDetect(SetDetect(c, d).config, d) == SetDetect(c, d)
    ensures SetMode(SetMode(c, m).config, m) == SetMode(c, m)
  {
  }
}
