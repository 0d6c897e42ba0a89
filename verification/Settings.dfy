/** Settings: resolving environment, database and default, and writing back what was read. */
module Settings {
  import opened Text

  datatype Json =
    | Null
    | Bool(b: bool)
    | Num(n: int)
    | Float(r: real)
    | Str(s: string)
    | Arr(items: seq<Json>)
    | Obj(fields: map<string, Json>)

  /** The conversions of the language: `json.loads`, `int()` of a text, `str()` of anything that is not a text. */
  datatype Python = Python(loads: string -> Option<Json>, int_: string -> Option<int>, str: Json -> string)

  /** A registry entry; `model` and `nullClears` are the key's membership in the two key sets. */
  datatype Meta = Meta(envVar: Option<string>, sensitive: bool, maskAlways: bool, default_: Json, model: bool,
                       nullClears: bool)

  type Registry = map<string, Meta>
  type Environment = map<string, string>
  type Rows = map<string, Json>

  datatype Origin = FromEnv | FromDatabase | FromDefault

  datatype Entry = Entry(value: Json, origin: Origin, sensitive: bool, readonly: bool)

  const EXCLUDED_KEYS := ["ssh_private_key", "jwt_signing_secret"]

  predicate Truthy(j: Json) {
    match j
    case Null => false
    case Bool(b) => b
    case Num(n) => n != 0
    case Float(r) => r != 0.0
    case Str(s) => s != ""
    case Arr(items) => items != []
    case Obj(fields) => fields != map[]
  }

  // ---------- Coercion, masking, mirroring ----------

  /** `int()` of a float drops the fraction. */
  function Truncated(r: real): int {
    if r >= 0.0 then r.Floor else -((-r).Floor)
  }

  function CoerceBool(raw: Json): Option<Json> {
    match raw
    case Bool(_) => Some(raw)
    case Str(s) =>
      if Lower(Strip(s)) in ["true", "1"] then Some(Bool(true))
      else if Lower(Strip(s)) in ["false", "0"] then Some(Bool(false))
      else None
    case _ => None
  }

  function CoerceInt(py: Python, raw: Json): Option<Json> {
    match raw
    case Num(_) => Some(raw)
    case Float(r) => Some(Num(Truncated(r)))
    case Str(s) => if py.int_(s).Some? then Some(Num(py.int_(s).value)) else None
    case _ => None
  }

  function Decoded(py: Python, raw: Json): Option<Json> {
    if raw.Str? then py.loads(raw.s) else Some(raw)
  }

  /** `_coerce`: a value of the type of the default, or a failure. */
  function Coerce(py: Python, raw: Json, target: Json): Option<Json> {
    match target
    case Null => Some(raw)
    case Bool(_) => CoerceBool(raw)
    case Num(_) => CoerceInt(py, raw)
    case Float(_) => Some(raw)
    case Str(_) => Some(if raw.Str? then raw else Str(py.str(raw)))
    case Obj(_) => var d := Decoded(py, raw); if d.Some? && d.value.Obj? then d else None
    case Arr(_) => var d := Decoded(py, raw); if d.Some? && d.value.Arr? then d else None
  }

  function Mask(s: string): string {
    if |s| <= 4 then "****" else s[..4] + "****"
  }

  function MaskValue(py: Python, v: Json): Json {
    Str(Mask(if v.Str? then v.s else py.str(v)))
  }

  function Field(fields: map<string, Json>, k: string): Json {
    if k in fields then fields[k] else Null
  }

  function ModelField(fields: map<string, Json>): Json {
    if Truthy(Field(fields, "model")) then Field(fields, "model") else Field(fields, "model_id")
  }

  /** `normalize_model_setting_value`: `model` and `model_id` mirror each other. */
  function Normalize(v: Json): Json {
    if !v.Obj? || ModelField(v.fields) == Null then v
    else Obj(v.fields["model" := ModelField(v.fields)]["model_id" := ModelField(v.fields)])
  }

  lemma NormalizeTwice(v: Json)
    ensures Normalize(Normalize(v)) == Normalize(v)
    ensures Normalize(v).Obj? <==> v.Obj?
  {
  }

  /** Normalising changes neither the model a consumer reads nor any other field. */
  lemma NormalizeKeepsMeaning(fields: map<string, Json>)
    ensures var after := Normalize(Obj(fields)).fields;
            && ModelField(after) == ModelField(fields)
            && (ModelField(fields) != Null ==> Field(after, "model") == Field(after, "model_id") == ModelField(fields))
            && forall k :: k != "model" && k != "model_id" ==> Field(after, k) == Field(fields, k)
  {
  }

  lemma MaskTwice(s: string)
    ensures Mask(Mask(s)) == Mask(s)
    ensures Mask(s) != ""
  {
  }

  lemma CoerceTwice(py: Python, raw: Json, target: Json)
    requires Coerce(py, raw, target).Some?
    ensures var v := Coerce(py, raw, target).value;
            Coerce(py, v, target) == Some(v) && (target != Null && !target.Float? ==> v != Null)
  {
    hide Lower, Strip, Truncated;
    match target
    case Null =>
    case Bool(_) => BoolTwice(raw);
    case Num(_) =>
    case Float(_) =>
    case Str(_) =>
    case Obj(_) =>
    case Arr(_) =>
  }

  lemma BoolTwice(raw: Json)
    requires CoerceBool(raw).Some?
    ensures CoerceBool(raw).value.Bool? && CoerceBool(CoerceBool(raw).value) == CoerceBool(raw)
  {
    hide Lower, Strip;
  }

  // ---------- One key ----------

  function EnvValue(env: Environment, m: Meta): Option<string> {
    if m.envVar.Some? && m.envVar.value in env && env[m.envVar.value] != "" then Some(env[m.envVar.value]) else None
  }

  /** `resolve_setting_value`. */
  function Resolve(py: Python, env: Environment, row: Option<Json>, m: Meta): (Json, Origin) {
    var e := EnvValue(env, m);
    if e.Some? then
      var v := Coerce(py, Str(e.value), m.default_);
      if v.Some? then (v.value, FromEnv) else (m.default_, FromDefault)
    else if row.Some? then
      var v := Coerce(py, row.value, m.default_);
      if v.Some? then (v.value, FromDatabase) else (m.default_, FromDefault)
    else (m.default_, FromDefault)
  }

  /** What reading the settings shows for a key. */
  function Shown(py: Python, env: Environment, row: Option<Json>, m: Meta): Entry {
    var (value, origin) := Resolve(py, env, row, m);
    var masked := if m.sensitive && Truthy(value) && (origin == FromEnv || m.maskAlways) then MaskValue(py, value) else value;
    Entry(if m.model then Normalize(masked) else masked, origin, m.sensitive, origin == FromEnv)
  }

  /** The value is the placeholder shown for what is stored. */
  predicate Placeholder(row: Option<Json>, value: Json, m: Meta) {
    m.maskAlways && value.Str? && row.Some? && row.value.Str? && row.value.s != "" && value.s == Mask(row.value.s)
  }

  /** What writing a value leaves stored under a registered key. */
  function Stored(env: Environment, row: Option<Json>, value: Json, m: Meta): Option<Json> {
    if EnvValue(env, m).Some? || Placeholder(row, value, m) then row
    else if value == Null && m.nullClears then None
    else Some(if m.model then Normalize(value) else value)
  }

  // ---------- The same, spelled out ----------

  /** The environment decides a key it sets, even with a value that cannot be used; then the database, then the default. */
  lemma Precedence(py: Python, env: Environment, row: Option<Json>, m: Meta)
    ensures var r := Resolve(py, env, row, m);
            if m.envVar.Some? && m.envVar.value in env && env[m.envVar.value] != "" then
              var v := Coerce(py, Str(env[m.envVar.value]), m.default_);
              if v.Some? then r == (v.value, FromEnv) else r == (m.default_, FromDefault)
            else if row.Some? && Coerce(py, row.value, m.default_).Some? then
              r == (Coerce(py, row.value, m.default_).value, FromDatabase)
            else r == (m.default_, FromDefault)
  {
    hide Coerce;
  }

  /** What each type of setting takes: its own kind as it is, texts that read as it, and nothing else. */
  lemma CoerceIs(py: Python, raw: Json)
    ensures Coerce(py, raw, Null) == Some(raw)
    ensures forall b :: Coerce(py, raw, Bool(b)) ==
              if raw.Bool? then Some(raw)
              else if raw.Str? && (Lower(Strip(raw.s)) == "true" || Lower(Strip(raw.s)) == "1") then Some(Bool(true))
              else if raw.Str? && (Lower(Strip(raw.s)) == "false" || Lower(Strip(raw.s)) == "0") then Some(Bool(false))
              else None
    ensures forall n :: Coerce(py, raw, Num(n)) ==
              if raw.Num? then Some(raw)
              else if raw.Float? then Some(Num(if raw.r >= 0.0 then raw.r.Floor else -((-raw.r).Floor)))
              else if raw.Str? && py.int_(raw.s).Some? then Some(Num(py.int_(raw.s).value))
              else None
    ensures forall t :: Coerce(py, raw, Str(t)) == Some(if raw.Str? then raw else Str(py.str(raw)))
    ensures forall o :: Coerce(py, raw, Obj(o)) ==
              if raw.Obj? then Some(raw)
              else if raw.Str? && py.loads(raw.s).Some? && py.loads(raw.s).value.Obj? then py.loads(raw.s) else None
    ensures forall l :: Coerce(py, raw, Arr(l)) ==
              if raw.Arr? then Some(raw)
              else if raw.Str? && py.loads(raw.s).Some? && py.loads(raw.s).value.Arr? then py.loads(raw.s) else None
  {
    hide Lower, Strip;
  }

  /** At most four characters of a secret are shown, and none of a short one. */
  lemma MaskIs(s: string)
    ensures |s| <= 4 ==> Mask(s) == "****"
    ensures |s| > 4 ==> Mask(s) == s[..4] + "****"
  {
  }

  /** A value is masked exactly if it is a secret that is set and comes from the environment or is never shown. */
  lemma ShownIs(py: Python, env: Environment, row: Option<Json>, m: Meta)
    requires MetaOk(m)
    ensures var (value, origin) := Resolve(py, env, row, m);
            var e := Shown(py, env, row, m);
            && e.origin == origin && e.sensitive == m.sensitive && (e.readonly <==> origin == FromEnv)
            && (m.model ==> e.value == Normalize(value))
            && (!m.model ==>
                  e.value == if m.sensitive && Truthy(value) && (origin == FromEnv || m.maskAlways)
                             then Str(Mask(if value.Str? then value.s else py.str(value))) else value)
  {
    hide Coerce, Mask, Normalize, Truthy;
  }

  /** What a write leaves stored under a key. */
  lemma StoredIs(env: Environment, row: Option<Json>, value: Json, m: Meta)
    ensures m.envVar.Some? && m.envVar.value in env && env[m.envVar.value] != "" ==> Stored(env, row, value, m) == row
    ensures !(m.envVar.Some? && m.envVar.value in env && env[m.envVar.value] != "") ==>
              var kept := m.maskAlways && value.Str? && exists token :: token != "" && row == Some(Str(token)) && value.s == Mask(token);
              && (kept ==> Stored(env, row, value, m) == row)
              && (!kept && value == Null && m.nullClears ==> Stored(env, row, value, m) == None)
              && (!kept && !(value == Null && m.nullClears) ==>
                    Stored(env, row, value, m) == Some(if m.model then Normalize(value) else value))
  {
    hide Mask, Normalize;
  }

  /** What counts as not set. */
  lemma TruthyIs(j: Json)
    ensures Truthy(j) <==>
            && j != Null && j != Bool(false) && j != Num(0) && j != Float(0.0)
            && j != Str("") && j != Arr([]) && j != Obj(map[])
  {
  }

  /** Without a model named, and for anything but a selection, normalising changes nothing. */
  lemma NormalizeLeaves(v: Json)
    ensures !v.Obj? ==> Normalize(v) == v
    ensures v.Obj? && ModelField(v.fields) == Null ==> Normalize(v) == v
    ensures v.Obj? && "model" in v.fields && Truthy(v.fields["model"]) ==> ModelField(v.fields) == v.fields["model"]
    ensures v.Obj? && !("model" in v.fields && Truthy(v.fields["model"])) ==>
              ModelField(v.fields) == if "model_id" in v.fields then v.fields["model_id"] else Null
  {
  }

  /** What every entry of the registry satisfies. */
  predicate MetaOk(m: Meta) {
    && (m.maskAlways ==> m.sensitive && m.default_ == Str(""))
    && (m.model ==> !m.sensitive && m.default_.Obj?)
    && (m.nullClears ==> m.default_ != Null)
    && !m.default_.Float?
  }

  lemma ResolvedIsOfType(py: Python, env: Environment, row: Option<Json>, m: Meta)
    requires MetaOk(m)
    ensures var v := Resolve(py, env, row, m).0;
            && Coerce(py, v, m.default_) == Some(v)
            && (m.nullClears ==> v != Null)
            && (m.maskAlways ==> v.Str?)
            && (m.model ==> v.Obj?)
  {
    hide Strip, Lower, Truncated, Normalize;
    if EnvValue(env, m).Some? && Coerce(py, Str(EnvValue(env, m).value), m.default_).Some? {
      CoerceTwice(py, Str(EnvValue(env, m).value), m.default_);
    } else if EnvValue(env, m).None? && row.Some? && Coerce(py, row.value, m.default_).Some? {
      CoerceTwice(py, row.value, m.default_);
    }
  }

  /** Writing back what a key shows, shows the same. */
  lemma KeyRoundTrip(py: Python, env: Environment, row: Option<Json>, m: Meta)
    requires MetaOk(m)
    ensures var value := Shown(py, env, row, m).value;
            Shown(py, env, Stored(env, row, value, m), m).value == value
  {
    hide Strip, Lower, Truncated, Normalize, Coerce, Mask, Truthy;
    var v := Resolve(py, env, row, m).0;
    ResolvedIsOfType(py, env, row, m);
    NormalizeTwice(v);
    if EnvValue(env, m).None? {
      if m.maskAlways && Truthy(v) {
        MaskTwice(v.s);
        TextStays(py, Str(Mask(v.s)), m.default_);
      } else if m.model {
        ObjectStays(py, Normalize(v), m.default_);
      }
    }
  }

  lemma TextStays(py: Python, v: Json, target: Json)
    requires v.Str? && v.s != "" && target.Str?
    ensures Coerce(py, v, target) == Some(v) && Truthy(v)
  {
  }

  lemma ObjectStays(py: Python, v: Json, target: Json)
    requires v.Obj? && target.Obj?
    ensures Coerce(py, v, target) == Some(v)
  {
  }

  /** A stored token is never overwritten by its own placeholder. */
  lemma PlaceholderIsIgnored(env: Environment, token: string, m: Meta)
    requires m.maskAlways && token != ""
    ensures Stored(env, Some(Str(token)), Str(Mask(token)), m) == Some(Str(token))
  {
  }

  /** What consumers of a setting read: model settings only through their model field. */
  function Effective(v: Json, m: Meta): Json {
    if m.model then Normalize(v) else v
  }

  /**
   Writing back what a key shows leaves its unmasked value as it was, exactly unless the key is always masked
   and its row holds something other than a text whose own text is not a placeholder already.
   */
  lemma WriteBackKeepsValueIff(py: Python, env: Environment, row: Option<Json>, m: Meta)
    requires MetaOk(m)
    ensures var after := Stored(env, row, Shown(py, env, row, m).value, m);
            Effective(Resolve(py, env, after, m).0, m) == Effective(Resolve(py, env, row, m).0, m)
            <==>
            (m.maskAlways && EnvValue(env, m).None? && row.Some? && !row.value.Str? ==>
               py.str(row.value) == "" || Mask(py.str(row.value)) == py.str(row.value))
  {
    hide Strip, Lower, Truncated, Normalize, Coerce, Mask, Truthy;
    var v := Resolve(py, env, row, m).0;
    ResolvedIsOfType(py, env, row, m);
    NormalizeTwice(v);
    if EnvValue(env, m).None? {
      if m.maskAlways {
        TextResolves(py, row, m);
        MaskTwice(v.s);
        TextTruth(v);
        if v.s != "" {
          TextStays(py, Str(Mask(v.s)), m.default_);
        }
      } else if m.model {
        ObjectStays(py, Normalize(v), m.default_);
      }
    }
  }

  lemma TextResolves(py: Python, row: Option<Json>, m: Meta)
    requires m.default_ == Str("")
    ensures row.Some? ==> Coerce(py, row.value, m.default_) == Some(if row.value.Str? then row.value else Str(py.str(row.value)))
  {
  }

  lemma TextTruth(v: Json)
    requires v.Str?
    ensures Truthy(v) <==> v.s != ""
  {
  }

  // ---------- The whole table ----------

  function RowOf(rows: Rows, k: string): Option<Json> {
    if k in rows then Some(rows[k]) else None
  }

  /** `resolve_settings`. */
  function Get(py: Python, env: Environment, rows: Rows, reg: Registry): map<string, Entry> {
    map k | k in reg && k !in EXCLUDED_KEYS :: Shown(py, env, RowOf(rows, k), reg[k])
  }

  predicate Skipped(env: Environment, reg: Registry, key: string) {
    key == "skills" || key in EXCLUDED_KEYS || (key in reg && EnvValue(env, reg[key]).Some?)
  }

  /** Whether a value passes the key's validator, if it is going to be written. */
  predicate Accepts(env: Environment, reg: Registry, key: string, value: Json, valid: (string, Json) -> bool) {
    Skipped(env, reg, key) || (value == Null && key in reg && reg[key].nullClears) || valid(key, value)
  }

  function Written(env: Environment, reg: Registry, rows: Rows, key: string, value: Json): Rows {
    if Skipped(env, reg, key) then rows
    else if key !in reg then rows[key := value]
    else
      var stored := Stored(env, RowOf(rows, key), value, reg[key]);
      if stored.Some? then rows[key := stored.value] else rows - {key}
  }

  function WrittenAll(env: Environment, reg: Registry, rows: Rows, body: seq<(string, Json)>): Rows {
    if body == [] then rows
    else Written(env, reg, WrittenAll(env, reg, rows, body[..|body| - 1]), body[|body| - 1].0, body[|body| - 1].1)
  }

  ghost predicate AllAccepted(env: Environment, reg: Registry, body: seq<(string, Json)>, valid: (string, Json) -> bool) {
    forall i :: 0 <= i < |body| ==> Accepts(env, reg, body[i].0, body[i].1, valid)
  }

  ghost predicate DistinctKeys(body: seq<(string, Json)>) {
    forall i, j :: 0 <= i < j < |body| ==> body[i].0 != body[j].0
  }

  /** A request that writes back, for some keys, the values that reading showed. */
  ghost predicate WritesBack(py: Python, env: Environment, rows: Rows, reg: Registry, body: seq<(string, Json)>) {
    && DistinctKeys(body)
    && forall i :: 0 <= i < |body| ==>
         body[i].0 in Get(py, env, rows, reg) && body[i].1 == Get(py, env, rows, reg)[body[i].0].value
  }

  ghost predicate RegistryOk(reg: Registry) {
    "skills" !in reg && forall k :: k in reg ==> MetaOk(reg[k])
  }

  lemma WrittenElsewhere(env: Environment, reg: Registry, rows: Rows, key: string, value: Json, k: string)
    ensures k != key ==> RowOf(Written(env, reg, rows, key, value), k) == RowOf(rows, k)
    ensures k == key && k in reg && k != "skills" && k !in EXCLUDED_KEYS ==>
              RowOf(Written(env, reg, rows, key, value), k) == Stored(env, RowOf(rows, k), value, reg[k])
  {
    hide Normalize, Mask;
  }

  lemma {:induction false} WrittenAllAt(env: Environment, reg: Registry, rows: Rows, body: seq<(string, Json)>, k: string)
    requires DistinctKeys(body) && k in reg && k != "skills" && k !in EXCLUDED_KEYS
    ensures forall i :: 0 <= i < |body| && body[i].0 == k ==>
              RowOf(WrittenAll(env, reg, rows, body), k) == Stored(env, RowOf(rows, k), body[i].1, reg[k])
    ensures (forall i :: 0 <= i < |body| ==> body[i].0 != k) ==> RowOf(WrittenAll(env, reg, rows, body), k) == RowOf(rows, k)
  {
    hide Written, Stored, RowOf;
    if body != [] {
      var init, last := body[..|body| - 1], body[|body| - 1];
      WrittenAllAt(env, reg, rows, init, k);
      WrittenElsewhere(env, reg, WrittenAll(env, reg, rows, init), last.0, last.1, k);
    }
  }

  /** A key the registry does not know is stored as it is given, unless it is one the route never writes. */
  lemma {:induction false} UnknownKeysAreStored(env: Environment, reg: Registry, rows: Rows, body: seq<(string, Json)>, i: nat)
    requires DistinctKeys(body) && i < |body| && body[i].0 !in reg
    ensures RowOf(WrittenAll(env, reg, rows, body), body[i].0) ==
            if body[i].0 in ["skills", "ssh_private_key", "jwt_signing_secret"] then RowOf(rows, body[i].0) else Some(body[i].1)
  {
    hide Stored, EnvValue;
    var n := |body| - 1;
    var init := body[..n];
    if i < n {
      assert init[i] == body[i] && body[n].0 != body[i].0;
      UnknownKeysAreStored(env, reg, rows, init, i);
      WrittenElsewhere(env, reg, WrittenAll(env, reg, rows, init), body[n].0, body[n].1, body[i].0);
    } else {
      Untouched(env, reg, rows, init, body[n].0);
    }
  }

  lemma {:induction false} Untouched(env: Environment, reg: Registry, rows: Rows, body: seq<(string, Json)>, k: string)
    requires forall i :: 0 <= i < |body| ==> body[i].0 != k
    ensures RowOf(WrittenAll(env, reg, rows, body), k) == RowOf(rows, k)
  {
    hide Written, RowOf;
    if body != [] {
      var n := |body| - 1;
      Untouched(env, reg, rows, body[..n], k);
      WrittenElsewhere(env, reg, WrittenAll(env, reg, rows, body[..n]), body[n].0, body[n].1, k);
    }
  }

  /** A value is held against its validator exactly if it is going to be written and does not just clear the key. */
  lemma AcceptsIff(env: Environment, reg: Registry, key: string, value: Json, valid: (string, Json) -> bool)
    ensures Accepts(env, reg, key, value, valid) <==>
            || key in ["skills", "ssh_private_key", "jwt_signing_secret"]
            || (key in reg && reg[key].envVar.Some? && reg[key].envVar.value in env && env[reg[key].envVar.value] != "")
            || (key in reg && reg[key].nullClears && value == Null)
            || valid(key, value)
  {
  }

  /** Writing back what was read, in full or in part, changes no value that reading shows. */
  lemma ReadWriteRead(py: Python, env: Environment, rows: Rows, reg: Registry, body: seq<(string, Json)>, k: string)
    requires RegistryOk(reg) && WritesBack(py, env, rows, reg, body) && k in Get(py, env, rows, reg)
    ensures k in Get(py, env, WrittenAll(env, reg, rows, body), reg)
    ensures Get(py, env, WrittenAll(env, reg, rows, body), reg)[k].value == Get(py, env, rows, reg)[k].value
  {
    hide Shown, Stored, MetaOk, WrittenAll, RowOf;
    WrittenAllAt(env, reg, rows, body, k);
    if exists i :: 0 <= i < |body| && body[i].0 == k {
      KeyRoundTrip(py, env, RowOf(rows, k), reg[k]);
    }
  }

  /** The same for the values the server itself uses, with the exact exception. */
  lemma WriteBackKeepsMeaningIff(py: Python, env: Environment, rows: Rows, reg: Registry, body: seq<(string, Json)>, i: nat)
    requires RegistryOk(reg) && WritesBack(py, env, rows, reg, body) && i < |body|
    ensures var k := body[i].0; k in reg
    ensures var k, m := body[i].0, reg[body[i].0];
            Effective(Resolve(py, env, RowOf(WrittenAll(env, reg, rows, body), k), m).0, m)
              == Effective(Resolve(py, env, RowOf(rows, k), m).0, m)
            <==>
            (m.maskAlways && EnvValue(env, m).None? && k in rows && !rows[k].Str? ==>
               py.str(rows[k]) == "" || Mask(py.str(rows[k])) == py.str(rows[k]))
  {
    hide Shown, Stored, MetaOk, WrittenAll, Resolve, Effective, Mask;
    var k := body[i].0;
    WrittenAllAt(env, reg, rows, body, k);
    WriteBackKeepsValueIff(py, env, RowOf(rows, k), reg[k]);
  }

  /** Whatever else a request holds, a stored token survives the placeholder shown for it. */
  lemma {:induction false} TokenSurvivesPlaceholder(env: Environment, reg: Registry, rows: Rows, body: seq<(string, Json)>, i: nat)
    requires DistinctKeys(body) && i < |body| && body[i].0 in reg && body[i].0 !in EXCLUDED_KEYS && "skills" !in reg
    requires reg[body[i].0].maskAlways && body[i].0 in rows && rows[body[i].0].Str? && rows[body[i].0].s != ""
    requires body[i].1 == Str(Mask(rows[body[i].0].s))
    ensures body[i].0 in WrittenAll(env, reg, rows, body) && WrittenAll(env, reg, rows, body)[body[i].0] == rows[body[i].0]
  {
    hide WrittenAll, Stored, Mask;
    var k := body[i].0;
    WrittenAllAt(env, reg, rows, body, k);
    PlaceholderIsIgnored(env, rows[k].s, reg[k]);
    assert RowOf(WrittenAll(env, reg, rows, body), k) == Some(rows[k]);
  }

  /** A number stored as the memory token is replaced by its placeholder when it is written back. */
  lemma NumberIsReplacedByPlaceholder(py: Python)
    requires py.str(Num(12345678)) == "12345678"
    ensures Stored(map[], Some(Num(12345678)), Shown(py, map[], Some(Num(12345678)), HINDSIGHT_TOKEN).value, HINDSIGHT_TOKEN)
            == Some(Str("1234****"))
  {
    assert Mask("12345678") == "1234****" by {
      assert "12345678"[..4] == "1234";
      assert "1234" + "****" == "1234****";
    }
    assert Mask("12345678") != "12345678";
  }

  /** Keys that the environment sets are never written. */
  lemma {:induction false} EnvironmentKeysAreNotWritten(env: Environment, reg: Registry, rows: Rows, body: seq<(string, Json)>, k: string)
    requires Skipped(env, reg, k)
    ensures RowOf(WrittenAll(env, reg, rows, body), k) == RowOf(rows, k)
  {
    hide Stored, EnvValue;
    if body != [] {
      EnvironmentKeysAreNotWritten(env, reg, rows, body[..|body| - 1], k);
    }
  }

  // ---------- The registry ----------

  function Plain(default_: Json): Meta {
    Meta(None, false, false, default_, false, false)
  }

  function Var(name: string, default_: Json): Meta {
    Meta(Some(name), false, false, default_, false, false)
  }

  const HINDSIGHT_TOKEN := Var("HINDSIGHT_TOKEN", Str("")).(sensitive := true, maskAlways := true)
  const NO_MODEL := Obj(map["provider_id" := Null, "model" := Str("")])

  const SETTINGS_REGISTRY: Registry := AGENT_SETTINGS + DEPLOYMENT_SETTINGS

  const AGENT_SETTINGS: Registry := map[
    "system_prompt" := Plain(Str("")),
    "llm_model" := Plain(NO_MODEL).(model := true),
    "task_processing_model" := Plain(NO_MODEL).(model := true),
    "transcription_model" := Plain(NO_MODEL).(model := true),
    "task_runner_log_level" := Plain(Str("INFO")),
    "timezone" := Plain(Str("UTC")),
    "max_turns" := Var("MAX_TURNS", Num(200)).(nullClears := true),
    "reasoning_effort" := Var("REASONING_EFFORT", Str("medium")).(nullClears := true),
    "archive_after_days" := Plain(Num(3)),
    "clarification_max_rounds" := Plain(Num(2)),
    "mcp_servers" := Plain(Null),
    "mcp_api_key" := Plain(Null).(sensitive := true),
    "ssh_public_key" := Plain(Null),
    "git_ssh_hosts" := Plain(Arr([Str("github.com"), Str("bitbucket.org")])),
    "skills_git_repo" := Plain(Null)]

  const DEPLOYMENT_SETTINGS: Registry := map[
    "oidc_discovery_url" := Var("OIDC_DISCOVERY_URL", Str("")),
    "oidc_client_id" := Var("OIDC_CLIENT_ID", Str("")),
    "oidc_client_secret" := Var("OIDC_CLIENT_SECRET", Str("")).(sensitive := true),
    "oidc_roles_claim" := Var("OIDC_ROLES_CLAIM", Str("resource_access.errand.roles")),
    "litellm_mcp_servers" := Plain(Arr([])),
    "hindsight_url" := Var("HINDSIGHT_URL", Str("")),
    "hindsight_bank_id" := Var("HINDSIGHT_BANK_ID", Str("errand-tasks")),
    "hindsight_token" := HINDSIGHT_TOKEN,
    "title_generation_timeout" := Plain(Num(30)),
    "task_processing_timeout" := Plain(Num(30)),
    "transcription_timeout" := Plain(Num(30)),
    "compaction_model" := Var("COMPACTION_MODEL", NO_MODEL).(model := true),
    "compaction_timeout" := Var("COMPACTION_TIMEOUT_SECONDS", Num(180)),
    "compaction_max_tokens" := Var("COMPACTION_MAX_TOKENS", Num(4096)),
    "max_context_tokens" := Var("MAX_CONTEXT_TOKENS", Num(150000)),
    "cloud_service_url" := Plain(Str("https://errand.cloud")),
    "cloud_endpoints" := Plain(Arr([])),
    "telemetry_enabled" := Var("TELEMETRY_ENABLED", Bool(true)),
    "max_concurrent_tasks" := Var("MAX_CONCURRENT_TASKS", Num(3)),
    "max_retry_attempts" := Var("MAX_RETRY_ATTEMPTS", Num(5)),
    "task_log_buffer_max_entries" := Plain(Num(5000)),
    "task_log_buffer_ttl_seconds" := Plain(Num(86400)),
    "plugin_poll_interval_seconds" := Plain(Num(21600)),
    "url_fetch_allowlist" := Plain(Arr([]))]

  /** The shipped registry meets what the round trip needs. */
  lemma ShippedRegistryOk()
    ensures RegistryOk(SETTINGS_REGISTRY)
  {
    hide MetaOk;
    AgentSettingsOk();
    DeploymentSettingsOk();
  }

  lemma AgentSettingsOk()
    ensures RegistryOk(AGENT_SETTINGS)
  {
  }

  lemma DeploymentSettingsOk()
    ensures RegistryOk(DEPLOYMENT_SETTINGS)
  {
  }

  // ---------- The code that does it, in place ----------

  class SettingsTable {
    var rows: Rows

    constructor ()
      ensures rows == map[]
    {
      rows := map[];
    }

    /** `resolve_settings`, over the registry's keys in order. */
    method ResolveSettings(py: Python, env: Environment, reg: Registry, keys: seq<string>) returns (resolved: map<string, Entry>)
      requires forall k :: k in keys <==> k in reg
      ensures resolved == Get(py, env, rows, reg)
    {
      hide Shown;
      resolved := map[];
      for i := 0 to |keys|
        invariant forall k :: k in resolved <==> k in keys[..i] && k !in EXCLUDED_KEYS
        invariant forall k :: k in resolved ==> resolved[k] == Shown(py, env, RowOf(rows, k), reg[k])
      {
        assert keys[..i + 1] == keys[..i] + [keys[i]];
        if keys[i] in EXCLUDED_KEYS {
          continue;
        }
        resolved := resolved[keys[i] := Shown(py, env, RowOf(rows, keys[i]), reg[keys[i]])];
      }
      assert keys[..|keys|] == keys;
    }

    /** `update_settings`: a request is written as a whole or, if a validator objects, not at all. */
    method UpdateSettings(env: Environment, reg: Registry, body: seq<(string, Json)>, valid: (string, Json) -> bool)
      returns (accepted: bool)
      modifies this
      ensures accepted <==> AllAccepted(env, reg, body, valid)
      ensures rows == if accepted then WrittenAll(env, reg, old(rows), body) else old(rows)
    {
      hide Normalize, Mask;
      var pending := rows;
      for i := 0 to |body|
        invariant rows == old(rows) && pending == WrittenAll(env, reg, rows, body[..i])
        invariant AllAccepted(env, reg, body[..i], valid)
      {
        var (key, value) := body[i];
        assert body[..i + 1][..i] == body[..i];
        if key == "skills" || key in EXCLUDED_KEYS || (key in reg && EnvValue(env, reg[key]).Some?) {
          continue;
        }
        if !(value == Null && key in reg && reg[key].nullClears) && !valid(key, value) {
          assert !Accepts(env, reg, body[i].0, body[i].1, valid);
          return false;
        }
        if key in reg && reg[key].maskAlways && value.Str? && key in pending && pending[key].Str? && pending[key].s != ""
           && value.s == Mask(pending[key].s) {
          assert pending[key := pending[key]] == pending;
          continue;
        }
        var normalized := if key in reg && reg[key].model then Normalize(value) else value;
        if value == Null && key in reg && reg[key].nullClears {
          pending := pending - {key};
          continue;
        }
        pending := pending[key := normalized];
      }
      assert body[..|body|] == body;
      rows := pending;
      return true;
    }
  }
}
