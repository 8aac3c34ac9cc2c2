/** The settings page: the nested settings object, its toggle and select
    updates, the privacy score with its level, and the three privacy presets. */
module SettingsPage {
  import opened Base

  /** A JavaScript value as the settings object holds it. */
  datatype Value = Bool(b: bool) | Text(s: string) | Number(n: int) | Object(fields: map<string, Value>) | Undefined

  /** JavaScript truthiness, which `!` negates. */
  predicate Truthy(v: Value) {
    match v
    case Bool(b) => b
    case Text(s) => s != ""
    case Number(n) => n != 0
    case Object(_) => true
    case Undefined => false
  }

  /** `v[key]`: a missing property reads as `undefined`; reading a property
      of `undefined` throws (`None`). */
  function Get(v: Value, key: string): (r: Option<Value>)
    ensures r.None? <==> v.Undefined?
    ensures v.Object? && key in v.fields ==> r == Some(v.fields[key])
    ensures v.Object? && key !in v.fields ==> r == Some(Undefined)
  {
    match v
    case Undefined => None
    case Object(m) => Some(if key in m then m[key] else Undefined)
    case _ => Some(Undefined)
  }

  /** The own properties `{...v}` copies: those of an object, none otherwise. */
  function Spread(v: Value): map<string, Value> {
    if v.Object? then v.fields else map[]
  }

  /** `{...v, [key]: x}`. */
  function With(v: Value, key: string, x: Value): (r: Value)
    ensures r.Object? && r.fields == Spread(v)[key := x]
  {
    Object(Spread(v)[key := x])
  }

  /** `subfield` selects the nested form only when it is truthy, so an empty
      name behaves like no subfield at all. */
  predicate Nested(subfield: Option<string>) {
    subfield.Some? && subfield.value != ""
  }

  /** `handleSelect`: the settings after storing `value` at
      `category.field[.subfield]`; `None` when the path runs through `undefined`. */
  function Select(prev: Value, category: string, field: string, value: Value, subfield: Option<string>): (r: Option<Value>)
    ensures r.None? <==> prev.Undefined? || (Nested(subfield) && Get(prev, category).value.Undefined?)
    ensures r.Some? ==> r.value.Object? && At(r.value, Target(category, field, subfield)) == value
  {
    match Get(prev, category)
    case None => None
    case Some(c) =>
      if Nested(subfield) then
        match Get(c, field)
        case None => None
        case Some(f) =>
          var inner := With(f, subfield.value, value);
          var middle := With(c, field, inner);
          assert At(inner, [subfield.value]) == At(value, []);
          assert At(middle, [field, subfield.value]) == At(inner, [subfield.value]) by {
            assert [field, subfield.value][1..] == [subfield.value];
          }
          assert At(With(prev, category, middle), [category, field, subfield.value]) == At(middle, [field, subfield.value]) by {
            assert [category, field, subfield.value][1..] == [field, subfield.value];
          }
          Some(With(prev, category, middle))
      else
        var middle := With(c, field, value);
        assert At(middle, [field]) == At(value, []);
        assert At(With(prev, category, middle), [category, field]) == At(middle, [field]) by {
          assert [category, field][1..] == [field];
        }
        Some(With(prev, category, middle))
  }

  /** `handleToggle`: stores the negation of what the path held. */
  function Toggle(prev: Value, category: string, field: string, subfield: Option<string>): (r: Option<Value>)
    ensures r.None? <==>
      || prev.Undefined? || Get(prev, category).value.Undefined?
      || (Nested(subfield) && Get(Get(prev, category).value, field).value.Undefined?)
    ensures r.Some? ==> At(r.value, Target(category, field, subfield)) == Bool(!Truthy(At(prev, Target(category, field, subfield))))
  {
    match Get(prev, category)
    case None => None
    case Some(c) =>
      if Nested(subfield) then
        match Get(c, field)
        case None => None
        case Some(f) =>
          match Get(f, subfield.value)
          case None => None
          case Some(x) =>
            assert At(f, [subfield.value]) == x;
            assert At(c, [field, subfield.value]) == x by {
              assert [field, subfield.value][1..] == [subfield.value];
            }
            assert At(prev, [category, field, subfield.value]) == x by {
              assert [category, field, subfield.value][1..] == [field, subfield.value];
            }
            Select(prev, category, field, Bool(!Truthy(x)), subfield)
      else
        match Get(c, field)
        case None => None
        case Some(x) =>
          assert At(c, [field]) == x;
          assert At(prev, [category, field]) == x by {
            assert [category, field][1..] == [field];
          }
          Select(prev, category, field, Bool(!Truthy(x)), subfield)
  }

  /** The value at a path of property names, `undefined` past a missing step. */
  function At(v: Value, path: seq<string>): Value
    decreases |path|
  {
    if path == [] then v
    else if v.Object? && path[0] in v.fields then At(v.fields[path[0]], path[1..])
    else Undefined
  }

  /** The path a toggle or select addresses. */
  function Target(category: string, field: string, subfield: Option<string>): seq<string> {
    if Nested(subfield) then [category, field, subfield.value] else [category, field]
  }

  /** `p` is a setting apart from `q`: neither path extends the other. */
  predicate Apart(p: seq<string>, q: seq<string>) {
    exists i :: 0 <= i < |p| && i < |q| && p[i] != q[i]
  }

  /** The settings object the page keeps: every category the toggles reach is
      an object, and so is every field a subfield addresses. */
  predicate Reaches(prev: Value, category: string, field: string, subfield: Option<string>) {
    && prev.Object? && category in prev.fields && prev.fields[category].Object?
    && (Nested(subfield) ==> field in prev.fields[category].fields && prev.fields[category].fields[field].Object?)
  }

  /** Reading a two- or three-step path is reading one step at a time. */
  lemma AtTarget(v: Value, category: string, field: string, subfield: Option<string>)
    requires Reaches(v, category, field, subfield)
    ensures var c := v.fields[category];
      At(v, Target(category, field, subfield))
      == if Nested(subfield) then Get(c.fields[field], subfield.value).value else Get(c, field).value
  {
    var t := Target(category, field, subfield);
    assert t[1..][1..] == t[2..];
    if Nested(subfield) {
      var c := v.fields[category];
      var f := c.fields[field];
      assert t[1..] == [field, subfield.value] && t[2..] == [subfield.value] && t[2..][1..] == [];
      assert At(v, t) == At(c, [field, subfield.value]);
      assert At(c, [field, subfield.value]) == At(f, [subfield.value]);
      if subfield.value in f.fields {
        assert At(f, [subfield.value]) == At(f.fields[subfield.value], []);
      }
    } else {
      assert t[1..] == [field] && t[1..][1..] == [];
      var c := v.fields[category];
      assert At(v, t) == At(c, [field]);
      if field in c.fields {
        assert At(c, [field]) == At(c.fields[field], []);
      }
    }
  }

  lemma AtWith(v: Value, key: string, x: Value, path: seq<string>)
    requires v.Object? && path != []
    ensures path[0] == key ==> At(With(v, key, x), path) == At(x, path[1..])
    ensures path[0] != key ==> At(With(v, key, x), path) == At(v, path)
  {
  }

  /** `handleSelect` stores the value at the addressed path and leaves every
      setting apart from that path as it was. */
  lemma SelectSetsOnlyTarget(prev: Value, category: string, field: string, value: Value, subfield: Option<string>, p: seq<string>)
    requires Reaches(prev, category, field, subfield)
    ensures Select(prev, category, field, value, subfield).Some?
    ensures At(Select(prev, category, field, value, subfield).value, Target(category, field, subfield)) == value
    ensures Apart(p, Target(category, field, subfield)) ==>
              At(Select(prev, category, field, value, subfield).value, p) == At(prev, p)
  {
    var r := Select(prev, category, field, value, subfield).value;
    AtTarget(r, category, field, subfield);
    if Apart(p, Target(category, field, subfield)) {
      SelectKeepsApart(prev, category, field, value, subfield, p);
    }
  }

  /** The step of `SelectSetsOnlyTarget` for a path apart from the target:
      it leaves the written object at the first step where it turns away. */
  lemma SelectKeepsApart(prev: Value, category: string, field: string, value: Value, subfield: Option<string>, p: seq<string>)
    requires Reaches(prev, category, field, subfield) && Apart(p, Target(category, field, subfield))
    ensures At(Select(prev, category, field, value, subfield).value, p) == At(prev, p)
  {
    var t := Target(category, field, subfield);
    var c := prev.fields[category];
    var inner := if Nested(subfield) then With(c.fields[field], subfield.value, value) else value;
    var i :| 0 <= i < |p| && i < |t| && p[i] != t[i];
    AtWith(prev, category, With(c, field, inner), p);
    if p[0] == category {
      assert At(prev, p) == At(c, p[1..]);
      AtWith(c, field, inner, p[1..]);
      if p[1] == field {
        var f := c.fields[field];
        assert Nested(subfield) && i == 2;
        assert At(c, p[1..]) == At(f, p[2..]);
        AtWith(f, subfield.value, value, p[2..]);
      }
    }
  }

  /** Selecting the same value twice is the same as selecting it once. */
  lemma SelectIdempotent(prev: Value, category: string, field: string, value: Value, subfield: Option<string>)
    requires Reaches(prev, category, field, subfield)
    ensures var once := Select(prev, category, field, value, subfield);
      once.Some? && Select(once.value, category, field, value, subfield) == once
  {
    var once := Select(prev, category, field, value, subfield).value;
    var c := prev.fields[category];
    var c1 := once.fields[category];
    assert c1.fields == c.fields[field := c1.fields[field]];
    if Nested(subfield) {
      var f := c.fields[field];
      var f1 := c1.fields[field];
      assert f1.fields == f.fields[subfield.value := value];
      assert f1.fields[subfield.value := value] == f1.fields;
    }
    assert c1.fields[field := c1.fields[field]] == c1.fields;
    assert once.fields[category := c1] == once.fields;
  }

  /** `handleToggle` negates the addressed setting and leaves every setting
      apart from it as it was. */
  lemma ToggleNegatesOnlyTarget(prev: Value, category: string, field: string, subfield: Option<string>, p: seq<string>)
    requires Reaches(prev, category, field, subfield)
    ensures Toggle(prev, category, field, subfield).Some?
    ensures At(Toggle(prev, category, field, subfield).value, Target(category, field, subfield))
            == Bool(!Truthy(At(prev, Target(category, field, subfield))))
    ensures Apart(p, Target(category, field, subfield)) ==>
              At(Toggle(prev, category, field, subfield).value, p) == At(prev, p)
  {
    var t := Target(category, field, subfield);
    var c := prev.fields[category];
    var x := if Nested(subfield) then Get(c.fields[field], subfield.value).value else Get(c, field).value;
    AtTarget(prev, category, field, subfield);
    SelectSetsOnlyTarget(prev, category, field, Bool(!Truthy(x)), subfield, p);
  }

  /** Toggling a boolean setting twice gives back the settings it started from. */
  lemma ToggleTwiceRestores(prev: Value, category: string, field: string, subfield: Option<string>)
    requires Reaches(prev, category, field, subfield)
    requires At(prev, Target(category, field, subfield)).Bool?
    ensures var once := Toggle(prev, category, field, subfield);
      once.Some? && Toggle(once.value, category, field, subfield) == Some(prev)
  {
    var once := Toggle(prev, category, field, subfield).value;
    var c := prev.fields[category];
    var c1 := once.fields[category];
    AtTarget(prev, category, field, subfield);
    if Nested(subfield) {
      var f := c.fields[field];
      assert subfield.value in f.fields;
      var f1 := c1.fields[field];
      assert f1.fields[subfield.value := f.fields[subfield.value]] == f.fields;
      assert c1.fields[field := f] == c.fields;
    } else {
      assert c1.fields[field := c.fields[field]] == c.fields;
    }
    assert once.fields[category := c] == prev.fields;
  }

  const MaxScore := 100

  /** A privacy property as the page reads it; a missing one is undefined. */
  function Setting(privacy: map<string, Value>, key: string): Value {
    if key in privacy then privacy[key] else Undefined
  }

  /** The points one privacy setting earns; the six are independent. */
  function Points(privacy: map<string, Value>, key: string): int {
    var v := Setting(privacy, key);
    if key == "profileVisibility" then
      (if v == Text("private") then 30 else if v == Text("friends") then 15 else 0)
    else if key == "activityStatus" then (if v == Text("hidden") then 20 else 0)
    else if key == "searchVisibility" || key == "dataSharing" then (if !Truthy(v) then 15 else 0)
    else if key == "analytics" || key == "marketingEmails" then (if !Truthy(v) then 10 else 0)
    else 0
  }

  const ScoredKeys := ["profileVisibility", "activityStatus", "searchVisibility", "dataSharing", "analytics", "marketingEmails"]

  /** The uncapped score: the points of every scored setting. */
  function RawScore(privacy: map<string, Value>): int {
    Points(privacy, "profileVisibility") + Points(privacy, "activityStatus")
    + Points(privacy, "searchVisibility") + Points(privacy, "dataSharing")
    + Points(privacy, "analytics") + Points(privacy, "marketingEmails")
  }

  /** `calculatePrivacyScore` on the privacy object's properties: adds the
      points setting by setting, then caps at 100. */
  method CalculatePrivacyScore(privacy: map<string, Value>) returns (score: int)
    ensures score == Min(RawScore(privacy), MaxScore)
    ensures 0 <= score <= MaxScore
  {
    score := 0;
    if Setting(privacy, "profileVisibility") == Text("private") {
      score := score + 30;
    } else if Setting(privacy, "profileVisibility") == Text("friends") {
      score := score + 15;
    }
    assert score == Points(privacy, "profileVisibility");
    if Setting(privacy, "activityStatus") == Text("hidden") {
      score := score + 20;
    }
    if !Truthy(Setting(privacy, "searchVisibility")) {
      score := score + 15;
    }
    if !Truthy(Setting(privacy, "dataSharing")) {
      score := score + 15;
    }
    assert score == Points(privacy, "profileVisibility") + Points(privacy, "activityStatus")
                    + Points(privacy, "searchVisibility") + Points(privacy, "dataSharing");
    if !Truthy(Setting(privacy, "analytics")) {
      score := score + 10;
    }
    if !Truthy(Setting(privacy, "marketingEmails")) {
      score := score + 10;
    }
    score := Min(score, MaxScore);
  }

  /** The score as the functions below read it. */
  function Score(privacy: map<string, Value>): int {
    Min(RawScore(privacy), MaxScore)
  }

  /** The points add up to at most 100 exactly, so the cap never lowers a
      score and every score lies in [0, 100]. */
  lemma RawScoreBounded(privacy: map<string, Value>)
    ensures 0 <= RawScore(privacy) <= MaxScore
    ensures Score(privacy) == RawScore(privacy)
  {
  }

  /** The value of a scored setting that earns it the most points. */
  function MostPrivate(key: string): Value {
    if key == "profileVisibility" then Text("private")
    else if key == "activityStatus" then Text("hidden")
    else Bool(false)
  }

  /** Switching any one setting to its most private value never lowers the score. */
  lemma MorePrivateNeverLowers(privacy: map<string, Value>, key: string)
    requires key in ScoredKeys
    ensures Score(privacy[key := MostPrivate(key)]) >= Score(privacy)
  {
    var q := privacy[key := MostPrivate(key)];
    forall k | k in ScoredKeys ensures Points(q, k) >= Points(privacy, k) {
    }
    assert Points(q, "profileVisibility") >= Points(privacy, "profileVisibility");
    assert Points(q, "activityStatus") >= Points(privacy, "activityStatus");
    assert Points(q, "searchVisibility") >= Points(privacy, "searchVisibility");
    assert Points(q, "dataSharing") >= Points(privacy, "dataSharing");
    assert Points(q, "analytics") >= Points(privacy, "analytics");
    assert Points(q, "marketingEmails") >= Points(privacy, "marketingEmails");
  }

  datatype PrivacyLevel = High | Medium | Low

  /** `getPrivacyLevel`. */
  function Level(score: int): (r: PrivacyLevel)
    ensures r == High <==> score >= 80
    ensures r == Medium <==> 60 <= score < 80
    ensures r == Low <==> score < 60
  {
    if score >= 80 then High else if score >= 60 then Medium else Low
  }

  function Rank(l: PrivacyLevel): int {
    match l
    case Low => 0
    case Medium => 1
    case High => 2
  }

  /** A higher score never gives a lower level. */
  lemma LevelMonotone(s1: int, s2: int)
    requires s1 <= s2
    ensures Rank(Level(s1)) <= Rank(Level(s2))
  {
  }

  datatype Preset = PublicPreset | BalancedPreset | PrivatePreset

  /** The six privacy properties each preset button writes. */
  function PresetFields(p: Preset): map<string, Value> {
    match p
    case PublicPreset =>
      map["profileVisibility" := Text("public"), "activityStatus" := Text("visible"), "searchVisibility" := Bool(true),
          "dataSharing" := Bool(true), "analytics" := Bool(true), "marketingEmails" := Bool(true)]
    case BalancedPreset =>
      map["profileVisibility" := Text("friends"), "activityStatus" := Text("visible"), "searchVisibility" := Bool(true),
          "dataSharing" := Bool(false), "analytics" := Bool(true), "marketingEmails" := Bool(false)]
    case PrivatePreset =>
      map["profileVisibility" := Text("private"), "activityStatus" := Text("hidden"), "searchVisibility" := Bool(false),
          "dataSharing" := Bool(false), "analytics" := Bool(false), "marketingEmails" := Bool(false)]
  }

  /** Applying a preset: `{...prev, privacy: {...prev.privacy, <six fields>}}`;
      every other category is left alone. */
  function ApplyPreset(prev: Value, p: Preset): (r: Value)
    ensures r.Object? && r.fields.Keys == Spread(prev).Keys + {"privacy"}
    ensures forall k :: k in Spread(prev) && k != "privacy" ==> r.fields[k] == Spread(prev)[k]
  {
    var privacy := if prev.Object? && "privacy" in prev.fields then prev.fields["privacy"] else Undefined;
    With(prev, "privacy", Object(Spread(privacy) + PresetFields(p)))
  }

  function PrivacyOf(v: Value): map<string, Value> {
    if v.Object? && "privacy" in v.fields then Spread(v.fields["privacy"]) else map[]
  }

  /** The presets score 0 (Low), 40 (Low) and 100 (High) whatever the page
      held before. */
  lemma PresetScores(prev: Value, p: Preset)
    ensures p == PublicPreset ==> Score(PrivacyOf(ApplyPreset(prev, p))) == 0
    ensures p == BalancedPreset ==> Score(PrivacyOf(ApplyPreset(prev, p))) == 40
    ensures p == PrivatePreset ==> Score(PrivacyOf(ApplyPreset(prev, p))) == 100
    ensures Level(Score(PrivacyOf(ApplyPreset(prev, p)))) == (if p == PrivatePreset then High else Low)
  {
    var q := PrivacyOf(ApplyPreset(prev, p));
    PresetOverrides(prev, p);
    SameScoredSettings(q, PresetFields(p));
    PresetRawScore(p);
    RawScoreBounded(q);
  }

  /** Every property a preset writes reads back with the preset's value. */
  lemma PresetOverrides(prev: Value, p: Preset)
    ensures forall k :: k in PresetFields(p) ==>
      k in PrivacyOf(ApplyPreset(prev, p)) && PrivacyOf(ApplyPreset(prev, p))[k] == PresetFields(p)[k]
  {
    var privacy := if prev.Object? && "privacy" in prev.fields then prev.fields["privacy"] else Undefined;
    assert PrivacyOf(ApplyPreset(prev, p)) == Spread(privacy) + PresetFields(p);
  }

  /** The score reads only the six scored settings. */
  lemma SameScoredSettings(a: map<string, Value>, b: map<string, Value>)
    requires forall k :: k in b ==> k in a && a[k] == b[k]
    requires "profileVisibility" in b && "activityStatus" in b && "searchVisibility" in b
    requires "dataSharing" in b && "analytics" in b && "marketingEmails" in b
    ensures RawScore(a) == RawScore(b)
  {
    assert Points(a, "profileVisibility") == Points(b, "profileVisibility");
    assert Points(a, "activityStatus") == Points(b, "activityStatus");
    assert Points(a, "searchVisibility") == Points(b, "searchVisibility");
    assert Points(a, "dataSharing") == Points(b, "dataSharing");
    assert Points(a, "analytics") == Points(b, "analytics");
    assert Points(a, "marketingEmails") == Points(b, "marketingEmails");
  }

  /** The points each preset's own six values earn. */
  lemma PresetRawScore(p: Preset)
    ensures RawScore(PresetFields(p)) == match p case PublicPreset => 0 case BalancedPreset => 40 case PrivatePreset => 100
  {
  }
}
