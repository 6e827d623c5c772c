/** The helpers of Python_WebSocket/utils.py that the summariser uses:
    salvaging a JSON object from model output, clamping the mood scores of
    a summary, and choosing a text model for a live model name. `json.loads`
    and Python's `float()` are parameters: partial functions whose answers
    the model does not fix. */
module SummarizerUtils {
  import opened Wrappers
  import opened Text

  /** A decoded JSON value (Python int and float kept apart). */
  datatype JsonValue =
    | JNull
    | JBool(b: bool)
    | JInt(i: int)
    | JFloat(x: real)
    | JString(s: string)
    | JArray(items: seq<JsonValue>)
    | JObject(entries: map<string, JsonValue>)

  // ------------------------------------------------------------ extract_json

  /** `{"raw": s}` */
  function Raw(s: string): JsonValue {
    JObject(map["raw" := JString(s)])
  }

  lemma OccursSingle(s: string, c: char, k: nat)
    requires k < |s|
    ensures OccursAt(s, [c], k) <==> s[k] == c
  {
    assert s[k..k + 1] == [s[k]];
  }

  /** The span from the first "{" to the last "}", when the last comes after the first. */
  function CandidateSpan(text: string): (r: Option<(nat, nat)>)
    ensures r.Some? ==>
      && r.value.0 < r.value.1 < |text| && text[r.value.0] == '{' && text[r.value.1] == '}'
      && (forall k :: 0 <= k < r.value.0 ==> text[k] != '{')
      && (forall k :: r.value.1 < k < |text| ==> text[k] != '}')
    ensures r.None? <==> forall i, j :: 0 <= i < j < |text| && text[i] == '{' ==> text[j] != '}'
  {
    var start := IndexOf(text, "{");
    var end := LastIndexOf(text, "}");
    if start.Some? && end.Some? && end.value > start.value then
      assert forall k :: 0 <= k < start.value ==> text[k] != '{' by {
        forall k | 0 <= k < start.value ensures text[k] != '{' { OccursSingle(text, '{', k); }
      }
      assert forall k :: end.value < k < |text| ==> text[k] != '}' by {
        forall k | end.value < k < |text| ensures text[k] != '}' { OccursSingle(text, '}', k); }
      }
      OccursSingle(text, '{', start.value);
      OccursSingle(text, '}', end.value);
      Some((start.value, end.value))
    else
      assert forall i, j :: 0 <= i < j < |text| && text[i] == '{' ==> text[j] != '}' by {
        forall i, j | 0 <= i < j < |text| && text[i] == '{' ensures text[j] != '}' {
          OccursSingle(text, '{', i);
          OccursSingle(text, '}', j);
        }
      }
      None
  }

  /** The fallback candidate, `text[start:end + 1]`. */
  function Candidate(text: string): (r: Option<string>)
    ensures r.Some? <==> CandidateSpan(text).Some?
    ensures r.Some? ==> |r.value| >= 2 && r.value[0] == '{' && r.value[|r.value| - 1] == '}'
    ensures r.Some? ==> exists i :: OccursAt(text, r.value, i)
  {
    match CandidateSpan(text)
    case None => None
    case Some((start, end)) =>
      assert text[start..end + 1][0] == text[start];
      assert OccursAt(text, text[start..end + 1], start);
      Some(text[start..end + 1])
  }

  /** extract_json (utils.py:6-22), for the JSON decoder `parse`. */
  function ExtractJson(text: string, parse: string -> Option<JsonValue>): (r: JsonValue)
    ensures text == "" ==> r == Raw("")
    ensures text != "" && parse(text).Some? ==> r == parse(text).value
    ensures text != "" && parse(text).None? && Candidate(text).Some? && parse(Candidate(text).value).Some? ==>
      r == parse(Candidate(text).value).value
    ensures text != "" && parse(text).None? && (Candidate(text).None? || parse(Candidate(text).value).None?) ==>
      r == Raw(Strip(Python, text))
  {
    if text == "" then Raw("")
    else if parse(text).Some? then parse(text).value
    else
      match Candidate(text)
      case Some(c) => if parse(c).Some? then parse(c).value else Raw(Strip(Python, text))
      case None => Raw(Strip(Python, text))
  }

  /** Whatever the decoder does, the result is a decoded value or a "raw" object holding the stripped text. */
  lemma ExtractJsonResult(text: string, parse: string -> Option<JsonValue>)
    ensures var r := ExtractJson(text, parse);
            r == Raw(Strip(Python, text)) || (exists s :: parse(s) == Some(r))
  {
    var r := ExtractJson(text, parse);
    if text == "" {
      assert Strip(Python, text) == "";
    } else if parse(text).Some? {
      assert parse(text) == Some(r);
    } else if Candidate(text).Some? && parse(Candidate(text).value).Some? {
      assert parse(Candidate(text).value) == Some(r);
    }
  }

  // ------------------------------------------------------------ validate_mood_scores

  /** Python 3 `round` of a number: to the nearest integer, halves to the even neighbour. */
  function RoundHalfEven(x: real): (r: int)
    ensures x - 0.5 <= r as real <= x + 0.5
  {
    var f := x.Floor;
    var d := x - f as real;
    if d < 0.5 then f else if d > 0.5 then f + 1 else if f % 2 == 0 then f else f + 1
  }

  /** Rounding keeps a number inside integer bounds it was already within. */
  lemma RoundWithin(x: real, lo: int, hi: int)
    requires lo as real <= x <= hi as real
    ensures lo <= RoundHalfEven(x) <= hi
  {
  }

  /** A score field and its upper bound (None for no bound); every lower bound is 0. */
  datatype ScoreField = ScoreField(name: string, max: Option<int>)

  /** score_fields (utils.py:30-38), in its order. */
  const ScoreFields: seq<ScoreField> := [
    ScoreField("mood_percentage", Some(100)),
    ScoreField("energy_level", Some(100)),
    ScoreField("stress_level", Some(100)),
    ScoreField("cognitive_score", Some(100)),
    ScoreField("emotional_score", Some(100)),
    ScoreField("anxiety_level", Some(100)),
    ScoreField("physical_activity_minutes", None)
  ]

  const SleepField := "sleep_duration_hours"

  predicate IsScoreField(name: string) {
    exists i :: 0 <= i < |ScoreFields| && ScoreFields[i].name == name
  }

  /** The fields that end up rounded. */
  predicate Rounded(name: string) {
    EndsWith(name, "_level") || EndsWith(name, "_score") || EndsWith(name, "_percentage")
  }

  function NumValue(v: JsonValue): real
    requires v.JInt? || v.JFloat?
  {
    if v.JInt? then v.i as real else v.x
  }

  /** The clamped score: the bound itself (an int) when one is crossed, else the parsed float. */
  function Clamp(x: real, max: Option<int>): (r: JsonValue)
    requires max.None? || max.value >= 0
    ensures r.JInt? || r.JFloat?
    ensures 0.0 <= NumValue(r) && (max.Some? ==> NumValue(r) <= max.value as real)
    ensures 0.0 <= x && (max.None? || x <= max.value as real) ==> NumValue(r) == x
  {
    if x < 0.0 then JInt(0)
    else if max.Some? && x > max.value as real then JInt(max.value)
    else JFloat(x)
  }

  /** The new value of a present, non-None score field (utils.py:43-64). */
  function ValidateScore(f: ScoreField, v: JsonValue, toFloat: JsonValue -> Option<real>): (r: JsonValue)
    requires f.max.None? || f.max.value >= 0
    ensures r.JInt? || r.JFloat?
    ensures 0.0 <= NumValue(r) && (f.max.Some? ==> NumValue(r) <= f.max.value as real)
    ensures Rounded(f.name) ==> r.JInt?
    ensures toFloat(v).None? ==> r == JInt(0)
  {
    match toFloat(v)
    case None => JInt(0)
    case Some(x) =>
      var c := Clamp(x, f.max);
      if Rounded(f.name) then
        RoundWithin(NumValue(c), 0, if f.max.Some? then f.max.value else NumValue(c).Floor + 1);
        JInt(RoundHalfEven(NumValue(c)))
      else c
  }

  /** One pass of the loop body for field `f`. */
  function ApplyField(d: map<string, JsonValue>, f: ScoreField, toFloat: JsonValue -> Option<real>): map<string, JsonValue>
    requires f.max.None? || f.max.value >= 0
  {
    if f.name in d && d[f.name] != JNull then d[f.name := ValidateScore(f, d[f.name], toFloat)] else d
  }

  predicate BoundsValid(fs: seq<ScoreField>) {
    forall i :: 0 <= i < |fs| ==> fs[i].max.None? || fs[i].max.value >= 0
  }

  /** The loop over the first fields of `fs`, in order. */
  function ApplyFields(d: map<string, JsonValue>, fs: seq<ScoreField>, toFloat: JsonValue -> Option<real>): map<string, JsonValue>
    requires BoundsValid(fs)
    decreases |fs|
  {
    if fs == [] then d else ApplyField(ApplyFields(d, fs[..|fs| - 1], toFloat), fs[|fs| - 1], toFloat)
  }

  predicate DistinctNames(fs: seq<ScoreField>) {
    forall i, j :: 0 <= i < j < |fs| ==> fs[i].name != fs[j].name
  }

  /** A key named by no field keeps its presence and value; a field's key gets
      its validated value when it was present and not None, and keeps it otherwise. */
  lemma {:induction false} ApplyFieldsAt(d: map<string, JsonValue>, fs: seq<ScoreField>, toFloat: JsonValue -> Option<real>, k: string)
    requires BoundsValid(fs) && DistinctNames(fs)
    ensures (k in ApplyFields(d, fs, toFloat)) == (k in d)
    ensures (forall i :: 0 <= i < |fs| ==> fs[i].name != k) && k in d ==> ApplyFields(d, fs, toFloat)[k] == d[k]
    ensures forall i :: 0 <= i < |fs| && fs[i].name == k && k in d ==>
      ApplyFields(d, fs, toFloat)[k] == if d[k] == JNull then JNull else ValidateScore(fs[i], d[k], toFloat)
  {
    if fs != [] {
      var init := fs[..|fs| - 1];
      assert BoundsValid(init) && DistinctNames(init);
      ApplyFieldsAt(d, init, toFloat, k);
      forall i | 0 <= i < |fs| && fs[i].name == k && k in d
        ensures ApplyFields(d, fs, toFloat)[k] == if d[k] == JNull then JNull else ValidateScore(fs[i], d[k], toFloat)
      {
        if i < |fs| - 1 {
          assert init[i] == fs[i];
        } else {
          assert forall j :: 0 <= j < |init| ==> init[j].name != k;
        }
      }
    }
  }

  lemma ScoreFieldsValid()
    ensures BoundsValid(ScoreFields) && DistinctNames(ScoreFields)
  {
  }

  /** The sleep rule (utils.py:66-75): unchanged in [0, 24], clamped outside it, None when unparsable. */
  function ValidateSleep(v: JsonValue, toFloat: JsonValue -> Option<real>): (r: JsonValue)
    ensures toFloat(v).None? ==> r == JNull
    ensures toFloat(v).Some? && toFloat(v).value < 0.0 ==> r == JInt(0)
    ensures toFloat(v).Some? && toFloat(v).value > 24.0 ==> r == JInt(24)
    ensures toFloat(v).Some? && 0.0 <= toFloat(v).value <= 24.0 ==> r == v
  {
    match toFloat(v)
    case None => JNull
    case Some(h) => if h < 0.0 then JInt(0) else if h > 24.0 then JInt(24) else v
  }

  /** The summary after validation: every score field processed in turn, then the sleep rule. */
  function ValidatedEntries(d: map<string, JsonValue>, toFloat: JsonValue -> Option<real>): map<string, JsonValue>
  {
    ScoreFieldsValid();
    var e := ApplyFields(d, ScoreFields, toFloat);
    if SleepField in e && e[SleepField] != JNull then e[SleepField := ValidateSleep(e[SleepField], toFloat)] else e
  }

  /** validate_mood_scores (utils.py:24-77). Non-objects come back unchanged. */
  method ValidateMoodScores(summary: JsonValue, toFloat: JsonValue -> Option<real>) returns (r: JsonValue)
    ensures !summary.JObject? ==> r == summary
    ensures summary.JObject? ==> r == JObject(ValidatedEntries(summary.entries, toFloat))
  {
    if !summary.JObject? {
      return summary;
    }
    ScoreFieldsValid();
    var d := summary.entries;
    var i := 0;
    while i < |ScoreFields|
      invariant 0 <= i <= |ScoreFields|
      invariant d == ApplyFields(summary.entries, ScoreFields[..i], toFloat)
    {
      var field := ScoreFields[i];
      if field.name in d && d[field.name] != JNull {
        d := d[field.name := ValidateScore(field, d[field.name], toFloat)];
      }
      assert ScoreFields[..i + 1][..i] == ScoreFields[..i];
      i := i + 1;
    }
    assert ScoreFields[..i] == ScoreFields;
    if SleepField in d && d[SleepField] != JNull {
      d := d[SleepField := ValidateSleep(d[SleepField], toFloat)];
    }
    return JObject(d);
  }

  lemma SleepIsNoScoreField()
    ensures !IsScoreField(SleepField)
  {
  }

  /** After validation every present, non-None score field holds a number of
      at least 0, at most its bound when it has one, an integer when its name
      is a rounded one, and 0 when it did not parse; a None or absent field,
      and a key that is neither a score field nor the sleep field, is untouched. */
  lemma ValidatedScores(d: map<string, JsonValue>, toFloat: JsonValue -> Option<real>, i: nat)
    requires i < |ScoreFields|
    ensures var f := ScoreFields[i]; var e := ValidatedEntries(d, toFloat);
      && (f.name in e <==> f.name in d)
      && (f.name in d && d[f.name] == JNull ==> e[f.name] == JNull)
      && (f.name in d && d[f.name] != JNull ==>
            && (e[f.name].JInt? || e[f.name].JFloat?)
            && 0.0 <= NumValue(e[f.name]) && (f.max.Some? ==> NumValue(e[f.name]) <= f.max.value as real)
            && (Rounded(f.name) ==> e[f.name].JInt?)
            && (toFloat(d[f.name]).None? ==> e[f.name] == JInt(0)))
  {
    ScoreFieldsValid();
    SleepIsNoScoreField();
    ApplyFieldsAt(d, ScoreFields, toFloat, ScoreFields[i].name);
  }

  /** Keys outside score_fields and other than the sleep field keep their presence and value. */
  lemma ValidatedOtherKeys(d: map<string, JsonValue>, toFloat: JsonValue -> Option<real>, k: string)
    requires !IsScoreField(k) && k != SleepField
    ensures (k in ValidatedEntries(d, toFloat)) == (k in d)
    ensures k in d ==> ValidatedEntries(d, toFloat)[k] == d[k]
  {
    ScoreFieldsValid();
    ApplyFieldsAt(d, ScoreFields, toFloat, k);
  }

  /** The sleep field after validation. */
  lemma ValidatedSleep(d: map<string, JsonValue>, toFloat: JsonValue -> Option<real>)
    ensures (SleepField in ValidatedEntries(d, toFloat)) == (SleepField in d)
    ensures SleepField in d ==>
      ValidatedEntries(d, toFloat)[SleepField] == if d[SleepField] == JNull then JNull else ValidateSleep(d[SleepField], toFloat)
  {
    ScoreFieldsValid();
    SleepIsNoScoreField();
    ApplyFieldsAt(d, ScoreFields, toFloat, SleepField);
  }

  // ------------------------------------------------------------ pick_summarizer_model

  const FlashExp := "gemini-2.0-flash-exp"
  const Flash15 := "gemini-1.5-flash"

  predicate IsLiveName(m: string) {
    Contains(m, "live") || Contains(m, "native-audio") || Contains(m, "realtime")
  }

  /** pick_summarizer_model (utils.py:83-102); an absent name is None. */
  function PickSummarizerModel(name: Option<string>): (r: string)
    ensures var m := Lower(name.GetOr(""));
      && (IsLiveName(m) && (Contains(m, "2.5") || Contains(m, "2-5") || Contains(m, "2.0") || Contains(m, "2-")) ==> r == FlashExp)
      && (IsLiveName(m) && !(Contains(m, "2.5") || Contains(m, "2-5") || Contains(m, "2.0") || Contains(m, "2-")) ==> r == Flash15)
      && (!IsLiveName(m) && name.Some? && name.value != "" ==> r == name.value)
      && (name.None? || name.value == "" ==> r == Flash15)
  {
    var m := Lower(name.GetOr(""));
    if IsLiveName(m) then
      if Contains(m, "2.5") || Contains(m, "2-5") then FlashExp
      else if Contains(m, "2.0") || Contains(m, "2-") then FlashExp
      else Flash15
    else
      if name.Some? && name.value != "" then name.value else
        assert !Contains(Lower(""), "live");
        Flash15
  }

  /** A pattern holding a character the text lacks does not occur in it. */
  lemma MissingCharNotContained(s: string, p: string, c: char)
    requires c in p && c !in s
    ensures !Contains(s, p)
  {
  }

  /** A name without 'v', 'V', 'r' or 'R' is no live name, lowercased or not. */
  lemma NoLiveLetters(s: string)
    requires 'v' !in s && 'V' !in s && 'r' !in s && 'R' !in s
    ensures !IsLiveName(Lower(s))
  {
    var m := Lower(s);
    assert 'v' !in m && 'r' !in m by {
      forall i | 0 <= i < |m| ensures m[i] != 'v' && m[i] != 'r' {
        assert m[i] == LowerChar(s[i]) && s[i] in s;
      }
    }
    assert "live"[2] == 'v' && "native-audio"[4] == 'v' && "realtime"[0] == 'r';
    MissingCharNotContained(m, "live", 'v');
    MissingCharNotContained(m, "native-audio", 'v');
    MissingCharNotContained(m, "realtime", 'r');
  }


  lemma NoLiveLettersInFlashExp()
    ensures 'v' !in FlashExp && 'V' !in FlashExp && 'r' !in FlashExp && 'R' !in FlashExp
  {
  }

  lemma NoLiveLettersInFlash15()
    ensures 'v' !in Flash15 && 'V' !in Flash15 && 'r' !in Flash15 && 'R' !in Flash15
  {
  }

  /** The two fallback models are not live names. */
  lemma FallbacksAreTextModels()
    ensures !IsLiveName(Lower(FlashExp)) && !IsLiveName(Lower(Flash15))
  {
    NoLiveLettersInFlashExp();
    NoLiveLetters(FlashExp);
    NoLiveLettersInFlash15();
    NoLiveLetters(Flash15);
  }

  /** A live, native-audio or realtime name is never handed back as it is. */
  lemma LiveNameNeverKept(name: string)
    requires IsLiveName(Lower(name))
    ensures PickSummarizerModel(Some(name)) != name
  {
    var r := PickSummarizerModel(Some(name));
    assert r == FlashExp || r == Flash15;
    FallbacksAreTextModels();
  }
}
