/** The data shaping of frontend/components/Dashboard.tsx: saving the edited
    profile, turning the latest session summary into mood data, the
    suggested-exercise selection and the tip of the current 12-hour window.
    The HTTP responses, `Number.parseFloat` and the clock are parameters. */
module Dashboard {
  import opened Wrappers
  import opened Types
  import opened Js
  import Text
  import Seqs
  import Auth

  // ---------------------------------------------------------------- profile edits

  /** The body of the profile update request: the uid and each filled-in field, trimmed. */
  datatype UpdatePayload = UpdatePayload(uid: string, name: Option<string>, age: Option<string>, gender: Option<string>)

  function Trim(s: string): string {
    Text.Strip(Text.JavaScript, s)
  }

  /** The trimmed field when it is not blank (the conditional assignments of handleSave). */
  function Filled(s: string): (r: Option<string>)
    ensures r.None? <==> Trim(s) == ""
    ensures r.Some? ==> r.value == Trim(s) && r.value != ""
  {
    if Trim(s) != "" then Some(Trim(s)) else None
  }

  /** updateData (Dashboard.tsx:121-133). */
  function UpdateData(uid: string, name: string, age: string, gender: string): (p: UpdatePayload)
    ensures p.uid == uid
    ensures p.name == Filled(name) && p.age == Filled(age) && p.gender == Filled(gender)
  {
    UpdatePayload(uid, Filled(name), Filled(age), Filled(gender))
  }

  /** The user after a successful save (Dashboard.tsx:145-150): a filled-in field
      replaces the old value, a blank one keeps it. The age is `parseInt` of the
      typed text; an age that does not parse (NaN) is stored as absent. */
  function SavedUser(user: User, name: string, age: string, gender: string): (u: User)
    ensures u.uid == user.uid && u.email == user.email
    ensures Trim(name) == "" ==> u.name == user.name
    ensures Trim(name) != "" ==> u.name == Some(Trim(name))
    ensures Trim(age) == "" ==> u.age == user.age
    ensures Trim(gender) == "" ==> u.gender == user.gender
    ensures Trim(gender) != "" ==> u.gender == Some(Trim(gender))
  {
    var newAge := if Trim(age) != "" then (match Text.ParseInt(age) case NaN => None case Int(n) => Some(n)) else user.age;
    user.(name := if Trim(name) != "" then Some(Trim(name)) else user.name,
          age := newAge,
          gender := if Trim(gender) != "" then Some(Trim(gender)) else user.gender)
  }

  /** The saved user agrees with the payload on every field it carries and
      keeps the previous value of every field left blank; uid and e-mail never change. */
  lemma SavedUserMatchesPayload(user: User, name: string, age: string, gender: string)
    ensures var u := SavedUser(user, name, age, gender); var p := UpdateData(user.uid, name, age, gender);
      && u.uid == user.uid && u.email == user.email
      && (p.name.Some? ==> u.name == p.name) && (p.name.None? ==> u.name == user.name)
      && (p.gender.Some? ==> u.gender == p.gender) && (p.gender.None? ==> u.gender == user.gender)
      && (p.age.None? ==> u.age == user.age)
  {
  }

  /** A typed age in decimal is saved as that number; surrounding blanks do not matter. */
  lemma SavedAgeOfNumber(user: User, name: string, n: nat, gender: string)
    ensures SavedUser(user, name, Text.NatToString(n), gender).age == Some(n)
  {
    NumeralIsTrimmed(n);
    Text.ParseIntOfNatToString(n);
  }

  lemma NumeralIsTrimmed(n: nat)
    ensures Trim(Text.NatToString(n)) == Text.NatToString(n) != ""
  {
    var a := Text.NatToString(n);
    assert Text.IsDigits(a);
    assert forall i :: 0 <= i < |a| ==> !Text.IsSpace(Text.JavaScript, a[i]);
    Text.StripOfStripped(Text.JavaScript, a);
  }

  /** The conditional field assignments that build updateData (Dashboard.tsx:121-133). */
  method BuildUpdateData(uid: string, name: string, age: string, gender: string) returns (p: UpdatePayload)
    ensures p == UpdateData(uid, name, age, gender)
  {
    p := UpdatePayload(uid, None, None, None);
    if Trim(name) != "" {
      p := p.(name := Some(Trim(name)));
    }
    if Trim(age) != "" {
      p := p.(age := Some(Trim(age)));
    }
    if Trim(gender) != "" {
      p := p.(gender := Some(Trim(gender)));
    }
  }

  /** How the update request ended: accepted, answered with an error body
      (its `error` field, if any), or not answered at all (a thrown error). */
  datatype SaveResponse = Accepted | Rejected(error: Option<string>) | Unreachable

  const NothingToSave := "Please fill in at least one field before saving."
  const ProfileUpdated := "Profile updated successfully!"
  const UpdateFailed := "Failed to update profile"
  const UpdateFailedRetry := "Failed to update profile. Please try again."

  /** The alert a rejected request shows: the server's error, else the generic text. */
  function RejectionNotice(error: Option<string>): string {
    if error.Some? && error.value != "" then error.value else UpdateFailed
  }

  /** What handleSave sends, hands to onUserUpdate and alerts. */
  datatype SaveOutcome = SaveOutcome(sent: Option<UpdatePayload>, updated: Option<User>, notice: Option<string>)

  /** The outcome of handleSave (Dashboard.tsx:109-170) for the typed fields
      and the way the update request ended. */
  function SaveOutcomeOf(currentUser: Option<User>, name: string, age: string, gender: string, response: SaveResponse): (r: SaveOutcome)
    ensures currentUser.None? || currentUser.value.uid == "" ==> r == SaveOutcome(None, None, None)
    ensures currentUser.Some? && currentUser.value.uid != "" && Trim(name) == "" && Trim(age) == "" && Trim(gender) == "" ==>
      r == SaveOutcome(None, None, Some(NothingToSave))
    ensures r.sent.Some? <==> currentUser.Some? && currentUser.value.uid != "" && (Trim(name) != "" || Trim(age) != "" || Trim(gender) != "")
    ensures r.sent.Some? ==> r.sent.value == UpdateData(currentUser.value.uid, name, age, gender)
    ensures r.updated.Some? <==> r.sent.Some? && response.Accepted?
    ensures r.updated.Some? ==> r.updated.value == SavedUser(currentUser.value, name, age, gender) && r.notice == Some(ProfileUpdated)
    ensures r.sent.Some? && response.Rejected? ==> r.notice == Some(RejectionNotice(response.error))
    ensures r.sent.Some? && response.Unreachable? ==> r.notice == Some(UpdateFailedRetry)
  {
    if currentUser.None? || currentUser.value.uid == "" then SaveOutcome(None, None, None)
    else
      var p := UpdateData(currentUser.value.uid, name, age, gender);
      if p.name.None? && p.age.None? && p.gender.None? then SaveOutcome(None, None, Some(NothingToSave))
      else match response
        case Accepted => SaveOutcome(Some(p), Some(SavedUser(currentUser.value, name, age, gender)), Some(ProfileUpdated))
        case Rejected(error) => SaveOutcome(Some(p), None, Some(RejectionNotice(error)))
        case Unreachable => SaveOutcome(Some(p), None, Some(UpdateFailedRetry))
  }

  // ---------------------------------------------------------------- mood data

  /** MoodData (frontend/lib/types.ts), as fetchUserData fills it in. */
  datatype MoodData = MoodData(
    mood: JsValue, moodPercentage: JsValue, energyLevel: JsValue, stressLevel: JsValue,
    moodStability: JsValue, moodCalmness: JsValue, cognitiveScore: JsValue, emotionalScore: JsValue,
    sleepQuality: JsValue, sleepDurationHours: JsValue, socialConnectionLevel: JsValue,
    socialInteractionLog: JsValue, physicalActivityMinutes: JsValue, physicalActivitySummary: JsValue,
    anxietyLevel: JsValue, focusLevel: JsValue, positiveEvent: JsValue, generatedAtUtc: JsValue)

  /** parseToNumberOrNull (Dashboard.tsx:200-209), with `Number.parseFloat` as `parseFloat`. */
  function ParseToNumberOrNull(v: JsValue, parseFloat: string -> JsNumber): (r: JsValue)
    ensures r.Num? || r.Null?
    ensures v.Num? ==> r == v
    ensures v.Str? ==> (r.Null? <==> parseFloat(v.s).NaN?)
    ensures v.Str? && parseFloat(v.s).Finite? ==> r == Num(parseFloat(v.s))
    ensures !v.Num? && !v.Str? ==> r == Null
  {
    match v
    case Num(_) => v
    case Str(s) => if parseFloat(s).NaN? then Null else Num(parseFloat(s))
    case _ => Null
  }

  const UnknownLabel := Str("Unknown")

  /** The mood data of a summary (Dashboard.tsx:199-237): none unless the
      summary has a truthy `mood`. `nowIso` is `new Date().toISOString()`. */
  function MoodDataOf(summary: Option<map<string, JsValue>>, parseFloat: string -> JsNumber, nowIso: string): (r: Option<MoodData>)
    ensures r.Some? <==> summary.Some? && Truthy(Get(summary.value, "mood"))
    ensures r.Some? ==> r.value.mood == Get(summary.value, "mood")
  {
    if summary.None? || !Truthy(Get(summary.value, "mood")) then None
    else
      var d := summary.value;
      Some(MoodData(
        Get(d, "mood"),
        Or(Get(d, "mood_percentage"), Zero),
        Or(Get(d, "energy_level"), Zero),
        Or(Get(d, "stress_level"), Zero),
        Or(Get(d, "mood_stability"), UnknownLabel),
        Or(Get(d, "mood_calmness"), UnknownLabel),
        Or(Get(d, "cognitive_score"), Zero),
        Or(Get(d, "emotional_score"), Zero),
        Nullish(Get(d, "sleep_quality"), Null),
        ParseToNumberOrNull(Get(d, "sleep_duration_hours"), parseFloat),
        Nullish(Get(d, "social_connection_level"), Null),
        Nullish(Get(d, "social_interaction_log"), Null),
        ParseToNumberOrNull(Get(d, "physical_activity_minutes"), parseFloat),
        Nullish(Get(d, "physical_activity_summary"), Null),
        ParseToNumberOrNull(Get(d, "anxiety_level"), parseFloat),
        Nullish(Get(d, "focus_level"), Null),
        Nullish(Get(d, "positive_event"), Null),
        Or(Get(d, "generated_at_utc"), Str(nowIso))))
  }

  /** A value that is either the summary's own truthy value or the default. */
  predicate DefaultedTo(v: JsValue, raw: JsValue, default: JsValue) {
    (Truthy(raw) && v == raw) || (!Truthy(raw) && v == default)
  }

  /** Missing, zero, NaN or empty scores become 0 and missing labels "Unknown";
      the optional fields are never undefined; the parsed ones are a number or null.
      So no gauge is ever handed undefined. */
  lemma MoodDataDefaults(d: map<string, JsValue>, parseFloat: string -> JsNumber, nowIso: string)
    requires Truthy(Get(d, "mood"))
    ensures var m := MoodDataOf(Some(d), parseFloat, nowIso).value;
      && DefaultedTo(m.moodPercentage, Get(d, "mood_percentage"), Zero)
      && DefaultedTo(m.energyLevel, Get(d, "energy_level"), Zero)
      && DefaultedTo(m.stressLevel, Get(d, "stress_level"), Zero)
      && DefaultedTo(m.cognitiveScore, Get(d, "cognitive_score"), Zero)
      && DefaultedTo(m.emotionalScore, Get(d, "emotional_score"), Zero)
      && DefaultedTo(m.moodStability, Get(d, "mood_stability"), UnknownLabel)
      && DefaultedTo(m.moodCalmness, Get(d, "mood_calmness"), UnknownLabel)
      && !m.sleepQuality.Undefined? && !m.socialConnectionLevel.Undefined? && !m.socialInteractionLog.Undefined?
      && !m.physicalActivitySummary.Undefined? && !m.focusLevel.Undefined? && !m.positiveEvent.Undefined?
      && (m.sleepDurationHours.Num? || m.sleepDurationHours.Null?)
      && (m.physicalActivityMinutes.Num? || m.physicalActivityMinutes.Null?)
      && (m.anxietyLevel.Num? || m.anxietyLevel.Null?)
      && (nowIso != "" ==> Truthy(m.generatedAtUtc))
  {
  }

  // ---------------------------------------------------------------- exercises

  /** `items.includes(v)` for a string `v`. */
  predicate IncludesId(items: seq<JsValue>, id: string) {
    Str(id) in items
  }

  /** The catalogue entries whose id the summary suggests, in catalogue order (Dashboard.tsx:245-250). */
  function SuggestedFrom(catalogue: seq<Exercise>, suggested: seq<JsValue>): (r: seq<Exercise>)
    ensures |r| <= |catalogue|
    ensures forall ex :: ex in r ==> ex in catalogue && IncludesId(suggested, ex.id)
  {
    Seqs.Filter((ex: Exercise) => IncludesId(suggested, ex.id), catalogue)
  }

  /** The suggestion keeps catalogue order and holds exactly the suggested entries. */
  lemma SuggestedAreCatalogueEntries(catalogue: seq<Exercise>, suggested: seq<JsValue>)
    ensures var r := SuggestedFrom(catalogue, suggested);
      && Seqs.IsSubsequence(r, catalogue)
      && (forall ex :: ex in r <==> ex in catalogue && Str(ex.id) in suggested)
  {
    Seqs.FilterIsSubsequence((ex: Exercise) => IncludesId(suggested, ex.id), catalogue);
  }

  // ---------------------------------------------------------------- tips

  /** Twelve hours in milliseconds. */
  const TipInterval := 43_200_000

  /** The health tip shown at time `now` (ms since the epoch) (Dashboard.tsx:271-274). */
  function TipIndex(now: nat, count: nat): (r: nat)
    requires count > 0
    ensures r < count
  {
    (now / TipInterval) % count
  }

  /** All instants of one 12-hour window show the same tip. */
  lemma TipConstantInWindow(window: nat, a: nat, b: nat, count: nat)
    requires count > 0
    requires window * TipInterval <= a < window * TipInterval + TipInterval
    requires window * TipInterval <= b < window * TipInterval + TipInterval
    ensures TipIndex(a, count) == TipIndex(b, count) == window % count
  {
    WindowOf(window, a);
    WindowOf(window, b);
  }

  lemma WindowOf(window: nat, t: nat)
    requires window * TipInterval <= t < window * TipInterval + TipInterval
    ensures t / TipInterval == window
  {
  }

  /** Twelve hours later the next tip (cyclically) is shown. */
  lemma TipAdvances(now: nat, count: nat)
    requires count > 0
    ensures TipIndex(now + TipInterval, count) == (TipIndex(now, count) + 1) % count
  {
    var w := now / TipInterval;
    WindowOf(w, now);
    NextWindow(w, now);
    WindowOf(w + 1, now + TipInterval);
    NextResidue(w, count);
  }

  lemma NextWindow(w: nat, t: nat)
    requires t / TipInterval == w
    ensures (w + 1) * TipInterval <= t + TipInterval < (w + 1) * TipInterval + TipInterval
  {
    assert (w + 1) * TipInterval == w * TipInterval + TipInterval;
  }

  /** The window after `w` shows the tip after `w`'s, cyclically. */
  lemma NextResidue(w: nat, count: nat)
    requires count > 0
    ensures (w + 1) % count == (w % count + 1) % count
  {
    var q, m := w / count, w % count;
    if m + 1 < count {
      Division(w + 1, count, q, m + 1);
      Division(m + 1, count, 0, m + 1);
    } else {
      assert (q + 1) * count == q * count + count;
      Division(w + 1, count, q + 1, 0);
      Division(m + 1, count, 1, 0);
    }
  }

  /** Quotient and remainder are determined by `x == q * c + r` with `r < c`. */
  lemma Division(x: nat, c: nat, q: nat, r: nat)
    requires 0 <= r < c && x == q * c + r
    ensures x % c == r && x / c == q
  {
    var q2, r2 := x / c, x % c;
    assert q2 * c + r2 == q * c + r;
    if q2 < q {
      assert (q - q2) * c == q * c - q2 * c;
      AtLeastOnce(q - q2, c);
    } else if q < q2 {
      assert (q2 - q) * c == q2 * c - q * c;
      AtLeastOnce(q2 - q, c);
    }
  }

  lemma {:induction false} AtLeastOnce(k: nat, c: nat)
    requires k >= 1
    ensures k * c >= c
  {
    if k > 1 {
      AtLeastOnce(k - 1, c);
      assert k * c == (k - 1) * c + c;
    }
  }

  // ---------------------------------------------------------------- component state

  /** The dashboard's own state that the modelled handlers change. */
  class DashboardState {
    var isEditing: bool
    var editedName: string
    var editedAge: string
    var editedGender: string
    var isLoading: bool
    var moodData: Option<MoodData>
    var suggestedExercises: seq<Exercise>
    /** localStorage, where the saved user is written. */
    const storage: Auth.Storage

    constructor (storage: Auth.Storage)
      ensures this.storage == storage
      ensures !isEditing && !isLoading && editedName == "" && editedAge == "" && editedGender == ""
      ensures moodData.None? && suggestedExercises == []
    {
      this.storage := storage;
      isEditing, isLoading := false, false;
      editedName, editedAge, editedGender := "", "", "";
      moodData, suggestedExercises := None, [];
    }

    /** handleEdit and handleCancel (Dashboard.tsx:95-107): the form shows the current user's values. */
    method ResetForm(currentUser: Option<User>, editing: bool)
      modifies this
      ensures isEditing == editing
      ensures editedName == (if currentUser.Some? && currentUser.value.name.Some? then currentUser.value.name.value else "")
      ensures editedAge == (if currentUser.Some? && currentUser.value.age.Some? then Text.IntToString(currentUser.value.age.value) else "")
      ensures editedGender == (if currentUser.Some? && currentUser.value.gender.Some? then currentUser.value.gender.value else "")
      ensures isLoading == old(isLoading) && moodData == old(moodData) && suggestedExercises == old(suggestedExercises)
    {
      editedName := if currentUser.Some? && currentUser.value.name.Some? then currentUser.value.name.value else "";
      editedAge := if currentUser.Some? && currentUser.value.age.Some? then Text.IntToString(currentUser.value.age.value) else "";
      editedGender := if currentUser.Some? && currentUser.value.gender.Some? then currentUser.value.gender.value else "";
      isEditing := editing;
    }

    /** handleSave (Dashboard.tsx:109-170), with its outcome given by SaveOutcomeOf:
        the form fields stay, editing ends and the merged user is stored exactly
        when the save was accepted, and loading is over once a request was sent. */
    method HandleSave(currentUser: Option<User>, response: SaveResponse, dump: User -> string)
      returns (outcome: SaveOutcome)
      modifies this, storage
      ensures outcome == SaveOutcomeOf(currentUser, old(editedName), old(editedAge), old(editedGender), response)
      ensures isEditing == (if outcome.updated.Some? then false else old(isEditing))
      ensures storage.entries == (if outcome.updated.Some? then old(storage.entries)[Auth.UserKey := dump(outcome.updated.value)] else old(storage.entries))
      ensures isLoading == (if outcome.sent.Some? then false else old(isLoading))
      ensures editedName == old(editedName) && editedAge == old(editedAge) && editedGender == old(editedGender)
      ensures moodData == old(moodData) && suggestedExercises == old(suggestedExercises)
    {
      outcome := SaveOutcomeOf(currentUser, editedName, editedAge, editedGender, response);
      if outcome.sent.None? {
        return;
      }
      isLoading := true;
      if outcome.updated.Some? {
        storage.entries := storage.entries[Auth.UserKey := dump(outcome.updated.value)];
        isEditing := false;
      }
      isLoading := false;
    }

    /** The successful branch of fetchUserData (Dashboard.tsx:191-250): mood
        data only for a summary with a truthy mood, suggestions only when the
        summary lists them in an array; otherwise the earlier values stay. */
    method OnUserData(summary: Option<map<string, JsValue>>, catalogue: seq<Exercise>,
                      parseFloat: string -> JsNumber, nowIso: string)
      modifies this
      ensures moodData == (if MoodDataOf(summary, parseFloat, nowIso).Some? then MoodDataOf(summary, parseFloat, nowIso) else old(moodData))
      ensures summary.Some? && Get(summary.value, "suggested_exercises").Arr? ==>
        suggestedExercises == SuggestedFrom(catalogue, Get(summary.value, "suggested_exercises").items)
      ensures !(summary.Some? && Get(summary.value, "suggested_exercises").Arr?) ==> suggestedExercises == old(suggestedExercises)
      ensures isEditing == old(isEditing) && editedName == old(editedName) && editedAge == old(editedAge)
      ensures editedGender == old(editedGender) && isLoading == old(isLoading)
    {
      var mood := MoodDataOf(summary, parseFloat, nowIso);
      if mood.Some? {
        moodData := mood;
      }
      if summary.Some? && Get(summary.value, "suggested_exercises").Arr? {
        var ids := Get(summary.value, "suggested_exercises").items;
        suggestedExercises := SuggestedFrom(catalogue, ids);
      }
    }
  }
}
