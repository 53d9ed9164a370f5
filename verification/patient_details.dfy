/** The four-step patient questionnaire: the check-box lists, the step
    navigation, submission and closing. */
module PatientDetails {
  import opened Wrappers
  import Json

  /** Free-text answers are kept as name/value maps; only the check-box
      lists are modelled one by one. */
  datatype Medical = Medical(answers: map<string, string>, chronicConditions: seq<string>)
  datatype MentalHealth = MentalHealth(answers: map<string, string>, primaryConcerns: seq<string>,
                                       symptomsExperienced: seq<string>, spiritualPractices: seq<string>)
  datatype Preferences = Preferences(answers: map<string, string>, availableTimeSlots: seq<string>)
  datatype Questionnaire = Questionnaire(personal: map<string, string>, medical: Medical,
                                         mental: MentalHealth, preferences: Preferences)

  /** `list.filter(x => x !== item)`. */
  function Remove(list: seq<string>, item: string): (r: seq<string>)
    ensures item !in r
    ensures forall x :: x != item ==> multiset(r)[x] == multiset(list)[x]
    ensures |r| <= |list|
  {
    if list == [] then []
    else
      assert list == [list[0]] + list[1..];
      (if list[0] == item then [] else [list[0]]) + Remove(list[1..], item)
  }

  /** The filter keeps the survivors in their original order. */
  lemma {:induction false} RemoveAppend(a: seq<string>, b: seq<string>, item: string)
    ensures Remove(a + b, item) == Remove(a, item) + Remove(b, item)
  {
    if a == [] {
      assert a + b == b;
    } else {
      assert (a + b)[0] == a[0];
      assert (a + b)[1..] == a[1..] + b;
      RemoveAppend(a[1..], b, item);
    }
  }

  /** Checking appends (duplicates allowed); unchecking removes every copy. */
  function Toggle(list: seq<string>, item: string, checked: bool): (r: seq<string>)
    ensures checked ==> |r| == |list| + 1 && r[..|list|] == list && r[|list|] == item
    ensures !checked ==> item !in r && forall x :: x != item ==> multiset(r)[x] == multiset(list)[x]
  {
    if checked then list + [item] else Remove(list, item)
  }

  /** Checking and then unchecking an item leaves the list without it, the
      other entries in order; for an item that was not there, the list is
      back as it was. */
  lemma CheckThenUncheck(list: seq<string>, item: string)
    ensures Toggle(Toggle(list, item, true), item, false) == Remove(list, item)
    ensures item !in list ==> Toggle(Toggle(list, item, true), item, false) == list
  {
    RemoveAppend(list, [item], item);
    assert Remove([item], item) == [];
    if item !in list {
      RemoveAbsent(list, item);
    }
  }

  lemma {:induction false} RemoveAbsent(list: seq<string>, item: string)
    requires item !in list
    ensures Remove(list, item) == list
  {
    if list != [] {
      assert item !in list[1..];
      RemoveAbsent(list[1..], item);
      assert list == [list[0]] + list[1..];
    }
  }

  /** `handleCheckboxChange`: the category names one list; an unknown
      category changes nothing. */
  function HandleCheckboxChange(q: Questionnaire, category: string, item: string, checked: bool)
    : (r: Questionnaire)
    ensures category == "chronicConditions" ==>
              r == q.(medical := q.medical.(chronicConditions := Toggle(q.medical.chronicConditions, item, checked)))
    ensures category == "primaryConcerns" ==>
              r == q.(mental := q.mental.(primaryConcerns := Toggle(q.mental.primaryConcerns, item, checked)))
    ensures category == "symptoms" ==>
              r == q.(mental := q.mental.(symptomsExperienced := Toggle(q.mental.symptomsExperienced, item, checked)))
    ensures category == "spiritualPractices" ==>
              r == q.(mental := q.mental.(spiritualPractices := Toggle(q.mental.spiritualPractices, item, checked)))
    ensures category == "availableTimeSlots" ==>
              r == q.(preferences := q.preferences.(availableTimeSlots :=
                                                     Toggle(q.preferences.availableTimeSlots, item, checked)))
    ensures (category !in {"chronicConditions", "primaryConcerns", "symptoms", "spiritualPractices",
                           "availableTimeSlots"}) ==> r == q
    ensures r.personal == q.personal && r.medical.answers == q.medical.answers
    ensures r.mental.answers == q.mental.answers && r.preferences.answers == q.preferences.answers
  {
    if category == "chronicConditions" then
      q.(medical := q.medical.(chronicConditions := Toggle(q.medical.chronicConditions, item, checked)))
    else if category == "primaryConcerns" then
      q.(mental := q.mental.(primaryConcerns := Toggle(q.mental.primaryConcerns, item, checked)))
    else if category == "symptoms" then
      q.(mental := q.mental.(symptomsExperienced := Toggle(q.mental.symptomsExperienced, item, checked)))
    else if category == "spiritualPractices" then
      q.(mental := q.mental.(spiritualPractices := Toggle(q.mental.spiritualPractices, item, checked)))
    else if category == "availableTimeSlots" then
      q.(preferences := q.preferences.(availableTimeSlots := Toggle(q.preferences.availableTimeSlots, item, checked)))
    else q
  }

  // ------------------------------------------------------------ the wizard

  datatype Wizard = Wizard(step: int, loading: bool, error: string, success: bool)

  predicate StepInRange(w: Wizard) {
    1 <= w.step <= 4
  }

  const Opening := Wizard(1, false, "", false)

  /** The buttons at the foot of the dialog; each is a no-op when it is not
      shown (Previous below step 2, Next at step 4, Submit before step 4)
      or disabled (while loading). */
  datatype Action =
    | Previous
    | Next
    | Submit(token: Option<string>, completedAt: string, posted: Option<string>)
    | Close

  /** `setStep(step - 1)` behind the Previous button. */
  function Back(w: Wizard): (r: Wizard)
    ensures StepInRange(w) ==> StepInRange(r)
    ensures w.step > 1 && !w.loading ==> r.step == w.step - 1
    ensures w.step <= 1 || w.loading ==> r == w
  {
    if w.step > 1 && !w.loading then w.(step := w.step - 1) else w
  }

  /** `setStep(step + 1)` behind the Next button. */
  function Forward(w: Wizard): (r: Wizard)
    ensures StepInRange(w) ==> StepInRange(r)
    ensures w.step < 4 && !w.loading ==> r.step == w.step + 1
    ensures w.step >= 4 || w.loading ==> r == w
  {
    if w.step < 4 && !w.loading then w.(step := w.step + 1) else w
  }

  // ------------------------------------------------------ the submission

  /** The names under which the check-box lists travel. */
  const ListKeys: set<string> := {"chronicConditions", "primaryConcerns", "symptomsExperienced",
                                  "spiritualPractices", "availableTimeSlots"}

  /** No free-text answer is stored under a check-box list's name, as in the
      dialog's own state objects. */
  predicate WellFormed(q: Questionnaire) {
    && (forall k :: k in q.medical.answers ==> k !in ListKeys)
    && (forall k :: k in q.mental.answers ==> k !in ListKeys)
    && (forall k :: k in q.preferences.answers ==> k !in ListKeys)
  }

  function Strings(answers: map<string, string>): (r: map<string, Json.Json>)
    ensures r.Keys == answers.Keys
    ensures forall k :: k in r ==> r[k] == Json.JStr(answers[k])
  {
    map k | k in answers :: Json.JStr(answers[k])
  }

  function StrList(xs: seq<string>): (r: Json.Json)
    ensures r.JArr? && |r.items| == |xs|
    ensures forall i :: 0 <= i < |xs| ==> r.items[i] == Json.JStr(xs[i])
  {
    Json.JArr(seq(|xs|, i requires 0 <= i < |xs| => Json.JStr(xs[i])))
  }

  /** A section object: its free-text answers as strings, then its lists
      under their own names. */
  function Section(answers: map<string, string>, lists: map<string, Json.Json>): (r: map<string, Json.Json>)
    ensures r.Keys == answers.Keys + lists.Keys
    ensures forall k :: k in lists ==> r[k] == lists[k]
    ensures forall k :: k in answers && k !in lists ==> r[k] == Json.JStr(answers[k])
  {
    Strings(answers) + lists
  }

  function MedicalLists(m: Medical): map<string, Json.Json> {
    map["chronicConditions" := StrList(m.chronicConditions)]
  }

  function MentalLists(h: MentalHealth): map<string, Json.Json> {
    map["primaryConcerns" := StrList(h.primaryConcerns),
        "symptomsExperienced" := StrList(h.symptomsExperienced),
        "spiritualPractices" := StrList(h.spiritualPractices)]
  }

  function PreferenceLists(p: Preferences): map<string, Json.Json> {
    map["availableTimeSlots" := StrList(p.availableTimeSlots)]
  }

  /** `profileData`: the four sections as objects, each list as an array of
      strings, and the completion instant's ISO text. */
  function ProfileBody(q: Questionnaire, completedAt: string): (r: Json.Json)
    ensures r.JObj?
    ensures r.fields.Keys == {"personalDetails", "medicalHistory", "mentalHealthInfo", "preferences",
                              "completedAt"}
    ensures r.fields["completedAt"] == Json.JStr(completedAt)
    ensures r.fields["personalDetails"] == Json.JObj(Strings(q.personal))
    ensures r.fields["medicalHistory"] == Json.JObj(Section(q.medical.answers, MedicalLists(q.medical)))
    ensures r.fields["mentalHealthInfo"] == Json.JObj(Section(q.mental.answers, MentalLists(q.mental)))
    ensures r.fields["preferences"] == Json.JObj(Section(q.preferences.answers, PreferenceLists(q.preferences)))
  {
    Json.JObj(map[
      "personalDetails" := Json.JObj(Strings(q.personal)),
      "medicalHistory" := Json.JObj(Section(q.medical.answers, MedicalLists(q.medical))),
      "mentalHealthInfo" := Json.JObj(Section(q.mental.answers, MentalLists(q.mental))),
      "preferences" := Json.JObj(Section(q.preferences.answers, PreferenceLists(q.preferences))),
      "completedAt" := Json.JStr(completedAt)])
  }

  // Reading a body back, the way the profile store sees it.

  function ReadStrings(fields: map<string, Json.Json>): map<string, string> {
    map k | k in fields && k !in ListKeys && fields[k].JStr? :: fields[k].s
  }

  function ReadList(j: Json.Json): Option<seq<string>> {
    if j.JArr? && forall i :: 0 <= i < |j.items| ==> j.items[i].JStr?
    then Some(seq(|j.items|, i requires 0 <= i < |j.items| && j.items[i].JStr? => j.items[i].s))
    else None
  }

  function ReadField(o: Json.Json, key: string): Option<seq<string>> {
    if o.JObj? && key in o.fields then ReadList(o.fields[key]) else None
  }

  function ReadSection(body: map<string, Json.Json>, key: string): map<string, string> {
    if key in body && body[key].JObj? then ReadStrings(body[key].fields) else map[]
  }

  function ReadPersonal(o: Json.Json): map<string, string> {
    if o.JObj? then map k | k in o.fields && o.fields[k].JStr? :: o.fields[k].s else map[]
  }

  function ReadProfile(body: Json.Json): Option<(Questionnaire, string)> {
    if !body.JObj? then None
    else
      var f := body.fields;
      if !("personalDetails" in f && "medicalHistory" in f && "mentalHealthInfo" in f
           && "preferences" in f && "completedAt" in f && f["completedAt"].JStr?) then None
      else
        var chronic := ReadField(f["medicalHistory"], "chronicConditions");
        var concerns := ReadField(f["mentalHealthInfo"], "primaryConcerns");
        var symptoms := ReadField(f["mentalHealthInfo"], "symptomsExperienced");
        var practices := ReadField(f["mentalHealthInfo"], "spiritualPractices");
        var slots := ReadField(f["preferences"], "availableTimeSlots");
        if chronic.None? || concerns.None? || symptoms.None? || practices.None? || slots.None? then None
        else
          Some((Questionnaire(ReadPersonal(f["personalDetails"]),
                              Medical(ReadSection(f, "medicalHistory"), chronic.value),
                              MentalHealth(ReadSection(f, "mentalHealthInfo"), concerns.value,
                                           symptoms.value, practices.value),
                              Preferences(ReadSection(f, "preferences"), slots.value)),
                f["completedAt"].s))
  }

  lemma ReadListOfStrList(xs: seq<string>)
    ensures ReadList(StrList(xs)) == Some(xs)
  {
    var r := ReadList(StrList(xs));
    assert r.Some?;
    assert r.value == xs;
  }

  /** A section's strings are read back, skipping its lists. */
  lemma ReadSectionBack(answers: map<string, string>, lists: map<string, Json.Json>)
    requires forall k :: k in answers ==> k !in ListKeys
    requires lists.Keys <= ListKeys
    ensures ReadStrings(Section(answers, lists)) == answers
  {
    var r := ReadStrings(Section(answers, lists));
    assert r.Keys == answers.Keys;
  }

  lemma ReadPersonalBack(personal: map<string, string>)
    ensures ReadPersonal(Json.JObj(Strings(personal))) == personal
  {
    assert ReadPersonal(Json.JObj(Strings(personal))).Keys == personal.Keys;
  }

  /** A list is read back from its section. */
  lemma ReadFieldBack(answers: map<string, string>, lists: map<string, Json.Json>, key: string,
                      xs: seq<string>)
    requires key in lists && lists[key] == StrList(xs)
    ensures ReadField(Json.JObj(Section(answers, lists)), key) == Some(xs)
  {
    ReadListOfStrList(xs);
  }

  /** Everything the dialog gathered arrives in the posted body: reading
      the body back gives the questionnaire and the completion instant. */
  lemma {:induction false} ProfileBodyRoundTrip(q: Questionnaire, completedAt: string)
    requires WellFormed(q)
    ensures ReadProfile(ProfileBody(q, completedAt)) == Some((q, completedAt))
  {
    ReadFieldBack(q.medical.answers, MedicalLists(q.medical), "chronicConditions", q.medical.chronicConditions);
    var h := q.mental;
    ReadFieldBack(h.answers, MentalLists(h), "primaryConcerns", h.primaryConcerns);
    ReadFieldBack(h.answers, MentalLists(h), "symptomsExperienced", h.symptomsExperienced);
    ReadFieldBack(h.answers, MentalLists(h), "spiritualPractices", h.spiritualPractices);
    var p := q.preferences;
    ReadFieldBack(p.answers, PreferenceLists(p), "availableTimeSlots", p.availableTimeSlots);
    ReadSectionBack(q.medical.answers, MedicalLists(q.medical));
    ReadSectionBack(q.mental.answers, MentalLists(q.mental));
    ReadSectionBack(q.preferences.answers, PreferenceLists(q.preferences));
    ReadPersonalBack(q.personal);
  }

  /** The post `handleSubmit` makes, with the bearer token it read. */
  datatype Post = Post(path: string, body: Json.Json, token: string)

  datatype Submitted = Submitted(wizard: Wizard, sent: Option<Post>)

  /** `handleSubmit`: on the last step and not loading, it posts the
      questionnaire to `/profile/complete` when a token is at hand.
      `posted` is the thrown error's message when that post failed. */
  function HandleSubmit(w: Wizard, q: Questionnaire, token: Option<string>, completedAt: string,
                        posted: Option<string>): (r: Submitted)
    ensures w.step != 4 || w.loading ==> r.wizard == w && r.sent.None?
    ensures w.step == 4 && !w.loading ==> r.wizard.step == 4 && !r.wizard.loading
    ensures w.step == 4 && !w.loading && (token.None? || token.value == "") ==>
              r.sent.None? && r.wizard.error == "Please sign in to continue" && r.wizard.success == w.success
    ensures w.step == 4 && !w.loading && token.Some? && token.value != "" ==>
              r.sent == Some(Post("/profile/complete", ProfileBody(q, completedAt), token.value))
    ensures w.step == 4 && !w.loading && token.Some? && token.value != "" && posted.Some? ==>
              r.wizard.error == posted.value && r.wizard.success == w.success
    ensures w.step == 4 && !w.loading && token.Some? && token.value != "" && posted.None? ==>
              r.wizard.error == "" && r.wizard.success
  {
    if w.step != 4 || w.loading then Submitted(w, None)
    else if token.None? || token.value == "" then Submitted(w.(error := "Please sign in to continue"), None)
    else
      var sent := Some(Post("/profile/complete", ProfileBody(q, completedAt), token.value));
      if posted.Some? then Submitted(w.(error := posted.value), sent)
      else Submitted(w.(error := "", success := true), sent)
  }

  /** A submission that posts carries everything the dialog gathered, and
      the dialog reports success exactly when the post went through. */
  lemma SubmissionCarriesQuestionnaire(w: Wizard, q: Questionnaire, token: Option<string>,
                                       completedAt: string, posted: Option<string>)
    requires WellFormed(q) && !w.success
    ensures var r := HandleSubmit(w, q, token, completedAt, posted);
            && (r.sent.Some? ==> r.sent.value.path == "/profile/complete"
                                 && ReadProfile(r.sent.value.body) == Some((q, completedAt)))
            && (r.wizard.success <==> r.sent.Some? && posted.None?)
  {
    ProfileBodyRoundTrip(q, completedAt);
  }

  /** `handleClose`: a no-op while loading; otherwise back to step 1 with no
      error and no success. */
  function HandleClose(w: Wizard): (r: Wizard)
    ensures w.loading ==> r == w
    ensures !w.loading ==> r == Opening
  {
    if w.loading then w else Wizard(1, false, "", false)
  }

  function Apply(w: Wizard, q: Questionnaire, a: Action): Wizard {
    match a
    case Previous => Back(w)
    case Next => Forward(w)
    case Submit(token, completedAt, posted) => HandleSubmit(w, q, token, completedAt, posted).wizard
    case Close => HandleClose(w)
  }

  /** Whatever buttons are pressed, the step stays within 1..4. */
  function Run(w: Wizard, q: Questionnaire, actions: seq<Action>): (r: Wizard)
    requires StepInRange(w)
    ensures StepInRange(r)
    decreases |actions|
  {
    if actions == [] then w else Run(Apply(w, q, actions[0]), q, actions[1..])
  }

  /** Three presses of Next from the opening reach the submit step. */
  lemma ThreeNextsReachSubmit(q: Questionnaire)
    ensures Run(Opening, q, [Next, Next, Next]).step == 4
  {
    var a := [Next, Next, Next];
    assert a[1..] == [Next, Next] && a[1..][1..] == [Next] && a[1..][1..][1..] == [];
  }
}
