/**
 * The plan generator: the preference map every plan is authored from, and
 * the keyword-driven revision of an existing plan. The authoring of a new
 * plan itself is an input to this model (see README).
 */
module PlanGenerator {
  import opened Wrappers
  import opened Sequences
  import opened Text
  import opened PlanValues
  import opened Database

  /** What the preference map holds for one participant name. */
  datatype PreferenceEntry = PreferenceEntry(responses: seq<Response>, preferredMethod: Option<string>)

  function EntryOf(p: Participant): PreferenceEntry
  {
    PreferenceEntry(p.responses, p.preferredMethod)
  }

  /** The preference map after visiting the participants in order; a later name overwrites an earlier one. */
  function Aggregate(ps: seq<Participant>): map<string, PreferenceEntry>
  {
    if ps == [] then map[]
    else
      var n := |ps| - 1;
      Aggregate(ps[..n])[ps[n].name := EntryOf(ps[n])]
  }

  function Names(ps: seq<Participant>): set<string>
  {
    set p | p in ps :: p.name
  }

  /** There is one entry per distinct participant name, and no other. */
  lemma {:induction false} AggregateKeys(ps: seq<Participant>)
    ensures Aggregate(ps).Keys == Names(ps)
  {
    if ps != [] {
      var n := |ps| - 1;
      AggregateKeys(ps[..n]);
      assert ps == ps[..n] + [ps[n]];
      assert Names(ps) == Names(ps[..n]) + {ps[n].name};
    }
  }

  /** A name's entry comes from the last participant carrying that name. */
  lemma {:induction false} AggregateLastWins(ps: seq<Participant>, i: nat)
    requires i < |ps|
    requires forall j :: i < j < |ps| ==> ps[j].name != ps[i].name
    ensures ps[i].name in Aggregate(ps) && Aggregate(ps)[ps[i].name] == EntryOf(ps[i])
  {
    var n := |ps| - 1;
    if i < n {
      AggregateLastWins(ps[..n], i);
    }
  }

  /** `all_preferences` as `create_plan` and `revise_plan` build it for a session. */
  method CollectPreferences(db: Store, sid: nat) returns (prefs: map<string, PreferenceEntry>)
    ensures prefs == Aggregate(ParticipantsIn(db.participants, sid))
  {
    var participants := ParticipantsIn(db.participants, sid);
    prefs := map[];
    var i := 0;
    while i < |participants|
      invariant 0 <= i <= |participants|
      invariant prefs == Aggregate(participants[..i])
    {
      var participant := participants[i];
      prefs := prefs[participant.name := EntryOf(participant)];
      assert participants[..i + 1][..i] == participants[..i];
      i := i + 1;
    }
    assert participants[..i] == participants;
  }

  // ---------------------------------------------------------------- revision

  const RevisedTime := "3:00 PM - 6:00 PM"
  const RevisedLocation := "Riverside Park"
  const RevisedActivities: seq<string> := ["Picnic", "Frisbee", "Card Games"]
  const TimeNote := "\nTime adjusted based on participant feedback."
  const LocationNote := "\nLocation changed based on participant feedback."
  const ActivitiesNote := "\nActivities adjusted based on participant preferences."
  const ReasonPrefix := "Plan revised based on feedback"

  /** Raised when a note is appended to `notes` that is not a string. */
  const NotesTypeError := "TypeError: notes is not a string"

  predicate MentionsTime(feedback: string)
  {
    Contains(Lower(feedback), "time")
  }

  predicate MentionsLocation(feedback: string)
  {
    Contains(Lower(feedback), "location")
  }

  predicate MentionsActivities(feedback: string)
  {
    Contains(Lower(feedback), "activity") || Contains(Lower(feedback), "activities")
  }

  predicate MentionsAny(feedback: string)
  {
    MentionsTime(feedback) || MentionsLocation(feedback) || MentionsActivities(feedback)
  }

  /** The notes a revision starts from: the existing string, or "" when there are none. */
  predicate NotesAreText(plan: Plan)
  {
    "notes" !in plan || plan["notes"].Str?
  }

  function NotesText(plan: Plan): string
  {
    if "notes" in plan && plan["notes"].Str? then plan["notes"].s else ""
  }

  /** The revision reason: the fixed prefix, then " from <name>" when a non-empty name is known. */
  function RevisionReason(participantName: Option<string>): (r: string)
    ensures ReasonPrefix <= r
    ensures r == ReasonPrefix <==> participantName.None? || participantName.value == ""
    ensures participantName.Some? && participantName.value != "" ==> r[|ReasonPrefix|..] == " from " + participantName.value
  {
    if participantName.Some? && participantName.value != "" then ReasonPrefix + " from " + participantName.value
    else ReasonPrefix
  }

  /**
   * The notes appended for the mentioned fields, in the fixed order time,
   * location, activities: the notes of the earlier fields, then this one's.
   */
  function NotesFor(time: bool, location: bool, activities: bool): string
  {
    if activities then NotesFor(time, location, false) + ActivitiesNote
    else if location then NotesFor(time, false, false) + LocationNote
    else if time then TimeNote
    else ""
  }

  /**
   * The value of key `k` once the mentioned fields have been rewritten:
   * each mentioned field takes its fixed new value, the notes (when any
   * field is mentioned) are the old notes followed by the matching notes,
   * and every other key keeps its value or its absence.
   */
  function FieldAfter(existing: Plan, time: bool, location: bool, activities: bool, k: string): Option<PlanValue>
  {
    if k == "time" && time then Some(Str(RevisedTime))
    else if k == "location" && location then Some(Str(RevisedLocation))
    else if k == "activities" && activities then Some(Items(RevisedActivities))
    else if k == "notes" && (time || location || activities) then Some(Str(NotesText(existing) + NotesFor(time, location, activities)))
    else Lookup(existing, k)
  }

  /** The value of key `k` in the revised plan: the rewritten fields plus the revision reason. */
  function RevisedField(existing: Plan, time: bool, location: bool, activities: bool, participantName: Option<string>, k: string): Option<PlanValue>
  {
    if k == "revision_reason" then Some(Str(RevisionReason(participantName)))
    else FieldAfter(existing, time, location, activities, k)
  }

  /**
   * `r` is the revision of `existing` by `feedback`: it fails, with the
   * type error, exactly when a field is mentioned and the existing notes
   * are not a string; otherwise every key holds its `RevisedField` value.
   */
  ghost predicate RevisionOf(existing: Plan, feedback: string, participantName: Option<string>, r: Result<Plan>)
  {
    var t, l, a := MentionsTime(feedback), MentionsLocation(feedback), MentionsActivities(feedback);
    && (r.Failure? <==> (t || l || a) && !NotesAreText(existing))
    && (r.Failure? ==> r.error == NotesTypeError)
    && (r.Success? ==> forall k :: Lookup(r.value, k) == RevisedField(existing, t, l, a, participantName, k))
  }

  /** One rewrite step: set `key` to `v`, then append `note` to the notes, which must be a string if present. */
  method RewriteField(plan: Plan, key: string, v: PlanValue, note: string) returns (r: Result<Plan>)
    requires key != "notes"
    ensures r.Failure? <==> !NotesAreText(plan)
    ensures r.Failure? ==> r.error == NotesTypeError
    ensures r.Success? ==> r.value == plan[key := v]["notes" := Str(NotesText(plan) + note)]
  {
    var revised := plan[key := v];
    var notes := GetOr(revised, "notes", Str(""));
    if !notes.Str? {
      return Failure(NotesTypeError);
    }
    r := Success(revised["notes" := Str(notes.s + note)]);
  }

  /** The time step of a revision, key by key. */
  lemma TimeStep(existing: Plan, t: bool, after: Plan)
    requires t ==> NotesAreText(existing)
    requires after == if t then existing["time" := Str(RevisedTime)]["notes" := Str(NotesText(existing) + TimeNote)] else existing
    ensures forall k :: Lookup(after, k) == FieldAfter(existing, t, false, false, k)
    ensures NotesAreText(after) == (t || NotesAreText(existing))
  {
  }

  /** The location step of a revision, key by key. */
  lemma LocationStep(existing: Plan, t: bool, l: bool, before: Plan, after: Plan)
    requires forall k :: Lookup(before, k) == FieldAfter(existing, t, false, false, k)
    requires NotesAreText(before) == (t || NotesAreText(existing))
    requires l ==> NotesAreText(before)
    requires after == if l then before["location" := Str(RevisedLocation)]["notes" := Str(NotesText(before) + LocationNote)] else before
    ensures forall k :: Lookup(after, k) == FieldAfter(existing, t, l, false, k)
    ensures NotesAreText(after) == (t || l || NotesAreText(existing))
  {
    assert Lookup(before, "notes") == FieldAfter(existing, t, false, false, "notes");
    assert NotesText(existing) + "" == NotesText(existing);
    assert NotesText(before) == NotesText(existing) + NotesFor(t, false, false);
    if l {
      ConcatAssoc(NotesText(existing), NotesFor(t, false, false), LocationNote);
    }
    forall k
      ensures Lookup(after, k) == FieldAfter(existing, t, l, false, k)
    {
      assert Lookup(before, k) == FieldAfter(existing, t, false, false, k);
    }
  }

  /** The activities step of a revision, key by key. */
  lemma ActivitiesStep(existing: Plan, t: bool, l: bool, a: bool, before: Plan, after: Plan)
    requires forall k :: Lookup(before, k) == FieldAfter(existing, t, l, false, k)
    requires NotesAreText(before) == (t || l || NotesAreText(existing))
    requires a ==> NotesAreText(before)
    requires after == if a then before["activities" := Items(RevisedActivities)]["notes" := Str(NotesText(before) + ActivitiesNote)] else before
    ensures forall k :: Lookup(after, k) == FieldAfter(existing, t, l, a, k)
  {
    assert Lookup(before, "notes") == FieldAfter(existing, t, l, false, "notes");
    assert NotesText(existing) + "" == NotesText(existing);
    assert NotesText(before) == NotesText(existing) + NotesFor(t, l, false);
    if a {
      ConcatAssoc(NotesText(existing), NotesFor(t, l, false), ActivitiesNote);
    }
    forall k
      ensures Lookup(after, k) == FieldAfter(existing, t, l, a, k)
    {
      assert Lookup(before, k) == FieldAfter(existing, t, l, false, k);
    }
  }

  /** `_create_mock_revised_plan`: copy the plan, then rewrite it field by field. */
  method MockRevisedPlan(existing: Plan, feedback: string, participantName: Option<string>) returns (r: Result<Plan>)
    ensures RevisionOf(existing, feedback, participantName, r)
  {
    ghost var t, l, a := MentionsTime(feedback), MentionsLocation(feedback), MentionsActivities(feedback);
    var revised := existing;
    if Contains(Lower(feedback), "time") {
      r := RewriteField(revised, "time", Str(RevisedTime), TimeNote);
      if r.Failure? {
        return;
      }
      revised := r.value;
    }
    TimeStep(existing, t, revised);
    ghost var afterTime := revised;
    if Contains(Lower(feedback), "location") {
      r := RewriteField(revised, "location", Str(RevisedLocation), LocationNote);
      if r.Failure? {
        return;
      }
      revised := r.value;
    }
    LocationStep(existing, t, l, afterTime, revised);
    ghost var afterLocation := revised;
    if Contains(Lower(feedback), "activity") || Contains(Lower(feedback), "activities") {
      r := RewriteField(revised, "activities", Items(RevisedActivities), ActivitiesNote);
      if r.Failure? {
        return;
      }
      revised := r.value;
    }
    ActivitiesStep(existing, t, l, a, afterLocation, revised);
    var reason := "Plan revised based on feedback";
    if participantName.Some? && participantName.value != "" {
      reason := reason + " from " + participantName.value;
    }
    revised := revised["revision_reason" := Str(reason)];
    r := Success(revised);
  }

  /** Two plans that agree on every lookup are the same plan. */
  lemma SameLookupsSamePlan(p: Plan, q: Plan)
    requires forall k :: Lookup(p, k) == Lookup(q, k)
    ensures p == q
  {
    assert forall k :: k in p <==> Lookup(p, k).Some?;
    assert forall k :: k in q <==> Lookup(q, k).Some?;
    assert p.Keys == q.Keys;
    forall k | k in p
      ensures p[k] == q[k]
    {
      assert Lookup(p, k) == Lookup(q, k);
    }
  }

  /** The revision relation determines its result: the per-key description is complete. */
  lemma {:induction false} RevisionIsDetermined(existing: Plan, feedback: string, participantName: Option<string>, r1: Result<Plan>, r2: Result<Plan>)
    requires RevisionOf(existing, feedback, participantName, r1)
    requires RevisionOf(existing, feedback, participantName, r2)
    ensures r1 == r2
  {
    if r1.Success? {
      var t, l, a := MentionsTime(feedback), MentionsLocation(feedback), MentionsActivities(feedback);
      forall k
        ensures Lookup(r1.value, k) == Lookup(r2.value, k)
      {
        assert Lookup(r1.value, k) == RevisedField(existing, t, l, a, participantName, k);
        assert Lookup(r2.value, k) == RevisedField(existing, t, l, a, participantName, k);
      }
      SameLookupsSamePlan(r1.value, r2.value);
    }
  }

  /** Keyword matching ignores case: lower-casing the feedback first changes nothing. */
  lemma MentionsIgnoreCase(feedback: string)
    ensures MentionsTime(Lower(feedback)) == MentionsTime(feedback)
    ensures MentionsLocation(Lower(feedback)) == MentionsLocation(feedback)
    ensures MentionsActivities(Lower(feedback)) == MentionsActivities(feedback)
  {
    LowerIdempotent(feedback);
  }

  /** Feedback naming none of the fields only records the revision reason. */
  lemma {:induction false} RevisionWithoutKeywords(existing: Plan, feedback: string, participantName: Option<string>, r: Result<Plan>)
    requires !MentionsAny(feedback)
    requires RevisionOf(existing, feedback, participantName, r)
    ensures r == Success(existing["revision_reason" := Str(RevisionReason(participantName))])
  {
    var expected := existing["revision_reason" := Str(RevisionReason(participantName))];
    forall k
      ensures Lookup(r.value, k) == Lookup(expected, k)
    {
      assert Lookup(r.value, k) == RevisedField(existing, false, false, false, participantName, k);
    }
    SameLookupsSamePlan(r.value, expected);
  }

  /** A successful revision keeps the old notes as a prefix of the new ones. */
  lemma RevisionExtendsNotes(existing: Plan, feedback: string, participantName: Option<string>, r: Result<Plan>)
    requires RevisionOf(existing, feedback, participantName, r)
    requires r.Success?
    ensures NotesText(existing) <= NotesText(r.value)
  {
    var t, l, a := MentionsTime(feedback), MentionsLocation(feedback), MentionsActivities(feedback);
    assert Lookup(r.value, "notes") == RevisedField(existing, t, l, a, participantName, "notes");
  }

  /** Raised when the plan or the participant to revise with is not stored. */
  const NoSuchPlan := "AttributeError: plan not found"
  const NoSuchParticipant := "TypeError: participant not found"

  /**
   * `revise_plan`: the stored plan revised with the feedback and, when a
   * participant is named, their name. A named participant who is not stored
   * raises first, when their name is read; a plan that is not stored raises
   * only when the revision copies it.
   */
  method RevisePlan(db: Store, sid: nat, planId: nat, feedback: string, participantId: Option<nat>) returns (r: Result<Plan>)
    ensures participantId.Some? && participantId.value >= |db.participants| ==> r == Failure(NoSuchParticipant)
    ensures (participantId.Some? ==> participantId.value < |db.participants|) && planId >= |db.plans| ==>
              r == Failure(NoSuchPlan)
    ensures planId < |db.plans| && (participantId.Some? ==> participantId.value < |db.participants|) ==>
              RevisionOf(db.plans[planId].content, feedback,
                         if participantId.Some? then Some(db.participants[participantId.value].name) else None, r)
  {
    var existing: Option<Plan> := if planId < |db.plans| then Some(db.plans[planId].content) else None;
    var allPreferences := CollectPreferences(db, sid);
    var participantName: Option<string> := None;
    if participantId.Some? {
      if participantId.value >= |db.participants| {
        return Failure(NoSuchParticipant);
      }
      participantName := Some(db.participants[participantId.value].name);
    }
    if existing.None? {
      return Failure(NoSuchPlan);
    }
    r := MockRevisedPlan(existing.value, feedback, participantName);
  }
}
