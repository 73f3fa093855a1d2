/**
 * The persistence layer the planner talks to. Its own source is not part of
 * this model, so this is an in-memory store whose operations state, as
 * contracts, the behaviour the planner's calls assume of it. Identifiers are
 * positions: a session id indexes `sessions`, a participant id
 * `participants`, a plan id `plans`. The outbox records every delivery the
 * communication handler makes.
 */
module Database {
  import opened Wrappers
  import opened PlanValues
  import opened CommunicationHandler

  /** One answer, stored against the id of the question it answers. */
  datatype Response = Response(questionId: string, text: string)

  datatype Participant = Participant(
    sessionId: nat,
    name: string,
    contact: string,
    preferredMethod: Option<string>,
    questions: seq<string>,
    responses: seq<Response>,
    awaitingContinuation: bool,
    complete: bool)

  /** A participant as `add_participant` creates it: no method, nothing asked or answered yet. */
  function NewParticipant(sessionId: nat, name: string, contact: string): (p: Participant)
    ensures p.sessionId == sessionId && p.name == name && p.contact == contact
    ensures p.preferredMethod.None? && p.questions == [] && p.responses == []
    ensures !p.awaitingContinuation && !p.complete
  {
    Participant(sessionId, name, contact, None, [], [], false, false)
  }

  datatype Session = Session(organizerName: string, organizerContact: string, eventName: string)

  /** A stored plan; `status` is None until the organizer decides. */
  datatype StoredPlan = StoredPlan(sessionId: nat, content: Plan, status: Option<string>, organizerFeedback: Option<string>)

  datatype FeedbackRecord = FeedbackRecord(participantId: nat, planId: Option<nat>, accepted: bool, feedback: Option<string>)

  /** `get_participants(session_id)`: the ids of the session's participants, in insertion order. */
  function MembersOf(ps: seq<Participant>, sid: nat): (ids: seq<nat>)
    ensures forall k :: 0 <= k < |ids| ==> ids[k] < |ps| && ps[ids[k]].sessionId == sid
  {
    if ps == [] then []
    else
      var n := |ps| - 1;
      MembersOf(ps[..n], sid) + (if ps[n].sessionId == sid then [n] else [])
  }

  /** Every record of the session is listed, each once, in insertion order. */
  lemma {:induction false} MembersOfComplete(ps: seq<Participant>, sid: nat)
    ensures forall i :: 0 <= i < |ps| && ps[i].sessionId == sid ==> i in MembersOf(ps, sid)
    ensures forall j, k :: 0 <= j < k < |MembersOf(ps, sid)| ==> MembersOf(ps, sid)[j] < MembersOf(ps, sid)[k]
  {
    if ps != [] {
      var n := |ps| - 1;
      MembersOfComplete(ps[..n], sid);
      var before := MembersOf(ps[..n], sid);
      assert forall k :: 0 <= k < |before| ==> before[k] < n;
    }
  }

  /** The participant records of a session, in insertion order. */
  function ParticipantsIn(ps: seq<Participant>, sid: nat): (r: seq<Participant>)
    ensures |r| == |MembersOf(ps, sid)|
    ensures forall k :: 0 <= k < |r| ==> r[k] == ps[MembersOf(ps, sid)[k]] && r[k].sessionId == sid
  {
    var ids := MembersOf(ps, sid);
    seq(|ids|, k requires 0 <= k < |ids| => ps[ids[k]])
  }

  /** `get_latest_plan`: the most recently stored plan of the session, if any. */
  function LatestPlanOf(plans: seq<StoredPlan>, sid: nat): (r: Option<nat>)
    ensures r.Some? ==> r.value < |plans| && plans[r.value].sessionId == sid
    ensures r.Some? ==> forall j :: r.value < j < |plans| ==> plans[j].sessionId != sid
    ensures r.None? ==> forall j :: 0 <= j < |plans| ==> plans[j].sessionId != sid
  {
    if plans == [] then None
    else
      var n := |plans| - 1;
      if plans[n].sessionId == sid then Some(n) else LatestPlanOf(plans[..n], sid)
  }

  predicate ApprovedIn(plan: StoredPlan, sid: nat)
  {
    plan.sessionId == sid && plan.status == Some("approved")
  }

  /** `get_latest_approved_plan_id`: the most recently stored approved plan of the session, if any. */
  function LatestApprovedOf(plans: seq<StoredPlan>, sid: nat): (r: Option<nat>)
    ensures r.Some? ==> r.value < |plans| && ApprovedIn(plans[r.value], sid)
    ensures r.Some? ==> forall j :: r.value < j < |plans| ==> !ApprovedIn(plans[j], sid)
    ensures r.None? ==> forall j :: 0 <= j < |plans| ==> !ApprovedIn(plans[j], sid)
  {
    if plans == [] then None
    else
      var n := |plans| - 1;
      if ApprovedIn(plans[n], sid) then Some(n) else LatestApprovedOf(plans[..n], sid)
  }

  class Store {
    var sessions: seq<Session>
    var participants: seq<Participant>
    var plans: seq<StoredPlan>
    var feedback: seq<FeedbackRecord>
    var outbox: seq<Delivery>

    /** Every participant and every plan belongs to a stored session. */
    ghost predicate Valid()
      reads this
    {
      && (forall i :: 0 <= i < |participants| ==> participants[i].sessionId < |sessions|)
      && (forall i :: 0 <= i < |plans| ==> plans[i].sessionId < |sessions|)
    }

    constructor ()
      ensures Valid()
      ensures sessions == [] && participants == [] && plans == [] && feedback == [] && outbox == []
    {
      sessions, participants, plans, feedback, outbox := [], [], [], [], [];
    }

    /** `create_session`: a new session with a fresh id. */
    method CreateSession(s: Session) returns (sid: nat)
      requires Valid()
      modifies this
      ensures Valid()
      ensures sid == |old(sessions)| && sessions == old(sessions) + [s]
      ensures participants == old(participants) && plans == old(plans)
      ensures feedback == old(feedback) && outbox == old(outbox)
    {
      sid := |sessions|;
      sessions := sessions + [s];
    }

    /** `add_participant`: appends a participant who has not been contacted yet. */
    method AddParticipant(sid: nat, name: string, contact: string) returns (pid: nat)
      requires Valid() && sid < |sessions|
      modifies this
      ensures Valid()
      ensures pid == |old(participants)| && participants == old(participants) + [NewParticipant(sid, name, contact)]
      ensures sessions == old(sessions) && plans == old(plans)
      ensures feedback == old(feedback) && outbox == old(outbox)
    {
      pid := |participants|;
      participants := participants + [NewParticipant(sid, name, contact)];
    }

    /** Replaces one participant record by another of the same session. */
    method UpdateParticipant(pid: nat, p: Participant)
      requires Valid() && pid < |participants| && p.sessionId == participants[pid].sessionId
      modifies this
      ensures Valid()
      ensures participants == old(participants)[pid := p]
      ensures sessions == old(sessions) && plans == old(plans)
      ensures feedback == old(feedback) && outbox == old(outbox)
    {
      participants := participants[pid := p];
    }

    /** `set_preferred_comm_method`. */
    method SetPreferredMethod(pid: nat, m: string)
      requires Valid() && pid < |participants|
      modifies this
      ensures Valid()
      ensures participants == old(participants)[pid := old(participants)[pid].(preferredMethod := Some(m))]
      ensures sessions == old(sessions) && plans == old(plans)
      ensures feedback == old(feedback) && outbox == old(outbox)
    {
      UpdateParticipant(pid, participants[pid].(preferredMethod := Some(m)));
    }

    /** `store_preference_response`: appends; earlier responses are never edited. */
    method StoreResponse(pid: nat, questionId: string, text: string)
      requires Valid() && pid < |participants|
      modifies this
      ensures Valid()
      ensures participants == old(participants)[pid :=
                old(participants)[pid].(responses := old(participants)[pid].responses + [Response(questionId, text)])]
      ensures sessions == old(sessions) && plans == old(plans)
      ensures feedback == old(feedback) && outbox == old(outbox)
    {
      var p := participants[pid];
      UpdateParticipant(pid, p.(responses := p.responses + [Response(questionId, text)]));
    }

    /** `store_question`: appends the question and returns its position as its id. */
    method StoreQuestion(pid: nat, question: string) returns (questionId: nat)
      requires Valid() && pid < |participants|
      modifies this
      ensures Valid()
      ensures questionId == |old(participants)[pid].questions|
      ensures participants == old(participants)[pid :=
                old(participants)[pid].(questions := old(participants)[pid].questions + [question])]
      ensures sessions == old(sessions) && plans == old(plans)
      ensures feedback == old(feedback) && outbox == old(outbox)
    {
      var p := participants[pid];
      questionId := |p.questions|;
      UpdateParticipant(pid, p.(questions := p.questions + [question]));
    }

    /** `set_awaiting_continuation`. */
    method SetAwaitingContinuation(pid: nat, flag: bool)
      requires Valid() && pid < |participants|
      modifies this
      ensures Valid()
      ensures participants == old(participants)[pid := old(participants)[pid].(awaitingContinuation := flag)]
      ensures sessions == old(sessions) && plans == old(plans)
      ensures feedback == old(feedback) && outbox == old(outbox)
    {
      UpdateParticipant(pid, participants[pid].(awaitingContinuation := flag));
    }

    /** `mark_preferences_complete`. */
    method MarkComplete(pid: nat)
      requires Valid() && pid < |participants|
      modifies this
      ensures Valid()
      ensures participants == old(participants)[pid := old(participants)[pid].(complete := true)]
      ensures sessions == old(sessions) && plans == old(plans)
      ensures feedback == old(feedback) && outbox == old(outbox)
    {
      UpdateParticipant(pid, participants[pid].(complete := true));
    }

    /** `store_plan`: appends an undecided plan and returns its id. */
    method StorePlan(sid: nat, content: Plan) returns (planId: nat)
      requires Valid() && sid < |sessions|
      modifies this
      ensures Valid()
      ensures planId == |old(plans)| && plans == old(plans) + [StoredPlan(sid, content, None, None)]
      ensures sessions == old(sessions) && participants == old(participants)
      ensures feedback == old(feedback) && outbox == old(outbox)
    {
      planId := |plans|;
      plans := plans + [StoredPlan(sid, content, None, None)];
    }

    /** `update_plan_status`: overwrites status and feedback, whatever they were. */
    method UpdatePlanStatus(planId: nat, status: string, organizerFeedback: Option<string>)
      requires Valid() && planId < |plans|
      modifies this
      ensures Valid()
      ensures plans == old(plans)[planId := old(plans)[planId].(status := Some(status), organizerFeedback := organizerFeedback)]
      ensures sessions == old(sessions) && participants == old(participants)
      ensures feedback == old(feedback) && outbox == old(outbox)
    {
      plans := plans[planId := plans[planId].(status := Some(status), organizerFeedback := organizerFeedback)];
    }

    /** `record_participant_feedback`: appends a feedback record. */
    method RecordFeedback(pid: nat, planId: Option<nat>, accepted: bool, text: Option<string>)
      requires Valid()
      modifies this
      ensures Valid()
      ensures feedback == old(feedback) + [FeedbackRecord(pid, planId, accepted, text)]
      ensures sessions == old(sessions) && participants == old(participants)
      ensures plans == old(plans) && outbox == old(outbox)
    {
      feedback := feedback + [FeedbackRecord(pid, planId, accepted, text)];
    }

    /** Records what a routing decision delivers (nothing when it delivers nothing). */
    method Send(d: Option<Delivery>)
      requires Valid()
      modifies this
      ensures Valid()
      ensures outbox == old(outbox) + Emit(d)
      ensures sessions == old(sessions) && participants == old(participants)
      ensures plans == old(plans) && feedback == old(feedback)
    {
      outbox := outbox + Emit(d);
    }
  }
}
