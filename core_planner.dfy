/**
 * The orchestration layer: creating a session, reaching out to its
 * participants, reporting collection status, generating and storing a plan,
 * the organizer's decision, distribution, and participant feedback. The web
 * layer's reply dispatcher and session status query are modelled here too.
 */
module CorePlanner {
  import opened Wrappers
  import opened Sequences
  import opened PlanValues
  import opened CommunicationHandler
  import opened Database
  import opened PreferenceCollector
  import opened PlanGenerator

  /** One entry of the participant list a session is created with. */
  datatype ParticipantInfo = ParticipantInfo(name: string, contact: string)

  // ---------------------------------------------------------------- deliveries of a loop

  /** What a sequence of routing decisions adds to the outbox, in order. */
  function Flatten(ds: seq<Option<Delivery>>): seq<Delivery>
  {
    if ds == [] then []
    else
      var n := |ds| - 1;
      Flatten(ds[..n]) + Emit(ds[n])
  }

  /** One more decision adds its own delivery, if any, at the end. */
  lemma FlattenSnoc(ds: seq<Option<Delivery>>, d: Option<Delivery>)
    ensures Flatten(ds + [d]) == Flatten(ds) + Emit(d)
  {
    assert (ds + [d])[..|ds|] == ds;
  }

  /** A loop of routing decisions delivers at most once per decision. */
  lemma {:induction false} FlattenBound(ds: seq<Option<Delivery>>)
    ensures |Flatten(ds)| <= |ds|
  {
    if ds != [] {
      FlattenBound(ds[..|ds| - 1]);
    }
  }

  /** Every delivery comes from one of the decisions. */
  lemma {:induction false} FlattenMember(ds: seq<Option<Delivery>>, d: Delivery)
    requires d in Flatten(ds)
    ensures exists i :: 0 <= i < |ds| && ds[i] == Some(d)
  {
    var n := |ds| - 1;
    if d in Flatten(ds[..n]) {
      FlattenMember(ds[..n], d);
      var i :| 0 <= i < n && ds[..n][i] == Some(d);
      assert ds[i] == Some(d);
    } else {
      assert ds[n] == Some(d);
    }
  }

  /** When every decision delivers, the outbox gets exactly one delivery per decision, in order. */
  lemma {:induction false} FlattenAllDeliver(ds: seq<Option<Delivery>>)
    requires forall i :: 0 <= i < |ds| ==> ds[i].Some?
    ensures |Flatten(ds)| == |ds|
    ensures forall i :: 0 <= i < |ds| ==> Flatten(ds)[i] == ds[i].value
  {
    if ds != [] {
      var n := |ds| - 1;
      FlattenAllDeliver(ds[..n]);
    }
  }

  /** The routing decisions of a loop that calls `route` once per participant, in order. */
  function Calls(route: Participant -> Option<Delivery>, ps: seq<Participant>): (r: seq<Option<Delivery>>)
    ensures |r| == |ps|
  {
    if ps == [] then []
    else
      var n := |ps| - 1;
      Calls(route, ps[..n]) + [route(ps[n])]
  }

  /** The i-th decision is the route of the i-th participant. */
  lemma {:induction false} CallsAt(route: Participant -> Option<Delivery>, ps: seq<Participant>, i: nat)
    requires i < |ps|
    ensures Calls(route, ps)[i] == route(ps[i])
  {
    var n := |ps| - 1;
    if i < n {
      CallsAt(route, ps[..n], i);
      assert ps[..n][i] == ps[i];
    }
  }

  /** One pass of such a loop: the outbox grows by the next participant's delivery, if any. */
  lemma CallsStep(out: seq<Delivery>, route: Participant -> Option<Delivery>, ps: seq<Participant>, i: nat)
    requires i < |ps|
    ensures out + Flatten(Calls(route, ps[..i])) + Emit(route(ps[i])) == out + Flatten(Calls(route, ps[..i + 1]))
  {
    assert ps[..i + 1][..i] == ps[..i];
    var before := Calls(route, ps[..i]);
    assert Calls(route, ps[..i + 1]) == before + [route(ps[i])];
    FlattenSnoc(before, route(ps[i]));
    ConcatAssoc(out, Flatten(before), Emit(route(ps[i])));
  }

  // ---------------------------------------------------------------- sessions

  /** The participant records `create_planning_session` adds for its entries. */
  function Enrolled(sid: nat, infos: seq<ParticipantInfo>): (r: seq<Participant>)
    ensures |r| == |infos|
    ensures forall k :: 0 <= k < |r| ==> r[k] == NewParticipant(sid, infos[k].name, infos[k].contact)
  {
    seq(|infos|, k requires 0 <= k < |infos| => NewParticipant(sid, infos[k].name, infos[k].contact))
  }

  /** A session no record belongs to has no members. */
  lemma {:induction false} MembersOfNone(ps: seq<Participant>, sid: nat)
    requires forall i :: 0 <= i < |ps| ==> ps[i].sessionId != sid
    ensures MembersOf(ps, sid) == []
  {
    if ps != [] {
      MembersOfNone(ps[..|ps| - 1], sid);
    }
  }

  /** One more record adds its own position at the end when it belongs to the session. */
  lemma MembersOfSnoc(ps: seq<Participant>, p: Participant, sid: nat)
    ensures MembersOf(ps + [p], sid) == MembersOf(ps, sid) + (if p.sessionId == sid then [|ps|] else [])
  {
    assert (ps + [p])[..|ps|] == ps;
  }

  /** The positions `lo`, `lo + 1`, ..., `lo + n - 1`. */
  function Range(lo: nat, n: nat): (r: seq<nat>)
    ensures |r| == n
  {
    if n == 0 then [] else Range(lo, n - 1) + [lo + n - 1]
  }

  lemma {:induction false} RangeAt(lo: nat, n: nat, k: nat)
    requires k < n
    ensures Range(lo, n)[k] == lo + k
  {
    if k < n - 1 {
      RangeAt(lo, n - 1, k);
    }
  }

  /** Appending records of a session no earlier record belongs to: the session's ids are exactly the new positions. */
  lemma {:induction false} MembersOfFresh(ps: seq<Participant>, qs: seq<Participant>, sid: nat)
    requires forall i :: 0 <= i < |ps| ==> ps[i].sessionId != sid
    requires forall j :: 0 <= j < |qs| ==> qs[j].sessionId == sid
    ensures MembersOf(ps + qs, sid) == Range(|ps|, |qs|)
  {
    if qs == [] {
      assert ps + qs == ps;
      MembersOfNone(ps, sid);
    } else {
      var n := |qs| - 1;
      var front := qs[..n];
      assert qs[n].sessionId == sid;
      assert ps + qs == (ps + front) + [qs[n]];
      MembersOfFresh(ps, front, sid);
      MembersOfSnoc(ps + front, qs[n], sid);
    }
  }

  /** Records whose positions are exactly the appended block are that block. */
  lemma PositionsPick(ps: seq<Participant>, qs: seq<Participant>, sid: nat)
    requires MembersOf(ps + qs, sid) == Range(|ps|, |qs|)
    ensures ParticipantsIn(ps + qs, sid) == qs
  {
    var all := ps + qs;
    var r := ParticipantsIn(all, sid);
    forall k | 0 <= k < |qs|
      ensures r[k] == qs[k]
    {
      RangeAt(|ps|, |qs|, k);
      assert all[|ps| + k] == qs[k];
    }
  }

  /** A freshly created session's participants are exactly its entries, in the order given. */
  lemma SessionRoster(ps: seq<Participant>, sid: nat, infos: seq<ParticipantInfo>)
    requires forall i :: 0 <= i < |ps| ==> ps[i].sessionId != sid
    ensures ParticipantsIn(ps + Enrolled(sid, infos), sid) == Enrolled(sid, infos)
  {
    MembersOfFresh(ps, Enrolled(sid, infos), sid);
    PositionsPick(ps, Enrolled(sid, infos), sid);
  }

  /** `create_planning_session`: one new session, then one participant per entry, in order. */
  method CreatePlanningSession(db: Store, organizerName: string, organizerContact: string, eventName: string,
                               participants: seq<ParticipantInfo>) returns (sid: nat)
    requires db.Valid()
    modifies db
    ensures db.Valid()
    ensures sid == |old(db.sessions)| && db.sessions == old(db.sessions) + [Session(organizerName, organizerContact, eventName)]
    ensures db.participants == old(db.participants) + Enrolled(sid, participants)
    ensures ParticipantsIn(db.participants, sid) == Enrolled(sid, participants)
    ensures db.plans == old(db.plans) && db.feedback == old(db.feedback) && db.outbox == old(db.outbox)
  {
    sid := db.CreateSession(Session(organizerName, organizerContact, eventName));
    var i := 0;
    while i < |participants|
      invariant 0 <= i <= |participants|
      invariant db.Valid()
      invariant db.sessions == old(db.sessions) + [Session(organizerName, organizerContact, eventName)]
      invariant db.participants == old(db.participants) + Enrolled(sid, participants[..i])
      invariant db.plans == old(db.plans) && db.feedback == old(db.feedback) && db.outbox == old(db.outbox)
    {
      var pid := db.AddParticipant(sid, participants[i].name, participants[i].contact);
      assert Enrolled(sid, participants[..i + 1]) == Enrolled(sid, participants[..i]) + [NewParticipant(sid, participants[i].name, participants[i].contact)];
      i := i + 1;
    }
    assert participants[..i] == participants;
    SessionRoster(old(db.participants), sid, participants);
  }

  /** Every participant of an unknown session id: there are none. */
  lemma NoParticipantsOutsideSessions(db: Store, sid: nat)
    requires db.Valid() && sid >= |db.sessions|
    ensures ParticipantsIn(db.participants, sid) == []
  {
    MembersOfNone(db.participants, sid);
  }

  // ---------------------------------------------------------------- outreach

  /** The `initiate_contact` call `start_outreach` makes for one participant. */
  function Introduce(cfg: Config, s: Session): Participant -> Option<Delivery>
  {
    (p: Participant) => InitiateContact(cfg, p.name, p.contact, s.organizerName, s.eventName)
  }

  /** `start_outreach`: introduce the assistant to every participant of the session. */
  method StartOutreach(db: Store, cfg: Config, sid: nat)
    requires db.Valid()
    modifies db
    ensures db.Valid()
    ensures sid < |db.sessions| ==>
              db.outbox == old(db.outbox) + Flatten(Calls(Introduce(cfg, db.sessions[sid]), ParticipantsIn(db.participants, sid)))
    ensures sid >= |db.sessions| ==> db.outbox == old(db.outbox)
    ensures db.sessions == old(db.sessions) && db.participants == old(db.participants)
    ensures db.plans == old(db.plans) && db.feedback == old(db.feedback)
  {
    var participants := ParticipantsIn(db.participants, sid);
    if sid >= |db.sessions| {
      NoParticipantsOutsideSessions(db, sid);
    }
    ghost var known := if sid < |db.sessions| then db.sessions[sid] else Session("", "", "");
    var i := 0;
    while i < |participants|
      invariant 0 <= i <= |participants|
      invariant db.Valid()
      invariant db.sessions == old(db.sessions) && db.participants == old(db.participants)
      invariant db.plans == old(db.plans) && db.feedback == old(db.feedback)
      invariant db.outbox == old(db.outbox) + Flatten(Calls(Introduce(cfg, known), participants[..i]))
    {
      var participant := participants[i];
      assert participant.sessionId == sid;
      var session := db.sessions[sid];
      assert known == session;
      var d := InitiateContact(cfg, participant.name, participant.contact, session.organizerName, session.eventName);
      db.Send(d);
      CallsStep(old(db.outbox), Introduce(cfg, session), participants, i);
      i := i + 1;
    }
    assert participants[..i] == participants;
  }

  /**
   * Outreach never places a call, delivers at most once per participant, and
   * every introduction goes to a participant's contact, by its format.
   */
  lemma OutreachRoutedByContact(cfg: Config, s: Session, ps: seq<Participant>, d: Delivery)
    ensures |Flatten(Calls(Introduce(cfg, s), ps))| <= |ps|
    ensures d in Flatten(Calls(Introduce(cfg, s), ps)) ==>
              && !d.Call?
              && exists i :: 0 <= i < |ps| && d.to == ps[i].contact && (d.Email? <==> '@' in ps[i].contact)
  {
    var calls := Calls(Introduce(cfg, s), ps);
    FlattenBound(calls);
    if d in Flatten(calls) {
      FlattenMember(calls, d);
      var i :| 0 <= i < |calls| && calls[i] == Some(d);
      CallsAt(Introduce(cfg, s), ps, i);
      InitiateContactRouting(cfg, ps[i].name, ps[i].contact, s.organizerName, s.eventName);
    }
  }

  /** With SMS and e-mail switched on, every participant gets exactly one introduction, in order. */
  lemma OutreachReachesEveryone(cfg: Config, s: Session, ps: seq<Participant>)
    requires cfg.smsEnabled && cfg.emailEnabled
    ensures var out := Flatten(Calls(Introduce(cfg, s), ps));
            && |out| == |ps|
            && forall i :: 0 <= i < |ps| ==>
                 && out[i].to == ps[i].contact
                 && out[i].body == IntroMessageAsWritten(ps[i].name, s.organizerName, s.eventName)
                 && (if '@' in ps[i].contact then out[i].Email? else out[i].Sms?)
  {
    var calls := Calls(Introduce(cfg, s), ps);
    forall i | 0 <= i < |calls|
      ensures calls[i].Some? && calls[i].value.to == ps[i].contact
      ensures calls[i].value.body == IntroMessageAsWritten(ps[i].name, s.organizerName, s.eventName)
      ensures if '@' in ps[i].contact then calls[i].value.Email? else calls[i].value.Sms?
    {
      CallsAt(Introduce(cfg, s), ps, i);
      InitiateContactRouting(cfg, ps[i].name, ps[i].contact, s.organizerName, s.eventName);
    }
    FlattenAllDeliver(calls);
  }

  // ---------------------------------------------------------------- status

  /**
   * The participants whose collection is complete, in order: every complete
   * record is kept as often as it occurs, and no other record is.
   */
  function CompletedIn(ps: seq<Participant>): (r: seq<Participant>)
    ensures |r| <= |ps|
    ensures forall p :: p in r <==> p in ps && p.complete
    ensures forall p :: multiset(r)[p] == if p.complete then multiset(ps)[p] else 0
  {
    if ps == [] then []
    else
      var n := |ps| - 1;
      assert ps == ps[..n] + [ps[n]];
      assert forall p :: p in ps <==> p in ps[..n] || p == ps[n];
      CompletedIn(ps[..n]) + (if ps[n].complete then [ps[n]] else [])
  }

  /** Two equal complete records are counted twice, not once. */
  lemma CompletedCountsRecords(x: Participant)
    requires x.complete
    ensures |CompletedIn([x, x])| == 2
  {
    var r := CompletedIn([x, x]);
    assert multiset(r) == multiset{x, x};
    assert |multiset(r)| == 2;
  }

  datatype ParticipantStatus = ParticipantStatus(name: string, status: string, preferredMethod: Option<string>)

  datatype StatusReport = StatusReport(
    totalParticipants: nat,
    completed: nat,
    pending: int,
    completePercentage: real,
    participantStatus: seq<ParticipantStatus>)

  /** The status row of one participant, given the completed list. */
  function StatusRow(p: Participant, completed: seq<Participant>): ParticipantStatus
  {
    ParticipantStatus(p.name, if p in completed then "complete" else "pending", p.preferredMethod)
  }

  /**
   * The collection status of a list of participants: the counts add up,
   * `completed` counts the complete participants, the percentage is their
   * share out of 100 (0 with no participants), and there is one row per
   * participant, in order, saying "complete" exactly for complete ones.
   */
  function StatusOf(ps: seq<Participant>): (r: StatusReport)
    ensures r.totalParticipants == |ps|
    ensures r.completed == |CompletedIn(ps)| && r.completed + r.pending == r.totalParticipants && r.pending >= 0
    ensures r.completePercentage == Percentage(r.completed, r.totalParticipants)
    ensures |r.participantStatus| == |ps|
    ensures forall i :: 0 <= i < |ps| ==>
              && r.participantStatus[i].name == ps[i].name
              && (r.participantStatus[i].status == "complete" <==> ps[i].complete)
              && (r.participantStatus[i].status == "pending" <==> !ps[i].complete)
              && r.participantStatus[i].preferredMethod == ps[i].preferredMethod
  {
    var completed := CompletedIn(ps);
    var total := |ps|;
    StatusReport(total, |completed|, total - |completed|, Percentage(|completed|, total),
                 seq(total, i requires 0 <= i < total => StatusRow(ps[i], completed)))
  }

  /** `(count / total) * 100`, or 0 for an empty total, as an exact real. */
  function Percentage(count: nat, total: nat): (p: real)
    requires count <= total
    ensures 0.0 <= p <= 100.0
    ensures total == 0 ==> p == 0.0
    ensures total > 0 ==> p * (total as real) == (count as real) * 100.0
  {
    if total > 0 then
      PercentageInRange(count, total);
      ((count as real) / (total as real)) * 100.0
    else 0.0
  }

  /** A share of a positive total, scaled to 100, lies between 0 and 100 and scales back to the count. */
  lemma PercentageInRange(count: nat, total: nat)
    requires 0 < total && count <= total
    ensures 0.0 <= ((count as real) / (total as real)) * 100.0 <= 100.0
    ensures ((count as real) / (total as real)) * 100.0 * (total as real) == (count as real) * 100.0
  {
    var q := (count as real) / (total as real);
    assert q * (total as real) == count as real;
    assert q <= 1.0 by {
      if q > 1.0 {
        assert q * (total as real) > total as real;
      }
    }
  }

  /** `check_preferences_status` for a session. */
  function CheckPreferencesStatus(db: Store, sid: nat): (r: StatusReport)
    reads db
    ensures r.totalParticipants == |ParticipantsIn(db.participants, sid)| == |r.participantStatus|
    ensures r.completed + r.pending == r.totalParticipants
    ensures forall i :: 0 <= i < r.totalParticipants ==>
              (r.participantStatus[i].status == "complete" <==> ParticipantsIn(db.participants, sid)[i].complete)
    ensures r == StatusOf(ParticipantsIn(db.participants, sid))
  {
    StatusOf(ParticipantsIn(db.participants, sid))
  }

  /** Three participants, one of them done: one completed, two pending, a third of the way there. */
  lemma StatusOfThree(a: Participant, b: Participant, c: Participant)
    requires a.complete && !b.complete && !c.complete
    ensures var r := StatusOf([a, b, c]);
            && r.totalParticipants == 3 && r.completed == 1 && r.pending == 2
            && r.completePercentage == 100.0 / 3.0
            && r.participantStatus[0].status == "complete"
            && r.participantStatus[1].status == "pending"
            && r.participantStatus[2].status == "pending"
  {
    var ps := [a, b, c];
    assert ps[..2] == [a, b] && [a, b][..1] == [a] && [a][..0] == [];
    assert CompletedIn(ps) == [a];
  }

  // ---------------------------------------------------------------- plans

  /**
   * `generate_plan`: stores exactly one new, undecided plan, whatever the
   * collection status. The plan's content is an input: the authoring of the
   * plan is not part of this model.
   */
  method GeneratePlan(db: Store, sid: nat, content: Plan) returns (plan: Plan)
    requires db.Valid() && sid < |db.sessions|
    modifies db
    ensures db.Valid()
    ensures plan == content
    ensures db.plans == old(db.plans) + [StoredPlan(sid, content, None, None)]
    ensures LatestPlanOf(db.plans, sid) == Some(|old(db.plans)|)
    ensures db.sessions == old(db.sessions) && db.participants == old(db.participants)
    ensures db.feedback == old(db.feedback) && db.outbox == old(db.outbox)
  {
    var status := CheckPreferencesStatus(db, sid);
    var allPreferences := CollectPreferences(db, sid);
    plan := content;
    var planId := db.StorePlan(sid, plan);
  }

  const NoSuchSession := "TypeError: session not found"
  const NoPlanYet := "AttributeError: no plan for this session"

  /**
   * `submit_plan_to_organizer`: the session's latest plan to its organizer,
   * by contact format; an unknown session or a session without a plan is an
   * error and sends nothing.
   */
  method SubmitPlanToOrganizer(db: Store, cfg: Config, sid: nat) returns (r: Outcome)
    requires db.Valid()
    modifies db
    ensures db.Valid()
    ensures sid >= |db.sessions| ==> r == Fail(NoSuchSession)
    ensures sid < |db.sessions| && LatestPlanOf(db.plans, sid).None? ==> r == Fail(NoPlanYet)
    ensures r.Fail? ==> db.outbox == old(db.outbox)
    ensures r.Pass? ==>
              && sid < |db.sessions| && LatestPlanOf(db.plans, sid).Some?
              && var s := db.sessions[sid];
                 db.outbox == old(db.outbox) + Emit(SendPlanToOrganizer(cfg, s.organizerName, s.organizerContact, s.eventName,
                                                                        db.plans[LatestPlanOf(db.plans, sid).value].content))
    ensures db.sessions == old(db.sessions) && db.participants == old(db.participants)
    ensures db.plans == old(db.plans) && db.feedback == old(db.feedback)
  {
    if sid >= |db.sessions| {
      return Fail(NoSuchSession);
    }
    var session := db.sessions[sid];
    var latest := LatestPlanOf(db.plans, sid);
    if latest.None? {
      return Fail(NoPlanYet);
    }
    db.Send(SendPlanToOrganizer(cfg, session.organizerName, session.organizerContact, session.eventName,
                                db.plans[latest.value].content));
    r := Pass;
  }

  /** The `send_plan_to_participant` call a distribution makes for one participant, with their current method. */
  function PlanCopy(cfg: Config, s: Session, plan: Plan): Participant -> Option<Delivery>
  {
    (p: Participant) => SendPlanToParticipant(cfg, p.name, p.contact, p.preferredMethod, s.eventName, s.organizerName, plan)
  }

  /** `distribute_plan_to_participants`: the stored plan to every participant of the session. */
  method DistributePlanToParticipants(db: Store, cfg: Config, sid: nat, planId: nat)
    requires db.Valid() && planId < |db.plans|
    modifies db
    ensures db.Valid()
    ensures db.sessions == old(db.sessions) && db.participants == old(db.participants)
    ensures db.plans == old(db.plans) && db.feedback == old(db.feedback)
    ensures sid < |db.sessions| ==>
              db.outbox == old(db.outbox)
                + Flatten(Calls(PlanCopy(cfg, db.sessions[sid], db.plans[planId].content), ParticipantsIn(db.participants, sid)))
    ensures sid >= |db.sessions| ==> db.outbox == old(db.outbox)
  {
    var participants := ParticipantsIn(db.participants, sid);
    var plan := db.plans[planId].content;
    if sid >= |db.sessions| {
      NoParticipantsOutsideSessions(db, sid);
    }
    ghost var known := if sid < |db.sessions| then db.sessions[sid] else Session("", "", "");
    var i := 0;
    while i < |participants|
      invariant 0 <= i <= |participants|
      invariant db.Valid()
      invariant db.sessions == old(db.sessions) && db.participants == old(db.participants)
      invariant db.plans == old(db.plans) && db.feedback == old(db.feedback)
      invariant db.outbox == old(db.outbox) + Flatten(Calls(PlanCopy(cfg, known, plan), participants[..i]))
    {
      var participant := participants[i];
      assert participant.sessionId == sid;
      var session := db.sessions[sid];
      assert known == session;
      var d := SendPlanToParticipant(cfg, participant.name, participant.contact, participant.preferredMethod,
                                     session.eventName, session.organizerName, plan);
      db.Send(d);
      CallsStep(old(db.outbox), PlanCopy(cfg, session, plan), participants, i);
      i := i + 1;
    }
    assert participants[..i] == participants;
  }

  /**
   * With SMS and e-mail switched on, every participant gets exactly one copy
   * of the plan, in order, to their contact, over their preferred method
   * whenever that method is recognised and switched on.
   */
  lemma DistributionReachesEveryone(cfg: Config, s: Session, ps: seq<Participant>, plan: Plan)
    requires cfg.smsEnabled && cfg.emailEnabled
    ensures var out := Flatten(Calls(PlanCopy(cfg, s, plan), ps));
            && |out| == |ps|
            && forall i :: 0 <= i < |ps| ==>
                 && out[i].to == ps[i].contact
                 && (PreferredUsable(cfg, ps[i].preferredMethod) ==>
                       && (out[i].Sms? <==> ps[i].preferredMethod == Some("sms"))
                       && (out[i].Email? <==> ps[i].preferredMethod == Some("email"))
                       && (out[i].Call? <==> ps[i].preferredMethod == Some("phone")))
  {
    var calls := Calls(PlanCopy(cfg, s, plan), ps);
    forall i | 0 <= i < |calls|
      ensures calls[i].Some? && calls[i].value.to == ps[i].contact
      ensures PreferredUsable(cfg, ps[i].preferredMethod) ==>
                && (calls[i].value.Sms? <==> ps[i].preferredMethod == Some("sms"))
                && (calls[i].value.Email? <==> ps[i].preferredMethod == Some("email"))
                && (calls[i].value.Call? <==> ps[i].preferredMethod == Some("phone"))
    {
      CallsAt(PlanCopy(cfg, s, plan), ps, i);
      SendPlanToParticipantRouting(cfg, ps[i].name, ps[i].contact, ps[i].preferredMethod, s.eventName, s.organizerName, plan);
    }
    FlattenAllDeliver(calls);
  }

  /** Distribution delivers at most once per participant. */
  lemma DistributionAtMostOncePerParticipant(cfg: Config, s: Session, ps: seq<Participant>, plan: Plan)
    ensures |Flatten(Calls(PlanCopy(cfg, s, plan), ps))| <= |ps|
  {
    FlattenBound(Calls(PlanCopy(cfg, s, plan), ps));
  }

  /**
   * `record_organizer_decision`: overwrites the plan's status and feedback
   * whatever they were; on approval the plan is distributed, on rejection
   * nothing is sent and no plan is stored.
   */
  method RecordOrganizerDecision(db: Store, cfg: Config, sid: nat, planId: nat, approved: bool, feedback: Option<string>)
    requires db.Valid() && planId < |db.plans|
    modifies db
    ensures db.Valid()
    ensures db.plans == old(db.plans)[planId := old(db.plans)[planId].(status := Some(if approved then "approved" else "rejected"),
                                                                      organizerFeedback := feedback)]
    ensures approved && sid < |db.sessions| ==>
              db.outbox == old(db.outbox)
                + Flatten(Calls(PlanCopy(cfg, db.sessions[sid], db.plans[planId].content), ParticipantsIn(db.participants, sid)))
    ensures !approved || sid >= |db.sessions| ==> db.outbox == old(db.outbox)
    ensures db.sessions == old(db.sessions) && db.participants == old(db.participants) && db.feedback == old(db.feedback)
  {
    db.UpdatePlanStatus(planId, if approved then "approved" else "rejected", feedback);
    if approved {
      DistributePlanToParticipants(db, cfg, sid, planId);
    }
  }

  /** Approving one of a session's plans makes the session have an approved plan. */
  lemma {:induction false} ApprovalIsVisible(plans: seq<StoredPlan>, planId: nat, sid: nat, feedback: Option<string>)
    requires planId < |plans| && plans[planId].sessionId == sid
    ensures LatestApprovedOf(plans[planId := plans[planId].(status := Some("approved"), organizerFeedback := feedback)], sid).Some?
  {
    var updated := plans[planId := plans[planId].(status := Some("approved"), organizerFeedback := feedback)];
    var r := LatestApprovedOf(updated, sid);
    if r.None? {
      assert ApprovedIn(updated[planId], sid);
    }
  }

  // ---------------------------------------------------------------- participant feedback

  /** The organizer hears about a participant's answer exactly when it is a rejection with non-empty feedback. */
  predicate NotifiesOrganizer(accepted: bool, feedback: Option<string>)
  {
    !accepted && feedback.Some? && feedback.value != ""
  }

  const NoSuchParticipantToNotify := "TypeError: participant not found"

  /**
   * `collect_participant_feedback`: the answer is recorded against the
   * session's latest approved plan (none if there is none); a rejection with
   * feedback is then passed on to the organizer. The record is kept even
   * when the session or participant needed for the notice is missing.
   */
  method CollectParticipantFeedback(db: Store, cfg: Config, sid: nat, pid: nat, accepted: bool, feedback: Option<string>)
    returns (r: Outcome)
    requires db.Valid()
    modifies db
    ensures db.Valid()
    ensures db.feedback == old(db.feedback) + [FeedbackRecord(pid, LatestApprovedOf(db.plans, sid), accepted, feedback)]
    ensures !NotifiesOrganizer(accepted, feedback) ==> r == Pass && db.outbox == old(db.outbox)
    ensures NotifiesOrganizer(accepted, feedback) && sid >= |db.sessions| ==> r == Fail(NoSuchSession)
    ensures NotifiesOrganizer(accepted, feedback) && sid < |db.sessions| && pid >= |db.participants| ==>
              r == Fail(NoSuchParticipantToNotify)
    ensures r.Fail? ==> db.outbox == old(db.outbox)
    ensures NotifiesOrganizer(accepted, feedback) && sid < |db.sessions| && pid < |db.participants| ==>
              && r == Pass
              && var s := db.sessions[sid];
                 db.outbox == old(db.outbox) + Emit(NotifyOrganizerOfRejection(cfg, s.organizerName, s.organizerContact,
                                                                               db.participants[pid].name, s.eventName, feedback.value))
    ensures db.sessions == old(db.sessions) && db.participants == old(db.participants) && db.plans == old(db.plans)
  {
    var planId := LatestApprovedOf(db.plans, sid);
    db.RecordFeedback(pid, planId, accepted, feedback);
    if !accepted && feedback.Some? && feedback.value != "" {
      if sid >= |db.sessions| {
        return Fail(NoSuchSession);
      }
      var session := db.sessions[sid];
      if pid >= |db.participants| {
        return Fail(NoSuchParticipantToNotify);
      }
      var participant := db.participants[pid];
      db.Send(NotifyOrganizerOfRejection(cfg, session.organizerName, session.organizerContact,
                                         participant.name, session.eventName, feedback.value));
    }
    r := Pass;
  }

  // ---------------------------------------------------------------- the web layer's rules

  /** Which handler a participant's reply goes to: the continuation decision while one is awaited, an answer otherwise. */
  function OnReply(p: Participant, questionId: string, text: string): Step
  {
    if p.awaitingContinuation then OnContinuation(p, text) else OnAnswer(p, questionId, text)
  }

  /** The `/preferences/response` dispatcher. */
  method ProcessReply(db: Store, cfg: Config, pid: nat, questionId: string, response: string)
    requires db.Valid() && pid < |db.participants|
    modifies db
    ensures db.Valid()
    ensures var s := OnReply(old(db.participants[pid]), questionId, response);
            db.participants == old(db.participants)[pid := s.next] && db.outbox == old(db.outbox) + Emit(Deliver(cfg, s))
    ensures db.sessions == old(db.sessions) && db.plans == old(db.plans) && db.feedback == old(db.feedback)
  {
    if db.participants[pid].awaitingContinuation {
      ProcessContinuationResponse(db, cfg, pid, response);
    } else {
      ProcessQuestionResponse(db, cfg, pid, questionId, response);
    }
  }

  /**
   * The reply that completes the fifth answer raises the prompt, and the
   * reply after it is taken as the continuation decision: it is not stored
   * as an answer, and it clears the flag.
   */
  lemma PromptedReplyIsADecision(p: Participant, q1: string, a1: string, q2: string, a2: string)
    requires !p.awaitingContinuation && |p.responses| + 1 >= ContinuationThreshold
    ensures var s1 := OnReply(p, q1, a1);
            && s1.message == ContinuationPrompt && s1.next.awaitingContinuation
            && var s2 := OnReply(s1.next, q2, a2);
               && s2 == OnContinuation(s1.next, a2)
               && s2.next.responses == s1.next.responses
               && !s2.next.awaitingContinuation
  {
  }

  /**
   * Nothing stops a participant who declined from answering again: the
   * reply is stored as an answer and, with five or more answers, the
   * continuation prompt goes out once more.
   */
  lemma DeclinedParticipantIsPromptedAgain(p: Participant, reply: string, q: string, answer: string)
    requires p.awaitingContinuation && |p.responses| >= ContinuationThreshold
    requires NormalizeReply(reply) !in AffirmativeReplies
    ensures var declined := OnReply(p, q, reply).next;
            && declined.complete && !declined.awaitingContinuation
            && var again := OnReply(declined, q, answer);
               && again.next.responses == p.responses + [Response(q, answer)]
               && again.message == ContinuationPrompt && again.next.awaitingContinuation && again.next.complete
  {
  }

  /** The plan part of the session status query. */
  datatype PlanStatus = NoPlan | HasPlan(approved: bool, details: Plan)

  /**
   * A plan dictionary is truthy when it has at least one key: the query's
   * `if latest_plan:` reports an empty latest plan as no plan.
   */
  predicate HasContent(plan: Plan)
  {
    plan != map[]
  }

  /**
   * The plan status of a session: a plan exactly when the session has a
   * stored plan and its latest plan is not empty; approved exactly when the
   * session has an approved plan.
   */
  function PlanStatusOf(plans: seq<StoredPlan>, sid: nat): (r: PlanStatus)
    ensures r.HasPlan? <==>
              && (exists j :: 0 <= j < |plans| && plans[j].sessionId == sid)
              && HasContent(plans[LatestPlanOf(plans, sid).value].content)
    ensures r.HasPlan? ==> (r.approved <==> exists j :: 0 <= j < |plans| && ApprovedIn(plans[j], sid))
    ensures r.HasPlan? ==> r.details == plans[LatestPlanOf(plans, sid).value].content
  {
    var latest := LatestPlanOf(plans, sid);
    if latest.Some? && HasContent(plans[latest.value].content) then
      HasPlan(LatestApprovedOf(plans, sid).Some?, plans[latest.value].content)
    else
      NoPlan
  }

  /**
   * A session with an approved plan has a latest plan; it is reported, and
   * as approved, unless that latest plan is empty.
   */
  lemma ApprovedPlanIsReported(plans: seq<StoredPlan>, sid: nat)
    requires LatestApprovedOf(plans, sid).Some?
    ensures LatestPlanOf(plans, sid).Some?
    ensures PlanStatusOf(plans, sid).HasPlan? <==> HasContent(plans[LatestPlanOf(plans, sid).value].content)
    ensures PlanStatusOf(plans, sid).HasPlan? ==> PlanStatusOf(plans, sid).approved
  {
    var j := LatestApprovedOf(plans, sid).value;
    assert plans[j].sessionId == sid;
  }

  datatype SessionStatus = SessionStatus(eventName: string, organizer: string, preferences: StatusReport, plan: PlanStatus)

  const SessionNotFound := "404: Session not found"

  /** The `/sessions/{id}/status` query: an unknown session is "not found". */
  function GetSessionStatus(db: Store, sid: nat): (r: Result<SessionStatus>)
    reads db
    ensures r.Failure? <==> sid >= |db.sessions|
    ensures r.Failure? ==> r.error == SessionNotFound
    ensures r.Success? ==>
              && r.value.eventName == db.sessions[sid].eventName
              && r.value.organizer == db.sessions[sid].organizerName
              && r.value.preferences.totalParticipants == |ParticipantsIn(db.participants, sid)|
              && (r.value.plan.HasPlan? <==>
                    LatestPlanOf(db.plans, sid).Some? && HasContent(db.plans[LatestPlanOf(db.plans, sid).value].content))
              && (r.value.plan.HasPlan? ==> (r.value.plan.approved <==> LatestApprovedOf(db.plans, sid).Some?))
              && r.value.preferences == CheckPreferencesStatus(db, sid)
              && r.value.plan == PlanStatusOf(db.plans, sid)
  {
    if sid >= |db.sessions| then Failure(SessionNotFound)
    else
      var session := db.sessions[sid];
      Success(SessionStatus(session.eventName, session.organizerName, CheckPreferencesStatus(db, sid), PlanStatusOf(db.plans, sid)))
  }
}
