/**
 * The communication handler: which channel every outgoing message takes and
 * what it says. Sending itself only records the message (see README), so
 * each operation is a decision that yields at most one delivery, which the
 * caller appends to the outbox.
 */
module CommunicationHandler {
  import opened Wrappers
  import opened Text
  import opened PlanValues

  /** The three switches the handler is constructed with; the planner builds it with all three on. */
  datatype Config = Config(smsEnabled: bool, emailEnabled: bool, voiceEnabled: bool)

  /** One outgoing message; for a call, `body` is the spoken script. */
  datatype Delivery =
    | Sms(to: string, body: string)
    | Email(to: string, subject: string, body: string)
    | Call(to: string, body: string)

  /** The outbox entries one routing decision adds. */
  function Emit(d: Option<Delivery>): (r: seq<Delivery>)
    ensures |r| <= 1 && (r == [] <==> d.None?)
    ensures d.Some? ==> r == [d.value]
  {
    if d.Some? then [d.value] else []
  }

  /** Contact-format detection: an address with "@" is an e-mail address, anything else a phone number. */
  function DetectContactType(contact: string): (t: string)
    ensures t == "email" || t == "phone"
    ensures t == "email" <==> '@' in contact
  {
    if '@' in contact then "email" else "phone"
  }

  /**
   * What a delivery routed on the contact format alone looks like: SMS to a
   * phone-like contact when SMS is on, e-mail to an "@" contact when e-mail is
   * on, nothing otherwise, and never a call.
   */
  predicate RoutedByContact(cfg: Config, contact: string, d: Option<Delivery>)
  {
    && (d.Some? <==> (if '@' in contact then cfg.emailEnabled else cfg.smsEnabled))
    && (d.Some? ==> d.value.to == contact && !d.value.Call? && (d.value.Email? <==> '@' in contact))
  }

  /** The routing ladder shared by every message that is sent by contact format. */
  function ByContactFormat(cfg: Config, contact: string, subject: string, message: string): (d: Option<Delivery>)
    ensures RoutedByContact(cfg, contact, d)
    ensures d.Some? ==> d.value.body == message
    ensures d.Some? && d.value.Email? ==> d.value.subject == subject
  {
    var kind := DetectContactType(contact);
    if kind == "phone" && cfg.smsEnabled then Some(Sms(contact, message))
    else if kind == "email" && cfg.emailEnabled then Some(Email(contact, subject, message))
    else None
  }

  /** A stored preferred method names a channel that is recognised and switched on. */
  predicate PreferredUsable(cfg: Config, preferred: Option<string>)
  {
    || (preferred == Some("sms") && cfg.smsEnabled)
    || (preferred == Some("email") && cfg.emailEnabled)
    || (preferred == Some("phone") && cfg.voiceEnabled)
  }

  // ---------------------------------------------------------------- introduction

  /** The reply code the introduction as written offers for a phone call. */
  const PhoneCodeAsWritten := "A3"

  /** The reply code the method normaliser understands as a phone call. */
  const PhoneCode := "3"

  /** What the introduction offers for a phone call, at its very end. */
  function PhoneOffer(phoneCode: string): string
  {
    "or " + phoneCode + " for a phone call."
  }

  /** The introduction up to the offer of a phone call. */
  function IntroLead(participantName: string, organizerName: string, eventName: string): string
  {
    ("Hi " + participantName + ", " + organizerName + " is planning " + eventName)
    + (" and has asked me (an AI assistant) to help coordinate. "
    + "How would you prefer to answer a few questions about your preferences? "
    + "Reply with: 1 for text, 2 for email, ")
  }

  /**
   * The introduction exactly as the source writes it: it greets the
   * participant and ends by offering "A3" for a phone call.
   */
  function IntroMessageAsWritten(participantName: string, organizerName: string, eventName: string): (m: string)
    ensures "Hi " + participantName + ", " + organizerName + " is planning " + eventName <= m
    ensures EndsWith(m, PhoneOffer(PhoneCodeAsWritten))
  {
    IntroLead(participantName, organizerName, eventName) + PhoneOffer("A3")
  }

  /** The introduction with the reply code the rest of the dialogue understands. */
  function IntroMessage(participantName: string, organizerName: string, eventName: string): (m: string)
    ensures "Hi " + participantName + ", " + organizerName + " is planning " + eventName <= m
    ensures EndsWith(m, PhoneOffer(PhoneCode))
  {
    IntroLead(participantName, organizerName, eventName) + PhoneOffer("3")
  }

  /** The two texts agree everywhere except in the phone code they offer. */
  lemma IntroMessagesDifferOnlyInPhoneCode(participantName: string, organizerName: string, eventName: string)
    ensures var w := IntroMessageAsWritten(participantName, organizerName, eventName);
            var c := IntroMessage(participantName, organizerName, eventName);
            && |w| == |c| + 1
            && w[..|w| - |PhoneOffer(PhoneCodeAsWritten)|] == c[..|c| - |PhoneOffer(PhoneCode)|]
  {
    var lead := IntroLead(participantName, organizerName, eventName);
    assert IntroMessageAsWritten(participantName, organizerName, eventName)[..|lead|] == lead;
    assert IntroMessage(participantName, organizerName, eventName)[..|lead|] == lead;
  }

  /** The subject of an introduction e-mail. */
  function IntroSubject(organizerName: string, eventName: string): string
  {
    "Help Plan: " + eventName + " with " + organizerName
  }

  /** First contact with a participant. */
  function InitiateContact(cfg: Config, participantName: string, participantContact: string,
                           organizerName: string, eventName: string): Option<Delivery>
  {
    ByContactFormat(cfg, participantContact, IntroSubject(organizerName, eventName),
                    IntroMessageAsWritten(participantName, organizerName, eventName))
  }

  /** The introduction is routed on the format of the contact only, and carries the introduction as written. */
  lemma InitiateContactRouting(cfg: Config, participantName: string, participantContact: string,
                               organizerName: string, eventName: string)
    ensures var d := InitiateContact(cfg, participantName, participantContact, organizerName, eventName);
            && RoutedByContact(cfg, participantContact, d)
            && (d.Some? ==> d.value.body == IntroMessageAsWritten(participantName, organizerName, eventName))
            && (d.Some? && d.value.Email? ==> d.value.subject == IntroSubject(organizerName, eventName))
  {
  }

  // ---------------------------------------------------------------- questions

  const QuestionSubject := "Quick question about your preferences"
  const QuestionCallGreeting := "Hello, I have a question for you about your preferences. "

  /**
   * One question over the participant's preferred method. An unset,
   * unrecognised or switched-off method sends nothing (there is no fallback
   * here).
   */
  function SendQuestion(cfg: Config, contact: string, preferred: Option<string>, question: string): (d: Option<Delivery>)
    ensures d.Some? <==> PreferredUsable(cfg, preferred)
    ensures d.Some? ==> d.value.to == contact
    ensures d.Some? && d.value.Sms? ==> preferred == Some("sms") && d.value.body == question
    ensures d.Some? && d.value.Email? ==>
              preferred == Some("email") && d.value.subject == QuestionSubject && d.value.body == question
    ensures d.Some? && d.value.Call? ==> preferred == Some("phone") && d.value.body == QuestionCallGreeting + question
  {
    if preferred == Some("sms") && cfg.smsEnabled then Some(Sms(contact, question))
    else if preferred == Some("email") && cfg.emailEnabled then Some(Email(contact, QuestionSubject, question))
    else if preferred == Some("phone") && cfg.voiceEnabled then Some(Call(contact, QuestionCallGreeting + question))
    else None
  }

  // ---------------------------------------------------------------- plan text

  /** The five fixed lines: PLAN FOR, DATE, TIME, LOCATION, ACTIVITIES. */
  function PlanLines(plan: Plan): string
  {
    ("PLAN FOR: " + Show(GetOr(plan, "event_name", Str("Event"))) + "\n")
    + ("DATE: " + Show(GetOr(plan, "date", Str("TBD"))) + "\n")
    + ("TIME: " + Show(GetOr(plan, "time", Str("TBD"))) + "\n")
    + ("LOCATION: " + Show(GetOr(plan, "location", Str("TBD"))) + "\n")
    + ("ACTIVITIES: " + Join(", ", Elements(GetOr(plan, "activities", Items(["TBD"])))) + "\n")
  }

  predicate HasNotes(plan: Plan)
  {
    "notes" in plan && Truthy(plan["notes"])
  }

  /** The plan as message text: the fixed lines, then the notes section when there are notes. */
  function FormatPlan(plan: Plan): string
  {
    PlanLines(plan) + (if HasNotes(plan) then "\nADDITIONAL NOTES:\n" + Show(plan["notes"]) + "\n" else "")
  }

  /** The only keys the plan text shows. */
  predicate SameShownFields(p: Plan, q: Plan)
  {
    forall k :: k in ["event_name", "date", "time", "location", "activities", "notes"] ==> Lookup(p, k) == Lookup(q, k)
  }

  /** The text depends on the six shown keys only (so, for one, `revision_reason` never appears). */
  lemma FormatPlanShowsOnlyItsKeys(p: Plan, q: Plan)
    requires SameShownFields(p, q)
    ensures FormatPlan(p) == FormatPlan(q)
  {
    var keys := ["event_name", "date", "time", "location", "activities", "notes"];
    forall k | k in keys ensures GetOr(p, k, Str("")) == GetOr(q, k, Str("")) && (k in p <==> k in q) {
      assert Lookup(p, k) == Lookup(q, k);
    }
    assert keys[0] == "event_name" && keys[1] == "date" && keys[2] == "time";
    assert keys[3] == "location" && keys[4] == "activities" && keys[5] == "notes";
  }

  /**
   * The text always starts with the five fixed lines, and something follows
   * them exactly when the plan has a non-empty `notes` value.
   */
  lemma FormatPlanNotesSection(plan: Plan)
    ensures PlanLines(plan) <= FormatPlan(plan)
    ensures |FormatPlan(plan)| > |PlanLines(plan)| <==> HasNotes(plan)
    ensures HasNotes(plan) ==>
              FormatPlan(plan)[|PlanLines(plan)|..] == "\nADDITIONAL NOTES:\n" + Show(plan["notes"]) + "\n"
  {
  }

  /** A plan with none of the keys shows every default, line by line. */
  lemma FormatPlanDefaults()
    ensures FormatPlan(map[]) ==
      "PLAN FOR: Event\n" + "DATE: TBD\n" + "TIME: TBD\n" + "LOCATION: TBD\n" + "ACTIVITIES: TBD\n"
  {
    var empty: Plan := map[];
    assert FormatPlan(empty) == PlanLines(empty) by {
      assert !HasNotes(empty);
      assert PlanLines(empty) + "" == PlanLines(empty);
    }
    assert "PLAN FOR: " + Show(GetOr(empty, "event_name", Str("Event"))) + "\n" == "PLAN FOR: Event\n" by {
      assert Show(GetOr(empty, "event_name", Str("Event"))) == "Event";
    }
    assert "DATE: " + Show(GetOr(empty, "date", Str("TBD"))) + "\n" == "DATE: TBD\n" by {
      assert Show(GetOr(empty, "date", Str("TBD"))) == "TBD";
    }
    assert "TIME: " + Show(GetOr(empty, "time", Str("TBD"))) + "\n" == "TIME: TBD\n" by {
      assert Show(GetOr(empty, "time", Str("TBD"))) == "TBD";
    }
    assert "LOCATION: " + Show(GetOr(empty, "location", Str("TBD"))) + "\n" == "LOCATION: TBD\n" by {
      assert Show(GetOr(empty, "location", Str("TBD"))) == "TBD";
    }
    assert "ACTIVITIES: " + Join(", ", Elements(GetOr(empty, "activities", Items(["TBD"])))) + "\n" == "ACTIVITIES: TBD\n" by {
      assert Join(", ", Elements(GetOr(empty, "activities", Items(["TBD"])))) == "TBD";
    }
  }

  // ---------------------------------------------------------------- plans out

  function OrganizerPlanMessage(organizerName: string, eventName: string, plan: Plan): string
  {
    "Hi " + organizerName + ", I've created a proposed plan for " + eventName
    + " based on everyone's preferences:\n\n" + FormatPlan(plan) + "\n\n"
    + "Please reply with APPROVE to confirm this plan, or REVISE followed by "
    + "your feedback if you'd like changes."
  }

  /** The proposed plan to the organizer; routed on contact format only. */
  function SendPlanToOrganizer(cfg: Config, organizerName: string, organizerContact: string,
                               eventName: string, plan: Plan): (d: Option<Delivery>)
    ensures RoutedByContact(cfg, organizerContact, d)
    ensures d.Some? ==> d.value.body == OrganizerPlanMessage(organizerName, eventName, plan)
    ensures d.Some? && d.value.Email? ==> d.value.subject == "Proposed Plan for " + eventName
  {
    ByContactFormat(cfg, organizerContact, "Proposed Plan for " + eventName,
                    OrganizerPlanMessage(organizerName, eventName, plan))
  }

  function ApprovedPlanMessage(participantName: string, organizerName: string, eventName: string, plan: Plan): string
  {
    "Hi " + participantName + ", " + organizerName + " has approved the plan for " + eventName + ":\n\n"
    + FormatPlan(plan) + "\n\n"
    + "Please reply with YES if this works for you, or NO followed by "
    + "any concerns if you have issues with this plan."
  }

  function ApprovedPlanScript(participantName: string, eventName: string, plan: Plan): string
  {
    "Hello " + participantName + ", I'm calling about the plan for " + eventName + ". " + FormatPlan(plan)
  }

  /** The approved plan to a participant. */
  function SendPlanToParticipant(cfg: Config, participantName: string, participantContact: string,
                                 preferredMethod: Option<string>, eventName: string,
                                 organizerName: string, plan: Plan): Option<Delivery>
  {
    var message := ApprovedPlanMessage(participantName, organizerName, eventName, plan);
    var subject := "Approved Plan for " + eventName;
    if preferredMethod == Some("sms") && cfg.smsEnabled then Some(Sms(participantContact, message))
    else if preferredMethod == Some("email") && cfg.emailEnabled then Some(Email(participantContact, subject, message))
    else if preferredMethod == Some("phone") && cfg.voiceEnabled then
      Some(Call(participantContact, ApprovedPlanScript(participantName, eventName, plan)))
    else ByContactFormat(cfg, participantContact, subject, message)
  }

  /**
   * The approved plan goes over the preferred method when it is recognised
   * and switched on, and otherwise by contact format; a call carries the
   * spoken script, anything else the written message.
   */
  lemma SendPlanToParticipantRouting(cfg: Config, participantName: string, participantContact: string,
                                     preferredMethod: Option<string>, eventName: string,
                                     organizerName: string, plan: Plan)
    ensures var d := SendPlanToParticipant(cfg, participantName, participantContact, preferredMethod, eventName, organizerName, plan);
            && (PreferredUsable(cfg, preferredMethod) ==>
                  && d.Some? && d.value.to == participantContact
                  && (d.value.Sms? <==> preferredMethod == Some("sms"))
                  && (d.value.Email? <==> preferredMethod == Some("email"))
                  && (d.value.Call? <==> preferredMethod == Some("phone")))
            && (!PreferredUsable(cfg, preferredMethod) ==> RoutedByContact(cfg, participantContact, d))
            && (d.Some? && d.value.Call? ==> d.value.body == ApprovedPlanScript(participantName, eventName, plan))
            && (d.Some? && !d.value.Call? ==>
                  d.value.body == ApprovedPlanMessage(participantName, organizerName, eventName, plan))
            && (d.Some? && d.value.Email? ==> d.value.subject == "Approved Plan for " + eventName)
  {
    var message := ApprovedPlanMessage(participantName, organizerName, eventName, plan);
    var subject := "Approved Plan for " + eventName;
    if !PreferredUsable(cfg, preferredMethod) {
      assert SendPlanToParticipant(cfg, participantName, participantContact, preferredMethod, eventName, organizerName, plan)
          == ByContactFormat(cfg, participantContact, subject, message);
    }
  }

  function RejectionMessage(organizerName: string, participantName: string, eventName: string, feedback: string): string
  {
    "Hi " + organizerName + ", " + participantName + " has concerns about the plan for " + eventName + ".\n\n"
    + "Their feedback: " + feedback + "\n\n"
    + "Would you like me to create a revised plan? Reply with YES to create a new plan, "
    + "or CONTINUE if you'd like to proceed with the current plan."
  }

  /** A participant's rejection and feedback to the organizer; routed on contact format only. */
  function NotifyOrganizerOfRejection(cfg: Config, organizerName: string, organizerContact: string,
                                      participantName: string, eventName: string, feedback: string): (d: Option<Delivery>)
    ensures RoutedByContact(cfg, organizerContact, d)
    ensures d.Some? ==> d.value.body == RejectionMessage(organizerName, participantName, eventName, feedback)
    ensures d.Some? && d.value.Email? ==> d.value.subject == "Feedback on Plan for " + eventName
  {
    ByContactFormat(cfg, organizerContact, "Feedback on Plan for " + eventName,
                    RejectionMessage(organizerName, participantName, eventName, feedback))
  }
}
