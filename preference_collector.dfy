/**
 * The preference-collection dialogue. A participant first names a channel,
 * then answers questions one at a time; from the fifth answer on every answer
 * is followed by a prompt asking whether to go on, and a reply to that prompt
 * either asks the next question or closes the dialogue.
 *
 * Each handler is a method on the store; the pure Step functions say what
 * one call does to the participant and which single message it hands to the
 * communication handler.
 */
module PreferenceCollector {
  import opened Wrappers
  import opened Sequences
  import opened Text
  import opened CommunicationHandler
  import opened Database

  const BaseQuestions: seq<string> := [
    "What days of the week generally work best for you?",
    "What time of day do you prefer for activities?",
    "What types of activities do you enjoy most?",
    "Do you have any location preferences or restrictions?",
    "Are there any dietary restrictions or preferences I should know about?",
    "Do you have any mobility or accessibility needs?",
    "Are you bringing children, and if so, what are their ages?",
    "What's your comfort level with different types of transportation?",
    "Are there any budget considerations I should be aware of?",
    "What's most important to you for this event (e.g., socializing, specific activity, etc.)?"
  ]

  /** Asked once the ten base questions have all been answered. */
  const FollowUpQuestion :=
    "Based on what you've shared so far, is there anything specific that would make this event perfect for you?"

  /** From this many stored responses on, an answer is followed by the continuation prompt. */
  const ContinuationThreshold := 5

  const ContinuationPrompt :=
    "Thank you for your responses so far! Would you be willing to answer "
    + "a few more questions to help plan the perfect event? Reply with YES "
    + "to continue or NO to finish."

  const ThankYouMessage :=
    "Thank you for sharing your preferences! I'll use this information "
    + "to help create a plan that works for everyone. You'll receive the "
    + "proposed plan once it's ready."

  const SmsReplies: seq<string> := ["1", "text", "sms", "txt"]
  const EmailReplies: seq<string> := ["2", "email", "e-mail", "mail"]
  const PhoneReplies: seq<string> := ["3", "phone", "call", "voice"]
  const AffirmativeReplies: seq<string> := ["yes", "y", "sure", "ok", "okay", "continue"]

  /** No word selects two channels (the lists differ in their first characters). */
  lemma ReplyListsDisjoint(r: string)
    ensures r in SmsReplies ==> r !in EmailReplies && r !in PhoneReplies
    ensures r in EmailReplies ==> r !in PhoneReplies
  {
    if r in SmsReplies {
      assert r[0] == '1' || r[0] == 't' || r[0] == 's';
    }
    if r in EmailReplies {
      assert r[0] == '2' || r[0] == 'e' || r[0] == 'm';
    }
  }

  /** A free-text reply as the handlers compare it: stripped and lower-cased. */
  function NormalizeReply(raw: string): string
  {
    Lower(Trim(raw))
  }

  predicate Recognised(raw: string)
  {
    var r := NormalizeReply(raw);
    r in SmsReplies || r in EmailReplies || r in PhoneReplies
  }

  /**
   * The channel a method reply selects. A reply that names no channel falls
   * back on the contact format; it never fails.
   */
  function ResolveMethod(raw: string, contact: string): (m: string)
    ensures m == "sms" || m == "email" || m == "phone"
    ensures NormalizeReply(raw) in SmsReplies ==> m == "sms"
    ensures NormalizeReply(raw) in EmailReplies ==> m == "email"
    ensures NormalizeReply(raw) in PhoneReplies ==> m == "phone"
    ensures !Recognised(raw) ==> m == (if '@' in contact then "email" else "sms")
  {
    var r := NormalizeReply(raw);
    ReplyListsDisjoint(r);
    if r in SmsReplies then "sms"
    else if r in EmailReplies then "email"
    else if r in PhoneReplies then "phone"
    else if '@' in contact then "email"
    else "sms"
  }

  /** The question to ask after the given responses: the base questions in order, then the follow-up. */
  function NextQuestion(previous: seq<Response>): (q: string)
    ensures |previous| < |BaseQuestions| ==> q == BaseQuestions[|previous|]
    ensures |previous| >= |BaseQuestions| ==> q == FollowUpQuestion
  {
    if previous == [] then BaseQuestions[0]
    else if |previous| < |BaseQuestions| then BaseQuestions[|previous|]
    else FollowUpQuestion
  }

  /** The participant after one handler call, and the one message that call hands to the communication handler. */
  datatype Step = Step(next: Participant, message: string)

  /** What the communication handler delivers for a step: by the stored method, at most once. */
  function Deliver(cfg: Config, s: Step): Option<Delivery>
  {
    SendQuestion(cfg, s.next.contact, s.next.preferredMethod, s.message)
  }

  /** `_send_next_question`: store the next question and send it. */
  function AskNext(p: Participant): (s: Step)
    ensures s.message == NextQuestion(p.responses)
    ensures s.next == p.(questions := p.questions + [s.message])
  {
    var q := NextQuestion(p.responses);
    Step(p.(questions := p.questions + [q]), q)
  }

  /** `process_preferred_comm_method`: store the resolved channel, then ask the next question. */
  function OnMethodReply(p: Participant, raw: string): (s: Step)
    ensures s.next.preferredMethod == Some(ResolveMethod(raw, p.contact))
    ensures s.message == NextQuestion(p.responses) && s.next.questions == p.questions + [s.message]
    ensures s.next == p.(preferredMethod := s.next.preferredMethod, questions := s.next.questions)
  {
    AskNext(p.(preferredMethod := Some(ResolveMethod(raw, p.contact))))
  }

  /**
   * `process_question_response`: the answer is stored first; with five or more
   * responses the continuation prompt goes out and no question is stored,
   * otherwise the next question is asked and the flag is left alone.
   */
  function OnAnswer(p: Participant, questionId: string, text: string): (s: Step)
    ensures s.next.responses == p.responses + [Response(questionId, text)]
    ensures |s.next.responses| >= ContinuationThreshold ==>
              && s.message == ContinuationPrompt && s.next.awaitingContinuation
              && s.next == p.(responses := s.next.responses, awaitingContinuation := true)
    ensures |s.next.responses| < ContinuationThreshold ==>
              && s.message == BaseQuestions[|s.next.responses|]
              && s.next == p.(responses := s.next.responses, questions := p.questions + [s.message])
  {
    var answered := p.(responses := p.responses + [Response(questionId, text)]);
    if |answered.responses| >= ContinuationThreshold then
      Step(answered.(awaitingContinuation := true), ContinuationPrompt)
    else
      AskNext(answered)
  }

  /**
   * `process_continuation_response`: the flag is always cleared; an
   * affirmative reply asks the next question, anything else completes the
   * participant and thanks them, asking nothing.
   */
  function OnContinuation(p: Participant, raw: string): (s: Step)
    ensures !s.next.awaitingContinuation
    ensures NormalizeReply(raw) in AffirmativeReplies ==>
              && s.message == NextQuestion(p.responses)
              && s.next == p.(awaitingContinuation := false, questions := p.questions + [s.message])
    ensures NormalizeReply(raw) !in AffirmativeReplies ==>
              && s.message == ThankYouMessage
              && s.next == p.(awaitingContinuation := false, complete := true)
  {
    var cleared := p.(awaitingContinuation := false);
    if NormalizeReply(raw) in AffirmativeReplies then AskNext(cleared)
    else Step(cleared.(complete := true), ThankYouMessage)
  }

  // ---------------------------------------------------------------- handlers on the store

  method SendNextQuestion(db: Store, cfg: Config, pid: nat)
    requires db.Valid() && pid < |db.participants|
    modifies db
    ensures db.Valid()
    ensures var s := AskNext(old(db.participants[pid]));
            db.participants == old(db.participants)[pid := s.next] && db.outbox == old(db.outbox) + Emit(Deliver(cfg, s))
    ensures db.sessions == old(db.sessions) && db.plans == old(db.plans) && db.feedback == old(db.feedback)
  {
    var participant := db.participants[pid];
    var nextQuestion := NextQuestion(participant.responses);
    var questionId := db.StoreQuestion(pid, nextQuestion);
    db.Send(SendQuestion(cfg, participant.contact, db.participants[pid].preferredMethod, nextQuestion));
  }

  method ProcessPreferredCommMethod(db: Store, cfg: Config, pid: nat, response: string)
    requires db.Valid() && pid < |db.participants|
    modifies db
    ensures db.Valid()
    ensures var s := OnMethodReply(old(db.participants[pid]), response);
            db.participants == old(db.participants)[pid := s.next] && db.outbox == old(db.outbox) + Emit(Deliver(cfg, s))
    ensures db.sessions == old(db.sessions) && db.plans == old(db.plans) && db.feedback == old(db.feedback)
  {
    ghost var before := db.participants;
    var contact := db.participants[pid].contact;
    db.SetPreferredMethod(pid, ResolveMethod(response, contact));
    ghost var chosen := db.participants[pid];
    SendNextQuestion(db, cfg, pid);
    UpdateTwice(before, pid, chosen, AskNext(chosen).next);
  }

  method ProcessQuestionResponse(db: Store, cfg: Config, pid: nat, questionId: string, response: string)
    requires db.Valid() && pid < |db.participants|
    modifies db
    ensures db.Valid()
    ensures var s := OnAnswer(old(db.participants[pid]), questionId, response);
            db.participants == old(db.participants)[pid := s.next] && db.outbox == old(db.outbox) + Emit(Deliver(cfg, s))
    ensures db.sessions == old(db.sessions) && db.plans == old(db.plans) && db.feedback == old(db.feedback)
  {
    ghost var before := db.participants;
    db.StoreResponse(pid, questionId, response);
    ghost var answered := db.participants[pid];
    var questionCount := |db.participants[pid].responses|;
    if questionCount >= ContinuationThreshold {
      var participant := db.participants[pid];
      db.Send(SendQuestion(cfg, participant.contact, participant.preferredMethod, ContinuationPrompt));
      db.SetAwaitingContinuation(pid, true);
      UpdateTwice(before, pid, answered, answered.(awaitingContinuation := true));
    } else {
      SendNextQuestion(db, cfg, pid);
      UpdateTwice(before, pid, answered, AskNext(answered).next);
    }
  }

  method ProcessContinuationResponse(db: Store, cfg: Config, pid: nat, response: string)
    requires db.Valid() && pid < |db.participants|
    modifies db
    ensures db.Valid()
    ensures var s := OnContinuation(old(db.participants[pid]), response);
            db.participants == old(db.participants)[pid := s.next] && db.outbox == old(db.outbox) + Emit(Deliver(cfg, s))
    ensures db.sessions == old(db.sessions) && db.plans == old(db.plans) && db.feedback == old(db.feedback)
  {
    ghost var before := db.participants;
    ghost var step := OnContinuation(db.participants[pid], response);
    ghost var cleared := db.participants[pid].(awaitingContinuation := false);
    var normalized := NormalizeReply(response);
    db.SetAwaitingContinuation(pid, false);
    if normalized in AffirmativeReplies {
      assert step == AskNext(cleared);
      SendNextQuestion(db, cfg, pid);
      UpdateTwice(before, pid, cleared, step.next);
    } else {
      assert step == Step(cleared.(complete := true), ThankYouMessage);
      db.MarkComplete(pid);
      var participant := db.participants[pid];
      assert participant == step.next;
      db.Send(SendQuestion(cfg, participant.contact, participant.preferredMethod, ThankYouMessage));
      UpdateTwice(before, pid, cleared, step.next);
    }
  }

  // ---------------------------------------------------------------- properties

  /** Normalising an already normalised reply changes nothing. */
  lemma NormalizeIdempotent(raw: string)
    ensures NormalizeReply(NormalizeReply(raw)) == NormalizeReply(raw)
  {
    var t := Trim(raw);
    TrimLower(t);
    TrimIdempotent(raw);
    LowerIdempotent(t);
  }

  /** Padding and letter case never change which channel a reply selects. */
  lemma ResolveMethodIgnoresPaddingAndCase(raw: string, contact: string)
    ensures ResolveMethod(NormalizeReply(raw), contact) == ResolveMethod(raw, contact)
  {
    NormalizeIdempotent(raw);
  }

  /** A reply selects the phone exactly when it is one of the phone words; the fallback never does. */
  lemma ResolveMethodPhoneExactly(raw: string, contact: string)
    ensures ResolveMethod(raw, contact) == "phone" <==> NormalizeReply(raw) in PhoneReplies
    ensures ResolveMethod(raw, contact) == "sms" <==>
              (NormalizeReply(raw) in SmsReplies || (!Recognised(raw) && '@' !in contact))
    ensures ResolveMethod(raw, contact) == "email" <==>
              (NormalizeReply(raw) in EmailReplies || (!Recognised(raw) && '@' in contact))
  {
    ReplyListsDisjoint(NormalizeReply(raw));
  }

  /** A reply with no padding is compared in lower case only. */
  lemma NormalizeUnpadded(raw: string)
    requires raw != [] && !IsSpace(raw[0]) && !IsSpace(raw[|raw| - 1])
    ensures NormalizeReply(raw) == Lower(raw)
  {
    TrimUnpadded(raw);
  }

  /** A one-character reply that is neither whitespace nor upper case is compared as it is. */
  lemma SingleCharReply(c: char)
    requires !IsSpace(c) && LowerChar(c) == c
    ensures NormalizeReply([c]) == [c]
  {
    NormalizeUnpadded([c]);
  }

  /** The reply code the introduction as written offers for a call ("A3") does not select a call. */
  lemma AsWrittenPhoneCodeMisrouted(contact: string)
    ensures ResolveMethod(PhoneCodeAsWritten, contact) == (if '@' in contact then "email" else "sms")
    ensures ResolveMethod(PhoneCodeAsWritten, contact) != "phone"
  {
    NormalizeUnpadded(PhoneCodeAsWritten);
    assert NormalizeReply(PhoneCodeAsWritten) == "a3";
  }

  /**
   * Every introduction that outreach delivers ends by offering "A3" for a
   * phone call, and a participant who replies with that code is not called:
   * the reply falls back on the format of their contact.
   */
  lemma IntroductionOffersMisroutedCode(cfg: Config, participantName: string, participantContact: string,
                                        organizerName: string, eventName: string)
    ensures var d := InitiateContact(cfg, participantName, participantContact, organizerName, eventName);
            d.Some? ==> EndsWith(d.value.body, PhoneOffer(PhoneCodeAsWritten))
    ensures ResolveMethod(PhoneCodeAsWritten, participantContact) == (if '@' in participantContact then "email" else "sms")
  {
    InitiateContactRouting(cfg, participantName, participantContact, organizerName, eventName);
    AsWrittenPhoneCodeMisrouted(participantContact);
  }

  /** With the corrected introduction every offered code selects the channel it is offered for. */
  lemma AdvertisedCodesSelectTheirChannels(contact: string)
    ensures ResolveMethod("1", contact) == "sms"
    ensures ResolveMethod("2", contact) == "email"
    ensures ResolveMethod(PhoneCode, contact) == "phone"
  {
    SingleCharReply('1');
    SingleCharReply('2');
    SingleCharReply('3');
    assert SmsReplies[0] == "1" && EmailReplies[0] == "2" && PhoneReplies[0] == PhoneCode;
  }

  /** The outcome of answering a run of questions one after another. */
  datatype Transcript = Transcript(final: Participant, sent: seq<string>)

  function AnswerAll(p: Participant, answers: seq<Response>): Transcript
    decreases |answers|
  {
    if answers == [] then Transcript(p, [])
    else
      var s := OnAnswer(p, answers[0].questionId, answers[0].text);
      var rest := AnswerAll(s.next, answers[1..]);
      Transcript(rest.final, [s.message] + rest.sent)
  }

  /** Answers are only ever appended: earlier responses are never edited or removed. */
  lemma {:induction false} AnswerAllAppendsResponses(p: Participant, answers: seq<Response>)
    ensures AnswerAll(p, answers).final.responses == p.responses + answers
    ensures |AnswerAll(p, answers).sent| == |answers|
    decreases |answers|
  {
    if answers != [] {
      var s := OnAnswer(p, answers[0].questionId, answers[0].text);
      AnswerAllAppendsResponses(s.next, answers[1..]);
      assert [answers[0]] + answers[1..] == answers;
    }
  }

  /** Answering `xs` then `ys` is answering `xs + ys`. */
  lemma {:induction false} AnswerAllSplit(p: Participant, xs: seq<Response>, ys: seq<Response>)
    ensures var a := AnswerAll(p, xs); var b := AnswerAll(a.final, ys);
            AnswerAll(p, xs + ys) == Transcript(b.final, a.sent + b.sent)
    decreases |xs|
  {
    if xs != [] {
      var s := OnAnswer(p, xs[0].questionId, xs[0].text);
      assert (xs + ys)[0] == xs[0];
      assert (xs + ys)[1..] == xs[1..] + ys;
      AnswerAllSplit(s.next, xs[1..], ys);
    } else {
      assert xs + ys == ys;
    }
  }

  /** One answer below the threshold: it is stored and the next base question is asked and stored. */
  lemma AnswerBelow(p: Participant, a: Response)
    requires |p.responses| + 1 < ContinuationThreshold
    ensures var q := BaseQuestions[|p.responses| + 1];
            OnAnswer(p, a.questionId, a.text) == Step(p.(responses := p.responses + [a], questions := p.questions + [q]), q)
  {
  }

  /** The first answer of a run is handled first, then the rest from where it left off. */
  lemma AnswerAllCons(p: Participant, answers: seq<Response>)
    requires answers != []
    ensures var s := OnAnswer(p, answers[0].questionId, answers[0].text);
            var rest := AnswerAll(s.next, answers[1..]);
            AnswerAll(p, answers) == Transcript(rest.final, [s.message] + rest.sent)
  {
  }

  /** Below the threshold the questions sent are the next base questions, in list order. */
  lemma {:induction false} AnswersBelowSent(p: Participant, answers: seq<Response>)
    requires |p.responses| + |answers| < ContinuationThreshold
    ensures AnswerAll(p, answers).sent == BaseQuestions[|p.responses| + 1..|p.responses| + |answers| + 1]
    decreases |answers|
  {
    if answers != [] {
      var r := |p.responses|;
      var q := BaseQuestions[r + 1];
      AnswerBelow(p, answers[0]);
      AnswerAllCons(p, answers);
      AnswersBelowSent(p.(responses := p.responses + [answers[0]], questions := p.questions + [q]), answers[1..]);
      ConsSlice(BaseQuestions, r + 1, r + |answers| + 1);
    }
  }

  /** Below the threshold only the responses and the asked questions change. */
  lemma {:induction false} AnswersBelowFinal(p: Participant, answers: seq<Response>)
    requires |p.responses| + |answers| < ContinuationThreshold
    ensures var t := AnswerAll(p, answers);
            t.final == p.(responses := p.responses + answers, questions := p.questions + t.sent)
    decreases |answers|
  {
    if answers != [] {
      var a, rest := answers[0], answers[1..];
      var q := BaseQuestions[|p.responses| + 1];
      var next := p.(responses := p.responses + [a], questions := p.questions + [q]);
      AnswerBelow(p, a);
      AnswerAllCons(p, answers);
      AnswersBelowFinal(next, rest);
      var t := AnswerAll(next, rest);
      ConcatAssoc(p.responses, [a], rest);
      assert [a] + rest == answers;
      ConcatAssoc(p.questions, [q], t.sent);
    }
  }

  /**
   * Below the threshold each answer is followed by the next base question, in
   * list order, and nothing but the responses and the asked questions changes.
   */
  lemma AnswersBelowThreshold(p: Participant, answers: seq<Response>)
    requires |p.responses| + |answers| < ContinuationThreshold
    ensures var t := AnswerAll(p, answers);
            && t.final.responses == p.responses + answers
            && t.sent == BaseQuestions[|p.responses| + 1..|p.responses| + |answers| + 1]
            && t.final == p.(responses := t.final.responses, questions := p.questions + t.sent)
  {
    AnswersBelowSent(p, answers);
    AnswersBelowFinal(p, answers);
  }

  /**
   * A newly added participant who names a channel and gives five answers is
   * left awaiting the continuation decision, having been asked the first five
   * base questions.
   */
  lemma FiveAnswersReachThePrompt(p: Participant, methodReply: string, answers: seq<Response>)
    requires p.questions == [] && p.responses == [] && !p.awaitingContinuation
    requires |answers| == ContinuationThreshold
    ensures var t := AnswerAll(OnMethodReply(p, methodReply).next, answers);
            && t.final.awaitingContinuation && t.final.questions == BaseQuestions[..5]
            && t.final.responses == answers && t.final.complete == p.complete
  {
    var s := OnMethodReply(p, methodReply);
    assert s.next.questions == [BaseQuestions[0]];
    FiveAnswersAfterTheFirstQuestion(s.next, answers);
  }

  /**
   * The messages that participant receives: the first five base questions,
   * in order, then the continuation prompt.
   */
  lemma FiveAnswersMessages(p: Participant, methodReply: string, answers: seq<Response>)
    requires p.questions == [] && p.responses == [] && !p.awaitingContinuation
    requires |answers| == ContinuationThreshold
    ensures var s := OnMethodReply(p, methodReply);
            [s.message] + AnswerAll(s.next, answers).sent == BaseQuestions[..5] + [ContinuationPrompt]
  {
    var s := OnMethodReply(p, methodReply);
    assert s.message == BaseQuestions[0] && s.next.questions == [BaseQuestions[0]];
    FiveAnswersAfterTheFirstQuestion(s.next, answers);
  }

  /** Five answers after the first question has gone out: four more questions, then the prompt. */
  lemma FiveAnswersAfterTheFirstQuestion(q: Participant, answers: seq<Response>)
    requires q.questions == [BaseQuestions[0]] && q.responses == [] && !q.awaitingContinuation
    requires |answers| == ContinuationThreshold
    ensures var t := AnswerAll(q, answers);
            && t.final == q.(responses := answers, questions := BaseQuestions[..5], awaitingContinuation := true)
            && [BaseQuestions[0]] + t.sent == BaseQuestions[..5] + [ContinuationPrompt]
  {
    var a := FirstFourAnswers(q, answers);
    FifthAnswerPrompts(a.final, answers[4..]);
    assert answers[..4] + answers[4..] == answers;
    HeadAndSlice(BaseQuestions, 5, [ContinuationPrompt]);
  }

  /** The first four of five answers, and how the whole run splits at them. */
  lemma FirstFourAnswers(q: Participant, answers: seq<Response>) returns (a: Transcript)
    requires q.questions == [BaseQuestions[0]] && q.responses == [] && !q.awaitingContinuation
    requires |answers| == ContinuationThreshold
    ensures a == AnswerAll(q, answers[..4])
    ensures a.sent == BaseQuestions[1..5] && a.final.questions == [BaseQuestions[0]] + BaseQuestions[1..5]
    ensures a.final == q.(responses := answers[..4], questions := a.final.questions)
    ensures AnswerAll(q, answers) == Transcript(AnswerAll(a.final, answers[4..]).final, a.sent + AnswerAll(a.final, answers[4..]).sent)
  {
    var first, last := answers[..4], answers[4..];
    assert answers == first + last;
    AnswersBelowThreshold(q, first);
    AnswerAllSplit(q, first, last);
    a := AnswerAll(q, first);
  }

  /** Declining at the prompt completes the participant with a thank-you and asks nothing more. */
  lemma FiveAnswersThenDecline(p: Participant, methodReply: string, answers: seq<Response>, reply: string)
    requires p.questions == [] && p.responses == [] && !p.awaitingContinuation && !p.complete
    requires |answers| == ContinuationThreshold
    requires NormalizeReply(reply) !in AffirmativeReplies
    ensures var t := AnswerAll(OnMethodReply(p, methodReply).next, answers);
            var d := OnContinuation(t.final, reply);
            && d.message == ThankYouMessage && d.next.complete && !d.next.awaitingContinuation
            && d.next.questions == BaseQuestions[..5] && d.next.responses == answers
  {
    FiveAnswersReachThePrompt(p, methodReply, answers);
  }

  /** The answer that brings the stored responses to five is followed by the prompt, and by nothing else. */
  lemma FifthAnswerPrompts(q: Participant, last: seq<Response>)
    requires |q.responses| == ContinuationThreshold - 1 && |last| == 1
    ensures AnswerAll(q, last) == Transcript(q.(responses := q.responses + last, awaitingContinuation := true), [ContinuationPrompt])
  {
    assert last[1..] == [];
    assert [last[0]] == last;
  }

  /**
   * Because the check is "five or more", agreeing to continue buys exactly
   * one more question: the next answer brings the prompt back.
   */
  lemma ContinuingAsksOneQuestion(p: Participant, yes: string, questionId: string, text: string)
    requires |p.responses| >= ContinuationThreshold
    requires NormalizeReply(yes) in AffirmativeReplies
    ensures var c := OnContinuation(p, yes);
            var a := OnAnswer(c.next, questionId, text);
            && c.message == NextQuestion(p.responses)
            && a.message == ContinuationPrompt && a.next.awaitingContinuation
            && a.next.questions == p.questions + [c.message]
  {
  }
}
