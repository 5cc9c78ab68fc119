/** The timed state machine of one enrollment (internal/workflow/engine.go). */
module Engine {
  import opened Wrappers
  import opened Strings
  import opened SendWindow
  import opened Catalog
  import opened Template
  import opened Numbers
  import opened Sentiments

  /** Failed is only ever written by the store, never by the engine. */
  datatype State = Pending | AwaitingReply | Completed | Suppressed | Failed

  /** What loading a contact's time zone yields; an unset zone leaves the clock's own, UTC. */
  datatype Zone = Unset | Fixed(offset: int) | Unloadable

  datatype Contact = Contact(
    id: string,
    phone: string,
    zone: Zone,
    consentAt: Option<Instant>,
    consentSource: string,
    variables: map<string, string>)

  datatype Enrollment = Enrollment(
    key: string,
    contact: Contact,
    state: State,
    nextRun: Option<Instant>,
    variant: int,
    sentCount: int)

  datatype Command =
    | SendSms(body: string, rate: Rate)
    | SuppressContact
    | ArchiveConversation
    | CrmAction(action: string)
    | CreateTask(body: string)

  datatype StartError = Disabled | InvalidDefinition | NoContactId | NoPhone | NoConsent

  datatype EngineError =
    NoEnrollment | WrongDefinition | BadZone | BadVariant(variant: int) | BadTemplate(error: RenderError)

  // ----- Start -----

  /** deterministicVariant, given the FNV hash of the definition key and the contact id. */
  function Variant(d: Definition, hash: nat): int {
    if |d.messages| <= 1 then 0 else hash % |d.messages|
  }

  function Start(d: Definition, contact: Contact, now: Instant, hash: nat): Result<Enrollment, StartError> {
    if !d.enabled then Err(Disabled)
    else if !d.Valid() then Err(InvalidDefinition)
    else if contact.id == "" then Err(NoContactId)
    else if d.messages != [] && contact.phone == "" then Err(NoPhone)
    else if d.messages != [] && (contact.consentAt.None? || TrimSpace(contact.consentSource) == "") then Err(NoConsent)
    else
      var next := if d.initialDelay > 0 then now + d.initialDelay else now;
      Ok(Enrollment(d.key, contact, Pending, Some(next), Variant(d, hash), 0))
  }

  /** Who can be enrolled: nobody for messages without a phone and documented consent, with a source that is not blank.
      The first message is due after the initial delay. */
  lemma StartExactly(d: Definition, contact: Contact, now: Instant, hash: nat)
    ensures Start(d, contact, now, hash).Ok? <==>
      && d.enabled && d.Valid() && contact.id != ""
      && (d.messages != [] ==>
            && contact.phone != "" && contact.consentAt.Some?
            && exists i :: 0 <= i < |contact.consentSource| && !IsSpace(contact.consentSource[i]))
    ensures Start(d, contact, now, hash).Ok? ==>
      var e := Start(d, contact, now, hash).value;
      && e.key == d.key && e.contact == contact && e.state == Pending && e.sentCount == 0
      && e.nextRun == Some(if d.initialDelay > 0 then now + d.initialDelay else now)
      && e.variant == if d.messages == [] then 0 else hash % |d.messages|
  {
    BlankExactly(contact.consentSource);
  }

  // ----- Advance -----

  datatype Progress = Progress(enrollment: Enrollment, result: Result<seq<Command>, EngineError>)

  predicate Stopped(e: Enrollment) { e.state == Completed || e.state == Suppressed }

  function Finished(e: Enrollment): Enrollment { e.(state := Completed, nextRun := None) }

  function Offset(zone: Zone): int { if zone.Fixed? then zone.offset else 0 }

  function EffectiveRate(rate: Rate): Rate {
    if rate.batchSize <= 0 || rate.per <= 0 then Rate(1, SECOND) else rate
  }

  /** Advance, with `bs` the order in which Render visits the contact's variables. */
  function Advanced(d: Definition, e: Enrollment, now: Instant, bs: Bindings): Progress {
    if e.key != d.key then Progress(e, Err(WrongDefinition))
    else if Stopped(e) || e.nextRun.None? || now < e.nextRun.value then Progress(e, Ok([]))
    else if d.kind == ManualFollowUp then
      Progress(Finished(e), Ok([CreateTask(d.taskBody), CrmAction(d.crmAction)]))
    else if e.sentCount >= d.maxOccurrences then Progress(Finished(e), Ok([]))
    else if e.contact.zone.Unloadable? then Progress(e, Err(BadZone))
    else
      var slot := NextAllowed(d.window, now, Offset(e.contact.zone));
      if !slot.allowed then Progress(e.(nextRun := Some(slot.at)), Ok([]))
      else if !(0 <= e.variant < |d.messages|) then Progress(e, Err(BadVariant(e.variant)))
      else match RenderIn(d.messages[e.variant], bs)
        case Err(x) => Progress(e, Err(BadTemplate(x)))
        case Ok(body) =>
          Progress(
            e.(sentCount := e.sentCount + 1,
               state := AwaitingReply,
               nextRun := if d.repeatEvery > 0 then Some(now + d.repeatEvery) else None),
            Ok([SendSms(body, EffectiveRate(d.rate))]))
  }

  // ----- Reply -----

  datatype Reaction = Reaction(enrollment: Enrollment, commands: seq<Command>)

  function Replied(d: Definition, e: Enrollment, text: string): Reaction {
    if Stopped(e) then Reaction(e, [])
    else if IsOptOut(text) then
      Reaction(e.(nextRun := None, state := Suppressed), [SuppressContact])
    else if d.archiveNegative && ClassifyReply(text) == Negative then
      Reaction(Finished(e), [CrmAction("not_interested"), ArchiveConversation])
    else
      Reaction(Finished(e), if d.crmAction != "" then [CrmAction(d.crmAction)] else [])
  }

  /** STOP and its like, by the words of the text. */
  predicate SaysStop(text: string) { Fields(ToUpper(text)) in OPT_OUTS }

  /** What a reply does to an enrollment, by the words of the text: anything ends it. A stop suppresses the contact, a
      refusal is archived where the definition asks for that, and all else gets the definition's own action. */
  ghost predicate ReplyEnds(d: Definition, was: Enrollment, text: string, now: Enrollment, commands: seq<Command>) {
    if was.state == Completed || was.state == Suppressed then now == was && commands == []
    else
      && now == was.(nextRun := None, state := if SaysStop(text) then Suppressed else Completed)
      && commands ==
          if SaysStop(text) then [SuppressContact]
          else if d.archiveNegative && SaysNo(text) then [CrmAction("not_interested"), ArchiveConversation]
          else if d.crmAction == "" then []
          else [CrmAction(d.crmAction)]
  }

  lemma ReplyIsByWords(d: Definition, e: Enrollment, text: string)
    ensures ReplyEnds(d, e, text, Replied(d, e, text).enrollment, Replied(d, e, text).commands)
  {
    OptOutIsByWords(text);
    SentimentIsByWords(text);
  }

  // ----- The engine as it runs: an enrollment changed in place -----

  class LiveEnrollment {
    const key: string
    const contact: Contact
    var state: State
    var nextRun: Option<Instant>
    var variant: int
    var sentCount: int

    function Value(): Enrollment
      reads this
    {
      Enrollment(key, contact, state, nextRun, variant, sentCount)
    }

    constructor (e: Enrollment)
      ensures Value() == e
    {
      key, contact, state, nextRun := e.key, e.contact, e.state, e.nextRun;
      variant, sentCount := e.variant, e.sentCount;
    }
  }

  method Advance(d: Definition, enrollment: LiveEnrollment?, now: Instant)
    returns (r: Result<seq<Command>, EngineError>)
    modifies enrollment
    ensures enrollment == null ==> r == Err(NoEnrollment)
    ensures enrollment != null ==> exists bs ::
      && Ranges(bs, enrollment.contact.variables)
      && Progress(enrollment.Value(), r) == Advanced(d, old(enrollment.Value()), now, bs)
  {
    if enrollment == null {
      return Err(NoEnrollment);
    }
    ghost var bs := SomeOrder(enrollment.contact.variables);
    if enrollment.key != d.key {
      return Err(WrongDefinition);
    }
    if enrollment.state == Completed || enrollment.state == Suppressed ||
       enrollment.nextRun == None || now < enrollment.nextRun.value {
      return Ok([]);
    }
    if d.kind == ManualFollowUp {
      enrollment.state := Completed;
      enrollment.nextRun := None;
      return Ok([CreateTask(d.taskBody), CrmAction(d.crmAction)]);
    }
    if enrollment.sentCount >= d.maxOccurrences {
      enrollment.state := Completed;
      enrollment.nextRun := None;
      return Ok([]);
    }
    if enrollment.contact.zone.Unloadable? {
      return Err(BadZone);
    }
    var slot := NextAllowed(d.window, now, Offset(enrollment.contact.zone));
    if !slot.allowed {
      enrollment.nextRun := Some(slot.at);
      return Ok([]);
    }
    if enrollment.variant < 0 || enrollment.variant >= |d.messages| {
      return Err(BadVariant(enrollment.variant));
    }
    var body := Render(d.messages[enrollment.variant], enrollment.contact.variables);
    bs :| Ranges(bs, enrollment.contact.variables) && body == RenderIn(d.messages[enrollment.variant], bs);
    if body.Err? {
      return Err(BadTemplate(body.error));
    }
    enrollment.sentCount := enrollment.sentCount + 1;
    enrollment.state := AwaitingReply;
    enrollment.nextRun := if d.repeatEvery > 0 then Some(now + d.repeatEvery) else None;
    var rate := if d.rate.batchSize <= 0 || d.rate.per <= 0 then Rate(1, SECOND) else d.rate;
    r := Ok([SendSms(body.value, rate)]);
  }

  method Reply(d: Definition, enrollment: LiveEnrollment?, text: string) returns (commands: seq<Command>)
    modifies enrollment
    ensures enrollment == null ==> commands == []
    ensures enrollment != null ==>
      Reaction(enrollment.Value(), commands) == Replied(d, old(enrollment.Value()), text)
    ensures enrollment != null ==> ReplyEnds(d, old(enrollment.Value()), text, enrollment.Value(), commands)
  {
    if enrollment != null {
      ReplyIsByWords(d, enrollment.Value(), text);
    }
    if enrollment == null || enrollment.state == Completed || enrollment.state == Suppressed {
      return [];
    }
    enrollment.nextRun := None;
    if IsOptOut(text) {
      enrollment.state := Suppressed;
      return [SuppressContact];
    }
    if d.archiveNegative && ClassifyReply(text) == Negative {
      enrollment.state := Completed;
      return [CrmAction("not_interested"), ArchiveConversation];
    }
    enrollment.state := Completed;
    commands := if d.crmAction != "" then [CrmAction(d.crmAction)] else [];
  }

  // ----- What one call does -----

  predicate IsSend(r: Result<seq<Command>, EngineError>) {
    r.Ok? && |r.value| == 1 && r.value[0].SendSms?
  }

  /** The message is the chosen variant rendered, at the definition's rate, or one a second if that is not positive. */
  predicate SendsText(d: Definition, e: Enrollment, bs: Bindings, c: Command) {
    && c.SendSms? && 0 <= e.variant < |d.messages|
    && RenderIn(d.messages[e.variant], bs) == Ok(c.body)
    && c.rate.batchSize == (if d.rate.batchSize > 0 && d.rate.per > 0 then d.rate.batchSize else 1)
    && c.rate.per == (if d.rate.batchSize > 0 && d.rate.per > 0 then d.rate.per else SECOND)
  }

  /** Everything later proofs need about one Advance. */
  lemma AdvanceEffect(d: Definition, e: Enrollment, now: Instant, bs: Bindings)
    requires d.Valid()
    ensures var o := Advanced(d, e, now, bs);
      && o.enrollment.key == e.key && o.enrollment.contact == e.contact && o.enrollment.variant == e.variant
      && (o.result.Err? ==> o.enrollment == e)
      && (o.result.Ok? && !IsSend(o.result) && o.result.value != [] ==>
          o.enrollment == Finished(e) && o.result.value == [CreateTask(d.taskBody), CrmAction(d.crmAction)])
      && (IsSend(o.result) ==> SendsText(d, e, bs, o.result.value[0]) && OnDuty(d.window, now, e.contact.zone))
      && (IsSend(o.result) ==>
          && !Stopped(e) && e.sentCount < d.maxOccurrences && d.kind != ManualFollowUp
          && e.nextRun.Some? && e.nextRun.value <= now && Open(d.window, now, Offset(e.contact.zone))
          && 0 <= e.variant < |d.messages|
          && o.enrollment.sentCount == e.sentCount + 1 && o.enrollment.state == AwaitingReply
          && o.enrollment.nextRun == if d.repeatEvery > 0 then Some(now + d.repeatEvery) else None)
      && (!IsSend(o.result) ==>
          && o.enrollment.sentCount == e.sentCount
          && (o.enrollment == e || o.enrollment == Finished(e) ||
              (e.nextRun.Some? && o.enrollment.state == e.state && o.enrollment.nextRun.Some? &&
               e.nextRun.value <= o.enrollment.nextRun.value)))
  {
    if d.messages != [] {
      NextAllowedIsEarliest(d.window, now, Offset(e.contact.zone));
    }
  }

  // ----- Every outcome of one call, and when it comes about -----

  /** Minutes since midnight by the contact's own clock. */
  function ClockMinute(t: Instant, zone: Zone): int {
    match zone
    case Fixed(offset) => (t + offset) % DAY / MINUTE
    case _ => t % DAY / MINUTE
  }

  predicate OnDuty(w: Window, t: Instant, zone: Zone) { w.start <= ClockMinute(t, zone) < w.end }

  /** The enrollment has something to do at this instant. */
  predicate IsDue(d: Definition, e: Enrollment, now: Instant) {
    e.key == d.key && e.state != Completed && e.state != Suppressed && e.nextRun.Some? && e.nextRun.value <= now
  }

  predicate MayMessage(d: Definition, e: Enrollment, now: Instant) {
    IsDue(d, e, now) && d.kind != ManualFollowUp && e.sentCount < d.maxOccurrences
  }

  /** What ends an enrollment without a message. */
  lemma AdvanceEnds(d: Definition, e: Enrollment, now: Instant, bs: Bindings)
    ensures var o := Advanced(d, e, now, bs);
      && (o.result == Err(WrongDefinition) <==> e.key != d.key)
      && (!IsDue(d, e, now) ==> o.enrollment == e && (e.key == d.key ==> o.result == Ok([])))
      && (IsDue(d, e, now) && d.kind == ManualFollowUp ==>
            && o.enrollment == e.(state := Completed, nextRun := None)
            && o.result == Ok([CreateTask(d.taskBody), CrmAction(d.crmAction)]))
      && (IsDue(d, e, now) && d.kind != ManualFollowUp && e.sentCount >= d.maxOccurrences ==>
            o.enrollment == e.(state := Completed, nextRun := None) && o.result == Ok([]))
  {}

  /** A due message: refused for its zone, put off to the first minute its contact is on duty, refused for its variant
      or its template, or sent. */
  lemma AdvanceMessages(d: Definition, e: Enrollment, now: Instant, bs: Bindings)
    requires d.Valid() && MayMessage(d, e, now)
    ensures var o, zone := Advanced(d, e, now, bs), e.contact.zone;
      && (o.result == Err(BadZone) <==> zone.Unloadable?)
      && (o.result.Err? ==> o.enrollment == e)
      && (!zone.Unloadable? && !OnDuty(d.window, now, zone) ==>
            && o.result == Ok([]) && o.enrollment == e.(nextRun := o.enrollment.nextRun) && o.enrollment.nextRun.Some?
            && var at := o.enrollment.nextRun.value;
            now < at && OnDuty(d.window, at, zone) && forall t :: now <= t < at ==> !OnDuty(d.window, t, zone))
      && (!zone.Unloadable? && OnDuty(d.window, now, zone) ==>
            if !(0 <= e.variant < |d.messages|) then o.result == Err(BadVariant(e.variant))
            else match RenderIn(d.messages[e.variant], bs)
              case Err(x) => o.result == Err(BadTemplate(x))
              case Ok(_) =>
                && IsSend(o.result) && SendsText(d, e, bs, o.result.value[0])
                && o.enrollment == e.(sentCount := e.sentCount + 1, state := AwaitingReply,
                     nextRun := if d.repeatEvery > 0 then Some(now + d.repeatEvery) else None))
  {
    NextAllowedIsEarliest(d.window, now, Offset(e.contact.zone));
    forall t ensures OnDuty(d.window, t, e.contact.zone) <==> Open(d.window, t, Offset(e.contact.zone)) {}
  }

}
