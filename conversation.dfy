/**
 * The per-phone-number conversation state machine: `handleUserMessage` and the
 * four handlers it dispatches to.  A handler takes the session and the
 * normalised text and yields the updated session, the replies it sends (tags
 * of the canned messages, with the name or rating put into them) and the
 * delayed notices it schedules.
 */
module Conversation {
  import opened Wrappers
  import opened Text
  import opened Keywords

  /** The enumerated `session.step`. */
  datatype Step =
    | Initial
    | AwaitingReminderChoice
    | ReminderSet
    | NoReminder
    | OnBus
    | OnFerry
    | AtMetro
    | RideshareBooked
    | Rerouting
    | Completed

  /** An abstract timestamp standing for a `Date`. */
  type Stamp = nat

  datatype Session = Session(
    step: Step,
    name: string,
    reminderActive: bool,
    createdAt: Stamp,
    completedAt: Option<Stamp>)

  /** Which canned message was sent; the fields are what gets substituted into it. */
  datatype Reply =
    | TripPlanning(name: string)
    | Welcome
    | ReminderConfirmation(name: string)
    | NoReminderInfo(name: string)
    | BusRideAck(name: string)
    | FerryWelcome(name: string)
    | MetroDirections(name: string)
    | RideshareQuote(name: string)
    | RideshareConfirmed
    | JourneyAck
    | ReroutePrompt
    | FeedbackPrompt(name: string)
    | NextTripPrompt(name: string)
    | RatingThanks(rating: string, name: string)
    | RidingThanks(name: string)
    | SupportInfo
    | Fallback
    | BusArrivalNotice(name: string)
    | FerryTransferNotice(name: string)
    | MetroConnectionNotice(name: string)
    | JourneyCompleteNotice(name: string)

  /** The four delayed notices a handler can schedule with `setTimeout`. */
  datatype Notice = BusArrival | FerryTransfer | MetroConnection | JourneyCompletion

  /** A scheduled notice: what fires, for which name, after how many milliseconds. */
  datatype Timer = Timer(notice: Notice, name: string, delay: nat)

  datatype Outcome = Outcome(session: Session, replies: seq<Reply>, timers: seq<Timer>)

  const BusArrivalDelay: nat := 5000
  const FerryTransferDelay: nat := 10000
  const MetroConnectionDelay: nat := 15000
  const JourneyCompletionDelay: nat := 10000

  /** The steps whose messages `handleJourneyUpdates` interprets. */
  predicate IsJourneyStep(step: Step) {
    step.ReminderSet? || step.NoReminder? || step.OnBus? || step.OnFerry? || step.AtMetro?
  }

  /** Two versions of one session that differ at most in their step and reminder flag. */
  predicate SameTraveller(before: Session, after: Session) {
    && after.name == before.name
    && after.createdAt == before.createdAt
    && after.completedAt == before.completedAt
  }

  /**
   * What the session store keeps true of every session: the reminder step is
   * only reached with the reminder switched on, and a completed journey has
   * its completion stamp.
   */
  predicate Coherent(s: Session) {
    && (s.step == ReminderSet ==> s.reminderActive)
    && (s.step == Completed ==> s.completedAt.Some?)
  }

  /** The steps a journey command can move to. */
  predicate IsJourneyTarget(step: Step) {
    step.OnBus? || step.OnFerry? || step.AtMetro? || step.RideshareBooked? || step.Rerouting?
  }

  /** The steps whose entry schedules a delayed notice. */
  predicate HasEntryTimer(step: Step) {
    step.ReminderSet? || step.OnBus? || step.OnFerry? || step.AtMetro? || step.RideshareBooked?
  }

  // The commands, as the normalised text spells them.
  predicate IsYes(m: string) { m == "REMIND_YES" || m == "YES" }
  predicate IsNo(m: string) { m == "REMIND_NO" || m == "NO" }
  predicate IsReminderAnswer(m: string) { IsYes(m) || IsNo(m) }
  predicate IsArrived(m: string) { m == "ARRIVED_BUS" || m == "ARRIVED" }
  predicate IsFerry(m: string) { m == "AT_FERRY" || m == "FERRY" }
  predicate IsMetro(m: string) { m == "METRO_INFO" || m == "METRO" }
  predicate IsReroute(m: string) { m == "REROUTE" || m == "CHANGED_PLANS" }
  predicate IsNextTrip(m: string) { m == "NEXT_TRIP" || m == "NEXT" }

  /** The journey commands that schedule a delayed notice. */
  predicate SchedulesNotice(m: string) {
    IsArrived(m) || IsFerry(m) || IsMetro(m) || m == "BOOK"
  }

  /** The notice scheduled together with a move into `step`, if any. */
  function EntryTimer(step: Step, name: string): (t: Option<Timer>)
    ensures t.Some? <==> HasEntryTimer(step)
    ensures t.Some? ==> t.value.name == name
  {
    match step
    case ReminderSet => Some(Timer(BusArrival, name, BusArrivalDelay))
    case OnBus => Some(Timer(FerryTransfer, name, FerryTransferDelay))
    case OnFerry => Some(Timer(MetroConnection, name, MetroConnectionDelay))
    case AtMetro => Some(Timer(JourneyCompletion, name, JourneyCompletionDelay))
    case RideshareBooked => Some(Timer(JourneyCompletion, name, JourneyCompletionDelay))
    case _ => None
  }

  /** The transitions an inbound message may cause, written as a table independent of the handlers. */
  predicate UserEdge(from: Step, to: Step) {
    match from
    case Initial => to == Initial || to == AwaitingReminderChoice
    case AwaitingReminderChoice => to == AwaitingReminderChoice || to == ReminderSet || to == NoReminder
    case ReminderSet | NoReminder | OnBus | OnFerry | AtMetro => to == from || IsJourneyTarget(to)
    case Completed => to == Completed || to == Initial
    case RideshareBooked | Rerouting => to == from
  }

  /** The one message left without a reply: an unrecognised answer to the reminder question. */
  predicate Ignored(session: Session, body: string) {
    session.step == AwaitingReminderChoice && !IsReminderAnswer(Normalise(body))
  }

  /** `handleUserMessage`: upper-case and trim the text, then dispatch on the step. */
  function HandleUserMessage(session: Session, body: string): (o: Outcome)
    ensures UserEdge(session.step, o.session.step)
    ensures SameTraveller(session, o.session)
    ensures o.session.step == Completed ==> session.step == Completed
    ensures o.replies == [] <==> Ignored(session, body)
    ensures Coherent(session) ==> Coherent(o.session)
    ensures |o.replies| <= 1 && |o.timers| <= 1
    ensures forall t :: t in o.timers ==> t.name == session.name
  {
    Transition(session, Normalise(body))
  }

  /**
   * The `switch (session.step)` of `handleUserMessage`, on the normalised text:
   * what one inbound message does to the session, which replies it sends and
   * which notices it schedules.
   */
  function Transition(session: Session, message: string): (o: Outcome)
    ensures UserEdge(session.step, o.session.step)
    ensures o.session.name == session.name
    ensures o.session.createdAt == session.createdAt
    ensures o.session.completedAt == session.completedAt
    ensures session.reminderActive ==> o.session.reminderActive
    ensures o.session.reminderActive && !session.reminderActive
      ==> session.step == AwaitingReminderChoice && o.session.step == ReminderSet
    ensures session.step == AwaitingReminderChoice && o.session.step == ReminderSet ==> o.session.reminderActive
    ensures o.session.step == Completed ==> session.step == Completed
    ensures |o.replies| <= 1
    ensures o.replies == []
      <==> session.step == AwaitingReminderChoice && !IsReminderAnswer(message)
    ensures |o.timers| <= 1
    ensures forall t :: t in o.timers ==> EntryTimer(o.session.step, session.name) == Some(t)
    ensures o.session.step != session.step && HasEntryTimer(o.session.step)
      ==> o.timers != []
    ensures Coherent(session) ==> Coherent(o.session)
    ensures forall t :: t in o.timers ==> t.name == session.name
  {
    match session.step
    case Initial => HandleStart(session, message)
    case AwaitingReminderChoice => HandleReminderChoice(session, message)
    case ReminderSet | NoReminder | OnBus | OnFerry | AtMetro => HandleJourneyUpdates(session, message)
    case Completed => HandlePostJourneyMessage(session, message)
    case _ => HandleGeneralMessage(session, message)
  }

  /** The `initial` case of `handleUserMessage`: start planning once the text mentions a trip plan. */
  function HandleStart(session: Session, message: string): (o: Outcome)
    requires session.step == Initial
    ensures SameTraveller(session, o.session) && o.session.reminderActive == session.reminderActive
    ensures o.session.step == AwaitingReminderChoice
      <==> Contains(message, "PLAN") && Contains(message, "TRIP")
    ensures o.session.step == AwaitingReminderChoice || o.session.step == Initial
    ensures |o.replies| == 1 && o.timers == []
  {
    if Contains(message, "PLAN") && Contains(message, "TRIP") then
      Outcome(session.(step := AwaitingReminderChoice), [TripPlanning(session.name)], [])
    else
      Outcome(session, [Welcome], [])
  }

  /** The `awaiting_reminder_choice` case of `handleUserMessage`: yes or no to the bus reminder. */
  function HandleReminderChoice(session: Session, message: string): (o: Outcome)
    requires session.step == AwaitingReminderChoice
    ensures SameTraveller(session, o.session)
    ensures o.session.reminderActive == (session.reminderActive || IsYes(message))
    ensures o.session.step == ReminderSet <==> IsYes(message)
    ensures o.session.step == NoReminder <==> IsNo(message)
    ensures o.replies == [] <==> !IsReminderAnswer(message)
    ensures |o.replies| <= 1
    ensures o.timers == (if o.session.step == ReminderSet then [EntryTimer(ReminderSet, session.name).value] else [])
  {
    if message == "REMIND_YES" || message == "YES" then
      Outcome(
        session.(reminderActive := true, step := ReminderSet),
        [ReminderConfirmation(session.name)],
        [Timer(BusArrival, session.name, BusArrivalDelay)])
    else if message == "REMIND_NO" || message == "NO" then
      Outcome(session.(step := NoReminder), [NoReminderInfo(session.name)], [])
    else
      Outcome(session, [], [])
  }

  /** `handleJourneyUpdates`: exact matches on the normalised text during the journey. */
  function HandleJourneyUpdates(session: Session, message: string): (o: Outcome)
    requires IsJourneyStep(session.step)
    ensures SameTraveller(session, o.session) && o.session.reminderActive == session.reminderActive
    ensures |o.replies| == 1
    ensures o.session.step == session.step
      || IsJourneyTarget(o.session.step)
    ensures |o.timers| <= 1
    ensures forall t :: t in o.timers ==> EntryTimer(o.session.step, session.name) == Some(t)
    ensures o.timers != [] <==> SchedulesNotice(message)
    ensures o.session.step != session.step && o.session.step != Rerouting ==> o.timers != []
  {
    match message
    case "ARRIVED_BUS" | "ARRIVED" =>
      Outcome(
        session.(step := OnBus), [BusRideAck(session.name)],
        [Timer(FerryTransfer, session.name, FerryTransferDelay)])
    case "AT_FERRY" | "FERRY" =>
      Outcome(
        session.(step := OnFerry), [FerryWelcome(session.name)],
        [Timer(MetroConnection, session.name, MetroConnectionDelay)])
    case "METRO_INFO" | "METRO" =>
      Outcome(
        session.(step := AtMetro), [MetroDirections(session.name)],
        [Timer(JourneyCompletion, session.name, JourneyCompletionDelay)])
    case "RIDESHARE" =>
      Outcome(session, [RideshareQuote(session.name)], [])
    case "BOOK" =>
      Outcome(
        session.(step := RideshareBooked), [RideshareConfirmed],
        [Timer(JourneyCompletion, session.name, JourneyCompletionDelay)])
    case "REROUTE" | "CHANGED_PLANS" =>
      HandleReroute(session)
    case _ =>
      Outcome(session, [JourneyAck], [])
  }

  /** `handleReroute`: prompt for a new destination and move to `rerouting`. */
  function HandleReroute(session: Session): (o: Outcome)
    ensures o.session.step == Rerouting && o.session == session.(step := Rerouting)
    ensures o.replies == [ReroutePrompt] && o.timers == []
  {
    Outcome(session.(step := Rerouting), [ReroutePrompt], [])
  }

  /** `handlePostJourneyMessage`: what a finished journey answers. */
  function HandlePostJourneyMessage(session: Session, message: string): (o: Outcome)
    requires session.step == Completed
    ensures SameTraveller(session, o.session) && o.session.reminderActive == session.reminderActive
    ensures o.session.step == (if IsNextTrip(message) then Initial else Completed)
    ensures |o.replies| == 1 && o.timers == []
    ensures o.replies[0].RatingThanks? <==> IsRating(message)
    ensures o.replies[0].RatingThanks? ==> o.replies[0].rating == message
  {
    match message
    case "FEEDBACK" =>
      Outcome(session, [FeedbackPrompt(session.name)], [])
    case "NEXT_TRIP" | "NEXT" =>
      Outcome(session.(step := Initial), [NextTripPrompt(session.name)], [])
    case _ =>
      if IsRating(message) then
        Outcome(session, [RatingThanks(message, session.name)], [])
      else
        Outcome(session, [RidingThanks(session.name)], [])
  }

  /** `handleGeneralMessage`: every step no other handler claims. */
  function HandleGeneralMessage(session: Session, message: string): (o: Outcome)
    ensures o.session == session && o.timers == []
    ensures o.replies == (if message == "SUPPORT" then [SupportInfo] else [Fallback])
  {
    if message == "SUPPORT" then Outcome(session, [SupportInfo], [])
    else Outcome(session, [Fallback], [])
  }

  /**
   * From `initial`: text that mentions PLAN and TRIP, in any letter case and
   * with any white space around it, sends the trip-planning message once and
   * waits for the reminder choice; any other text sends the welcome message
   * and stays.
   */
  lemma {:induction false} InitialTable(session: Session, body: string)
    requires session.step == Initial
    ensures var o := HandleUserMessage(session, body);
      if PlanTripRequested(body) then
        o == Outcome(session.(step := AwaitingReminderChoice), [TripPlanning(session.name)], [])
      else
        o == Outcome(session, [Welcome], [])
  {
    var message := Normalise(body);
    assert HandleUserMessage(session, body) == HandleStart(session, message);
    PlanTripSurvivesTrim(body);
  }

  /**
   * The remaining tables are stated on the normalised text `message` that
   * `HandleUserMessage` passes to `Transition`.
   *
   * From `awaiting_reminder_choice`: YES and REMIND_YES both switch the
   * reminder on, confirm and schedule the bus notice after 5000 ms; NO and
   * REMIND_NO both skip it with one reply and no notice; anything else sends
   * nothing and changes nothing.
   */
  lemma ReminderChoiceTable(session: Session, message: string)
    requires session.step == AwaitingReminderChoice
    ensures var o := Transition(session, message);
      && (IsYes(message) ==>
            o == Outcome(
              session.(step := ReminderSet, reminderActive := true),
              [ReminderConfirmation(session.name)],
              [Timer(BusArrival, session.name, 5000)]))
      && (IsNo(message) ==> o == Outcome(session.(step := NoReminder), [NoReminderInfo(session.name)], []))
      && (!IsReminderAnswer(message) ==> o == Outcome(session, [], []))
  {
  }

  /**
   * From `reminder_set`, `no_reminder`, `on_bus`, `on_ferry` and `at_metro`:
   * the journey commands, matched exactly on the normalised text, each with
   * one reply and the notice it schedules; RIDESHARE and every other text
   * reply once and leave the step as it was.
   */
  lemma JourneyTable(session: Session, message: string)
    requires IsJourneyStep(session.step)
    ensures var o := Transition(session, message);
      && (IsArrived(message) ==>
            o == Outcome(session.(step := OnBus), [BusRideAck(session.name)],
                         [Timer(FerryTransfer, session.name, 10000)]))
      && (IsFerry(message) ==>
            o == Outcome(session.(step := OnFerry), [FerryWelcome(session.name)],
                         [Timer(MetroConnection, session.name, 15000)]))
      && (IsMetro(message) ==>
            o == Outcome(session.(step := AtMetro), [MetroDirections(session.name)],
                         [Timer(JourneyCompletion, session.name, 10000)]))
      && (message == "BOOK" ==>
            o == Outcome(session.(step := RideshareBooked), [RideshareConfirmed],
                         [Timer(JourneyCompletion, session.name, 10000)]))
      && (IsReroute(message) ==> o == Outcome(session.(step := Rerouting), [ReroutePrompt], []))
      && (message == "RIDESHARE" ==> o == Outcome(session, [RideshareQuote(session.name)], []))
      && (!SchedulesNotice(message) && !IsReroute(message) && message != "RIDESHARE" ==> o == Outcome(session, [JourneyAck], []))
  {
  }

  /**
   * From `completed`: NEXT and NEXT_TRIP start over at `initial`; FEEDBACK, a
   * rating 1 to 5 (echoed back) and any other text each get one reply and
   * leave the journey completed.
   */
  lemma PostJourneyTable(session: Session, message: string)
    requires session.step == Completed
    ensures var o := Transition(session, message);
      && (IsNextTrip(message) ==> o == Outcome(session.(step := Initial), [NextTripPrompt(session.name)], []))
      && (message == "FEEDBACK" ==> o == Outcome(session, [FeedbackPrompt(session.name)], []))
      && (IsRating(message) ==> o == Outcome(session, [RatingThanks(message, session.name)], []))
      && (!IsNextTrip(message) && message != "FEEDBACK" && !IsRating(message) ==> o == Outcome(session, [RidingThanks(session.name)], []))
  {
  }

  /** `rerouting` and `rideshare_booked` fall to the general handler, which never moves the step. */
  lemma GeneralTable(session: Session, message: string)
    requires session.step == Rerouting || session.step == RideshareBooked
    ensures var o := Transition(session, message);
      && (message == "SUPPORT" ==> o == Outcome(session, [SupportInfo], []))
      && (message != "SUPPORT" ==> o == Outcome(session, [Fallback], []))
  {
  }
}
