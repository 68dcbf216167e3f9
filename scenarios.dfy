/**
 * Conversations traced through the store: a new sender asking for a trip
 * plan (among them "plan my trip to market"), the yes to the reminder
 * question, and the end of a journey from the metro command to the rating.
 */
module Scenarios {
  import opened Wrappers
  import opened Text
  import opened Keywords
  import opened Conversation
  import opened Dispatch
  import opened Store

  /** A new sender's first message mentioning a trip plan. */
  lemma PlanFromNew(p: Phone, now: Stamp, body: string)
    requires PlanTripRequested(body)
    ensures Receive(map[], p, Some(body), now)
      == Handled(map[p := Session(AwaitingReminderChoice, DefaultName, false, now, None)], [TripPlanning(DefaultName)], [])
  {
    InitialTable(NewSession(now), body);
    ReceiveSaves(map[], p, body, now, NewSession(now), HandleUserMessage(NewSession(now), body));
  }

  /** A yes to the reminder question. */
  lemma YesToReminder(m: Sessions, p: Phone, now: Stamp, body: string)
    requires p in m && m[p].step == AwaitingReminderChoice && IsYes(Normalise(body))
    ensures Receive(m, p, Some(body), now)
      == Handled(
           m[p := m[p].(step := ReminderSet, reminderActive := true)],
           [ReminderConfirmation(m[p].name)],
           [Timer(BusArrival, m[p].name, 5000)])
  {
    ReminderChoiceTable(m[p], Normalise(body));
    ReceiveSaves(m, p, body, now, m[p], HandleUserMessage(m[p], body));
  }

  /** METRO during the journey. */
  lemma MetroDuringJourney(m: Sessions, p: Phone, now: Stamp, body: string)
    requires p in m && IsJourneyStep(m[p].step) && IsMetro(Normalise(body))
    ensures Receive(m, p, Some(body), now)
      == Handled(m[p := m[p].(step := AtMetro)], [MetroDirections(m[p].name)], [Timer(JourneyCompletion, m[p].name, 10000)])
  {
    JourneyTable(m[p], Normalise(body));
    ReceiveSaves(m, p, body, now, m[p], HandleUserMessage(m[p], body));
  }

  /** A rating after the journey. */
  lemma RatingAfterJourney(m: Sessions, p: Phone, now: Stamp, body: string)
    requires p in m && m[p].step == Completed && IsRating(Normalise(body))
    ensures Receive(m, p, Some(body), now) == Handled(m, [RatingThanks(Normalise(body), m[p].name)], [])
  {
    PostJourneyTable(m[p], Normalise(body));
    ReceiveSaves(m, p, body, now, m[p], HandleUserMessage(m[p], body));
    assert m[p := m[p]] == m;
  }

  /**
   * During the journey, METRO moves the sender to `at_metro` and schedules the
   * completion notice; when it fires the journey is completed and stamped;
   * a rating sent afterwards is echoed back and leaves the session as it is.
   */
  lemma {:induction false} MetroThenRating(
    m: Sessions, p: Phone, now: Stamp, fired: Stamp, later: Stamp, metro: string, rating: string)
    requires p in m && IsJourneyStep(m[p].step)
    requires IsMetro(Normalise(metro)) && IsRating(Normalise(rating))
    ensures var h1 := Receive(m, p, Some(metro), now);
      && h1.sessions[p] == m[p].(step := AtMetro)
      && h1.replies == [MetroDirections(m[p].name)]
      && h1.timers == [Timer(JourneyCompletion, m[p].name, 10000)]
      && var m2 := Fire(h1.sessions, Scheduled(p, h1.timers[0]), fired);
      && m2[p] == m[p].(step := Completed, completedAt := Some(fired))
      && var h3 := Receive(m2, p, Some(rating), later);
      && h3.sessions == m2
      && h3.replies == [RatingThanks(Normalise(rating), m[p].name)]
      && h3.timers == []
  {
    MetroDuringJourney(m, p, now, metro);
    var m1 := m[p := m[p].(step := AtMetro)];
    var m2 := Fire(m1, Scheduled(p, Timer(JourneyCompletion, m[p].name, 10000)), fired);
    RatingAfterJourney(m2, p, later, rating);
  }

  /** "plan my trip to market", in lower case, asks for a trip plan. */
  lemma TripToMarketRequested(body: string)
    requires body == "plan my trip to market"
    ensures PlanTripRequested(body)
  {
    var u := Upper(body);
    assert body[0] == 'p' && body[1] == 'l' && body[2] == 'a' && body[3] == 'n';
    assert body[8] == 't' && body[9] == 'r' && body[10] == 'i' && body[11] == 'p';
    UpperAt(body, 0); UpperAt(body, 1); UpperAt(body, 2); UpperAt(body, 3);
    UpperAt(body, 8); UpperAt(body, 9); UpperAt(body, 10); UpperAt(body, 11);
    assert u[0] == 'P' && u[1] == 'L' && u[2] == 'A' && u[3] == 'N';
    assert u[8] == 'T' && u[9] == 'R' && u[10] == 'I' && u[11] == 'P';
    PlanTripAt(u);
    ContainsIff(u, "PLAN");
    ContainsIff(u, "TRIP");
  }

  /** A text spelling PLAN at 0 and TRIP at 8, as "PLAN MY TRIP" does. */
  lemma PlanTripAt(u: string)
    requires |u| >= 12
    requires u[0] == 'P' && u[1] == 'L' && u[2] == 'A' && u[3] == 'N'
    requires u[8] == 'T' && u[9] == 'R' && u[10] == 'I' && u[11] == 'P'
    ensures OccursAt(u, "PLAN", 0) && OccursAt(u, "TRIP", 8)
  {
    assert u[0..4] == "PLAN";
    assert u[8..12] == "TRIP";
  }

  /** A new sender texting "plan my trip to market" is asked about the reminder, with one trip-planning send naming Alex. */
  lemma TripToMarketFromNew(p: Phone, now: Stamp, body: string)
    requires body == "plan my trip to market"
    ensures Receive(map[], p, Some(body), now)
      == Handled(map[p := Session(AwaitingReminderChoice, DefaultName, false, now, None)], [TripPlanning(DefaultName)], [])
  {
    TripToMarketRequested(body);
    PlanFromNew(p, now, body);
  }

  /**
   * "plan ﬆrip", with the ligature U+FB06, is not a trip request here: `Upper`
   * keeps the ligature, where `toUpperCase` expands it to ST and so spells TRIP.
   */
  lemma StLigatureKept(body: string)
    requires body == "plan \U{FB06}rip"
    ensures !PlanTripRequested(body)
  {
    var u := Upper(body);
    UpperAt(body, 0); UpperAt(body, 1); UpperAt(body, 2); UpperAt(body, 3); UpperAt(body, 4);
    UpperAt(body, 5); UpperAt(body, 6); UpperAt(body, 7); UpperAt(body, 8);
    assert u == "PLAN \U{FB06}RIP";
    NoTNoTrip(u);
  }

  /** A text without the letter T does not contain TRIP. */
  lemma NoTNoTrip(u: string)
    requires forall k :: 0 <= k < |u| ==> u[k] != 'T'
    ensures !Contains(u, "TRIP")
  {
    forall i | 0 <= i && i + 4 <= |u| ensures !OccursAt(u, "TRIP", i) {
      assert u[i..i + 4][0] == u[i] != "TRIP"[0];
    }
    ContainsIff(u, "TRIP");
  }

  /** "yeſ", spelled with the long s, is a yes: `toUpperCase` turns it into YES. */
  lemma LongSYes(body: string)
    requires body == "ye\U{17F}"
    ensures IsYes(Normalise(body))
  {
    var u := Upper(body);
    UpperAt(body, 0); UpperAt(body, 1); UpperAt(body, 2);
    assert u == "YES";
    TrimFixesTrimmed(u);
  }
}
