/**
 * The running server: the `userSessions` map, the sends made so far, the
 * notices waiting to fire, and the routes that touch them.  A send is an
 * entry appended to `outbox`; a `setTimeout` is an entry appended to
 * `pending`, which `FireNotice` takes out and runs.
 */
module Server {
  import opened Wrappers
  import opened Conversation
  import opened Dispatch
  import opened Store

  class TransitServer {
    /** `CONTENT_SIDS` as the setup left it. */
    const sids: ContentSids
    /** `userSessions` */
    var sessions: Sessions
    /** Every reply sent so far, in order, and how it went out. */
    var outbox: seq<Sent>
    /** The notices scheduled and not yet fired. */
    var pending: seq<Scheduled>

    ghost predicate Valid()
      reads this
    {
      && AllWellFormed(sessions)
      && AllDefaultName(pending)
    }

    constructor (sids: ContentSids)
      ensures Valid()
      ensures this.sids == sids && sessions == map[] && outbox == [] && pending == []
    {
      this.sids := sids;
      sessions := map[];
      outbox := [];
      pending := [];
    }

    /**
     * `POST /webhook`: get or create the sender's session, handle the message,
     * save the session if handling did not throw, otherwise send the fallback
     * text; answer 200 in every case.  `failed` says whether the provider
     * rejects this request's templated send.
     */
    method Webhook(from: Phone, body: Option<string>, now: Stamp, failed: bool) returns (status: nat)
      requires Valid()
      modifies this
      ensures Valid()
      ensures status == 200
      ensures var h := Receive(old(sessions), from, body, now);
        && sessions == h.sessions
        && outbox == old(outbox) + SendAll(sids, from, h.replies, failed)
        && pending == old(pending) + ScheduleAll(from, h.timers)
    {
      var session := if from in sessions then sessions[from] else NewSession(now);
      match body {
        case None =>
          outbox := outbox + SendAll(sids, from, [Fallback], failed);
        case Some(text) =>
          var o := HandleUserMessage(session, text);
          ReceiveSaves(sessions, from, text, now, session, o);
          SaveKeepsWellFormed(sessions, from, text, now, session, o);
          ScheduleKeepsDefaultName(pending, from, o.timers);
          sessions := sessions[from := o.session];
          outbox := outbox + SendAll(sids, from, o.replies, failed);
          pending := pending + ScheduleAll(from, o.timers);
      }
      status := 200;
    }

    /**
     * The `setTimeout` callback of `pending[i]` runs: its notice is sent and,
     * for the journey-completion notice, the sender's stored session (if any)
     * is marked completed at `now`.
     */
    method FireNotice(i: nat, now: Stamp, failed: bool)
      requires Valid() && i < |pending|
      modifies this
      ensures Valid()
      ensures var n := old(pending[i]);
        && pending == old(pending[..i] + pending[i + 1..])
        && outbox == old(outbox) + SendAll(sids, n.phone, [NoticeReply(n.timer)], failed)
        && sessions == Fire(old(sessions), n, now)
    {
      var n := pending[i];
      FireKeepsWellFormed(sessions, n, now);
      pending := pending[..i] + pending[i + 1..];
      outbox := outbox + SendAll(sids, n.phone, [NoticeReply(n.timer)], failed);
      var session := if n.phone in sessions then Some(sessions[n.phone]) else None;
      if n.timer.notice == JourneyCompletion && session.Some? {
        sessions := sessions[n.phone := session.value.(step := Completed, completedAt := Some(now))];
      }
    }

    /**
     * `GET /analytics`: the number of stored sessions and, for every step
     * some session is at, how many are there.  The counts add up to the total.
     */
    method Analytics() returns (totalUsers: nat, journeySteps: map<Step, nat>)
      ensures totalUsers == |sessions|
      ensures forall s :: Get(journeySteps, s) == StepCount(sessions, s)
      ensures forall s :: s in journeySteps ==> journeySteps[s] > 0
      ensures Tally(journeySteps) == totalUsers
    {
      var m := sessions;
      totalUsers := |m|;
      journeySteps := map[];
      var todo := m.Keys;
      ghost var done: set<Phone> := {};
      while todo != {}
        invariant todo !! done && todo + done == m.Keys
        invariant forall s :: Get(journeySteps, s) == CountAmong(m, done, s)
        invariant forall s :: s in journeySteps ==> journeySteps[s] > 0
        decreases |todo|
      {
        var p :| p in todo;
        var step := m[p].step;
        CountOneMore(m, done, journeySteps, p);
        journeySteps := journeySteps[step := Get(journeySteps, step) + 1];
        todo := todo - {p};
        done := done + {p};
      }
      assert done == m.Keys;
      TallyIsTotal(m, journeySteps);
    }

    /** `POST /clear-sessions`: forget every session; sends already made and notices pending stay. */
    method ClearSessions()
      requires Valid()
      modifies this
      ensures Valid()
      ensures sessions == map[] && outbox == old(outbox) && pending == old(pending)
    {
      sessions := map[];
    }
  }
}
