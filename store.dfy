/**
 * The session store `userSessions` as a map from sender to session, and what
 * the webhook, a firing notice and the analytics endpoint do with it, stated
 * as functions of the map.  The `TransitServer` class runs these operations
 * in place and is proved against them.
 */
module Store {
  import opened Wrappers
  import opened Text
  import opened Conversation
  import opened Dispatch

  type Sessions = map<Phone, Session>

  /** The placeholder name every new session gets. */
  const DefaultName := "Alex"

  /** The session the webhook creates for a sender it has not seen. */
  function NewSession(now: Stamp): (s: Session)
    ensures WellFormed(s) && s.step == Initial && s.createdAt == now
  {
    Session(Initial, DefaultName, false, now, None)
  }

  /** What the store keeps true of each session it holds. */
  predicate WellFormed(s: Session) {
    s.name == DefaultName && Coherent(s)
  }

  predicate AllWellFormed(m: Sessions) {
    forall p :: p in m ==> WellFormed(m[p])
  }

  /** A `setTimeout` still waiting to fire, for the sender whose message scheduled it. */
  datatype Scheduled = Scheduled(phone: Phone, timer: Timer)

  function ScheduleAll(phone: Phone, timers: seq<Timer>): seq<Scheduled> {
    seq(|timers|, i requires 0 <= i < |timers| => Scheduled(phone, timers[i]))
  }

  /** Every waiting notice is addressed to the default name. */
  predicate AllDefaultName(pending: seq<Scheduled>) {
    forall i :: 0 <= i < |pending| ==> pending[i].timer.name == DefaultName
  }

  /** Scheduling timers addressed to the default name keeps every waiting notice so addressed. */
  lemma ScheduleKeepsDefaultName(pending: seq<Scheduled>, phone: Phone, timers: seq<Timer>)
    requires AllDefaultName(pending)
    requires forall t :: t in timers ==> t.name == DefaultName
    ensures AllDefaultName(pending + ScheduleAll(phone, timers))
  {
    var all := pending + ScheduleAll(phone, timers);
    forall i | 0 <= i < |all| ensures all[i].timer.name == DefaultName {
      if i >= |pending| {
        assert all[i].timer == timers[i - |pending|];
      }
    }
  }

  /** The message is a stored sender's unrecognised answer to the reminder question, the one message left without a reply. */
  predicate Unanswered(m: Sessions, phone: Phone, text: string) {
    phone in m && Ignored(m[phone], text)
  }

  /** The outcome of one webhook delivery. */
  datatype Handled = Handled(sessions: Sessions, replies: seq<Reply>, timers: seq<Timer>)

  /**
   * The webhook on the store: take the sender's session or a new one, handle
   * the message, and save the session only if handling did not throw.
   * `body == None` is a request whose `Body` is missing, on which
   * `toUpperCase` throws before anything is changed; the catch sends the
   * fallback text.
   */
  function Receive(m: Sessions, phone: Phone, body: Option<string>, now: Stamp): (h: Handled)
    ensures body.None? ==> h == Handled(m, [Fallback], [])
    ensures body.Some? ==> h.sessions.Keys == m.Keys + {phone}
    ensures forall q :: q in m && q != phone ==> q in h.sessions && h.sessions[q] == m[q]
    ensures body.Some? && phone !in m ==>
      var s := h.sessions[phone];
      && s.name == DefaultName && !s.reminderActive && s.createdAt == now && s.completedAt == None
      && (s.step == Initial || s.step == AwaitingReminderChoice)
    ensures body.Some? && phone in m ==> UserEdge(m[phone].step, h.sessions[phone].step)
    ensures h.replies == [] <==> body.Some? && Unanswered(m, phone, body.value)
    ensures |h.replies| <= 1
  {
    match body
    case None => Handled(m, [Fallback], [])
    case Some(text) =>
      var session := if phone in m then m[phone] else NewSession(now);
      var o := HandleUserMessage(session, text);
      Handled(m[phone := o.session], o.replies, o.timers)
  }

  /** A delivery with a body saves the handled session under the sender's number. */
  lemma ReceiveSaves(m: Sessions, phone: Phone, text: string, now: Stamp, session: Session, o: Outcome)
    requires session == (if phone in m then m[phone] else NewSession(now))
    requires o == HandleUserMessage(session, text)
    ensures Receive(m, phone, Some(text), now) == Handled(m[phone := o.session], o.replies, o.timers)
  {
  }

  /** Saving a handled session keeps the store well formed; its notices are addressed to the default name. */
  lemma SaveKeepsWellFormed(m: Sessions, phone: Phone, text: string, now: Stamp, session: Session, o: Outcome)
    requires AllWellFormed(m)
    requires session == (if phone in m then m[phone] else NewSession(now))
    requires o == HandleUserMessage(session, text)
    ensures AllWellFormed(m[phone := o.session])
    ensures forall t :: t in o.timers ==> t.name == DefaultName
  {
    assert WellFormed(session);
    assert Coherent(o.session) && o.session.name == session.name;
    assert WellFormed(o.session);
    var m' := m[phone := o.session];
    forall q | q in m' ensures WellFormed(m'[q]) {
      if q != phone {
        assert m'[q] == m[q];
      }
    }
  }

  /** The notice a timer sends when it fires. */
  function NoticeReply(t: Timer): (r: Reply)
    ensures HasTemplate(r)
  {
    match t.notice
    case BusArrival => BusArrivalNotice(t.name)
    case FerryTransfer => FerryTransferNotice(t.name)
    case MetroConnection => MetroConnectionNotice(t.name)
    case JourneyCompletion => JourneyCompleteNotice(t.name)
  }

  /**
   * The store after a notice fires.  Only the journey-completion notice
   * touches it: the sender's session, if one is stored, becomes `completed`
   * and gets its completion stamp, whatever step it had reached.
   */
  function Fire(m: Sessions, n: Scheduled, now: Stamp): (m': Sessions)
    ensures m'.Keys == m.Keys
    ensures forall q :: q in m && q != n.phone ==> m'[q] == m[q]
    ensures n.timer.notice == JourneyCompletion && n.phone in m ==>
      && m'[n.phone].step == Completed && m'[n.phone].completedAt == Some(now)
      && m'[n.phone].name == m[n.phone].name
      && m'[n.phone].reminderActive == m[n.phone].reminderActive
      && m'[n.phone].createdAt == m[n.phone].createdAt
    ensures n.timer.notice != JourneyCompletion || n.phone !in m ==> m' == m
  {
    if n.timer.notice == JourneyCompletion && n.phone in m then
      m[n.phone := m[n.phone].(step := Completed, completedAt := Some(now))]
    else
      m
  }

  /** A new session is well formed, and handling a message keeps every stored session well formed. */
  lemma ReceiveKeepsWellFormed(m: Sessions, phone: Phone, body: Option<string>, now: Stamp)
    requires AllWellFormed(m)
    ensures AllWellFormed(Receive(m, phone, body, now).sessions)
    ensures forall t :: t in Receive(m, phone, body, now).timers ==> t.name == DefaultName
  {
  }

  /** Firing a notice keeps every stored session well formed. */
  lemma FireKeepsWellFormed(m: Sessions, n: Scheduled, now: Stamp)
    requires AllWellFormed(m)
    ensures AllWellFormed(Fire(m, n, now))
  {
  }

  // ----- analytics -----

  /** How many of the senders in `ks` have a stored session at step `s`. */
  ghost function CountAmong(m: Sessions, ks: set<Phone>, s: Step): nat {
    |set p | p in ks && p in m && m[p].step == s|
  }

  /** How many stored sessions are at step `s`. */
  ghost function StepCount(m: Sessions, s: Step): nat {
    CountAmong(m, m.Keys, s)
  }

  /** `journeySteps[step] || 0` */
  function Get(counts: map<Step, nat>, s: Step): nat {
    if s in counts then counts[s] else 0
  }

  /** The position of a step in the enumeration. */
  function StepIndex(s: Step): (k: nat)
    ensures k < StepTotal
  {
    match s
    case Initial => 0
    case AwaitingReminderChoice => 1
    case ReminderSet => 2
    case NoReminder => 3
    case OnBus => 4
    case OnFerry => 5
    case AtMetro => 6
    case RideshareBooked => 7
    case Rerouting => 8
    case Completed => 9
  }

  /** The number of steps. */
  const StepTotal: nat := 10

  /** The step at position `k`. */
  function StepAt(k: nat): (s: Step)
    requires k < StepTotal
    ensures StepIndex(s) == k
  {
    match k
    case 0 => Initial
    case 1 => AwaitingReminderChoice
    case 2 => ReminderSet
    case 3 => NoReminder
    case 4 => OnBus
    case 5 => OnFerry
    case 6 => AtMetro
    case 7 => RideshareBooked
    case 8 => Rerouting
    case _ => Completed
  }

  /** The sum of the counts of the steps at positions `k` and after. */
  function SumFrom(counts: map<Step, nat>, k: nat): nat
    decreases StepTotal - k
  {
    if k >= StepTotal then 0 else Get(counts, StepAt(k)) + SumFrom(counts, k + 1)
  }

  /** The sum of the per-step counts, over every step. */
  function Tally(counts: map<Step, nat>): nat {
    SumFrom(counts, 0)
  }

  /** The senders whose step is at position `k` or after. */
  ghost function From(m: Sessions, k: nat): set<Phone> {
    set p | p in m && StepIndex(m[p].step) >= k
  }

  /** The senders at position `k` or after are those at `k` and those after it. */
  lemma FromSplit(m: Sessions, k: nat)
    requires k < StepTotal
    ensures var here := set p | p in m.Keys && p in m && m[p].step == StepAt(k);
      && From(m, k) == here + From(m, k + 1)
      && here !! From(m, k + 1)
  {
    var here := set p | p in m.Keys && p in m && m[p].step == StepAt(k);
    forall p | p in From(m, k) ensures p in here + From(m, k + 1) {
      if StepIndex(m[p].step) == k {
        assert m[p].step == StepAt(k);
      }
    }
  }

  /** Counts that are the per-step counts of `m` sum, from position `k` on, to the senders at those steps. */
  lemma {:induction false} SumFromCounts(m: Sessions, counts: map<Step, nat>, k: nat)
    requires forall s :: Get(counts, s) == StepCount(m, s)
    ensures SumFrom(counts, k) == |From(m, k)|
    decreases StepTotal - k
  {
    if k < StepTotal {
      SumFromCounts(m, counts, k + 1);
      FromSplit(m, k);
      assert Get(counts, StepAt(k)) == StepCount(m, StepAt(k));
    } else {
      assert From(m, k) == {};
    }
  }

  /** Per-step counts add up to the number of stored sessions. */
  lemma TallyIsTotal(m: Sessions, counts: map<Step, nat>)
    requires forall s :: Get(counts, s) == StepCount(m, s)
    ensures Tally(counts) == |m|
  {
    SumFromCounts(m, counts, 0);
    assert From(m, 0) == m.Keys;
  }

  /** Counting one more sender adds one to the count of its step and nothing to the others. */
  lemma CountAmongAdd(m: Sessions, ks: set<Phone>, p: Phone, s: Step)
    requires p in m && p !in ks
    ensures CountAmong(m, ks + {p}, s) == CountAmong(m, ks, s) + (if m[p].step == s then 1 else 0)
  {
    var before := set q | q in ks && q in m && m[q].step == s;
    var after := set q | q in ks + {p} && q in m && m[q].step == s;
    if m[p].step == s {
      assert after == before + {p};
    } else {
      assert after == before;
    }
  }

  /** One more sender counted: `journeySteps[step] = (journeySteps[step] || 0) + 1` keeps the counts right. */
  lemma CountOneMore(m: Sessions, done: set<Phone>, counts: map<Step, nat>, p: Phone)
    requires p in m && p !in done
    requires forall s :: Get(counts, s) == CountAmong(m, done, s)
    requires forall s :: s in counts ==> counts[s] > 0
    ensures var bumped := counts[m[p].step := Get(counts, m[p].step) + 1];
      && (forall s :: Get(bumped, s) == CountAmong(m, done + {p}, s))
      && (forall s :: s in bumped ==> bumped[s] > 0)
  {
    var t := m[p].step;
    var bumped := counts[t := Get(counts, t) + 1];
    forall s ensures Get(bumped, s) == CountAmong(m, done + {p}, s) {
      CountAmongAdd(m, done, p, s);
    }
  }
}
