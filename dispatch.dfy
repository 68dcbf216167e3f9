/**
 * The message dispatcher: the `send*` helpers and `sendMessage`.  A helper
 * backed by a content template sends the templated message when the template's
 * SID is set, the plain text otherwise, and a shorter plain text when the
 * templated send fails.  `sendMessage` swallows its own failures, so a plain
 * send never falls back to anything.
 */
module Dispatch {
  import opened Wrappers
  import opened Conversation

  /** A sender identifier (`From`, `userPhone`). */
  type Phone = string

  /** `CONTENT_SIDS`: one optional template SID per scene. */
  datatype ContentSids = ContentSids(
    tripPlanning: Option<string>,
    busReminder: Option<string>,
    ferryTransfer: Option<string>,
    ferryWelcome: Option<string>,
    metroConnection: Option<string>,
    journeyComplete: Option<string>)

  /** All SIDs `null`, as the process starts. */
  const Unconfigured := ContentSids(None, None, None, None, None, None)

  /** How a reply went out. */
  datatype Delivery =
    | Templated(contentSid: string)  // `client.messages.create` with `contentSid`
    | PlainText                      // `sendMessage` with the full text
    | DegradedText                   // `sendMessage` with the shorter text of the `catch` branch

  /** One outbound send attempt. */
  datatype Sent = Sent(to: Phone, reply: Reply, via: Delivery)

  /** `if (CONTENT_SIDS.x)`: JavaScript truthiness, so an empty SID counts as unset. */
  predicate IsSet(sid: Option<string>) {
    sid.Some? && sid.value != ""
  }

  /** The SID a reply's helper consults; `None` for the replies sent through `sendMessage` alone. */
  function TemplateSid(sids: ContentSids, r: Reply): (sid: Option<string>)
    ensures sid.Some? ==> HasTemplate(r)
  {
    match r
    case TripPlanning(_) => sids.tripPlanning
    case FerryWelcome(_) => sids.ferryWelcome
    case BusArrivalNotice(_) => sids.busReminder
    case FerryTransferNotice(_) => sids.ferryTransfer
    case MetroConnectionNotice(_) => sids.metroConnection
    case JourneyCompleteNotice(_) => sids.journeyComplete
    case _ => None
  }

  /** The replies whose helper tries a content template first. */
  predicate HasTemplate(r: Reply) {
    r.TripPlanning? || r.FerryWelcome? || r.BusArrivalNotice? || r.FerryTransferNotice?
    || r.MetroConnectionNotice? || r.JourneyCompleteNotice?
  }

  /**
   * The choice a helper makes.  `failed` stands for the provider rejecting the
   * templated request; a failure of `sendMessage` itself is swallowed and
   * changes nothing here.
   */
  function Deliver(sids: ContentSids, r: Reply, failed: bool): (d: Delivery)
    ensures d.Templated? <==> HasTemplate(r) && IsSet(TemplateSid(sids, r)) && !failed
    ensures d.Templated? ==> Some(d.contentSid) == TemplateSid(sids, r)
    ensures d.DegradedText? <==> HasTemplate(r) && IsSet(TemplateSid(sids, r)) && failed
    ensures d.PlainText? <==> !HasTemplate(r) || !IsSet(TemplateSid(sids, r))
  {
    var sid := TemplateSid(sids, r);
    if IsSet(sid) then
      if failed then DegradedText else Templated(sid.value)
    else
      PlainText
  }

  /** The sends one handler's replies make to `to`. */
  function SendAll(sids: ContentSids, to: Phone, replies: seq<Reply>, failed: bool): (s: seq<Sent>)
    ensures |s| == |replies|
    ensures forall i :: 0 <= i < |s| ==> s[i].to == to && s[i].reply == replies[i]
    ensures forall i :: 0 <= i < |s| ==> s[i].via == Deliver(sids, replies[i], failed)
  {
    seq(|replies|, i requires 0 <= i < |replies| => Sent(to, replies[i], Deliver(sids, replies[i], failed)))
  }

  /** With no template configured every reply goes out as plain text, whatever fails. */
  lemma UnconfiguredIsPlain(r: Reply, failed: bool)
    ensures Deliver(Unconfigured, r, failed) == PlainText
  {
  }

  /** With the template set, a failed templated send is followed by the shorter plain text. */
  lemma FailureDegrades(sids: ContentSids, r: Reply)
    requires HasTemplate(r) && IsSet(TemplateSid(sids, r))
    ensures Deliver(sids, r, false) == Templated(TemplateSid(sids, r).value)
    ensures Deliver(sids, r, true) == DegradedText
  {
  }
}
