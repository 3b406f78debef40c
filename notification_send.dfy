/** The notification dispatch stub of app/api/notifications/send/route.ts:
    it echoes the request as a notification record that is either scheduled
    (when `scheduledFor` is set) or sent now. */
module NotificationSend {
  import opened Seqs
  import opened Text
  import opened Api

  datatype SendBody = SendBody(kind: string, recipients: seq<string>, title: string, message: string, scheduledFor: string)
  datatype DeliveryStatus = Scheduled | Sent

  datatype OutgoingNotification = OutgoingNotification(
    id: string,
    kind: string,
    recipients: seq<string>,
    title: string,
    message: string,
    scheduledFor: string,
    status: DeliveryStatus,
    sentAt: Option<int>)

  datatype SendAck = SendAck(success: bool, notification: OutgoingNotification, note: string)

  function Outgoing(b: SendBody, now: nat): (n: OutgoingNotification)
    ensures n.status == Scheduled <==> b.scheduledFor != ""
    ensures n.sentAt.None? <==> n.status == Scheduled
    ensures n.sentAt.Some? ==> n.sentAt.value == now
    ensures n.kind == b.kind && n.recipients == b.recipients && n.title == b.title
    ensures n.message == b.message && n.scheduledFor == b.scheduledFor && n.id == NatToString(now)
  {
    OutgoingNotification(NatToString(now), b.kind, b.recipients, b.title, b.message, b.scheduledFor,
      if b.scheduledFor != "" then Scheduled else Sent,
      if b.scheduledFor != "" then None else Some(now))
  }

  function Handle(body: Body<SendBody>, now: nat): (r: Response<SendAck>)
    ensures body.Parsed? <==> r.Ok?
    ensures r.Ok? ==> r.status == 200 && r.value.success && r.value.notification == Outgoing(body.value, now)
    ensures r.Failure? ==> r == Failure(500, "Failed to send notification")
  {
    match body
    case Malformed => Failure(500, "Failed to send notification")
    case Parsed(b) => Ok(200, SendAck(true, Outgoing(b, now), "Notification would be sent via configured channels in production"))
  }

  /** Rescheduling changes only the status and the send time: the echoed content stays. */
  lemma ScheduleOnlyAffectsDelivery(b: SendBody, at: string, now: nat)
    requires at != ""
    ensures Outgoing(b.(scheduledFor := at), now) == Outgoing(b, now).(scheduledFor := at, status := Scheduled, sentAt := None)
  {
  }
}
