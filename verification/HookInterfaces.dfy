/** The events of the hook system, and what a registration holds. */
module HookInterfaces {
  import opened Strings

  datatype HookEvent =
    | SessionCreated | SessionStarting | SessionReady | SessionQr | SessionDisconnected | SessionDeleted
    | MessageReceived | MessageSending | MessageSent | MessageFailed | MessageAck
    | WebhookBefore | WebhookQueued | WebhookDelivered | WebhookAfter | WebhookError

  function Area(e: HookEvent): string {
    match e
    case SessionCreated | SessionStarting | SessionReady | SessionQr | SessionDisconnected | SessionDeleted => "session"
    case MessageReceived | MessageSending | MessageSent | MessageFailed | MessageAck => "message"
    case WebhookBefore | WebhookQueued | WebhookDelivered | WebhookAfter | WebhookError => "webhook"
  }

  function Moment(e: HookEvent): string {
    match e
    case SessionCreated => "created"
    case SessionStarting => "starting"
    case SessionReady => "ready"
    case SessionQr => "qr"
    case SessionDisconnected => "disconnected"
    case SessionDeleted => "deleted"
    case MessageReceived => "received"
    case MessageSending => "sending"
    case MessageSent => "sent"
    case MessageFailed => "failed"
    case MessageAck => "ack"
    case WebhookBefore => "before"
    case WebhookQueued => "queued"
    case WebhookDelivered => "delivered"
    case WebhookAfter => "after"
    case WebhookError => "error"
  }

  function Name(e: HookEvent): string {
    Join(Area(e), Moment(e))
  }

  // `handler` names the function; what it does is an argument of the chain.
  datatype Registration = Registration(id: string, pluginId: string, event: HookEvent, handler: nat, priority: int)

  // The id of a registration; `now` is the clock in milliseconds, printed.
  function HookId(pluginId: string, event: HookEvent, now: string): string {
    Join(Join(pluginId, Name(event)), now)
  }

  lemma NamesAre()
    ensures Name(SessionCreated) == "session:created" && Name(SessionStarting) == "session:starting"
    ensures Name(SessionReady) == "session:ready" && Name(SessionQr) == "session:qr"
    ensures Name(SessionDisconnected) == "session:disconnected" && Name(SessionDeleted) == "session:deleted"
    ensures Name(MessageReceived) == "message:received" && Name(MessageSending) == "message:sending"
    ensures Name(MessageSent) == "message:sent" && Name(MessageFailed) == "message:failed"
    ensures Name(MessageAck) == "message:ack" && Name(WebhookBefore) == "webhook:before"
    ensures Name(WebhookQueued) == "webhook:queued" && Name(WebhookDelivered) == "webhook:delivered"
    ensures Name(WebhookAfter) == "webhook:after" && Name(WebhookError) == "webhook:error"
  {
  }

  lemma NamePlain(e: HookEvent)
    ensures NoColon(Area(e)) && NoColon(Moment(e))
  {
  }

  lemma MomentsDiffer(e: HookEvent, f: HookEvent)
    requires Moment(e) == Moment(f)
    ensures e == f
  {
    assert |Moment(e)| == |Moment(f)|;
    assert Moment(e)[0] == Moment(f)[0] && Moment(e)[1] == Moment(f)[1];
    assert |Moment(e)| > 4 ==> Moment(e)[4] == Moment(f)[4];
  }

  // An id says which plugin, event and millisecond it was made for, even if the plugin's name holds
  // colons; two registrations share an id only if all three agree.
  lemma HookIdDetermines(p: string, e: HookEvent, t: string, q: string, f: HookEvent, u: string)
    requires NoColon(t) && NoColon(u) && HookId(p, e, t) == HookId(q, f, u)
    ensures p == q && e == f && t == u
  {
    NamePlain(e);
    NamePlain(f);
    LastThreeParts(p, Area(e), Moment(e), t, q, Area(f), Moment(f), u);
    MomentsDiffer(e, f);
  }
}
