/** The stripe-webhook edge function: authenticates (or, without a secret or
    a signature header, simply parses) a Stripe event and mirrors subscription
    events onto the owner's row of the `subscriptions` table. Stripe, the
    signature check, JSON.parse and the auth user list are parameters. */
module StripeWebhook {
  import opened Wrappers

  type UserId = string

  /** The fields of a Stripe subscription the handler reads. `currentPeriodEnd`
      is in seconds and may be absent from the payload. */
  datatype StripeSubscription = StripeSubscription(
    id: string,
    customer: string,
    status: string,
    currentPeriodEnd: Option<int>,
    cancelAtPeriodEnd: bool)

  datatype Event =
    | SubscriptionCreated(subscription: StripeSubscription)
    | SubscriptionUpdated(subscription: StripeSubscription)
    | SubscriptionDeleted(subscription: StripeSubscription)
    | InvoicePaid
    | InvoicePaymentFailed
    | Unhandled(eventType: string)

  /** `stripe.customers.retrieve`: a live customer, a deleted one, or a thrown error. */
  datatype CustomerReply = LiveCustomer(email: Option<string>) | DeletedCustomer | RetrieveFailed(message: string)

  datatype AuthUser = AuthUser(id: UserId, email: Option<string>)

  /** The largest magnitude, in milliseconds, a JavaScript Date can hold. */
  const MaxDateMs: int := 8640000000000000

  /** `new Date(seconds * 1000).toISOString()`: the instant in milliseconds, or
      the RangeError thrown for a missing field (NaN) or an instant out of range. */
  function PeriodEndMs(seconds: Option<int>): (r: Result<int, string>)
    ensures r.Ok? <==> seconds.Some? && -MaxDateMs <= seconds.value * 1000 <= MaxDateMs
    ensures r.Ok? ==> r.value == seconds.value * 1000
    ensures r.Err? ==> r.error == "Invalid time value"
  {
    if seconds.Some? && -MaxDateMs <= seconds.value * 1000 <= MaxDateMs then Ok(seconds.value * 1000)
    else Err("Invalid time value")
  }

  /** `users.find(u => u.email === email)`: the first user with that email. */
  function FindUser(users: seq<AuthUser>, email: string): (u: Option<AuthUser>)
    ensures u.Some? ==> u.value in users && u.value.email == Some(email)
    ensures u.None? ==> forall x :: x in users ==> x.email != Some(email)
    ensures u.Some? ==> exists i :: 0 <= i < |users| && users[i] == u.value
                                    && forall j :: 0 <= j < i ==> users[j].email != Some(email)
  {
    if users == [] then None
    else if users[0].email == Some(email) then Some(users[0])
    else FindUser(users[1..], email)
  }

  /** A row of the `subscriptions` table; the period end is kept in milliseconds. */
  datatype SubscriptionRow = SubscriptionRow(
    stripeCustomerId: Option<string>,
    stripeSubscriptionId: Option<string>,
    status: string,
    plan: string,
    currentPeriodEnd: Option<int>,
    cancelAtPeriodEnd: bool)

  /** The two updates the handler makes. */
  datatype SubscriptionPatch =
    | Sync(customerId: string, subscriptionId: string, status: string, plan: string,
           periodEndMs: int, cancelAtPeriodEnd: bool)
    | Cancel

  function ApplySubscriptionPatch(r: SubscriptionRow, p: SubscriptionPatch): (r': SubscriptionRow)
    ensures p.Sync? ==> r' == SubscriptionRow(Some(p.customerId), Some(p.subscriptionId), p.status, p.plan,
                                              Some(p.periodEndMs), p.cancelAtPeriodEnd)
    ensures p.Cancel? ==> r'.status == "canceled" && r'.plan == "free" && r'.stripeSubscriptionId.None?
    ensures p.Cancel? ==> r'.stripeCustomerId == r.stripeCustomerId && r'.currentPeriodEnd == r.currentPeriodEnd
                          && r'.cancelAtPeriodEnd == r.cancelAtPeriodEnd
  {
    match p
    case Sync(c, s, st, pl, end, cancel) => SubscriptionRow(Some(c), Some(s), st, pl, Some(end), cancel)
    case Cancel => r.(status := "canceled", plan := "free", stripeSubscriptionId := None)
  }

  /** The update for a created or updated subscription, or the error thrown
      while building it. An active subscription is recorded as "pro" whatever
      it was bought for; any other status is recorded as is, on plan "free". */
  function SyncPatch(s: StripeSubscription): (r: Result<SubscriptionPatch, string>)
    ensures r.Ok? <==> PeriodEndMs(s.currentPeriodEnd).Ok?
    ensures r.Ok? ==> r.value.Sync? && r.value.customerId == s.customer && r.value.subscriptionId == s.id
    ensures r.Ok? ==> s.currentPeriodEnd.Some? && r.value.periodEndMs == s.currentPeriodEnd.value * 1000
                      && r.value.cancelAtPeriodEnd == s.cancelAtPeriodEnd
    ensures r.Ok? && s.status == "active" ==> r.value.status == "active" && r.value.plan == "pro"
    ensures r.Ok? && s.status != "active" ==> r.value.status == s.status && r.value.plan == "free"
  {
    match PeriodEndMs(s.currentPeriodEnd)
    case Err(e) => Err(e)
    case Ok(end) =>
      var active := s.status == "active";
      Ok(Sync(s.customer, s.id, if active then "active" else s.status, if active then "pro" else "free",
              end, s.cancelAtPeriodEnd))
  }

  /** `.update(patch).eq("user_id", id)`: no row, or a failed write, changes nothing. */
  function AfterSubscriptionUpdate(rows: map<UserId, SubscriptionRow>, user: UserId, p: SubscriptionPatch, ok: bool)
    : (r: map<UserId, SubscriptionRow>)
    ensures r.Keys == rows.Keys
    ensures forall k :: k in rows && k != user ==> r[k] == rows[k]
    ensures ok && user in rows ==> r[user] == ApplySubscriptionPatch(rows[user], p)
    ensures !ok || user !in rows ==> r == rows
  {
    if ok && user in rows then rows[user := ApplySubscriptionPatch(rows[user], p)] else rows
  }

  /** The outside world of one request. */
  datatype WebhookEnv = WebhookEnv(
    hasStripeKey: bool,
    webhookSecret: Option<string>,
    signature: Option<string>,         // the stripe-signature header
    verified: Option<Event>,           // constructEvent's result; None when it throws
    parsed: Result<Event, string>,     // JSON.parse of the body
    customer: CustomerReply,
    users: seq<AuthUser>,              // the first page listUsers returns
    writeOk: bool)

  datatype WebhookResponse = Received | InvalidSignature | WebhookError(message: string)

  function HttpStatus(r: WebhookResponse): int {
    match r
    case Received => 200
    case InvalidSignature => 400
    case WebhookError(_) => 500
  }

  predicate Truthy(s: Option<string>) {
    s.Some? && s.value != ""
  }

  /** The signature is checked only when both the secret and the header are there. */
  predicate ChecksSignature(env: WebhookEnv) {
    Truthy(env.webhookSecret) && Truthy(env.signature)
  }

  /** The user a subscription event is about: none when the customer is
      deleted, has no email, or matches no user; an error when retrieval throws. */
  function Owner(env: WebhookEnv): (r: Result<Option<UserId>, string>)
    ensures r.Ok? && r.value.Some? ==>
              env.customer.LiveCustomer? && Truthy(env.customer.email)
              && exists u :: u in env.users && u.id == r.value.value && u.email == env.customer.email
  {
    match env.customer
    case RetrieveFailed(m) => Err(m)
    case DeletedCustomer => Ok(None)
    case LiveCustomer(email) =>
      if !Truthy(email) then Ok(None)
      else
        var u := FindUser(env.users, email.value);
        if u.Some? then Ok(Some(u.value.id)) else Ok(None)
  }

  /** What one authenticated (or trusted) event does. */
  function Dispatch(rows: map<UserId, SubscriptionRow>, event: Event, env: WebhookEnv)
    : (r: (WebhookResponse, map<UserId, SubscriptionRow>))
    ensures r.1.Keys == rows.Keys
    ensures r.0 != InvalidSignature
    ensures !(event.SubscriptionCreated? || event.SubscriptionUpdated? || event.SubscriptionDeleted?) ==>
              r == (Received, rows)
    ensures Owner(env) == Ok(None) ==> r == (Received, rows)
  {
    match event
    case SubscriptionCreated(s) => Mirror(rows, s, env)
    case SubscriptionUpdated(s) => Mirror(rows, s, env)
    case SubscriptionDeleted(_) =>
      (match Owner(env)
       case Err(m) => (WebhookError(m), rows)
       case Ok(owner) =>
         if owner.None? then (Received, rows)
         else (Received, AfterSubscriptionUpdate(rows, owner.value, Cancel, env.writeOk)))
    case _ => (Received, rows)
  }

  function Mirror(rows: map<UserId, SubscriptionRow>, s: StripeSubscription, env: WebhookEnv)
    : (r: (WebhookResponse, map<UserId, SubscriptionRow>))
    ensures r.1.Keys == rows.Keys
    ensures r.0 != Received ==> r.0.WebhookError? && r.1 == rows
    ensures Owner(env).Ok? && Owner(env).value.Some? && SyncPatch(s).Err? ==> r == (WebhookError(SyncPatch(s).error), rows)
  {
    match Owner(env)
    case Err(m) => (WebhookError(m), rows)
    case Ok(owner) =>
      if owner.None? then (Received, rows)
      else match SyncPatch(s)
        case Err(m) => (WebhookError(m), rows)
        case Ok(p) => (Received, AfterSubscriptionUpdate(rows, owner.value, p, env.writeOk))
  }

  /** The whole handler. */
  function WebhookRun(rows: map<UserId, SubscriptionRow>, env: WebhookEnv)
    : (r: (WebhookResponse, map<UserId, SubscriptionRow>))
    ensures r.1.Keys == rows.Keys
    ensures r.0 != Received ==> r.1 == rows
    ensures r.0 == InvalidSignature <==> env.hasStripeKey && ChecksSignature(env) && env.verified.None?
  {
    if !env.hasStripeKey then (WebhookError("STRIPE_SECRET_KEY is not set"), rows)
    else if ChecksSignature(env) then
      match env.verified
      case None => (InvalidSignature, rows)
      case Some(e) => Dispatch(rows, e, env)
    else
      match env.parsed
      case Err(m) => (WebhookError(m), rows)
      case Ok(e) => Dispatch(rows, e, env)
  }

  /** The webhook only updates: it never adds or removes a subscription row,
      and it touches no row but the event's owner's. */
  lemma WebhookKeepsOtherRows(rows: map<UserId, SubscriptionRow>, env: WebhookEnv, k: UserId)
    requires k in rows && Owner(env) != Ok(Some(k))
    ensures WebhookRun(rows, env).1.Keys == rows.Keys
    ensures WebhookRun(rows, env).1[k] == rows[k]
  {
  }

  /** A forged signature is refused with 400 before anything is read or written. */
  lemma ForgedSignatureRejected(rows: map<UserId, SubscriptionRow>, env: WebhookEnv)
    requires env.hasStripeKey && ChecksSignature(env) && env.verified.None?
    ensures WebhookRun(rows, env) == (InvalidSignature, rows)
  {
  }

  /** Invoice events and unknown event types are acknowledged with 200 and
      write nothing, whichever way the event was read. */
  lemma InvoiceEventsWriteNothing(rows: map<UserId, SubscriptionRow>, env: WebhookEnv, e: Event)
    requires env.hasStripeKey
    requires if ChecksSignature(env) then env.verified == Some(e) else env.parsed == Ok(e)
    requires e.InvoicePaid? || e.InvoicePaymentFailed? || e.Unhandled?
    ensures WebhookRun(rows, env) == (Received, rows)
  {
  }

  /** With a secret configured, a request that simply leaves out the signature
      header is processed as if it had been verified. */
  lemma UnsignedEventsAreTrusted(rows: map<UserId, SubscriptionRow>, env: WebhookEnv, e: Event)
    requires env.hasStripeKey && Truthy(env.webhookSecret) && !Truthy(env.signature)
    requires env.parsed == Ok(e)
    ensures WebhookRun(rows, env) == Dispatch(rows, e, env)
  {
  }

  /** An active subscription, whatever its price, leaves its owner on "pro". */
  lemma ActiveSubscriptionRecordedAsPro(rows: map<UserId, SubscriptionRow>, env: WebhookEnv,
                                        s: StripeSubscription, owner: UserId)
    requires env.hasStripeKey && !ChecksSignature(env) && env.parsed == Ok(SubscriptionUpdated(s))
    requires Owner(env) == Ok(Some(owner)) && owner in rows && env.writeOk
    requires s.status == "active" && PeriodEndMs(s.currentPeriodEnd).Ok?
    ensures WebhookRun(rows, env).0 == Received
    ensures WebhookRun(rows, env).1[owner].plan == "pro" && WebhookRun(rows, env).1[owner].status == "active"
    ensures WebhookRun(rows, env).1[owner].stripeSubscriptionId == Some(s.id)
  {
  }

  /** A deletion downgrades the owner to "free", marks the row "canceled" and
      forgets the subscription id, keeping the customer id. */
  lemma DeletionDowngrades(rows: map<UserId, SubscriptionRow>, env: WebhookEnv,
                           s: StripeSubscription, owner: UserId)
    requires env.hasStripeKey && !ChecksSignature(env) && env.parsed == Ok(SubscriptionDeleted(s))
    requires Owner(env) == Ok(Some(owner)) && owner in rows && env.writeOk
    ensures var r := WebhookRun(rows, env).1[owner];
      && r.plan == "free" && r.status == "canceled" && r.stripeSubscriptionId.None?
      && r.stripeCustomerId == rows[owner].stripeCustomerId
  {
  }

  /** A subscription event without a period end fails with 500 and writes nothing. */
  lemma MissingPeriodEndFails(rows: map<UserId, SubscriptionRow>, env: WebhookEnv, s: StripeSubscription, owner: UserId)
    requires env.hasStripeKey && !ChecksSignature(env) && env.parsed == Ok(SubscriptionCreated(s))
    requires Owner(env) == Ok(Some(owner)) && s.currentPeriodEnd.None?
    ensures WebhookRun(rows, env) == (WebhookError("Invalid time value"), rows)
  {
  }

  /** The `subscriptions` table. */
  class SubscriptionTable {
    var rows: map<UserId, SubscriptionRow>

    constructor (rows: map<UserId, SubscriptionRow>)
      ensures this.rows == rows
    {
      this.rows := rows;
    }

    method Update(user: UserId, p: SubscriptionPatch, ok: bool)
      modifies this
      ensures rows == AfterSubscriptionUpdate(old(rows), user, p, ok)
    {
      if ok && user in rows {
        rows := rows[user := ApplySubscriptionPatch(rows[user], p)];
      }
    }
  }

  /** The handler, step by step. */
  method HandleStripeWebhook(table: SubscriptionTable, env: WebhookEnv) returns (response: WebhookResponse)
    modifies table
    ensures (response, table.rows) == WebhookRun(old(table.rows), env)
  {
    if !env.hasStripeKey {
      return WebhookError("STRIPE_SECRET_KEY is not set");
    }
    var event: Event;
    if ChecksSignature(env) {
      if env.verified.None? {
        return InvalidSignature;
      }
      event := env.verified.value;
    } else {
      if env.parsed.Err? {
        return WebhookError(env.parsed.error);
      }
      event := env.parsed.value;
    }
    if event.SubscriptionCreated? || event.SubscriptionUpdated? || event.SubscriptionDeleted? {
      var email: string;
      match env.customer {
        case RetrieveFailed(m) =>
          return WebhookError(m);
        case DeletedCustomer =>
          return Received;
        case LiveCustomer(e) =>
          if !Truthy(e) {
            return Received;
          }
          email := e.value;
      }
      var user := FindUser(env.users, email);
      if user.None? {
        return Received;
      }
      if event.SubscriptionDeleted? {
        table.Update(user.value.id, Cancel, env.writeOk);
      } else {
        var end := PeriodEndMs(event.subscription.currentPeriodEnd);
        if end.Err? {
          return WebhookError(end.error);
        }
        var active := event.subscription.status == "active";
        table.Update(user.value.id,
                     Sync(event.subscription.customer, event.subscription.id,
                          if active then "active" else event.subscription.status,
                          if active then "pro" else "free",
                          end.value, event.subscription.cancelAtPeriodEnd),
                     env.writeOk);
      }
    }
    response := Received;
  }
}
