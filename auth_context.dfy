/** The auth provider's subscription state: the default a signed-out user
    sees, how a check-subscription reply is normalised, when the state is
    reset, and the guard on using the context outside its provider. */
module AuthContext {
  import opened Wrappers

  datatype SubscriptionStatus = SubscriptionStatus(
    subscribed: bool,
    plan: string,
    status: string,
    subscriptionEnd: Option<string>,
    cancelAtPeriodEnd: bool,
    creditsBalance: int)

  const DefaultSubscription: SubscriptionStatus :=
    SubscriptionStatus(false, "free", "inactive", None, false, 15)

  /** The fields of a check-subscription reply; None is a missing or null field. */
  datatype Reply = Reply(
    subscribed: Option<bool>,
    plan: Option<string>,
    status: Option<string>,
    subscriptionEnd: Option<string>,
    cancelAtPeriodEnd: Option<bool>,
    creditsBalance: Option<int>)

  /** The reply as stored. `||` replaces every falsy value (a missing field,
      false, the empty string) by the default; `??` on the balance replaces
      only a missing one, so a balance of 0 is kept. */
  function Normalise(d: Reply): (s: SubscriptionStatus)
    ensures s.subscribed <==> d.subscribed == Some(true)
    ensures s.plan == (if d.plan.Some? && d.plan.value != "" then d.plan.value else "free")
    ensures s.status == (if d.status.Some? && d.status.value != "" then d.status.value else "inactive")
    ensures s.subscriptionEnd.Some? ==> s.subscriptionEnd == d.subscriptionEnd && s.subscriptionEnd.value != ""
    ensures d.subscriptionEnd.Some? && d.subscriptionEnd.value != "" ==> s.subscriptionEnd == d.subscriptionEnd
    ensures s.cancelAtPeriodEnd <==> d.cancelAtPeriodEnd == Some(true)
    ensures s.creditsBalance == (if d.creditsBalance.Some? then d.creditsBalance.value else 15)
  {
    SubscriptionStatus(
      d.subscribed == Some(true),
      if d.plan.Some? && d.plan.value != "" then d.plan.value else "free",
      if d.status.Some? && d.status.value != "" then d.status.value else "inactive",
      if d.subscriptionEnd.Some? && d.subscriptionEnd.value != "" then d.subscriptionEnd else None,
      d.cancelAtPeriodEnd == Some(true),
      if d.creditsBalance.Some? then d.creditsBalance.value else 15)
  }

  /** An empty reply normalises to the default. */
  lemma EmptyReplyIsDefault()
    ensures Normalise(Reply(None, None, None, None, None, None)) == DefaultSubscription
  {
  }

  /** The two operators part ways: an empty plan becomes "free", but a zero
      balance stays zero rather than becoming 15. */
  lemma OrVersusNullish(d: Reply)
    requires d.plan == Some("") && d.creditsBalance == Some(0)
    ensures Normalise(d).plan == "free" && Normalise(d).creditsBalance == 0
  {
  }

  /** A stored status sent back as a reply, every field present. */
  function AsReply(s: SubscriptionStatus): Reply {
    Reply(Some(s.subscribed), Some(s.plan), Some(s.status), s.subscriptionEnd, Some(s.cancelAtPeriodEnd),
          Some(s.creditsBalance))
  }

  /** Normalising is idempotent: a normalised status read back comes out unchanged. */
  lemma NormaliseIdempotent(d: Reply)
    ensures Normalise(AsReply(Normalise(d))) == Normalise(d)
  {
  }

  datatype Session = Session(accessToken: string, user: Option<string>)

  /** What the check-subscription call produced: an error, or a body
      (None when the body is null, so reading a field throws). */
  datatype CheckReply = CheckError | CheckBody(data: Option<Reply>)

  /** What refreshSubscription leaves in place, given the session its closure
      reads: the default without an access token, the current status when the
      call errs or its body is null, otherwise the normalised reply. */
  function RefreshedStatus(session: Option<Session>, current: SubscriptionStatus, reply: CheckReply)
    : (s: SubscriptionStatus)
    ensures session.None? || session.value.accessToken == "" ==> s == DefaultSubscription
    ensures session.Some? && session.value.accessToken != "" ==>
              s == if reply.CheckBody? && reply.data.Some? then Normalise(reply.data.value) else current
  {
    if session.None? || session.value.accessToken == "" then DefaultSubscription
    else if reply.CheckError? || reply.data.None? then current
    else Normalise(reply.data.value)
  }

  /** The deferred refresh as written: the listener and the getSession
      callback were created on mount, so the refresh they schedule reads the
      mount-time session, which is null. */
  function DeferredRefreshAsWritten(current: SubscriptionStatus, reply: CheckReply): (s: SubscriptionStatus)
    ensures s == DefaultSubscription
  {
    RefreshedStatus(None, current, reply)
  }

  /** As written, the refresh after a sign-in resets the status to the free
      default, even for a paying user whose check-subscription reply says so;
      the refresh with the new session would show the reply. */
  lemma SignInRefreshShowsFree(newSession: Session, current: SubscriptionStatus, reply: Reply)
    requires newSession.accessToken != "" && newSession.user.Some?
    requires reply.plan == Some("pro") && reply.subscribed == Some(true)
    ensures DeferredRefreshAsWritten(current, CheckBody(Some(reply))) == DefaultSubscription
    ensures DeferredRefreshAsWritten(current, CheckBody(Some(reply))).plan == "free"
    ensures RefreshedStatus(Some(newSession), current, CheckBody(Some(reply))).plan == "pro"
    ensures RefreshedStatus(Some(newSession), current, CheckBody(Some(reply))).subscribed
  {
  }

  /** With the refresh reading the new session, as intended, a signed-in
      user's reply is what the provider shows. */
  lemma SignInShowsReply(newSession: Session, current: SubscriptionStatus, reply: Reply)
    requires newSession.accessToken != "" && newSession.user.Some?
    ensures RefreshedStatus(Some(newSession), current, CheckBody(Some(reply))) == Normalise(reply)
  {
  }

  class AuthState {
    var session: Option<Session>
    var user: Option<string>
    var loading: bool
    var subscription: SubscriptionStatus

    constructor ()
      ensures session.None? && user.None? && loading && subscription == DefaultSubscription
    {
      session := None;
      user := None;
      loading := true;
      subscription := DefaultSubscription;
    }

    /** Without an access token the default comes back; an error or a thrown
        exception keeps what was there; otherwise the normalised reply. */
    method RefreshSubscription(reply: CheckReply)
      modifies this`subscription
      ensures subscription == RefreshedStatus(session, old(subscription), reply)
    {
      if session.None? || session.value.accessToken == "" {
        subscription := DefaultSubscription;
        return;
      }
      if reply.CheckError? || reply.data.None? {
        return;
      }
      subscription := Normalise(reply.data.value);
    }

    /** The auth listener: takes the new session, stops loading, and either
        resets the subscription (no user) or refreshes it. The refresh reads
        the new session, as intended; `reply` is what check-subscription answers. */
    method OnAuthStateChange(newSession: Option<Session>, reply: CheckReply)
      modifies this
      ensures session == newSession && !loading
      ensures user == (if newSession.Some? then newSession.value.user else None)
      ensures user.None? ==> subscription == DefaultSubscription
      ensures user.Some? ==> subscription == RefreshedStatus(newSession, old(subscription), reply)
    {
      session := newSession;
      user := if newSession.Some? then newSession.value.user else None;
      loading := false;
      if user.None? {
        subscription := DefaultSubscription;
      } else {
        RefreshSubscription(reply);
      }
    }

    /** The initial getSession: the same three updates as the listener, and a
        refresh only when there is a user (no reset otherwise). */
    method OnInitialSession(existing: Option<Session>, reply: CheckReply)
      modifies this
      ensures session == existing && !loading
      ensures user == (if existing.Some? then existing.value.user else None)
      ensures user.None? ==> subscription == old(subscription)
      ensures user.Some? ==> subscription == RefreshedStatus(existing, old(subscription), reply)
    {
      session := existing;
      user := if existing.Some? then existing.value.user else None;
      loading := false;
      if user.Some? {
        RefreshSubscription(reply);
      }
    }

    /** Signing out resets the subscription; the session is cleared by the
        listener when the sign-out event arrives. */
    method SignOut()
      modifies this`subscription
      ensures subscription == DefaultSubscription
    {
      subscription := DefaultSubscription;
    }
  }

  /** useAuth: the provider's value, or the error thrown outside a provider. */
  function UseAuth(context: Option<AuthState>): (r: Result<AuthState, string>)
    ensures r.Ok? <==> context.Some?
    ensures r.Ok? ==> r.value == context.value
    ensures r.Err? ==> r.error == "useAuth must be used within an AuthProvider"
  {
    if context.Some? then Ok(context.value) else Err("useAuth must be used within an AuthProvider")
  }
}
