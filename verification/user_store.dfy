/**
 * The client-side user store: the signed-in user's plan, credits and upload count, the actions
 * that replace the user record, and the gates the pages read (may the user upload, may they ask,
 * how much is left, how much of the upload quota is used).
 */
module UserStore {
  import opened Wrappers

  datatype Plan = Free | Pro

  /** `User` */
  datatype User = User(id: string, email: string, plan: Plan, credits: int, uploadCount: int,
                       maxUploads: int, maxCredits: int)

  /** A JavaScript number a division produced: a finite value, or Infinity/NaN from a division by 0. */
  datatype Ratio = Finite(value: real) | NotFinite

  // ---------------------------------------------------------------------------------------
  // Computed values (`get().user`)

  /** `canUpload`: a signed-in user on pro, or one below the upload quota. */
  function CanUpload(user: Option<User>): (ok: bool)
    ensures user.None? ==> !ok
    ensures user.Some? && user.value.plan == Pro ==> ok
    ensures user.Some? && user.value.plan == Free ==> (ok <==> user.value.uploadCount < user.value.maxUploads)
  {
    match user
    case None => false
    case Some(u) => u.plan == Pro || u.uploadCount < u.maxUploads
  }

  /** `canAsk`: a signed-in user on pro, or one with credits left. */
  function CanAsk(user: Option<User>): (ok: bool)
    ensures user.None? ==> !ok
    ensures user.Some? && user.value.plan == Pro ==> ok
    ensures user.Some? && user.value.plan == Free ==> (ok <==> user.value.credits > 0)
  {
    match user
    case None => false
    case Some(u) => u.plan == Pro || u.credits > 0
  }

  /** `remainingUploads`: `max(0, maxUploads - uploadCount)`, 0 without a user. */
  function RemainingUploads(user: Option<User>): (n: int)
    ensures n >= 0
    ensures user.None? ==> n == 0
    ensures user.Some? && user.value.uploadCount >= 0 ==> n <= Max(0, user.value.maxUploads)
    ensures user.Some? && user.value.uploadCount <= user.value.maxUploads ==>
      n == user.value.maxUploads - user.value.uploadCount
    ensures user.Some? && user.value.uploadCount > user.value.maxUploads ==> n == 0
  {
    match user
    case None => 0
    case Some(u) => Max(0, u.maxUploads - u.uploadCount)
  }

  /** `remainingCredits`: `max(0, credits)`, 0 without a user. */
  function RemainingCredits(user: Option<User>): (n: int)
    ensures n >= 0
    ensures user.None? ==> n == 0
    ensures user.Some? && user.value.credits >= 0 ==> n == user.value.credits
    ensures user.Some? && user.value.credits < 0 ==> n == 0
  {
    match user
    case None => 0
    case Some(u) => Max(0, u.credits)
  }

  /** `usagePercentage`: 0 without a user or on pro, else the used share of the upload quota. */
  function UsagePercentage(user: Option<User>): (p: Ratio)
    ensures user.None? || user.value.plan == Pro ==> p == Finite(0.0)
    ensures user.Some? && user.value.plan == Free && user.value.maxUploads == 0 ==> p == NotFinite
    ensures user.Some? && user.value.plan == Free && user.value.maxUploads != 0 ==>
      p.Finite? && p.value * user.value.maxUploads as real == 100.0 * user.value.uploadCount as real
  {
    match user
    case None => Finite(0.0)
    case Some(u) =>
      if u.plan == Pro then Finite(0.0)
      else if u.maxUploads == 0 then NotFinite
      else
        var q := u.uploadCount as real / u.maxUploads as real;
        assert q * u.maxUploads as real == u.uploadCount as real;
        assert q * 100.0 * u.maxUploads as real == 100.0 * (q * u.maxUploads as real);
        Finite(q * 100.0)
  }

  /**
   * For a user on the free plan the gates agree with the counters: they may upload exactly when
   * uploads remain and ask exactly when credits remain.
   */
  lemma GatesMatchRemaining(u: User)
    requires u.plan == Free
    ensures CanUpload(Some(u)) <==> RemainingUploads(Some(u)) > 0
    ensures CanAsk(Some(u)) <==> RemainingCredits(Some(u)) > 0
  {
  }

  /**
   * On the free plan, with a positive quota and a count within it, the usage lies between 0 and
   * 100, and it is below 100 exactly when the user may still upload.
   */
  lemma UsageWithinQuota(u: User)
    requires u.plan == Free && u.maxUploads > 0 && 0 <= u.uploadCount <= u.maxUploads
    ensures UsagePercentage(Some(u)).Finite?
    ensures 0.0 <= UsagePercentage(Some(u)).value <= 100.0
    ensures UsagePercentage(Some(u)).value < 100.0 <==> CanUpload(Some(u))
  {
    var q := u.uploadCount as real / u.maxUploads as real;
    assert q * u.maxUploads as real == u.uploadCount as real;
    if u.uploadCount < u.maxUploads {
      assert q < 1.0;
    } else {
      assert q == 1.0;
    }
  }

  /** Each upload of a free user takes one from the remaining uploads while any remain. */
  lemma UploadUsesOne(u: User)
    requires u.plan == Free && u.uploadCount < u.maxUploads
    ensures RemainingUploads(Some(u.(uploadCount := u.uploadCount + 1))) == RemainingUploads(Some(u)) - 1
    ensures CanUpload(Some(u.(uploadCount := u.uploadCount + 1))) <==> u.uploadCount + 1 < u.maxUploads
  {
  }

  /** The demo user of `initializeDemoUser`. */
  const DemoUser := User("1", "user@example.com", Free, 50, 0, 5, 50)

  /** The demo user starts with five uploads and fifty credits, and may upload and ask. */
  lemma DemoUserGates()
    ensures CanUpload(Some(DemoUser)) && CanAsk(Some(DemoUser))
    ensures RemainingUploads(Some(DemoUser)) == 5 && RemainingCredits(Some(DemoUser)) == 50
    ensures UsagePercentage(Some(DemoUser)) == Finite(0.0)
  {
  }

  // ---------------------------------------------------------------------------------------
  // The store and its actions

  class Store {
    var user: Option<User>
    var isLoading: bool
    var error: Option<string>

    /** The initial state: no user, not loading, no error. */
    constructor ()
      ensures user.None? && !isLoading && error.None?
    {
      user := None;
      isLoading := false;
      error := None;
    }

    method SetUser(u: User)
      modifies this
      ensures user == Some(u) && isLoading == old(isLoading) && error == old(error)
    {
      user := Some(u);
    }

    /** `updateCredits`: the user's credits become `credits`; nothing happens without a user. */
    method UpdateCredits(credits: int)
      modifies this
      ensures old(user).None? ==> user.None?
      ensures old(user).Some? ==> user == Some(old(user).value.(credits := credits))
      ensures isLoading == old(isLoading) && error == old(error)
    {
      if user.Some? {
        user := Some(user.value.(credits := credits));
      }
    }

    /** `incrementUploadCount`: one more upload and nothing else changes; no user, no change. */
    method IncrementUploadCount()
      modifies this
      ensures old(user).None? ==> user.None?
      ensures old(user).Some? ==> user == Some(old(user).value.(uploadCount := old(user).value.uploadCount + 1))
      ensures isLoading == old(isLoading) && error == old(error)
    {
      if user.Some? {
        user := Some(user.value.(uploadCount := user.value.uploadCount + 1));
      }
    }

    /** `resetUsage`: no uploads used and the credits back at their maximum. */
    method ResetUsage()
      modifies this
      ensures old(user).None? ==> user.None?
      ensures old(user).Some? ==> user == Some(old(user).value.(uploadCount := 0, credits := old(user).value.maxCredits))
      ensures isLoading == old(isLoading) && error == old(error)
      ensures user.Some? ==> RemainingUploads(user) == Max(0, user.value.maxUploads)
    {
      if user.Some? {
        user := Some(user.value.(uploadCount := 0, credits := user.value.maxCredits));
      }
    }

    method SetLoading(loading: bool)
      modifies this
      ensures isLoading == loading && user == old(user) && error == old(error)
    {
      isLoading := loading;
    }

    method SetError(e: Option<string>)
      modifies this
      ensures error == e && user == old(user) && isLoading == old(isLoading)
    {
      error := e;
    }

    /** `initializeDemoUser`: the demo user is signed in only when nobody is. */
    method InitializeDemoUser()
      modifies this
      ensures old(user).Some? ==> user == old(user)
      ensures old(user).None? ==> user == Some(DemoUser)
      ensures isLoading == old(isLoading) && error == old(error)
    {
      if user.None? {
        SetUser(DemoUser);
      }
    }
  }
}
