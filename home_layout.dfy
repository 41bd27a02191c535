/**
 * The layout's reconciliation rule, run on every render of the shell: a
 * cached user whose email the context does not already hold is copied into
 * the context. Nothing flows the other way.
 */
module HomeLayout {
  import opened Interface
  import opened Store

  /** The writes of one render pass, given the cache entry and the context. */
  function ReconcileEffects(cache: CacheEntry, ctx: Option<User>): (r: seq<Effect>)
    ensures r != [] <==> cache.Present? && (ctx.None? || ctx.value.email != cache.user.email)
    ensures r != [] ==> r == [SetContext(Some(cache.user))]
  {
    if cache.Present? && (ctx.None? || ctx.value.email != cache.user.email) then
      [SetContext(Some(cache.user))]
    else
      []
  }

  /** The session after one render pass. */
  function Reconciled(s: Snapshot): Snapshot {
    Run(s, ReconcileEffects(s.cache, s.ctx))
  }

  /** A cached user meets an empty context or one with another email: the context becomes exactly that user. */
  lemma ReconcileAdoptsCachedUser(s: Snapshot)
    requires s.cache.Present?
    requires s.ctx.None? || s.ctx.value.email != s.cache.user.email
    ensures Reconciled(s).ctx == Some(s.cache.user)
    ensures Reconciled(s).log == s.log + [SetContext(Some(s.cache.user))]
  {
    RunStep(s, SetContext(Some(s.cache.user)), []);
  }

  /** After a pass with a cached user, the context holds a user with the cached email. */
  lemma ReconcileConverges(s: Snapshot)
    requires s.cache.Present?
    ensures Reconciled(s).ctx.Some? && Reconciled(s).ctx.value.email == s.cache.user.email
  {
    if s.ctx.None? || s.ctx.value.email != s.cache.user.email {
      ReconcileAdoptsCachedUser(s);
    }
  }

  /** When the emails already match the setter is not called: the session, log included, is unchanged. */
  lemma ReconcileNoSpuriousWrite(s: Snapshot)
    requires s.cache.Present? && s.ctx.Some? && s.ctx.value.email == s.cache.user.email
    ensures Reconciled(s) == s
  {
  }

  /** Matching is by email only: a context user with the cached email but other fields is kept as it is. */
  lemma ReconcileMatchesByEmailOnly(s: Snapshot, stale: User)
    requires s.cache.Present? && s.ctx == Some(stale)
    requires stale.email == s.cache.user.email && stale != s.cache.user
    ensures Reconciled(s).ctx == Some(stale) && Reconciled(s).ctx != Some(s.cache.user)
  {
  }

  /** A null or undefined cache entry leaves everything as it is, even a user in the context. */
  lemma ReconcileIgnoresEmptyCache(s: Snapshot)
    requires s.cache == Unknown || s.cache == Absent
    ensures Reconciled(s) == s
  {
  }

  /** Two passes are one pass. */
  lemma ReconcileIdempotent(s: Snapshot)
    ensures Reconciled(Reconciled(s)) == Reconciled(s)
  {
    if s.cache.Present? {
      ReconcileConverges(s);
      RunFrame(s, ReconcileEffects(s.cache, s.ctx));
      ReconcileNoSpuriousWrite(Reconciled(s));
    }
  }

  /** The pass only ever writes the context: token, cache and route are untouched. */
  lemma ReconcileIsOneWay(s: Snapshot)
    ensures Reconciled(s).token == s.token && Reconciled(s).cache == s.cache && Reconciled(s).route == s.route
  {
    RunFrame(s, ReconcileEffects(s.cache, s.ctx));
  }
}
