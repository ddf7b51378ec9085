/** The read hooks of hooks/useBadges.ts: for each query, its key, when it is
    enabled, and what its `queryFn` settles to. */
module UseBadges {
  import opened Backend
  import opened QueryCache

  const CallerBadgesName: string := "callerBadges"
  const BadgeName: string := "badge"

  // ---------------------------------------------------------------------------
  // useGetCallerBadges
  // ---------------------------------------------------------------------------

  /** `['callerBadges', identity?.getPrincipal().toString()]`. */
  function CallerBadgesKey(identity: Option<Principal>): (k: QueryKey)
    ensures |k| == 2 && k[0] == Str(CallerBadgesName)
    ensures identity.None? ==> k[1] == Undefined
    ensures identity.Some? ==> k[1] == Str(identity.value.text)
  {
    [Str(CallerBadgesName), if identity.Some? then Str(identity.value.text) else Undefined]
  }

  /** `!!actor && !!identity && !actorFetching`. */
  predicate CallerBadgesEnabled(actor: Option<Actor>, identity: Option<Principal>, actorFetching: bool) {
    actor.Some? && identity.Some? && !actorFetching
  }

  /** The caller-badges `queryFn`: without an actor or an identity it settles
      to `[]` without contacting the remote; otherwise it is exactly the
      remote's `getBadgesForUser` for the caller, a rejection included. */
  function CallerBadgesQuery(actor: Option<Actor>, identity: Option<Principal>): (r: Run<seq<SkillBadge>>)
    ensures actor.None? || identity.None? ==> r == Run(Resolved([]), [])
    ensures actor.Some? && identity.Some? ==>
      r.calls == [GetBadgesForUser(identity.value)] && r.outcome == actor.value.getBadgesForUser(identity.value)
  {
    if actor.None? || identity.None? then Run(Resolved([]), [])
    else
      var user := identity.value;
      Run(actor.value.getBadgesForUser(user), [GetBadgesForUser(user)])
  }

  /** Whenever the query is enabled, its `queryFn` asks the remote about
      exactly the principal its key names. */
  lemma EnabledCallerQueryAsksKeyPrincipal(actor: Option<Actor>, identity: Option<Principal>, actorFetching: bool)
    requires CallerBadgesEnabled(actor, identity, actorFetching)
    ensures exists p :: CallerBadgesQuery(actor, identity).calls == [GetBadgesForUser(p)] && CallerBadgesKey(identity)[1] == Str(p.text)
  {
    var p := identity.value;
    assert CallerBadgesQuery(actor, identity).calls == [GetBadgesForUser(p)] && CallerBadgesKey(identity)[1] == Str(p.text);
  }

  /** Before an identity is available the query is disabled, and even run
      by hand its `queryFn` settles to `[]` without contacting the remote. */
  lemma NoIdentityNoRemote(actor: Option<Actor>, actorFetching: bool)
    ensures !CallerBadgesEnabled(actor, None, actorFetching)
    ensures CallerBadgesQuery(actor, None) == Run(Resolved([]), [])
    ensures CallerBadgesKey(None) == [Str(CallerBadgesName), Undefined]
  {
  }

  /** Different callers have their badge lists cached under different keys.
      This rests on a principal being identified by its textual form, as
      `Backend.Principal` is. */
  lemma CallerBadgesKeyInjective(a: Option<Principal>, b: Option<Principal>)
    requires CallerBadgesKey(a) == CallerBadgesKey(b)
    ensures a == b
  {
    var ka, kb := CallerBadgesKey(a), CallerBadgesKey(b);
    assert ka[1] == kb[1];
  }

  // ---------------------------------------------------------------------------
  // useGetBadgeById
  // ---------------------------------------------------------------------------

  /** `['badge', badgeId]`. */
  function BadgeKey(badgeId: string): (k: QueryKey)
    ensures |k| == 2 && k[0] == Str(BadgeName) && k[1] == Str(badgeId)
  {
    [Str(BadgeName), Str(badgeId)]
  }

  /** `!!actor && !actorFetching && !!badgeId`: the empty string is falsy. */
  predicate BadgeEnabled(actor: Option<Actor>, actorFetching: bool, badgeId: string) {
    actor.Some? && !actorFetching && badgeId != ""
  }

  /** The single-badge `queryFn`. `BigInt(badgeId)` is `parse`, where `None`
      means it threw. Without an actor it settles to `null`. Inside the `try`,
      a parse failure throws synchronously and the `catch` turns it into
      `null`, with no remote call. The remote promise, though, is returned
      without `await`, so it settles outside the `try`: a remote rejection
      reaches the caller as it is. */
  function BadgeByIdQuery(actor: Option<Actor>, parse: string -> Option<BadgeId>, badgeId: string): (r: Run<Option<SkillBadge>>)
    ensures actor.None? ==> r == Run(Resolved(None), [])
    ensures actor.Some? && parse(badgeId).None? ==> r == Run(Resolved(None), [])
    ensures actor.Some? && parse(badgeId).Some? ==>
      var id := parse(badgeId).value;
      r.calls == [VerifyBadge(id)] && r.outcome == actor.value.verifyBadge(id)
  {
    if actor.None? then Run(Resolved(None), [])
    else
      match parse(badgeId)
      case None => Run(Resolved(None), [])
      case Some(id) => Run(actor.value.verifyBadge(id), [VerifyBadge(id)])
  }

  /** The single-badge query runs only for a non-empty id with a ready
      actor, and then asks the remote exactly when the id parses. */
  lemma EnabledBadgeQuery(actor: Option<Actor>, parse: string -> Option<BadgeId>, actorFetching: bool, badgeId: string)
    requires BadgeEnabled(actor, actorFetching, badgeId)
    ensures BadgeByIdQuery(actor, parse, badgeId).calls != [] <==> parse(badgeId).Some?
  {
  }

  /** A remote rejection is not turned into `null`: the single-badge query
      rejects with the remote's own message. */
  lemma BadgeByIdRemoteRejectionEscapes(actor: Actor, parse: string -> Option<BadgeId>, badgeId: string, message: string)
    requires parse(badgeId).Some? && actor.verifyBadge(parse(badgeId).value) == Rejected(message)
    ensures BadgeByIdQuery(Some(actor), parse, badgeId).outcome == Rejected(message)
  {
  }

  /** The `catch` only ever produces `null`, and only for ids that fail to
      parse: whenever the query settles to a badge, or rejects, the remote was
      asked once, about the parsed id. */
  lemma BadgeByIdNonNullMeansRemote(actor: Option<Actor>, parse: string -> Option<BadgeId>, badgeId: string)
    requires BadgeByIdQuery(actor, parse, badgeId).outcome != Resolved(None)
    ensures actor.Some? && parse(badgeId).Some?
    ensures BadgeByIdQuery(actor, parse, badgeId).calls == [VerifyBadge(parse(badgeId).value)]
  {
  }
}
