/** The issue mutation of hooks/useIssueBadge.ts: forward to the remote,
    and on success invalidate the two badge query families. */
module UseIssueBadge {
  import opened Backend
  import opened QueryCache
  import UseBadges

  /** The families `onSuccess` invalidates: `['callerBadges']` and `['badge']`. */
  const CallerBadgesFamily: QueryKey := [Str(UseBadges.CallerBadgesName)]
  const BadgeFamily: QueryKey := [Str(UseBadges.BadgeName)]

  /** The issue `mutationFn`: without an actor it throws `Actor not available`
      and contacts nobody; otherwise it forwards the four arguments unchanged
      and settles as the remote's `issueBadge` does. */
  function IssueBadgeMutation(actor: Option<Actor>, args: IssueArgs): (r: Run<BadgeId>)
    ensures actor.None? ==> r == Run(Rejected(ActorNotAvailable), [])
    ensures actor.Some? ==> r.calls == [IssueBadge(args)] && r.outcome == actor.value.issueBadge(args)
  {
    if actor.None? then Run(Rejected(ActorNotAvailable), [])
    else Run(actor.value.issueBadge(args), [IssueBadge(args)])
  }

  /** The cache after `onSuccess`: every query in either badge family is
      stale; every other query, profile and role queries among them, is
      unchanged; no entry is added or removed. */
  function AfterIssue(entries: map<QueryKey, bool>): (r: map<QueryKey, bool>)
    ensures r.Keys == entries.Keys
    ensures forall k :: k in r && (IsPrefix(CallerBadgesFamily, k) || IsPrefix(BadgeFamily, k)) ==> r[k]
    ensures forall k :: k in r && !IsPrefix(CallerBadgesFamily, k) && !IsPrefix(BadgeFamily, k) ==> r[k] == entries[k]
  {
    Invalidate(Invalidate(entries, CallerBadgesFamily), BadgeFamily)
  }

  /** `mutateAsync`: run the `mutationFn`; only when it resolves does
      `onSuccess` run its two invalidations. */
  method IssueAndInvalidate(cache: Cache, actor: Option<Actor>, args: IssueArgs) returns (r: Run<BadgeId>)
    modifies cache
    ensures r == IssueBadgeMutation(actor, args)
    ensures cache.entries == if r.outcome.Resolved? then AfterIssue(old(cache.entries)) else old(cache.entries)
  {
    r := IssueBadgeMutation(actor, args);
    if r.outcome.Resolved? {
      cache.InvalidateQueries(CallerBadgesFamily);
      cache.InvalidateQueries(BadgeFamily);
    }
  }

  /** After a successful issue, reading anyone's badge list or any single
      badge through the read hooks goes to the remote again. */
  lemma IssueForcesBadgeRefetch(entries: map<QueryKey, bool>, identity: Option<Principal>, badgeId: string)
    ensures var after := AfterIssue(entries);
      var caller := UseBadges.CallerBadgesKey(identity);
      var single := UseBadges.BadgeKey(badgeId);
      NeedsFetch(after, caller) && NeedsFetch(after, single)
  {
    var caller := UseBadges.CallerBadgesKey(identity);
    var single := UseBadges.BadgeKey(badgeId);
    assert caller[..1] == CallerBadgesFamily;
    assert single[..1] == BadgeFamily;
  }

  /** Queries outside the two badge families keep their flags, whatever the
      remote answered. */
  lemma IssueKeepsOtherFamilies(entries: map<QueryKey, bool>, k: QueryKey)
    requires k in entries
    requires |k| >= 1 && k[0] != Str(UseBadges.CallerBadgesName) && k[0] != Str(UseBadges.BadgeName)
    ensures AfterIssue(entries)[k] == entries[k]
  {
  }
}
