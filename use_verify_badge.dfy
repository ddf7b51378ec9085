/** The verification mutation of hooks/useVerifyBadge.ts. */
module UseVerifyBadge {
  import opened Backend
  import UseBadges
  import Text

  const InvalidBadgeIdFormat: string := "Invalid badge ID format"

  /** The verification `mutationFn`. Without an actor it throws
      `Actor not available` before anything else. `BigInt(badgeId)` is
      `parse`. Here the remote promise is awaited inside the `try`, so both a
      parse failure and a remote rejection land in the `catch`, which
      rethrows them as `Invalid badge ID format`. A resolved reply, `null`
      (not found) included, is returned as it is. The hook has no `onSuccess`
      and takes no cache: verifying never touches cached queries. */
  function VerifyBadgeMutation(actor: Option<Actor>, parse: string -> Option<BadgeId>, badgeId: string): (r: Run<Option<SkillBadge>>)
    ensures actor.None? ==> r == Run(Rejected(ActorNotAvailable), [])
    ensures actor.Some? && parse(badgeId).None? ==> r == Run(Rejected(InvalidBadgeIdFormat), [])
    ensures actor.Some? && parse(badgeId).Some? ==>
      var id := parse(badgeId).value;
      var reply := actor.value.verifyBadge(id);
      && r.calls == [VerifyBadge(id)]
      && (reply.Resolved? ==> r.outcome == reply)
      && (reply.Rejected? ==> r.outcome == Rejected(InvalidBadgeIdFormat))
  {
    if actor.None? then Run(Rejected(ActorNotAvailable), [])
    else
      match parse(badgeId)
      case None => Run(Rejected(InvalidBadgeIdFormat), [])
      case Some(id) =>
        var reply := actor.value.verifyBadge(id);
        Run(if reply.Resolved? then reply else Rejected(InvalidBadgeIdFormat), [VerifyBadge(id)])
  }

  /** A settled verification never rejects with anything but the two local
      messages: the remote's own reasons are not passed through. */
  lemma VerifyErrorsAreLocal(actor: Option<Actor>, parse: string -> Option<BadgeId>, badgeId: string)
    ensures var r := VerifyBadgeMutation(actor, parse, badgeId);
      r.outcome.Rejected? ==> r.outcome.message in {ActorNotAvailable, InvalidBadgeIdFormat}
  {
  }

  /** The verification mutation and the single-badge query issue the same
      remote calls; they agree whenever the remote resolves, and differ only
      in how failures surface: a bad id is `null` for the query and an error
      for the mutation; a remote rejection keeps its message in the query
      (the promise is not awaited) and becomes the format error in the
      mutation (it is). */
  lemma VerifyAgainstBadgeById(actor: Actor, parse: string -> Option<BadgeId>, badgeId: string)
    ensures var q := UseBadges.BadgeByIdQuery(Some(actor), parse, badgeId);
      var m := VerifyBadgeMutation(Some(actor), parse, badgeId);
      && q.calls == m.calls
      && (parse(badgeId).None? ==> q.outcome == Resolved(None) && m.outcome == Rejected(InvalidBadgeIdFormat))
      && (q.outcome.Resolved? && parse(badgeId).Some? ==> m.outcome == q.outcome)
      && (q.outcome.Rejected? ==> m.outcome == Rejected(InvalidBadgeIdFormat))
  {
  }

  /** A badge id as the mint page displays it (`badgeId.toString()`) is
      verified by asking the remote about that very id, provided `BigInt`
      reads decimal literals as decimal numbers. */
  lemma MintedIdVerifiesThatBadge(actor: Actor, parse: string -> Option<BadgeId>, id: BadgeId)
    requires forall s :: Text.ParseDecimal(s).Some? ==> parse(s) == Text.ParseDecimal(s)
    ensures VerifyBadgeMutation(Some(actor), parse, Text.IntToDecimal(id)).calls == [VerifyBadge(id)]
  {
    Text.IntDecimalRoundTrip(id);
  }
}
