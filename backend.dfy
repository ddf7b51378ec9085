/** The typed interface of the remote ledger canister (backend.d.ts), and the
    remote service itself as an opaque oracle.

    The ledger's behaviour is not visible to the client, so an `Actor` is a
    record of total functions: each remote method maps its arguments to the
    settled outcome of its promise. What the client does with those outcomes,
    and which remote methods it calls, is what the rest of the model is about. */
module Backend {

  /** The Option type of backend.d.ts (`{__kind__: "Some", value} | {__kind__: "None"}`);
      also used for the `T | null` and optional (`field?: T`) shapes of the interface. */
  datatype Option<T> = None | Some(value: T)

  /** `BadgeId = bigint` and `Time = bigint` (nanoseconds): unbounded integers. */
  type BadgeId = int
  type Time = int

  /** An Internet Computer principal, identified by its textual form
      (what `Principal.toString()` yields). */
  datatype Principal = Principal(text: string)

  datatype SkillBadge = SkillBadge(
    id: BadgeId,
    verified: bool,
    owner: Principal,
    skillName: string,
    description: Option<string>,
    level: Option<string>,
    issuer: Principal,
    issueTimestamp: Time)

  datatype UserProfile = UserProfile(name: string, email: Option<string>, organization: Option<string>)

  datatype UserRole = Admin | User | Guest

  /** The four arguments of `issueBadge(owner, skillName, description, level)`. */
  datatype IssueArgs = IssueArgs(owner: Principal, skillName: string, description: Option<string>, level: Option<string>)

  /** How a promise settles: with a value, or rejected with an `Error` whose
      `message` is given. */
  datatype Reply<T> = Resolved(value: T) | Rejected(message: string)

  /** The remote interface methods the core calls. */
  datatype Actor = Actor(
    getBadgesForUser: Principal -> Reply<seq<SkillBadge>>,
    verifyBadge: BadgeId -> Reply<Option<SkillBadge>>,
    issueBadge: IssueArgs -> Reply<BadgeId>)

  /** A record of one remote call the client issued. */
  datatype RemoteCall =
    | GetBadgesForUser(user: Principal)
    | VerifyBadge(id: BadgeId)
    | IssueBadge(args: IssueArgs)

  /** The message of the error the mutation hooks throw when no actor is
      available yet. */
  const ActorNotAvailable: string := "Actor not available"

  /** The settled result of a client operation together with the remote calls
      it issued, in order; `calls == []` means the remote was never contacted. */
  datatype Run<T> = Run(outcome: Reply<T>, calls: seq<RemoteCall>)
}
