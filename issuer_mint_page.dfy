/** The issuer mint page of pages/IssuerMintPage.tsx: its access gate, the
    validation and normalisation of `handleSubmit`, and the five pieces of
    form state that submitting updates. */
module IssuerMintPage {
  import opened Backend
  import opened Text
  import opened QueryCache
  import opened UseIssueBadge

  const OwnerMissing: string := "Please enter the student Principal ID"
  const SkillMissing: string := "Please enter the skill name"
  const PrincipalMalformed: string := "Invalid Principal ID format"
  const IssueSucceeded: string := "Badge issued successfully!"
  const IssueFailedFallback: string := "Failed to issue badge. Please try again."

  // ---------------------------------------------------------------------------
  // Access gate
  // ---------------------------------------------------------------------------

  /** What the page renders. */
  datatype View = LoadingSkeleton | AccessDenied | MintFormView

  /** While the admin query loads, a skeleton; then the form only for an
      authenticated caller whose `isAdmin` data is `true` (an absent answer
      is falsy); every other caller is denied. */
  function Gate(adminLoading: bool, authenticated: bool, isAdmin: Option<bool>): (v: View)
    ensures v == LoadingSkeleton <==> adminLoading
    ensures v == MintFormView <==> !adminLoading && authenticated && isAdmin == Some(true)
    ensures v == AccessDenied <==> !adminLoading && !(authenticated && isAdmin == Some(true))
  {
    if adminLoading then LoadingSkeleton
    else if !authenticated || isAdmin != Some(true) then AccessDenied
    else MintFormView
  }

  // ---------------------------------------------------------------------------
  // Validation and normalisation
  // ---------------------------------------------------------------------------

  /** The four text inputs of the form. */
  datatype Fields = Fields(owner: string, skill: string, description: string, level: string)

  const EmptyFields: Fields := Fields("", "", "", "")

  /** `!s.trim()`: the field holds white space at most. */
  predicate Blank(s: string) {
    Trim(s) == []
  }

  /** `s.trim() || null`: an optional field is absent when blank, and trimmed
      otherwise. */
  function OrNull(s: string): (r: Option<string>)
    ensures r.None? <==> AllWhiteSpace(s)
    ensures r.Some? ==> r.value == Trim(s)
  {
    BlankIffWhiteSpace(s);
    if Trim(s) == [] then None else Some(Trim(s))
  }

  /** A present optional field is non-empty and already trimmed. */
  lemma OrNullTrimmed(s: string)
    ensures OrNull(s).Some? ==> OrNull(s).value != [] && Trim(OrNull(s).value) == OrNull(s).value
  {
    TrimIdempotent(s);
  }

  datatype Validation = Valid(args: IssueArgs) | Invalid(message: string)

  /** The three checks of `handleSubmit`, in order, stopping at the first
      that fails: owner blank, skill blank, owner not a principal (the text
      is `Principal.fromText`, given as `fromText`, `None` meaning it threw).
      When all pass, the issue arguments are the parsed trimmed owner, the
      trimmed skill and the two optional fields. */
  function Validate(f: Fields, fromText: string -> Option<Principal>): (r: Validation)
    ensures r == Invalid(OwnerMissing) <==> Blank(f.owner)
    ensures r == Invalid(SkillMissing) <==> !Blank(f.owner) && Blank(f.skill)
    ensures r == Invalid(PrincipalMalformed) <==>
      !Blank(f.owner) && !Blank(f.skill) && fromText(Trim(f.owner)).None?
    ensures r.Valid? <==>
      !Blank(f.owner) && !Blank(f.skill) && fromText(Trim(f.owner)).Some?
    ensures r.Valid? ==>
      r.args == IssueArgs(fromText(Trim(f.owner)).value, Trim(f.skill), OrNull(f.description), OrNull(f.level))
  {
    if Trim(f.owner) == [] then Invalid(OwnerMissing)
    else if Trim(f.skill) == [] then Invalid(SkillMissing)
    else match fromText(Trim(f.owner))
      case None => Invalid(PrincipalMalformed)
      case Some(owner) =>
        Valid(IssueArgs(owner, Trim(f.skill), OrNull(f.description), OrNull(f.level)))
  }

  /** Arguments that pass validation are normalised: the skill name is
      non-empty and has no surrounding white space, and each optional field
      is either absent or non-empty and trimmed. */
  lemma ValidArgsAreNormalised(f: Fields, fromText: string -> Option<Principal>)
    requires Validate(f, fromText).Valid?
    ensures var a := Validate(f, fromText).args;
      && a.skillName != [] && Trim(a.skillName) == a.skillName
      && (a.description.Some? ==> a.description.value != [] && Trim(a.description.value) == a.description.value)
      && (a.level.Some? ==> a.level.value != [] && Trim(a.level.value) == a.level.value)
  {
    BlankIffWhiteSpace(f.skill);
    TrimIdempotent(f.skill);
    OrNullTrimmed(f.description);
    OrNullTrimmed(f.level);
  }

  /** Validation depends on nothing but the owner when the owner is blank,
      and on nothing but owner and skill when the skill is blank. */
  lemma EarlierChecksWin(f: Fields, g: Fields, p: string -> Option<Principal>, q: string -> Option<Principal>)
    ensures AllWhiteSpace(f.owner) && AllWhiteSpace(g.owner) ==> Validate(f, p) == Validate(g, q)
    ensures f.owner == g.owner && !AllWhiteSpace(f.owner) && AllWhiteSpace(f.skill) && AllWhiteSpace(g.skill)
      ==> Validate(f, p) == Validate(g, q)
  {
    BlankIffWhiteSpace(f.owner);
    BlankIffWhiteSpace(g.owner);
    BlankIffWhiteSpace(f.skill);
    BlankIffWhiteSpace(g.skill);
  }

  // ---------------------------------------------------------------------------
  // Submitting
  // ---------------------------------------------------------------------------

  /** The form state: the four inputs and the id of the last minted badge. */
  datatype MintState = MintState(fields: Fields, mintedBadgeId: Option<string>)

  /** The toast the page shows. */
  datatype Toast = ToastError(message: string) | ToastSuccess(message: string)

  /** What one submission does: the new form state, the toast, the remote
      calls and whether a badge was issued (which is what runs `onSuccess`). */
  datatype Submission = Submission(state: MintState, toast: Toast, calls: seq<RemoteCall>, issued: bool)

  /** What `handleSubmit` does once the issue mutation has settled: on
      success, record the id's decimal string and clear the four inputs; on
      failure, keep the state and report the error's message (or a fallback
      when it is empty). */
  function Settle(s: MintState, run: Run<BadgeId>): Submission {
    match run.outcome
    case Resolved(id) =>
      Submission(MintState(EmptyFields, Some(IntToDecimal(id))), ToastSuccess(IssueSucceeded), run.calls, true)
    case Rejected(message) =>
      Submission(s, ToastError(if message == "" then IssueFailedFallback else message), run.calls, false)
  }

  /** `handleSubmit` as a function of the state it starts from. */
  function HandleSubmit(s: MintState, fromText: string -> Option<Principal>, actor: Option<Actor>): Submission {
    match Validate(s.fields, fromText)
    case Invalid(message) => Submission(s, ToastError(message), [], false)
    case Valid(args) => Settle(s, IssueBadgeMutation(actor, args))
  }

  /** The form's submit event. The owner and skill inputs are `required`,
      so the browser refuses to submit while either is empty and
      `handleSubmit` does not run at all; `None` is that case. */
  function OnSubmit(s: MintState, fromText: string -> Option<Principal>, actor: Option<Actor>): Option<Submission> {
    if s.fields.owner == [] || s.fields.skill == [] then None
    else Some(HandleSubmit(s, fromText, actor))
  }

  /** Behind the `required` attribute, the blank checks of `handleSubmit`
      only ever see an input made of one or more white-space characters, and
      a submission the browser lets through reports such an input just as
      `handleSubmit` does. */
  lemma RequiredLeavesWhiteSpace(s: MintState, fromText: string -> Option<Principal>, actor: Option<Actor>)
    requires OnSubmit(s, fromText, actor).Some?
    ensures Blank(s.fields.owner) ==> |s.fields.owner| >= 1 && AllWhiteSpace(s.fields.owner)
    ensures Blank(s.fields.skill) ==> |s.fields.skill| >= 1 && AllWhiteSpace(s.fields.skill)
  {
    BlankIffWhiteSpace(s.fields.owner);
    BlankIffWhiteSpace(s.fields.skill);
  }

  /** A blank owner is reported, whatever the other fields hold, and nothing
      else happens. */
  lemma BlankOwnerRejected(s: MintState, fromText: string -> Option<Principal>, actor: Option<Actor>)
    requires AllWhiteSpace(s.fields.owner)
    ensures HandleSubmit(s, fromText, actor) == Submission(s, ToastError(OwnerMissing), [], false)
  {
    BlankIffWhiteSpace(s.fields.owner);
  }

  /** With an owner but a blank skill, the skill is reported and nothing else
      happens. */
  lemma BlankSkillRejected(s: MintState, fromText: string -> Option<Principal>, actor: Option<Actor>)
    requires !AllWhiteSpace(s.fields.owner) && AllWhiteSpace(s.fields.skill)
    ensures HandleSubmit(s, fromText, actor) == Submission(s, ToastError(SkillMissing), [], false)
  {
    BlankIffWhiteSpace(s.fields.owner);
    BlankIffWhiteSpace(s.fields.skill);
  }

  /** An owner that is not a principal is reported and nothing else happens. */
  lemma MalformedOwnerRejected(s: MintState, fromText: string -> Option<Principal>, actor: Option<Actor>)
    requires !AllWhiteSpace(s.fields.owner) && !AllWhiteSpace(s.fields.skill)
    requires fromText(Trim(s.fields.owner)).None?
    ensures HandleSubmit(s, fromText, actor) == Submission(s, ToastError(PrincipalMalformed), [], false)
  {
    BlankIffWhiteSpace(s.fields.owner);
    BlankIffWhiteSpace(s.fields.skill);
  }

  /** A form that passes validation is sent to the remote once, with the
      normalised arguments (when an actor is available). */
  lemma ValidFormIsIssued(s: MintState, fromText: string -> Option<Principal>, actor: Option<Actor>)
    requires Validate(s.fields, fromText).Valid?
    ensures var f := s.fields;
      HandleSubmit(s, fromText, actor).calls ==
        if actor.None? then []
        else [IssueBadge(IssueArgs(fromText(Trim(f.owner)).value, Trim(f.skill), OrNull(f.description), OrNull(f.level)))]
  {
  }

  /** After a successful issue the four inputs are empty and the page shows
      the new id as a decimal string that reads back as that id. */
  lemma SuccessResetsForm(s: MintState, fromText: string -> Option<Principal>, actor: Option<Actor>)
    requires HandleSubmit(s, fromText, actor).issued
    ensures var r := HandleSubmit(s, fromText, actor);
      && actor.Some?
      && r.state.fields == EmptyFields
      && r.toast == ToastSuccess(IssueSucceeded)
      && r.state.mintedBadgeId.Some?
      && ParseDecimal(r.state.mintedBadgeId.value) == Some(actor.value.issueBadge(Validate(s.fields, fromText).args).value)
  {
    var id := actor.value.issueBadge(Validate(s.fields, fromText).args).value;
    IntDecimalRoundTrip(id);
  }

  /** Whenever no badge is issued, the form state is exactly as it was and an
      error is shown. */
  lemma FailureKeepsForm(s: MintState, fromText: string -> Option<Principal>, actor: Option<Actor>)
    requires !HandleSubmit(s, fromText, actor).issued
    ensures HandleSubmit(s, fromText, actor).state == s
    ensures HandleSubmit(s, fromText, actor).toast.ToastError?
  {
    var v := Validate(s.fields, fromText);
    if v.Valid? {
      var run := IssueBadgeMutation(actor, v.args);
      assert HandleSubmit(s, fromText, actor) == Settle(s, run);
    }
  }

  /** With no actor, a valid form reports `Actor not available` and nothing
      reaches the remote. */
  lemma NoActorReported(s: MintState, fromText: string -> Option<Principal>)
    requires Validate(s.fields, fromText).Valid?
    ensures HandleSubmit(s, fromText, None) == Submission(s, ToastError(ActorNotAvailable), [], false)
  {
  }

  /** The page's `useState` fields. */
  class MintForm {
    var ownerPrincipal: string
    var skillName: string
    var description: string
    var level: string
    var mintedBadgeId: Option<string>

    function State(): MintState
      reads this
    {
      MintState(Fields(ownerPrincipal, skillName, description, level), mintedBadgeId)
    }

    /** The initial `useState` values. */
    constructor ()
      ensures State() == MintState(EmptyFields, None)
    {
      ownerPrincipal, skillName, description, level := "", "", "", "";
      mintedBadgeId := None;
    }

    /** The `onChange` handler of the owner input. */
    method SetOwnerPrincipal(value: string)
      modifies this
      ensures State() == old(State()).(fields := old(State()).fields.(owner := value))
    {
      ownerPrincipal := value;
    }

    /** The `onChange` handler of the skill input. */
    method SetSkillName(value: string)
      modifies this
      ensures State() == old(State()).(fields := old(State()).fields.(skill := value))
    {
      skillName := value;
    }

    /** The `onChange` handler of the level input. */
    method SetLevel(value: string)
      modifies this
      ensures State() == old(State()).(fields := old(State()).fields.(level := value))
    {
      level := value;
    }

    /** The `onChange` handler of the description input. */
    method SetDescription(value: string)
      modifies this
      ensures State() == old(State()).(fields := old(State()).fields.(description := value))
    {
      description := value;
    }

    /** `handleSubmit`: validate, issue through the mutation (which
        invalidates the badge queries of `cache` on success), then update the
        state from how the mutation settled. */
    method Submit(fromText: string -> Option<Principal>, actor: Option<Actor>, cache: Cache)
      returns (toast: Toast, calls: seq<RemoteCall>)
      modifies this, cache
      ensures var r := HandleSubmit(old(State()), fromText, actor);
        && State() == r.state && toast == r.toast && calls == r.calls
        && cache.entries == if r.issued then AfterIssue(old(cache.entries)) else old(cache.entries)
    {
      var validation := Validate(State().fields, fromText);
      if validation.Invalid? {
        toast, calls := ToastError(validation.message), [];
        return;
      }
      var run := IssueAndInvalidate(cache, actor, validation.args);
      toast := Finish(run);
      calls := run.calls;
    }

    /** The form's `onSubmit`: the browser's `required` check on the owner
        and skill inputs, then `handleSubmit`. `toast` is `None` when the
        browser blocked the submission. */
    method SubmitForm(fromText: string -> Option<Principal>, actor: Option<Actor>, cache: Cache)
      returns (toast: Option<Toast>, calls: seq<RemoteCall>)
      modifies this, cache
      ensures var r := OnSubmit(old(State()), fromText, actor);
        && (r.None? ==>
              State() == old(State()) && toast.None? && calls == [] && cache.entries == old(cache.entries))
        && (r.Some? ==>
              && State() == r.value.state && toast == Some(r.value.toast) && calls == r.value.calls
              && cache.entries == if r.value.issued then AfterIssue(old(cache.entries)) else old(cache.entries))
    {
      if ownerPrincipal == [] || skillName == [] {
        toast, calls := None, [];
        return;
      }
      var shown;
      shown, calls := Submit(fromText, actor, cache);
      toast := Some(shown);
    }

    /** The `try` block after `mutateAsync` resolved, or its `catch` after it
        rejected: update the state field by field. */
    method Finish(run: Run<BadgeId>) returns (toast: Toast)
      modifies this
      ensures var r := Settle(old(State()), run); State() == r.state && toast == r.toast
    {
      match run.outcome {
        case Resolved(id) =>
          mintedBadgeId := Some(IntToDecimal(id));
          toast := ToastSuccess(IssueSucceeded);
          ownerPrincipal := "";
          skillName := "";
          description := "";
          level := "";
        case Rejected(message) =>
          toast := ToastError(if message == "" then IssueFailedFallback else message);
      }
    }
  }
}
