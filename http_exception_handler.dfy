/**
 * `HttpExceptionHandler.httpErrorMessages`
 * (src/main/java/cz/profinit/sportTeamManager/exceptions/HttpExceptionHandler.java):
 * the HTTP status a service exception's message is turned into.
 */
module HttpExceptionHandler {
  import opened Wrappers
  import opened Errors

  datatype HttpStatus = BAD_REQUEST | UNAUTHORIZED

  /** What a call does: throw a `ResponseStatusException`, return, or fail itself. */
  datatype Handled =
    | Raised(status: HttpStatus, reason: string)
    | Returned
    | Crashed(error: Error)

  const TeamNotFound: string := "Team entity not found!"
  const UserNotInTeam: string := "User is not in team"
  const AccessDenied: string := "Access denied"
  const UserAlreadyInSubgroup: string := "User is already in subgroup"
  const UserAlreadyInTeam: string := "User is already in team"
  const UserNotFound: string := "User entity not found!"
  const SubgroupNotFound: string := "Subgroup entity not found!"
  const SubgroupAlreadyExists: string := "Subgroup already exists"
  const AccountPrefix: string := "Account with e-mail address"

  /** The seven exact messages answered with BAD_REQUEST, in the order they are tested. */
  const BadRequestMessages: seq<string> :=
    [TeamNotFound, UserNotInTeam, UserAlreadyInSubgroup, UserAlreadyInTeam,
     UserNotFound, SubgroupNotFound, SubgroupAlreadyExists]

  /** The eight exact comparisons, in source order; `None` when none matches. */
  function MatchExact(m: string): (r: Option<Handled>)
    ensures r.Some? ==> r.value.Raised? && r.value.reason == m
    ensures r.Some? && r.value.status == UNAUTHORIZED <==> m == AccessDenied
  {
    if m == TeamNotFound then Some(Raised(BAD_REQUEST, m))
    else if m == UserNotInTeam then Some(Raised(BAD_REQUEST, m))
    else if m == AccessDenied then Some(Raised(UNAUTHORIZED, m))
    else if m == UserAlreadyInSubgroup then Some(Raised(BAD_REQUEST, m))
    else if m == UserAlreadyInTeam then Some(Raised(BAD_REQUEST, m))
    else if m == UserNotFound then Some(Raised(BAD_REQUEST, m))
    else if m == SubgroupNotFound then Some(Raised(BAD_REQUEST, m))
    else if m == SubgroupAlreadyExists then Some(Raised(BAD_REQUEST, m))
    else None
  }

  /**
   * `httpErrorMessages` as written: a `null` message throws at the first
   * `equals`; after the exact tests, `substring(0, 27)` throws on a message
   * shorter than 27 characters.
   */
  function HttpErrorMessages(message: Option<string>): (r: Handled)
    ensures message.None? <==> r == Crashed(NullPointer)
    ensures r.Raised? ==> message.Some? && r.reason == message.value
    ensures r.Crashed? && message.Some? ==> |message.value| < |AccountPrefix|
  {
    match message
    case None => Crashed(NullPointer)
    case Some(m) =>
      match MatchExact(m)
      case Some(h) => h
      case None =>
        if |m| < |AccountPrefix| then Crashed(IndexOutOfBounds)
        else if m[..|AccountPrefix|] == AccountPrefix then Raised(BAD_REQUEST, m)
        else Returned
  }

  /** `httpErrorMessages` with `startsWith` in place of the `substring` test. */
  function HttpErrorMessagesFixed(message: Option<string>): (r: Handled)
    ensures message.None? <==> r == Crashed(NullPointer)
    ensures r.Raised? ==> message.Some? && r.reason == message.value
  {
    match message
    case None => Crashed(NullPointer)
    case Some(m) =>
      match MatchExact(m)
      case Some(h) => h
      case None =>
        if |AccountPrefix| <= |m| && m[..|AccountPrefix|] == AccountPrefix then Raised(BAD_REQUEST, m)
        else Returned
  }

  lemma AccountPrefixLength()
    ensures |AccountPrefix| == 27
  {
  }

  /** "Access denied" is the one message answered with UNAUTHORIZED. */
  lemma {:induction false} AccessDeniedIsUnauthorized(m: string)
    ensures HttpErrorMessages(Some(m)).Raised? && HttpErrorMessages(Some(m)).status == UNAUTHORIZED
            <==> m == AccessDenied
  {
    if m == AccessDenied {
      assert MatchExact(m) == Some(Raised(UNAUTHORIZED, m));
    }
  }

  /** Each of the seven other exact messages is a BAD_REQUEST carrying that message. */
  lemma {:induction false} ExactMessagesAreBadRequest(i: nat)
    requires i < |BadRequestMessages|
    ensures HttpErrorMessages(Some(BadRequestMessages[i])) == Raised(BAD_REQUEST, BadRequestMessages[i])
  {
    var m := BadRequestMessages[i];
    assert m != AccessDenied by {
      assert |AccessDenied| == 13;
      if i == 0 { assert |m| == 22; }
      else if i == 1 { assert |m| == 19; }
      else if i == 2 { assert |m| == 27; }
      else if i == 3 { assert |m| == 23; }
      else if i == 4 { assert |m| == 22; }
      else if i == 5 { assert |m| == 26; }
      else { assert |m| == 23; }
    }
  }

  /** The first characters of the exact messages; none of them is 'A' except "Access denied". */
  lemma ExactMessagesStart(m: string)
    requires MatchExact(m).Some?
    ensures |m| > 0 && (m[0] == 'A' ==> m == AccessDenied)
    ensures |m| <= 27
  {
  }

  /** A message opening with "Account with e-mail address" is a BAD_REQUEST carrying that message. */
  lemma AccountMessagesAreBadRequest(m: string)
    requires |AccountPrefix| <= |m| && m[..|AccountPrefix|] == AccountPrefix
    ensures HttpErrorMessages(Some(m)) == Raised(BAD_REQUEST, m)
  {
    assert m[0] == 'A';
    if MatchExact(m).Some? {
      ExactMessagesStart(m);
    }
  }

  /** An unmatched message of 27 characters or more returns without raising a status. */
  lemma LongUnmatchedMessagesReturn(m: string)
    requires MatchExact(m).None? && |AccountPrefix| <= |m| && m[..|AccountPrefix|] != AccountPrefix
    ensures HttpErrorMessages(Some(m)) == Returned
  {
  }

  /** An unmatched message shorter than 27 characters makes the handler itself throw. */
  lemma ShortUnmatchedMessagesCrash(m: string)
    requires MatchExact(m).None? && |m| < |AccountPrefix|
    ensures HttpErrorMessages(Some(m)) == Crashed(IndexOutOfBounds)
  {
  }

  /** For instance the message of a missing event: "Event entity not found!" (23 characters). */
  lemma EventNotFoundCrashesHandler()
    ensures HttpErrorMessages(Some(NotFoundMessage("Event"))) == Crashed(IndexOutOfBounds)
  {
    EventNotFoundMessage();
    var m := NotFoundMessage("Event");
    assert MatchExact(m).None? by {
      assert m[0] == 'E';
      assert TeamNotFound[0] == 'T' && UserNotInTeam[0] == 'U' && AccessDenied[0] == 'A';
      assert UserAlreadyInSubgroup[0] == 'U' && UserAlreadyInTeam[0] == 'U';
      assert UserNotFound[0] == 'U' && SubgroupNotFound[0] == 'S' && SubgroupAlreadyExists[0] == 'S';
    }
  }

  /** A missing guest gives "Guest entity not found!" (23 characters): the handler throws too. */
  lemma GuestNotFoundCrashesHandler()
    ensures HttpErrorMessages(Some(NotFoundMessage("Guest"))) == Crashed(IndexOutOfBounds)
  {
    var m := NotFoundMessage("Guest");
    assert |m| == 23;
    assert MatchExact(m).None? by {
      assert m[0] == 'G';
      assert TeamNotFound[0] == 'T' && UserNotInTeam[0] == 'U' && AccessDenied[0] == 'A';
      assert UserAlreadyInSubgroup[0] == 'U' && UserAlreadyInTeam[0] == 'U';
      assert UserNotFound[0] == 'U' && SubgroupNotFound[0] == 'S' && SubgroupAlreadyExists[0] == 'S';
    }
  }

  /**
   * A missing invitation gives "Invitation entity not found!" (28
   * characters): the handler returns and no HTTP status is raised.
   */
  lemma InvitationNotFoundIsNotReported()
    ensures HttpErrorMessages(Some(NotFoundMessage("Invitation"))) == Returned
  {
    var m := NotFoundMessage("Invitation");
    assert |m| == 28;
    assert MatchExact(m).None? by {
      assert m[0] == 'I';
      assert TeamNotFound[0] == 'T' && UserNotInTeam[0] == 'U' && AccessDenied[0] == 'A';
      assert UserAlreadyInSubgroup[0] == 'U' && UserAlreadyInTeam[0] == 'U';
      assert UserNotFound[0] == 'U' && SubgroupNotFound[0] == 'S' && SubgroupAlreadyExists[0] == 'S';
    }
    assert m[..27][0] == 'I';
  }

  /** The corrected handler never fails on a message that is present. */
  lemma FixedNeverCrashes(m: string)
    ensures !HttpErrorMessagesFixed(Some(m)).Crashed?
  {
  }

  /** Where the handler as written does not fail, the corrected one gives the same answer; where it does, the corrected one returns. */
  lemma FixedAgreesWithOriginal(message: Option<string>)
    ensures !HttpErrorMessages(message).Crashed? ==> HttpErrorMessagesFixed(message) == HttpErrorMessages(message)
    ensures HttpErrorMessages(message) == Crashed(IndexOutOfBounds) ==> HttpErrorMessagesFixed(message) == Returned
  {
  }
}
