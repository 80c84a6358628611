/**
 * The stub user services:
 * src/test/java/cz/profinit/sportTeamManager/stubs/stubService/user/StubUserServiceImpl.java
 * and src/test/java/cz/profinit/sportTeamManager/stubs/stubService/user/StubUserDetailsService.java.
 */
module UserService {
  import opened Wrappers
  import opened Errors
  import opened Users
  import opened GuestLink
  import HttpExceptionHandler

  /** The bcrypt hash the stubs hand out. */
  const Hash: string := "$2a$10$ruiQYEnc3bXdhWuCC/q.E.D.1MFk2thcPO/fVrAuFDuugjm3XuLZ2"
  /** The fifth stub user's password: the same hash without its leading `$`. */
  const Hash5: string := "2a$10$ruiQYEnc3bXdhWuCC/q.E.D.1MFk2thcPO/fVrAuFDuugjm3XuLZ2"

  const Email1: string := "is@gmail.com"
  const Email2: string := "is@seznam.cz"
  const Email3: string := "is@email.cz"
  const Email4: string := "ts@gmail.com"
  const Email5: string := "email@gmail.com"

  /** The addresses the stubs know. */
  const StubEmails: set<string> := {Email1, Email2, Email3, Email4, Email5}

  const User1: RegisteredUser := NewRegisteredUser("Ivan", "Stastny", Some(Hash), Email1, USER)
  const User2: RegisteredUser := NewRegisteredUser("Pavel", "Smutny", Some(Hash), Email2, USER)
  const User3: RegisteredUser := NewRegisteredUser("Jirka", "Vesely", Some(Hash), Email3, USER)
  const User4: RegisteredUser := NewRegisteredUser("Tomas", "Smutny", Some("pass2"), Email4, USER)
  const User5: RegisteredUser := NewRegisteredUser("Adam", "Stastny", Some(Hash5), Email5, USER)

  /** The stub guest and the two uris that find it. */
  const GuestUri: string := "mxPR4fbWzvai60UMLhD3aw=="
  const PlaceholderUri: string := "jsem_place_holder"
  const StubGuest: Guest := NewGuest("Karel", GuestUri)

  /** The message of the registration refusal: no space before "already". */
  function RegistrationRefusal(email: string): string
  {
    "Account with e-mail address " + email + "already exists."
  }

  /** The message of the e-mail change refusal. */
  function EmailChangeRefusal(email: string): string
  {
    "Account with e-mail address " + email + " already exists."
  }

  /** `getLogedUser`: always a new Adam Stastny with password "pass". */
  function LoggedUser(): (u: RegisteredUser)
    ensures u.email == Email5 && u.password == Some("pass") && u.role == USER
    ensures !SameUser(u, User5)
  {
    NewRegisteredUser("Adam", "Stastny", Some("pass"), Email5, USER)
  }

  /**
   * `StubUserServiceImpl`. The five users are mutable objects behind final
   * references, so `changeUserRole` changes what later look-ups return:
   * they are fields here, and the Aes cipher is a parameter.
   */
  class StubUserService {
    var loggedUser1: RegisteredUser
    var loggedUser2: RegisteredUser
    var loggedUser3: RegisteredUser
    var loggedUser4: RegisteredUser
    var loggedUser5: RegisteredUser
    var guest: Guest
    const aes: Aes

    /** Every stub user is the one the class starts with, up to its role. */
    predicate Valid()
      reads this
    {
      && loggedUser1 == User1.(role := loggedUser1.role)
      && loggedUser2 == User2.(role := loggedUser2.role)
      && loggedUser3 == User3.(role := loggedUser3.role)
      && loggedUser4 == User4.(role := loggedUser4.role)
      && loggedUser5 == User5.(role := loggedUser5.role)
      && guest == StubGuest
    }

    constructor (aes: Aes)
      ensures Valid() && this.aes == aes
      ensures loggedUser1 == User1 && loggedUser2 == User2 && loggedUser3 == User3
      ensures loggedUser4 == User4 && loggedUser5 == User5
    {
      loggedUser1 := User1;
      loggedUser2 := User2;
      loggedUser3 := User3;
      loggedUser4 := User4;
      loggedUser5 := User5;
      guest := StubGuest;
      this.aes := aes;
    }

    /**
     * `findUserByEmail`: one of the five stub users, tested in the source's
     * order, or "User" not found.
     */
    function FindUserByEmail(email: string): (r: Result<RegisteredUser, Error>)
      reads this
      ensures r.Success? <==> email in StubEmails
      ensures r.Failure? ==> r.error == EntityNotFound("User")
      ensures email == Email1 ==> r == Success(loggedUser1)
      ensures email == Email5 ==> r == Success(loggedUser5)
    {
      if email == Email2 then Success(loggedUser2)
      else if email == Email1 then Success(loggedUser1)
      else if email == Email3 then Success(loggedUser3)
      else if email == Email4 then Success(loggedUser4)
      else if email == Email5 then Success(loggedUser5)
      else Failure(EntityNotFound("User"))
    }

    /** A user found by e-mail has that e-mail and is the stub's user of that address, up to its role. */
    lemma FoundUserHasEmail(email: string)
      requires Valid()
      requires FindUserByEmail(email).Success?
      ensures var u := FindUserByEmail(email).value;
        u.email == email && u.entityId.None?
        && (email == Email4 ==> u.password == Some("pass2"))
        && (email == Email5 ==> u.password == Some(Hash5))
        && (email !in {Email4, Email5} ==> u.password == Some(Hash))
    {
    }

    /**
     * `emailExists`: calls `findUserByEmail` and answers false only for an
     * exception whose message is "User entity not found!".
     */
    function EmailExists(email: string): (b: bool)
      reads this
      ensures b <==> email in StubEmails
    {
      var r := FindUserByEmail(email);
      UserNotFoundMessage();
      !(r.Failure? && r.error.EntityNotFound? && NotFoundMessage(r.error.kind) == "User entity not found!")
    }

    /** `emailExists` is exactly the success of `findUserByEmail`. */
    lemma EmailExistsIffFound(email: string)
      ensures EmailExists(email) <==> FindUserByEmail(email).Success?
    {
    }

    /**
     * `newUserRegistration`: refuses "email@gmail.com"; otherwise a new USER
     * with the given names and e-mail and the password "hashedPassword".
     */
    function NewUserRegistration(newUser: RegisteredUser): (r: Result<RegisteredUser, Error>)
      ensures r.Failure? <==> newUser.email == Email5
      ensures r.Failure? ==> r.error == Error.EmailExists(RegistrationRefusal(newUser.email))
      ensures r.Success? ==> && r.value.entityId.None?
                              && r.value.name == newUser.name && r.value.surname == newUser.surname
                              && r.value.email == newUser.email
                              && r.value.password == Some("hashedPassword") && r.value.role == USER
    {
      if newUser.email == Email5 then Failure(Error.EmailExists(RegistrationRefusal(newUser.email)))
      else Success(NewRegisteredUser(newUser.name, newUser.surname, Some("hashedPassword"), newUser.email, USER))
    }

    /** Registration's result ignores the new user's password, role and id. */
    lemma RegistrationIgnoresPasswordAndRole(a: RegisteredUser, b: RegisteredUser)
      requires a.name == b.name && a.surname == b.surname && a.email == b.email
      ensures NewUserRegistration(a) == NewUserRegistration(b)
    {
    }

    /** Registration refuses exactly one of the five addresses the stub knows. */
    lemma RegistrationRefusesOnlyEmail5(email: string)
      requires email in StubEmails
      ensures NewUserRegistration(NewRegisteredUser("n", "s", None, email, USER)).Failure? <==> email == Email5
    {
    }

    /**
     * The copy the three `changeUser...` operations start from: the found
     * user's name, surname, password and e-mail, role USER, no id.
     */
    function CopyAsUser(u: RegisteredUser): (c: RegisteredUser)
      ensures c.entityId.None? && c.role == USER
      ensures SameUser(c, u) <==> u.role == USER
    {
      NewRegisteredUser(u.name, u.surname, u.password, u.email, USER)
    }

    /** `changeUserName`: a new USER copy of the found user with the new name; the stored user is untouched. */
    function ChangeUserName(email: string, newName: string): (r: Result<RegisteredUser, Error>)
      reads this
      ensures r.Failure? <==> email !in StubEmails
      ensures r.Failure? ==> r == Failure(EntityNotFound("User"))
      ensures r.Success? ==> SameUser(r.value, FindUserByEmail(email).value.(name := newName, role := USER))
    {
      var u :- FindUserByEmail(email);
      Success(CopyAsUser(u).(name := newName))
    }

    /** `changeUserSurname`: a new USER copy of the found user with the new surname. */
    function ChangeUserSurname(email: string, newSurname: string): (r: Result<RegisteredUser, Error>)
      reads this
      ensures r.Failure? <==> email !in StubEmails
      ensures r.Failure? ==> r == Failure(EntityNotFound("User"))
      ensures r.Success? ==> SameUser(r.value, FindUserByEmail(email).value.(surname := newSurname, role := USER))
    {
      var u :- FindUserByEmail(email);
      Success(CopyAsUser(u).(surname := newSurname))
    }

    /**
     * `changeUserEmail`: "User" not found first; then a refusal when the new
     * address is taken; otherwise a USER copy with the new address.
     */
    function ChangeUserEmail(email: string, newEmail: string): (r: Result<RegisteredUser, Error>)
      reads this
      ensures email !in StubEmails ==> r == Failure(EntityNotFound("User"))
      ensures email in StubEmails && newEmail in StubEmails ==>
                r == Failure(Error.EmailExists(EmailChangeRefusal(newEmail)))
      ensures r.Success? <==> email in StubEmails && newEmail !in StubEmails
      ensures r.Success? ==> SameUser(r.value, FindUserByEmail(email).value.(email := newEmail, role := USER))
    {
      var u :- FindUserByEmail(email);
      if EmailExists(newEmail) then Failure(Error.EmailExists(EmailChangeRefusal(newEmail)))
      else Success(CopyAsUser(u).(email := newEmail))
    }

    /** A changed e-mail is never one a later `findUserByEmail` finds. */
    lemma ChangedEmailIsUnknown(email: string, newEmail: string)
      requires ChangeUserEmail(email, newEmail).Success?
      ensures FindUserByEmail(ChangeUserEmail(email, newEmail).value.email).Failure?
    {
    }

    /** The name and surname changes commute on the copy they return. */
    lemma NameAndSurnameChangesAgree(email: string, newName: string, newSurname: string)
      requires email in StubEmails
      ensures ChangeUserName(email, newName).value.(surname := newSurname)
              == ChangeUserSurname(email, newSurname).value.(name := newName)
    {
    }

    /**
     * `changeUserRole`: sets the role of the stored user itself, so the
     * change is seen by every later look-up; other users are untouched.
     */
    method ChangeUserRole(email: string, newRole: Role) returns (r: Result<RegisteredUser, Error>)
      modifies this
      ensures old(FindUserByEmail(email)).Failure? ==>
                r == old(FindUserByEmail(email)) && unchanged(this)
      ensures old(FindUserByEmail(email)).Success? ==>
                r == Success(old(FindUserByEmail(email)).value.(role := newRole))
      ensures FindUserByEmail(email) == r
      ensures forall e :: e != email ==> FindUserByEmail(e) == old(FindUserByEmail(e))
      ensures guest == old(guest)
      ensures old(Valid()) ==> Valid()
    {
      if email == Email2 {
        loggedUser2 := loggedUser2.(role := newRole);
        r := Success(loggedUser2);
      } else if email == Email1 {
        loggedUser1 := loggedUser1.(role := newRole);
        r := Success(loggedUser1);
      } else if email == Email3 {
        loggedUser3 := loggedUser3.(role := newRole);
        r := Success(loggedUser3);
      } else if email == Email4 {
        loggedUser4 := loggedUser4.(role := newRole);
        r := Success(loggedUser4);
      } else if email == Email5 {
        loggedUser5 := loggedUser5.(role := newRole);
        r := Success(loggedUser5);
      } else {
        r := Failure(EntityNotFound("User"));
      }
    }

    /**
     * `createNewGuest`: a guest with id 0 whose uri is the encryption of
     * "<guest id>-<event id>".
     */
    function CreateNewGuest(name: string, eventId: Option<int>): (g: Guest)
      ensures g.name == name && g.role == GUEST && g.entityId == Some(0)
      ensures g.uri == aes.encrypt(GuestPlaintext(Some(0), eventId))
    {
      var g := NewGuest(name, "placeholderUri").(entityId := Some(0));
      SetUri(g, aes.encrypt(GuestPlaintext(g.entityId, eventId)))
    }

    /**
     * The guest link round trip: when the cipher decrypts what it encrypts,
     * the new guest's uri carries the event id it was created for.
     */
    lemma CreatedGuestLinkNamesEvent(name: string, eventId: int)
      requires 0 <= eventId <= MaxLong
      requires aes.decrypt(aes.encrypt(GuestPlaintext(Some(0), Some(eventId))))
               == Some(GuestPlaintext(Some(0), Some(eventId)))
      ensures aes.decrypt(CreateNewGuest(name, Some(eventId)).uri).Some?
      ensures EventIdOf(aes.decrypt(CreateNewGuest(name, Some(eventId)).uri).value) == Success(eventId)
    {
      GuestLinkRoundTrip(0, eventId);
    }

    /** Two guests created for the same event are equal under the guest equality, whatever their names. */
    lemma CreatedGuestsForOneEventAreSame(n1: string, n2: string, eventId: Option<int>)
      ensures SameGuest(CreateNewGuest(n1, eventId), CreateNewGuest(n2, eventId))
    {
    }

    /** `findGuestByUri`: the stub guest for its own uri or the placeholder, otherwise "Guest" not found. */
    function FindGuestByUri(uri: string): (r: Result<Guest, Error>)
      reads this
      ensures r.Success? <==> uri == GuestUri || uri == PlaceholderUri
      ensures r.Success? ==> r.value == guest
      ensures r.Failure? ==> r.error == EntityNotFound("Guest")
    {
      if uri == GuestUri then Success(guest)
      else if uri == PlaceholderUri then Success(guest)
      else Failure(EntityNotFound("Guest"))
    }

    /** The guest found by the placeholder uri does not carry that uri. */
    lemma PlaceholderFindsOtherUri()
      requires Valid()
      ensures FindGuestByUri(PlaceholderUri).Success?
      ensures FindGuestByUri(PlaceholderUri).value.uri != PlaceholderUri
    {
      assert GuestUri[0] != PlaceholderUri[0];
    }
  }

  /**
   * Both e-mail refusals open with "Account with e-mail address": the HTTP
   * handler, as written and as corrected, answers BAD_REQUEST.
   */
  lemma RefusalsAreBadRequest(email: string)
    ensures var m := RegistrationRefusal(email);
      && HttpExceptionHandler.HttpErrorMessagesFixed(Some(m))
         == HttpExceptionHandler.Raised(HttpExceptionHandler.BAD_REQUEST, m)
      && HttpExceptionHandler.HttpErrorMessages(Some(m))
         == HttpExceptionHandler.Raised(HttpExceptionHandler.BAD_REQUEST, m)
    ensures var m := EmailChangeRefusal(email);
      && HttpExceptionHandler.HttpErrorMessagesFixed(Some(m))
         == HttpExceptionHandler.Raised(HttpExceptionHandler.BAD_REQUEST, m)
      && HttpExceptionHandler.HttpErrorMessages(Some(m))
         == HttpExceptionHandler.Raised(HttpExceptionHandler.BAD_REQUEST, m)
  {
    var p := HttpExceptionHandler.AccountPrefix;
    assert RegistrationRefusal(email)[..|p|] == p;
    assert EmailChangeRefusal(email)[..|p|] == p;
    HttpExceptionHandler.AccountMessagesAreBadRequest(RegistrationRefusal(email));
    HttpExceptionHandler.AccountMessagesAreBadRequest(EmailChangeRefusal(email));
    HttpExceptionHandler.FixedAgreesWithOriginal(Some(RegistrationRefusal(email)));
    HttpExceptionHandler.FixedAgreesWithOriginal(Some(EmailChangeRefusal(email)));
  }

  /** The not-found message of an unknown e-mail is one the HTTP handler answers with BAD_REQUEST. */
  lemma UnknownUserIsBadRequest(s: StubUserService, email: string)
    requires email !in StubEmails
    ensures var m := NotFoundMessage(s.FindUserByEmail(email).error.kind);
      && HttpExceptionHandler.HttpErrorMessagesFixed(Some(m))
         == HttpExceptionHandler.Raised(HttpExceptionHandler.BAD_REQUEST, m)
      && HttpExceptionHandler.HttpErrorMessages(Some(m))
         == HttpExceptionHandler.Raised(HttpExceptionHandler.BAD_REQUEST, m)
  {
    UserNotFoundMessage();
    HttpExceptionHandler.ExactMessagesAreBadRequest(4);
    HttpExceptionHandler.FixedAgreesWithOriginal(Some(NotFoundMessage("User")));
  }

  // ---------------------------------------------------------------------------
  // StubUserDetailsService

  /** `UserDetailsImpl(username, password)`. */
  datatype UserDetails = UserDetails(username: string, password: string)

  /** `loadUserByUsername`: the five stub addresses, each with the same hash. */
  function LoadUserByUsername(userEmail: string): (r: Result<UserDetails, Error>)
    ensures r.Success? <==> userEmail in StubEmails
    ensures r.Success? ==> r.value == UserDetails(userEmail, Hash)
    ensures r.Failure? ==> r.error == UserOrPasswordNotMatch
  {
    if userEmail == Email2 || userEmail == Email1 || userEmail == Email3
       || userEmail == Email4 || userEmail == Email5
    then Success(UserDetails(userEmail, Hash))
    else Failure(UserOrPasswordNotMatch)
  }

  /** The two stubs know the same addresses. */
  lemma DetailsAgreeWithUserService(s: StubUserService, email: string)
    ensures LoadUserByUsername(email).Success? <==> s.FindUserByEmail(email).Success?
  {
  }

  /**
   * The login hash agrees with the stored password only for the first three
   * users: "ts@gmail.com" and "email@gmail.com" are stored with other
   * passwords.
   */
  lemma DetailsPasswordMatchesStoredPassword(s: StubUserService, email: string)
    requires s.Valid() && email in StubEmails
    ensures s.FindUserByEmail(email).value.password == Some(LoadUserByUsername(email).value.password)
            <==> email in {Email1, Email2, Email3}
  {
    assert |Hash5| != |Hash|;
    assert |"pass2"| != |Hash|;
  }
}
