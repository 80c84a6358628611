/**
 * The invitation ledger and guest links of
 * src/test/java/cz/profinit/sportTeamManager/stubs/stubService/invitation/StubInvitationService.java.
 * Its collaborators are the event service and the user service of this
 * model. `InvitationRepository` is not part of this model: its
 * `createNewInvitation` is taken to return the invitation it is given,
 * `updateInvitation` to return it unchanged, and `isUserPresent` to ask
 * whether some invitation of the event has that recipient.
 */
module InvitationService {
  import opened Wrappers
  import opened Errors
  import opened Users
  import opened Seqs
  import opened Events
  import opened GuestLink
  import opened EventService
  import opened UserService

  /** `invitation.getRecipient().equals(who)`, as a predicate on invitations. */
  function RecipientIs(who: Recipient): Invitation -> bool
  {
    (inv: Invitation) => SameRecipient(inv.recipient, who)
  }

  /** `invitationRepository.isUserPresent(who, event)`. */
  predicate IsUserPresent(who: Recipient, e: Event)
  {
    FirstMatch(e.invitationList, RecipientIs(who)).Some?
  }

  /** `isUserPresent` holds exactly when some invitation's recipient equals `who`. */
  lemma IsUserPresentMeaning(who: Recipient, e: Event)
    ensures IsUserPresent(who, e) <==>
            exists i :: 0 <= i < |e.invitationList| && SameRecipient(e.invitationList[i].recipient, who)
  {
    if !IsUserPresent(who, e) {
      forall i | 0 <= i < |e.invitationList|
        ensures !SameRecipient(e.invitationList[i].recipient, who)
      {
        assert !RecipientIs(who)(e.invitationList[i]);
      }
    } else {
      var k := FirstMatch(e.invitationList, RecipientIs(who)).value;
      assert RecipientIs(who)(e.invitationList[k]);
    }
  }

  /**
   * The for-each loop with an early return shared by the two find methods:
   * the index of the first invitation whose recipient equals `who`.
   */
  method ScanForRecipient(invitationList: seq<Invitation>, who: Recipient) returns (r: Option<nat>)
    ensures r == FirstMatch(invitationList, RecipientIs(who))
  {
    var i := 0;
    while i < |invitationList|
      invariant 0 <= i <= |invitationList|
      invariant forall j :: 0 <= j < i ==> !RecipientIs(who)(invitationList[j])
    {
      if SameRecipient(invitationList[i].recipient, who) {
        assert RecipientIs(who)(invitationList[i]);
        return Some(i);
      }
      i := i + 1;
    }
    return None;
  }

  /** The state change and the answer of one `createNewInvitation`. */
  datatype Step = Step(events: map<int, Event>, result: Result<Invitation, Error>)

  /** The answer of a batch, and the invitations created before it stopped. */
  datatype Batch = Batch(events: map<int, Event>, created: seq<Invitation>, error: Option<Error>)

  /** The place of the stub event, and the stub event the service builds for its guest links. */
  const StubPlace: Place := Place("Profinit", "Tychonova 2", 1)
  const StubLoggedUser: RegisteredUser := User1
  const StubEventGuest: Guest := NewGuest("Karel", GuestUri).(entityId := Some(0))

  /** The event of the constructor, all its clock reads taken as one time `t`. */
  function StubEvent(t: Time): (e: Event)
    ensures e.entityId == Some(0) && |e.invitationList| == 2
    ensures e.invitationList[1].recipient == GuestUser(StubEventGuest)
  {
    Event(Some(0), t, 6, false, StubPlace, StubLoggedUser,
          [Message(StubLoggedUser, "Testuji", t, 0)],
          [NewPendingInvitation(Registered(StubLoggedUser), 0, t),
           NewPendingInvitation(GuestUser(StubEventGuest), 0, t)])
  }

  class StubInvitationService {
    const eventService: EventServiceStub
    const userService: StubUserService
    /** The service's own event with id 0, the only one guest links resolve in. */
    var event: Event
    var loggedUser: RegisteredUser
    var guest: Guest

    constructor (eventService: EventServiceStub, userService: StubUserService, now: Time)
      ensures this.eventService == eventService && this.userService == userService
      ensures event == StubEvent(now) && loggedUser == StubLoggedUser && guest == StubEventGuest
    {
      this.eventService := eventService;
      this.userService := userService;
      loggedUser := StubLoggedUser;
      guest := StubEventGuest;
      event := StubEvent(now);
    }

    // -------------------------------------------------------------------------
    // Registered users' invitations

    /**
     * `createNewInvitation`, as a function of the event store: the event is
     * looked up first, then the user; a user already present is refused;
     * otherwise one PENDING invitation is appended to the event.
     */
    function CreateStep(events: map<int, Event>, email: string, eventId: int, now: Time): (s: Step)
      reads userService
    {
      if eventId !in events then Step(events, Failure(EntityNotFound("Event")))
      else
        var found := userService.FindUserByEmail(email);
        if found.Failure? then Step(events, Failure(found.error))
        else if IsUserPresent(Registered(found.value), events[eventId]) then
          Step(events, Failure(UserIsAlreadyInEvent))
        else
          var inv := NewPendingInvitation(Registered(found.value), eventId, now);
          Step(events[eventId := AddInvitation(events[eventId], inv)], Success(inv))
    }

    /**
     * A refused invitation changes nothing; an accepted one appends exactly
     * one PENDING invitation, created and changed at `now`, for the user
     * found by the e-mail, and the user is present afterwards.
     */
    lemma CreateStepMeaning(events: map<int, Event>, email: string, eventId: int, now: Time)
      ensures var s := CreateStep(events, email, eventId, now);
        && (s.result.Failure? ==> s.events == events)
        && (s.result.Success? <==>
              eventId in events && email in StubEmails
              && !IsUserPresent(Registered(userService.FindUserByEmail(email).value), events[eventId]))
        && (s.result.Success? ==>
              && s.result.value.status == PENDING
              && s.result.value.created == s.result.value.changed == now
              && s.result.value.recipient == Registered(userService.FindUserByEmail(email).value)
              && s.events == events[eventId := AddInvitation(events[eventId], s.result.value)]
              && IsUserPresent(s.result.value.recipient, s.events[eventId]))
    {
      var s := CreateStep(events, email, eventId, now);
      if s.result.Success? {
        var who := s.result.value.recipient;
        var e := s.events[eventId];
        SameRecipientIsEquivalence(who, who, who);
        assert e.invitationList[|e.invitationList| - 1] == s.result.value;
        IsUserPresentMeaning(who, e);
      }
    }

    /** Inviting the same user to the same event twice: the second attempt is refused. */
    lemma CreateTwiceIsRefused(events: map<int, Event>, email: string, eventId: int, t1: Time, t2: Time)
      requires CreateStep(events, email, eventId, t1).result.Success?
      ensures CreateStep(CreateStep(events, email, eventId, t1).events, email, eventId, t2).result
              == Failure(UserIsAlreadyInEvent)
    {
      CreateStepMeaning(events, email, eventId, t1);
    }

    /** `createNewInvitation`: through the event service, as `CreateStep` says. */
    method CreateNewInvitation(email: string, eventId: int, now: Time) returns (r: Result<Invitation, Error>)
      modifies eventService
      ensures eventService.users == old(eventService.users)
      ensures Step(eventService.events, r) == CreateStep(old(eventService.events), email, eventId, now)
    {
      var found := eventService.FindEventById(eventId);
      if found.Failure? {
        r := Failure(found.error);
        return;
      }
      var user := userService.FindUserByEmail(email);
      if user.Failure? {
        r := Failure(user.error);
        return;
      }
      if IsUserPresent(Registered(user.value), found.value) {
        r := Failure(UserIsAlreadyInEvent);
        return;
      }
      var invitation := NewPendingInvitation(Registered(user.value), eventId, now);
      var added := eventService.AddNewInvitation(eventId, invitation);
      r := Success(invitation);
    }

    /**
     * `createNewInvitationsFromList`, as a function of the event store: one
     * `createNewInvitation` per user, by the user's e-mail, in list order;
     * the first failure stops the batch and the invitations created before
     * it stay in the event.
     */
    function CreateBatch(events: map<int, Event>, userList: seq<RegisteredUser>, eventId: int, now: Time): (b: Batch)
      reads userService
      decreases |userList|
    {
      if userList == [] then Batch(events, [], None)
      else
        var before := CreateBatch(events, userList[..|userList| - 1], eventId, now);
        if before.error.Some? then before
        else
          var s := CreateStep(before.events, userList[|userList| - 1].email, eventId, now);
          match s.result
          case Failure(e) => Batch(s.events, before.created, Some(e))
          case Success(inv) => Batch(s.events, before.created + [inv], None)
    }

    /**
     * A batch creates at most one invitation per user, in order, each
     * appended to the event: no rollback on failure, and a success creates
     * one invitation for every user.
     */
    lemma {:induction false} CreateBatchMeaning(events: map<int, Event>, userList: seq<RegisteredUser>,
                                               eventId: int, now: Time)
      ensures var b := CreateBatch(events, userList, eventId, now);
        && (b.error.None? ==> |b.created| == |userList|)
        && (b.error.Some? ==> |b.created| < |userList|)
        && (eventId in events ==>
              eventId in b.events
              && b.events[eventId].invitationList == events[eventId].invitationList + b.created)
        && (eventId !in events ==> b.events == events)
        && (forall i :: 0 <= i < |b.created| ==>
              && b.created[i].status == PENDING && b.created[i].eventId == eventId
              && userList[i].email in StubEmails
              && b.created[i].recipient == Registered(userService.FindUserByEmail(userList[i].email).value))
    {
      if userList != [] {
        var init := userList[..|userList| - 1];
        var last := userList[|userList| - 1];
        CreateBatchMeaning(events, init, eventId, now);
        var before := CreateBatch(events, init, eventId, now);
        if before.error.None? {
          CreateStepMeaning(before.events, last.email, eventId, now);
          var b := CreateBatch(events, userList, eventId, now);
          forall i | 0 <= i < |b.created|
            ensures userList[i].email in StubEmails
            ensures b.created[i].recipient == Registered(userService.FindUserByEmail(userList[i].email).value)
          {
            if i < |before.created| {
              assert userList[i] == init[i];
            }
          }
        }
      }
    }

    /** A batch naming one known, not yet invited user twice stops at the second with one invitation made. */
    lemma BatchWithRepeatedUserStops(events: map<int, Event>, u: RegisteredUser, eventId: int, now: Time)
      requires CreateStep(events, u.email, eventId, now).result.Success?
      ensures CreateBatch(events, [u, u], eventId, now).error == Some(UserIsAlreadyInEvent)
      ensures |CreateBatch(events, [u, u], eventId, now).created| == 1
    {
      var s1 := CreateStep(events, u.email, eventId, now);
      assert [u, u][..1] == [u];
      assert [u][..0] == [];
      assert CreateBatch(events, [u], eventId, now) == Batch(s1.events, [s1.result.value], None);
      CreateTwiceIsRefused(events, u.email, eventId, now, now);
    }

    /** `createNewInvitationsFromList`: the loop over the users, as `CreateBatch` says. */
    method CreateNewInvitationsFromList(userList: seq<RegisteredUser>, eventId: int, now: Time)
      returns (r: Result<seq<Invitation>, Error>)
      modifies eventService
      ensures eventService.users == old(eventService.users)
      ensures var b := CreateBatch(old(eventService.events), userList, eventId, now);
        && eventService.events == b.events
        && r == (if b.error.Some? then Failure(b.error.value) else Success(b.created))
    {
      var invitationList: seq<Invitation> := [];
      var i := 0;
      while i < |userList|
        invariant 0 <= i <= |userList|
        invariant eventService.users == old(eventService.users)
        invariant var b := CreateBatch(old(eventService.events), userList[..i], eventId, now);
          b.error.None? && eventService.events == b.events && invitationList == b.created
      {
        assert userList[..i + 1][..i] == userList[..i];
        var created := CreateNewInvitation(userList[i].email, eventId, now);
        if created.Failure? {
          assert userList[..i + 1] == userList[..i] + [userList[i]];
          BatchStopsAtFailure(old(eventService.events), userList, i + 1, eventId, now);
          r := Failure(created.error);
          return;
        }
        invitationList := invitationList + [created.value];
        i := i + 1;
      }
      assert userList[..i] == userList;
      r := Success(invitationList);
    }

    /** Once a prefix of the batch fails, the whole batch ends as that prefix did. */
    lemma {:induction false} BatchStopsAtFailure(events: map<int, Event>, userList: seq<RegisteredUser>,
                                                n: nat, eventId: int, now: Time)
      requires n <= |userList|
      requires CreateBatch(events, userList[..n], eventId, now).error.Some?
      ensures CreateBatch(events, userList, eventId, now) == CreateBatch(events, userList[..n], eventId, now)
      decreases |userList| - n
    {
      if n < |userList| {
        assert userList[..n + 1][..n] == userList[..n];
        BatchStopsAtFailure(events, userList, n + 1, eventId, now);
      } else {
        assert userList[..n] == userList;
      }
    }

    /**
     * `findInvitationByEventIdAndEmail`, as a function of the event store:
     * event first, then user, then the first invitation whose recipient
     * equals the user, by its index.
     */
    function FindInvitationIndex(events: map<int, Event>, eventId: int, email: string): (r: Result<nat, Error>)
      reads userService
      ensures r.Success? ==> eventId in events && r.value < |events[eventId].invitationList|
    {
      if eventId !in events then Failure(EntityNotFound("Event"))
      else
        var found := userService.FindUserByEmail(email);
        if found.Failure? then Failure(found.error)
        else
          match FirstMatch(events[eventId].invitationList, RecipientIs(Registered(found.value)))
          case None => Failure(EntityNotFound("Invitation"))
          case Some(i) => Success(i)
    }

    /**
     * The index found is that of the first invitation, in list order, whose
     * recipient equals the user found by the e-mail; with no such
     * invitation the answer is "Invitation" not found.
     */
    lemma FindInvitationIndexMeaning(events: map<int, Event>, eventId: int, email: string)
      requires eventId in events && email in StubEmails
      ensures var r := FindInvitationIndex(events, eventId, email);
        var l := events[eventId].invitationList;
        var who := Registered(userService.FindUserByEmail(email).value);
        && (r.Success? ==>
              SameRecipient(l[r.value].recipient, who)
              && forall j :: 0 <= j < r.value ==> !SameRecipient(l[j].recipient, who))
        && (r.Failure? <==> forall j :: 0 <= j < |l| ==> !SameRecipient(l[j].recipient, who))
        && (r.Failure? ==> r.error == EntityNotFound("Invitation"))
    {
      var l := events[eventId].invitationList;
      var who := Registered(userService.FindUserByEmail(email).value);
      var f := FirstMatch(l, RecipientIs(who));
      if f.Some? {
        assert RecipientIs(who)(l[f.value]);
        forall j | 0 <= j < f.value ensures !SameRecipient(l[j].recipient, who) {
          assert !RecipientIs(who)(l[j]);
        }
      } else {
        forall j | 0 <= j < |l| ensures !SameRecipient(l[j].recipient, who) {
          assert !RecipientIs(who)(l[j]);
        }
      }
    }

    /** `findInvitationByEventIdAndEmail`: the lookups, then the scan loop. */
    method FindInvitationByEventIdAndEmail(eventId: int, email: string) returns (r: Result<Invitation, Error>)
      ensures var i := FindInvitationIndex(eventService.events, eventId, email);
        r == if i.Failure? then Failure(i.error)
             else Success(eventService.events[eventId].invitationList[i.value])
    {
      var found := eventService.FindEventById(eventId);
      if found.Failure? {
        return Failure(found.error);
      }
      var user := userService.FindUserByEmail(email);
      if user.Failure? {
        return Failure(user.error);
      }
      var index := ScanForRecipient(found.value.invitationList, Registered(user.value));
      if index.None? {
        return Failure(EntityNotFound("Invitation"));
      }
      return Success(found.value.invitationList[index.value]);
    }

    /**
     * `changeInvitationStatus`: the found invitation gets the new status and
     * `changed` time, in place in its event; no other invitation changes.
     * Every status may follow every other.
     */
    method ChangeInvitationStatus(eventId: int, email: string, status: Status, now: Time)
      returns (r: Result<Invitation, Error>)
      modifies eventService
      ensures eventService.users == old(eventService.users)
      ensures var i := FindInvitationIndex(old(eventService.events), eventId, email);
        && (i.Failure? ==> r == Failure(i.error) && eventService.events == old(eventService.events))
        && (i.Success? ==>
              var e := old(eventService.events)[eventId];
              && r == Success(WithStatus(e.invitationList[i.value], status, now))
              && eventService.events
                 == old(eventService.events)[eventId := e.(invitationList := e.invitationList[i.value := r.value])])
    {
      var index := FindInvitationIndex(eventService.events, eventId, email);
      if index.Failure? {
        r := Failure(index.error);
        return;
      }
      var e := eventService.events[eventId];
      var changed := WithStatus(e.invitationList[index.value], status, now);
      eventService.events := eventService.events[eventId := e.(invitationList := e.invitationList[index.value := changed])];
      r := Success(changed);
    }

    // -------------------------------------------------------------------------
    // Guest links

    /**
     * `getGuestInvitation`, by index into the service's own event: the uri is
     * decrypted (unreadable: `NonValidUri`), the event id is read after the
     * first `-`, it must be the stub event's, the uri must be one of the
     * two the stub knows, and the guest must be a recipient.
     */
    function GuestInvitationIndex(uri: string): (r: Result<nat, Error>)
      reads this
      ensures r.Success? ==> r.value < |event.invitationList|
    {
      match userService.aes.decrypt(uri)
      case None => Failure(NonValidUri)
      case Some(decryptedUri) =>
        var eventId :- EventIdOf(decryptedUri);
        if Some(eventId) != event.entityId then Failure(EntityNotFound("Event"))
        else if uri != GuestUri && uri != PlaceholderUri then Failure(EntityNotFound("Guest"))
        else
          match FirstMatch(event.invitationList, RecipientIs(GuestUser(guest)))
          case None => Failure(EntityNotFound("Invitation"))
          case Some(i) => Success(i)
    }

    /**
     * The guest link's outcome check by check, in the order of the source:
     * an unreadable uri, an unreadable event id, another event, an unknown
     * uri, and no invitation for the guest; otherwise the guest's first
     * invitation.
     */
    lemma GuestInvitationIndexMeaning(uri: string)
      ensures var r := GuestInvitationIndex(uri);
        var d := userService.aes.decrypt(uri);
        var l := event.invitationList;
        var who := GuestUser(guest);
        && (d.None? ==> r == Failure(NonValidUri))
        && (d.Some? && EventIdOf(d.value).Failure? ==> r == Failure(EventIdOf(d.value).error))
        && ((d.Some? && EventIdOf(d.value).Success? && Some(EventIdOf(d.value).value) != event.entityId)
              ==> r == Failure(EntityNotFound("Event")))
        && ((d.Some? && EventIdOf(d.value).Success? && Some(EventIdOf(d.value).value) == event.entityId
             && uri != GuestUri && uri != PlaceholderUri)
              ==> r == Failure(EntityNotFound("Guest")))
        && ((d.Some? && EventIdOf(d.value).Success? && Some(EventIdOf(d.value).value) == event.entityId
             && (uri == GuestUri || uri == PlaceholderUri)
             && (forall j :: 0 <= j < |l| ==> !SameRecipient(l[j].recipient, who)))
              ==> r == Failure(EntityNotFound("Invitation")))
        && (r.Success? <==>
              d.Some? && EventIdOf(d.value).Success? && Some(EventIdOf(d.value).value) == event.entityId
              && (uri == GuestUri || uri == PlaceholderUri)
              && exists j :: 0 <= j < |l| && SameRecipient(l[j].recipient, who))
        && (r.Success? ==>
              SameRecipient(l[r.value].recipient, who)
              && forall j :: 0 <= j < r.value ==> !SameRecipient(l[j].recipient, who))
    {
      var l := event.invitationList;
      var who := GuestUser(guest);
      var f := FirstMatch(l, RecipientIs(who));
      if f.Some? {
        assert RecipientIs(who)(l[f.value]);
        forall j | 0 <= j < f.value ensures !SameRecipient(l[j].recipient, who) {
          assert !RecipientIs(who)(l[j]);
        }
      } else {
        forall j | 0 <= j < |l| ensures !SameRecipient(l[j].recipient, who) {
          assert !RecipientIs(who)(l[j]);
        }
      }
    }

    /** Only the two uris the stub knows can ever resolve, whatever the cipher. */
    lemma OnlyKnownUrisResolve(uri: string)
      ensures uri != GuestUri && uri != PlaceholderUri ==> GuestInvitationIndex(uri).Failure?
      ensures userService.aes.decrypt(uri).None? ==> GuestInvitationIndex(uri) == Failure(NonValidUri)
    {
    }

    /**
     * In the constructor's state, the stub uri whose plaintext names guest 0
     * and event 0 resolves to the guest's invitation, index 1.
     */
    lemma StubGuestLinkResolves(t: Time)
      requires event == StubEvent(t) && guest == StubEventGuest
      requires userService.aes.decrypt(GuestUri) == Some(GuestPlaintext(Some(0), Some(0)))
      ensures GuestInvitationIndex(GuestUri) == Success(1)
    {
      GuestLinkRoundTrip(0, 0);
      var l := event.invitationList;
      assert !RecipientIs(GuestUser(guest))(l[0]);
      SameRecipientIsEquivalence(l[1].recipient, l[1].recipient, l[1].recipient);
      assert RecipientIs(GuestUser(guest))(l[1]);
    }

    /**
     * A guest created by `createGuestInvitation` for event 0 cannot find its
     * own invitation through its link unless the cipher happens to map the
     * plaintext onto one of the two uris the stub knows.
     */
    lemma CreatedGuestLinkNeedsKnownUri(name: string)
      requires userService.aes.encrypt(GuestPlaintext(Some(0), Some(0))) != GuestUri
      requires userService.aes.encrypt(GuestPlaintext(Some(0), Some(0))) != PlaceholderUri
      ensures GuestInvitationIndex(userService.CreateNewGuest(name, Some(0)).uri).Failure?
    {
    }

    /** `getGuestInvitation`: the decryption and checks, then the scan loop over the own event. */
    method GetGuestInvitation(uri: string) returns (r: Result<Invitation, Error>)
      ensures var i := GuestInvitationIndex(uri);
        r == if i.Failure? then Failure(i.error) else Success(event.invitationList[i.value])
    {
      var decryptedUri := userService.aes.decrypt(uri);
      if decryptedUri.None? {
        return Failure(NonValidUri);
      }
      var eventId := EventIdOf(decryptedUri.value);
      if eventId.Failure? {
        return Failure(eventId.error);
      }
      if Some(eventId.value) != event.entityId {
        return Failure(EntityNotFound("Event"));
      }
      if uri != GuestUri && uri != PlaceholderUri {
        return Failure(EntityNotFound("Guest"));
      }
      var index := ScanForRecipient(event.invitationList, GuestUser(guest));
      if index.None? {
        return Failure(EntityNotFound("Invitation"));
      }
      return Success(event.invitationList[index.value]);
    }

    /**
     * `createGuestInvitation`: after the event lookup, a new guest for the
     * event's id and a PENDING invitation for it, appended to the event.
     * There is no duplicate check.
     */
    method CreateGuestInvitation(eventId: int, name: string, now: Time) returns (r: Result<Invitation, Error>)
      modifies eventService
      ensures eventService.users == old(eventService.users)
      ensures eventId !in old(eventService.events) ==>
                r == Failure(EntityNotFound("Event")) && eventService.events == old(eventService.events)
      ensures eventId in old(eventService.events) ==>
                var e := old(eventService.events)[eventId];
                && r == Success(NewPendingInvitation(GuestUser(userService.CreateNewGuest(name, e.entityId)), eventId, now))
                && eventService.events == old(eventService.events)[eventId := AddInvitation(e, r.value)]
    {
      var found := eventService.FindEventById(eventId);
      if found.Failure? {
        r := Failure(found.error);
        return;
      }
      var user := userService.CreateNewGuest(name, found.value.entityId);
      var invitation := NewPendingInvitation(GuestUser(user), eventId, now);
      var added := eventService.AddNewInvitation(eventId, invitation);
      r := Success(invitation);
    }

    /**
     * `changeGuestInvitation`: the invitation the link resolves to gets the
     * new status and `changed` time, in place in the service's own event.
     */
    method ChangeGuestInvitation(uri: string, status: Status, now: Time) returns (r: Result<Invitation, Error>)
      modifies this
      ensures guest == old(guest) && loggedUser == old(loggedUser)
      ensures var i := old(GuestInvitationIndex(uri));
        && (i.Failure? ==> r == Failure(i.error) && event == old(event))
        && (i.Success? ==>
              && r == Success(WithStatus(old(event).invitationList[i.value], status, now))
              && event == old(event).(invitationList := old(event).invitationList[i.value := r.value]))
    {
      var index := GuestInvitationIndex(uri);
      if index.Failure? {
        r := Failure(index.error);
        return;
      }
      var changed := WithStatus(event.invitationList[index.value], status, now);
      event := event.(invitationList := event.invitationList[index.value := changed]);
      r := Success(changed);
    }
  }

  /** Changing one invitation's status leaves every other invitation, and the list's length, as they were. */
  lemma ChangeTouchesOnlyOne(l: seq<Invitation>, i: nat, status: Status, now: Time, j: nat)
    requires i < |l| && j < |l| && j != i
    ensures |l[i := WithStatus(l[i], status, now)]| == |l|
    ensures l[i := WithStatus(l[i], status, now)][j] == l[j]
  {
  }
}
