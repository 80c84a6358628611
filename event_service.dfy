/**
 * src/test/java/cz/profinit/sportTeamManager/service/event/EventServiceStub.java.
 * The event and user repositories it calls are not part of this model; they
 * are kept here as two maps that fail with "Event" and "User" not found for
 * an unknown key. Every operation looks the event up, changes it and writes
 * it back with `updateEvent`.
 */
module EventService {
  import opened Wrappers
  import opened Errors
  import opened Users
  import opened Events
  import opened Mappers

  /** The four fields `updateEvent` copies from the DTO. */
  function UpdatedEvent(pm: PlaceMapper, e: Event, d: EventDto): (r: Event)
    ensures r.date == d.date && r.place == pm.toPlace(d.place)
    ensures r.capacity == d.capacity && r.isCanceled == d.isCanceled
    ensures r.entityId == e.entityId && r.createdBy == e.createdBy
    ensures r.messageList == e.messageList && r.invitationList == e.invitationList
  {
    e.(date := d.date, place := pm.toPlace(d.place), capacity := d.capacity, isCanceled := d.isCanceled)
  }

  /** Updating twice from the same DTO is updating once. */
  lemma UpdatedEventIdempotent(pm: PlaceMapper, e: Event, d: EventDto)
    ensures UpdatedEvent(pm, UpdatedEvent(pm, e, d), d) == UpdatedEvent(pm, e, d)
  {
  }

  /** What an update leaves of the event depends only on its identity, creator and lists. */
  lemma UpdatedEventForgetsOldFields(pm: PlaceMapper, e1: Event, e2: Event, d: EventDto)
    requires e1.entityId == e2.entityId && e1.createdBy == e2.createdBy
    requires e1.messageList == e2.messageList && e1.invitationList == e2.invitationList
    ensures UpdatedEvent(pm, e1, d) == UpdatedEvent(pm, e2, d)
  {
  }

  /** After an update, the event's DTO is the given one except for its id and creator. */
  lemma UpdatedEventMatchesDto(pm: PlaceMapper, e: Event, d: EventDto)
    requires pm.toDto(pm.toPlace(d.place)) == d.place
    ensures EventToDto(pm, UpdatedEvent(pm, e, d)) == d.(id := e.entityId, createdBy := UserToDto(e.createdBy))
  {
  }

  class EventServiceStub {
    /** `EventRepository`, by event id. */
    var events: map<int, Event>
    /** `UserRepository`, by e-mail. */
    var users: map<string, RegisteredUser>
    const placeMapper: PlaceMapper

    constructor (events: map<int, Event>, users: map<string, RegisteredUser>, placeMapper: PlaceMapper)
      ensures this.events == events && this.users == users && this.placeMapper == placeMapper
    {
      this.events := events;
      this.users := users;
      this.placeMapper := placeMapper;
    }

    /** `findEventById`: the stored event, or "Event" not found. */
    function FindEventById(id: int): (r: Result<Event, Error>)
      reads this
      ensures r.Success? <==> id in events
      ensures r.Success? ==> r.value == events[id]
      ensures r.Failure? ==> r.error == EntityNotFound("Event")
    {
      if id in events then Success(events[id]) else Failure(EntityNotFound("Event"))
    }

    /** `getAllMessages`: the event's message list as it is. */
    function GetAllMessages(eventId: int): (r: Result<seq<Message>, Error>)
      reads this
      ensures r.Success? <==> eventId in events
      ensures r.Success? ==> r.value == events[eventId].messageList
      ensures r.Failure? ==> r.error == EntityNotFound("Event")
    {
      var e :- FindEventById(eventId);
      Success(e.messageList)
    }

    /** `getAllInvitations`: the event's invitation list as it is. */
    function GetAllInvitations(eventId: int): (r: Result<seq<Invitation>, Error>)
      reads this
      ensures r.Success? <==> eventId in events
      ensures r.Success? ==> r.value == events[eventId].invitationList
      ensures r.Failure? ==> r.error == EntityNotFound("Event")
    {
      var e :- FindEventById(eventId);
      Success(e.invitationList)
    }

    /** `updateEvent`: date, place, capacity and cancel flag from the DTO; the rest of the event is kept. */
    method UpdateEvent(eventDto: EventDto, eventId: int) returns (r: Result<Event, Error>)
      modifies this
      ensures users == old(users)
      ensures eventId !in old(events) ==> r == Failure(EntityNotFound("Event")) && events == old(events)
      ensures eventId in old(events) ==>
                && r == Success(UpdatedEvent(placeMapper, old(events)[eventId], eventDto))
                && events == old(events)[eventId := r.value]
    {
      var found := FindEventById(eventId);
      if found.Failure? {
        r := Failure(found.error);
        return;
      }
      var event := UpdatedEvent(placeMapper, found.value, eventDto);
      events := events[eventId := event];
      r := Success(event);
    }

    /**
     * `addNewMessage`: the sender is looked up first, then the event; the
     * new message is appended to the event's list.
     */
    method AddNewMessage(email: string, messageStr: string, eventId: int, now: Time)
      returns (r: Result<Message, Error>)
      modifies this
      ensures users == old(users)
      ensures email !in old(users) ==> r == Failure(EntityNotFound("User")) && events == old(events)
      ensures email in old(users) && eventId !in old(events) ==>
                r == Failure(EntityNotFound("Event")) && events == old(events)
      ensures email in old(users) && eventId in old(events) ==>
                && r == Success(Message(old(users)[email], messageStr, now, eventId))
                && events == old(events)[eventId := AddMessage(old(events)[eventId], r.value)]
    {
      if email !in users {
        r := Failure(EntityNotFound("User"));
        return;
      }
      var user := users[email];
      var found := FindEventById(eventId);
      if found.Failure? {
        r := Failure(found.error);
        return;
      }
      var message := Message(user, messageStr, now, eventId);
      events := events[eventId := AddMessage(found.value, message)];
      r := Success(message);
    }

    /** `changeEventStatus`: flips the cancel flag of the event. */
    method ChangeEventStatus(eventId: int) returns (r: Result<Event, Error>)
      modifies this
      ensures users == old(users)
      ensures eventId !in old(events) ==> r == Failure(EntityNotFound("Event")) && events == old(events)
      ensures eventId in old(events) ==>
                && r == Success(ToggleCanceled(old(events)[eventId]))
                && events == old(events)[eventId := r.value]
    {
      var found := FindEventById(eventId);
      if found.Failure? {
        r := Failure(found.error);
        return;
      }
      var event := ToggleCanceled(found.value);
      events := events[eventId := event];
      r := Success(event);
    }

    /** `addNewInvitation`: appends the invitation; `getAllInvitations` then lists it last. */
    method AddNewInvitation(eventId: int, invitation: Invitation) returns (r: Result<Event, Error>)
      modifies this
      ensures users == old(users)
      ensures eventId !in old(events) ==> r == Failure(EntityNotFound("Event")) && events == old(events)
      ensures eventId in old(events) ==>
                && r == Success(AddInvitation(old(events)[eventId], invitation))
                && events == old(events)[eventId := r.value]
      ensures r.Success? ==> GetAllInvitations(eventId).Success?
                             && GetAllInvitations(eventId).value
                                == old(GetAllInvitations(eventId)).value + [invitation]
    {
      var found := FindEventById(eventId);
      if found.Failure? {
        r := Failure(found.error);
        return;
      }
      var event := AddInvitation(found.value, invitation);
      events := events[eventId := event];
      r := Success(event);
    }
  }

  /** An added invitation is among the event's invitations afterwards. */
  lemma AddedInvitationIsListed(e: Event, inv: Invitation)
    ensures inv in AddInvitation(e, inv).invitationList
    ensures AddInvitation(e, inv).invitationList[|e.invitationList|] == inv
  {
  }

  /** An added message keeps every earlier message at its place. */
  lemma AddedMessageKeepsEarlier(e: Event, m: Message, i: nat)
    requires i < |e.messageList|
    ensures AddMessage(e, m).messageList[i] == e.messageList[i]
    ensures AddMessage(e, m).messageList[|e.messageList|] == m
  {
  }
}
