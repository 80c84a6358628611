/**
 * Record-to-record translations: the `UserMapper` behaviour that
 * src/test/java/cz/profinit/sportTeamManager/mappers/UserMapperTest.java asserts,
 * `MessageMapper` and `EventMapper`.
 */
module Mappers {
  import opened Wrappers
  import opened Users
  import opened Events

  // ---------------------------------------------------------------------------
  // UserMapper

  /** `RegisteredUserDTO(name, surname, email)`: no password, no role. */
  datatype RegisteredUserDto = RegisteredUserDto(name: string, surname: string, email: string)

  /** `UserDetailsDTO(email, password, name, surname)`. */
  datatype UserDetailsDto = UserDetailsDto(email: string, password: string, name: string, surname: string)

  /** `mapRegisteredUserToRegisteredUserDTO`. */
  function UserToDto(u: RegisteredUser): (d: RegisteredUserDto)
    ensures d.name == u.name && d.surname == u.surname && d.email == u.email
  {
    RegisteredUserDto(u.name, u.surname, u.email)
  }

  /** `mapRegisteredUserDTOToRegisteredUser`: a USER with a `null` password. */
  function DtoToUser(d: RegisteredUserDto): (u: RegisteredUser)
    ensures u.name == d.name && u.surname == d.surname && u.email == d.email
    ensures u.password.None? && u.role == USER && u.entityId.None?
  {
    NewRegisteredUser(d.name, d.surname, None, d.email, USER)
  }

  /** `mapUserDetailsDTOToRegisteredUser`: a USER with the given password. */
  function DetailsToUser(d: UserDetailsDto): (u: RegisteredUser)
    ensures u.name == d.name && u.surname == d.surname && u.email == d.email
    ensures u.password == Some(d.password) && u.role == USER && u.entityId.None?
  {
    NewRegisteredUser(d.name, d.surname, Some(d.password), d.email, USER)
  }

  /** `mapRegisteredUserListToRegisteredUserDTOList`. */
  function UsersToDtos(us: seq<RegisteredUser>): (ds: seq<RegisteredUserDto>)
    ensures |ds| == |us| && forall i :: 0 <= i < |us| ==> ds[i] == UserToDto(us[i])
  {
    if us == [] then [] else [UserToDto(us[0])] + UsersToDtos(us[1..])
  }

  /** `mapRegisteredUserDTOListToRegisteredUserList`. */
  function DtosToUsers(ds: seq<RegisteredUserDto>): (us: seq<RegisteredUser>)
    ensures |us| == |ds| && forall i :: 0 <= i < |ds| ==> us[i] == DtoToUser(ds[i])
  {
    if ds == [] then [] else [DtoToUser(ds[0])] + DtosToUsers(ds[1..])
  }

  /** DTO to user to DTO is the identity. */
  lemma DtoUserDtoRoundTrip(d: RegisteredUserDto)
    ensures UserToDto(DtoToUser(d)) == d
  {
  }

  /**
   * User to DTO to user loses the password (and the id), and gives a user
   * equal to the original exactly when the original's password is `null` and
   * its role is USER.
   */
  lemma UserDtoUserRoundTrip(u: RegisteredUser)
    ensures SameUser(DtoToUser(UserToDto(u)), u) <==> u.password.None? && u.role == USER
    ensures u.role == USER ==> SameUser(DtoToUser(UserToDto(u)), u.(password := None))
  {
  }

  /** The list mappings round-trip from the DTO side, element by element. */
  lemma {:induction false} DtoListRoundTrip(ds: seq<RegisteredUserDto>)
    ensures UsersToDtos(DtosToUsers(ds)) == ds
  {
    var rs := UsersToDtos(DtosToUsers(ds));
    forall i | 0 <= i < |ds| ensures rs[i] == ds[i] {
      DtoUserDtoRoundTrip(ds[i]);
    }
  }

  /** The details mapping agrees with the DTO mapping except for the password it keeps. */
  lemma DetailsAgreeWithDto(d: UserDetailsDto)
    ensures DetailsToUser(d).(password := None) == DtoToUser(RegisteredUserDto(d.name, d.surname, d.email))
    ensures UserToDto(DetailsToUser(d)) == RegisteredUserDto(d.name, d.surname, d.email)
  {
  }

  // ---------------------------------------------------------------------------
  // MessageMapper

  /** `MessageDto(user, text, date, eventId)`. */
  datatype MessageDto = MessageDto(user: RegisteredUserDto, text: string, date: Time, eventId: int)

  /** `MessageMapper.toDto`. */
  function MessageToDto(m: Message): (d: MessageDto)
    ensures d.text == m.text && d.date == m.date && d.eventId == m.eventId
    ensures d.user == UserToDto(m.user)
  {
    MessageDto(UserToDto(m.user), m.text, m.date, m.eventId)
  }

  /** `MessageMapper.toMessage`. */
  function DtoToMessage(d: MessageDto): (m: Message)
    ensures m.text == d.text && m.date == d.date && m.eventId == d.eventId
    ensures m.user == DtoToUser(d.user)
  {
    Message(DtoToUser(d.user), d.text, d.date, d.eventId)
  }

  /** DTO to message to DTO is the identity. */
  lemma MessageDtoRoundTrip(d: MessageDto)
    ensures MessageToDto(DtoToMessage(d)) == d
  {
  }

  /** Message to DTO to message keeps everything but the sender's password, id and role. */
  lemma MessageRoundTrip(m: Message)
    ensures var r := DtoToMessage(MessageToDto(m));
      r.text == m.text && r.date == m.date && r.eventId == m.eventId
      && (m.user.role == USER ==> SameUser(r.user, m.user.(password := None)))
      && r.user.password.None?
  {
  }

  /** `MessageMapper.toListOfDto`: a loop appending `toDto` of each message to a new list. */
  method ToListOfDto(messages: seq<Message>) returns (dtos: seq<MessageDto>)
    ensures |dtos| == |messages|
    ensures forall i :: 0 <= i < |messages| ==> dtos[i] == MessageToDto(messages[i])
  {
    dtos := [];
    var i := 0;
    while i < |messages|
      invariant 0 <= i <= |messages|
      invariant |dtos| == i
      invariant forall j :: 0 <= j < i ==> dtos[j] == MessageToDto(messages[j])
    {
      dtos := dtos + [MessageToDto(messages[i])];
      i := i + 1;
    }
  }

  // ---------------------------------------------------------------------------
  // EventMapper

  /** The transfer form of a place. */
  datatype PlaceDto = PlaceDto(name: string, address: string, teamId: int)

  /** `PlaceMapper`, which is not part of this model: its two directions. */
  datatype PlaceMapper = PlaceMapper(toDto: Place -> PlaceDto, toPlace: PlaceDto -> Place)

  /** `EventDto(id, date, capacity, isCanceled, place, createdBy)`: no messages, no invitations. */
  datatype EventDto = EventDto(id: Option<int>, date: Time, capacity: int, isCanceled: bool,
                               place: PlaceDto, createdBy: RegisteredUserDto)

  /** `EventMapper.toDto`. */
  function EventToDto(pm: PlaceMapper, e: Event): (d: EventDto)
    ensures d.id == e.entityId && d.date == e.date && d.capacity == e.capacity
    ensures d.isCanceled == e.isCanceled
    ensures d.place == pm.toDto(e.place) && d.createdBy == UserToDto(e.createdBy)
  {
    EventDto(e.entityId, e.date, e.capacity, e.isCanceled, pm.toDto(e.place), UserToDto(e.createdBy))
  }

  /** `EventMapper.toEvent`: new empty lists, and the DTO's id as entity id. */
  function DtoToEvent(pm: PlaceMapper, d: EventDto): (e: Event)
    ensures e.messageList == [] && e.invitationList == []
    ensures e.entityId == d.id && e.date == d.date && e.capacity == d.capacity
    ensures e.isCanceled == d.isCanceled
    ensures e.place == pm.toPlace(d.place) && e.createdBy == DtoToUser(d.createdBy)
  {
    Event(d.id, d.date, d.capacity, d.isCanceled, pm.toPlace(d.place), DtoToUser(d.createdBy), [], [])
  }

  /** `toDto` does not look at the message and invitation lists. */
  lemma EventToDtoDropsLists(pm: PlaceMapper, e: Event, ms: seq<Message>, invs: seq<Invitation>)
    ensures EventToDto(pm, e.(messageList := ms, invitationList := invs)) == EventToDto(pm, e)
  {
  }

  /** DTO to event to DTO is the identity when the place mapping round-trips. */
  lemma EventDtoRoundTrip(pm: PlaceMapper, d: EventDto)
    requires pm.toDto(pm.toPlace(d.place)) == d.place
    ensures EventToDto(pm, DtoToEvent(pm, d)) == d
  {
    DtoUserDtoRoundTrip(d.createdBy);
  }
}
