/**
 * Event-side values: places, messages, invitations and events. The Java
 * classes `Event`, `Message`, `Place`, `Invitation` and `InvitationDto` are
 * not part of this model; their fields are the ones their constructors are
 * called with in the modelled code.
 */
module Events {
  import opened Wrappers
  import opened Users

  /** `LocalDateTime`, as a point on one clock. */
  type Time = int

  datatype Status = PENDING | ACCEPTED | DECLINED

  /** `new Place(name, address, teamId)`. */
  datatype Place = Place(name: string, address: string, teamId: int)

  /** `new Message(user, text, date, eventId)`. */
  datatype Message = Message(user: RegisteredUser, text: string, date: Time, eventId: int)

  /** `new Invitation(created, changed, status, recipient, eventId)`. */
  datatype Invitation = Invitation(created: Time, changed: Time, status: Status,
                                   recipient: Recipient, eventId: int)

  /** The transfer form of an invitation that the ordering works on. */
  datatype InvitationDto = InvitationDto(created: Time, changed: Time, status: Status,
                                         recipient: Recipient, eventId: int)

  /** An event with its creator, its messages and its invitations. */
  datatype Event = Event(
    entityId: Option<int>,
    date: Time,
    capacity: int,
    isCanceled: bool,
    place: Place,
    createdBy: RegisteredUser,
    messageList: seq<Message>,
    invitationList: seq<Invitation>)

  /** `event.addNewMessage(message)`: appends to the message list and changes nothing else. */
  function AddMessage(e: Event, m: Message): (r: Event)
    ensures r.messageList == e.messageList + [m]
    ensures r.(messageList := e.messageList) == e
  {
    e.(messageList := e.messageList + [m])
  }

  /** `event.addNewInvitation(invitation)`: appends to the invitation list and changes nothing else. */
  function AddInvitation(e: Event, inv: Invitation): (r: Event)
    ensures r.invitationList == e.invitationList + [inv]
    ensures r.(invitationList := e.invitationList) == e
  {
    e.(invitationList := e.invitationList + [inv])
  }

  /** `event.setIsCanceled(!event.getIsCanceled())`. */
  function ToggleCanceled(e: Event): (r: Event)
    ensures r.isCanceled != e.isCanceled
    ensures r.(isCanceled := e.isCanceled) == e
  {
    e.(isCanceled := !e.isCanceled)
  }

  /** Cancelling twice restores the event. */
  lemma ToggleCanceledTwice(e: Event)
    ensures ToggleCanceled(ToggleCanceled(e)) == e
  {
  }

  /** `setStatus(status)` then `setChanged(now)`: only those two fields change. */
  function WithStatus(inv: Invitation, status: Status, now: Time): (r: Invitation)
    ensures r.status == status && r.changed == now
    ensures r.created == inv.created && r.recipient == inv.recipient && r.eventId == inv.eventId
  {
    inv.(status := status, changed := now)
  }

  /** `new Invitation(now, now, PENDING, recipient, eventId)`. */
  function NewPendingInvitation(recipient: Recipient, eventId: int, now: Time): (r: Invitation)
    ensures r.status == PENDING && r.created == r.changed == now
    ensures r.recipient == recipient && r.eventId == eventId
  {
    Invitation(now, now, PENDING, recipient, eventId)
  }
}
