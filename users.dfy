/**
 * Identity values: registered users, guests (src/main/java/cz/profinit/stm/model/user/Guest.java)
 * and invitation recipients, with the equality Java's `equals` gives them.
 */
module Users {
  import opened Wrappers

  datatype Role = USER | ADMIN | GUEST

  /**
   * A registered user. `entityId` is the `Entity` superclass's id (a `Long`
   * that is `null` until set); `password` may be `null`, as after mapping a DTO.
   */
  datatype RegisteredUser = RegisteredUser(
    entityId: Option<int>,
    name: string,
    surname: string,
    password: Option<string>,
    email: string,
    role: Role)

  /** `new RegisteredUser(name, surname, password, email, role)`: no id yet. */
  function NewRegisteredUser(name: string, surname: string, password: Option<string>,
                             email: string, role: Role): (u: RegisteredUser)
    ensures u.entityId.None?
    ensures u.name == name && u.surname == surname && u.password == password
    ensures u.email == email && u.role == role
  {
    RegisteredUser(None, name, surname, password, email, role)
  }

  /**
   * `RegisteredUser.equals`: every field of its own, not the superclass's
   * entity id.
   */
  predicate SameUser(a: RegisteredUser, b: RegisteredUser)
  {
    a.name == b.name && a.surname == b.surname && a.password == b.password
    && a.email == b.email && a.role == b.role
  }

  /** `SameUser` is the equality of users with their ids erased. */
  lemma SameUserIgnoresOnlyId(a: RegisteredUser, b: RegisteredUser)
    ensures SameUser(a, b) <==> a.(entityId := None) == b.(entityId := None)
  {
  }

  /** A guest: a `User` with a name and role, plus the uri of its link. */
  datatype Guest = Guest(entityId: Option<int>, name: string, role: Role, uri: string)

  /** `new Guest(name, uri)`: the name goes to `User`, the role is GUEST. */
  function NewGuest(name: string, uri: string): (g: Guest)
    ensures g.role == GUEST && g.uri == uri && g.name == name && g.entityId.None?
  {
    Guest(None, name, GUEST, uri)
  }

  /** Lombok `equals` with `callSuper = false`: only the guest's own field, `uri`. */
  predicate SameGuest(a: Guest, b: Guest)
  {
    a.uri == b.uri
  }

  /** The generated `setUri`. */
  function SetUri(g: Guest, uri: string): (h: Guest)
    ensures h.uri == uri && h.name == g.name && h.role == g.role && h.entityId == g.entityId
  {
    g.(uri := uri)
  }

  /** Two guests are equal exactly when their uris are, whatever their names and ids. */
  lemma SameGuestIffSameUri(a: Guest, b: Guest)
    ensures SameGuest(a, b) <==> a.uri == b.uri
    ensures SameGuest(a, b) ==> SameGuest(a.(name := b.name, entityId := b.entityId), b)
  {
  }

  /** Setting the uri changes which guests the guest equals. */
  lemma SetUriDecidesEquality(g: Guest, h: Guest, uri: string)
    ensures SameGuest(SetUri(g, uri), h) <==> uri == h.uri
    ensures SameGuest(SetUri(g, uri), g) <==> uri == g.uri
  {
  }

  /** Whoever an invitation is addressed to: a registered user or a guest. */
  datatype Recipient = Registered(user: RegisteredUser) | GuestUser(guest: Guest)

  /**
   * `recipient.equals(other)`: Lombok's `equals` is false between a
   * RegisteredUser and a Guest.
   */
  predicate SameRecipient(a: Recipient, b: Recipient)
  {
    match (a, b)
    case (Registered(u), Registered(v)) => SameUser(u, v)
    case (GuestUser(g), GuestUser(h)) => SameGuest(g, h)
    case _ => false
  }

  /** Recipient equality is an equivalence and never confuses a user with a guest. */
  lemma SameRecipientIsEquivalence(a: Recipient, b: Recipient, c: Recipient)
    ensures SameRecipient(a, a)
    ensures SameRecipient(a, b) ==> SameRecipient(b, a)
    ensures SameRecipient(a, b) && SameRecipient(b, c) ==> SameRecipient(a, c)
    ensures SameRecipient(a, b) ==> a.Registered? == b.Registered?
  {
  }
}
