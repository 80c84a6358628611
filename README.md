# sportTeamManager core, modelled in Dafny

A model of the business core of the sport team manager application: the
members of a team's subgroups, the single-team repository stub, the
invitation ledger of an event with its guest links, the user, login and
event service stubs, the message-to-HTTP-status classifier and the record
mappers. Every operation is a Dafny function or method whose contract states
what the Java code does, and lemmas relate the operations to each other:
round trips of the mappers and of the guest link, the ordering of the
invitation list, the effect of repeated or batched invitations, and the
agreement of the two user stubs.

Layout, one module per file:

- `wrappers.dfy` (`Wrappers`): `Option`, `Result`, `Outcome`.
- `errors.dfy` (`Errors`): the exceptions thrown, and the message of `EntityNotFoundException`.
- `seqs.dfy` (`Seqs`): the first-match scan and removal at an index.
- `users.dfy` (`Users`): registered users, guests and invitation recipients, with Java's equality.
- `teams.dfy` (`Teams`): `Subgroup` and `Team` as classes.
- `team_repository.dfy` (`TeamRepository`): the team repository stub and its preset.
- `guest_link.dfy` (`GuestLink`): the guest link text, Java's `split("-")` and `Long.parseLong`.
- `http_exception_handler.dfy` (`HttpExceptionHandler`): the status classifier.
- `user_service.dfy` (`UserService`): the user service stub and the login stub.
- `events.dfy` (`Events`): places, messages, invitations and events.
- `mappers.dfy` (`Mappers`): the user, message and event mappers.
- `event_service.dfy` (`EventService`): the event service stub.
- `invitation_order.dfy` (`InvitationOrder`): filtering and ordering invitations.
- `invitation_service.dfy` (`InvitationService`): the invitation service stub.

Entities whose fields the code updates in place are classes:
- `Subgroup` and `Team`;
- the team repository, whose static preset becomes a field of one object, as do the two shared stub users it stamps ids on;
- the user, event and invitation services.

Values are datatypes. Every clock read (`LocalDateTime.now()`) is a `now` parameter. The static `Aes` cipher is one pair of functions, `decrypt` answering `None` for `null`. It is fixed when the user service stub is built, and the invitation service reaches it through that stub, so both services use the same cipher.

Java equality is modelled explicitly:
- Registered users compare by every field except the entity id.
- Guests compare by uri only.
- A registered user never equals a guest.

`Team`, `Event`, `Message`, `Place`, `Invitation`, `InvitationDto`, `RegisteredUser`, `UserMapper`, `PlaceMapper`, `Aes` and the repositories are not part of this model. Their behaviour is taken from the calls and tests that use them:
- `Team.getTeamSubgroup`: the first subgroup with the name, else "Subgroup" not found.
- `Team.addNewSubgroup`: appends a new subgroup with the given name, the team's own entity id and an empty member list. The tests check only the list's size and the new name.
- `Team.deleteSubgroup`: removes the first subgroup with the name, keeps the rest in order, and throws "Subgroup" not found when there is none.
- `Team.isSubgroupInTeam`, `Team.deleteSubgroup` and `Team.getTeamSubgroup` compare subgroup names exactly (`String.equals`).
- The event and user repositories: maps that fail with "Event" or "User" not found.
- `isUserPresent`: some invitation of the event has an equal recipient.
- `InvitationRepository.createNewInvitation`: returns the invitation it is given, as does `updateInvitation`.
- `InvitationDto.compareTo`: orders by changed time, oldest first, as the method's comment says.

The registration refusal message is built without a space before "already"
(`UserService.RegistrationRefusal`). The e-mail change message has the space. Both are modelled as written.

## Model

| member | source | states |
|---|---|---|
| Seqs.FirstMatch | src/test/java/cz/profinit/sportTeamManager/stubs/stubService/invitation/StubInvitationService.java:121-126 | the index of the first element satisfying the test, with no earlier one satisfying it; `None` exactly when no element does |
| Seqs.RemoveAt | src/main/java/cz/profinit/sportTeamManager/model/team/Subgroup.java:57 | the list without one index: one shorter, the elements before and after in order, the same multiset less that element |
| Seqs.FirstMatchAppend | src/main/java/cz/profinit/sportTeamManager/model/team/Subgroup.java:46-57 | the first match in a list with an element appended is the old first match, or the appended element when there was none |
| Users.NewRegisteredUser | src/test/java/cz/profinit/sportTeamManager/stubs/stubService/user/StubUserServiceImpl.java:28-32 | a new user carries the five given fields and no entity id |
| Users.SameUserIgnoresOnlyId | src/test/java/cz/profinit/sportTeamManager/mappers/UserMapperTest.java:58-61 | user equality is equality of every field but the entity id |
| Users.NewGuest | src/main/java/cz/profinit/stm/model/user/Guest.java:14-16 | a new guest has role GUEST, the given name and the given uri unchanged, and no id |
| Users.SetUri | src/main/java/cz/profinit/stm/model/user/Guest.java:8-12 | the setter changes the uri and no other field |
| Users.SameGuestIffSameUri | src/main/java/cz/profinit/stm/model/user/Guest.java:7-8 | two guests are equal exactly when their uris are; names and ids do not matter |
| Users.SetUriDecidesEquality | src/main/java/cz/profinit/stm/model/user/Guest.java:7-12 | after `setUri(u)` a guest equals exactly the guests whose uri is `u` |
| Users.SameRecipientIsEquivalence | src/test/java/cz/profinit/sportTeamManager/stubs/stubService/invitation/StubInvitationService.java:122 | recipient equality is reflexive, symmetric and transitive and never equates a registered user with a guest |
| Errors.NotFoundMessage | src/main/java/cz/profinit/stm/exception/EntityNotFoundException.java:15-16 | the message is the kind followed by " entity not found!", so its length is the kind's plus 18 |
| Errors.NotFoundMessageInjective | src/main/java/cz/profinit/stm/exception/EntityNotFoundException.java:16 | different kinds give different messages |
| Errors.UserNotFoundMessage | src/test/java/cz/profinit/sportTeamManager/stubs/stubService/user/StubUserServiceImpl.java:223 | the "User" message is exactly the string `emailExists` compares with |
| Errors.TeamAndSubgroupNotFoundMessages | src/main/java/cz/profinit/sportTeamManager/exceptions/HttpExceptionHandler.java:14-33 | the "Team" and "Subgroup" messages are exactly the strings the HTTP handler matches |
| Errors.EventNotFoundMessage | src/main/java/cz/profinit/stm/exception/EntityNotFoundException.java:16 | the "Event" message is "Event entity not found!", 23 characters |
| Teams.IndexOfUser | src/main/java/cz/profinit/sportTeamManager/model/team/Subgroup.java:56-57 | the first member equal to the user, none before it equal; `None` exactly when no member is equal |
| Teams.WithoutFirst | src/main/java/cz/profinit/sportTeamManager/model/team/Subgroup.java:57 | removing a present user shortens the list by one and removes one copy from its multiset; an absent user leaves the list as it is |
| Teams.ContainsUserMeaning | src/main/java/cz/profinit/sportTeamManager/model/team/Subgroup.java:70-72 | `contains` holds exactly when some member equals the user |
| Teams.ContainsAfterAppend | src/main/java/cz/profinit/sportTeamManager/model/team/Subgroup.java:46-48 | after appending a user the list contains it |
| Teams.WithoutFirstKeepsOrder | src/main/java/cz/profinit/sportTeamManager/model/team/Subgroup.java:56-57 | removal drops exactly the first equal member and keeps the rest in order |
| Teams.AddThenRemoveRestores | src/main/java/cz/profinit/sportTeamManager/model/team/Subgroup.java:46-58 | on a list without the user, `addUser` then `removeUser` gives back the original list |
| Teams.SubgroupNamed | src/test/java/cz/profinit/sportTeamManager/model/team/TeamTest.java:65-67 | a subgroup of the team with exactly that name, and none exactly when no subgroup has it |
| Teams.Subgroup.constructor | src/main/java/cz/profinit/sportTeamManager/model/team/Subgroup.java:34-38 | a new subgroup has the given name and team id and no members |
| Teams.Subgroup.SetUserList | src/test/java/cz/profinit/sportTeamManager/model/team/TeamTest.java:46 | the member list is replaced; name and team id stay |
| Teams.Subgroup.AddUser | src/main/java/cz/profinit/sportTeamManager/model/team/Subgroup.java:46-48 | appends the user at the end, duplicates allowed; name and team id stay |
| Teams.Subgroup.RemoveUser | src/main/java/cz/profinit/sportTeamManager/model/team/Subgroup.java:55-61 | a present user: its first occurrence is removed and the list shrinks by one; an absent user: the "no user in list" error and no change |
| Teams.Subgroup.IsUserInList | src/main/java/cz/profinit/sportTeamManager/model/team/Subgroup.java:70-72 | true exactly when some member equals the user |
| Teams.Team.constructor | src/test/java/cz/profinit/sportTeamManager/model/team/TeamTest.java:44 | a new team has the given name, sport, owner and subgroup list and no id |
| Teams.Team.SetEntityId | src/test/java/cz/profinit/sportTeamManager/repository/team/TeamRepositoryStub.java:55 | only the id changes |
| Teams.Team.SetSubgroupList | src/test/java/cz/profinit/sportTeamManager/model/team/TeamTest.java:48 | only the subgroup list changes |
| Teams.Team.AddNewSubgroup | src/test/java/cz/profinit/sportTeamManager/model/team/TeamTest.java:55-59 | appends one fresh, empty subgroup with the given name and the team's id; the list grows by one |
| Teams.Team.IsSubgroupInTeam | src/test/java/cz/profinit/sportTeamManager/model/team/TeamTest.java:85-88 | true exactly when some subgroup has exactly that name |
| Teams.Team.GetTeamSubgroup | src/test/java/cz/profinit/sportTeamManager/model/team/TeamTest.java:65-67 | the first subgroup with that name; "Subgroup" not found exactly when there is none |
| Teams.Team.DeleteSubgroup | src/test/java/cz/profinit/sportTeamManager/model/team/TeamTest.java:74-78 | removes the first subgroup with that name and shrinks the list by one, keeping the rest in order; with no such subgroup, "Subgroup" not found and no change |
| TeamRepository.PresetOwnerIsMemberAndCoach | src/test/java/cz/profinit/sportTeamManager/repository/team/TeamRepositoryStub.java:44-48 | in the preset the owner is in "All Users" and in "Coaches", and "Empty subgroup" has no members |
| TeamRepository.PresetMembers | src/test/java/cz/profinit/sportTeamManager/repository/team/TeamRepositoryStub.java:40-55 | the preset is "B team", sport "sipky", id 1, with subgroups "All Users" = [owner (id 1), second user (id 2)], "Coaches", "Empty subgroup" in that order |
| TeamRepository.TeamRepositoryStub.constructor | src/test/java/cz/profinit/sportTeamManager/repository/team/TeamRepositoryStub.java:30 | no preset team yet |
| TeamRepository.TeamRepositoryStub.SetPresetTeam | src/test/java/cz/profinit/sportTeamManager/repository/team/TeamRepositoryStub.java:39-56 | builds a fresh team and fresh subgroups equal to the preset, and stamps ids 1 and 2 on the two shared stub users |
| TeamRepository.TeamRepositoryStub.NewPresetSubgroups | src/test/java/cz/profinit/sportTeamManager/repository/team/TeamRepositoryStub.java:44-53 | three fresh subgroups of team 1 with the preset members, in order |
| TeamRepository.TeamRepositoryStub.GetPresetTeam | src/test/java/cz/profinit/sportTeamManager/repository/team/TeamRepositoryStub.java:32-37 | rebuilds the preset on every call, so earlier changes to it are discarded, and stamps ids 1 and 2 on the two stub users again |
| TeamRepository.TeamRepositoryStub.EnsurePreset | src/test/java/cz/profinit/sportTeamManager/repository/team/TeamRepositoryStub.java:67 | lazy start: afterwards a preset exists; an existing one is kept |
| TeamRepository.TeamRepositoryStub.InsertTeam | src/test/java/cz/profinit/sportTeamManager/repository/team/TeamRepositoryStub.java:59-62 | the team gets id 10 and nothing else changes |
| TeamRepository.TeamRepositoryStub.MatchPreset | src/test/java/cz/profinit/sportTeamManager/repository/team/TeamRepositoryStub.java:67-68 | a `null` id throws, an id other than the preset's is "Team" not found, otherwise success; the store and the stub users change only by the lazy start of the preset |
| TeamRepository.TeamRepositoryStub.DeleteTeam | src/test/java/cz/profinit/sportTeamManager/repository/team/TeamRepositoryStub.java:65-69 | fails exactly when the id is missing or differs from the preset's (on a fresh store: passes exactly for id 1); deletes nothing, and nothing else changes beyond the lazy start of the preset |
| TeamRepository.TeamRepositoryStub.UpdateTeam | src/test/java/cz/profinit/sportTeamManager/repository/team/TeamRepositoryStub.java:72-76 | fails exactly when the id is missing or differs from the preset's (on a fresh store: passes exactly for id 1); updates nothing, and nothing else changes beyond the lazy start of the preset |
| TeamRepository.TeamRepositoryStub.FindTeamsByName | src/test/java/cz/profinit/sportTeamManager/repository/team/TeamRepositoryStub.java:79-86 | the one-element list holding the preset exactly when the name is the preset's ("B team" on a fresh store), else "Team" not found; the store and the stub users change only by the lazy start of the preset |
| TeamRepository.TeamRepositoryStub.FindTeamById | src/test/java/cz/profinit/sportTeamManager/repository/team/TeamRepositoryStub.java:89-94 | the preset exactly when the id is the preset's (1 on a fresh store), else "Team" not found; the store and the stub users change only by the lazy start of the preset |
| GuestLink.NatToString | src/test/java/cz/profinit/sportTeamManager/stubs/stubService/user/StubUserServiceImpl.java:165 | `Long.toString` of a non-negative number is a non-empty string of digits |
| GuestLink.ParseLong | src/test/java/cz/profinit/sportTeamManager/stubs/stubService/invitation/StubInvitationService.java:194 | a parsed value is within the 64-bit range; the empty string is a `NumberFormatException` |
| GuestLink.Fields | src/test/java/cz/profinit/sportTeamManager/stubs/stubService/invitation/StubInvitationService.java:194 | splitting gives at least one field |
| GuestLink.DropTrailingEmpty | src/test/java/cz/profinit/sportTeamManager/stubs/stubService/invitation/StubInvitationService.java:194 | a prefix of the fields that does not end in an empty one |
| GuestLink.EventIdOf | src/test/java/cz/profinit/sportTeamManager/stubs/stubService/invitation/StubInvitationService.java:194 | a plaintext with no `-` has no field 1: an index error |
| GuestLink.DigitsOfNat | src/test/java/cz/profinit/sportTeamManager/stubs/stubService/user/StubUserServiceImpl.java:165 | the digits of a number read back to that number |
| GuestLink.FieldsWithoutDash | src/test/java/cz/profinit/sportTeamManager/stubs/stubService/invitation/StubInvitationService.java:194 | a string with no `-` is a single field |
| GuestLink.FieldsOfJoin | src/test/java/cz/profinit/sportTeamManager/stubs/stubService/invitation/StubInvitationService.java:194 | the fields of `a + "-" + b` are `a` followed by the fields of `b` |
| GuestLink.NatStringHasNoDash | src/test/java/cz/profinit/sportTeamManager/stubs/stubService/user/StubUserServiceImpl.java:165 | a non-negative number is written without `-` |
| GuestLink.GuestLinkRoundTrip | src/test/java/cz/profinit/sportTeamManager/stubs/stubService/user/StubUserServiceImpl.java:163-166 | for every guest id and every non-negative `Long` event id, reading field 1 of "guestId-eventId" gives the event id back |
| GuestLink.NegativeEventIdIsUnreadable | src/test/java/cz/profinit/sportTeamManager/stubs/stubService/invitation/StubInvitationService.java:194 | a negative event id makes field 1 empty, so the parse fails |
| GuestLink.ParseLongRejectsLetter | src/test/java/cz/profinit/sportTeamManager/stubs/stubService/invitation/StubInvitationService.java:194 | a string starting with anything but a sign or a digit does not parse |
| GuestLink.NullEventIdIsUnreadable | src/test/java/cz/profinit/sportTeamManager/stubs/stubService/user/StubUserServiceImpl.java:165 | a `null` event id is written "null", which does not parse |
| HttpExceptionHandler.MatchExact | src/main/java/cz/profinit/sportTeamManager/exceptions/HttpExceptionHandler.java:14-37 | an exact match raises a status carrying the message; UNAUTHORIZED exactly for "Access denied" |
| HttpExceptionHandler.HttpErrorMessages | src/main/java/cz/profinit/sportTeamManager/exceptions/HttpExceptionHandler.java:13-42 | a `null` message throws; a raised status carries the message; the handler fails itself only on messages shorter than 27 characters |
| HttpExceptionHandler.HttpErrorMessagesFixed | src/main/java/cz/profinit/sportTeamManager/exceptions/HttpExceptionHandler.java:38-40 | the same classification with a prefix test that cannot fail |
| HttpExceptionHandler.AccountPrefixLength | src/main/java/cz/profinit/sportTeamManager/exceptions/HttpExceptionHandler.java:38 | the prefix is 27 characters |
| HttpExceptionHandler.AccessDeniedIsUnauthorized | src/main/java/cz/profinit/sportTeamManager/exceptions/HttpExceptionHandler.java:20-22 | UNAUTHORIZED is raised exactly for "Access denied" |
| HttpExceptionHandler.ExactMessagesAreBadRequest | src/main/java/cz/profinit/sportTeamManager/exceptions/HttpExceptionHandler.java:14-37 | each of the seven other exact messages raises BAD_REQUEST with that message |
| HttpExceptionHandler.ExactMessagesStart | src/main/java/cz/profinit/sportTeamManager/exceptions/HttpExceptionHandler.java:14-37 | the exact messages are at most 27 characters and only "Access denied" starts with 'A' |
| HttpExceptionHandler.AccountMessagesAreBadRequest | src/main/java/cz/profinit/sportTeamManager/exceptions/HttpExceptionHandler.java:38-40 | a message starting with "Account with e-mail address" raises BAD_REQUEST with that message |
| HttpExceptionHandler.LongUnmatchedMessagesReturn | src/main/java/cz/profinit/sportTeamManager/exceptions/HttpExceptionHandler.java:13-42 | an unmatched message of 27 characters or more returns with no status |
| HttpExceptionHandler.ShortUnmatchedMessagesCrash | src/main/java/cz/profinit/sportTeamManager/exceptions/HttpExceptionHandler.java:38 | an unmatched message shorter than 27 characters fails with an index error |
| HttpExceptionHandler.EventNotFoundCrashesHandler | src/main/java/cz/profinit/sportTeamManager/exceptions/HttpExceptionHandler.java:38 | "Event entity not found!" makes the handler fail with an index error |
| HttpExceptionHandler.GuestNotFoundCrashesHandler | src/main/java/cz/profinit/sportTeamManager/exceptions/HttpExceptionHandler.java:38 | "Guest entity not found!" makes the handler fail with an index error |
| HttpExceptionHandler.InvitationNotFoundIsNotReported | src/main/java/cz/profinit/sportTeamManager/exceptions/HttpExceptionHandler.java:38-41 | "Invitation entity not found!" returns with no status raised |
| HttpExceptionHandler.FixedNeverCrashes | src/main/java/cz/profinit/sportTeamManager/exceptions/HttpExceptionHandler.java:38 | the corrected handler never fails on a present message |
| HttpExceptionHandler.FixedAgreesWithOriginal | src/main/java/cz/profinit/sportTeamManager/exceptions/HttpExceptionHandler.java:13-42 | the corrected handler agrees wherever the original does not fail, and returns where it fails on the index |
| UserService.LoggedUser | src/test/java/cz/profinit/sportTeamManager/stubs/stubService/user/StubUserServiceImpl.java:69-71 | a new Adam Stastny at "email@gmail.com" with password "pass", not equal to the stored fifth user |
| UserService.StubUserService.constructor | src/test/java/cz/profinit/sportTeamManager/stubs/stubService/user/StubUserServiceImpl.java:28-34 | the five stub users and the stub guest |
| UserService.StubUserService.FindUserByEmail | src/test/java/cz/profinit/sportTeamManager/stubs/stubService/user/StubUserServiceImpl.java:196-210 | succeeds exactly for the five addresses, else "User" not found |
| UserService.StubUserService.FoundUserHasEmail | src/test/java/cz/profinit/sportTeamManager/stubs/stubService/user/StubUserServiceImpl.java:28-32 | the user found carries the e-mail asked for and its own stored password |
| UserService.StubUserService.EmailExists | src/test/java/cz/profinit/sportTeamManager/stubs/stubService/user/StubUserServiceImpl.java:219-227 | true exactly for the five addresses |
| UserService.StubUserService.EmailExistsIffFound | src/test/java/cz/profinit/sportTeamManager/stubs/stubService/user/StubUserServiceImpl.java:219-227 | `emailExists` is true exactly when `findUserByEmail` succeeds |
| UserService.StubUserService.NewUserRegistration | src/test/java/cz/profinit/sportTeamManager/stubs/stubService/user/StubUserServiceImpl.java:47-61 | refuses "email@gmail.com" with the e-mail-exists message; otherwise the same names and e-mail, role USER, password "hashedPassword", no id |
| UserService.StubUserService.RegistrationIgnoresPasswordAndRole | src/test/java/cz/profinit/sportTeamManager/stubs/stubService/user/StubUserServiceImpl.java:54-60 | registration looks only at the names and the e-mail |
| UserService.StubUserService.RegistrationRefusesOnlyEmail5 | src/test/java/cz/profinit/sportTeamManager/stubs/stubService/user/StubUserServiceImpl.java:49-52 | of the five known addresses only "email@gmail.com" is refused |
| UserService.StubUserService.CopyAsUser | src/test/java/cz/profinit/sportTeamManager/stubs/stubService/user/StubUserServiceImpl.java:84-89 | the copy has role USER and no id, and equals the original exactly when the original's role is USER |
| UserService.StubUserService.ChangeUserName | src/test/java/cz/profinit/sportTeamManager/stubs/stubService/user/StubUserServiceImpl.java:82-92 | "User" not found exactly for an unknown address; otherwise a copy with the new name and role USER, the stored user untouched |
| UserService.StubUserService.ChangeUserSurname | src/test/java/cz/profinit/sportTeamManager/stubs/stubService/user/StubUserServiceImpl.java:103-113 | "User" not found exactly for an unknown address; otherwise a copy with the new surname and role USER |
| UserService.StubUserService.ChangeUserEmail | src/test/java/cz/profinit/sportTeamManager/stubs/stubService/user/StubUserServiceImpl.java:124-137 | "User" not found first; a taken new address is refused; otherwise a copy with the new address and role USER |
| UserService.StubUserService.ChangedEmailIsUnknown | src/test/java/cz/profinit/sportTeamManager/stubs/stubService/user/StubUserServiceImpl.java:126-127 | a successfully changed address is never one the service knows |
| UserService.StubUserService.NameAndSurnameChangesAgree | src/test/java/cz/profinit/sportTeamManager/stubs/stubService/user/StubUserServiceImpl.java:82-113 | the name and surname changes differ only in the field they replace |
| UserService.StubUserService.ChangeUserRole | src/test/java/cz/profinit/sportTeamManager/stubs/stubService/user/StubUserServiceImpl.java:149-153 | the stored user itself gets the new role, so later look-ups see it; other addresses and the guest are untouched |
| UserService.StubUserService.CreateNewGuest | src/test/java/cz/profinit/sportTeamManager/stubs/stubService/user/StubUserServiceImpl.java:162-169 | a guest with id 0, the given name, role GUEST, and uri the encryption of "0-eventId" |
| UserService.StubUserService.CreatedGuestLinkNamesEvent | src/test/java/cz/profinit/sportTeamManager/stubs/stubService/user/StubUserServiceImpl.java:163-166 | when the cipher decrypts what it encrypts, the new guest's uri carries its event id back through the parse of the invitation service |
| UserService.StubUserService.CreatedGuestsForOneEventAreSame | src/test/java/cz/profinit/sportTeamManager/stubs/stubService/user/StubUserServiceImpl.java:163-166 | all guests created for one event are equal, whatever their names |
| UserService.StubUserService.FindGuestByUri | src/test/java/cz/profinit/sportTeamManager/stubs/stubService/user/StubUserServiceImpl.java:178-185 | the stub guest exactly for its own uri and "jsem_place_holder", else "Guest" not found |
| UserService.StubUserService.PlaceholderFindsOtherUri | src/test/java/cz/profinit/sportTeamManager/stubs/stubService/user/StubUserServiceImpl.java:181-182 | the guest found by the placeholder does not carry the placeholder uri |
| UserService.RefusalsAreBadRequest | src/test/java/cz/profinit/sportTeamManager/stubs/stubService/user/StubUserServiceImpl.java:49-52 | both e-mail refusals are turned into BAD_REQUEST by the HTTP handler |
| UserService.UnknownUserIsBadRequest | src/test/java/cz/profinit/sportTeamManager/stubs/stubService/user/StubUserServiceImpl.java:209 | the not-found message of an unknown address is turned into BAD_REQUEST |
| UserService.LoadUserByUsername | src/test/java/cz/profinit/sportTeamManager/stubs/stubService/user/StubUserDetailsService.java:45-56 | details for exactly the five addresses, with that address and the fixed hash; else the user-or-password error |
| UserService.DetailsAgreeWithUserService | src/test/java/cz/profinit/sportTeamManager/stubs/stubService/user/StubUserDetailsService.java:47-51 | the login stub accepts exactly the addresses the user service finds |
| UserService.DetailsPasswordMatchesStoredPassword | src/test/java/cz/profinit/sportTeamManager/stubs/stubService/user/StubUserDetailsService.java:52 | the login hash equals the stored password only for the first three users |
| Events.AddMessage | src/test/java/cz/profinit/sportTeamManager/service/event/EventServiceStub.java:100 | the message is appended and nothing else changes |
| Events.AddInvitation | src/test/java/cz/profinit/sportTeamManager/service/event/EventServiceStub.java:143 | the invitation is appended and nothing else changes |
| Events.ToggleCanceled | src/test/java/cz/profinit/sportTeamManager/service/event/EventServiceStub.java:127 | the cancel flag is negated and nothing else changes |
| Events.ToggleCanceledTwice | src/test/java/cz/profinit/sportTeamManager/service/event/EventServiceStub.java:126-127 | toggling twice restores the event |
| Events.WithStatus | src/test/java/cz/profinit/sportTeamManager/stubs/stubService/invitation/StubInvitationService.java:102-103 | only status and changed time are replaced |
| Events.NewPendingInvitation | src/test/java/cz/profinit/sportTeamManager/stubs/stubService/invitation/StubInvitationService.java:82 | a PENDING invitation whose created and changed times are both `now` |
| EventService.UpdatedEvent | src/test/java/cz/profinit/sportTeamManager/service/event/EventServiceStub.java:65-69 | date, place, capacity and cancel flag come from the DTO; id, creator, messages and invitations are kept |
| EventService.UpdatedEventIdempotent | src/test/java/cz/profinit/sportTeamManager/service/event/EventServiceStub.java:64-72 | updating twice from one DTO is updating once |
| EventService.UpdatedEventForgetsOldFields | src/test/java/cz/profinit/sportTeamManager/service/event/EventServiceStub.java:66-69 | the updated event does not depend on the old date, place, capacity or flag |
| EventService.UpdatedEventMatchesDto | src/test/java/cz/profinit/sportTeamManager/service/event/EventServiceStub.java:66-69 | after an update the event maps back to the DTO, up to id and creator |
| EventService.EventServiceStub.constructor | src/test/java/cz/profinit/sportTeamManager/service/event/EventServiceStub.java:35-40 | the repositories given |
| EventService.EventServiceStub.FindEventById | src/test/java/cz/profinit/sportTeamManager/service/event/EventServiceStub.java:82-84 | the stored event, or "Event" not found exactly for an unknown id |
| EventService.EventServiceStub.GetAllMessages | src/test/java/cz/profinit/sportTeamManager/service/event/EventServiceStub.java:113-115 | the event's message list unchanged, or "Event" not found |
| EventService.EventServiceStub.GetAllInvitations | src/test/java/cz/profinit/sportTeamManager/service/event/EventServiceStub.java:155-157 | the event's invitation list unchanged, or "Event" not found |
| EventService.EventServiceStub.UpdateEvent | src/test/java/cz/profinit/sportTeamManager/service/event/EventServiceStub.java:64-72 | an unknown id fails with no change; otherwise the stored event is replaced by its update |
| EventService.EventServiceStub.AddNewMessage | src/test/java/cz/profinit/sportTeamManager/service/event/EventServiceStub.java:96-103 | the sender is looked up before the event; either failing changes nothing; otherwise the message of that sender, text, time and event id is appended |
| EventService.EventServiceStub.ChangeEventStatus | src/test/java/cz/profinit/sportTeamManager/service/event/EventServiceStub.java:125-130 | an unknown id fails with no change; otherwise the cancel flag is flipped |
| EventService.EventServiceStub.AddNewInvitation | src/test/java/cz/profinit/sportTeamManager/service/event/EventServiceStub.java:141-146 | an unknown id fails with no change; otherwise `getAllInvitations` afterwards is the old list plus the invitation |
| EventService.AddedInvitationIsListed | src/test/java/cz/profinit/sportTeamManager/service/event/EventServiceStub.java:142-143 | an added invitation is in the list, last |
| EventService.AddedMessageKeepsEarlier | src/test/java/cz/profinit/sportTeamManager/service/event/EventServiceStub.java:100 | adding a message keeps every earlier message in place |
| Mappers.UserToDto | src/test/java/cz/profinit/sportTeamManager/mappers/UserMapperTest.java:52-55 | name, surname and e-mail are kept; the DTO has no password |
| Mappers.DtoToUser | src/test/java/cz/profinit/sportTeamManager/mappers/UserMapperTest.java:57-61 | name, surname and e-mail are kept, with a `null` password, role USER and no id |
| Mappers.DetailsToUser | src/test/java/cz/profinit/sportTeamManager/mappers/UserMapperTest.java:76-79 | the details DTO gives the user with those names, that password and e-mail, role USER |
| Mappers.UsersToDtos | src/test/java/cz/profinit/sportTeamManager/mappers/UserMapperTest.java:71-74 | element by element, same length and order |
| Mappers.DtosToUsers | src/test/java/cz/profinit/sportTeamManager/mappers/UserMapperTest.java:63-69 | element by element, same length and order |
| Mappers.DtoUserDtoRoundTrip | src/test/java/cz/profinit/sportTeamManager/mappers/UserMapperTest.java:53-61 | DTO to user to DTO is the identity |
| Mappers.UserDtoUserRoundTrip | src/test/java/cz/profinit/sportTeamManager/mappers/UserMapperTest.java:57-61 | user to DTO to user gives the original exactly when its password is `null` and its role USER; otherwise only the password is lost |
| Mappers.DtoListRoundTrip | src/test/java/cz/profinit/sportTeamManager/mappers/UserMapperTest.java:63-74 | the list mappings round-trip from the DTO side |
| Mappers.DetailsAgreeWithDto | src/test/java/cz/profinit/sportTeamManager/mappers/UserMapperTest.java:49 | the details mapping is the DTO mapping plus the password |
| Mappers.MessageToDto | src/main/java/cz/profinit/sportTeamManager/mapper/MessageMapper.java:30-32 | text, date and event id are kept and the sender goes through the user mapping |
| Mappers.DtoToMessage | src/main/java/cz/profinit/sportTeamManager/mapper/MessageMapper.java:40-42 | text, date and event id are kept and the sender is mapped back |
| Mappers.MessageDtoRoundTrip | src/main/java/cz/profinit/sportTeamManager/mapper/MessageMapper.java:30-42 | `toDto(toMessage(d)) == d` |
| Mappers.MessageRoundTrip | src/main/java/cz/profinit/sportTeamManager/mapper/MessageMapper.java:31-41 | `toMessage(toDto(m))` keeps text, date and event id, and the sender up to a lost password |
| Mappers.ToListOfDto | src/main/java/cz/profinit/sportTeamManager/mapper/MessageMapper.java:50-58 | length and order kept; element i is `toDto` of message i |
| Mappers.EventToDto | src/main/java/cz/profinit/sportTeamManager/mappers/EventMapper.java:32-35 | id, date, capacity and flag are copied; place and creator are mapped |
| Mappers.DtoToEvent | src/main/java/cz/profinit/sportTeamManager/mappers/EventMapper.java:43-48 | empty message and invitation lists, the DTO's id as entity id, the rest copied or mapped |
| Mappers.EventToDtoDropsLists | src/main/java/cz/profinit/sportTeamManager/mappers/EventMapper.java:33-34 | the DTO does not depend on the message and invitation lists |
| Mappers.EventDtoRoundTrip | src/main/java/cz/profinit/sportTeamManager/mappers/EventMapper.java:33-46 | `toDto(toEvent(d)) == d` when the place mapping round-trips |
| InvitationOrder.OfStatus | src/test/java/cz/profinit/sportTeamManager/stubs/stubService/invitation/StubInvitationService.java:155-159 | exactly the entries with the status, each as often as in the input |
| InvitationOrder.Insert | src/test/java/cz/profinit/sportTeamManager/stubs/stubService/invitation/StubInvitationService.java:160 | one more element, the same multiset plus it |
| InvitationOrder.Sort | src/test/java/cz/profinit/sportTeamManager/stubs/stubService/invitation/StubInvitationService.java:160 | a permutation of the input |
| InvitationOrder.InsertAbove | src/test/java/cz/profinit/sportTeamManager/stubs/stubService/invitation/StubInvitationService.java:160 | a lower bound of the inserted entry and of the list bounds every entry after the insertion |
| InvitationOrder.InsertKeepsSorted | src/test/java/cz/profinit/sportTeamManager/stubs/stubService/invitation/StubInvitationService.java:160 | inserting into an ordered list keeps it ordered |
| InvitationOrder.SortIsSorted | src/test/java/cz/profinit/sportTeamManager/stubs/stubService/invitation/StubInvitationService.java:160 | the sort's output is ordered by changed time, oldest first |
| InvitationOrder.InsertIsStable | src/test/java/cz/profinit/sportTeamManager/stubs/stubService/invitation/StubInvitationService.java:160 | an inserted entry goes before the entries of its own time |
| InvitationOrder.SortIsStable | src/test/java/cz/profinit/sportTeamManager/stubs/stubService/invitation/StubInvitationService.java:160 | entries of equal time keep their input order |
| InvitationOrder.OrderListOfInvitationByDateForSpecificStatus | src/test/java/cz/profinit/sportTeamManager/stubs/stubService/invitation/StubInvitationService.java:153-162 | exactly the entries with the status, each as often as in the input, ordered oldest first, equal times in input order |
| InvitationService.IsUserPresentMeaning | src/test/java/cz/profinit/sportTeamManager/stubs/stubService/invitation/StubInvitationService.java:81 | a user is present exactly when some invitation of the event has an equal recipient |
| InvitationService.ScanForRecipient | src/test/java/cz/profinit/sportTeamManager/stubs/stubService/invitation/StubInvitationService.java:121-126 | the loop finds the first invitation with an equal recipient, or none |
| InvitationService.StubEvent | src/test/java/cz/profinit/sportTeamManager/stubs/stubService/invitation/StubInvitationService.java:55-66 | event 0 with two invitations, the second for the stub guest |
| InvitationService.StubInvitationService.constructor | src/test/java/cz/profinit/sportTeamManager/stubs/stubService/invitation/StubInvitationService.java:55-66 | the stub event, user and guest |
| InvitationService.StubInvitationService.CreateStepMeaning | src/test/java/cz/profinit/sportTeamManager/stubs/stubService/invitation/StubInvitationService.java:78-87 | a refusal changes nothing; a success for exactly a known event, a known address and a user not yet present appends one PENDING invitation with created equal to changed, after which the user is present |
| InvitationService.StubInvitationService.CreateTwiceIsRefused | src/test/java/cz/profinit/sportTeamManager/stubs/stubService/invitation/StubInvitationService.java:81-86 | inviting the same user twice to one event refuses the second |
| InvitationService.StubInvitationService.CreateNewInvitation | src/test/java/cz/profinit/sportTeamManager/stubs/stubService/invitation/StubInvitationService.java:78-87 | the event service's store and the answer change as the step says |
| InvitationService.StubInvitationService.CreateBatchMeaning | src/test/java/cz/profinit/sportTeamManager/stubs/stubService/invitation/StubInvitationService.java:138-143 | one PENDING invitation per user in order for a success; fewer on failure, with those created before the failure kept in the event |
| InvitationService.StubInvitationService.BatchWithRepeatedUserStops | src/test/java/cz/profinit/sportTeamManager/stubs/stubService/invitation/StubInvitationService.java:140-141 | a batch naming one user twice stops at the second with one invitation made |
| InvitationService.StubInvitationService.CreateNewInvitationsFromList | src/test/java/cz/profinit/sportTeamManager/stubs/stubService/invitation/StubInvitationService.java:138-143 | the loop leaves the store and answer of the batch |
| InvitationService.StubInvitationService.BatchStopsAtFailure | src/test/java/cz/profinit/sportTeamManager/stubs/stubService/invitation/StubInvitationService.java:140-141 | after a failure the rest of the list is not processed |
| InvitationService.StubInvitationService.FindInvitationIndex | src/test/java/cz/profinit/sportTeamManager/stubs/stubService/invitation/StubInvitationService.java:116-127 | a found index is within the event's list |
| InvitationService.StubInvitationService.FindInvitationIndexMeaning | src/test/java/cz/profinit/sportTeamManager/stubs/stubService/invitation/StubInvitationService.java:121-126 | the first invitation in list order whose recipient equals the user; "Invitation" not found exactly when none does |
| InvitationService.StubInvitationService.FindInvitationByEventIdAndEmail | src/test/java/cz/profinit/sportTeamManager/stubs/stubService/invitation/StubInvitationService.java:116-127 | event, then user, then the scan, as the index says |
| InvitationService.StubInvitationService.ChangeInvitationStatus | src/test/java/cz/profinit/sportTeamManager/stubs/stubService/invitation/StubInvitationService.java:99-105 | the found invitation gets the status and changed time in its event; a failed look-up changes nothing |
| InvitationService.StubInvitationService.GuestInvitationIndex | src/test/java/cz/profinit/sportTeamManager/stubs/stubService/invitation/StubInvitationService.java:187-220 | a found index is within the own event's list |
| InvitationService.StubInvitationService.GuestInvitationIndexMeaning | src/test/java/cz/profinit/sportTeamManager/stubs/stubService/invitation/StubInvitationService.java:187-220 | each failure in source order: unreadable uri `NonValidUri`, unreadable event id, other event "Event", unknown uri "Guest", no invitation for the guest "Invitation"; success exactly when every check passes and some invitation's recipient equals the guest, and then it is the first such invitation |
| InvitationService.StubInvitationService.OnlyKnownUrisResolve | src/test/java/cz/profinit/sportTeamManager/stubs/stubService/invitation/StubInvitationService.java:206-212 | no uri other than the two stub uris resolves; any uri the cipher cannot decrypt gives `NonValidUri` |
| InvitationService.StubInvitationService.StubGuestLinkResolves | src/test/java/cz/profinit/sportTeamManager/stubs/stubService/invitation/StubInvitationService.java:188-219 | with the stub uri decrypting to "0-0", the constructor's state resolves the link to the guest's invitation |
| InvitationService.StubInvitationService.CreatedGuestLinkNeedsKnownUri | src/test/java/cz/profinit/sportTeamManager/stubs/stubService/invitation/StubInvitationService.java:206-212 | a newly created guest's link fails unless its encryption is one of the two stub uris |
| InvitationService.StubInvitationService.GetGuestInvitation | src/test/java/cz/profinit/sportTeamManager/stubs/stubService/invitation/StubInvitationService.java:187-220 | decrypt, parse, event check, uri check, then the scan, as the index says |
| InvitationService.StubInvitationService.CreateGuestInvitation | src/test/java/cz/profinit/sportTeamManager/stubs/stubService/invitation/StubInvitationService.java:230-236 | an unknown event fails with no change; otherwise a PENDING invitation for a new guest of that event is appended, with no duplicate check |
| InvitationService.StubInvitationService.ChangeGuestInvitation | src/test/java/cz/profinit/sportTeamManager/stubs/stubService/invitation/StubInvitationService.java:247-253 | the resolved invitation gets the status and changed time in the own event; a failure changes nothing |
| InvitationService.ChangeTouchesOnlyOne | src/test/java/cz/profinit/sportTeamManager/stubs/stubService/invitation/StubInvitationService.java:102-103 | changing one invitation leaves the others and the list length as they were |

## Left out

- Object identity and aliasing: invitations, events and users are values here. Where Java mutates a shared object (an invitation whose status changes, the event the repository hands out), the model writes the new value back into the list or map that holds it. Other holders of the same Java object are not followed.
- The `Aes` cipher is not modelled. Properties that need a round trip state it as a precondition on the cipher.
- Wall-clock time: every `LocalDateTime.now()` is a parameter. Within one call, all reads are the same instant, and a batch of invitations uses one instant for all.
- `EventServiceStub.createNewEvent`: it only hands the mapped event to `EventRepository.insertEvent`, which is not part of this model and whose id assignment is unknown.
- `StubInvitationService.deleteInvitation`: it only delegates to `InvitationRepository.deleteInvitation`, which is not part of this model.
- The `TeamService` rules promised in `TeamController`'s comments (subgroup name collisions, owner changes): that service is not part of this model.
- `null` arguments other than the handler's message and a team's id. Java throws `NullPointerException` for these; the model takes non-null strings and ids.
- UserService.StubUserService.FindUserByEmail: the `NullPointerException` for a `null` address, after the null-safe first test, is not modelled, because strings are never `null` here.
- HttpExceptionHandler.HttpErrorMessages: lengths are counted in Unicode scalar values, because Dafny strings are sequences of those, while Java's `substring(0,27)` counts UTF-16 code units. A message with characters outside the Basic Multilingual Plane can therefore be short enough to fail here while Java returns normally. The two agree for messages in the Basic Multilingual Plane, which includes every message the code itself builds.
- HttpExceptionHandler.ShortUnmatchedMessagesCrash: "shorter than 27" is counted in scalar values, not UTF-16 code units.
- HttpExceptionHandler.LongUnmatchedMessagesReturn: "27 characters or more" is counted in scalar values, not UTF-16 code units.
- Errors.NotFoundMessage: the "+ 18" length is in scalar values. It equals Java's `length()` whenever the kind lies in the Basic Multilingual Plane.
- GuestLink.ParseLong: accepts ASCII digits only, while `Long.parseLong` also accepts other Unicode decimal digits.
- Logging, Spring wiring, the unused `userRepository` of the login stub, and concurrency (the stubs have no locking).

## Findings

| source | as written | input that shows it | evidently intended | confidence | as-written member | corrected member |
|---|---|---|---|---|---|---|
| src/main/java/cz/profinit/sportTeamManager/exceptions/HttpExceptionHandler.java:38 | after the exact tests, `e.getMessage().substring(0,27)` throws `StringIndexOutOfBoundsException` on any message shorter than 27 characters | the message of `EntityNotFoundException("Event")`, "Event entity not found!" (23 characters) | a prefix test (`startsWith`): such a message matches nothing and the handler returns | not executed | HttpExceptionHandler.HttpErrorMessages, HttpExceptionHandler.EventNotFoundCrashesHandler | HttpExceptionHandler.HttpErrorMessagesFixed, HttpExceptionHandler.FixedNeverCrashes |
