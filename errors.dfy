/**
 * The exceptions the modelled code throws, and the message of
 * `EntityNotFoundException` (src/main/java/cz/profinit/stm/exception/EntityNotFoundException.java).
 */
module Errors {

  /** One constructor per exception class the core throws. */
  datatype Error =
    | EntityNotFound(kind: string)        // EntityNotFoundException(kind)
    | UserIsAlreadyInEvent                // UserIsAlreadyInEventException
    | NonValidUri                         // NonValidUriException
    | EmailExists(message: string)        // EmailExistsException(message)
    | UserOrPasswordNotMatch              // UserOrPasswordNotMatchException
    | NoUserInList                        // RuntimeException("no user in list")
    | IndexOutOfBounds                    // Array/StringIndexOutOfBoundsException
    | NumberFormat                        // NumberFormatException
    | NullPointer                         // NullPointerException

  const NotFoundSuffix: string := " entity not found!"

  /** The message `EntityNotFoundException(kind)` passes to `Exception`. */
  function NotFoundMessage(kind: string): (m: string)
    ensures |m| == |kind| + 18
    ensures m[..|kind|] == kind && m[|kind|..] == NotFoundSuffix
  {
    kind + NotFoundSuffix
  }

  /** Different entity kinds never produce the same message. */
  lemma {:induction false} NotFoundMessageInjective(k1: string, k2: string)
    requires NotFoundMessage(k1) == NotFoundMessage(k2)
    ensures k1 == k2
  {
    var m := NotFoundMessage(k1);
    assert |k1| == |k2|;
    calc {
      k1;
      m[..|k1|];
      NotFoundMessage(k2)[..|k2|];
      k2;
    }
  }

  /** The message tested by the user service's `emailExists`. */
  lemma UserNotFoundMessage()
    ensures NotFoundMessage("User") == "User entity not found!"
  {
  }

  /** The messages the HTTP handler matches exactly. */
  lemma TeamAndSubgroupNotFoundMessages()
    ensures NotFoundMessage("Team") == "Team entity not found!"
    ensures NotFoundMessage("Subgroup") == "Subgroup entity not found!"
  {
    assert NotFoundMessage("Team") == "Team" + " entity not found!";
    assert NotFoundMessage("Subgroup") == "Subgroup" + " entity not found!";
  }

  /** The event message is shorter than the 27 characters the HTTP handler cuts. */
  lemma EventNotFoundMessage()
    ensures NotFoundMessage("Event") == "Event entity not found!"
    ensures |NotFoundMessage("Event")| == 23
  {
  }
}
