/**
 * Team membership: `Subgroup` (src/main/java/cz/profinit/sportTeamManager/model/team/Subgroup.java)
 * and the subgroup-list operations of `Team` that
 * src/test/java/cz/profinit/sportTeamManager/model/team/TeamTest.java exercises.
 */
module Teams {
  import opened Wrappers
  import opened Errors
  import opened Users
  import opened Seqs

  // ---------------------------------------------------------------------------
  // Member lists as values

  /** Java's `List.indexOf(user)`: the first element `user.equals`. */
  function IndexOfUser(s: seq<RegisteredUser>, user: RegisteredUser): (r: Option<nat>)
    ensures r.Some? ==> r.value < |s| && SameUser(user, s[r.value])
    ensures r.Some? ==> forall j :: 0 <= j < r.value ==> !SameUser(user, s[j])
    ensures r.None? <==> forall j :: 0 <= j < |s| ==> !SameUser(user, s[j])
  {
    FirstMatch(s, (v: RegisteredUser) => SameUser(user, v))
  }

  /** Java's `List.contains(user)`. */
  predicate ContainsUser(s: seq<RegisteredUser>, user: RegisteredUser)
  {
    IndexOfUser(s, user).Some?
  }

  /** Java's `List.remove(user)`: drops the first equal element, if any. */
  function WithoutFirst(s: seq<RegisteredUser>, user: RegisteredUser): (r: seq<RegisteredUser>)
    ensures ContainsUser(s, user) ==> |r| == |s| - 1
    ensures ContainsUser(s, user) ==> multiset(r) + multiset{s[IndexOfUser(s, user).value]} == multiset(s)
    ensures !ContainsUser(s, user) ==> r == s
  {
    match IndexOfUser(s, user)
    case None => s
    case Some(i) => RemoveAt(s, i)
  }

  /** `contains` means some element equals the user. */
  lemma ContainsUserMeaning(s: seq<RegisteredUser>, user: RegisteredUser)
    ensures ContainsUser(s, user) <==> exists i :: 0 <= i < |s| && SameUser(user, s[i])
  {
  }

  /** After appending a user the list contains it. */
  lemma ContainsAfterAppend(s: seq<RegisteredUser>, user: RegisteredUser)
    ensures ContainsUser(s + [user], user)
  {
    assert (s + [user])[|s|] == user;
  }

  /** Removing a present user keeps everything before and after its first occurrence, in order. */
  lemma WithoutFirstKeepsOrder(s: seq<RegisteredUser>, user: RegisteredUser)
    requires ContainsUser(s, user)
    ensures var i := IndexOfUser(s, user).value;
      WithoutFirst(s, user) == s[..i] + s[i + 1..]
      && forall j :: 0 <= j < i ==> !SameUser(user, s[j])
  {
    var i := IndexOfUser(s, user).value;
    var r := WithoutFirst(s, user);
    assert |r| == |s[..i] + s[i + 1..]|;
    forall j | 0 <= j < |r| ensures r[j] == (s[..i] + s[i + 1..])[j] {
      if j < i {
      } else {
      }
    }
  }

  /** On a list without the user, adding then removing it gives back the list. */
  lemma {:induction false} AddThenRemoveRestores(s: seq<RegisteredUser>, user: RegisteredUser)
    requires !ContainsUser(s, user)
    ensures WithoutFirst(s + [user], user) == s
  {
    FirstMatchAppend(s, user, (v: RegisteredUser) => SameUser(user, v));
    assert IndexOfUser(s + [user], user) == Some(|s|);
    assert (s + [user])[..|s|] == s;
  }

  // ---------------------------------------------------------------------------
  // Snapshots, used to state what a repository hands out

  datatype SubgroupValue = SubgroupValue(name: string, users: seq<RegisteredUser>, teamId: Option<int>)

  datatype TeamValue = TeamValue(
    entityId: Option<int>,
    name: string,
    sport: string,
    owner: RegisteredUser,
    subgroups: seq<SubgroupValue>)

  /** The first subgroup of a team snapshot with the given name. */
  function SubgroupNamed(t: TeamValue, name: string): (r: Option<SubgroupValue>)
    ensures r.Some? ==> r.value in t.subgroups && r.value.name == name
    ensures r.None? <==> forall i :: 0 <= i < |t.subgroups| ==> t.subgroups[i].name != name
  {
    match FirstMatch(t.subgroups, (g: SubgroupValue) => g.name == name)
    case None => None
    case Some(i) => Some(t.subgroups[i])
  }

  // ---------------------------------------------------------------------------
  // Subgroup

  /** A named, ordered member list inside the team `teamId`. */
  class Subgroup {
    var name: string
    var userList: seq<RegisteredUser>
    var teamId: Option<int>

    /** `new Subgroup(name, teamId)`: no members yet. */
    constructor (name: string, teamId: Option<int>)
      ensures this.name == name && this.teamId == teamId && userList == []
    {
      this.name := name;
      this.teamId := teamId;
      userList := [];
    }

    function Value(): (v: SubgroupValue)
      reads this
      ensures v.name == name && v.users == userList && v.teamId == teamId
    {
      SubgroupValue(name, userList, teamId)
    }

    /** Lombok's `setUserList`. */
    method SetUserList(users: seq<RegisteredUser>)
      modifies this
      ensures userList == users && name == old(name) && teamId == old(teamId)
    {
      userList := users;
    }

    /** `addUser`: appends, with no duplicate check. */
    method AddUser(user: RegisteredUser)
      modifies this
      ensures userList == old(userList) + [user]
      ensures name == old(name) && teamId == old(teamId)
    {
      userList := userList + [user];
    }

    /** `removeUser`: removes the first equal member, or throws when there is none. */
    method RemoveUser(user: RegisteredUser) returns (r: Outcome<Error>)
      modifies this
      ensures name == old(name) && teamId == old(teamId)
      ensures old(ContainsUser(userList, user)) ==>
                r == Pass && userList == WithoutFirst(old(userList), user)
                && |userList| == |old(userList)| - 1
      ensures !old(ContainsUser(userList, user)) ==>
                r == Fail(NoUserInList) && userList == old(userList)
    {
      if ContainsUser(userList, user) {
        userList := WithoutFirst(userList, user);
        r := Pass;
      } else {
        r := Fail(NoUserInList);
      }
    }

    /** `isUserInList`: whether some member equals the user. */
    function IsUserInList(user: RegisteredUser): (b: bool)
      reads this
      ensures b <==> exists i :: 0 <= i < |userList| && SameUser(user, userList[i])
    {
      ContainsUser(userList, user)
    }
  }

  /** The names of the subgroups, in list order. */
  function NamesOf(l: seq<Subgroup>): (r: seq<string>)
    reads l
    ensures |r| == |l| && forall i :: 0 <= i < |l| ==> r[i] == l[i].name
  {
    if l == [] then [] else [l[0].name] + NamesOf(l[1..])
  }

  /** Snapshots of the subgroups, in list order. */
  function ValuesOf(l: seq<Subgroup>): (r: seq<SubgroupValue>)
    reads l
    ensures |r| == |l| && forall i :: 0 <= i < |l| ==> r[i] == l[i].Value()
  {
    if l == [] then [] else [l[0].Value()] + ValuesOf(l[1..])
  }

  // ---------------------------------------------------------------------------
  // Team

  /** A team: name, sport, owner and an ordered list of subgroups. */
  class Team {
    var entityId: Option<int>
    var name: string
    var sport: string
    var owner: RegisteredUser
    var subgroupList: seq<Subgroup>

    /** `new Team(name, sport, subgroupList, owner)`: no id yet. */
    constructor (name: string, sport: string, subgroupList: seq<Subgroup>, owner: RegisteredUser)
      ensures this.name == name && this.sport == sport && this.owner == owner
      ensures this.subgroupList == subgroupList && entityId.None?
    {
      this.name := name;
      this.sport := sport;
      this.owner := owner;
      this.subgroupList := subgroupList;
      entityId := None;
    }

    function Value(): (v: TeamValue)
      reads this, subgroupList
      ensures v.entityId == entityId && v.name == name && v.sport == sport && v.owner == owner
      ensures v.subgroups == ValuesOf(subgroupList)
    {
      TeamValue(entityId, name, sport, owner, ValuesOf(subgroupList))
    }

    /** Lombok's `setEntityId`. */
    method SetEntityId(id: Option<int>)
      modifies this
      ensures entityId == id
      ensures name == old(name) && sport == old(sport) && owner == old(owner)
      ensures subgroupList == old(subgroupList)
    {
      entityId := id;
    }

    /** Lombok's `setSubgroupList`. */
    method SetSubgroupList(l: seq<Subgroup>)
      modifies this
      ensures subgroupList == l && entityId == old(entityId)
      ensures name == old(name) && sport == old(sport) && owner == old(owner)
    {
      subgroupList := l;
    }

    /** `addNewSubgroup(name)`: appends a fresh, empty subgroup of this team. */
    method AddNewSubgroup(subgroupName: string) returns (s: Subgroup)
      modifies this
      ensures fresh(s) && s.name == subgroupName && s.userList == [] && s.teamId == entityId
      ensures subgroupList == old(subgroupList) + [s]
      ensures entityId == old(entityId) && name == old(name) && sport == old(sport)
      ensures owner == old(owner)
    {
      s := new Subgroup(subgroupName, entityId);
      subgroupList := subgroupList + [s];
    }

    /** `isSubgroupInTeam(name)`: whether some subgroup has exactly that name. */
    function IsSubgroupInTeam(subgroupName: string): (b: bool)
      reads this, subgroupList
      ensures b <==> exists i :: 0 <= i < |subgroupList| && subgroupList[i].name == subgroupName
    {
      FirstMatch(NamesOf(subgroupList), (n: string) => n == subgroupName).Some?
    }

    /**
     * `getTeamSubgroup(name)`: the first subgroup with exactly that name, or
     * `EntityNotFoundException("Subgroup")`.
     */
    function GetTeamSubgroup(subgroupName: string): (r: Result<Subgroup, Error>)
      reads this, subgroupList
      ensures r.Success? ==> r.value in subgroupList && r.value.name == subgroupName
      ensures r.Success? ==>
                exists i :: 0 <= i < |subgroupList| && subgroupList[i] == r.value
                  && forall j :: 0 <= j < i ==> subgroupList[j].name != subgroupName
      ensures r.Failure? <==> !IsSubgroupInTeam(subgroupName)
      ensures r.Failure? ==> r.error == EntityNotFound("Subgroup")
    {
      match FirstMatch(NamesOf(subgroupList), (n: string) => n == subgroupName)
      case None => Failure(EntityNotFound("Subgroup"))
      case Some(i) => Success(subgroupList[i])
    }

    /**
     * `deleteSubgroup(name)`: removes the first subgroup with that name, or
     * throws `EntityNotFoundException("Subgroup")` and changes nothing.
     */
    method DeleteSubgroup(subgroupName: string) returns (r: Outcome<Error>)
      modifies this
      ensures entityId == old(entityId) && name == old(name) && sport == old(sport)
      ensures owner == old(owner)
      ensures old(IsSubgroupInTeam(subgroupName)) ==>
                r == Pass && |subgroupList| == |old(subgroupList)| - 1
                && (exists i :: 0 <= i < |old(subgroupList)| && old(subgroupList)[i].name == subgroupName
                      && (forall j :: 0 <= j < i ==> old(subgroupList)[j].name != subgroupName)
                      && subgroupList == old(subgroupList)[..i] + old(subgroupList)[i + 1..])
      ensures !old(IsSubgroupInTeam(subgroupName)) ==>
                r == Fail(EntityNotFound("Subgroup")) && subgroupList == old(subgroupList)
    {
      var k := FirstMatch(NamesOf(subgroupList), (n: string) => n == subgroupName);
      if k.Some? {
        subgroupList := subgroupList[..k.value] + subgroupList[k.value + 1..];
        r := Pass;
      } else {
        r := Fail(EntityNotFound("Subgroup"));
      }
    }
  }
}
