/**
 * The single-team store of
 * src/test/java/cz/profinit/sportTeamManager/repository/team/TeamRepositoryStub.java.
 */
module TeamRepository {
  import opened Wrappers
  import opened Errors
  import opened Users
  import opened Teams

  const PresetTeamId: int := 1
  const InsertedTeamId: int := 10
  const PresetTeamName: string := "B team"
  const PresetSport: string := "sipky"
  const AllUsersName: string := "All Users"
  const CoachesName: string := "Coaches"
  const EmptySubgroupName: string := "Empty subgroup"

  /** The owner as the preset stamps it: id 1. */
  function PresetOwner(user1: RegisteredUser): RegisteredUser { user1.(entityId := Some(1)) }

  /** The second member as the preset stamps it: id 2. */
  function PresetMember(user5: RegisteredUser): RegisteredUser { user5.(entityId := Some(2)) }

  /** What `setPresetTeam` builds from the two stub users. */
  function PresetValue(user1: RegisteredUser, user5: RegisteredUser): TeamValue
  {
    var owner := PresetOwner(user1);
    TeamValue(Some(PresetTeamId), PresetTeamName, PresetSport, owner,
      [SubgroupValue(AllUsersName, [owner, PresetMember(user5)], Some(PresetTeamId)),
       SubgroupValue(CoachesName, [owner], Some(PresetTeamId)),
       SubgroupValue(EmptySubgroupName, [], Some(PresetTeamId))])
  }

  /** The preset's owner belongs to "All Users" and to "Coaches"; the third subgroup is empty. */
  lemma PresetOwnerIsMemberAndCoach(user1: RegisteredUser, user5: RegisteredUser)
    ensures var t := PresetValue(user1, user5);
      && SubgroupNamed(t, "All Users").Some?
      && ContainsUser(SubgroupNamed(t, "All Users").value.users, t.owner)
      && SubgroupNamed(t, "Coaches").Some?
      && ContainsUser(SubgroupNamed(t, "Coaches").value.users, t.owner)
      && SubgroupNamed(t, "Empty subgroup") == Some(SubgroupValue("Empty subgroup", [], Some(1)))
  {
    var t := PresetValue(user1, user5);
    assert t.subgroups[0].name == "All Users";
    assert t.subgroups[1].name != "All Users" && t.subgroups[1].name == "Coaches";
    assert t.subgroups[0].name != "Coaches";
    assert t.subgroups[0].name != "Empty subgroup" && t.subgroups[1].name != "Empty subgroup";
    assert t.subgroups[2].name == "Empty subgroup";
    assert t.subgroups[0].users[0] == t.owner && t.subgroups[1].users[0] == t.owner;
  }

  /** The preset's "All Users" holds exactly the owner and the second member, ids 1 and 2, in that order. */
  lemma PresetMembers(user1: RegisteredUser, user5: RegisteredUser)
    ensures var t := PresetValue(user1, user5);
      && t.name == "B team" && t.sport == "sipky" && t.entityId == Some(1)
      && [t.subgroups[0].name, t.subgroups[1].name, t.subgroups[2].name]
         == ["All Users", "Coaches", "Empty subgroup"]
      && SubgroupNamed(t, "All Users").value.users == [t.owner, PresetMember(user5)]
      && t.owner.entityId == Some(1) && PresetMember(user5).entityId == Some(2)
  {
    var t := PresetValue(user1, user5);
    assert t.subgroups[0].name == "All Users";
  }

  /** `TeamRepositoryStub`, with its static preset and stub users as fields of one object. */
  class TeamRepositoryStub {
    var presetTeam: Team?
    /** `UserRepositoryStub.loggedUser1` and `loggedUser5`, whose ids the preset overwrites. */
    var loggedUser1: RegisteredUser
    var loggedUser5: RegisteredUser

    constructor (user1: RegisteredUser, user5: RegisteredUser)
      ensures presetTeam == null && loggedUser1 == user1 && loggedUser5 == user5
    {
      presetTeam := null;
      loggedUser1 := user1;
      loggedUser5 := user5;
    }

    /** `setPresetTeam`: builds a new team and new subgroups, discarding the previous preset. */
    method SetPresetTeam()
      modifies this
      ensures presetTeam != null && fresh(presetTeam)
      ensures forall s :: s in presetTeam.subgroupList ==> fresh(s)
      ensures presetTeam.Value() == PresetValue(old(loggedUser1), old(loggedUser5))
      ensures loggedUser1 == PresetOwner(old(loggedUser1))
      ensures loggedUser5 == PresetMember(old(loggedUser5))
    {
      loggedUser1 := PresetOwner(loggedUser1);
      loggedUser5 := PresetMember(loggedUser5);
      var subgroups := NewPresetSubgroups(loggedUser1, loggedUser5);
      var team := new Team(PresetTeamName, PresetSport, subgroups, loggedUser1);
      team.entityId := Some(PresetTeamId);
      presetTeam := team;
    }

    /** The three preset subgroups of team 1, filled by `addUser` in the source's order. */
    static method NewPresetSubgroups(owner: RegisteredUser, presetUser: RegisteredUser)
      returns (subgroups: seq<Subgroup>)
      ensures forall s :: s in subgroups ==> fresh(s)
      ensures ValuesOf(subgroups)
              == [SubgroupValue(AllUsersName, [owner, presetUser], Some(PresetTeamId)),
                  SubgroupValue(CoachesName, [owner], Some(PresetTeamId)),
                  SubgroupValue(EmptySubgroupName, [], Some(PresetTeamId))]
    {
      var allUsers := new Subgroup(AllUsersName, Some(PresetTeamId));
      allUsers.AddUser(owner);
      allUsers.AddUser(presetUser);
      var coaches := new Subgroup(CoachesName, Some(PresetTeamId));
      coaches.AddUser(owner);
      var empty := new Subgroup(EmptySubgroupName, Some(PresetTeamId));
      subgroups := [allUsers, coaches, empty];
      assert allUsers.Value() == SubgroupValue(AllUsersName, [owner, presetUser], Some(PresetTeamId));
      assert coaches.Value() == SubgroupValue(CoachesName, [owner], Some(PresetTeamId));
      assert empty.Value() == SubgroupValue(EmptySubgroupName, [], Some(PresetTeamId));
      assert ValuesOf(subgroups) == [allUsers.Value(), coaches.Value(), empty.Value()];
    }

    /** `getPresetTeam`: rebuilds the preset on every call and returns it. */
    method GetPresetTeam() returns (t: Team)
      modifies this
      ensures fresh(t) && t == presetTeam
      ensures forall s :: s in t.subgroupList ==> fresh(s)
      ensures t.Value() == PresetValue(old(loggedUser1), old(loggedUser5))
      ensures loggedUser1 == PresetOwner(old(loggedUser1))
      ensures loggedUser5 == PresetMember(old(loggedUser5))
    {
      SetPresetTeam();
      t := presetTeam;
    }

    /** `if (presetTeam == null) setPresetTeam();`, the lazy start of every query. */
    method EnsurePreset()
      modifies this
      ensures presetTeam != null
      ensures old(presetTeam) != null ==>
                presetTeam == old(presetTeam) && loggedUser1 == old(loggedUser1)
                && loggedUser5 == old(loggedUser5)
      ensures old(presetTeam) == null ==>
                fresh(presetTeam) && presetTeam.Value() == PresetValue(old(loggedUser1), old(loggedUser5))
                && loggedUser1 == PresetOwner(old(loggedUser1)) && loggedUser5 == PresetMember(old(loggedUser5))
    {
      if presetTeam == null {
        SetPresetTeam();
      }
    }

    /** `insertTeam`: gives the team id 10 and saves nothing. */
    method InsertTeam(team: Team)
      modifies team
      ensures team.entityId == Some(InsertedTeamId)
      ensures team.name == old(team.name) && team.sport == old(team.sport)
      ensures team.owner == old(team.owner) && team.subgroupList == old(team.subgroupList)
    {
      team.SetEntityId(Some(InsertedTeamId));
    }

    /**
     * The check shared by `deleteTeam` and `updateTeam`: the team's id must
     * equal the preset's (a `null` id throws), and nothing else happens.
     */
    method MatchPreset(team: Team) returns (r: Outcome<Error>)
      modifies this
      ensures presetTeam != null
      ensures old(presetTeam) != null ==> presetTeam == old(presetTeam)
      ensures old(presetTeam) == null ==>
                fresh(presetTeam) && presetTeam.Value() == PresetValue(old(loggedUser1), old(loggedUser5))
      ensures old(presetTeam) != null ==> loggedUser1 == old(loggedUser1) && loggedUser5 == old(loggedUser5)
      ensures old(presetTeam) == null ==>
                loggedUser1 == PresetOwner(old(loggedUser1)) && loggedUser5 == PresetMember(old(loggedUser5))
      ensures r == if team.entityId.None? then Fail(NullPointer)
                   else if team.entityId != presetTeam.entityId then Fail(EntityNotFound("Team"))
                   else Pass
      ensures old(presetTeam) == null && team.entityId.Some? ==>
                (r == Pass <==> team.entityId == Some(PresetTeamId))
    {
      EnsurePreset();
      if team.entityId.None? {
        r := Fail(NullPointer);
      } else if team.entityId != presetTeam.entityId {
        r := Fail(EntityNotFound("Team"));
      } else {
        r := Pass;
      }
    }

    /** `deleteTeam`: deletes nothing; fails unless the id is the preset's. */
    method DeleteTeam(team: Team) returns (r: Outcome<Error>)
      modifies this
      ensures presetTeam != null
      ensures old(presetTeam) != null ==> presetTeam == old(presetTeam)
      ensures old(presetTeam) == null ==>
                fresh(presetTeam) && presetTeam.Value() == PresetValue(old(loggedUser1), old(loggedUser5))
      ensures old(presetTeam) != null ==> loggedUser1 == old(loggedUser1) && loggedUser5 == old(loggedUser5)
      ensures old(presetTeam) == null ==>
                loggedUser1 == PresetOwner(old(loggedUser1)) && loggedUser5 == PresetMember(old(loggedUser5))
      ensures r == if team.entityId.None? then Fail(NullPointer)
                   else if team.entityId != presetTeam.entityId then Fail(EntityNotFound("Team"))
                   else Pass
      ensures old(presetTeam) == null && team.entityId.Some? ==>
                (r == Pass <==> team.entityId == Some(PresetTeamId))
    {
      r := MatchPreset(team);
    }

    /** `updateTeam`: updates nothing; fails unless the id is the preset's. */
    method UpdateTeam(team: Team) returns (r: Outcome<Error>)
      modifies this
      ensures presetTeam != null
      ensures old(presetTeam) != null ==> presetTeam == old(presetTeam)
      ensures old(presetTeam) == null ==>
                fresh(presetTeam) && presetTeam.Value() == PresetValue(old(loggedUser1), old(loggedUser5))
      ensures old(presetTeam) != null ==> loggedUser1 == old(loggedUser1) && loggedUser5 == old(loggedUser5)
      ensures old(presetTeam) == null ==>
                loggedUser1 == PresetOwner(old(loggedUser1)) && loggedUser5 == PresetMember(old(loggedUser5))
      ensures r == if team.entityId.None? then Fail(NullPointer)
                   else if team.entityId != presetTeam.entityId then Fail(EntityNotFound("Team"))
                   else Pass
      ensures old(presetTeam) == null && team.entityId.Some? ==>
                (r == Pass <==> team.entityId == Some(PresetTeamId))
    {
      r := MatchPreset(team);
    }

    /** `findTeamsByName`: the preset alone when the name is its name, otherwise not found. */
    method FindTeamsByName(teamName: string) returns (r: Result<seq<Team>, Error>)
      modifies this
      ensures presetTeam != null
      ensures old(presetTeam) != null ==> presetTeam == old(presetTeam)
      ensures old(presetTeam) == null ==>
                fresh(presetTeam) && presetTeam.Value() == PresetValue(old(loggedUser1), old(loggedUser5))
      ensures old(presetTeam) != null ==> loggedUser1 == old(loggedUser1) && loggedUser5 == old(loggedUser5)
      ensures old(presetTeam) == null ==>
                loggedUser1 == PresetOwner(old(loggedUser1)) && loggedUser5 == PresetMember(old(loggedUser5))
      ensures r == if teamName == presetTeam.name then Success([presetTeam])
                   else Failure(EntityNotFound("Team"))
      ensures old(presetTeam) == null ==> (r.Success? <==> teamName == "B team")
    {
      EnsurePreset();
      if teamName != presetTeam.name {
        r := Failure(EntityNotFound("Team"));
      } else {
        r := Success([presetTeam]);
      }
    }

    /** `findTeamById`: the preset when the id is its id, otherwise not found. */
    method FindTeamById(teamId: int) returns (r: Result<Team, Error>)
      modifies this
      ensures presetTeam != null
      ensures old(presetTeam) != null ==> presetTeam == old(presetTeam)
      ensures old(presetTeam) == null ==>
                fresh(presetTeam) && presetTeam.Value() == PresetValue(old(loggedUser1), old(loggedUser5))
      ensures old(presetTeam) != null ==> loggedUser1 == old(loggedUser1) && loggedUser5 == old(loggedUser5)
      ensures old(presetTeam) == null ==>
                loggedUser1 == PresetOwner(old(loggedUser1)) && loggedUser5 == PresetMember(old(loggedUser5))
      ensures r == if Some(teamId) == presetTeam.entityId then Success(presetTeam)
                   else Failure(EntityNotFound("Team"))
      ensures old(presetTeam) == null ==> (r.Success? <==> teamId == PresetTeamId)
    {
      EnsurePreset();
      if Some(teamId) != presetTeam.entityId {
        r := Failure(EntityNotFound("Team"));
      } else {
        r := Success(presetTeam);
      }
    }
  }
}
