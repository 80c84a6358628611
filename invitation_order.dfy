/**
 * `OrderListOfInvitationByDateForSpecificStatus` of
 * src/test/java/cz/profinit/sportTeamManager/stubs/stubService/invitation/StubInvitationService.java:
 * a filter loop by status, then `Collections.sort`, a stable sort. The
 * ordering `InvitationDto.compareTo` is not part of this model; it is taken
 * to compare the `changed` time, oldest first, as the method's own comment
 * says.
 */
module InvitationOrder {
  import opened Events

  /** The entries of `s` with the given status, in the order of `s`. */
  function OfStatus(s: seq<InvitationDto>, status: Status): (r: seq<InvitationDto>)
    ensures forall x :: x in r ==> x.status == status
    ensures forall x :: multiset(r)[x] == if x.status == status then multiset(s)[x] else 0
  {
    if s == [] then []
    else
      var init := s[..|s| - 1];
      var last := s[|s| - 1];
      assert s == init + [last];
      OfStatus(init, status) + (if last.status == status then [last] else [])
  }

  /** Ordered by `changed`, oldest first. */
  predicate Sorted(s: seq<InvitationDto>)
  {
    forall i, j :: 0 <= i < j < |s| ==> s[i].changed <= s[j].changed
  }

  /** `x` placed before the first entry that is not older than it. */
  function Insert(x: InvitationDto, t: seq<InvitationDto>): (r: seq<InvitationDto>)
    ensures multiset(r) == multiset(t) + multiset{x}
    ensures |r| == |t| + 1
  {
    if t == [] || x.changed <= t[0].changed then [x] + t
    else
      assert t == [t[0]] + t[1..];
      [t[0]] + Insert(x, t[1..])
  }

  /** Insertion sort from the back: `Collections.sort` on the key `changed`. */
  function Sort(s: seq<InvitationDto>): (r: seq<InvitationDto>)
    ensures multiset(r) == multiset(s)
    ensures |r| == |s|
  {
    if s == [] then []
    else
      assert s == [s[0]] + s[1..];
      Insert(s[0], Sort(s[1..]))
  }

  /** The entries of `s` whose `changed` time is `k`, in the order of `s`. */
  function AtTime(s: seq<InvitationDto>, k: Time): seq<InvitationDto>
  {
    if s == [] then [] else (if s[0].changed == k then [s[0]] else []) + AtTime(s[1..], k)
  }

  /** A bound below `x` and below every entry of `t` is below every entry of the insertion. */
  lemma {:induction false} InsertAbove(x: InvitationDto, t: seq<InvitationDto>, b: Time)
    requires b <= x.changed
    requires forall i :: 0 <= i < |t| ==> b <= t[i].changed
    ensures forall i :: 0 <= i < |Insert(x, t)| ==> b <= Insert(x, t)[i].changed
  {
    if t == [] || x.changed <= t[0].changed {
      assert forall i :: 1 <= i < |[x] + t| ==> ([x] + t)[i] == t[i - 1];
    } else {
      var rest := Insert(x, t[1..]);
      InsertAbove(x, t[1..], b);
      assert forall i :: 1 <= i < |[t[0]] + rest| ==> ([t[0]] + rest)[i] == rest[i - 1];
    }
  }

  /** Inserting into an ordered list keeps it ordered. */
  lemma {:induction false} InsertKeepsSorted(x: InvitationDto, t: seq<InvitationDto>)
    requires Sorted(t)
    ensures Sorted(Insert(x, t))
  {
    if t == [] || x.changed <= t[0].changed {
      var r := [x] + t;
      forall i, j | 0 <= i < j < |r| ensures r[i].changed <= r[j].changed {
        if i > 0 {
          assert r[i] == t[i - 1] && r[j] == t[j - 1];
        } else if j > 1 {
          assert r[j] == t[j - 1] && t[0].changed <= t[j - 1].changed;
        }
      }
    } else {
      var rest := Insert(x, t[1..]);
      InsertKeepsSorted(x, t[1..]);
      InsertAbove(x, t[1..], t[0].changed);
      var r := [t[0]] + rest;
      forall i, j | 0 <= i < j < |r| ensures r[i].changed <= r[j].changed {
        assert r[j] == rest[j - 1];
        if i > 0 {
          assert r[i] == rest[i - 1];
        }
      }
    }
  }

  /** The sort's output is ordered oldest first. */
  lemma {:induction false} SortIsSorted(s: seq<InvitationDto>)
    ensures Sorted(Sort(s))
  {
    if s != [] {
      SortIsSorted(s[1..]);
      InsertKeepsSorted(s[0], Sort(s[1..]));
    }
  }

  /** Inserting `x` puts it in front of every entry of its own time. */
  lemma {:induction false} InsertIsStable(x: InvitationDto, t: seq<InvitationDto>, k: Time)
    ensures AtTime(Insert(x, t), k) == (if x.changed == k then [x] else []) + AtTime(t, k)
  {
    if t == [] || x.changed <= t[0].changed {
      assert ([x] + t)[1..] == t;
    } else {
      var rest := Insert(x, t[1..]);
      assert ([t[0]] + rest)[1..] == rest;
      InsertIsStable(x, t[1..], k);
    }
  }

  /** The sort is stable: entries of one time keep their input order. */
  lemma {:induction false} SortIsStable(s: seq<InvitationDto>, k: Time)
    ensures AtTime(Sort(s), k) == AtTime(s, k)
  {
    if s != [] {
      SortIsStable(s[1..], k);
      InsertIsStable(s[0], Sort(s[1..]), k);
    }
  }

  /**
   * `OrderListOfInvitationByDateForSpecificStatus`: a loop that collects the
   * entries with the status into a new list, which is then sorted. The
   * input is a value and is left as it is.
   */
  method OrderListOfInvitationByDateForSpecificStatus(invitationDtoList: seq<InvitationDto>, status: Status)
    returns (result: seq<InvitationDto>)
    ensures forall x :: x in result ==> x.status == status
    ensures forall x :: multiset(result)[x] == if x.status == status then multiset(invitationDtoList)[x] else 0
    ensures Sorted(result)
    ensures forall k :: AtTime(result, k) == AtTime(OfStatus(invitationDtoList, status), k)
  {
    var filtered: seq<InvitationDto> := [];
    var i := 0;
    while i < |invitationDtoList|
      invariant 0 <= i <= |invitationDtoList|
      invariant filtered == OfStatus(invitationDtoList[..i], status)
    {
      assert invitationDtoList[..i + 1][..i] == invitationDtoList[..i];
      if invitationDtoList[i].status == status {
        filtered := filtered + [invitationDtoList[i]];
      }
      i := i + 1;
    }
    assert invitationDtoList[..i] == invitationDtoList;
    result := Sort(filtered);
    SortIsSorted(filtered);
    forall k ensures AtTime(result, k) == AtTime(filtered, k) {
      SortIsStable(filtered, k);
    }
  }
}
