/**
 * Groups and their memberships (WeThrift/src/services/groups.ts).
 *
 * `GroupDirectory` holds the `groups` table as a map and `group_members` as a list of rows.
 * Adding or removing a member is followed by a recount that overwrites the group's
 * `current_members` with the number of its active memberships; joining by invite code is
 * refused when the group is full.
 */
module Groups {
  import opened Wrappers

  datatype Role = Member | Moderator | Admin

  datatype MemberStatus = Active | Removed

  datatype Privacy = Privacy(isPublic: bool, allowInvites: bool, requireApproval: bool)

  /** The caller's part of a group (`GroupInsert` without the generated columns). */
  datatype GroupDraft = GroupDraft(
    name: string,
    description: string,
    groupType: string,
    maxMembers: real,
    privacySettings: Privacy,
    settings: map<string, string>,
    commissionRate: real)

  datatype Group = Group(
    id: string,
    name: string,
    description: string,
    groupType: string,
    maxMembers: real,
    privacySettings: Privacy,
    settings: map<string, string>,
    commissionRate: real,
    adminId: string,
    groupCode: string,
    inviteCode: string,
    currentMembers: nat,
    isActive: bool)

  datatype Membership = Membership(groupId: string, userId: string, role: Role, status: MemberStatus, joinedAt: string)

  datatype GroupError = InvalidInviteCode | GroupFull | DuplicateId

  function Message(e: GroupError): string {
    match e
    case InvalidInviteCode => "Invalid invite code"
    case GroupFull => "Group is full"
    case DuplicateId => "duplicate key value violates unique constraint"
  }

  /** The row `createGroup` inserts, before the creator's membership is counted. */
  function NewGroup(draft: GroupDraft, adminId: string, id: string, groupCode: string, inviteCode: string): (g: Group)
    ensures g.currentMembers == 1 && g.isActive && g.adminId == adminId && g.id == id && g.inviteCode == inviteCode
    ensures g.maxMembers == draft.maxMembers && g.name == draft.name
  {
    Group(id, draft.name, draft.description, draft.groupType, draft.maxMembers, draft.privacySettings, draft.settings,
          draft.commissionRate, adminId, groupCode, inviteCode, 1, true)
  }

  // ---------------------------------------------------------------------------------------
  // Membership arithmetic

  predicate ActiveIn(m: Membership, groupId: string) {
    m.groupId == groupId && m.status == Active
  }

  /** The `count` of active memberships of a group. */
  function ActiveCount(members: seq<Membership>, groupId: string): (n: nat)
    ensures n <= |members|
  {
    if members == [] then 0
    else ActiveCount(members[..|members| - 1], groupId) + (if ActiveIn(members[|members| - 1], groupId) then 1 else 0)
  }

  /** The rows of one membership set to 'removed'. */
  function RemovedRows(members: seq<Membership>, groupId: string, userId: string): (r: seq<Membership>)
    ensures |r| == |members|
    ensures forall i :: 0 <= i < |members| ==>
      r[i] == if members[i].groupId == groupId && members[i].userId == userId then members[i].(status := Removed) else members[i]
  {
    seq(|members|, i requires 0 <= i < |members| =>
      if members[i].groupId == groupId && members[i].userId == userId then members[i].(status := Removed) else members[i])
  }

  /** The rows of all other groups. */
  function WithoutGroup(members: seq<Membership>, groupId: string): (r: seq<Membership>)
    ensures |r| <= |members|
    ensures forall m :: m in r <==> m in members && m.groupId != groupId
  {
    if members == [] then []
    else
      var rest := WithoutGroup(members[..|members| - 1], groupId);
      var last := members[|members| - 1];
      assert members == members[..|members| - 1] + [last];
      if last.groupId != groupId then rest + [last] else rest
  }

  /** Removing a member never changes the count of another group and never raises its own. */
  lemma {:induction false} RemovalCounts(members: seq<Membership>, groupId: string, userId: string, other: string)
    ensures other != groupId ==> ActiveCount(RemovedRows(members, groupId, userId), other) == ActiveCount(members, other)
    ensures ActiveCount(RemovedRows(members, groupId, userId), groupId) <= ActiveCount(members, groupId)
  {
    if members != [] {
      var n := |members| - 1;
      assert RemovedRows(members, groupId, userId)[..n] == RemovedRows(members[..n], groupId, userId);
      RemovalCounts(members[..n], groupId, userId, other);
    }
  }

  /** After removal the user has no active membership left in the group. */
  lemma RemovedUserInactive(members: seq<Membership>, groupId: string, userId: string)
    ensures forall m :: m in RemovedRows(members, groupId, userId) && m.groupId == groupId && m.userId == userId
                        ==> m.status == Removed
  {
  }

  /** Dropping one group's rows leaves the counts of the others as they were and its own at 0. */
  lemma {:induction false} DeletionCounts(members: seq<Membership>, groupId: string, other: string)
    ensures other != groupId ==> ActiveCount(WithoutGroup(members, groupId), other) == ActiveCount(members, other)
    ensures ActiveCount(WithoutGroup(members, groupId), groupId) == 0
  {
    if members != [] {
      var n := |members| - 1;
      DeletionCounts(members[..n], groupId, other);
      var rest := WithoutGroup(members[..n], groupId);
      if members[n].groupId != groupId {
        assert (rest + [members[n]])[..|rest|] == rest;
      }
    }
  }

  /** `getUserGroups`: for each active membership of the user, in order, its group when the
      group row exists (a dangling reference is dropped). */
  function UserGroupsOf(members: seq<Membership>, groups: map<string, Group>, userId: string): (r: seq<Group>)
    ensures |r| <= |members|
    ensures forall g :: g in r <==>
      exists i :: 0 <= i < |members| && members[i].userId == userId && members[i].status == Active
                  && members[i].groupId in groups && groups[members[i].groupId] == g
  {
    if members == [] then []
    else
      var n := |members| - 1;
      var rest := UserGroupsOf(members[..n], groups, userId);
      var m := members[n];
      assert forall i :: 0 <= i < n ==> members[..n][i] == members[i];
      if m.userId == userId && m.status == Active && m.groupId in groups then rest + [groups[m.groupId]] else rest
  }

  // ---------------------------------------------------------------------------------------
  // The tables

  class GroupDirectory {
    var groups: map<string, Group>
    var members: seq<Membership>

    ghost predicate Valid()
      reads this
    {
      forall id :: id in groups ==> groups[id].id == id
    }

    /** Every stored member count equals the number of active memberships. */
    predicate Consistent()
      reads this
    {
      forall id :: id in groups ==> groups[id].currentMembers == ActiveCount(members, id)
    }

    /** Consistent, except perhaps for one group. */
    predicate ConsistentExcept(groupId: string)
      reads this
    {
      forall id :: id in groups && id != groupId ==> groups[id].currentMembers == ActiveCount(members, id)
    }

    constructor ()
      ensures groups == map[] && members == [] && Valid() && Consistent()
    {
      groups := map[];
      members := [];
    }

    function UserGroups(userId: string): seq<Group>
      reads this
    {
      UserGroupsOf(members, groups, userId)
    }

    /** `updateMemberCount`: a missing group is left alone. */
    method UpdateMemberCount(groupId: string)
      requires Valid()
      modifies this
      ensures Valid() && members == old(members) && groups.Keys == old(groups).Keys
      ensures groupId in old(groups) ==>
        groups == old(groups)[groupId := old(groups)[groupId].(currentMembers := ActiveCount(members, groupId))]
      ensures groupId !in old(groups) ==> groups == old(groups)
    {
      if groupId in groups {
        groups := groups[groupId := groups[groupId].(currentMembers := ActiveCount(members, groupId))];
      }
    }

    /** `addMember`: an active membership, then the recount. */
    method AddMember(groupId: string, userId: string, role: Role, at: string) returns (m: Membership)
      requires Valid()
      modifies this
      ensures Valid() && groups.Keys == old(groups).Keys
      ensures m == Membership(groupId, userId, role, Active, at)
      ensures members == old(members) + [m]
      ensures groupId in old(groups) ==>
        groups == old(groups)[groupId := old(groups)[groupId].(currentMembers := ActiveCount(old(members), groupId) + 1)]
      ensures groupId !in old(groups) ==> groups == old(groups)
      ensures old(ConsistentExcept(groupId)) ==> Consistent()
    {
      m := Membership(groupId, userId, role, Active, at);
      members := members + [m];
      assert members[..|members| - 1] == old(members);
      UpdateMemberCount(groupId);
    }

    /** `removeMember`: every membership of the user in the group set to 'removed', then the recount. */
    method RemoveMember(groupId: string, userId: string)
      requires Valid()
      modifies this
      ensures Valid() && groups.Keys == old(groups).Keys
      ensures members == RemovedRows(old(members), groupId, userId)
      ensures groupId in groups ==> groups[groupId] == old(groups)[groupId].(currentMembers := ActiveCount(members, groupId))
      ensures forall id :: id in groups && id != groupId ==> groups[id] == old(groups)[id]
      ensures old(Consistent()) ==> Consistent()
    {
      members := RemovedRows(members, groupId, userId);
      forall id | id != groupId ensures ActiveCount(members, id) == ActiveCount(old(members), id) {
        RemovalCounts(old(members), groupId, userId, id);
      }
      UpdateMemberCount(groupId);
    }

    /** `createGroup`: the group row, then the creator as its admin. */
    method CreateGroup(draft: GroupDraft, adminId: string, id: string, groupCode: string, inviteCode: string, at: string)
      returns (res: Result<Group, GroupError>)
      requires Valid()
      modifies this
      ensures Valid()
      ensures id in old(groups) ==> res == Err(DuplicateId) && groups == old(groups) && members == old(members)
      ensures id !in old(groups) ==>
        && res == Ok(NewGroup(draft, adminId, id, groupCode, inviteCode))
        && members == old(members) + [Membership(id, adminId, Admin, Active, at)]
        && groups == old(groups)[id := res.value.(currentMembers := ActiveCount(members, id))]
      ensures old(Consistent()) ==> Consistent()
    {
      if id in groups {
        res := Err(DuplicateId);
        return;
      }
      var g := NewGroup(draft, adminId, id, groupCode, inviteCode);
      groups := groups[id := g];
      res := Ok(g);
      var _ := AddMember(id, adminId, Admin, at);
    }

    /** `deleteGroup`: the memberships first, then the group row. */
    method DeleteGroup(groupId: string)
      requires Valid()
      modifies this
      ensures Valid()
      ensures members == WithoutGroup(old(members), groupId)
      ensures groups == old(groups) - {groupId}
      ensures old(Consistent()) ==> Consistent()
    {
      members := WithoutGroup(members, groupId);
      forall id | id != groupId ensures ActiveCount(members, id) == ActiveCount(old(members), id) {
        DeletionCounts(old(members), groupId, id);
      }
      groups := groups - {groupId};
    }

    /** The active groups carrying an invite code. */
    function InviteMatches(inviteCode: string): set<string>
      reads this
    {
      set id | id in groups && groups[id].inviteCode == inviteCode && groups[id].isActive
    }

    /** `joinGroupByInviteCode`: the code must name exactly one active group (the read is
        `.single()`), the group must have room, then the user becomes a 'member'. */
    method JoinGroupByInviteCode(inviteCode: string, userId: string, at: string) returns (res: Result<Membership, GroupError>)
      requires Valid()
      modifies this
      ensures Valid() && groups.Keys == old(groups).Keys
      ensures |old(InviteMatches(inviteCode))| != 1 ==> res == Err(InvalidInviteCode)
      ensures res.Err? ==> groups == old(groups) && members == old(members)
      ensures res.Ok? ==>
        var gid := res.value.groupId;
        && old(InviteMatches(inviteCode)) == {gid}
        && (old(groups)[gid].currentMembers as real) < old(groups)[gid].maxMembers
        && res.value == Membership(gid, userId, Member, Active, at)
        && members == old(members) + [res.value]
        && groups == old(groups)[gid := old(groups)[gid].(currentMembers := ActiveCount(old(members), gid) + 1)]
      ensures old(InviteMatches(inviteCode)) == {} ==> res == Err(InvalidInviteCode)
      ensures |old(InviteMatches(inviteCode))| == 1 && res.Err? ==> res == Err(GroupFull)
      ensures |old(InviteMatches(inviteCode))| == 1 ==>
        (res.Ok? <==> forall g :: g in old(InviteMatches(inviteCode)) ==> (old(groups)[g].currentMembers as real) < old(groups)[g].maxMembers)
      ensures old(Consistent()) ==> Consistent()
    {
      var matches := InviteMatches(inviteCode);
      if |matches| != 1 {
        res := Err(InvalidInviteCode);
        return;
      }
      var gid :| gid in matches;
      assert |matches - {gid}| == 0;
      assert matches == {gid} by {
        assert matches - {gid} == {};
      }
      var g := groups[gid];
      if g.currentMembers as real >= g.maxMembers {
        res := Err(GroupFull);
        return;
      }
      var m := AddMember(gid, userId, Member, at);
      res := Ok(m);
    }
  }
}
