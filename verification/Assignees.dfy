/**
 * Replacing who is on a task (ProjectService.SetAssignees): an assignee is a grant on the task, so the
 * requested users are reconciled with those who hold one, and the new ones are told.
 */
module Assignees {

  import opened Access
  import opened Wrappers

  datatype Answer = Done | Refused | Missing | Failed

  type Grants = map<(nat, nat), Role>

  function At(grants: Grants, task: nat, user: nat): Role { Lookup(grants, task, user) }

  /** The users who hold a grant on the task. */
  ghost function Holders(grants: Grants, task: nat): set<nat> {
    set k | k in grants && k.0 == task :: k.1
  }

  ghost predicate Distinct(users: seq<nat>) { forall i, j :: 0 <= i < j < |users| ==> users[i] != users[j] }

  lemma {:induction false} DistinctSnoc(users: seq<nat>, u: nat)
    requires Distinct(users) && u !in users
    ensures Distinct(users + [u])
  {
  }

  ghost function Users(users: seq<nat>): set<nat> { set u | u in users }

  /** Who must be on the task after: kept holders with their role, and the new ones as members. */
  ghost predicate Reconciled(before: Grants, after: Grants, task: nat, users: set<nat>) {
    forall t, u :: At(after, t, u)
      == if t != task then At(before, t, u)
         else if u !in users then NoRole
         else if u in Holders(before, task) then At(before, task, u)
         else Member
  }

  /** On the way there: every grant is as it was or as it must be. */
  ghost predicate Partly(before: Grants, after: Grants, task: nat, users: set<nat>) {
    && (forall t, u :: t != task ==> At(after, t, u) == At(before, t, u))
    && (forall u :: u in users && u in Holders(before, task) ==> At(after, task, u) == At(before, task, u))
    && (forall u :: u in users && u !in Holders(before, task) ==> At(after, task, u) in {NoRole, Member})
    && (forall u :: u !in users ==> At(after, task, u) in {NoRole, At(before, task, u)})
  }

  /** Some of these users, if not all, were granted member, and nothing else changed. */
  ghost predicate Granting(before: Grants, after: Grants, task: nat, added: seq<nat>, all: bool) {
    && (forall k :: k in after ==> k in before || (k.0 == task && k.1 in added && after[k] == Member))
    && (forall k :: k in before ==> k in after && after[k] == before[k])
    && (all ==> forall u :: u in added ==> (task, u) in after)
  }

  /** Some of these users, if not all, lost their grant, and nothing else changed. */
  ghost predicate Revoking(before: Grants, after: Grants, task: nat, removed: seq<nat>, all: bool) {
    && (forall k :: k in after ==> k in before && after[k] == before[k])
    && (forall k :: k in before && !(k.0 == task && k.1 in removed) ==> k in after)
    && (all ==> forall u :: u in removed ==> (task, u) !in after)
  }

  lemma {:induction false} HoldersAre(grants: Grants, task: nat)
    ensures forall u :: u in Holders(grants, task) <==> (task, u) in grants
  {
    forall u ensures u in Holders(grants, task) <==> (task, u) in grants {
      if (task, u) in grants {
        assert (task, u).1 == u && (task, u).0 == task;
      }
    }
  }

  /** Granting the new users and then revoking the ones not named reconciles. */
  lemma {:induction false} Settles(before: Grants, mid: Grants, after: Grants, task: nat, users: seq<nat>,
                                   added: seq<nat>, removed: seq<nat>, granted: bool, revoked: bool)
    requires ValidGrants(before)
    requires Users(added) == Users(users) - Holders(before, task)
    requires Users(removed) == Holders(before, task) - Users(users)
    requires Granting(before, mid, task, added, granted) && Revoking(mid, after, task, removed, revoked)
    ensures ValidGrants(after) && Partly(before, after, task, Users(users))
    ensures granted && revoked ==> Reconciled(before, after, task, Users(users))
  {
    HoldersAre(before, task);
    hide Holders;
    assert forall u :: u in added <==> u in Users(added);
    assert forall u :: u in removed <==> u in Users(removed);
    assert forall u :: u in users <==> u in Users(users);
    hide Users;
  }

  ghost predicate ValidGrants(grants: Grants) { forall k :: k in grants ==> grants[k] != NoRole }

  /** Below owner, only project members assign, and they move only project members. */
  ghost predicate MayAssign(role: Role, caller: Role, members: map<nat, Role>, moved: set<nat>) {
    role == Owner || (caller.Rank() >= Member.Rank() && forall u :: u in moved ==> u in members && members[u] != NoRole)
  }

  function RoleIn(members: map<nat, Role>, user: nat): Role { if user in members then members[user] else NoRole }

  class Service {
    const notifies: bool
    /** The members of the task's project. */
    var members: map<nat, Role>
    var grants: Grants
    /** The users told that they were assigned, in order. */
    var told: seq<nat>
    /** Whether a store call has failed. */
    ghost var failed: bool

    constructor (notifies: bool, members: map<nat, Role>, grants: Grants)
      requires ValidGrants(grants)
      ensures ValidGrants(this.grants) && this.grants == grants && this.members == members && told == [] && !failed
    {
      this.notifies, this.members, this.grants, told, failed := notifies, members, grants, [], false;
    }

    // ---- Store calls: each may fail, a write with or without its effect ----------------------------------

    /** The holders in some order, each once. */
    method ListForTask(task: nat) returns (users: Option<seq<nat>>)
      modifies `failed
      ensures users.None? ==> failed
      ensures users.Some? ==> failed == old(failed)
      ensures users.Some? ==> Distinct(users.value) && Users(users.value) == Holders(grants, task)
    {
      var ok: bool := *;
      if !ok {
        failed := true;
        return None;
      }
      var keys, listed := grants.Keys, [];
      while keys != {}
        invariant keys <= grants.Keys && Distinct(listed)
        invariant forall u :: u in listed <==> (task, u) in grants && (task, u) !in keys
        decreases keys
      {
        var k :| k in keys;
        keys := keys - {k};
        if k.0 == task {
          listed := listed + [k.1];
        }
      }
      users := Some(listed);
    }

    method ListMembers() returns (rows: Option<map<nat, Role>>)
      modifies `failed
      ensures rows.None? ==> failed
      ensures rows.Some? ==> failed == old(failed) && rows.value == members
    {
      var ok: bool := *;
      if ok {
        return Some(members);
      }
      failed := true;
      rows := None;
    }

    method Grant(task: nat, user: nat) returns (ok: bool)
      modifies `grants, `failed
      ensures ok ==> failed == old(failed) && grants == old(grants)[(task, user) := Member]
      ensures !ok ==> failed && (grants == old(grants) || grants == old(grants)[(task, user) := Member])
    {
      ok := *;
      var effect: bool := *;
      if ok || effect {
        grants := grants[(task, user) := Member];
      }
      failed := failed || !ok;
    }

    /** A grant that is gone already is none to revoke. */
    method Revoke(task: nat, user: nat) returns (ok: bool, missing: bool)
      modifies `grants, `failed
      ensures ok ==> failed == old(failed) && grants == old(grants) - {(task, user)}
      ensures ok ==> missing == ((task, user) !in old(grants))
      ensures !ok ==> failed && !missing && (grants == old(grants) || grants == old(grants) - {(task, user)})
    {
      ok := *;
      var effect: bool := *;
      missing := ok && (task, user) !in grants;
      if ok || effect {
        grants := grants - {(task, user)};
      }
      failed := failed || !ok;
    }

    // ---- SetAssignees ------------------------------------------------------------------------------------

    /** Which of the requested users are new, in the order first named, and which holders are not named. */
    method Split(current: seq<nat>, users: seq<nat>) returns (added: seq<nat>, removed: seq<nat>)
      requires Distinct(current)
      ensures Distinct(added) && Users(added) == Users(users) - Users(current)
      ensures Distinct(removed) && Users(removed) == Users(current) - Users(users)
    {
      var had, kept := {}, {};
      for i := 0 to |current|
        invariant forall u :: u in had <==> u in current[..i]
      {
        had := had + {current[i]};
      }
      added, removed := [], [];
      for i := 0 to |users|
        invariant forall u :: u in kept <==> u in users[..i]
        invariant forall u :: u in added <==> u in users[..i] && u !in current
        invariant Distinct(added)
      {
        if users[i] !in kept && users[i] !in had {
          DistinctSnoc(added, users[i]);
          added := added + [users[i]];
        }
        kept := kept + {users[i]};
      }
      for i := 0 to |current|
        invariant forall u :: u in removed <==> u in current[..i] && u !in users
        invariant Distinct(removed)
      {
        if current[i] !in kept {
          assert current[i] !in current[..i];
          DistinctSnoc(removed, current[i]);
          removed := removed + [current[i]];
        }
      }
    }

    /** Whether a caller below owner may move all of these users. */
    method MayMove(rows: map<nat, Role>, caller: nat, moved: seq<nat>) returns (ok: bool)
      ensures ok == (RoleIn(rows, caller).Rank() >= Member.Rank() && forall u :: u in moved ==> RoleIn(rows, u) != NoRole)
    {
      if RoleIn(rows, caller).Rank() < Member.Rank() {
        return false;
      }
      for i := 0 to |moved|
        invariant forall u :: u in moved[..i] ==> RoleIn(rows, u) != NoRole
      {
        if RoleIn(rows, moved[i]) == NoRole {
          return false;
        }
      }
      ok := true;
    }

    method GrantAll(task: nat, added: seq<nat>) returns (ok: bool)
      requires forall u :: u in added ==> (task, u) !in grants
      modifies `grants, `failed
      ensures ok ==> failed == old(failed)
      ensures !ok ==> failed
      ensures Granting(old(grants), grants, task, added, ok)
    {
      for i := 0 to |added|
        invariant failed == old(failed)
        invariant Granting(old(grants), grants, task, added, false)
        invariant forall u :: u in added[..i] ==> (task, u) in grants
      {
        var fine := Grant(task, added[i]);
        if !fine {
          return false;
        }
      }
      ok := true;
    }

    method RevokeAll(task: nat, removed: seq<nat>) returns (ok: bool)
      modifies `grants, `failed
      ensures ok ==> failed == old(failed)
      ensures !ok ==> failed
      ensures Revoking(old(grants), grants, task, removed, ok)
    {
      for i := 0 to |removed|
        invariant failed == old(failed)
        invariant Revoking(old(grants), grants, task, removed, false)
        invariant forall u :: u in removed[..i] ==> (task, u) !in grants
      {
        var fine, missing := Revoke(task, removed[i]);
        if !fine && !missing {
          return false;
        }
      }
      ok := true;
    }

    /** Tells each of them but the caller, once. */
    method Tell(caller: nat, added: seq<nat>)
      requires Distinct(added)
      modifies `told
      ensures News(old(told), told, if notifies then Users(added) - {caller} else {})
    {
      ghost var before := told;
      for i := 0 to |added|
        invariant before <= told
        invariant Distinct(told[|before|..])
        invariant forall u :: u in told[|before|..] <==> notifies && u in added[..i] && u != caller
      {
        if added[i] != caller && notifies {
          assert (told + [added[i]])[|before|..] == told[|before|..] + [added[i]];
          assert added[i] !in added[..i];
          DistinctSnoc(told[|before|..], added[i]);
          told := told + [added[i]];
        }
      }
    }

    /** Exactly the requested users end up on the task: those who were on it keep their role, the new ones
        are members, and each of these but the caller is told once. A refusal changes no grant, and is the
        answer exactly when the caller may not move those who would come or go. */
    method SetAssignees(found: bool, task: nat, role: Role, caller: nat, users: seq<nat>) returns (answer: Answer)
      requires ValidGrants(grants) && !failed
      modifies `grants, `told, `failed
      ensures ValidGrants(grants) && Partly(old(grants), grants, task, Users(users))
      ensures answer == Failed <==> failed
      ensures !failed ==> (answer == Missing <==> !found)
      ensures var may := MayAssign(role, RoleIn(members, caller), members, Moved(old(grants), task, users));
        && (answer == Refused ==> !may && grants == old(grants))
        && (answer == Done ==> may && Reconciled(old(grants), grants, task, Users(users)))
      ensures if answer == Done then News(old(told), told, if notifies then New(old(grants), task, users) - {caller} else {})
              else told == old(told)
      ensures answer == Done || answer == Refused ==>
                (answer == Done <==>
                 role == Owner
                 || (caller in members && members[caller] in {Member, Owner}
                     && forall u :: (u in users <==> (task, u) !in old(grants)) ==> u in members && members[u] != NoRole))
      ensures answer == Done ==>
                && (forall t, u :: (t, u) in grants <==> if t == task then u in users else (t, u) in old(grants))
                && (forall k :: k in grants ==> grants[k] == if k in old(grants) then old(grants)[k] else Member)
                && old(told) <= told && Distinct(told[|old(told)|..])
                && forall u :: u in told[|old(told)|..] <==>
                     notifies && u in users && (task, u) !in old(grants) && u != caller
    {
      hide Distinct, Holders, Users, Granting, Revoking, Partly, Reconciled, ValidGrants, News;
      ghost var before := grants;
      NothingMoved(before, task, users);
      MayIs(role, members, caller, before, task, users);
      var reached: bool := *;
      if !reached {
        failed := true;
        return Failed;
      }
      if !found {
        return Missing;
      }
      var current := ListForTask(task);
      if current.None? {
        return Failed;
      }
      var added, removed := Split(current.value, users);
      MovedAre(before, task, users, added, removed);
      AreUsers(added);
      HoldersAre(before, task);
      if role != Owner {
        var rows := ListMembers();
        if rows.None? {
          return Failed;
        }
        var may := MayMove(rows.value, caller, added + removed);
        if !may {
          return Refused;
        }
      }
      var ok := GrantAll(task, added);
      ghost var mid := grants;
      if !ok {
        NoneRevoked(mid, task, removed);
        Settles(before, mid, mid, task, users, added, removed, false, false);
        return Failed;
      }
      ok := RevokeAll(task, removed);
      Settles(before, mid, grants, task, users, added, removed, true, ok);
      if !ok {
        return Failed;
      }
      ghost var earlier := told;
      Tell(caller, added);
      ReconciledIs(before, grants, task, users);
      NewsAre(earlier, told, before, task, users, if notifies then Users(added) - {caller} else {}, caller, notifies);
      answer := Done;
    }
  }

  ghost function New(grants: Grants, task: nat, users: seq<nat>): set<nat> { Users(users) - Holders(grants, task) }

  /** The users who would come or go. */
  ghost function Moved(grants: Grants, task: nat, users: seq<nat>): set<nat> {
    New(grants, task, users) + (Holders(grants, task) - Users(users))
  }

  /** These users, each once and no one else, were told in between. */
  ghost predicate News(before: seq<nat>, after: seq<nat>, users: set<nat>) {
    before <= after && Distinct(after[|before|..]) && Users(after[|before|..]) == users
  }

  /** Who may assign, from the rows themselves. */
  lemma {:induction false} MayIs(role: Role, members: map<nat, Role>, caller: nat, grants: Grants, task: nat,
                                 users: seq<nat>)
    ensures MayAssign(role, RoleIn(members, caller), members, Moved(grants, task, users))
       <==> role == Owner
            || (caller in members && members[caller] in {Member, Owner}
                && forall u :: (u in users <==> (task, u) !in grants) ==> u in members && members[u] != NoRole)
  {
    AreUsers(users);
    HoldersAre(grants, task);
    RolesInOrder(RoleIn(members, caller), Member);
    hide Users, Holders, Role.Rank, Role.Max;
    assert forall u :: u in Moved(grants, task, users) <==> (u in users <==> (task, u) !in grants);
  }

  lemma {:induction false} ReconciledIs(before: Grants, after: Grants, task: nat, users: seq<nat>)
    requires ValidGrants(before) && ValidGrants(after) && Reconciled(before, after, task, Users(users))
    ensures forall t, u :: (t, u) in after <==> if t == task then u in users else (t, u) in before
    ensures forall k :: k in after ==> after[k] == if k in before then before[k] else Member
  {
    AreUsers(users);
    HoldersAre(before, task);
    hide Users, Holders;
    forall t, u
      ensures (t, u) in after <==> if t == task then u in users else (t, u) in before
    {
      assert At(after, t, u) == At(after, t, u) && At(before, t, u) == At(before, t, u);
    }
    forall k | k in after
      ensures after[k] == if k in before then before[k] else Member
    {
      assert At(after, k.0, k.1) == after[k] && k == (k.0, k.1);
    }
  }

  lemma {:induction false} NewsAre(before: seq<nat>, after: seq<nat>, grants: Grants, task: nat, users: seq<nat>,
                                   news: set<nat>, caller: nat, notifies: bool)
    requires News(before, after, news) && news == if notifies then New(grants, task, users) - {caller} else {}
    ensures before <= after && Distinct(after[|before|..])
    ensures forall u :: u in after[|before|..] <==> notifies && u in users && (task, u) !in grants && u != caller
  {
    AreUsers(users);
    AreUsers(after[|before|..]);
    HoldersAre(grants, task);
    hide Users, Holders, Distinct;
  }

  lemma {:induction false} AreUsers(users: seq<nat>)
    ensures forall u :: u in users <==> u in Users(users)
  {
  }

  lemma {:induction false} MovedAre(grants: Grants, task: nat, users: seq<nat>, added: seq<nat>, removed: seq<nat>)
    requires Users(added) == New(grants, task, users)
    requires Users(removed) == Holders(grants, task) - Users(users)
    ensures forall u :: u in Moved(grants, task, users) <==> u in added + removed
  {
    AreUsers(added);
    AreUsers(removed);
    hide Users, Holders;
  }

  lemma {:induction false} NothingMoved(grants: Grants, task: nat, users: seq<nat>)
    requires ValidGrants(grants)
    ensures Partly(grants, grants, task, Users(users))
  {
    HoldersAre(grants, task);
  }

  lemma {:induction false} NoneRevoked(grants: Grants, task: nat, removed: seq<nat>)
    ensures Revoking(grants, grants, task, removed, false)
  {
  }

  // ---- What unassigning takes back -----------------------------------------------------------------------

  /** An assignee is a member grant on the task. */
  ghost predicate IsAssignee(grants: Grants, task: nat, user: nat) { At(grants, task, user) == Member }

  /** Unassigning takes back only what assigning gives, a member grant, if and only if every holder who is
      not named held just that; a viewer's or operator's grant is taken too. */
  lemma {:induction false} TakesBackOnlyMembers(before: Grants, after: Grants, task: nat, users: seq<nat>)
    requires ValidGrants(before) && Reconciled(before, after, task, Users(users))
    ensures (forall u :: At(before, task, u) != NoRole && At(after, task, u) == NoRole ==> At(before, task, u) == Member)
       <==> (forall u :: (task, u) in before && u !in users ==> before[(task, u)] == Member)
  {
    HoldersAre(before, task);
    AreUsers(users);
    hide Holders, Users;
    if forall u :: At(before, task, u) != NoRole && At(after, task, u) == NoRole ==> At(before, task, u) == Member {
      forall u | (task, u) in before && u !in users
        ensures before[(task, u)] == Member
      {
        assert At(before, task, u) == before[(task, u)] && At(after, task, u) == NoRole;
      }
    }
  }

  /** Afterwards the assignees are exactly the named users, if and only if none of these held a viewer's or
      operator's grant, which they keep instead. */
  lemma {:induction false} AssigneesAreTheNamed(before: Grants, after: Grants, task: nat, users: seq<nat>)
    requires ValidGrants(before) && Reconciled(before, after, task, Users(users))
    ensures (forall u :: IsAssignee(after, task, u) <==> u in users)
       <==> (forall u :: u in users && (task, u) in before ==> before[(task, u)] == Member)
  {
    HoldersAre(before, task);
    AreUsers(users);
    hide Holders, Users;
    if forall u :: IsAssignee(after, task, u) <==> u in users {
      forall u | u in users && (task, u) in before
        ensures before[(task, u)] == Member
      {
        assert IsAssignee(after, task, u) && At(after, task, u) == At(before, task, u);
      }
    } else {
      var u :| IsAssignee(after, task, u) != (u in users);
      assert At(after, task, u) == if u !in users then NoRole else if (task, u) in before then At(before, task, u) else Member;
    }
  }

  /** Both fail at once: the caller and user 7 are members of the project; naming the caller, who was a
      viewer of the task, takes user 7's operator grant and leaves the caller no assignee. */
  method AnOperatorsGrantIsTaken() returns (s: Service, answer: Answer)
    ensures answer == Done || answer == Failed
    ensures answer == Done ==> At(s.grants, 1, 7) == NoRole && At(s.grants, 1, 3) == Viewer
  {
    var before: Grants := map[(1, 7) := Operator, (1, 3) := Viewer];
    s := new Service(true, map[3 := Member, 7 := Member], before);
    MovedIsSeven(before);
    HoldersAre(before, 1);
    AreUsers([3]);
    hide Holders, Users, Moved, News, Partly;
    answer := s.SetAssignees(true, 1, Member, 3, [3]);
  }

  lemma {:induction false} MovedIsSeven(before: Grants)
    requires before == map[(1, 7) := Operator, (1, 3) := Viewer]
    ensures Moved(before, 1, [3]) == {7}
  {
    HoldersAre(before, 1);
    AreUsers([3]);
    hide Holders, Users;
    assert forall u :: u in Moved(before, 1, [3]) <==> u == 7;
  }
}
