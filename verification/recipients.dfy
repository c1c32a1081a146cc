/** Recipient resolution: users found by role, users listed by ID, and the
    removal of duplicate users by ID that keeps each user's first occurrence. */
module Recipients {
  import opened Wp
  import Php

  /** The IDs that occur in a list of users. */
  function IdSet(users: seq<User>): set<int> {
    set i | 0 <= i < |users| :: users[i].id
  }

  predicate UniqueIds(users: seq<User>) {
    forall i, j :: 0 <= i < j < |users| ==> users[i].id != users[j].id
  }

  /** The position of the first user with ID `id`. */
  function FirstIndex(users: seq<User>, id: int): (i: nat)
    requires id in IdSet(users)
    ensures i < |users| && users[i].id == id
    ensures forall j :: 0 <= j < i ==> users[j].id != id
  {
    if users[0].id == id then 0
    else
      assert id in IdSet(users[1..]) by {
        var k :| 0 <= k < |users| && users[k].id == id;
        assert users[1..][k - 1].id == id;
      }
      FirstIndex(users[1..], id) + 1
  }

  /** The users of `users` whose ID is neither in `seen` nor held by an
      earlier user, in their original order. */
  function DedupFrom(users: seq<User>, seen: set<int>): seq<User>
    decreases |users|
  {
    if users == [] then []
    else if users[0].id in seen then DedupFrom(users[1..], seen)
    else [users[0]] + DedupFrom(users[1..], seen + {users[0].id})
  }

  /** The list with every user after the first of its ID removed. */
  function UniqueById(users: seq<User>): (r: seq<User>)
    ensures UniqueIds(r) && IdSet(r) == IdSet(users)
  {
    DedupFromUniqueIds(users, {});
    DedupFromIdSet(users, {});
    DedupFrom(users, {})
  }

  lemma IdSetAppend(users: seq<User>, u: User)
    ensures IdSet(users + [u]) == IdSet(users) + {u.id}
  {
    var s := users + [u];
    assert s[|users|].id == u.id;
    forall x | x in IdSet(users) ensures x in IdSet(s) {
      var k :| 0 <= k < |users| && users[k].id == x;
      assert s[k].id == x;
    }
  }

  lemma IdSetCons(users: seq<User>)
    requires users != []
    ensures IdSet(users) == {users[0].id} + IdSet(users[1..])
  {
    forall x | x in IdSet(users[1..]) ensures x in IdSet(users) {
      var k :| 0 <= k < |users[1..]| && users[1..][k].id == x;
      assert users[k + 1].id == x;
    }
    forall x | x in IdSet(users) ensures x in {users[0].id} + IdSet(users[1..]) {
      var k :| 0 <= k < |users| && users[k].id == x;
      if k > 0 {
        assert users[1..][k - 1].id == x;
      }
    }
  }

  lemma IdSetEmpty(users: seq<User>)
    ensures IdSet(users) == {} <==> users == []
  {
    if users != [] {
      assert users[0].id in IdSet(users);
    }
  }

  /** Removing duplicates keeps every ID of the input that is not in `seen`,
      and no other. */
  lemma {:induction false} DedupFromIdSet(users: seq<User>, seen: set<int>)
    ensures IdSet(DedupFrom(users, seen)) == IdSet(users) - seen
    decreases |users|
  {
    IdSetEmpty(users);
    if users != [] {
      var u := users[0];
      IdSetCons(users);
      if u.id in seen {
        DedupFromIdSet(users[1..], seen);
      } else {
        DedupFromIdSet(users[1..], seen + {u.id});
        var r := DedupFrom(users, seen);
        IdSetCons(r);
        assert r[1..] == DedupFrom(users[1..], seen + {u.id});
      }
    } else {
      IdSetEmpty(DedupFrom(users, seen));
    }
  }

  /** Every user of `r` is the first user of its ID in `users`, and its ID is
      not in `seen`. */
  predicate KeepsFirst(users: seq<User>, seen: set<int>, r: seq<User>) {
    forall k :: 0 <= k < |r| ==>
      r[k].id in IdSet(users) && r[k].id !in seen && r[k] == users[FirstIndex(users, r[k].id)]
  }

  /** The users of `r` come in the order of their first occurrence in `users`. */
  predicate KeepsOrder(users: seq<User>, r: seq<User>) {
    forall k1, k2 :: 0 <= k1 < k2 < |r| ==>
      r[k1].id in IdSet(users) && r[k2].id in IdSet(users) &&
      FirstIndex(users, r[k1].id) < FirstIndex(users, r[k2].id)
  }

  /** Each user kept is the first user of its ID in the input, and its ID is
      not in `seen`. */
  lemma {:induction false} DedupFromFirst(users: seq<User>, seen: set<int>)
    ensures KeepsFirst(users, seen, DedupFrom(users, seen))
    decreases |users|
  {
    if users != [] {
      var u, rest := users[0], users[1..];
      IdSetCons(users);
      var seen' := if u.id in seen then seen else seen + {u.id};
      DedupFromFirst(rest, seen');
      var tail := DedupFrom(rest, seen');
      var r := DedupFrom(users, seen);
      forall k | 0 <= k < |tail|
        ensures tail[k].id in IdSet(users) && tail[k].id !in seen
        ensures tail[k] == users[FirstIndex(users, tail[k].id)]
      {
        // The head's ID is in `seen'`, so a kept tail user has another ID and
        // its first position in `users` is one past its first in `rest`.
        assert tail[k].id in IdSet(rest) && tail[k].id !in seen';
        assert tail[k] == rest[FirstIndex(rest, tail[k].id)];
        assert u.id != tail[k].id;
        assert FirstIndex(users, tail[k].id) == FirstIndex(rest, tail[k].id) + 1;
      }
      if u.id !in seen {
        assert r == [u] + tail;
        forall k | 0 < k < |r| ensures r[k] == tail[k - 1] { }
      }
    }
  }

  /** The users kept appear in the order of their first occurrence. */
  lemma {:induction false} DedupFromOrder(users: seq<User>, seen: set<int>)
    ensures KeepsOrder(users, DedupFrom(users, seen))
    decreases |users|
  {
    if users != [] {
      var u, rest := users[0], users[1..];
      IdSetCons(users);
      var seen' := if u.id in seen then seen else seen + {u.id};
      DedupFromOrder(rest, seen');
      DedupFromFirst(rest, seen');
      var tail := DedupFrom(rest, seen');
      var r := DedupFrom(users, seen);
      forall k | 0 <= k < |tail|
        ensures tail[k].id in IdSet(users) && FirstIndex(users, tail[k].id) == FirstIndex(rest, tail[k].id) + 1
      {
        assert tail[k].id in IdSet(rest) && tail[k].id !in seen';
        assert u.id != tail[k].id;
      }
      if u.id !in seen {
        assert r == [u] + tail;
        forall k | 0 < k < |r| ensures r[k] == tail[k - 1] { }
      }
    }
  }

  /** No ID occurs twice after duplicates are removed. */
  lemma DedupFromUniqueIds(users: seq<User>, seen: set<int>)
    ensures UniqueIds(DedupFrom(users, seen))
  {
    DedupFromOrder(users, seen);
  }

  /** What removing duplicates by ID guarantees: no ID twice, every ID of the
      input kept, each kept user the first of its ID, and first-seen order. */
  lemma UniqueByIdSpec(users: seq<User>)
    ensures var r := UniqueById(users);
      && UniqueIds(r)
      && IdSet(r) == IdSet(users)
      && KeepsFirst(users, {}, r)
      && KeepsOrder(users, r)
  {
    DedupFromUniqueIds(users, {});
    DedupFromIdSet(users, {});
    DedupFromFirst(users, {});
    DedupFromOrder(users, {});
  }

  /** Removing duplicates from a list whose IDs are already unique and unseen
      changes nothing. */
  lemma {:induction false} DedupFromUnique(users: seq<User>, seen: set<int>)
    requires UniqueIds(users) && IdSet(users) !! seen
    ensures DedupFrom(users, seen) == users
    decreases |users|
  {
    if users != [] {
      IdSetCons(users);
      assert users[0].id !in IdSet(users[1..]) by {
        forall k | 0 <= k < |users[1..]| ensures users[1..][k].id != users[0].id {
          assert users[1..][k] == users[k + 1];
        }
      }
      DedupFromUnique(users[1..], seen + {users[0].id});
    }
  }

  /** Removing duplicates from a concatenation: the first part is handled on
      its own, and the second part then skips every ID the first part has. */
  lemma {:induction false} DedupFromAppend(a: seq<User>, b: seq<User>, seen: set<int>)
    ensures DedupFrom(a + b, seen) == DedupFrom(a, seen) + DedupFrom(b, seen + IdSet(a))
    decreases |a|
  {
    if a == [] {
      assert a + b == b;
      IdSetEmpty(a);
      assert seen + IdSet(a) == seen;
      assert DedupFrom(a, seen) == [];
      assert DedupFrom(a, seen) + DedupFrom(b, seen) == DedupFrom(b, seen);
    } else {
      IdSetCons(a);
      assert (a + b)[1..] == a[1..] + b;
      var seen' := if a[0].id in seen then seen else seen + {a[0].id};
      DedupFromAppend(a[1..], b, seen');
      assert seen' + IdSet(a[1..]) == seen + IdSet(a);
    }
  }

  /** Removing duplicates twice is removing them once. */
  lemma UniqueByIdIdempotent(users: seq<User>)
    ensures UniqueById(UniqueById(users)) == UniqueById(users)
  {
    DedupFromUniqueIds(users, {});
    DedupFromUnique(UniqueById(users), {});
  }

  /** Removing duplicates from the role users first, as the role lookup does,
      and again after the explicit users are appended gives the same list as
      removing them once from the whole concatenation. */
  lemma UniqueByIdMerge(a: seq<User>, b: seq<User>)
    ensures UniqueById(UniqueById(a) + b) == UniqueById(a + b)
  {
    var ua := UniqueById(a);
    DedupFromAppend(ua, b, {});
    DedupFromAppend(a, b, {});
    UniqueByIdIdempotent(a);
    DedupFromIdSet(a, {});
    assert {} + IdSet(ua) == {} + IdSet(a);
    calc {
      UniqueById(ua + b);
      DedupFrom(ua, {}) + DedupFrom(b, {} + IdSet(ua));
      ua + DedupFrom(b, {} + IdSet(a));
      DedupFrom(a + b, {});
    }
  }

  /** One step of the deduplicating scan: the next user is appended exactly
      when its ID has not been seen. */
  lemma DedupStep(unique: seq<User>, user: User, rest: seq<User>)
    ensures user.id !in IdSet(unique) ==>
      unique + DedupFrom([user] + rest, IdSet(unique)) == (unique + [user]) + DedupFrom(rest, IdSet(unique + [user]))
    ensures user.id in IdSet(unique) ==>
      unique + DedupFrom([user] + rest, IdSet(unique)) == unique + DedupFrom(rest, IdSet(unique))
  {
    var seen := IdSet(unique);
    assert ([user] + rest)[0] == user && ([user] + rest)[1..] == rest;
    IdSetAppend(unique, user);
    if user.id !in seen {
      assert unique + ([user] + DedupFrom(rest, seen + {user.id})) == (unique + [user]) + DedupFrom(rest, seen + {user.id});
    }
  }

  /** The duplicate-removal loop: walks the users in order, keeping a user
      whose ID has not been kept yet and recording its ID. */
  method RemoveDuplicates(users: seq<User>) returns (unique: seq<User>)
    ensures unique == UniqueById(users)
    ensures UniqueIds(unique) && IdSet(unique) == IdSet(users)
  {
    unique := [];
    var userIds: seq<int> := [];
    var i := 0;
    IdSetEmpty(unique);
    assert users[i..] == users;
    while i < |users|
      invariant 0 <= i <= |users|
      invariant forall x :: x in userIds <==> x in IdSet(unique)
      invariant unique + DedupFrom(users[i..], IdSet(unique)) == UniqueById(users)
    {
      var user := users[i];
      assert users[i..] == [user] + users[i + 1..];
      DedupStep(unique, user, users[i + 1..]);
      if user.id !in userIds {
        IdSetAppend(unique, user);
        unique := unique + [user];
        userIds := userIds + [user.id];
      }
      i := i + 1;
    }
    assert users[i..] == [];
    DedupFromUniqueIds(users, {});
    DedupFromIdSet(users, {});
  }

  /** `u` is a member of some registered role among `roles`. */
  predicate InRegisteredRole(u: User, roles: seq<string>, dir: Directory) {
    exists role :: role in roles && role in dir.roleNames && u in UsersInRole(dir, role)
  }

  /** `get_users` for each role of `roles` that the role registry knows,
      concatenated in the order of `roles`. */
  function RoleUsers(roles: seq<string>, dir: Directory): (r: seq<User>)
    ensures forall i :: 0 <= i < |r| ==> InRegisteredRole(r[i], roles, dir)
  {
    if roles == [] then []
    else
      var role := roles[|roles| - 1];
      RoleUsers(roles[..|roles| - 1], dir) + (if role in dir.roleNames then UsersInRole(dir, role) else [])
  }

  /** A user is found by role exactly when one of the requested roles is
      registered and has that user as a member. */
  lemma {:induction false} RoleUsersMembers(roles: seq<string>, dir: Directory, u: User)
    ensures u in RoleUsers(roles, dir) <==>
      exists role :: role in roles && role in dir.roleNames && u in UsersInRole(dir, role)
  {
    if roles != [] {
      var init, role := roles[..|roles| - 1], roles[|roles| - 1];
      RoleUsersMembers(init, dir, u);
      assert roles == init + [role];
      if u in RoleUsers(roles, dir) && u !in RoleUsers(init, dir) {
        assert role in roles && role in dir.roleNames && u in UsersInRole(dir, role);
      }
      if exists r :: r in roles && r in dir.roleNames && u in UsersInRole(dir, r) {
        var r :| r in roles && r in dir.roleNames && u in UsersInRole(dir, r);
        if r !in init {
          assert r == role;
        }
      }
    }
  }

  /** The user records of the IDs in `ids` whose `absint` is positive and that
      `get_userdata` finds, in the order of `ids`. */
  function IdUsers(ids: seq<int>, dir: Directory): (r: seq<User>)
    ensures |r| <= |ids|
    ensures forall i :: 0 <= i < |r| ==> r[i] in dir.users.Values
  {
    if ids == [] then []
    else
      var userId := Php.AbsInt(ids[|ids| - 1]);
      IdUsers(ids[..|ids| - 1], dir) + (if userId > 0 && userId in dir.users then [dir.users[userId]] else [])
  }

  /** A user is found by ID exactly when some listed ID has a positive
      `absint` under which the directory holds that user. */
  lemma {:induction false} IdUsersMembers(ids: seq<int>, dir: Directory, u: User)
    ensures |IdUsers(ids, dir)| <= |ids|
    ensures u in IdUsers(ids, dir) <==>
      exists id :: id in ids && Php.AbsInt(id) > 0 && Php.AbsInt(id) in dir.users && dir.users[Php.AbsInt(id)] == u
  {
    if ids != [] {
      var init, id := ids[..|ids| - 1], ids[|ids| - 1];
      IdUsersMembers(init, dir, u);
      assert ids == init + [id];
      if exists x :: x in ids && Php.AbsInt(x) > 0 && Php.AbsInt(x) in dir.users && dir.users[Php.AbsInt(x)] == u {
        var x :| x in ids && Php.AbsInt(x) > 0 && Php.AbsInt(x) in dir.users && dir.users[Php.AbsInt(x)] == u;
        if x !in init {
          assert x == id;
        }
      }
    }
  }

  /** The recipient list of one notification: role users, then explicit users,
      with duplicates removed by ID. */
  function ResolveRecipients(roles: seq<string>, ids: seq<int>, dir: Directory): (r: seq<User>)
    ensures UniqueIds(r)
    ensures IdSet(r) == IdSet(RoleUsers(roles, dir) + IdUsers(ids, dir))
  {
    UniqueById(RoleUsers(roles, dir) + IdUsers(ids, dir))
  }

  /** The recipients are the deduplicated role users followed by the explicit
      users whose IDs no role user has; nobody is listed twice. */
  lemma ResolveRecipientsOrder(roles: seq<string>, ids: seq<int>, dir: Directory)
    ensures ResolveRecipients(roles, ids, dir) ==
      UniqueById(RoleUsers(roles, dir)) + DedupFrom(IdUsers(ids, dir), IdSet(RoleUsers(roles, dir)))
    ensures UniqueIds(ResolveRecipients(roles, ids, dir))
  {
    var a, b := RoleUsers(roles, dir), IdUsers(ids, dir);
    DedupFromAppend(a, b, {});
    assert {} + IdSet(a) == IdSet(a);
    DedupFromUniqueIds(a + b, {});
  }


  /** `get_users_by_roles`: look up each registered role, skip the others,
      then remove duplicate users by ID. */
  method GetUsersByRoles(roles: seq<string>, dir: Directory) returns (uniqueUsers: seq<User>)
    ensures uniqueUsers == UniqueById(RoleUsers(roles, dir))
  {
    var users: seq<User> := [];
    var availableRoles := dir.roleNames;
    for i := 0 to |roles|
      invariant users == RoleUsers(roles[..i], dir)
    {
      assert roles[..i + 1][..i] == roles[..i];
      var role := roles[i];
      if role !in availableRoles {
        continue;
      }
      var roleUsers := UsersInRole(dir, role);
      users := users + roleUsers;
    }
    assert roles[..|roles|] == roles;
    uniqueUsers := RemoveDuplicates(users);
  }

  /** `get_users_by_ids`: for each ID, its `absint`; IDs that are not positive
      or that no user has are skipped. */
  method GetUsersByIds(userIds: seq<int>, dir: Directory) returns (users: seq<User>)
    ensures users == IdUsers(userIds, dir)
  {
    users := [];
    if |userIds| == 0 {
      return;
    }
    for i := 0 to |userIds|
      invariant users == IdUsers(userIds[..i], dir)
    {
      assert userIds[..i + 1][..i] == userIds[..i];
      var userId := Php.AbsInt(userIds[i]);
      if userId > 0 {
        if userId in dir.users {
          var user := dir.users[userId];
          users := users + [User(user.id, user.email, user.displayName)];
        }
      }
    }
    assert userIds[..|userIds|] == userIds;
  }

  /** The recipient step of `send_notification`: users of the configured
      roles, then the configured users when there are any, deduplicated by
      ID. */
  method GatherRecipients(roles: seq<string>, ids: seq<int>, dir: Directory) returns (uniqueRecipients: seq<User>)
    ensures uniqueRecipients == ResolveRecipients(roles, ids, dir)
  {
    var roleUsers := GetUsersByRoles(roles, dir);
    var recipients := roleUsers;
    if |ids| > 0 {
      var individualUsers := GetUsersByIds(ids, dir);
      recipients := recipients + individualUsers;
    }
    assert IdUsers([], dir) == [];
    assert recipients == roleUsers + IdUsers(ids, dir);
    UniqueByIdMerge(RoleUsers(roles, dir), IdUsers(ids, dir));
    uniqueRecipients := RemoveDuplicates(recipients);
  }
}
