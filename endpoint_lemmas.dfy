/**
 * What `EndpointServiceImpl` promises about its groups, users, profiles and
 * logs, proved about the functions of `EndpointSpec`.
 */
module EndpointProperties {
  import opened Common
  import opened EndpointSpec

  // ---------------------------------------------------------------- groups

  /**
   * A new group is refused exactly when its application already has a group
   * at that weight; otherwise it is stored under the generated id with the
   * current time, and nothing else changes.
   */
  lemma NewGroupRule(s: Store, dto: EndpointGroup, freshId: string, now: int)
    requires IsValidId(dto.applicationId) && IsBlank(dto.id)
    ensures var r := SaveEndpointGroup(s, dto, freshId, now);
      && (r.result.Failure? <==> HasGroupAt(s.groups, dto.applicationId, dto.weight, None))
      && (r.result.Failure? ==> r.store == s && r.result.error == IncorrectParameter(SameWeightMessage))
      && (r.result.Success? ==>
            && r.result.value.Some? && r.store.history == s.history
            && r.store.groups.Keys == s.groups.Keys + {freshId}
            && r.store.groups[freshId] == r.result.value.value
            && r.result.value.value.createdTime == now
            && r.result.value.value.(id := dto.id, createdTime := dto.createdTime) == dto)
  {
  }

  /**
   * An update of a stored group is refused when another group of the
   * application holds the weight, and always when the stored group is the
   * default one, even if the weight does not change.
   */
  lemma UpdateGroupRule(s: Store, dto: EndpointGroup, freshId: string, now: int)
    requires IsValidId(dto.applicationId) && !IsBlank(dto.id) && dto.id in s.groups
    ensures var r := SaveEndpointGroup(s, dto, freshId, now);
      && (r.result.Failure? <==> HasGroupAt(s.groups, dto.applicationId, dto.weight, Some(dto.id))
                                 || s.groups[dto.id].weight == DefaultGroupWeight)
      && (r.result.Failure? ==> r.store == s)
      && (s.groups[dto.id].weight == DefaultGroupWeight ==> r.result.Failure? && r.result.error.IncorrectParameter?)
      && (r.result.Success? ==> r.result.value == Some(dto) && r.store.groups == s.groups[dto.id := dto])
  {
  }

  /** An update that changes the weight is recorded in the history as `UPDATE_WEIGHT`; one that keeps it is not. */
  lemma WeightChangeRecorded(s: Store, dto: EndpointGroup, freshId: string, now: int)
    requires IsValidId(dto.applicationId) && !IsBlank(dto.id) && dto.id in s.groups
    requires SaveEndpointGroup(s, dto, freshId, now).result.Success?
    ensures var h := SaveEndpointGroup(s, dto, freshId, now).store.history;
      && (s.groups[dto.id].weight != dto.weight ==> h == s.history + [HistoryEntry(UpdateWeight, dto)])
      && (s.groups[dto.id].weight == dto.weight ==> h == s.history)
  {
  }

  /** An invalid application id, or an id no group has, saves nothing and returns `null`. */
  lemma SaveGroupIgnored(s: Store, dto: EndpointGroup, freshId: string, now: int)
    requires !IsValidId(dto.applicationId) || (!IsBlank(dto.id) && dto.id !in s.groups)
    ensures SaveEndpointGroup(s, dto, freshId, now) == Reply(s, Success(None))
  {
  }

  /** Saving a group keeps every group under its id and the (application, weight) pairs unique. */
  lemma SaveGroupKeepsInv(s: Store, dto: EndpointGroup, freshId: string, now: int)
    requires DaoInv(s) && freshId !in s.groups
    ensures DaoInv(SaveEndpointGroup(s, dto, freshId, now).store)
    ensures SaveEndpointGroup(s, dto, freshId, now).store.users == s.users
  {
    var r := SaveEndpointGroup(s, dto, freshId, now);
    if r.store != s {
      var saved := r.result.value.value;
      var k := saved.id;
      assert r.store.groups == s.groups[k := saved];
      assert !HasGroupAt(s.groups, saved.applicationId, saved.weight, Some(k));
      assert forall b :: b in s.groups && b != k ==>
        !(s.groups[b].applicationId == saved.applicationId && s.groups[b].weight == saved.weight);
    }
  }

  /**
   * Without force the default group is never removed; a removal that goes
   * ahead takes out exactly that group and records it.
   */
  lemma RemoveGroupRule(s: Store, id: string, forceRemove: bool)
    ensures var r := RemoveEndpointGroup(s, id, forceRemove);
      && r.result.Success?
      && (r.result.value.Some? <==> id in s.groups && (s.groups[id].weight != 0 || forceRemove))
      && (r.result.value.None? ==> r.store == s)
      && (r.result.value.Some? ==>
            && r.store.groups == s.groups - {id}
            && r.store.history == s.history + [HistoryEntry(RemoveGroup, s.groups[id])]
            && r.result.value.value.appId == s.groups[id].applicationId
            && r.store.users == s.users && r.store.profiles == s.profiles)
  {
  }

  /** `removeEndpointGroupById` refuses ids that are not SQL ids and keeps the default group. */
  lemma RemoveByIdRule(s: Store, id: string)
    ensures !IsValidSqlId(id) ==> RemoveEndpointGroupById(s, id).result.Failure? && RemoveEndpointGroupById(s, id).store == s
    ensures IsValidSqlId(id) && id in s.groups && s.groups[id].weight == DefaultGroupWeight ==>
      RemoveEndpointGroupById(s, id) == Reply(s, Success(None))
  {
  }

  /** Forced removals of distinct stored groups remove exactly those groups and touch nothing else. */
  lemma {:induction false} RemoveGroupsInOrderGroups(s: Store, order: seq<string>)
    requires forall i, j :: 0 <= i < j < |order| ==> order[i] != order[j]
    requires forall i :: 0 <= i < |order| ==> order[i] in s.groups
    ensures var t := RemoveGroupsInOrder(s, order);
      && t.groups == s.groups - (set k | k in order)
      && t.users == s.users && t.profiles == s.profiles
    decreases |order|
  {
    if |order| > 0 {
      var s1 := RemoveEndpointGroup(s, order[0], true).store;
      assert s1.groups == s.groups - {order[0]};
      var rest := order[1..];
      forall i | 0 <= i < |rest| ensures rest[i] in s1.groups {
        assert rest[i] == order[i + 1] && order[i + 1] != order[0];
      }
      RemoveGroupsInOrderGroups(s1, rest);
      assert (set k | k in order) == {order[0]} + (set k | k in rest) by {
        forall k | k in order ensures k == order[0] || k in rest {
          var i :| 0 <= i < |order| && order[i] == k;
          assert i == 0 || rest[i - 1] == order[i];
        }
      }
    }
  }

  /** Forced removals of stored groups record each removal once, in order, after the earlier history. */
  lemma {:induction false} RemoveGroupsInOrderHistory(s: Store, order: seq<string>)
    requires forall i, j :: 0 <= i < j < |order| ==> order[i] != order[j]
    requires forall i :: 0 <= i < |order| ==> order[i] in s.groups
    ensures var t := RemoveGroupsInOrder(s, order);
      && |t.history| == |s.history| + |order|
      && t.history[..|s.history|] == s.history
      && (forall i :: 0 <= i < |order| ==> t.history[|s.history| + i] == HistoryEntry(RemoveGroup, s.groups[order[i]]))
    decreases |order|
  {
    if |order| > 0 {
      var s1 := RemoveEndpointGroup(s, order[0], true).store;
      assert s1.groups == s.groups - {order[0]};
      assert s1.history == s.history + [HistoryEntry(RemoveGroup, s.groups[order[0]])];
      var rest := order[1..];
      forall i | 0 <= i < |rest| ensures rest[i] in s1.groups && s1.groups[rest[i]] == s.groups[order[i + 1]] {
        assert rest[i] == order[i + 1] && order[i + 1] != order[0];
      }
      RemoveGroupsInOrderHistory(s1, rest);
      var t := RemoveGroupsInOrder(s1, rest);
      assert t.history[..|s.history|] == s.history by {
        assert t.history[..|s1.history|][..|s.history|] == s1.history[..|s.history|];
      }
      forall i | 0 <= i < |order|
        ensures t.history[|s.history| + i] == HistoryEntry(RemoveGroup, s.groups[order[i]])
      {
        if i == 0 {
          assert t.history[..|s1.history|] == s1.history;
          assert t.history[|s.history|] == s1.history[|s.history|];
        } else {
          assert t.history[|s1.history| + (i - 1)] == HistoryEntry(RemoveGroup, s1.groups[rest[i - 1]]);
        }
      }
    }
  }

  /** A removal keeps the DAO invariant and touches no user. */
  lemma RemoveGroupKeepsInv(s: Store, id: string, forceRemove: bool)
    requires DaoInv(s)
    ensures DaoInv(RemoveEndpointGroup(s, id, forceRemove).store)
    ensures RemoveEndpointGroup(s, id, forceRemove).store.users == s.users
  {
  }

  /** One more forced removal extends the sequence of removals. */
  lemma {:induction false} RemoveGroupsInOrderSnoc(s: Store, order: seq<string>, id: string)
    ensures RemoveGroupsInOrder(s, order + [id]) == RemoveEndpointGroup(RemoveGroupsInOrder(s, order), id, true).store
    decreases |order|
  {
    if |order| == 0 {
      assert order + [id] == [id];
    } else {
      assert (order + [id])[1..] == order[1..] + [id];
      RemoveGroupsInOrderSnoc(RemoveEndpointGroup(s, order[0], true).store, order[1..], id);
    }
  }

  /**
   * `removeEndpointGroupByAppId` with a valid id: in whatever order the DAO
   * lists the application's groups, every one of them is removed, the
   * default group included, no other group is, and each removal is
   * recorded.
   */
  lemma RemoveByAppIdEffect(s: Store, appId: string, order: seq<string>)
    requires Enumerates(order, AppGroupIds(s.groups, appId))
    ensures var t := RemoveGroupsInOrder(s, order);
      && (forall k :: k in t.groups <==> k in s.groups && s.groups[k].applicationId != appId)
      && (forall k :: k in t.groups ==> t.groups[k] == s.groups[k])
      && |t.history| == |s.history| + |AppGroupIds(s.groups, appId)|
  {
    forall i | 0 <= i < |order| ensures order[i] in s.groups {
      assert order[i] in (set k | k in order);
      assert order[i] in AppGroupIds(s.groups, appId);
    }
    RemoveGroupsInOrderGroups(s, order);
    RemoveGroupsInOrderHistory(s, order);
    DistinctLength(order, AppGroupIds(s.groups, appId));
  }

  /** A list without repetitions is as long as the set of its elements. */
  lemma {:induction false} DistinctLength(order: seq<string>, ids: set<string>)
    requires Enumerates(order, ids)
    ensures |order| == |ids|
    decreases |order|
  {
    if |order| > 0 {
      var rest := order[1..];
      assert forall i :: 0 <= i < |rest| ==> rest[i] == order[i + 1] && rest[i] != order[0];
      assert order[0] in ids;
      var restIds := ids - {order[0]};
      assert (set k | k in rest) == restIds by {
        forall k | k in restIds ensures k in rest {
          var i :| 0 <= i < |order| && order[i] == k;
          assert rest[i - 1] == k;
        }
      }
      DistinctLength(rest, restIds);
    }
  }

  // ---------------------------------------------------------------- lookups

  /** The finders return the first matching row. */
  lemma FirstIndexIs(rows: seq<EndpointProfile>, key: RowKey, i: nat)
    requires i < |rows| && Matches(rows[i], key)
    requires forall j :: 0 <= j < i ==> !Matches(rows[j], key)
    ensures FirstIndex(rows, key) == Some(i)
  {
  }

  // ---------------------------------------------------------------- users

  /** Removing what was just appended, when it was not there before, gives back the list. */
  lemma {:induction false} RemoveFirstOfAppended(xs: seq<string>, x: string)
    requires x !in xs
    ensures RemoveFirst(xs + [x], x) == xs
    decreases |xs|
  {
    if |xs| == 0 {
      assert xs + [x] == [x];
    } else {
      assert (xs + [x])[1..] == xs[1..] + [x];
      RemoveFirstOfAppended(xs[1..], x);
    }
  }

  /** `RemoveFirst` takes exactly one occurrence out when there is one, and nothing otherwise. */
  lemma {:induction false} RemoveFirstRemovesOne(xs: seq<string>, x: string)
    ensures x in xs ==> multiset(RemoveFirst(xs, x)) == multiset(xs) - multiset{x}
    ensures x !in xs ==> RemoveFirst(xs, x) == xs
    decreases |xs|
  {
    if |xs| > 0 {
      assert xs == [xs[0]] + xs[1..];
      RemoveFirstRemovesOne(xs[1..], x);
    }
  }

  /** The occurrence `RemoveFirst` takes out is the first one, and the rest keep their order. */
  lemma {:induction false} RemoveFirstKeepsOrder(xs: seq<string>, x: string, i: nat)
    requires i < |xs| && xs[i] == x && x !in xs[..i]
    ensures RemoveFirst(xs, x) == xs[..i] + xs[i + 1..]
    decreases i
  {
    if i > 0 {
      assert xs[1..][i - 1] == x;
      assert xs[1..][..i - 1] == xs[1..i];
      RemoveFirstKeepsOrder(xs[1..], x, i - 1);
      assert xs[..i] == [xs[0]] + xs[1..][..i - 1];
      assert xs[1..][i - 1 + 1..] == xs[i + 1..];
    }
  }

  /** The tail of a list without repetitions has none, and lacks the head. */
  lemma DistinctTail(xs: seq<string>)
    requires |xs| > 0 && NoDuplicates(xs)
    ensures NoDuplicates(xs[1..]) && xs[0] !in xs[1..]
  {
    assert forall i :: 0 <= i < |xs| - 1 ==> xs[1..][i] == xs[i + 1];
  }

  /** Putting a new element in front of a list without repetitions keeps it so. */
  lemma DistinctCons(a: string, xs: seq<string>)
    requires NoDuplicates(xs) && a !in xs
    ensures NoDuplicates([a] + xs)
  {
    assert forall i :: 0 < i <= |xs| ==> ([a] + xs)[i] == xs[i - 1];
  }

  /** `RemoveFirst` keeps only elements of the list. */
  lemma {:induction false} RemoveFirstSubset(xs: seq<string>, x: string, y: string)
    requires y in RemoveFirst(xs, x)
    ensures y in xs
    decreases |xs|
  {
    if xs[0] != x && y != xs[0] {
      RemoveFirstSubset(xs[1..], x, y);
    }
  }

  /** Removing from a list without repetitions leaves one without repetitions, and without the element. */
  lemma {:induction false} RemoveFirstKeepsDistinct(xs: seq<string>, x: string)
    requires NoDuplicates(xs)
    ensures NoDuplicates(RemoveFirst(xs, x))
    ensures x !in RemoveFirst(xs, x)
    decreases |xs|
  {
    if |xs| > 0 {
      DistinctTail(xs);
      if xs[0] != x {
        var r := RemoveFirst(xs[1..], x);
        RemoveFirstKeepsDistinct(xs[1..], x);
        if xs[0] in r {
          RemoveFirstSubset(xs[1..], x, xs[0]);
        }
        DistinctCons(xs[0], r);
      }
    }
  }

  /**
   * The failures of `attachEndpointToUser` leave the store as it was; a
   * success appends the endpoint's id to the user's list, where it was not
   * before, and marks the endpoint as the user's.
   */
  lemma AttachRule(s: Store, userId: string, accessToken: string)
    requires KeyedById(s)
    ensures var r := AttachEndpointToUser(s, userId, accessToken);
      && (r.result.Failure? ==> r.store == s)
      && (r.result.Success? ==>
            && userId in s.users && r.result.value.accessToken == accessToken
            && r.result.value.endpointUserId == Some(userId)
            && r.result.value.id !in s.users[userId].endpointIds
            && r.store.users == s.users[userId := s.users[userId].(endpointIds := s.users[userId].endpointIds + [r.result.value.id])]
            && (exists i :: FirstIndex(s.profiles, ByAccessToken(accessToken)) == Some(i)
                  && r.result.value == s.profiles[i].(endpointUserId := Some(userId)))
            && r.result.value in r.store.profiles
            && |r.store.profiles| == |s.profiles|
            && (forall j :: 0 <= j < |s.profiles| && s.profiles[j].id != r.result.value.id ==>
                  r.store.profiles[j] == s.profiles[j])
            && r.store.groups == s.groups && r.store.history == s.history)
  {
    match FirstIndex(s.profiles, ByAccessToken(accessToken))
    case None =>
    case Some(i) =>
  }

  /** When the attach is refused, and why; a refused attach leaves the store as it was. */
  lemma AttachRefusals(s: Store, userId: string, accessToken: string)
    ensures var r := AttachEndpointToUser(s, userId, accessToken);
      && (IsBlank(userId) ==>
            r == Reply(s, Failure(IncorrectParameter("Incorrect endpointUserId " + userId))))
      && (!IsBlank(userId) && userId !in s.users ==>
            r == Reply(s, Failure(DatabaseProcessing(UserMissingMessage))))
      && (!IsBlank(userId) && userId in s.users ==>
            && ((forall i :: 0 <= i < |s.profiles| ==> s.profiles[i].accessToken != accessToken) ==>
                  r == Reply(s, Failure(DatabaseProcessing("No endpoint found for specified accessToken."))))
            && (forall i ::
                  (0 <= i < |s.profiles| && s.profiles[i].accessToken == accessToken
                   && (forall j :: 0 <= j < i ==> s.profiles[j].accessToken != accessToken)) ==>
                  && (s.profiles[i].endpointUserId.Some? && s.profiles[i].endpointUserId.value != userId ==>
                        r == Reply(s, Failure(DatabaseProcessing("Endpoint is already assigned to different user."))))
                  && (((s.profiles[i].endpointUserId.None? || s.profiles[i].endpointUserId == Some(userId))
                       && s.profiles[i].id in s.users[userId].endpointIds) ==>
                        r == Reply(s, Failure(DatabaseProcessing("Endpoint is already assigned to current user."))))
                  && (((s.profiles[i].endpointUserId.None? || s.profiles[i].endpointUserId == Some(userId))
                       && s.profiles[i].id !in s.users[userId].endpointIds) ==> r.result.Success?)))
  {
    forall i | 0 <= i < |s.profiles| && s.profiles[i].accessToken == accessToken
      && (forall j :: 0 <= j < i ==> s.profiles[j].accessToken != accessToken)
      ensures FirstIndex(s.profiles, ByAccessToken(accessToken)) == Some(i)
    {
      FirstIndexIs(s.profiles, ByAccessToken(accessToken), i);
    }
  }

  /**
   * The failures of `detachEndpointFromUser` before the user is saved leave
   * the store as it was; otherwise the first occurrence of the endpoint's
   * id leaves the user's list, whether or not the profile save then fails.
   */
  lemma DetachRule(s: Store, endpoint: EndpointProfile, freshId: string, latest: ServerProfileDefault)
    requires KeyedById(s)
    ensures var r := DetachEndpointFromUser(s, endpoint, freshId, latest);
      && (endpoint.endpointUserId.None? || IsBlank(endpoint.endpointUserId.value) ==>
            r.store == s && r.result.Failure? && r.result.error.IncorrectParameter?)
      && (endpoint.endpointUserId.Some? && !IsBlank(endpoint.endpointUserId.value) ==>
            var uid := endpoint.endpointUserId.value;
            && (uid !in s.users || endpoint.id !in s.users[uid].endpointIds ==>
                  r.store == s && r.result.Failure? && r.result.error.DatabaseProcessing?)
            && (uid in s.users && endpoint.id in s.users[uid].endpointIds ==>
                  && r.store.users == s.users[uid := s.users[uid].(endpointIds := RemoveFirst(s.users[uid].endpointIds, endpoint.id))]
                  && r.store.groups == s.groups && r.store.history == s.history
                  && (|endpoint.endpointKeyHash| == 0 ==> r.result.Failure?)
                  && (|endpoint.endpointKeyHash| > 0 && !IsBlank(endpoint.id) ==>
                        && r.result.Success?
                        && WithServerProfile(endpoint.(endpointUserId := None), latest) in r.store.profiles
                        && (forall j :: 0 <= j < |s.profiles| && s.profiles[j].id != endpoint.id ==>
                              j < |r.store.profiles| && r.store.profiles[j] == s.profiles[j]))))
  {
    match endpoint.endpointUserId
    case None =>
    case Some(uid) =>
      if !IsBlank(uid) && uid in s.users && endpoint.id in s.users[uid].endpointIds {
        SaveProfileRule(RemoveFromUser(s, s.users[uid], endpoint.id), endpoint.(endpointUserId := None), freshId, latest);
      }
  }

  /**
   * Attaching an endpoint to a user and then detaching the endpoint that
   * came back restores every user exactly.
   */
  lemma AttachThenDetachRestoresUsers(s: Store, userId: string, accessToken: string, freshId: string, latest: ServerProfileDefault)
    requires KeyedById(s)
    requires AttachEndpointToUser(s, userId, accessToken).result.Success?
    ensures var a := AttachEndpointToUser(s, userId, accessToken);
      DetachEndpointFromUser(a.store, a.result.value, freshId, latest).store.users == s.users
  {
    AttachRule(s, userId, accessToken);
    var a := AttachEndpointToUser(s, userId, accessToken);
    var e := a.result.value;
    var xs := s.users[userId].endpointIds;
    assert a.store.users[userId].endpointIds == xs + [e.id];
    var d := RemoveFromUser(a.store, a.store.users[userId], e.id);
    assert DetachEndpointFromUser(a.store, e, freshId, latest) == SaveDetached(d, e, freshId, latest);
    RemoveFirstOfAppended(xs, e.id);
    assert s.users[userId].(endpointIds := xs) == s.users[userId];
  }

  /** Attaching keeps every store invariant; in particular no user lists an endpoint twice. */
  lemma AttachKeepsInv(s: Store, userId: string, accessToken: string)
    requires DaoInv(s)
    ensures DaoInv(AttachEndpointToUser(s, userId, accessToken).store)
    ensures Inv(s) ==> Inv(AttachEndpointToUser(s, userId, accessToken).store)
  {
    AttachRule(s, userId, accessToken);
    var r := AttachEndpointToUser(s, userId, accessToken);
    if r.result.Success? && Inv(s) {
      var xs := s.users[userId].endpointIds;
      var x := r.result.value.id;
      assert NoDuplicates(xs + [x]) by {
        forall i, j | 0 <= i < j < |xs + [x]| ensures (xs + [x])[i] != (xs + [x])[j] {
          if j == |xs| {
            assert (xs + [x])[i] == xs[i];
          }
        }
      }
    }
  }

  /** Detaching keeps every store invariant. */
  lemma DetachKeepsInv(s: Store, endpoint: EndpointProfile, freshId: string, latest: ServerProfileDefault)
    requires DaoInv(s)
    ensures DaoInv(DetachEndpointFromUser(s, endpoint, freshId, latest).store)
    ensures Inv(s) ==> Inv(DetachEndpointFromUser(s, endpoint, freshId, latest).store)
  {
    DetachRule(s, endpoint, freshId, latest);
    if Inv(s) && endpoint.endpointUserId.Some? && endpoint.endpointUserId.value in s.users {
      RemoveFirstKeepsDistinct(s.users[endpoint.endpointUserId.value].endpointIds, endpoint.id);
    }
  }

  /**
   * A user is refused exactly when another user of the tenant has the same
   * external id; a saved user is stored under its id, a generated one when
   * its id is blank.
   */
  lemma SaveUserRule(s: Store, dto: EndpointUser, freshId: string)
    ensures var r := SaveEndpointUser(s, dto, freshId);
      && (r.result.Failure? <==> HasUserWith(s.users, dto.externalId, dto.tenantId, dto.id))
      && (r.result.Failure? ==> r.store == s)
      && (r.result.Success? ==>
            && r.result.value.id == (if IsBlank(dto.id) then freshId else dto.id)
            && r.result.value.(id := dto.id) == dto
            && r.store.users == s.users[r.result.value.id := r.result.value])
  {
  }

  /** Storing a user whose (external id, tenant) no other stored user has keeps the pairs unique. */
  lemma UniqueExternalIdsInsert(users: map<string, EndpointUser>, u: EndpointUser)
    requires UniqueExternalIds(users)
    requires forall b :: b in users && b != u.id ==> !(users[b].externalId == u.externalId && users[b].tenantId == u.tenantId)
    ensures UniqueExternalIds(users[u.id := u])
  {
  }

  /** Saving a user with a fresh generated id keeps the DAO invariant. */
  lemma SaveUserKeepsInv(s: Store, dto: EndpointUser, freshId: string)
    requires DaoInv(s) && freshId !in s.users && !IsBlank(freshId)
    ensures DaoInv(SaveEndpointUser(s, dto, freshId).store)
  {
    var r := SaveEndpointUser(s, dto, freshId);
    if r.result.Success? {
      var u := r.result.value;
      assert r.store.users == s.users[u.id := u];
      assert forall b :: b in s.users && b != u.id ==> b != dto.id;
      UniqueExternalIdsInsert(s.users, u);
    }
  }

  /** A saved user whose list has no repetitions keeps every user's list free of them. */
  lemma SaveUserKeepsDistinctIds(s: Store, dto: EndpointUser, freshId: string)
    requires DistinctEndpointIds(s.users) && NoDuplicates(dto.endpointIds)
    ensures DistinctEndpointIds(SaveEndpointUser(s, dto, freshId).store.users)
  {
  }

  // ---------------------------------------------------------------- profiles

  /**
   * A new profile (blank id) whose key hash is already stored: with the same
   * endpoint key it overwrites the stored profile, taking its id and
   * version; with a different key it is refused and nothing changes.
   */
  lemma SaveProfileDuplicateRule(s: Store, dto: EndpointProfile, freshId: string, latest: ServerProfileDefault, i: nat)
    requires |dto.endpointKeyHash| > 0 && IsBlank(dto.id)
    requires i < |s.profiles| && s.profiles[i].endpointKeyHash == dto.endpointKeyHash
    requires forall j :: 0 <= j < i ==> s.profiles[j].endpointKeyHash != dto.endpointKeyHash
    ensures var r := SaveEndpointProfile(s, dto, freshId, latest);
      && (s.profiles[i].endpointKey != dto.endpointKey ==>
            r == Reply(s, Failure(DatabaseProcessing("Can't save endpoint profile with existing key hash."))))
      && (s.profiles[i].endpointKey == dto.endpointKey ==>
            && r.result.Success?
            && r.result.value.id == s.profiles[i].id && r.result.value.version == s.profiles[i].version
            && r.result.value.endpointKey == dto.endpointKey
            && r.result.value in r.store.profiles
            && |r.store.profiles| == |s.profiles|)
  {
    FirstIndexIs(s.profiles, ByKeyHash(dto.endpointKeyHash), i);
  }

  /**
   * An empty key hash is refused before anything is saved; every saved
   * profile carries a server-profile body and is stored.
   */
  lemma SaveProfileRule(s: Store, dto: EndpointProfile, freshId: string, latest: ServerProfileDefault)
    ensures var r := SaveEndpointProfile(s, dto, freshId, latest);
      && (|dto.endpointKeyHash| == 0 ==> r == Reply(s, Failure(IncorrectParameter("Incorrect key hash for endpoint profile."))))
      && (r.result.Failure? ==> r.store == s)
      && (r.result.Success? ==>
            && r.result.value == WithServerProfile(dto, latest).(id := r.result.value.id, version := r.result.value.version)
            && r.result.value.serverProfileBody.Some? && r.result.value in r.store.profiles
            && r.result.value.endpointKeyHash == dto.endpointKeyHash && r.result.value.endpointKey == dto.endpointKey)
      && (!IsBlank(dto.id) && |dto.endpointKeyHash| > 0 ==> r.result.Success? && r.result.value.id == dto.id)
      && (IsBlank(dto.id) && |dto.endpointKeyHash| > 0
          && (forall j :: 0 <= j < |s.profiles| ==> s.profiles[j].endpointKeyHash != dto.endpointKeyHash) ==>
            && r.result.Success? && r.result.value.id == freshId
            && ((forall j :: 0 <= j < |s.profiles| ==> s.profiles[j].id != freshId) ==>
                  r.store.profiles == s.profiles + [r.result.value]))
      && (r.result.Success? ==>
            forall j :: 0 <= j < |s.profiles| && s.profiles[j].id != r.result.value.id ==>
              j < |r.store.profiles| && r.store.profiles[j] == s.profiles[j])
      && r.store.users == s.users && r.store.groups == s.groups && r.store.history == s.history
  {
  }

  // ---------------------------------------------------------------- logs

  /** An escaped string never starts with a bare quote. */
  lemma EscapeHead(s: string)
    ensures |Escape(s)| > 0 ==> Escape(s)[0] != '"'
    ensures |Escape(s)| == 0 <==> |s| == 0
  {
  }

  /** Unescaping undoes escaping. */
  lemma {:induction false} UnescapeEscape(s: string)
    ensures Unescape(Escape(s)) == s
    decreases |s|
  {
    if |s| > 0 {
      var t := Escape(s[1..]);
      UnescapeEscape(s[1..]);
      EscapeHead(s[1..]);
      if s[0] == '"' {
        assert Escape(s) == "\\\"" + t;
        assert Escape(s)[2..] == t;
      } else {
        assert Escape(s) == [s[0]] + t;
        assert Escape(s)[1..] == t;
        if |t| > 0 {
          assert Escape(s)[1] == t[0];
        }
      }
      assert s == [s[0]] + s[1..];
    }
  }

  /** A string without a backslash comes back unchanged, and unescaping never lengthens a string. */
  lemma {:induction false} UnescapeShortens(s: string)
    ensures |Unescape(s)| <= |s|
    ensures (forall i :: 0 <= i < |s| ==> s[i] != '\\') ==> Unescape(s) == s
    decreases |s|
  {
    if |s| >= 2 {
      if s[0] == '\\' && s[1] == '"' {
        UnescapeShortens(s[2..]);
      } else {
        UnescapeShortens(s[1..]);
        if forall i :: 0 <= i < |s| ==> s[i] != '\\' {
          assert forall i :: 0 <= i < |s[1..]| ==> s[1..][i] == s[i + 1];
          assert s == [s[0]] + s[1..];
        }
      }
    }
  }
}
