/**
 * `EndpointServiceImpl` as a class over its DAOs. Each operation is proved
 * to leave the DAOs as the matching function of `EndpointSpec` says, and to
 * keep the DAO invariant its finders rely on.
 */
module EndpointServiceModel {
  import opened Common
  import opened EndpointSpec
  import P = EndpointProperties

  class EndpointServiceImpl {
    /** `endpointGroupDao`, keyed by id. */
    var groups: map<string, EndpointGroup>
    /** `endpointUserDao`, keyed by id. */
    var users: map<string, EndpointUser>
    /** `endpointProfileDao`, in row order. */
    var profiles: seq<EndpointProfile>
    /** The entries handed to `historyService.saveHistory`. */
    var history: seq<HistoryEntry>
    /** `endpointLogDao`, keyed by (application token, endpoint key hash); an absent key is a `null` list. */
    var endpointLogs: map<(string, string), seq<string>>

    function Snapshot(): Store
      reads this
    {
      Store(groups, users, profiles, history)
    }

    ghost predicate Valid()
      reads this
    {
      DaoInv(Snapshot())
    }

    constructor (logs: map<(string, string), seq<string>>)
      ensures Valid() && Snapshot() == Store(map[], map[], [], []) && endpointLogs == logs
    {
      groups := map[];
      users := map[];
      profiles := [];
      history := [];
      endpointLogs := logs;
    }

    /** `endpointGroupDao.findByAppIdAndWeight`. */
    method FindByAppIdAndWeight(appId: string, weight: int) returns (g: Option<EndpointGroup>)
      requires Valid()
      ensures g.None? <==> !HasGroupAt(groups, appId, weight, None)
      ensures g.Some? ==> g.value.id in groups && groups[g.value.id] == g.value
      ensures g.Some? ==> g.value.applicationId == appId && g.value.weight == weight
      ensures g.Some? ==> forall k :: k in groups && groups[k].applicationId == appId && groups[k].weight == weight ==> k == g.value.id
    {
      if exists k :: k in groups && groups[k].applicationId == appId && groups[k].weight == weight {
        var k :| k in groups && groups[k].applicationId == appId && groups[k].weight == weight;
        g := Some(groups[k]);
      } else {
        g := None;
      }
    }

    /** `saveEndpointGroup`; `freshId` is the id the DAO generates and `now` the current time. */
    method SaveEndpointGroup(dto: EndpointGroup, freshId: string, now: int) returns (r: Result<Option<EndpointGroup>, DaoError>)
      requires Valid() && freshId !in groups
      modifies this
      ensures Valid() && endpointLogs == old(endpointLogs)
      ensures Snapshot() == EndpointSpec.SaveEndpointGroup(old(Snapshot()), dto, freshId, now).store
      ensures r == EndpointSpec.SaveEndpointGroup(old(Snapshot()), dto, freshId, now).result
    {
      ghost var s := Snapshot();
      if !IsValidId(dto.applicationId) {
        return Success(None);
      }
      var group := FindByAppIdAndWeight(dto.applicationId, dto.weight);
      if IsBlank(dto.id) {
        if group.Some? {
          return Failure(IncorrectParameter(SameWeightMessage));
        }
        var g := dto.(id := freshId, createdTime := now);
        groups := groups[freshId := g];
        r := Success(Some(g));
      } else {
        if dto.id !in groups {
          return Success(None);
        }
        var previous := groups[dto.id];
        assert group.Some? && group.value.id != previous.id <==> HasGroupAt(s.groups, dto.applicationId, dto.weight, Some(dto.id));
        if group.Some? && group.value.id != previous.id {
          return Failure(IncorrectParameter(SameWeightMessage));
        } else if previous.weight == DefaultGroupWeight {
          return Failure(IncorrectParameter(DefaultWeightMessage));
        }
        groups := groups[dto.id := dto];
        if previous.weight != dto.weight {
          history := history + [HistoryEntry(UpdateWeight, dto)];
        }
        r := Success(Some(dto));
      }
      P.SaveGroupKeepsInv(s, dto, freshId, now);
    }

    /** `removeEndpointGroup`. */
    method RemoveEndpointGroup(id: string, forceRemove: bool) returns (change: Option<ChangeNotification>)
      requires Valid()
      modifies this
      ensures Valid() && endpointLogs == old(endpointLogs)
      ensures Snapshot() == EndpointSpec.RemoveEndpointGroup(old(Snapshot()), id, forceRemove).store
      ensures Success(change) == EndpointSpec.RemoveEndpointGroup(old(Snapshot()), id, forceRemove).result
    {
      ghost var s := Snapshot();
      change := None;
      if id in groups {
        var g := groups[id];
        if g.weight != 0 || forceRemove {
          groups := groups - {id};
          history := history + [HistoryEntry(RemoveGroup, g)];
          change := Some(ChangeNotification(g.applicationId, g.id, g.sequenceNumber));
        }
      }
      P.RemoveGroupKeepsInv(s, id, forceRemove);
    }

    /** `removeEndpointGroupById`. */
    method RemoveEndpointGroupById(id: string) returns (r: Result<Option<ChangeNotification>, DaoError>)
      requires Valid()
      modifies this
      ensures Valid() && endpointLogs == old(endpointLogs)
      ensures Snapshot() == EndpointSpec.RemoveEndpointGroupById(old(Snapshot()), id).store
      ensures r == EndpointSpec.RemoveEndpointGroupById(old(Snapshot()), id).result
    {
      if !IsValidSqlId(id) {
        return Failure(IncorrectParameter("Can't remove endpoint group by id. Incorrect id " + id));
      }
      var change := RemoveEndpointGroup(id, false);
      r := Success(change);
    }

    /**
     * `removeEndpointGroupByAppId`: force-remove every group of the
     * application, in the order the DAO lists them.
     */
    method RemoveEndpointGroupByAppId(appId: string) returns (r: Outcome<DaoError>)
      requires Valid()
      modifies this
      ensures Valid() && endpointLogs == old(endpointLogs)
      ensures !IsValidSqlId(appId) ==>
        r == Fail(IncorrectParameter("Can't remove endpoint groups by application id. Incorrect application id " + appId))
        && Snapshot() == old(Snapshot())
      ensures IsValidSqlId(appId) ==> r == Pass
      ensures IsValidSqlId(appId) ==>
        exists order :: Enumerates(order, AppGroupIds(old(groups), appId)) && Snapshot() == RemoveGroupsInOrder(old(Snapshot()), order)
    {
      if !IsValidSqlId(appId) {
        return Fail(IncorrectParameter("Can't remove endpoint groups by application id. Incorrect application id " + appId));
      }
      var remaining := AppGroupIds(groups, appId);
      ghost var all := remaining;
      ghost var s := Snapshot();
      ghost var order: seq<string> := [];
      while remaining != {}
        invariant Valid() && endpointLogs == old(endpointLogs)
        invariant forall i, j :: 0 <= i < j < |order| ==> order[i] != order[j]
        invariant (set k | k in order) + remaining == all
        invariant forall k :: k in order ==> k !in remaining
        invariant Snapshot() == RemoveGroupsInOrder(s, order)
        decreases remaining
      {
        var id :| id in remaining;
        P.RemoveGroupsInOrderSnoc(s, order, id);
        var _ := RemoveEndpointGroup(id, true);
        order := order + [id];
        remaining := remaining - {id};
      }
      assert Enumerates(order, all);
      r := Pass;
    }

    /** `attachEndpointToUser(endpointUserId, endpointAccessToken)`. */
    method AttachEndpointToUser(userId: string, accessToken: string) returns (r: Result<EndpointProfile, DaoError>)
      requires Valid()
      modifies this
      ensures Valid() && endpointLogs == old(endpointLogs)
      ensures Snapshot() == EndpointSpec.AttachEndpointToUser(old(Snapshot()), userId, accessToken).store
      ensures r == EndpointSpec.AttachEndpointToUser(old(Snapshot()), userId, accessToken).result
    {
      ghost var s := Snapshot();
      if IsBlank(userId) {
        return Failure(IncorrectParameter("Incorrect endpointUserId " + userId));
      }
      if userId !in users {
        return Failure(DatabaseProcessing(UserMissingMessage));
      }
      var user := users[userId];
      var found := FirstIndex(profiles, ByAccessToken(accessToken));
      if found.None? {
        return Failure(DatabaseProcessing("No endpoint found for specified accessToken."));
      }
      r := AttachFound(user, profiles[found.value], userId);
      P.AttachKeepsInv(s, userId, accessToken);
    }

    /** The part of `attachEndpointToUser` after the user and the endpoint are found. */
    method AttachFound(user: EndpointUser, endpoint: EndpointProfile, userId: string) returns (r: Result<EndpointProfile, DaoError>)
      modifies this
      ensures endpointLogs == old(endpointLogs)
      ensures Snapshot() == EndpointSpec.AttachFound(old(Snapshot()), user, endpoint, userId).store
      ensures r == EndpointSpec.AttachFound(old(Snapshot()), user, endpoint, userId).result
    {
      if endpoint.endpointUserId.None? || endpoint.endpointUserId.value == userId {
        if endpoint.id in user.endpointIds {
          return Failure(DatabaseProcessing("Endpoint is already assigned to current user."));
        }
        var u := user.(endpointIds := user.endpointIds + [endpoint.id]);
        users := users[u.id := u];
        var e := endpoint.(endpointUserId := Some(u.id));
        profiles := SaveProfileRow(profiles, e);
        r := Success(e);
      } else {
        r := Failure(DatabaseProcessing("Endpoint is already assigned to different user."));
      }
    }

    /** `detachEndpointFromUser`; the profile save at its end is `saveEndpointProfile`. */
    method DetachEndpointFromUser(endpoint: EndpointProfile, freshId: string, latest: ServerProfileDefault)
      returns (r: Result<(), DaoError>)
      requires Valid()
      requires forall j :: 0 <= j < |profiles| ==> profiles[j].id != freshId
      modifies this
      ensures Valid() && endpointLogs == old(endpointLogs)
      ensures Snapshot() == EndpointSpec.DetachEndpointFromUser(old(Snapshot()), endpoint, freshId, latest).store
      ensures r == EndpointSpec.DetachEndpointFromUser(old(Snapshot()), endpoint, freshId, latest).result
    {
      ghost var s := Snapshot();
      if endpoint.endpointUserId.None? {
        return Failure(IncorrectParameter("Incorrect endpointUserId null"));
      }
      var userId := endpoint.endpointUserId.value;
      if IsBlank(userId) {
        return Failure(IncorrectParameter("Incorrect endpointUserId " + userId));
      }
      if userId !in users {
        return Failure(DatabaseProcessing(UserMissingMessage));
      }
      var user := users[userId];
      if endpoint.id !in user.endpointIds {
        return Failure(DatabaseProcessing("Endpoint is not assigned to current user."));
      }
      users := users[user.id := user.(endpointIds := RemoveFirst(user.endpointIds, endpoint.id))];
      assert Snapshot() == RemoveFromUser(s, user, endpoint.id);
      P.DetachKeepsInv(s, endpoint, freshId, latest);
      var saved := SaveEndpointProfile(endpoint.(endpointUserId := None), freshId, latest);
      r := if saved.Failure? then Failure(saved.error) else Success(());
    }

    /** `saveEndpointUser`; `freshId` is the id the DAO generates for a user without one. */
    method SaveEndpointUser(dto: EndpointUser, freshId: string) returns (r: Result<EndpointUser, DaoError>)
      requires Valid() && freshId !in users && !IsBlank(freshId)
      modifies this
      ensures Valid() && endpointLogs == old(endpointLogs)
      ensures Snapshot() == EndpointSpec.SaveEndpointUser(old(Snapshot()), dto, freshId).store
      ensures r == EndpointSpec.SaveEndpointUser(old(Snapshot()), dto, freshId).result
    {
      ghost var s := Snapshot();
      var found := FindByExternalIdAndTenantId(dto.externalId, dto.tenantId);
      if found.None? || found.value.id == dto.id {
        var u := if IsBlank(dto.id) then dto.(id := freshId) else dto;
        users := users[u.id := u];
        r := Success(u);
      } else {
        r := Failure(IncorrectParameter("Can't save endpoint user with same external id"));
      }
      P.SaveUserKeepsInv(s, dto, freshId);
    }

    /** `endpointUserDao.findByExternalIdAndTenantId`. */
    method FindByExternalIdAndTenantId(externalId: string, tenantId: string) returns (u: Option<EndpointUser>)
      requires Valid()
      ensures u.None? ==> forall k :: k in users ==> !(users[k].externalId == externalId && users[k].tenantId == tenantId)
      ensures u.Some? ==> u.value.id in users && users[u.value.id] == u.value
      ensures u.Some? ==> u.value.externalId == externalId && u.value.tenantId == tenantId
      ensures u.Some? ==> forall k :: k in users && users[k].externalId == externalId && users[k].tenantId == tenantId ==> k == u.value.id
    {
      if exists k :: k in users && users[k].externalId == externalId && users[k].tenantId == tenantId {
        var k :| k in users && users[k].externalId == externalId && users[k].tenantId == tenantId;
        u := Some(users[k]);
      } else {
        u := None;
      }
    }

    /** `saveEndpointProfile`; `latest` is what the server-profile and CTL services return. */
    method SaveEndpointProfile(dto: EndpointProfile, freshId: string, latest: ServerProfileDefault) returns (r: Result<EndpointProfile, DaoError>)
      requires Valid()
      requires forall j :: 0 <= j < |profiles| ==> profiles[j].id != freshId
      modifies this
      ensures Valid() && endpointLogs == old(endpointLogs)
      ensures Snapshot() == EndpointSpec.SaveEndpointProfile(old(Snapshot()), dto, freshId, latest).store
      ensures r == EndpointSpec.SaveEndpointProfile(old(Snapshot()), dto, freshId, latest).result
    {
      if |dto.endpointKeyHash| == 0 {
        return Failure(IncorrectParameter("Incorrect key hash for endpoint profile."));
      }
      var p := dto;
      if p.serverProfileBody.None? {
        p := p.(serverProfileVersion := latest.version, serverProfileBody := Some(latest.defaultRecord));
      }
      if IsBlank(p.id) {
        var stored := FirstIndex(profiles, ByKeyHash(p.endpointKeyHash));
        if stored.None? {
          p := p.(id := freshId);
        } else if profiles[stored.value].endpointKey == p.endpointKey {
          p := p.(id := profiles[stored.value].id, version := profiles[stored.value].version);
        } else {
          return Failure(DatabaseProcessing("Can't save endpoint profile with existing key hash."));
        }
      }
      profiles := SaveProfileRow(profiles, p);
      r := Success(p);
    }

    /** `findEndpointLogByKeyHash`: the stored log lines with every `\"` unescaped, or `null` when there are none. */
    method FindEndpointLogByKeyHash(applicationToken: string, endpointKeyHash: string) returns (r: Option<seq<string>>)
      ensures r.None? <==> (applicationToken, endpointKeyHash) !in endpointLogs
                           || |endpointLogs[(applicationToken, endpointKeyHash)]| == 0
      ensures r.Some? ==> |r.value| == |endpointLogs[(applicationToken, endpointKeyHash)]|
      ensures r.Some? ==> forall i :: 0 <= i < |r.value| ==>
        r.value[i] == Unescape(endpointLogs[(applicationToken, endpointKeyHash)][i])
    {
      if (applicationToken, endpointKeyHash) !in endpointLogs {
        return None;
      }
      var oldLogList := endpointLogs[(applicationToken, endpointKeyHash)];
      if |oldLogList| == 0 {
        return None;
      }
      var newLogList: seq<string> := [];
      var i := 0;
      while i < |oldLogList|
        invariant 0 <= i <= |oldLogList|
        invariant |newLogList| == i
        invariant forall j :: 0 <= j < i ==> newLogList[j] == Unescape(oldLogList[j])
      {
        newLogList := newLogList + [Unescape(oldLogList[i])];
        i := i + 1;
      }
      r := Some(newLogList);
    }
  }
}
