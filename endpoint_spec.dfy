/**
 * The decision logic of `EndpointServiceImpl` over an in-memory picture of
 * its DAOs: endpoint groups and users keyed by id, endpoint profiles as the
 * rows of their table, and the history entries handed to the history
 * service. Each operation maps a `Store` to the next `Store` and the value
 * returned or the exception thrown; a thrown exception does not roll back
 * what was saved before it.
 */
module EndpointSpec {
  import opened Common

  type Bytes = seq<bv8>

  /** `DEFAULT_GROUP_WEIGHT`: the weight of an application's default group. */
  const DefaultGroupWeight: int := 0

  const SameWeightMessage: string := "Can't save endpoint group with same weight and application id"
  const DefaultWeightMessage: string := "Can't update weight for default endpoint group"
  const UserMissingMessage: string := "Endpoint user is not present in db."

  datatype EndpointGroup = EndpointGroup(id: string, applicationId: string, name: string, weight: int,
                                         sequenceNumber: nat, createdTime: int)

  /** An endpoint user; a `null` list of endpoint ids is the empty list. */
  datatype EndpointUser = EndpointUser(id: string, externalId: string, tenantId: string, username: string,
                                       endpointIds: seq<string>)

  /** An endpoint profile; `None` stands for a `null` user id or server-profile body. */
  datatype EndpointProfile = EndpointProfile(id: string, endpointKeyHash: Bytes, endpointKey: Bytes,
                                             accessToken: string, endpointUserId: Option<string>, version: nat,
                                             serverProfileVersion: int, serverProfileBody: Option<string>)

  /** The latest server-profile schema version and its default record, from the services that own them. */
  datatype ServerProfileDefault = ServerProfileDefault(version: int, defaultRecord: string)

  datatype ChangeType = UpdateWeight | RemoveGroup
  datatype HistoryEntry = HistoryEntry(change: ChangeType, group: EndpointGroup)

  /** The notification `removeEndpointGroup` returns. */
  datatype ChangeNotification = ChangeNotification(appId: string, groupId: string, groupSeqNumber: nat)

  /** `IncorrectParameterException` and `DatabaseProcessingException`. */
  datatype DaoError = IncorrectParameter(message: string) | DatabaseProcessing(message: string)

  datatype Store = Store(groups: map<string, EndpointGroup>, users: map<string, EndpointUser>,
                         profiles: seq<EndpointProfile>, history: seq<HistoryEntry>)

  /** The store after an operation, and what the operation returned or threw. */
  datatype Reply<T> = Reply(store: Store, result: Result<T, DaoError>)

  // ---------------------------------------------------------------- validation

  /** The ASCII characters `Character.isWhitespace` accepts. */
  predicate IsWhitespace(c: char)
  {
    c == ' ' || c == '\t' || c == '\n' || c == '\r' || c == '\U{0B}' || c == '\U{0C}' || '\U{1C}' <= c <= '\U{1F}'
  }

  /** `StringUtils.isBlank`, a `null` string being the empty one. */
  predicate IsBlank(s: string)
  {
    forall i :: 0 <= i < |s| ==> IsWhitespace(s[i])
  }

  /** `isValidId`: not blank. */
  predicate IsValidId(s: string)
  {
    !IsBlank(s)
  }

  predicate IsDigit(c: char)
  {
    '0' <= c <= '9'
  }

  /** `isValidSqlId`: a decimal integer with an optional sign, as `Long.valueOf` parses it. */
  predicate IsValidSqlId(s: string)
  {
    var digits := if |s| > 0 && (s[0] == '-' || s[0] == '+') then s[1..] else s;
    |digits| > 0 && forall i :: 0 <= i < |digits| ==> IsDigit(digits[i])
  }

  // ---------------------------------------------------------------- lookups

  /** What the profile DAO looks rows up by. */
  datatype RowKey = ById(id: string) | ByAccessToken(token: string) | ByKeyHash(hash: Bytes)

  predicate Matches(p: EndpointProfile, key: RowKey)
  {
    match key
    case ById(id) => p.id == id
    case ByAccessToken(token) => p.accessToken == token
    case ByKeyHash(hash) => p.endpointKeyHash == hash
  }

  /** The first row matching `key`, as the DAO finders return it. */
  function FirstIndex(rows: seq<EndpointProfile>, key: RowKey): (r: Option<nat>)
    ensures r.Some? ==> r.value < |rows| && Matches(rows[r.value], key)
    ensures r.Some? ==> forall j :: 0 <= j < r.value ==> !Matches(rows[j], key)
    ensures r.None? ==> forall j :: 0 <= j < |rows| ==> !Matches(rows[j], key)
  {
    if |rows| == 0 then None
    else if Matches(rows[0], key) then Some(0)
    else match FirstIndex(rows[1..], key)
      case None => None
      case Some(i) => Some(i + 1)
  }

  /** `endpointProfileDao.save`: replace the row with the same id, or append a new row. */
  function SaveProfileRow(rows: seq<EndpointProfile>, p: EndpointProfile): (r: seq<EndpointProfile>)
    ensures p in r
    ensures |rows| <= |r| <= |rows| + 1
    ensures (exists j :: 0 <= j < |rows| && rows[j].id == p.id) <==> |r| == |rows|
    ensures forall j :: 0 <= j < |rows| && rows[j].id != p.id ==> j < |r| && r[j] == rows[j]
    ensures forall q :: q in r ==> q == p || q in rows
  {
    match FirstIndex(rows, ById(p.id))
    case Some(i) => assert rows[i := p][i] == p; rows[i := p]
    case None => rows + [p]
  }

  /** A group of application `app` at weight `w`, other than the one with id `except`. */
  predicate HasGroupAt(groups: map<string, EndpointGroup>, app: string, w: int, except: Option<string>)
  {
    exists k :: k in groups && groups[k].applicationId == app && groups[k].weight == w && Some(k) != except
  }

  /** A user with this external id and tenant, other than the one with id `except`. */
  predicate HasUserWith(users: map<string, EndpointUser>, externalId: string, tenantId: string, except: string)
  {
    exists k :: k in users && users[k].externalId == externalId && users[k].tenantId == tenantId && k != except
  }

  // ---------------------------------------------------------------- groups

  /**
   * `saveEndpointGroup`: a group with a blank id is new and gets the id the
   * DAO generates and the current time; one with an id updates the stored
   * group. The (application, weight) pair must stay unique, and the default
   * group cannot be updated at all.
   */
  function SaveEndpointGroup(s: Store, dto: EndpointGroup, freshId: string, now: int): Reply<Option<EndpointGroup>>
  {
    if !IsValidId(dto.applicationId) then Reply(s, Success(None))
    else if IsBlank(dto.id) then
      if HasGroupAt(s.groups, dto.applicationId, dto.weight, None) then Reply(s, Failure(IncorrectParameter(SameWeightMessage)))
      else
        var g := dto.(id := freshId, createdTime := now);
        Reply(s.(groups := s.groups[freshId := g]), Success(Some(g)))
    else if dto.id !in s.groups then Reply(s, Success(None))
    else UpdateEndpointGroup(s, s.groups[dto.id], dto)
  }

  /** The update branch of `saveEndpointGroup`, `previous` being the stored group with the id of `dto`. */
  function UpdateEndpointGroup(s: Store, previous: EndpointGroup, dto: EndpointGroup): Reply<Option<EndpointGroup>>
  {
    if HasGroupAt(s.groups, dto.applicationId, dto.weight, Some(dto.id)) then
      Reply(s, Failure(IncorrectParameter(SameWeightMessage)))
    else if previous.weight == DefaultGroupWeight then Reply(s, Failure(IncorrectParameter(DefaultWeightMessage)))
    else
      var history := if previous.weight != dto.weight then s.history + [HistoryEntry(UpdateWeight, dto)] else s.history;
      Reply(s.(groups := s.groups[dto.id := dto], history := history), Success(Some(dto)))
  }

  /**
   * `removeEndpointGroup`: remove the group and record the removal, unless
   * it is missing, or has weight 0 and the removal is not forced.
   */
  function RemoveEndpointGroup(s: Store, id: string, forceRemove: bool): Reply<Option<ChangeNotification>>
  {
    if id !in s.groups then Reply(s, Success(None))
    else
      var g := s.groups[id];
      if g.weight != 0 || forceRemove then
        Reply(s.(groups := s.groups - {id}, history := s.history + [HistoryEntry(RemoveGroup, g)]),
              Success(Some(ChangeNotification(g.applicationId, g.id, g.sequenceNumber))))
      else Reply(s, Success(None))
  }

  /** `removeEndpointGroupById`: an id that is not an SQL id is refused, the default group is kept. */
  function RemoveEndpointGroupById(s: Store, id: string): Reply<Option<ChangeNotification>>
  {
    if !IsValidSqlId(id) then Reply(s, Failure(IncorrectParameter("Can't remove endpoint group by id. Incorrect id " + id)))
    else RemoveEndpointGroup(s, id, false)
  }

  /** The ids of the groups of application `app`. */
  function AppGroupIds(groups: map<string, EndpointGroup>, app: string): set<string>
  {
    set k | k in groups && groups[k].applicationId == app
  }

  /** The forced removals the loop of `removeEndpointGroupByAppId` makes, in the order the DAO lists the groups. */
  function RemoveGroupsInOrder(s: Store, order: seq<string>): Store
    decreases |order|
  {
    if |order| == 0 then s
    else RemoveGroupsInOrder(RemoveEndpointGroup(s, order[0], true).store, order[1..])
  }

  /** `order` lists every id of `ids` once. */
  predicate Enumerates(order: seq<string>, ids: set<string>)
  {
    (forall i, j :: 0 <= i < j < |order| ==> order[i] != order[j]) && (set k | k in order) == ids
  }

  // ---------------------------------------------------------------- users

  /** `List.remove(Object)`: drop the first occurrence of `x`. */
  function RemoveFirst(xs: seq<string>, x: string): seq<string>
  {
    if |xs| == 0 then []
    else if xs[0] == x then xs[1..]
    else [xs[0]] + RemoveFirst(xs[1..], x)
  }

  /**
   * `attachEndpointToUser(endpointUserId, endpointAccessToken)`: append the
   * endpoint found by its access token to the user's endpoint ids and record
   * the user on the endpoint.
   */
  function AttachEndpointToUser(s: Store, userId: string, accessToken: string): Reply<EndpointProfile>
  {
    if IsBlank(userId) then Reply(s, Failure(IncorrectParameter("Incorrect endpointUserId " + userId)))
    else if userId !in s.users then Reply(s, Failure(DatabaseProcessing(UserMissingMessage)))
    else match FirstIndex(s.profiles, ByAccessToken(accessToken))
      case None => Reply(s, Failure(DatabaseProcessing("No endpoint found for specified accessToken.")))
      case Some(i) => AttachFound(s, s.users[userId], s.profiles[i], userId)
  }

  /** The part of `attachEndpointToUser` after the user and the endpoint are found. */
  function AttachFound(s: Store, user: EndpointUser, endpoint: EndpointProfile, userId: string): Reply<EndpointProfile>
  {
    if endpoint.endpointUserId.Some? && endpoint.endpointUserId.value != userId then
      Reply(s, Failure(DatabaseProcessing("Endpoint is already assigned to different user.")))
    else if endpoint.id in user.endpointIds then
      Reply(s, Failure(DatabaseProcessing("Endpoint is already assigned to current user.")))
    else
      var u := user.(endpointIds := user.endpointIds + [endpoint.id]);
      var e := endpoint.(endpointUserId := Some(u.id));
      Reply(s.(users := s.users[u.id := u], profiles := SaveProfileRow(s.profiles, e)), Success(e))
  }

  /**
   * `detachEndpointFromUser`: remove the endpoint's id from its user's list,
   * save the user, then clear the user on the endpoint and save it with
   * `saveEndpointProfile`, whose failure leaves the user saved.
   */
  function DetachEndpointFromUser(s: Store, endpoint: EndpointProfile, freshId: string, latest: ServerProfileDefault): Reply<()>
  {
    match endpoint.endpointUserId
    case None => Reply(s, Failure(IncorrectParameter("Incorrect endpointUserId null")))
    case Some(userId) =>
      if IsBlank(userId) then Reply(s, Failure(IncorrectParameter("Incorrect endpointUserId " + userId)))
      else if userId !in s.users then Reply(s, Failure(DatabaseProcessing(UserMissingMessage)))
      else if endpoint.id !in s.users[userId].endpointIds then
        Reply(s, Failure(DatabaseProcessing("Endpoint is not assigned to current user.")))
      else SaveDetached(RemoveFromUser(s, s.users[userId], endpoint.id), endpoint, freshId, latest)
  }

  /** The user saved without the first occurrence of the endpoint id. */
  function RemoveFromUser(s: Store, user: EndpointUser, endpointId: string): Store
  {
    s.(users := s.users[user.id := user.(endpointIds := RemoveFirst(user.endpointIds, endpointId))])
  }

  /** The end of `detachEndpointFromUser`: the endpoint saved without a user. */
  function SaveDetached(s: Store, endpoint: EndpointProfile, freshId: string, latest: ServerProfileDefault): Reply<()>
  {
    var saved := SaveEndpointProfile(s, endpoint.(endpointUserId := None), freshId, latest);
    Reply(saved.store, if saved.result.Failure? then Failure(saved.result.error) else Success(()))
  }

  /**
   * `saveEndpointUser`: refused when another user already has the same
   * external id in the tenant; a blank id gets the id the DAO generates.
   */
  function SaveEndpointUser(s: Store, dto: EndpointUser, freshId: string): Reply<EndpointUser>
  {
    if HasUserWith(s.users, dto.externalId, dto.tenantId, dto.id) then
      Reply(s, Failure(IncorrectParameter("Can't save endpoint user with same external id")))
    else
      var u := if IsBlank(dto.id) then dto.(id := freshId) else dto;
      Reply(s.(users := s.users[u.id := u]), Success(u))
  }

  // ---------------------------------------------------------------- profiles

  /**
   * `saveEndpointProfile`: a profile without a server-profile body gets the
   * latest schema's default; a new profile (blank id) whose key hash is
   * already stored either takes over the stored id and version, when the
   * endpoint keys agree, or is refused.
   */
  function SaveEndpointProfile(s: Store, dto: EndpointProfile, freshId: string, latest: ServerProfileDefault): (r: Reply<EndpointProfile>)
    ensures r.result.Failure? ==> r.store == s
    ensures r.store.groups == s.groups && r.store.users == s.users && r.store.history == s.history
  {
    if |dto.endpointKeyHash| == 0 then Reply(s, Failure(IncorrectParameter("Incorrect key hash for endpoint profile.")))
    else
      var p := WithServerProfile(dto, latest);
      if !IsBlank(p.id) then Reply(s.(profiles := SaveProfileRow(s.profiles, p)), Success(p))
      else match FirstIndex(s.profiles, ByKeyHash(p.endpointKeyHash))
        case None =>
          var q := p.(id := freshId);
          Reply(s.(profiles := SaveProfileRow(s.profiles, q)), Success(q))
        case Some(i) =>
          var stored := s.profiles[i];
          if stored.endpointKey == p.endpointKey then
            var q := p.(id := stored.id, version := stored.version);
            Reply(s.(profiles := SaveProfileRow(s.profiles, q)), Success(q))
          else Reply(s, Failure(DatabaseProcessing("Can't save endpoint profile with existing key hash.")))
  }

  /** The server-profile defaults `saveEndpointProfile` fills in for a profile without a body. */
  function WithServerProfile(dto: EndpointProfile, latest: ServerProfileDefault): (p: EndpointProfile)
    ensures p.serverProfileBody.Some?
    ensures dto.serverProfileBody.Some? ==> p == dto
    ensures dto.serverProfileBody.None? ==> p.serverProfileVersion == latest.version && p.serverProfileBody == Some(latest.defaultRecord)
    ensures p.(serverProfileVersion := dto.serverProfileVersion, serverProfileBody := dto.serverProfileBody) == dto
  {
    if dto.serverProfileBody.None? then dto.(serverProfileVersion := latest.version, serverProfileBody := Some(latest.defaultRecord))
    else dto
  }

  // ---------------------------------------------------------------- logs

  /** `log.replace("\\\"", "\"")`: every backslash-quote pair, left to right, becomes a quote. */
  function Unescape(s: string): string
  {
    if |s| < 2 then s
    else if s[0] == '\\' && s[1] == '"' then "\"" + Unescape(s[2..])
    else [s[0]] + Unescape(s[1..])
  }

  /** The escaping `Unescape` undoes: a backslash before every quote. */
  function Escape(s: string): string
  {
    if |s| == 0 then []
    else (if s[0] == '"' then "\\\"" else [s[0]]) + Escape(s[1..])
  }

  // ---------------------------------------------------------------- invariants

  /** Every group and user is stored under its own id. */
  predicate KeyedById(s: Store)
  {
    && (forall k :: k in s.groups ==> s.groups[k].id == k)
    && (forall k :: k in s.users ==> s.users[k].id == k && !IsBlank(k))
  }

  /** No two groups of one application share a weight. */
  predicate UniqueWeights(groups: map<string, EndpointGroup>)
  {
    forall a, b ::
      (a in groups && b in groups && groups[a].applicationId == groups[b].applicationId
       && groups[a].weight == groups[b].weight) ==> a == b
  }

  /** No two users of one tenant share an external id. */
  predicate UniqueExternalIds(users: map<string, EndpointUser>)
  {
    forall a, b ::
      (a in users && b in users && users[a].externalId == users[b].externalId
       && users[a].tenantId == users[b].tenantId) ==> a == b
  }

  predicate NoDuplicates(xs: seq<string>)
  {
    forall i, j :: 0 <= i < j < |xs| ==> xs[i] != xs[j]
  }

  /** No user lists an endpoint twice. */
  predicate DistinctEndpointIds(users: map<string, EndpointUser>)
  {
    forall k :: k in users ==> NoDuplicates(users[k].endpointIds)
  }

  /** What the DAO finders rely on: ids are keys, and the pairs they look up by are unique. */
  predicate DaoInv(s: Store)
  {
    KeyedById(s) && UniqueWeights(s.groups) && UniqueExternalIds(s.users)
  }

  predicate Inv(s: Store)
  {
    DaoInv(s) && DistinctEndpointIds(s.users)
  }
}
