/**
 * Feature channels of the client protocol and the direction table of the
 * operation TCP channel, with the direction map that `sync` compiles.
 */
module Transport {

  /** The client's feature channels (Kaa's `TransportType`). */
  datatype TransportType = Bootstrap | Profile | Configuration | Notification | User | Event | Logging

  /** Whether a feature channel sends up, receives down, or both. */
  datatype ChannelDirection = Up | Down | Bidirectional

  /** `SUPPORTED_TYPES`: every operations feature channel, each bidirectional. */
  const SupportedTypes: map<TransportType, ChannelDirection> :=
    map[Profile := Bidirectional, Configuration := Bidirectional, Notification := Bidirectional,
        User := Bidirectional, Event := Bidirectional, Logging := Bidirectional]

  /**
   * One enumeration of the entries of `SUPPORTED_TYPES`; a hash map gives no
   * order, and the map `sync` builds does not depend on it.
   */
  const SupportedOrder: seq<TransportType> := [Profile, Configuration, Notification, User, Event, Logging]

  lemma SupportedOrderEnumeratesTable()
    ensures forall t :: t in SupportedTypes <==> t in SupportedOrder
  {
  }

  /**
   * The map after one pass of the outer loop of `sync` for requested type
   * `t`: `t` at its declared direction when the channel supports it, every
   * other supported type forced `Down`.
   */
  function DirectionsFor(t: TransportType): map<TransportType, ChannelDirection>
  {
    map k | k in SupportedTypes :: if k == t then SupportedTypes[k] else Down
  }

  /**
   * The map `sync(types)` sends, for the requested types in the order the
   * set yields them. Each outer pass resets every other supported type to
   * `Down`, so only the last type iterated keeps its direction.
   */
  function DirectionMap(types: seq<TransportType>): map<TransportType, ChannelDirection>
  {
    if |types| == 0 then map[] else DirectionsFor(types[|types| - 1])
  }

  /**
   * The nested loops of `sync` that fill `typeMap`: for each requested type,
   * put its declared direction when supported, then put `Down` for every
   * other supported type.
   */
  method BuildDirectionMap(types: seq<TransportType>) returns (typeMap: map<TransportType, ChannelDirection>)
    ensures typeMap == DirectionMap(types)
  {
    typeMap := map[];
    for i := 0 to |types|
      invariant i == 0 ==> typeMap == map[]
      invariant i > 0 ==> typeMap == DirectionsFor(types[i - 1])
    {
      var t := types[i];
      if t in SupportedTypes {
        typeMap := typeMap[t := SupportedTypes[t]];
      }
      for j := 0 to |SupportedOrder|
        invariant typeMap.Keys <= SupportedTypes.Keys
        invariant t in SupportedTypes ==> t in typeMap && typeMap[t] == SupportedTypes[t]
        invariant forall k :: k in SupportedOrder[..j] && k != t ==> k in typeMap && typeMap[k] == Down
      {
        var k := SupportedOrder[j];
        if k != t {
          typeMap := typeMap[k := Down];
        }
      }
      assert SupportedOrder[..|SupportedOrder|] == SupportedOrder;
      PassYieldsDirectionsFor(typeMap, t);
    }
  }

  /** After the inner loop has visited every supported type, the map is `DirectionsFor(t)`. */
  lemma PassYieldsDirectionsFor(m: map<TransportType, ChannelDirection>, t: TransportType)
    requires m.Keys <= SupportedTypes.Keys
    requires t in SupportedTypes ==> t in m && m[t] == SupportedTypes[t]
    requires forall k :: k in SupportedOrder && k != t ==> k in m && m[k] == Down
    ensures m == DirectionsFor(t)
  {
    SupportedOrderEnumeratesTable();
    assert m.Keys == DirectionsFor(t).Keys;
  }

  /**
   * `sync({t})` for a supported `t`: the keys are exactly the supported
   * types, `t` keeps its declared direction and every other type is `Down`;
   * for an unsupported `t` every supported type is `Down`.
   */
  lemma SingleTypeDirections(t: TransportType)
    ensures DirectionMap([t]).Keys == SupportedTypes.Keys
    ensures t in SupportedTypes ==> DirectionMap([t])[t] == SupportedTypes[t]
    ensures forall k :: k in SupportedTypes && k != t ==> DirectionMap([t])[k] == Down
    ensures t !in SupportedTypes ==> forall k :: k in SupportedTypes ==> DirectionMap([t])[k] == Down
  {
  }

  /**
   * With several requested types only the last one iterated keeps its
   * direction: the map covers every supported type and every other
   * requested type is sent `Down`.
   */
  lemma LastRequestedTypeWins(types: seq<TransportType>, i: nat)
    requires i < |types| - 1 && types[i] in SupportedTypes && types[i] != types[|types| - 1]
    ensures DirectionMap(types).Keys == SupportedTypes.Keys
    ensures DirectionMap(types)[types[i]] == Down
  {
  }
}
