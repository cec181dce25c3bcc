/** The per-pod filter that decides which messages reach the pod's onFunc. */
module Filters {
  import opened Messages

  datatype Filter = Filter(
    uuids: map<string, bool>,
    uuidInclusive: bool,
    kinds: map<string, bool>,
    kindInclusive: bool)

  const OPEN := Filter(map[], true, map[], true)

  /** One map's answer: an entry decides; without one the map's inclusive rule does. */
  predicate Permits(entries: map<string, bool>, inclusive: bool, key: string) {
    if key in entries then entries[key] else inclusive
  }

  predicate Allows(f: Filter, msg: Message)
    requires msg.Message?
  {
    Permits(f.kinds, f.kindInclusive, msg.kind) && Permits(f.uuids, f.uuidInclusive, msg.uuid)
  }

  function WithUUID(f: Filter, uuid: string, allow: bool): Filter {
    f.(uuids := f.uuids[uuid := allow])
  }

  function WithKind(f: Filter, kind: string, allow: bool): Filter {
    f.(kinds := f.kinds[kind := allow])
  }

  /** A filter that lets only the given kind through. */
  function Only(f: Filter, kind: string): Filter {
    WithKind(f, kind, true).(kindInclusive := false)
  }

  class MessageFilter {
    var uuidMap: map<string, bool>
    var uuidInclusive: bool
    var typeMap: map<string, bool>
    var typeInclusive: bool

    function Value(): Filter reads this {
      Filter(uuidMap, uuidInclusive, typeMap, typeInclusive)
    }

    constructor ()
      ensures Value() == OPEN
    {
      uuidMap, uuidInclusive, typeMap, typeInclusive := map[], true, map[], true;
    }

    method Allow(msg: Message) returns (ok: bool)
      requires msg.Message?
      ensures ok <==> Allows(Value(), msg)
      ensures ok <==>
        && (if msg.kind in typeMap then typeMap[msg.kind] else typeInclusive)
        && (if msg.uuid in uuidMap then uuidMap[msg.uuid] else uuidInclusive)
    {
      var allowType, typeExists := msg.kind in typeMap && typeMap[msg.kind], msg.kind in typeMap;
      if typeExists && !allowType {
        return false;
      } else if !typeExists && !typeInclusive {
        return false;
      }
      var allowUUID, uuidExists := msg.uuid in uuidMap && uuidMap[msg.uuid], msg.uuid in uuidMap;
      if uuidExists && !allowUUID {
        return false;
      } else if !uuidExists && !uuidInclusive {
        return false;
      }
      return true;
    }

    method FilterUUID(uuid: string, allow: bool)
      modifies this`uuidMap
      ensures Value() == WithUUID(old(Value()), uuid, allow)
      ensures forall m: Message :: m.Message? ==>
        (Allows(Value(), m) <==> if m.uuid == uuid then allow && Permits(typeMap, typeInclusive, m.kind) else Allows(old(Value()), m))
    {
      uuidMap := uuidMap[uuid := allow];
    }

    method FilterType(msgType: string, allow: bool)
      modifies this`typeMap
      ensures Value() == WithKind(old(Value()), msgType, allow)
      ensures forall m: Message :: m.Message? ==>
        (Allows(Value(), m) <==> if m.kind == msgType then allow && Permits(uuidMap, uuidInclusive, m.uuid) else Allows(old(Value()), m))
    {
      typeMap := typeMap[msgType := allow];
    }
  }
}
