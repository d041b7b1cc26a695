/**
 * Parsing of one element of `channels.json` (src/lib/channel.ts).
 */
module Channels {
  import opened Json

  /** Purpose or topic of a channel; the three fields are copied as they are (`as string`). */
  datatype HeaderMessage = HeaderMessage(value: string, creator: string, lastSet: string)

  /** `pinType` is the source's `type`. */
  datatype Pin = Pin(id: string, pinType: string, created: int, user: string, owner: string)

  datatype Channel = Channel(
    id: string,
    name: string,
    created: string,
    creator: string,
    isArchived: bool,
    isGeneral: bool,
    members: seq<string>,
    purpose: HeaderMessage,
    topic: HeaderMessage,
    pins: seq<Pin>)

  // ---------------------------------------------------------------------------
  // Header messages

  /** An object whose three fields are strings: the casts do not convert anything. */
  predicate HeaderMessageShaped(obj: Json) {
    && !Nullish(obj)
    && Get(obj, "value").JString?
    && Get(obj, "creator").JString?
    && Get(obj, "last_set").JString?
  }

  /** parseHeaderMessage: a verbatim copy of `value`, `creator` and `last_set`. */
  function ParseHeaderMessage(obj: Json): (h: HeaderMessage)
    requires HeaderMessageShaped(obj)
    ensures JString(h.value) == Get(obj, "value")
    ensures JString(h.creator) == Get(obj, "creator")
    ensures JString(h.lastSet) == Get(obj, "last_set")
  {
    HeaderMessage(Get(obj, "value").s, Get(obj, "creator").s, Get(obj, "last_set").s)
  }

  // ---------------------------------------------------------------------------
  // Pins

  predicate PinShaped(v: Json) {
    && !Nullish(v)
    && StringOrFalsy(Get(v, "id"))
    && StringOrFalsy(Get(v, "type"))
    && NumberOrFalsy(Get(v, "created"))
    && StringOrFalsy(Get(v, "user"))
    && StringOrFalsy(Get(v, "owner"))
  }

  /** The object pushed for one element of the pins array. */
  function ToPin(v: Json): (p: Pin)
    requires PinShaped(v)
    ensures JString(p.id) == Or(Get(v, "id"), JString(""))
    ensures JString(p.pinType) == Or(Get(v, "type"), JString(""))
    ensures JNumber(p.created) == Or(Get(v, "created"), JNumber(0))
    ensures JString(p.user) == Or(Get(v, "user"), JString(""))
    ensures JString(p.owner) == Or(Get(v, "owner"), JString(""))
  {
    Pin(OrEmpty(Get(v, "id")), OrEmpty(Get(v, "type")), OrZero(Get(v, "created")),
        OrEmpty(Get(v, "user")), OrEmpty(Get(v, "owner")))
  }

  predicate PinsShaped(obj: Json) {
    obj.JArray? ==> forall i | 0 <= i < |obj.items| :: PinShaped(obj.items[i])
  }

  /** What parsePins returns. */
  function Pins(obj: Json): seq<Pin>
    requires PinsShaped(obj)
  {
    if obj.JArray? then seq(|obj.items|, i requires 0 <= i < |obj.items| => ToPin(obj.items[i])) else []
  }

  /** parsePins: `[]` for a non-array, else one pin per element in order. */
  method ParsePins(obj: Json) returns (pins: seq<Pin>)
    requires PinsShaped(obj)
    ensures !obj.JArray? ==> pins == []
    ensures obj.JArray? ==> |pins| == |obj.items|
    ensures obj.JArray? ==> forall i | 0 <= i < |obj.items| :: pins[i] == ToPin(obj.items[i])
    ensures pins == Pins(obj)
  {
    pins := [];
    if !obj.JArray? {
      return;
    }
    for i := 0 to |obj.items|
      invariant |pins| == i
      invariant forall k | 0 <= k < i :: pins[k] == ToPin(obj.items[k])
    {
      pins := pins + [ToPin(obj.items[i])];
    }
  }

  // ---------------------------------------------------------------------------
  // Channel

  /**
   * An element of `channels.json` as the declarations describe it: `||` fields of
   * their type or falsy, purpose and topic header messages, pins an array of pins
   * when it is truthy.
   */
  predicate ChannelShaped(obj: Json) {
    && !Nullish(obj)
    && StringOrFalsy(Get(obj, "id"))
    && StringOrFalsy(Get(obj, "name"))
    && StringOrFalsy(Get(obj, "created"))
    && StringOrFalsy(Get(obj, "creator"))
    && BoolOrFalsy(Get(obj, "is_archived"))
    && BoolOrFalsy(Get(obj, "is_general"))
    && StringsOrFalsy(Get(obj, "members"))
    && HeaderMessageShaped(Get(obj, "purpose"))
    && HeaderMessageShaped(Get(obj, "topic"))
    && (Truthy(Get(obj, "pins")) ==> PinsShaped(Get(obj, "pins")))
  }

  /** parseChannel */
  function ParseChannel(obj: Json): (c: Channel)
    requires ChannelShaped(obj)
    ensures JString(c.id) == Or(Get(obj, "id"), JString(""))
    ensures JString(c.name) == Or(Get(obj, "name"), JString(""))
    ensures JString(c.created) == Or(Get(obj, "created"), JString(""))
    ensures JString(c.creator) == Or(Get(obj, "creator"), JString(""))
    ensures JBool(c.isArchived) == Or(Get(obj, "is_archived"), JBool(false))
    ensures JBool(c.isGeneral) == Or(Get(obj, "is_general"), JBool(false))
    ensures Strings(c.members) == Or(Get(obj, "members"), JArray([]))
    ensures c.purpose == ParseHeaderMessage(Get(obj, "purpose"))
    ensures c.topic == ParseHeaderMessage(Get(obj, "topic"))
    ensures Truthy(Get(obj, "pins")) ==> c.pins == Pins(Get(obj, "pins"))
    ensures !Truthy(Get(obj, "pins")) ==> c.pins == []
  {
    var pins := Get(obj, "pins");
    Channel(
      OrEmpty(Get(obj, "id")),
      OrEmpty(Get(obj, "name")),
      OrEmpty(Get(obj, "created")),
      OrEmpty(Get(obj, "creator")),
      OrFalse(Get(obj, "is_archived")),
      OrFalse(Get(obj, "is_general")),
      OrNoStrings(Get(obj, "members")),
      ParseHeaderMessage(Get(obj, "purpose")),
      ParseHeaderMessage(Get(obj, "topic")),
      if Truthy(pins) then Pins(pins) else [])
  }

  /**
   * The truthiness test on `pins` changes nothing: a falsy value is not an
   * array, and parsePins already gives `[]` for it.
   */
  lemma PinsGuardRedundant(obj: Json)
    requires ChannelShaped(obj)
    ensures PinsShaped(Get(obj, "pins")) && ParseChannel(obj).pins == Pins(Get(obj, "pins"))
  {
  }

  // ---------------------------------------------------------------------------
  // Encoding: the records of the export that parse back to a given channel

  function PinToJson(p: Pin): Json {
    JObject(map[
      "id" := JString(p.id), "type" := JString(p.pinType), "created" := JNumber(p.created),
      "user" := JString(p.user), "owner" := JString(p.owner)])
  }

  function PinsToJson(ps: seq<Pin>): Json {
    JArray(seq(|ps|, i requires 0 <= i < |ps| => PinToJson(ps[i])))
  }

  function HeaderMessageToJson(h: HeaderMessage): Json {
    JObject(map["value" := JString(h.value), "creator" := JString(h.creator), "last_set" := JString(h.lastSet)])
  }

  lemma PinRoundTrip(p: Pin)
    ensures PinShaped(PinToJson(p)) && ToPin(PinToJson(p)) == p
  {
    OrRoundTrips(p.id, p.created, false, []);
  }

  lemma PinsRoundTrip(ps: seq<Pin>)
    ensures PinsShaped(PinsToJson(ps)) && Pins(PinsToJson(ps)) == ps
  {
    forall i | 0 <= i < |ps| ensures PinShaped(PinToJson(ps[i])) && ToPin(PinToJson(ps[i])) == ps[i] {
      PinRoundTrip(ps[i]);
    }
  }

  lemma HeaderMessageRoundTrip(h: HeaderMessage)
    ensures HeaderMessageShaped(HeaderMessageToJson(h)) && ParseHeaderMessage(HeaderMessageToJson(h)) == h
  {
  }

  /** `j` holds every field of the channel `c` under its key (whatever other keys it has). */
  predicate Encodes(j: Json, c: Channel) {
    && !Nullish(j)
    && Get(j, "id") == JString(c.id)
    && Get(j, "name") == JString(c.name)
    && Get(j, "created") == JString(c.created)
    && Get(j, "creator") == JString(c.creator)
    && Get(j, "is_archived") == JBool(c.isArchived)
    && Get(j, "is_general") == JBool(c.isGeneral)
    && Get(j, "members") == Strings(c.members)
    && Get(j, "purpose") == HeaderMessageToJson(c.purpose)
    && Get(j, "topic") == HeaderMessageToJson(c.topic)
    && Get(j, "pins") == PinsToJson(c.pins)
  }

  /** Round trip: any record that encodes the fields of `c` parses to `c`. */
  lemma ParseEncoded(j: Json, c: Channel)
    requires Encodes(j, c)
    ensures ChannelShaped(j) && ParseChannel(j) == c
  {
    OrRoundTrips(c.id, 0, c.isArchived, c.members);
    OrRoundTrips(c.name, 0, c.isGeneral, []);
    HeaderMessageRoundTrip(c.purpose);
    HeaderMessageRoundTrip(c.topic);
    PinsRoundTrip(c.pins);
  }
}
