/** Message properties on the AMQP wire (`src/endpoints/amqp.rs`, `publish_properties` and
    `delivery_to_canonical_message`), and what survives a publish and a consume. The mapping is
    stated for any names of the native properties and source positions that do not clash;
    `AmqpKeysAreSeparate` covers the actual ones. */
module AmqpHeaders {
  import opened Messages

  /** Short strings hold 255 bytes (section 4.2.5.3 of AMQP 0-9-1). */
  const MAX_SHORT_STRING: nat := 255

  /** The metadata names with a meaning of their own: two native properties, the wire id and the three
      source positions. */
  datatype Keys = Keys(
    replyTo: string, correlationId: string, messageId: string,
    routingKey: string, exchange: string, deliveryTag: string)

  const AMQP_KEYS := Keys("reply_to", "correlation_id", "amqp_message_id",
                          "mqb.src.amqp_routing_key", "mqb.src.amqp_exchange", "mqb.src.amqp_delivery_tag")

  /** Native names are distinct and no source positions; source positions are distinct and are. */
  predicate Separate(keys: Keys) {
    && keys.replyTo != keys.correlationId && keys.replyTo != keys.messageId && keys.correlationId != keys.messageId
    && !IsSourceMetadataKey(keys.replyTo) && !IsSourceMetadataKey(keys.correlationId) && !IsSourceMetadataKey(keys.messageId)
    && keys.routingKey != keys.exchange && keys.exchange != keys.deliveryTag && keys.routingKey != keys.deliveryTag
    && IsSourceMetadataKey(keys.routingKey) && IsSourceMetadataKey(keys.exchange) && IsSourceMetadataKey(keys.deliveryTag)
  }

  lemma AmqpKeysAreSeparate()
    ensures Separate(AMQP_KEYS)
  {
    var k := AMQP_KEYS;
    assert k.replyTo[0] == 'r' && k.correlationId[0] == 'c' && k.messageId[0] == 'a' && SOURCE_METADATA_PREFIX[0] == 'm';
    assert k.routingKey[13] == 'r' && k.exchange[13] == 'e' && k.deliveryTag[13] == 'd';
  }

  /** The value kinds a header may carry: two string kinds, the scalars (by their text form) and the
      ones the consumer skips. */
  datatype HeaderValue = LongString(text: string) | ShortString(text: string) | Scalar(text: string) | Unsupported

  datatype Properties = Properties(
    persistent: bool,
    replyTo: Option<string>,
    correlationId: Option<string>,
    messageId: Option<string>,
    headers: Option<map<string, HeaderValue>>)

  datatype Delivery = Delivery(data: seq<Byte>, properties: Properties, routingKey: string, exchange: string, tag: nat)

  function Utf8Width(c: char): (n: nat) {
    var code := c as int;
    if code < 0x80 then 1 else if code < 0x800 then 2 else if code < 0x10000 then 3 else 4
  }

  /** The length of a string in UTF-8 bytes. */
  function Utf8Len(s: string): (n: nat) {
    if s == "" then 0 else Utf8Width(s[0]) + Utf8Len(s[1..])
  }

  predicate FitsShort(s: string) {
    Utf8Len(s) <= MAX_SHORT_STRING
  }

  function Get(m: map<string, string>, key: string): (r: Option<string>) {
    if key in m then Some(m[key]) else None
  }

  // ---------------------------------------------------------------- publishing

  /** A native property: the metadata value, if there is one and it fits. */
  function Native(metadata: map<string, string>, key: string): (r: Option<string>) {
    if key in metadata && FitsShort(metadata[key]) then Some(metadata[key]) else None
  }

  /** The metadata keys that travel as headers. */
  predicate IsHeader(keys: Keys, key: string) {
    key != keys.replyTo && key != keys.correlationId && !IsSourceMetadataKey(key) && FitsShort(key)
  }

  function HeadersOf(keys: Keys, metadata: map<string, string>): (r: map<string, HeaderValue>) {
    map k | k in metadata && IsHeader(keys, k) :: LongString(metadata[k])
  }

  function PropertiesOf(keys: Keys, message: Message, noPersistence: bool, format: nat -> string): (p: Properties) {
    Properties(!noPersistence,
               Native(message.metadata, keys.replyTo),
               Native(message.metadata, keys.correlationId),
               Some(format(message.id)),
               if message.metadata == map[] then None else Some(HeadersOf(keys, message.metadata)))
  }

  method PublishProperties(keys: Keys, message: Message, noPersistence: bool, format: nat -> string) returns (p: Properties)
    ensures p == PropertiesOf(keys, message, noPersistence, format)
    ensures p.persistent == !noPersistence && p.messageId == Some(format(message.id))
    ensures p.headers.None? <==> message.metadata == map[]
    ensures p.replyTo.Some? ==> keys.replyTo in message.metadata && p.replyTo.value == message.metadata[keys.replyTo]
    ensures p.correlationId.Some? ==> keys.correlationId in message.metadata && p.correlationId.value == message.metadata[keys.correlationId]
  {
    p := Properties(!noPersistence, None, None, None, None);
    var metadata := message.metadata;
    if keys.replyTo in metadata && FitsShort(metadata[keys.replyTo]) {
      p := p.(replyTo := Some(metadata[keys.replyTo]));
    }
    if keys.correlationId in metadata && FitsShort(metadata[keys.correlationId]) {
      p := p.(correlationId := Some(metadata[keys.correlationId]));
    }
    p := p.(messageId := Some(format(message.id)));
    if metadata != map[] {
      var table := HeaderTable(keys, metadata);
      p := p.(headers := Some(table));
    }
  }

  method HeaderTable(keys: Keys, metadata: map<string, string>) returns (table: map<string, HeaderValue>)
    ensures table == HeadersOf(keys, metadata)
    ensures forall k :: k in table ==> k in metadata && table[k] == LongString(metadata[k]) && !("mqb.src." <= k)
  {
    table := map[];
    var todo := metadata.Keys;
    while todo != {}
      invariant todo <= metadata.Keys
      invariant table == map k | k in metadata && k !in todo && IsHeader(keys, k) :: LongString(metadata[k])
      decreases todo
    {
      var key :| key in todo;
      todo := todo - {key};
      if key == keys.replyTo || key == keys.correlationId || IsSourceMetadataKey(key) {
        continue;
      }
      if FitsShort(key) {
        table := table[key := LongString(metadata[key])];
      }
    }
  }

  // ---------------------------------------------------------------- consuming

  function With(m: map<string, string>, key: string, value: Option<string>): (r: map<string, string>) {
    if value.Some? then m[key := value.value] else m
  }

  /** The delivery's own position, under the reserved source keys. */
  function SourcePosition(keys: Keys, d: Delivery, enabled: bool, showTag: nat -> string): (r: map<string, string>) {
    if enabled then map[keys.routingKey := d.routingKey, keys.exchange := d.exchange, keys.deliveryTag := showTag(d.tag)]
    else map[]
  }

  predicate Accepted(key: string, value: HeaderValue) {
    !IsSourceMetadataKey(key) && !value.Unsupported?
  }

  function AcceptedHeaders(headers: map<string, HeaderValue>): (r: map<string, string>) {
    map k | k in headers && Accepted(k, headers[k]) :: headers[k].text
  }

  function NativeMetadata(keys: Keys, p: Properties): (r: map<string, string>) {
    With(With(With(map[], keys.messageId, p.messageId), keys.correlationId, p.correlationId), keys.replyTo, p.replyTo)
  }

  function MessageOf(keys: Keys, d: Delivery, sourceMetadata: bool, parse: string -> Option<nat>, freshId: nat, showTag: nat -> string): (m: Message) {
    var parsed := if d.properties.messageId.Some? then parse(d.properties.messageId.value) else None;
    Message(if parsed.Some? then parsed.value else freshId,
            d.data,
            NativeMetadata(keys, d.properties)
            + SourcePosition(keys, d, sourceMetadata, showTag)
            + (if d.properties.headers.Some? then AcceptedHeaders(d.properties.headers.value) else map[]))
  }

  method DeliveryToMessage(keys: Keys, d: Delivery, sourceMetadata: bool, parse: string -> Option<nat>, freshId: nat, showTag: nat -> string)
    returns (m: Message)
    ensures m == MessageOf(keys, d, sourceMetadata, parse, freshId, showTag)
    ensures m.payload == d.data
    ensures m.id == if d.properties.messageId.Some? && parse(d.properties.messageId.value).Some? then parse(d.properties.messageId.value).value else freshId
    ensures sourceMetadata && Separate(keys) ==>
              && Get(m.metadata, keys.routingKey) == Some(d.routingKey)
              && Get(m.metadata, keys.exchange) == Some(d.exchange)
              && Get(m.metadata, keys.deliveryTag) == Some(showTag(d.tag))
  {
    var metadata: map<string, string> := map[];
    var id := freshId;
    var p := d.properties;
    if p.messageId.Some? {
      var parsed := parse(p.messageId.value);
      if parsed.Some? {
        id := parsed.value;
      }
      metadata := metadata[keys.messageId := p.messageId.value];
    }
    if p.correlationId.Some? {
      metadata := metadata[keys.correlationId := p.correlationId.value];
    }
    if p.replyTo.Some? {
      metadata := metadata[keys.replyTo := p.replyTo.value];
    }
    assert metadata == NativeMetadata(keys, p);
    if sourceMetadata {
      metadata := InsertPosition(keys, metadata, d, showTag);
    }
    assert metadata == NativeMetadata(keys, p) + SourcePosition(keys, d, sourceMetadata, showTag);
    if p.headers.Some? {
      metadata := InsertHeaders(metadata, p.headers.value);
    }
    m := Message(id, d.data, metadata);
  }

  method InsertPosition(keys: Keys, start: map<string, string>, d: Delivery, showTag: nat -> string) returns (metadata: map<string, string>)
    ensures metadata == start + SourcePosition(keys, d, true, showTag)
  {
    metadata := start[keys.routingKey := d.routingKey];
    metadata := metadata[keys.exchange := d.exchange];
    metadata := metadata[keys.deliveryTag := showTag(d.tag)];
  }

  method InsertHeaders(start: map<string, string>, headers: map<string, HeaderValue>) returns (metadata: map<string, string>)
    ensures metadata == start + AcceptedHeaders(headers)
    ensures forall k :: k in headers && !("mqb.src." <= k) && !headers[k].Unsupported? ==> Get(metadata, k) == Some(headers[k].text)
    ensures forall k :: k !in headers || "mqb.src." <= k || headers[k].Unsupported? ==> Get(metadata, k) == Get(start, k)
  {
    metadata := start;
    var todo := headers.Keys;
    while todo != {}
      invariant todo <= headers.Keys
      invariant metadata == start + map k | k in headers && k !in todo && Accepted(k, headers[k]) :: headers[k].text
      decreases todo
    {
      var key :| key in todo;
      todo := todo - {key};
      if IsSourceMetadataKey(key) || headers[key].Unsupported? {
        continue;
      }
      metadata := metadata[key := headers[key].text];
    }
  }

  // ---------------------------------------------------------------- publish, then consume

  /** The metadata pairs the wire can carry: no source positions, native properties with a short
      value, anything else with a short name. */
  predicate Survives(keys: Keys, key: string, value: string) {
    !IsSourceMetadataKey(key) && FitsShort(if key == keys.replyTo || key == keys.correlationId then value else key)
  }

  function Survivors(keys: Keys, metadata: map<string, string>): (r: map<string, string>) {
    map k | k in metadata && Survives(keys, k, metadata[k]) :: metadata[k]
  }

  function OnTheWire(keys: Keys, message: Message, noPersistence: bool, format: nat -> string,
                     routingKey: string, exchange: string, tag: nat): (d: Delivery)
  {
    Delivery(message.payload, PropertiesOf(keys, message, noPersistence, format), routingKey, exchange, tag)
  }

  lemma HeadersSurvive(keys: Keys, metadata: map<string, string>)
    ensures AcceptedHeaders(HeadersOf(keys, metadata)) == map k | k in metadata && IsHeader(keys, k) :: metadata[k]
  {
  }

  /** Native properties and headers together carry exactly the survivors. */
  lemma WireCarriesSurvivors(keys: Keys, metadata: map<string, string>, id: string, position: map<string, string>)
    requires Separate(keys) && forall k :: k in position ==> IsSourceMetadataKey(k)
    ensures With(With(map[keys.messageId := id], keys.correlationId, Native(metadata, keys.correlationId)),
                 keys.replyTo, Native(metadata, keys.replyTo))
            + position + AcceptedHeaders(HeadersOf(keys, metadata))
         == map[keys.messageId := id] + position + Survivors(keys, metadata)
  {
    HeadersSurvive(keys, metadata);
    var headers := map k | k in metadata && IsHeader(keys, k) :: metadata[k];
    var one := With(map[keys.messageId := id], keys.correlationId, Native(metadata, keys.correlationId));
    var native := With(one, keys.replyTo, Native(metadata, keys.replyTo));
    var survivors := Survivors(keys, metadata);
    forall k ensures Get(native + position + headers, k) == Get(map[keys.messageId := id] + position + survivors, k) {
      assert k in survivors ==> k !in position;
      assert k !in survivors ==> k !in headers && (k in native ==> k == keys.messageId);
    }
    SameEverywhere(native + position + headers, map[keys.messageId := id] + position + survivors);
  }

  lemma SameEverywhere(a: map<string, string>, b: map<string, string>)
    requires forall k :: Get(a, k) == Get(b, k)
    ensures a == b
  {
    assert forall k :: k in a <==> Get(a, k).Some?;
    assert forall k :: k in b <==> Get(b, k).Some?;
    assert forall k :: k in a && k in b ==> Get(a, k).value == a[k] && Get(b, k).value == b[k];
  }

  /** Exactly what comes back, for every message: the payload; the id if its text form parses back; and
      as metadata the surviving pairs unchanged, on top of the wire id and the enabled source position. */
  lemma RoundTrip(keys: Keys, message: Message, noPersistence: bool, routingKey: string, exchange: string, tag: nat, sourceMetadata: bool,
                  format: nat -> string, parse: string -> Option<nat>, freshId: nat, showTag: nat -> string)
    requires Separate(keys)
    ensures var d := OnTheWire(keys, message, noPersistence, format, routingKey, exchange, tag);
            var m := MessageOf(keys, d, sourceMetadata, parse, freshId, showTag);
            && m.payload == message.payload
            && (parse(format(message.id)) == Some(message.id) ==> m.id == message.id)
            && m.metadata == map[keys.messageId := format(message.id)] + SourcePosition(keys, d, sourceMetadata, showTag) + Survivors(keys, message.metadata)
  {
    var d := OnTheWire(keys, message, noPersistence, format, routingKey, exchange, tag);
    WireCarriesSurvivors(keys, message.metadata, format(message.id), SourcePosition(keys, d, sourceMetadata, showTag));
    assert message.metadata == map[] ==> AcceptedHeaders(HeadersOf(keys, message.metadata)) == map[];
  }

  /** A sender's pair comes back unchanged if it survives; a source position never comes from the
      sender; and nothing is added but the wire id and the enabled source position. */
  lemma RoundTripPerKey(keys: Keys, message: Message, noPersistence: bool, routingKey: string, exchange: string, tag: nat, sourceMetadata: bool,
                        format: nat -> string, parse: string -> Option<nat>, freshId: nat, showTag: nat -> string, key: string)
    requires Separate(keys)
    ensures var d := OnTheWire(keys, message, noPersistence, format, routingKey, exchange, tag);
            var metadata := MessageOf(keys, d, sourceMetadata, parse, freshId, showTag).metadata;
            var survives := key in message.metadata && Survives(keys, key, message.metadata[key]);
            && (survives ==> Get(metadata, key) == Some(message.metadata[key]))
            && (IsSourceMetadataKey(key) ==> Get(metadata, key) == Get(SourcePosition(keys, d, sourceMetadata, showTag), key))
            && (key in metadata && !survives ==> key == keys.messageId || key in SourcePosition(keys, d, sourceMetadata, showTag))
  {
    RoundTrip(keys, message, noPersistence, routingKey, exchange, tag, sourceMetadata, format, parse, freshId, showTag);
  }

  lemma {:induction false} AsciiLength(s: string)
    requires forall i :: 0 <= i < |s| ==> s[i] < '\U{80}'
    ensures Utf8Len(s) == |s|
  {
    if s != "" {
      AsciiLength(s[1..]);
    }
  }

  /** For every pair of ASCII text whose name is not reserved: a native property comes back exactly when
      its value has at most 255 characters, any other pair exactly when its name has, always unchanged. */
  lemma PlainPairsComeBack(keys: Keys, message: Message, noPersistence: bool, routingKey: string, exchange: string, tag: nat, sourceMetadata: bool,
                           format: nat -> string, parse: string -> Option<nat>, freshId: nat, showTag: nat -> string, key: string)
    requires Separate(keys) && key in message.metadata && !IsSourceMetadataKey(key) && key != keys.messageId
    requires forall i :: 0 <= i < |key| ==> key[i] < '\U{80}'
    requires forall i :: 0 <= i < |message.metadata[key]| ==> message.metadata[key][i] < '\U{80}'
    ensures var value := message.metadata[key];
            var metadata := MessageOf(keys, OnTheWire(keys, message, noPersistence, format, routingKey, exchange, tag),
                                      sourceMetadata, parse, freshId, showTag).metadata;
            Get(metadata, key) == if |if key == keys.replyTo || key == keys.correlationId then value else key| <= 255 then Some(value) else None
  {
    AsciiLength(key);
    AsciiLength(message.metadata[key]);
    RoundTripPerKey(keys, message, noPersistence, routingKey, exchange, tag, sourceMetadata, format, parse, freshId, showTag, key);
  }

  /** Longer characters take two, three or four bytes. */
  lemma WideCharacters()
    ensures Utf8Len("\U{7F}\U{80}\U{7FF}\U{800}\U{FFFF}\U{10000}") == 1 + 2 + 2 + 3 + 3 + 4
  {
    var s := "\U{7F}\U{80}\U{7FF}\U{800}\U{FFFF}\U{10000}";
    assert s[1..][1..] == s[2..] && s[2..][1..] == s[3..] && s[3..][1..] == s[4..] && s[4..][1..] == s[5..] && s[5..][1..] == "";
  }
}
