/**
 * The handler registered for the channel event "change"
 * (Drift/Managers/SocketManager.swift, lines 44-61): it destructures
 * `payload.body.object.type` and `payload.body.data`, and maps `data` to a
 * message when the type is "MESSAGE". The ObjectMapper call is the
 * parameter `mapMessage`, an arbitrary partial function.
 */
module ChangeEvent {
  import opened Wrappers
  import opened Json

  /** What one "change" event leads to: a message to post, a logged ignore, or a silent drop. */
  datatype Outcome<M> = NewMessage(message: M) | Ignored | Dropped

  const MessageType: string := "MESSAGE"

  /**
   * The chain of conditional bindings at line 46: `body`, `object` and
   * `data` must be dictionaries and `object.type` a string.
   */
  function Destructure(payload: map<string, J>): (r: Option<(string, map<string, J>)>)
    ensures r.Some? <==> Shaped(payload)
    ensures r.Some? ==> r.value == (TypeOf(payload), DataOf(payload))
  {
    match ObjectAt(payload, "body")
    case None => None
    case Some(body) =>
      match (ObjectAt(body, "object"), ObjectAt(body, "data"))
      case (Some(obj), Some(data)) =>
        (match StringAt(obj, "type")
         case Some(t) => Some((t, data))
         case None => None)
      case _ => None
  }

  /** The handler's decision for one payload (lines 46-60). */
  function Decode<M>(payload: map<string, J>, mapMessage: map<string, J> -> Option<M>): (r: Outcome<M>)
    ensures r.Ignored? <==> !Shaped(payload) || TypeOf(payload) != MessageType
    ensures r.NewMessage? <==> CarriesMessage(payload, mapMessage)
    ensures r.NewMessage? ==> r.message == CarriedMessage(payload, mapMessage)
  {
    match Destructure(payload)
    case None => Ignored
    case Some((t, data)) =>
      if t == MessageType then
        match mapMessage(data)
        case Some(m) => NewMessage(m)
        case None => Dropped
      else Ignored
  }

  /** The payload shape the backend sends: `{"body": {"object": {"type": t}, "data": data}}`. */
  function ChangePayload(t: string, data: map<string, J>): map<string, J>
  {
    map["body" := JObj(map["object" := JObj(map["type" := JStr(t)]), "data" := JObj(data)])]
  }

  /** The payload holds a `body` dictionary with an `object` dictionary carrying a string `type`, and a `data` dictionary. */
  ghost predicate Shaped(p: map<string, J>)
  {
    && "body" in p && p["body"].JObj?
    && "object" in p["body"].fields && p["body"].fields["object"].JObj?
    && "data" in p["body"].fields && p["body"].fields["data"].JObj?
    && "type" in p["body"].fields["object"].fields
    && p["body"].fields["object"].fields["type"].JStr?
  }

  ghost function TypeOf(p: map<string, J>): string
    requires Shaped(p)
  {
    p["body"].fields["object"].fields["type"].str
  }

  ghost function DataOf(p: map<string, J>): map<string, J>
    requires Shaped(p)
  {
    p["body"].fields["data"].fields
  }

  /** A well-formed "MESSAGE" payload whose data maps to a message. */
  ghost predicate CarriesMessage<M>(p: map<string, J>, mapMessage: map<string, J> -> Option<M>)
  {
    Shaped(p) && TypeOf(p) == MessageType && mapMessage(DataOf(p)).Some?
  }

  ghost function CarriedMessage<M>(p: map<string, J>, mapMessage: map<string, J> -> Option<M>): M
    requires CarriesMessage(p, mapMessage)
  {
    mapMessage(DataOf(p)).value
  }

  /** A payload without the nested dictionaries or without a string `type` is ignored. */
  lemma MalformedIsIgnored<M>(p: map<string, J>, mapMessage: map<string, J> -> Option<M>)
    requires !Shaped(p)
    ensures Decode(p, mapMessage) == Ignored
  {
  }

  /** A shaped payload decodes exactly as the canonical payload of its type and data: no other key matters. */
  lemma OnlyTypeAndDataMatter<M>(p: map<string, J>, mapMessage: map<string, J> -> Option<M>)
    requires Shaped(p)
    ensures Shaped(ChangePayload(TypeOf(p), DataOf(p)))
    ensures Decode(p, mapMessage) == Decode(ChangePayload(TypeOf(p), DataOf(p)), mapMessage)
  {
  }

  /** A well-formed payload of any type other than "MESSAGE" is ignored, whatever its data. */
  lemma OtherTypeIsIgnored<M>(p: map<string, J>, mapMessage: map<string, J> -> Option<M>)
    requires Shaped(p) && TypeOf(p) != MessageType
    ensures Decode(p, mapMessage) == Ignored
  {
  }

  /** A well-formed "MESSAGE" payload yields the message its data maps to, or a silent drop when it does not map. */
  lemma MessageIsMapped<M>(p: map<string, J>, mapMessage: map<string, J> -> Option<M>)
    requires Shaped(p) && TypeOf(p) == MessageType
    ensures mapMessage(DataOf(p)).Some? ==> Decode(p, mapMessage) == NewMessage(mapMessage(DataOf(p)).value)
    ensures mapMessage(DataOf(p)).None? ==> Decode(p, mapMessage) == Dropped
  {
  }

  /** The payload the backend sends is well-formed, with the type and data it was built from. */
  lemma ChangePayloadIsShaped(t: string, data: map<string, J>)
    ensures Shaped(ChangePayload(t, data))
    ensures TypeOf(ChangePayload(t, data)) == t && DataOf(ChangePayload(t, data)) == data
  {
  }

  /** Only a shaped "MESSAGE" payload is not ignored, and a message comes only from mapping its data. */
  lemma NotIgnoredIsMessage<M>(p: map<string, J>, mapMessage: map<string, J> -> Option<M>)
    requires !Decode(p, mapMessage).Ignored?
    ensures Shaped(p) && TypeOf(p) == MessageType
    ensures Decode(p, mapMessage).NewMessage? <==> mapMessage(DataOf(p)).Some?
    ensures Decode(p, mapMessage).NewMessage? ==> Decode(p, mapMessage).message == mapMessage(DataOf(p)).value
  {
  }

  /** Keys beside `body` at the top level never change the outcome. */
  lemma ExtraKeysDoNotMatter<M>(p: map<string, J>, k: string, v: J, mapMessage: map<string, J> -> Option<M>)
    requires k != "body"
    ensures Decode(p[k := v], mapMessage) == Decode(p, mapMessage)
  {
  }
}
