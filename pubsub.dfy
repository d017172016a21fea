/**
 pubsub.go: the outbound publishers, which broadcast a record on its topic in
 the same JSON text the store keeps, and the inbound handlers, which decode a
 received broadcast and save it without broadcasting anything.
 */
module PubSub {
  import opened Sdk
  import opened Types
  import opened Json
  import opened Store
  import opened Database

  const CanvasTopic: string := "canvas"
  const ChatTopic: string := "chat"

  /** One message put on a topic. */
  datatype Publication = Publication(topic: string, payload: Payload)

  /** The broadcast channels as this node sees them: everything it has published. */
  class Broker {
    var log: seq<Publication>

    constructor ()
      ensures log == []
    {
      log := [];
    }
  }

  /**
   publishPixelUpdate: on success exactly one publication, the pixel's JSON text
   on "canvas"; on a channel or publish failure, none.
   */
  method PublishPixelUpdate(bus: Broker, pixel: Pixel, env: Env) returns (st: Status)
    modifies bus
    ensures st == (if !env.channelOk then Failure(ChannelFailed)
                   else if !env.publishOk then Failure(PublishFailed) else Success)
    ensures bus.log == (if st.Success? then old(bus.log) + [Publication(CanvasTopic, EncodePixel(pixel))]
                        else old(bus.log))
  {
    if !env.channelOk {
      return Failure(ChannelFailed);
    }
    var pixelData := EncodePixel(pixel);
    if !env.publishOk {
      return Failure(PublishFailed);
    }
    bus.log := bus.log + [Publication(CanvasTopic, pixelData)];
    return Success;
  }

  /**
   publishChatMessage: on success exactly one publication, the message's JSON
   text on "chat"; on a channel or publish failure, none.
   */
  method PublishChatMessage(bus: Broker, message: ChatMessage, env: Env) returns (st: Status)
    modifies bus
    ensures st == (if !env.channelOk then Failure(ChannelFailed)
                   else if !env.publishOk then Failure(PublishFailed) else Success)
    ensures bus.log == (if st.Success? then old(bus.log) + [Publication(ChatTopic, EncodeMessage(message))]
                        else old(bus.log))
  {
    if !env.channelOk {
      return Failure(ChannelFailed);
    }
    var messageData := EncodeMessage(message);
    if !env.publishOk {
      return Failure(PublishFailed);
    }
    bus.log := bus.log + [Publication(ChatTopic, messageData)];
    return Success;
  }

  /**
   handleCanvasEvent: data is the received payload, or None when the event or
   its data could not be read. A payload that decodes is saved through
   savePixel; nothing is ever published (no echo).
   */
  method HandleCanvasEvent(node: Backend, bus: Broker, data: Option<Payload>, env: Env) returns (code: nat)
    requires node.Valid()
    modifies node
    ensures node.Valid()
    ensures bus.log == old(bus.log)
    ensures data.None? || DecodePixel(data.value).None? ==> code == 1 && unchanged(node)
    ensures data.Some? && DecodePixel(data.value).Some? ==>
              && node.GateStep(env)
              && code == (if node.dbInit && env.putOk then 0 else 1)
              && node.canvas == (if code == 0 then PutPixel(old(node.canvas), DecodePixel(data.value).value)
                                 else old(node.canvas))
              && node.chat == old(node.chat)
  {
    if data.None? {
      return 1;
    }
    var pixel := DecodePixel(data.value);
    if pixel.None? {
      return 1;
    }
    var st := node.SavePixel(pixel.value, env);
    if st.Failure? {
      return 1;
    }
    return 0;
  }

  /**
   handleChatEvent: a payload that decodes is saved through saveChatMessage;
   nothing is ever published (no echo).
   */
  method HandleChatEvent(node: Backend, bus: Broker, data: Option<Payload>, env: Env) returns (code: nat)
    requires node.Valid()
    modifies node
    ensures node.Valid()
    ensures bus.log == old(bus.log)
    ensures data.None? || DecodeMessage(data.value).None? ==> code == 1 && unchanged(node)
    ensures data.Some? && DecodeMessage(data.value).Some? ==>
              && node.GateStep(env)
              && code == (if node.dbInit && env.putOk then 0 else 1)
              && node.chat == (if code == 0 then PutMessage(old(node.chat), DecodeMessage(data.value).value)
                               else old(node.chat))
              && node.canvas == old(node.canvas)
  {
    if data.None? {
      return 1;
    }
    var message := DecodeMessage(data.value);
    if message.None? {
      return 1;
    }
    var st := node.SaveChatMessage(message.value, env);
    if st.Failure? {
      return 1;
    }
    return 0;
  }

  /**
   A pixel broadcast by one node and received by another is stored there
   exactly as the sender stored it: the same key, the same text. A later lookup
   of its coordinate at the receiver finds the pixel. With HandleCanvasEvent
   (the canvas becomes PutPixel of the decoded payload, nothing is published)
   and GetPixelFromDatabase (the result is LookupPixel of the canvas), a replayed
   broadcast is served back as sent.
   */
  lemma BroadcastReplicates(p: Pixel, peer: Entries, unreadable: set<string>)
    ensures DecodePixel(Publication(CanvasTopic, EncodePixel(p)).payload) == Some(p)
    ensures PutPixel(peer, DecodePixel(EncodePixel(p)).value)[PixelKey(p.x, p.y)] == EncodePixel(p)
    ensures PixelKey(p.x, p.y) !in unreadable ==>
              LookupPixel(PutPixel(peer, DecodePixel(EncodePixel(p)).value), p.x, p.y, unreadable) == Ok(Some(p))
  {
    PixelRoundTrip(p);
    if PixelKey(p.x, p.y) !in unreadable {
      LookupAfterPut(peer, p, unreadable);
    }
  }

  /**
   The same for a chat message: the receiver stores the sender's text under the
   message's id, and listing that id there yields the message.
   */
  lemma ChatBroadcastReplicates(m: ChatMessage, peer: Entries, unreadable: set<string>)
    ensures DecodeMessage(Publication(ChatTopic, EncodeMessage(m)).payload) == Some(m)
    ensures PutMessage(peer, DecodeMessage(EncodeMessage(m)).value)[m.id] == EncodeMessage(m)
    ensures m.id !in unreadable ==>
              Collect(PutMessage(peer, DecodeMessage(EncodeMessage(m)).value), [m.id], unreadable, DecodeMessage) == [m]
  {
    MessageRoundTrip(m);
    CollectSingle(PutMessage(peer, m), m.id, unreadable, DecodeMessage);
  }
}
