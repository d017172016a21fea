/**
 chat.go: sending a message (default its time and id, save, then publish) and
 the choice of broadcast channel for a websocket client.
 */
module Chat {
  import opened Sdk
  import opened Decimal
  import opened Types
  import opened Json
  import opened Store
  import opened Database
  import opened PubSub

  /** The id given to a message sent without one: `msg_<time>_<userId>`. */
  function MessageId(time: int, userId: string): string {
    "msg_" + (IntToDecimal(time) + ("_" + userId))
  }

  /** Reads the time and the user back out of a synthesised id. */
  function ParseMessageId(id: string): Option<(int, string)> {
    var s1 :- Expect(id, "msg_");
    var time :- ParseInt(s1);
    var user :- Expect(time.rest, "_");
    Some((time.value, user))
  }

  /**
   The defaults sendMessage applies: a zero time becomes now, and an empty id
   is synthesised from the (already defaulted) time and the user. A time or an
   id the client did set is kept.
   */
  function WithDefaults(m: ChatMessage, now: int): (r: ChatMessage)
    ensures r.userId == m.userId && r.message == m.message
    ensures r.time == (if m.time == 0 then now else m.time)
    ensures r.id == (if m.id == "" then MessageId(r.time, m.userId) else m.id)
    ensures r.id != ""
  {
    var time := if m.time == 0 then now else m.time;
    var id := if m.id == "" then MessageId(time, m.userId) else m.id;
    m.(time := time, id := id)
  }

  /**
   getWebSocketURL's channel choice: no type asked for means "canvas"; "canvas"
   and "chat" are accepted as they are; anything else is refused (a 400).
   */
  function SelectChannel(requested: Option<string>): (r: Result<string>)
    ensures r.Ok? <==> requested.None? || requested.value == CanvasTopic || requested.value == ChatTopic
    ensures r.Ok? ==> r.value == (if requested.None? then CanvasTopic else requested.value)
    ensures r.Err? ==> r.error == InvalidChannelType
  {
    var channelType := if requested.None? then "canvas" else requested.value;
    if channelType == "canvas" then Ok("canvas")
    else if channelType == "chat" then Ok("chat")
    else Err(InvalidChannelType)
  }

  lemma MessageIdParses(time: int, userId: string)
    ensures ParseMessageId(MessageId(time, userId)) == Some((time, userId))
  {
    var tail := "_" + userId;
    ExpectLiteral("msg_", IntToDecimal(time) + tail);
    IntRoundTrip(time, tail);
    ExpectLiteral("_", userId);
  }

  /**
   Synthesised ids of two id-less messages coincide exactly when they have the
   same time and the same user: then the second save replaces the first (two
   messages from one user within one millisecond keep only the later one).
   */
  lemma SynthesisedIdCollision(store: Entries, m1: ChatMessage, now1: int, m2: ChatMessage, now2: int)
    requires m1.id == "" && m2.id == ""
    ensures var a, b := WithDefaults(m1, now1), WithDefaults(m2, now2);
            (a.id == b.id <==> a.time == b.time && m1.userId == m2.userId) &&
            (a.id == b.id ==> PutMessage(PutMessage(store, a), b) == PutMessage(store, b))
  {
    var a, b := WithDefaults(m1, now1), WithDefaults(m2, now2);
    MessageIdParses(a.time, m1.userId);
    MessageIdParses(b.time, m2.userId);
  }

  /**
   A message that already carries a time and an id goes through unchanged; so
   applying the defaults a second time changes nothing once the time is set.
   */
  lemma WithDefaultsIdempotent(m: ChatMessage, now: int, later: int)
    requires m.time != 0 || now != 0
    ensures m.time != 0 && m.id != "" ==> WithDefaults(m, later) == m
    ensures WithDefaults(WithDefaults(m, now), later) == WithDefaults(m, now)
  {
  }

  /**
   sendMessage, after the request body has been decoded into message: the
   defaulted message is saved, and only a successful save is published. A failed
   publish is reported but the saved message stays saved.
   */
  method SendMessage(node: Backend, bus: Broker, message: ChatMessage, now: int, env: Env)
    returns (r: Result<ChatMessage>)
    requires node.Valid()
    modifies node, bus
    ensures node.Valid() && node.GateStep(env)
    ensures var sent := WithDefaults(message, now);
            var saved := node.dbInit && env.putOk;
            var published := saved && env.channelOk && env.publishOk;
            && node.chat == (if saved then PutMessage(old(node.chat), sent) else old(node.chat))
            && node.canvas == old(node.canvas)
            && bus.log == (if published then old(bus.log) + [Publication(ChatTopic, EncodeMessage(sent))]
                           else old(bus.log))
            && r == (if !node.dbInit then Err(ConnectionFailed)
                     else if !env.putOk then Err(PutFailed)
                     else if !env.channelOk then Err(ChannelFailed)
                     else if !env.publishOk then Err(PublishFailed)
                     else Ok(sent))
    ensures r.Ok? ==> node.chat[r.value.id] == bus.log[|bus.log| - 1].payload
  {
    var m := message;
    if m.time == 0 {
      m := m.(time := now);
    }
    if m.id == "" {
      m := m.(id := MessageId(m.time, m.userId));
    }
    var st := node.SaveChatMessage(m, env);
    if st.Failure? {
      return Err(st.error);
    }
    st := PublishChatMessage(bus, m, env);
    if st.Failure? {
      return Err(st.error);
    }
    return Ok(m);
  }
}
