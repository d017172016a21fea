/**
 The package state of database.go: the two namespace connections and the
 initialisation flag, together with the durable contents of the two namespaces
 they connect to. The operations are the once-only initialisation gate, the
 writes of a pixel and of a message, the lookup of one pixel and the listing of
 all chat messages.
 */
module Database {
  import opened Sdk
  import opened Types
  import opened Json
  import opened Store

  /** The order in which an uninitialised gate calls database.New. */
  function Attempts(env: Env): seq<string> {
    if env.canvasNew then [CanvasPath, ChatPath] else [CanvasPath]
  }

  class Backend {
    var canvasDB: Option<Handle>
    var chatDB: Option<Handle>
    var dbInit: bool
    /** Every path passed to database.New so far, in order. */
    ghost var connects: seq<string>
    /** The contents of the namespace "/canvas". */
    var canvas: Entries
    /** The contents of the namespace "/chat". */
    var chat: Entries

    /** A handle only ever names its own namespace; the flag means both are open. */
    ghost predicate Valid()
      reads this
    {
      && (canvasDB.Some? ==> canvasDB.value == Handle(CanvasPath))
      && (chatDB.Some? ==> chatDB.value == Handle(ChatPath))
      && (dbInit ==> canvasDB.Some? && chatDB.Some?)
    }

    /** A fresh process over namespaces that already hold canvas and chat. */
    constructor (canvas: Entries, chat: Entries)
      ensures Valid()
      ensures canvasDB == None && chatDB == None && !dbInit && connects == []
      ensures this.canvas == canvas && this.chat == chat
    {
      canvasDB, chatDB, dbInit := None, None, false;
      connects := [];
      this.canvas, this.chat := canvas, chat;
    }

    /**
     What one pass through the gate does to the connection state. Once
     initialised it touches nothing. Otherwise it connects "/canvas" and, only if
     that succeeds, "/chat"; the flag is set only when both succeed, and a failed
     pass leaves it unset so that the next pass tries again.
     */
    twostate predicate GateStep(env: Env)
      reads this
    {
      if old(dbInit) then
        dbInit && canvasDB == old(canvasDB) && chatDB == old(chatDB) && connects == old(connects)
      else
        && connects == old(connects) + Attempts(env)
        && canvasDB == (if env.canvasNew then Some(Handle(CanvasPath)) else None)
        && chatDB == (if !env.canvasNew then old(chatDB)
                      else if env.chatNew then Some(Handle(ChatPath)) else None)
        && dbInit == (env.canvasNew && env.chatNew)
    }

    /** The contents of the namespace a handle connects to. */
    function Namespace(db: Handle): Entries
      reads this
    {
      if db.path == CanvasPath then canvas else if db.path == ChatPath then chat else map[]
    }

    /** Database.Get on a handle. */
    function Get(db: Handle, key: string, env: Env): Option<Payload>
      reads this
    {
      Fetch(Namespace(db), key, env.unreadable)
    }

    /** Database.Put on a handle: only the namespace of the handle changes. */
    method Put(db: Handle, key: string, data: Payload, env: Env) returns (st: Status)
      requires db.path == CanvasPath || db.path == ChatPath
      modifies this`canvas, this`chat
      ensures st == (if env.putOk then Success else Failure(PutFailed))
      ensures canvas == (if st.Success? && db.path == CanvasPath then old(canvas)[key := data] else old(canvas))
      ensures chat == (if st.Success? && db.path == ChatPath then old(chat)[key := data] else old(chat))
    {
      if !env.putOk {
        return Failure(PutFailed);
      }
      if db.path == CanvasPath {
        canvas := canvas[key := data];
      } else {
        chat := chat[key := data];
      }
      return Success;
    }

    /** initDatabases: 0 when the gate is open afterwards, 1 otherwise. */
    method InitDatabases(env: Env) returns (code: nat)
      requires Valid()
      modifies this`canvasDB, this`chatDB, this`dbInit, this`connects
      ensures Valid() && GateStep(env)
      ensures code == (if dbInit then 0 else 1)
    {
      if dbInit {
        return 0;
      }
      connects := connects + [CanvasPath];
      if !env.canvasNew {
        canvasDB := None;
        return 1;
      }
      canvasDB := Some(Handle(CanvasPath));
      connects := connects + [ChatPath];
      if !env.chatNew {
        chatDB := None;
        return 1;
      }
      chatDB := Some(Handle(ChatPath));
      dbInit := true;
      return 0;
    }

    /** getCanvasDB: the canvas handle, passing through the gate when it is closed. */
    method GetCanvasDB(env: Env) returns (db: Option<Handle>, code: nat)
      requires Valid()
      modifies this`canvasDB, this`chatDB, this`dbInit, this`connects
      ensures Valid() && GateStep(env)
      ensures code == (if dbInit then 0 else 1)
      ensures db == (if dbInit then Some(Handle(CanvasPath)) else None)
    {
      if !dbInit {
        var c := InitDatabases(env);
        if c != 0 {
          return None, 1;
        }
      }
      return canvasDB, 0;
    }

    /** getChatDB: the chat handle, passing through the gate when it is closed. */
    method GetChatDB(env: Env) returns (db: Option<Handle>, code: nat)
      requires Valid()
      modifies this`canvasDB, this`chatDB, this`dbInit, this`connects
      ensures Valid() && GateStep(env)
      ensures code == (if dbInit then 0 else 1)
      ensures db == (if dbInit then Some(Handle(ChatPath)) else None)
    {
      if !dbInit {
        var c := InitDatabases(env);
        if c != 0 {
          return None, 1;
        }
      }
      return chatDB, 0;
    }

    /**
     savePixel: on success the coordinate key holds the pixel's text, replacing
     whatever was there; no other canvas key and nothing in chat changes.
     */
    method SavePixel(pixel: Pixel, env: Env) returns (st: Status)
      requires Valid()
      modifies this
      ensures Valid() && GateStep(env)
      ensures st == (if !dbInit then Failure(ConnectionFailed)
                     else if !env.putOk then Failure(PutFailed) else Success)
      ensures canvas == (if st.Success? then PutPixel(old(canvas), pixel) else old(canvas))
      ensures chat == old(chat)
    {
      var db, dbErr := GetCanvasDB(env);
      if dbErr != 0 {
        return Failure(ConnectionFailed);
      }
      var key := PixelKey(pixel.x, pixel.y);
      var pixelData := EncodePixel(pixel);
      st := Put(db.value, key, pixelData, env);
    }

    /**
     getPixelFromDatabase: a connection failure is an error; after that, the
     result is LookupPixel of the canvas (a failed Get is "no pixel").
     */
    method GetPixelFromDatabase(x: int, y: int, env: Env) returns (r: Result<Option<Pixel>>)
      requires Valid()
      modifies this`canvasDB, this`chatDB, this`dbInit, this`connects
      ensures Valid() && GateStep(env)
      ensures r == (if !dbInit then Err(ConnectionFailed) else LookupPixel(canvas, x, y, env.unreadable))
    {
      var db, dbErr := GetCanvasDB(env);
      if dbErr != 0 {
        return Err(ConnectionFailed);
      }
      var key := PixelKey(x, y);
      var pixelData := Get(db.value, key, env);
      if pixelData.None? {
        return Ok(None);
      }
      var pixel := DecodePixel(pixelData.value);
      if pixel.None? {
        return Err(DecodeFailed);
      }
      return Ok(Some(pixel.value));
    }

    /**
     saveChatMessage: on success the message's id, exactly as given, holds its
     text; nothing in canvas changes.
     */
    method SaveChatMessage(message: ChatMessage, env: Env) returns (st: Status)
      requires Valid()
      modifies this
      ensures Valid() && GateStep(env)
      ensures st == (if !dbInit then Failure(ConnectionFailed)
                     else if !env.putOk then Failure(PutFailed) else Success)
      ensures chat == (if st.Success? then PutMessage(old(chat), message) else old(chat))
      ensures canvas == old(canvas)
    {
      var db, dbErr := GetChatDB(env);
      if dbErr != 0 {
        return Failure(ConnectionFailed);
      }
      var messageData := EncodeMessage(message);
      st := Put(db.value, message.id, messageData, env);
    }

    /**
     getChatMessages: the messages of the listed keys, in listing order, skipping
     every key whose Get fails or whose payload does not decode.
     */
    method GetChatMessages(env: Env) returns (r: Result<seq<ChatMessage>>)
      requires Valid()
      modifies this`canvasDB, this`chatDB, this`dbInit, this`connects
      ensures Valid() && GateStep(env)
      ensures r == (if !dbInit then Err(ConnectionFailed)
                    else if env.listing.None? then Err(ListFailed)
                    else Ok(Collect(chat, env.listing.value, env.unreadable, DecodeMessage)))
    {
      var db, dbErr := GetChatDB(env);
      if dbErr != 0 {
        return Err(ConnectionFailed);
      }
      if env.listing.None? {
        return Err(ListFailed);
      }
      var keys := env.listing.value;
      var messages: seq<ChatMessage> := [];
      for i := 0 to |keys|
        invariant messages == Collect(chat, keys[..i], env.unreadable, DecodeMessage)
      {
        assert keys[..i + 1][..i] == keys[..i];
        var messageData := Get(db.value, keys[i], env);
        if messageData.None? {
          continue;
        }
        var message := DecodeMessage(messageData.value);
        if message.None? {
          continue;
        }
        messages := messages + [message.value];
      }
      assert keys[..|keys|] == keys;
      return Ok(messages);
    }
  }
}
