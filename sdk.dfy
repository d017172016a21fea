/**
 The boundary between the backend and the platform it runs on: the database and
 pub/sub calls whose outcome the backend cannot see into, the payload format they
 carry, and the error values the backend reports.
 */
module Sdk {

  /** Optional value; failure-compatible, so `:-` can chain parsers. */
  datatype Option<+T> = None | Some(value: T) {
    predicate IsFailure() { None? }

    function PropagateFailure<U>(): Option<U>
      requires None?
    {
      None
    }

    function Extract(): T
      requires Some?
    {
      value
    }
  }

  /** What went wrong in an operation of the backend. */
  datatype Error =
    | ConnectionFailed    // getCanvasDB / getChatDB reported 1
    | PutFailed           // Database.Put returned an error
    | DecodeFailed        // json.Unmarshal rejected a stored or received payload
    | ListFailed          // Database.List returned an error
    | ChannelFailed       // pubsub.Channel(name) returned an error
    | PublishFailed       // Channel.Publish returned an error
    | InvalidChannelType  // a websocket channel type other than canvas or chat

  /** A Go `(value, error)` pair. */
  datatype Result<+T> = Ok(value: T) | Err(error: Error)

  /** A Go `error` return: nil, or an error. */
  datatype Status = Success | Failure(error: Error)

  /** The bytes stored in a namespace or carried by a broadcast: JSON text. */
  type Payload = string

  /** A connection obtained from database.New(path). */
  datatype Handle = Handle(path: string)

  const CanvasPath: string := "/canvas"
  const ChatPath: string := "/chat"

  /**
   The outcomes the platform gives the calls made during one invocation of an
   exported function. Every call but Database.Get happens at most once per
   invocation, so one value per call kind decides it; Get runs once per listed
   key, and `unreadable` fixes its outcome key by key.
   */
  datatype Env = Env(
    canvasNew: bool,               // database.New("/canvas") succeeds
    chatNew: bool,                 // database.New("/chat") succeeds
    putOk: bool,                   // Database.Put succeeds
    unreadable: set<string>,       // keys whose Database.Get fails although they are stored
    listing: Option<seq<string>>,  // what Database.List("") returns; None when it fails
    channelOk: bool,               // pubsub.Channel(name) succeeds
    publishOk: bool                // Channel.Publish succeeds
  )
}
