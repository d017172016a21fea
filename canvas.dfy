/**
 canvas.go: drawing a pixel (stamp, save, then publish), reading one pixel and
 enumerating the whole canvas.
 */
module Canvas {
  import opened Sdk
  import opened Types
  import opened Json
  import opened Store
  import opened Database
  import opened PubSub

  /**
   drawPixel, after the request body has been decoded into pixel: the time the
   client sent is replaced by now; the pixel is saved, and only a successful save
   is published. A failed publish is reported but the saved pixel stays saved.
   */
  method DrawPixel(node: Backend, bus: Broker, pixel: Pixel, now: int, env: Env) returns (r: Result<Pixel>)
    requires node.Valid()
    modifies node, bus
    ensures node.Valid() && node.GateStep(env)
    ensures var stamped := pixel.(time := now);
            var saved := node.dbInit && env.putOk;
            var published := saved && env.channelOk && env.publishOk;
            && node.canvas == (if saved then PutPixel(old(node.canvas), stamped) else old(node.canvas))
            && node.chat == old(node.chat)
            && bus.log == (if published then old(bus.log) + [Publication(CanvasTopic, EncodePixel(stamped))]
                           else old(bus.log))
            && r == (if !node.dbInit then Err(ConnectionFailed)
                     else if !env.putOk then Err(PutFailed)
                     else if !env.channelOk then Err(ChannelFailed)
                     else if !env.publishOk then Err(PublishFailed)
                     else Ok(stamped))
    ensures r.Ok? ==> node.canvas[PixelKey(r.value.x, r.value.y)] == bus.log[|bus.log| - 1].payload
  {
    var stamped := pixel.(time := now);
    var st := node.SavePixel(stamped, env);
    if st.Failure? {
      return Err(st.error);
    }
    st := PublishPixelUpdate(bus, stamped, env);
    if st.Failure? {
      return Err(st.error);
    }
    return Ok(stamped);
  }

  /** getPixelFromDB: the same as getPixelFromDatabase. */
  method GetPixelFromDB(node: Backend, x: int, y: int, env: Env) returns (r: Result<Option<Pixel>>)
    requires node.Valid()
    modifies node`canvasDB, node`chatDB, node`dbInit, node`connects
    ensures node.Valid() && node.GateStep(env)
    ensures r == (if !node.dbInit then Err(ConnectionFailed) else LookupPixel(node.canvas, x, y, env.unreadable))
  {
    r := node.GetPixelFromDatabase(x, y, env);
  }

  /**
   getAllPixels: the pixels of the listed keys, in listing order, skipping every
   key whose Get fails or whose payload does not decode; an error and no pixels
   when the connection or the listing fails.
   */
  method GetAllPixels(node: Backend, env: Env) returns (r: Result<seq<Pixel>>)
    requires node.Valid()
    modifies node`canvasDB, node`chatDB, node`dbInit, node`connects
    ensures node.Valid() && node.GateStep(env)
    ensures r == (if !node.dbInit then Err(ConnectionFailed)
                  else if env.listing.None? then Err(ListFailed)
                  else Ok(Collect(node.canvas, env.listing.value, env.unreadable, DecodePixel)))
  {
    var db, dbErr := node.GetCanvasDB(env);
    if dbErr != 0 {
      return Err(ConnectionFailed);
    }
    if env.listing.None? {
      return Err(ListFailed);
    }
    var keys := env.listing.value;
    var pixels: seq<Pixel> := [];
    for i := 0 to |keys|
      invariant pixels == Collect(node.canvas, keys[..i], env.unreadable, DecodePixel)
    {
      assert keys[..i + 1][..i] == keys[..i];
      var pixelData := node.Get(db.value, keys[i], env);
      if pixelData.None? {
        continue;
      }
      var pixel := DecodePixel(pixelData.value);
      if pixel.None? {
        continue;
      }
      pixels := pixels + [pixel.value];
    }
    assert keys[..|keys|] == keys;
    return Ok(pixels);
  }
}
