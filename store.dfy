/**
 What the backend's operations do to the contents of its two namespaces, as
 functions of those contents: the coordinate key of a pixel, the write of a
 pixel or a message, the lookup of one pixel and the skip-on-failure
 enumeration. The methods of Database and Canvas are proved to act as these
 functions say; the lemmas here state what follows.
 */
module Store {
  import opened Sdk
  import opened Decimal
  import opened Types
  import opened Json

  /** The contents of one namespace: key to stored payload. */
  type Entries = map<string, Payload>

  // ---------------------------------------------------------------- keys

  /** The canvas key of coordinate (x, y): `pixel_<x>_<y>`. */
  function PixelKey(x: int, y: int): string {
    "pixel_" + (IntToDecimal(x) + ("_" + IntToDecimal(y)))
  }

  /** Reads the coordinates back out of a canvas key. */
  function ParsePixelKey(key: string): Option<(int, int)> {
    var s1 :- Expect(key, "pixel_");
    var x :- ParseInt(s1);
    var s2 :- Expect(x.rest, "_");
    var y :- ParseInt(s2);
    if y.rest == [] then Some((x.value, y.value)) else None
  }

  lemma PixelKeyParses(x: int, y: int)
    ensures ParsePixelKey(PixelKey(x, y)) == Some((x, y))
  {
    var tail := "_" + IntToDecimal(y);
    ExpectLiteral("pixel_", IntToDecimal(x) + tail);
    IntRoundTrip(x, tail);
    ExpectLiteral("_", IntToDecimal(y));
    IntRoundTrip(y, []);
    assert IntToDecimal(y) + [] == IntToDecimal(y);
  }

  /**
   Different coordinates never share a key, negative coordinates included: the
   decimal text of an integer never contains `_`, so the key splits uniquely.
   */
  lemma PixelKeyInjective(x1: int, y1: int, x2: int, y2: int)
    ensures PixelKey(x1, y1) == PixelKey(x2, y2) <==> x1 == x2 && y1 == y2
  {
    PixelKeyParses(x1, y1);
    PixelKeyParses(x2, y2);
  }

  // ---------------------------------------------------------------- point access

  /** Database.Get: the stored payload, or None when Get fails. */
  function Fetch(store: Entries, key: string, unreadable: set<string>): (r: Option<Payload>)
    ensures r.Some? <==> key in store && key !in unreadable
    ensures r.Some? ==> r.value == store[key]
  {
    if key in store && key !in unreadable then Some(store[key]) else None
  }

  /** A successful savePixel: the key of the pixel's coordinate maps to its JSON text. */
  function PutPixel(store: Entries, p: Pixel): Entries {
    store[PixelKey(p.x, p.y) := EncodePixel(p)]
  }

  /** A successful saveChatMessage: the message's own id maps to its JSON text. */
  function PutMessage(store: Entries, m: ChatMessage): Entries {
    store[m.id := EncodeMessage(m)]
  }

  /**
   getPixelFromDatabase once connected: a Get that fails, for whatever reason,
   is "no pixel" rather than an error; a payload that does not decode is one.
   */
  function LookupPixel(store: Entries, x: int, y: int, unreadable: set<string>): (r: Result<Option<Pixel>>)
    ensures r.Err? <==> Fetch(store, PixelKey(x, y), unreadable).Some?
                        && DecodePixel(store[PixelKey(x, y)]).None?
    ensures r.Err? ==> r.error == DecodeFailed
    ensures PixelKey(x, y) !in store ==> r == Ok(None)
    ensures Fetch(store, PixelKey(x, y), unreadable).None? ==> r == Ok(None)
    ensures Fetch(store, PixelKey(x, y), unreadable).Some? && DecodePixel(store[PixelKey(x, y)]).Some? ==>
              r == Ok(Some(DecodePixel(store[PixelKey(x, y)]).value))
  {
    match Fetch(store, PixelKey(x, y), unreadable)
    case None => Ok(None)
    case Some(data) =>
      match DecodePixel(data)
      case None => Err(DecodeFailed)
      case Some(p) => Ok(Some(p))
  }

  // ---------------------------------------------------------------- enumeration

  /** What one listed key contributes: its decoded record, or nothing. */
  function Item<T>(store: Entries, key: string, unreadable: set<string>, decode: Payload -> Option<T>): seq<T> {
    match Fetch(store, key, unreadable)
    case None => []
    case Some(data) =>
      match decode(data)
      case None => []
      case Some(v) => [v]
  }

  /**
   The loop of getAllPixels and getChatMessages: for each listed key in order,
   Get it and decode it, skipping the key when either fails.
   */
  function Collect<T>(store: Entries, keys: seq<string>, unreadable: set<string>,
                      decode: Payload -> Option<T>): seq<T>
  {
    if keys == [] then []
    else Collect(store, keys[..|keys| - 1], unreadable, decode)
         + Item(store, keys[|keys| - 1], unreadable, decode)
  }

  /** A skipped key only shortens the result: it is never longer than the listing. */
  lemma {:induction false} CollectBound<T>(store: Entries, keys: seq<string>, unreadable: set<string>,
                                           decode: Payload -> Option<T>)
    ensures |Collect(store, keys, unreadable, decode)| <= |keys|
  {
    if keys != [] {
      CollectBound(store, keys[..|keys| - 1], unreadable, decode);
    }
  }

  /** Enumerating one more key appends what that key contributes. */
  lemma CollectSnoc<T>(store: Entries, keys: seq<string>, k: string, unreadable: set<string>,
                       decode: Payload -> Option<T>)
    ensures Collect(store, keys + [k], unreadable, decode)
            == Collect(store, keys, unreadable, decode) + Item(store, k, unreadable, decode)
  {
    assert (keys + [k])[..|keys|] == keys;
  }

  /** Enumeration of a listing is enumeration of its parts, one after the other. */
  lemma {:induction false} CollectAppend<T>(store: Entries, a: seq<string>, b: seq<string>,
                                            unreadable: set<string>, decode: Payload -> Option<T>)
    ensures Collect(store, a + b, unreadable, decode)
            == Collect(store, a, unreadable, decode) + Collect(store, b, unreadable, decode)
  {
    if b == [] {
      assert a + b == a;
    } else {
      var init, last := b[..|b| - 1], b[|b| - 1];
      assert a + b == (a + init) + [last];
      assert b == init + [last];
      var ca, ci, cl := Collect(store, a, unreadable, decode), Collect(store, init, unreadable, decode),
                        Item(store, last, unreadable, decode);
      calc {
        Collect(store, a + b, unreadable, decode);
        { CollectSnoc(store, a + init, last, unreadable, decode); }
        Collect(store, a + init, unreadable, decode) + cl;
        { CollectAppend(store, a, init, unreadable, decode); }
        (ca + ci) + cl;
        ca + (ci + cl);
        { CollectSnoc(store, init, last, unreadable, decode); }
        ca + Collect(store, b, unreadable, decode);
      }
    }
  }

  /** The enumeration of a single key is what that key contributes. */
  lemma CollectSingle<T>(store: Entries, k: string, unreadable: set<string>, decode: Payload -> Option<T>)
    ensures Collect(store, [k], unreadable, decode) == Item(store, k, unreadable, decode)
  {
    CollectSnoc(store, [], k, unreadable, decode);
    assert [] + [k] == [k];
  }

  /**
   A key whose Get fails or whose payload does not decode is skipped, and the
   enumeration goes on with the keys after it.
   */
  lemma SkipsBadRecord<T>(store: Entries, before: seq<string>, bad: string, after: seq<string>,
                          unreadable: set<string>, decode: Payload -> Option<T>)
    requires bad !in store || bad in unreadable || decode(store[bad]).None?
    ensures Collect(store, before + [bad] + after, unreadable, decode)
            == Collect(store, before, unreadable, decode) + Collect(store, after, unreadable, decode)
  {
    CollectAppend(store, before + [bad], after, unreadable, decode);
    CollectSnoc(store, before, bad, unreadable, decode);
    assert Item(store, bad, unreadable, decode) == [];
  }

  /**
   The result holds exactly the records of listed keys that are readable and
   decode.
   */
  lemma {:induction false} CollectMembers<T>(store: Entries, keys: seq<string>, unreadable: set<string>,
                                             decode: Payload -> Option<T>, v: T)
    ensures v in Collect(store, keys, unreadable, decode)
            <==> exists i :: 0 <= i < |keys| && Item(store, keys[i], unreadable, decode) == [v]
  {
    if keys != [] {
      var init := keys[..|keys| - 1];
      CollectMembers(store, init, unreadable, decode, v);
      if exists i :: 0 <= i < |keys| && Item(store, keys[i], unreadable, decode) == [v] {
        var i :| 0 <= i < |keys| && Item(store, keys[i], unreadable, decode) == [v];
        if i < |keys| - 1 {
          assert init[i] == keys[i];
        }
      }
    }
  }

  /** When every listed key is readable and decodes, nothing is skipped. */
  lemma {:induction false} CollectAllReadable<T>(store: Entries, keys: seq<string>, unreadable: set<string>,
                                                 decode: Payload -> Option<T>)
    requires forall i :: 0 <= i < |keys| ==>
               keys[i] in store && keys[i] !in unreadable && decode(store[keys[i]]).Some?
    ensures |Collect(store, keys, unreadable, decode)| == |keys|
    ensures forall i :: 0 <= i < |keys| ==>
              Collect(store, keys, unreadable, decode)[i] == decode(store[keys[i]]).value
  {
    if keys != [] {
      CollectAllReadable(store, keys[..|keys| - 1], unreadable, decode);
    }
  }

  // ---------------------------------------------------------------- pixel writes

  /** After a save, a lookup at the pixel's coordinate gives that very pixel back. */
  lemma LookupAfterPut(store: Entries, p: Pixel, unreadable: set<string>)
    requires PixelKey(p.x, p.y) !in unreadable
    ensures LookupPixel(PutPixel(store, p), p.x, p.y, unreadable) == Ok(Some(p))
  {
    PixelRoundTrip(p);
  }

  /** A save changes no other coordinate, and adds exactly its own key. */
  lemma PutPixelFrame(store: Entries, p: Pixel, x: int, y: int, unreadable: set<string>)
    requires x != p.x || y != p.y
    ensures LookupPixel(PutPixel(store, p), x, y, unreadable) == LookupPixel(store, x, y, unreadable)
    ensures PutPixel(store, p).Keys == store.Keys + {PixelKey(p.x, p.y)}
  {
    PixelKeyInjective(x, y, p.x, p.y);
  }

  /** A second write under a key replaces the first. */
  lemma OverwriteKey(store: Entries, k: string, v1: Payload, v2: Payload)
    ensures store[k := v1][k := v2] == store[k := v2]
  {
  }

  /**
   Last write wins: a second save at the same coordinate fully replaces the
   first, whatever their timestamps; saving the same pixel twice is saving it once.
   */
  lemma LastWriteWins(store: Entries, p1: Pixel, p2: Pixel, unreadable: set<string>)
    requires p1.x == p2.x && p1.y == p2.y
    requires PixelKey(p2.x, p2.y) !in unreadable
    ensures PutPixel(PutPixel(store, p1), p2) == PutPixel(store, p2)
    ensures LookupPixel(PutPixel(PutPixel(store, p1), p2), p2.x, p2.y, unreadable) == Ok(Some(p2))
  {
    OverwriteKey(store, PixelKey(p1.x, p1.y), EncodePixel(p1), EncodePixel(p2));
    LookupAfterPut(store, p2, unreadable);
  }

  /** The canvas after saving each pixel of ps in turn. */
  function PutPixels(store: Entries, ps: seq<Pixel>): Entries {
    WriteEach(store, ps, CanvasKey, EncodePixel)
  }

  /** The store after writing text(x) under key(x), for each x of xs in turn. */
  function WriteEach<T>(store: Entries, xs: seq<T>, key: T -> string, text: T -> Payload): Entries {
    if xs == [] then store
    else WriteEach(store, xs[..|xs| - 1], key, text)[key(xs[|xs| - 1]) := text(xs[|xs| - 1])]
  }

  /** Saving one more pixel is one more PutPixel. */
  lemma PutPixelsStep(store: Entries, ps: seq<Pixel>, p: Pixel)
    ensures PutPixels(store, ps + [p]) == PutPixel(PutPixels(store, ps), p)
  {
    assert (ps + [p])[..|ps|] == ps;
  }

  predicate DistinctCoordinates(ps: seq<Pixel>) {
    forall i, j :: 0 <= i < j < |ps| ==> ps[i].x != ps[j].x || ps[i].y != ps[j].y
  }

  predicate Distinct(keys: seq<string>) {
    forall i, j :: 0 <= i < j < |keys| ==> keys[i] != keys[j]
  }

  /** The store after writing values[i] under keys[i], for each i in turn. */
  function PutAll(store: Entries, keys: seq<string>, values: seq<Payload>): Entries
    requires |keys| == |values|
  {
    if keys == [] then store
    else PutAll(store, keys[..|keys| - 1], values[..|keys| - 1])[keys[|keys| - 1] := values[|keys| - 1]]
  }

  /** The writes add exactly the written keys. */
  lemma {:induction false} PutAllKeys(store: Entries, keys: seq<string>, values: seq<Payload>)
    requires |keys| == |values|
    ensures PutAll(store, keys, values).Keys == store.Keys + set k | k in keys
  {
    if keys != [] {
      var n := |keys| - 1;
      PutAllKeys(store, keys[..n], values[..n]);
      assert (set k | k in keys) == (set k | k in keys[..n]) + {keys[n]};
    }
  }

  /** Under distinct keys no write is lost: each key holds the value written under it. */
  lemma {:induction false} PutAllValue(store: Entries, keys: seq<string>, values: seq<Payload>, i: nat)
    requires |keys| == |values| && Distinct(keys) && i < |keys|
    ensures keys[i] in PutAll(store, keys, values)
    ensures PutAll(store, keys, values)[keys[i]] == values[i]
  {
    var n := |keys| - 1;
    if i < n {
      assert Distinct(keys[..n]);
      PutAllValue(store, keys[..n], values[..n], i);
      assert keys[..n][i] == keys[i] && values[..n][i] == values[i];
    }
  }

  /** Writes under distinct keys into an empty store: one entry per write, none lost. */
  lemma PutAllDistinct(keys: seq<string>, values: seq<Payload>)
    requires |keys| == |values| && Distinct(keys)
    ensures PutAll(map[], keys, values).Keys == set k | k in keys
    ensures forall i :: 0 <= i < |keys| ==> PutAll(map[], keys, values)[keys[i]] == values[i]
  {
    PutAllKeys(map[], keys, values);
    forall i | 0 <= i < |keys| ensures PutAll(map[], keys, values)[keys[i]] == values[i] {
      PutAllValue(map[], keys, values, i);
    }
  }

  /** A listing without repeats has as many keys as it has distinct elements. */
  lemma {:induction false} DistinctCount(keys: seq<string>)
    requires Distinct(keys)
    ensures |set k | k in keys| == |keys|
  {
    if keys != [] {
      var init := keys[..|keys| - 1];
      var last := keys[|keys| - 1];
      assert Distinct(init);
      DistinctCount(init);
      assert (set k | k in keys) == (set k | k in init) + {last};
      assert last !in (set k | k in init);
    }
  }

  /** f applied to each element of xs, in order. */
  function Map<A, B>(f: A -> B, xs: seq<A>): (ys: seq<B>)
    ensures |ys| == |xs|
    ensures forall i :: 0 <= i < |xs| ==> ys[i] == f(xs[i])
  {
    if xs == [] then [] else Map(f, xs[..|xs| - 1]) + [f(xs[|xs| - 1])]
  }

  /** The canvas key of a pixel's own coordinate. */
  function CanvasKey(p: Pixel): string {
    PixelKey(p.x, p.y)
  }

  /** The coordinate key of each pixel, in order. */
  function PixelKeys(ps: seq<Pixel>): seq<string> {
    Map(CanvasKey, ps)
  }

  /** The JSON text of each pixel, in order. */
  function PixelTexts(ps: seq<Pixel>): seq<Payload> {
    Map(EncodePixel, ps)
  }

  /** Writing each item in turn is writing their keys and values in turn. */
  lemma {:induction false} WriteEachAsPutAll<T>(store: Entries, xs: seq<T>, key: T -> string, text: T -> Payload)
    ensures WriteEach(store, xs, key, text) == PutAll(store, Map(key, xs), Map(text, xs))
  {
    if xs != [] {
      var n := |xs| - 1;
      var keys, texts := Map(key, xs), Map(text, xs);
      assert keys[..n] == Map(key, xs[..n]);
      assert texts[..n] == Map(text, xs[..n]);
      calc {
        WriteEach(store, xs, key, text);
        WriteEach(store, xs[..n], key, text)[key(xs[n]) := text(xs[n])];
        { WriteEachAsPutAll(store, xs[..n], key, text); }
        PutAll(store, keys[..n], texts[..n])[keys[n] := texts[n]];
        PutAll(store, keys, texts);
      }
    }
  }

  /** Saving pixels in turn writes each pixel's text under its coordinate key. */
  lemma PutPixelsAsWrites(store: Entries, ps: seq<Pixel>)
    ensures PutPixels(store, ps) == PutAll(store, PixelKeys(ps), PixelTexts(ps))
  {
    WriteEachAsPutAll(store, ps, CanvasKey, EncodePixel);
  }

  /** Distinct coordinates give distinct keys. */
  lemma DistinctPixelKeys(ps: seq<Pixel>)
    requires DistinctCoordinates(ps)
    ensures Distinct(PixelKeys(ps))
  {
    forall i, j | 0 <= i < j < |ps| ensures PixelKeys(ps)[i] != PixelKeys(ps)[j] {
      PixelKeyInjective(ps[i].x, ps[i].y, ps[j].x, ps[j].y);
    }
  }

  /**
   Saving pixels at N distinct coordinates into an empty canvas leaves exactly N
   keys, one per coordinate, each holding the text of the pixel saved there.
   */
  lemma WrittenCanvas(ps: seq<Pixel>)
    requires DistinctCoordinates(ps)
    ensures PutPixels(map[], ps).Keys == set k | k in PixelKeys(ps)
    ensures |PutPixels(map[], ps).Keys| == |ps|
    ensures forall i :: 0 <= i < |ps| ==> PutPixels(map[], ps)[PixelKeys(ps)[i]] == EncodePixel(ps[i])
  {
    PutPixelsAsWrites(map[], ps);
    DistinctPixelKeys(ps);
    PutAllDistinct(PixelKeys(ps), PixelTexts(ps));
    DistinctCount(PixelKeys(ps));
  }

  /** Every coordinate written holds text that decodes to the pixel written there. */
  lemma WrittenDecodes(ps: seq<Pixel>, i: nat)
    requires DistinctCoordinates(ps) && i < |ps|
    ensures PixelKeys(ps)[i] in PutPixels(map[], ps)
    ensures DecodePixel(PutPixels(map[], ps)[PixelKeys(ps)[i]]) == Some(ps[i])
  {
    PutPixelsAsWrites(map[], ps);
    DistinctPixelKeys(ps);
    PutAllValue(map[], PixelKeys(ps), PixelTexts(ps), i);
    PixelRoundTrip(ps[i]);
  }

  /** A listing that names exactly the stored keys has the store's key set. */
  lemma ListedKeys(store: Entries, keys: seq<string>)
    requires forall k :: k in keys <==> k in store
    ensures (set k | k in keys) == store.Keys
  {
  }

  /** A listing of exactly the canvas keys, without repeats, has one key per pixel. */
  lemma ListingSize(ps: seq<Pixel>, keys: seq<string>)
    requires DistinctCoordinates(ps) && Distinct(keys)
    requires forall k :: k in keys <==> k in PutPixels(map[], ps)
    ensures |keys| == |ps|
  {
    var store := PutPixels(map[], ps);
    calc {
      |keys|;
      { DistinctCount(keys); }
      |set k | k in keys|;
      { ListedKeys(store, keys); }
      |store.Keys|;
      { WrittenCanvas(ps); }
      |ps|;
    }
  }

  /** Each key of such a listing is stored and decodes. */
  lemma ListedDecodes(ps: seq<Pixel>, k: string)
    requires DistinctCoordinates(ps) && k in PutPixels(map[], ps)
    ensures DecodePixel(PutPixels(map[], ps)[k]).Some?
  {
    WrittenCanvas(ps);
    assert k in (set k | k in PixelKeys(ps));
    var j :| 0 <= j < |ps| && PixelKeys(ps)[j] == k;
    WrittenDecodes(ps, j);
  }

  /**
   After saves at N distinct coordinates into an empty canvas, an enumeration
   over a listing of the canvas keys (each key once, any order) returns N pixels,
   among them every saved pixel.
   */
  lemma CanvasAfterDistinctWrites(ps: seq<Pixel>, keys: seq<string>)
    requires DistinctCoordinates(ps)
    requires Distinct(keys)
    requires forall k :: k in keys <==> k in PutPixels(map[], ps)
    ensures |Collect(PutPixels(map[], ps), keys, {}, DecodePixel)| == |ps|
    ensures forall i :: 0 <= i < |ps| ==> ps[i] in Collect(PutPixels(map[], ps), keys, {}, DecodePixel)
  {
    var store := PutPixels(map[], ps);
    ListingSize(ps, keys);
    forall i | 0 <= i < |keys| ensures keys[i] in store && DecodePixel(store[keys[i]]).Some? {
      assert keys[i] in keys;
      ListedDecodes(ps, keys[i]);
    }
    CollectAllReadable(store, keys, {}, DecodePixel);
    var r := Collect(store, keys, {}, DecodePixel);
    forall i | 0 <= i < |ps| ensures ps[i] in r {
      WrittenDecodes(ps, i);
      var k := PixelKeys(ps)[i];
      assert k in keys;
      var j :| 0 <= j < |keys| && keys[j] == k;
      assert r[j] == ps[i];
    }
  }

  // ---------------------------------------------------------------- message writes

  /**
   A message is stored under its id as given: a second save with the same id
   replaces the first, and a later enumeration sees the second only.
   */
  lemma SameIdReplaces(store: Entries, m1: ChatMessage, m2: ChatMessage)
    requires m1.id == m2.id
    ensures PutMessage(PutMessage(store, m1), m2) == PutMessage(store, m2)
    ensures Collect(PutMessage(PutMessage(store, m1), m2), [m2.id], {}, DecodeMessage) == [m2]
  {
    OverwriteKey(store, m1.id, EncodeMessage(m1), EncodeMessage(m2));
    MessageRoundTrip(m2);
    CollectSingle(PutMessage(store, m2), m2.id, {}, DecodeMessage);
  }

  // ---------------------------------------------------------------- examples

  /** The key text for a few coordinates, a negative one included. */
  lemma PixelKeyExamples()
    ensures PixelKey(3, 4) == "pixel_3_4"
    ensures PixelKey(-1, 10) == "pixel_-1_10"
  {
  }
}
