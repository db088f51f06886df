/** Encoding and strict decoding of outbox entries (infrastructure/finalization_outbox.py). The
    document is a JSON tree; base64, SHA-256 and the event codec are parameters. */
module OutboxCodec {
  import opened EntryNames
  import opened FinalizationUnits
  import opened Options

  datatype Result<T> = Ok(value: T) | WrongCamera | Corrupt

  datatype Json = Text(s: string) | Number(n: int) | List(items: seq<Json>) | Object(fields: map<string, Json>)

  datatype Library = Library(
    encodeEvent: Event -> string,
    decodeEvent: string -> Option<Event>,
    digest: string -> string,        // SHA-256 of a string, in hexadecimal
    treeDigest: Json -> string,      // SHA-256 of the canonical text of a tree
    toBase64: string -> string,
    fromBase64: string -> Option<string>)

  predicate IsDigest(s: string) {
    |s| == 64 && forall k :: 0 <= k < 64 ==> '0' <= s[k] <= '9' || 'a' <= s[k] <= 'f'
  }

  /** What the library is relied on for: both codecs are round trips, digests look like digests. */
  ghost predicate Sound(lib: Library) {
    && (forall e :: lib.decodeEvent(lib.encodeEvent(e)) == Some(e))
    && (forall e :: lib.encodeEvent(e) != "")
    && (forall d :: lib.fromBase64(lib.toBase64(d)) == Some(d))
    && (forall d :: lib.toBase64(d) == "" <==> d == "")
    && (forall s :: IsDigest(lib.digest(s)))
    && (forall t :: IsDigest(lib.treeDigest(t)))
  }

  const REFERENCE_FIELDS: set<string> := {"snapshot_key", "vehicle_crop_key", "plate_crop_key"}

  function Suffix(field: string): string {
    if field == "snapshot_key" then "snapshot.jpg"
    else if field == "vehicle_crop_key" then "vehicle.jpg"
    else "plate.jpg"
  }

  // ----- object keys

  function Components(path: string): (parts: seq<string>)
    ensures |parts| > 0
  {
    if path == "" then [""]
    else
      var rest := Components(path[1..]);
      if path[0] == '/' then [""] + rest else [[path[0]] + rest[0]] + rest[1..]
  }

  /** A relative path without parent steps that is already in normal form. */
  predicate SafePath(path: string) {
    path == "." || forall k :: 0 <= k < |Components(path)| ==> Components(path)[k] !in {"", ".", ".."}
  }

  function KeyOf(e: Event, field: string): string {
    "vehicles/" + Padded(e.occurredAt.year, 4) + "/" + Padded(e.occurredAt.month, 2) + "/" + Padded(e.occurredAt.day, 2)
      + "/" + e.camera + "/" + e.id + "/" + Suffix(field)
  }

  predicate ValidKey(e: Event, field: string, key: string) {
    SafePath(key) && key == KeyOf(e, field)
  }

  // ----- encoding

  function ItemTree(lib: Library, m: Media): Json {
    Object(map[
      "referenceField" := Text(m.field),
      "key" := Text(m.key),
      "contentType" := Text(m.contentType),
      "size" := Number(|m.data|),
      "sha256" := Text(lib.digest(m.data)),
      "dataBase64" := Text(lib.toBase64(m.data))])
  }

  function ItemTrees(lib: Library, media: seq<Media>): (trees: seq<Json>)
    ensures |trees| == |media| && forall k :: 0 <= k < |media| ==> trees[k] == ItemTree(lib, media[k])
  {
    seq(|media|, k requires 0 <= k < |media| => ItemTree(lib, media[k]))
  }

  /** Stable insertion by reference field. */
  function Insert(m: Media, sorted: seq<Media>): seq<Media> {
    if sorted == [] || Less(m.field, sorted[0].field) then [m] + sorted
    else [sorted[0]] + Insert(m, sorted[1..])
  }

  function Sorted(media: seq<Media>): seq<Media> {
    if media == [] then [] else Insert(media[|media| - 1], Sorted(media[..|media| - 1]))
  }

  function Payload(lib: Library, e: Event, media: seq<Media>): Json {
    Object(map["envelope" := Text(lib.encodeEvent(e)), "media" := List(ItemTrees(lib, Sorted(media)))])
  }

  function Document(lib: Library, e: Event, media: seq<Media>): Json {
    var payload := Payload(lib, e, media);
    Object(map["schemaVersion" := Number(1), "payload" := payload, "payloadSha256" := Text(lib.treeDigest(payload))])
  }

  // ----- decoding

  predicate HasText(tree: Json, name: string) {
    tree.Object? && name in tree.fields && tree.fields[name].Text? && tree.fields[name].s != ""
  }

  const ITEM_KEYS: set<string> := {"referenceField", "key", "contentType", "size", "sha256", "dataBase64"}

  predicate ItemOk(lib: Library, e: Event, tree: Json) {
    && tree.Object? && tree.fields.Keys == ITEM_KEYS
    && HasText(tree, "referenceField") && HasText(tree, "key") && HasText(tree, "contentType")
    && HasText(tree, "sha256") && HasText(tree, "dataBase64")
    && tree.fields["size"].Number? && tree.fields["size"].n > 0
    && var field := tree.fields["referenceField"].s;
       var key := tree.fields["key"].s;
       var data := lib.fromBase64(tree.fields["dataBase64"].s);
    && field in REFERENCE_FIELDS
    && field in e.references && e.references[field] == key
    && tree.fields["contentType"].s == "image/jpeg"
    && ValidKey(e, field, key)
    && data.Some? && |data.value| == tree.fields["size"].n && lib.digest(data.value) == tree.fields["sha256"].s
  }

  function Loaded(lib: Library, e: Event, tree: Json): Media
    requires ItemOk(lib, e, tree)
  {
    Media(tree.fields["referenceField"].s, tree.fields["key"].s, lib.fromBase64(tree.fields["dataBase64"].s).value, tree.fields["contentType"].s)
  }

  function LoadedAll(lib: Library, e: Event, trees: seq<Json>): (media: seq<Media>)
    requires forall k :: 0 <= k < |trees| ==> ItemOk(lib, e, trees[k])
    ensures |media| == |trees| && forall k :: 0 <= k < |media| ==> media[k] == Loaded(lib, e, trees[k])
  {
    seq(|trees|, k requires 0 <= k < |trees| => Loaded(lib, e, trees[k]))
  }

  predicate Distinct(media: seq<Media>) {
    forall i, j :: 0 <= i < j < |media| ==> media[i].field != media[j].field
  }

  function Fields(media: seq<Media>): (fields: set<string>)
    ensures forall f :: f in fields <==> exists k :: 0 <= k < |media| && media[k].field == f
  {
    set k | 0 <= k < |media| :: media[k].field
  }

  /** The reference fields of an event that this outbox delivers. */
  function Referenced(e: Event): set<string> {
    e.references.Keys * REFERENCE_FIELDS
  }

  /** A media list is accepted when every item is, no field repeats and none is missing. */
  predicate MediaOk(lib: Library, e: Event, raw: Json) {
    && raw.List? && e.clip.None?
    && (forall k :: 0 <= k < |raw.items| ==> ItemOk(lib, e, raw.items[k]))
    && Distinct(LoadedAll(lib, e, raw.items))
    && Fields(LoadedAll(lib, e, raw.items)) == Referenced(e)
  }

  lemma RepeatIsRejected(lib: Library, e: Event, raw: Json, i: nat, k: nat)
    requires raw.List? && i < k < |raw.items| && ItemOk(lib, e, raw.items[i]) && ItemOk(lib, e, raw.items[k])
    requires Loaded(lib, e, raw.items[i]).field == Loaded(lib, e, raw.items[k]).field
    ensures !MediaOk(lib, e, raw)
  {
  }

  /** The first items are accepted and decoded. */
  ghost predicate DecodedSoFar(lib: Library, e: Event, items: seq<Json>, decoded: seq<Media>) {
    && |decoded| <= |items|
    && forall i :: 0 <= i < |decoded| ==> ItemOk(lib, e, items[i]) && decoded[i] == Loaded(lib, e, items[i])
  }

  lemma CompleteIffReferenced(lib: Library, e: Event, raw: Json, decoded: seq<Media>)
    requires raw.List? && e.clip.None? && |decoded| == |raw.items| && Distinct(decoded)
    requires DecodedSoFar(lib, e, raw.items, decoded)
    ensures MediaOk(lib, e, raw) <==> Fields(decoded) == Referenced(e)
    ensures decoded == LoadedAll(lib, e, raw.items)
  {
    assert decoded == LoadedAll(lib, e, raw.items);
  }

  lemma FieldsGrow(media: seq<Media>, m: Media)
    ensures Fields(media + [m]) == Fields(media) + {m.field}
  {
    var all := media + [m];
    forall f | f in Fields(media) + {m.field} ensures f in Fields(all) {
      if f == m.field { assert all[|media|].field == f; }
      else {
        var k :| 0 <= k < |media| && media[k].field == f;
        assert all[k].field == f;
      }
    }
  }

  /** `_decode_media`. */
  method DecodeMedia(lib: Library, e: Event, raw: Json) returns (r: Option<seq<Media>>)
    ensures r.Some? <==> MediaOk(lib, e, raw)
    ensures r.Some? ==> r.value == LoadedAll(lib, e, raw.items)
  {
    if !raw.List? || e.clip.Some? { return None; }
    var decoded: seq<Media> := [];
    var seen: set<string> := {};
    for k := 0 to |raw.items|
      invariant |decoded| == k && Distinct(decoded) && seen == Fields(decoded)
      invariant DecodedSoFar(lib, e, raw.items, decoded)
    {
      if !ItemOk(lib, e, raw.items[k]) { return None; }
      var next := Loaded(lib, e, raw.items[k]);
      if next.field in seen {
        ghost var i :| 0 <= i < k && decoded[i].field == next.field;
        RepeatIsRejected(lib, e, raw, i, k);
        return None;
      }
      DistinctGrows(decoded, next);
      FieldsGrow(decoded, next);
      decoded := decoded + [next];
      seen := seen + {next.field};
    }
    CompleteIffReferenced(lib, e, raw, decoded);
    r := if seen == Referenced(e) then Some(decoded) else None;
  }

  function EntryName(lib: Library, e: Event): string {
    FileName(e.occurredAt, lib.digest(e.id))
  }

  /** The payload object of a document, its event and its media, when they can be read. */
  predicate PayloadOk(lib: Library, name: string, payload: Json) {
    && payload.Object? && HasText(payload, "envelope") && "media" in payload.fields
    && var e := lib.decodeEvent(payload.fields["envelope"].s);
    && e.Some? && MediaOk(lib, e.value, payload.fields["media"])
    && name == EntryName(lib, e.value)
  }

  function Unpacked(lib: Library, name: string, payload: Json): (Event, seq<Media>)
    requires PayloadOk(lib, name, payload)
  {
    var e := lib.decodeEvent(payload.fields["envelope"].s).value;
    (e, LoadedAll(lib, e, payload.fields["media"].items))
  }

  /** `_load_encoded_entry`: the check of new bytes. */
  function LoadEncoded(lib: Library, name: string, doc: Json): Result<(Event, seq<Media>)> {
    if doc.Object? && "payload" in doc.fields && PayloadOk(lib, name, doc.fields["payload"])
    then Ok(Unpacked(lib, name, doc.fields["payload"]))
    else Corrupt
  }

  /** `_load_entry_sync`: the check of bytes read back from the disk. */
  function Load(lib: Library, camera: string, name: string, doc: Json): Result<(Event, seq<Media>)> {
    if && doc.Object? && doc.fields.Keys == {"schemaVersion", "payload", "payloadSha256"}
       && doc.fields["schemaVersion"] == Number(1)
       && HasText(doc, "payloadSha256") && IsDigest(doc.fields["payloadSha256"].s)
       && lib.treeDigest(doc.fields["payload"]) == doc.fields["payloadSha256"].s
       && doc.fields["payload"].Object? && doc.fields["payload"].fields.Keys == {"envelope", "media"}
       && PayloadOk(lib, name, doc.fields["payload"])
       && Unpacked(lib, name, doc.fields["payload"]).0.camera == camera
    then Ok(Unpacked(lib, name, doc.fields["payload"]))
    else Corrupt
  }

  /** `_encode_entry`: builds the document and puts it through the reader. */
  function Encode(lib: Library, camera: string, e: Event, media: seq<Media>): Result<Json> {
    if e.camera != camera then WrongCamera
    else
      var doc := Document(lib, e, media);
      var loaded := LoadEncoded(lib, EntryName(lib, e), doc);
      if loaded.Ok? && loaded.value.0.id == e.id then Ok(doc) else Corrupt
  }

  // ----- sorting

  lemma {:induction false} InsertAdds(m: Media, sorted: seq<Media>)
    ensures multiset(Insert(m, sorted)) == multiset(sorted) + multiset{m}
  {
    if sorted != [] && !Less(m.field, sorted[0].field) {
      InsertAdds(m, sorted[1..]);
      assert sorted == [sorted[0]] + sorted[1..];
    }
  }

  lemma {:induction false} SortedPermutes(media: seq<Media>)
    ensures multiset(Sorted(media)) == multiset(media) && |Sorted(media)| == |media|
  {
    if media != [] {
      var n := |media| - 1;
      SortedPermutes(media[..n]);
      InsertAdds(media[n], Sorted(media[..n]));
      assert media == media[..n] + [media[n]];
    }
    assert |multiset(Sorted(media))| == |multiset(media)|;
  }

  /** No field comes before an earlier one. */
  predicate Ordered(media: seq<Media>) {
    forall i, j :: 0 <= i < j < |media| ==> !Less(media[j].field, media[i].field)
  }

  lemma {:induction false} InsertKeepsOrder(m: Media, sorted: seq<Media>)
    requires Ordered(sorted)
    ensures Ordered(Insert(m, sorted))
  {
    if sorted == [] {
    } else if Less(m.field, sorted[0].field) {
      forall j | 0 <= j < |sorted| ensures !Less(sorted[j].field, m.field) {
        LessIsTotal(m.field, sorted[j].field);
        if Less(sorted[j].field, m.field) { LessIsTransitive(sorted[j].field, m.field, sorted[0].field); }
      }
    } else {
      InsertKeepsOrder(m, sorted[1..]);
      var rest := Insert(m, sorted[1..]);
      InsertAdds(m, sorted[1..]);
      forall j | 0 <= j < |rest| ensures !Less(rest[j].field, sorted[0].field) {
        assert rest[j] in multiset(rest);
        assert rest[j] == m || rest[j] in sorted[1..];
      }
    }
  }

  lemma {:induction false} SortedIsOrdered(media: seq<Media>)
    ensures Ordered(Sorted(media))
  {
    if media != [] {
      SortedIsOrdered(media[..|media| - 1]);
      InsertKeepsOrder(media[|media| - 1], Sorted(media[..|media| - 1]));
    }
  }

  lemma DistinctGrows(media: seq<Media>, m: Media)
    ensures Distinct(media + [m]) <==> Distinct(media) && m.field !in Fields(media)
  {
    var all := media + [m];
    if m.field in Fields(media) {
      var k :| 0 <= k < |media| && media[k].field == m.field;
      assert all[k].field == all[|media|].field;
    }
    if Distinct(all) {
      forall i, j | 0 <= i < j < |media| ensures media[i].field != media[j].field {
        assert all[i].field != all[j].field;
      }
    }
  }

  lemma {:induction false} DistinctByCount(media: seq<Media>)
    ensures |Fields(media)| <= |media|
    ensures Distinct(media) <==> |Fields(media)| == |media|
  {
    if media == [] {
      assert Fields(media) == {};
    } else {
      var rest, last := media[..|media| - 1], media[|media| - 1];
      assert media == rest + [last];
      DistinctByCount(rest);
      DistinctGrows(rest, last);
      FieldsGrow(rest, last);
    }
  }

  lemma PermutationKeepsFields(media: seq<Media>, other: seq<Media>)
    requires multiset(media) == multiset(other)
    ensures Fields(media) == Fields(other) && (Distinct(media) <==> Distinct(other))
  {
    assert |multiset(media)| == |media| && |multiset(other)| == |other|;
    FieldsWithin(media, other);
    FieldsWithin(other, media);
    DistinctByCount(media);
    DistinctByCount(other);
  }

  lemma FieldsWithin(media: seq<Media>, other: seq<Media>)
    requires multiset(media) == multiset(other)
    ensures Fields(media) <= Fields(other)
  {
    forall f | f in Fields(media) ensures f in Fields(other) {
      var k :| 0 <= k < |media| && media[k].field == f;
      assert media[k] in multiset(other);
      var j :| 0 <= j < |other| && other[j] == media[k];
    }
  }

  // ----- round trips

  /** A media object the outbox delivers for an event. */
  predicate Deliverable(e: Event, m: Media) {
    && m.field in REFERENCE_FIELDS && m.field in e.references && e.references[m.field] == m.key
    && ValidKey(e, m.field, m.key) && m.contentType == "image/jpeg" && m.data != ""
  }

  /** What may be staged: the media of exactly the event's references, each under its own key. */
  ghost predicate Acceptable(e: Event, media: seq<Media>) {
    && e.clip.None? && Distinct(media) && Fields(media) == Referenced(e)
    && forall m :: m in media ==> Deliverable(e, m)
  }

  lemma ItemRoundTrip(lib: Library, e: Event, m: Media)
    requires Sound(lib)
    ensures ItemOk(lib, e, ItemTree(lib, m)) <==> Deliverable(e, m)
    ensures Deliverable(e, m) ==> Loaded(lib, e, ItemTree(lib, m)) == m
  {
    var tree := ItemTree(lib, m);
    assert tree.fields.Keys == ITEM_KEYS;
    assert IsDigest(lib.digest(m.data));
  }

  lemma MediaRoundTrip(lib: Library, e: Event, media: seq<Media>)
    requires Sound(lib)
    ensures MediaOk(lib, e, List(ItemTrees(lib, media))) <==> Acceptable(e, media)
    ensures Acceptable(e, media) ==> LoadedAll(lib, e, ItemTrees(lib, media)) == media
  {
    forall k | 0 <= k < |media|
      ensures ItemOk(lib, e, ItemTrees(lib, media)[k]) <==> Deliverable(e, media[k])
      ensures Deliverable(e, media[k]) ==> Loaded(lib, e, ItemTrees(lib, media)[k]) == media[k]
    {
      ItemRoundTrip(lib, e, media[k]);
    }
    if forall k :: 0 <= k < |media| ==> Deliverable(e, media[k]) {
      assert LoadedAll(lib, e, ItemTrees(lib, media)) == media;
    } else {
      var k :| 0 <= k < |media| && !Deliverable(e, media[k]);
      assert !ItemOk(lib, e, ItemTrees(lib, media)[k]);
    }
  }

  lemma AcceptableWhenPermuted(e: Event, media: seq<Media>, other: seq<Media>)
    requires multiset(media) == multiset(other)
    ensures Acceptable(e, media) <==> Acceptable(e, other)
  {
    PermutationKeepsFields(media, other);
    assert forall m :: m in media <==> m in multiset(media);
    assert forall m :: m in other <==> m in multiset(other);
  }

  lemma DocumentReads(lib: Library, e: Event, media: seq<Media>)
    requires Sound(lib)
    ensures PayloadOk(lib, EntryName(lib, e), Payload(lib, e, media)) <==> Acceptable(e, media)
    ensures Acceptable(e, media) ==> Unpacked(lib, EntryName(lib, e), Payload(lib, e, media)) == (e, Sorted(media))
  {
    SortedPermutes(media);
    AcceptableWhenPermuted(e, media, Sorted(media));
    MediaRoundTrip(lib, e, Sorted(media));
    assert lib.decodeEvent(lib.encodeEvent(e)) == Some(e);
  }

  /** Encoding accepts exactly the finalization units of this camera that carry the media of
      exactly the event's references. */
  lemma EncodeAcceptsIff(lib: Library, camera: string, e: Event, media: seq<Media>)
    requires Sound(lib)
    ensures Encode(lib, camera, e, media).Ok? <==> e.camera == camera && Acceptable(e, media)
    ensures Encode(lib, camera, e, media).WrongCamera? <==> e.camera != camera
  {
    DocumentReads(lib, e, media);
  }

  /** Whatever encoding accepts, the stricter reader accepts: it returns the same event and the
      same media, ordered by reference field. */
  lemma EncodedLoads(lib: Library, camera: string, e: Event, media: seq<Media>)
    requires Sound(lib) && Encode(lib, camera, e, media).Ok?
    ensures Load(lib, camera, EntryName(lib, e), Encode(lib, camera, e, media).value) == Ok((e, Sorted(media)))
    ensures multiset(Sorted(media)) == multiset(media) && Ordered(Sorted(media))
  {
    DocumentReads(lib, e, media);
    SortedPermutes(media);
    SortedIsOrdered(media);
    var payload := Payload(lib, e, media);
    var doc := Document(lib, e, media);
    assert doc.fields.Keys == {"schemaVersion", "payload", "payloadSha256"};
    assert payload.fields.Keys == {"envelope", "media"};
    assert IsDigest(lib.treeDigest(payload));
  }

  /** What the strict reader accepts belongs to this camera, sits under its own name and could
      have been staged. */
  lemma LoadedCouldBeStaged(lib: Library, camera: string, name: string, doc: Json)
    requires Sound(lib) && Load(lib, camera, name, doc).Ok?
    ensures var (e, media) := Load(lib, camera, name, doc).value;
      name == EntryName(lib, e) && Encode(lib, camera, e, media).Ok?
  {
    var (e, media) := Load(lib, camera, name, doc).value;
    var trees := doc.fields["payload"].fields["media"].items;
    forall m | m in media ensures Deliverable(e, m) {
      var k :| 0 <= k < |media| && media[k] == m;
      assert ItemOk(lib, e, trees[k]) && m == Loaded(lib, e, trees[k]);
    }
    EncodeAcceptsIff(lib, camera, e, media);
  }

  /** Equal documents come from the same event with the same media. */
  lemma EncodingIsInjective(lib: Library, camera: string, e: Event, media: seq<Media>, f: Event, other: seq<Media>)
    requires Sound(lib) && Encode(lib, camera, e, media).Ok? && Encode(lib, camera, f, other).Ok?
    requires Encode(lib, camera, e, media) == Encode(lib, camera, f, other)
    ensures e == f && multiset(media) == multiset(other)
  {
    DocumentReads(lib, e, media);
    DocumentReads(lib, f, other);
    SortedPermutes(media);
    SortedPermutes(other);
    assert Payload(lib, e, media) == Payload(lib, f, other);
    assert lib.decodeEvent(lib.encodeEvent(e)) == Some(e) && lib.decodeEvent(lib.encodeEvent(f)) == Some(f);
  }

  lemma FirstComesFirst(media: seq<Media>, other: seq<Media>)
    requires multiset(media) == multiset(other) && media != [] && other != []
    requires Ordered(media) && Ordered(other) && Distinct(media)
    ensures media[0] == other[0]
  {
    assert other[0] in multiset(media) && media[0] in multiset(other);
    var i :| 0 <= i < |media| && media[i] == other[0];
    var j :| 0 <= j < |other| && other[j] == media[0];
    LessIsTotal(media[0].field, media[i].field);
    if j != 0 { assert !Less(other[j].field, other[0].field); }
  }

  lemma {:induction false} OrderIsUnique(media: seq<Media>, other: seq<Media>)
    requires multiset(media) == multiset(other) && Ordered(media) && Ordered(other) && Distinct(media)
    ensures media == other
  {
    if media == [] {
      assert |multiset(media)| == |multiset(other)|;
    } else {
      assert media[0] in multiset(other);
      FirstComesFirst(media, other);
      assert media == [media[0]] + media[1..] && other == [other[0]] + other[1..];
      TailKeeps(media);
      TailKeeps(other);
      OrderIsUnique(media[1..], other[1..]);
    }
  }

  lemma TailKeeps(media: seq<Media>)
    requires media != []
    ensures Ordered(media) ==> Ordered(media[1..])
    ensures Distinct(media) ==> Distinct(media[1..])
    ensures multiset(media[1..]) == multiset(media) - multiset{media[0]}
  {
    assert media == [media[0]] + media[1..];
  }

  /** The bytes do not depend on the order in which the media are handed over. */
  lemma EncodingIgnoresOrder(lib: Library, camera: string, e: Event, media: seq<Media>, other: seq<Media>)
    requires Sound(lib) && multiset(media) == multiset(other)
    ensures Encode(lib, camera, e, media) == Encode(lib, camera, e, other)
  {
    EncodeAcceptsIff(lib, camera, e, media);
    EncodeAcceptsIff(lib, camera, e, other);
    AcceptableWhenPermuted(e, media, other);
    if Encode(lib, camera, e, media).Ok? {
      SortedPermutes(media);
      SortedPermutes(other);
      SortedIsOrdered(media);
      SortedIsOrdered(other);
      PermutationKeepsFields(media, Sorted(media));
      PermutationKeepsFields(other, Sorted(other));
      OrderIsUnique(Sorted(media), Sorted(other));
    }
  }
}
