/**
 * The audio publishing handler `reduceAudio`: it checks the media type, splits the uploaded
 * file name, watermarks the file, uploads the original and the watermarked copy under keys
 * derived from the product's uuid, then appends a variant to the product and points its
 * public and thumbnail keys at the watermarked copy.
 *
 * The watermarker, the object-storage uploader and the product collection are ports whose
 * outcomes are given by `Ports`; the handler's responses are the sequence of `Signal`s it emits,
 * because `next(...)` without `return` does not stop it.
 */
module AudioPipeline {
  import opened Wrappers
  import opened JsStrings
  import opened Lookup

  // ---------------------------------------------------------------- data model

  datatype MediaType = Image | Video | Audio

  datatype Status = Published | Archived | Unavailable | Draft

  /**
   * A product variant. The declared product type gives `{label, price, key}`; this handler
   * pushes `{size, key}`; so every field but the key is optional.
   */
  datatype Variant = Variant(labelText: Option<string>, size: Option<string>, price: Option<int>, key: string)

  /** A stored product document. */
  datatype ProductRecord = ProductRecord(
    id: string, uuid: string, slug: string, title: string, description: string, tags: seq<string>,
    publicKey: string, thumbnailKey: string, variants: seq<Variant>, status: Status,
    mediaType: MediaType, createdBy: string)

  /** The multipart file; only its original name is read. */
  datatype UploadedFile = UploadedFile(originalname: string)

  /** The JSON body fields the handler reads. */
  datatype Meta = Meta(uuid: string, mediaType: string)

  /** The request: the file if any, and the body if `JSON.parse` accepts it. */
  datatype Request = Request(file: Option<UploadedFile>, body: Option<Meta>)

  /** A local file or a storage destination: folder and file name. */
  datatype Descriptor = Descriptor(folder: string, filename: string)

  /** What the handler emits: an error passed to `next`, an exception, or the JSON success response. */
  datatype Signal = NextError(status: int, message: string) | Thrown | Json(product: ProductRecord)

  /**
   * The outcomes of the handler's collaborators: the watermarking run on (input, watermark track,
   * output), each upload of (local, destination), and whether the product lookup and the save succeed.
   */
  datatype Ports = Ports(watermark: (string, string, string) -> bool,
                         upload: (Descriptor, Descriptor) -> bool,
                         findOk: bool, saveOk: bool)

  // ---------------------------------------------------------------- names and keys

  /** How a template literal renders a value that may be `undefined`. */
  function Render(v: Option<string>): string
  {
    if v.Some? then v.value else "undefined"
  }

  /** `req.file?.originalname.split('.')[0]`. */
  function BaseName(file: Option<UploadedFile>): (r: Option<string>)
    ensures file.Some? ==> r.Some? && '.' !in r.value && r.value <= file.value.originalname
    ensures file.Some? && '.' !in file.value.originalname ==> r == Some(file.value.originalname)
    ensures file.None? ==> r.None?
  {
    if file.None? then None
    else
      var parts := Split(file.value.originalname, '.');
      SplitPiecesFree(file.value.originalname, '.');
      FirstPiecePrefix(file.value.originalname, '.');
      SplitLength(file.value.originalname, '.');
      CountPositive(file.value.originalname, '.');
      JoinSplit(file.value.originalname, '.');
      Some(parts[0])
  }

  lemma FirstPiecePrefix(s: string, sep: char)
    ensures Split(s, sep)[0] <= s
  {
    var parts := Split(s, sep);
    JoinSplit(s, sep);
    if |parts| > 1 {
      JoinAppend(parts, sep, 1);
      assert parts[..1] == [parts[0]];
    }
  }

  /** `req.file?.originalname.split('.')[1]`: the second dot-separated segment, if there is one. */
  function Extension(file: Option<UploadedFile>): (r: Option<string>)
    ensures r.Some? ==> file.Some? && '.' !in r.value
    ensures file.Some? ==> (r.Some? <==> '.' in file.value.originalname)
  {
    if file.None? then None
    else
      var parts := Split(file.value.originalname, '.');
      SplitPiecesFree(file.value.originalname, '.');
      SplitLength(file.value.originalname, '.');
      CountPositive(file.value.originalname, '.');
      if |parts| > 1 then Some(parts[1]) else None
  }

  lemma {:induction false} CountPositive(s: string, c: char)
    ensures Count(s, c) > 0 <==> c in s
    decreases |s|
  {
    if |s| > 0 {
      CountPositive(s[1..], c);
      assert c in s <==> s[0] == c || c in s[1..];
    }
  }

  /** With exactly one dot, base and extension rejoined as `{base}.{ext}` give back the name. */
  lemma NameRoundTrip(name: string)
    requires Count(name, '.') == 1
    ensures var f := Some(UploadedFile(name));
            BaseName(f).Some? && Extension(f).Some? && BaseName(f).value + "." + Extension(f).value == name
  {
    var parts := Split(name, '.');
    SplitLength(name, '.');
    JoinSplit(name, '.');
    assert parts[1..] == [parts[1]];
  }

  /** A dot-free base and extension joined by one dot split back into the same two parts. */
  lemma NameParts(base: string, ext: string)
    requires '.' !in base && '.' !in ext
    ensures var f := Some(UploadedFile(base + "." + ext));
            BaseName(f) == Some(base) && Extension(f) == Some(ext)
  {
    SplitJoin([base, ext], '.');
    assert Join([base, ext], '.') == base + "." + ext by {
      assert Join([ext], '.') == ext;
    }
  }

  /** With more dots, the extension is only the second segment: the name continues with another dot after it. */
  lemma ExtensionIsSecondSegment(name: string)
    requires Count(name, '.') >= 2
    ensures var f := Some(UploadedFile(name));
            Extension(f).Some? &&
            exists rest :: name == BaseName(f).value + "." + Extension(f).value + "." + rest
  {
    var parts := Split(name, '.');
    SplitLength(name, '.');
    JoinSplit(name, '.');
    JoinAppend(parts, '.', 1);
    JoinAppend(parts[1..], '.', 1);
    assert parts[..1] == [parts[0]];
    assert parts[1..][..1] == [parts[1]];
    var rest := Join(parts[1..][1..], '.');
    var f := Some(UploadedFile(name));
    assert BaseName(f).value == parts[0] && Extension(f).value == parts[1];
    assert name == BaseName(f).value + "." + Extension(f).value + "." + rest;
  }

  /** The local path of the uploaded original. */
  function OriginalAudioPath(base: string, ext: string): string { "audio/" + base + "." + ext }

  /** The fixed watermark track. */
  const WatermarkAudioPath: string := "audio/watermark.wav"

  /** The local path the watermarker writes. */
  function OutputAudioPath(base: string, ext: string): string { "output/" + base + "-watermarked." + ext }

  /** `images`: the two local files to upload, original first. */
  function LocalFiles(base: string, ext: string): (r: seq<Descriptor>)
    ensures |r| == 2
    ensures LocalPath(r[0]) == OriginalAudioPath(base, ext) && LocalPath(r[1]) == OutputAudioPath(base, ext)
  {
    [Descriptor("audio", base + "." + ext), Descriptor("output", base + "-watermarked." + ext)]
  }

  /**
   * `s3images`: the two storage destinations, original first, both in the folder `{uuid}/audio`:
   * the first is the object the pushed variant's key names, the second the one the public key names.
   */
  function StorageTargets(uuid: string, ext: string): (r: seq<Descriptor>)
    ensures |r| == 2 && r[0].folder == uuid + "/audio" && r[1].folder == uuid + "/audio"
    ensures r[0].filename == AudioVariant(uuid, ext).key && r[1].filename == WatermarkedKey(uuid, ext)
  {
    [Descriptor(uuid + "/audio", uuid + "-original." + ext), Descriptor(uuid + "/audio", uuid + "-watermarked." + ext)]
  }

  /** The path of a local file. */
  function LocalPath(d: Descriptor): string { d.folder + "/" + d.filename }

  /** The variant key of the original and the public key of the watermarked copy. */
  function OriginalKey(uuid: string, ext: string): string { uuid + "-original." + ext }

  function WatermarkedKey(uuid: string, ext: string): string { uuid + "-watermarked." + ext }

  /**
   * The uploads are paired in order: the local original (the watermarker's input) goes to the
   * destination named by the variant key, the watermarker's output to the one named by the
   * public key; both sit in the folder `{uuid}/audio` and the two file names differ.
   */
  lemma UploadPairs(base: string, uuid: string, ext: string)
    ensures LocalPath(LocalFiles(base, ext)[0]) == OriginalAudioPath(base, ext)
    ensures LocalPath(LocalFiles(base, ext)[1]) == OutputAudioPath(base, ext)
    ensures StorageTargets(uuid, ext) == [Descriptor(uuid + "/audio", OriginalKey(uuid, ext)),
                                          Descriptor(uuid + "/audio", WatermarkedKey(uuid, ext))]
    ensures OriginalKey(uuid, ext) != WatermarkedKey(uuid, ext)
  {
    var k0, k1 := OriginalKey(uuid, ext), WatermarkedKey(uuid, ext);
    var n := |uuid + "-"|;
    assert k0 == (uuid + "-") + ("original." + ext);
    assert k1 == (uuid + "-") + ("watermarked." + ext);
    assert k0[n] == 'o' && k1[n] == 'w';
  }

  // ---------------------------------------------------------------- product update

  /** The variant this handler pushes. */
  function AudioVariant(uuid: string, ext: string): Variant
  {
    Variant(None, Some("Original"), None, OriginalKey(uuid, ext))
  }

  /**
   * The product after the handler's mutation: one variant `{size: "Original", key: "{uuid}-original.{ext}"}`
   * appended after the existing ones, both key pointers set to the watermarked key, nothing else changed.
   */
  function WithAudio(p: ProductRecord, uuid: string, ext: string): (r: ProductRecord)
    ensures |r.variants| == |p.variants| + 1 && r.variants[..|p.variants|] == p.variants
    ensures r.variants[|p.variants|] == Variant(None, Some("Original"), None, uuid + "-original." + ext)
    ensures r.publicKey == uuid + "-watermarked." + ext && r.thumbnailKey == r.publicKey
    ensures r.(variants := p.variants, publicKey := p.publicKey, thumbnailKey := p.thumbnailKey) == p
  {
    p.(variants := p.variants + [AudioVariant(uuid, ext)],
       publicKey := WatermarkedKey(uuid, ext), thumbnailKey := WatermarkedKey(uuid, ext))
  }

  /** Applying the mutation twice appends two identical variants: the handler is not idempotent. */
  lemma NotIdempotent(p: ProductRecord, uuid: string, ext: string)
    ensures var twice := WithAudio(WithAudio(p, uuid, ext), uuid, ext);
            |twice.variants| == |p.variants| + 2
            && twice.variants[|p.variants|] == twice.variants[|p.variants| + 1]
            && twice != WithAudio(p, uuid, ext)
  {
    var once := WithAudio(p, uuid, ext);
    var twice := WithAudio(once, uuid, ext);
    assert twice.variants[..|once.variants|] == once.variants;
    assert |twice.variants| != |once.variants|;
  }

  /** `Product.findOne({uuid})`: the first stored product with the uuid. */
  function FindByUuid(records: seq<ProductRecord>, uuid: string): (r: Option<nat>)
    ensures r.Some? ==> r.value < |records| && records[r.value].uuid == uuid
                        && forall j :: 0 <= j < r.value ==> records[j].uuid != uuid
    ensures r.None? ==> forall j :: 0 <= j < |records| ==> records[j].uuid != uuid
  {
    FirstWith(records, (p: ProductRecord) => p.uuid, uuid)
  }

  /** Stored products have distinct ids. */
  predicate UniqueIds(records: seq<ProductRecord>)
  {
    forall i, j :: 0 <= i < j < |records| ==> records[i].id != records[j].id
  }

  /** `doc.save()`: replaces the stored product with the same id, or inserts the document. */
  function SaveRecord(records: seq<ProductRecord>, doc: ProductRecord): (r: seq<ProductRecord>)
    ensures doc in r
    ensures UniqueIds(records) ==> UniqueIds(r)
    ensures UniqueIds(records) ==>
              forall k :: 0 <= k < |records| && records[k].id == doc.id ==> r == records[k := doc]
  {
    match FirstWith(records, (p: ProductRecord) => p.id, doc.id)
    case Some(k) => assert records[k := doc][k] == doc; records[k := doc]
    case None => assert (records + [doc])[|records|] == doc; records + [doc]
  }

  // ---------------------------------------------------------------- the handler as a function

  /** The destinations whose upload succeeds, in upload order. */
  function Uploaded(local: seq<Descriptor>, remote: seq<Descriptor>, upload: (Descriptor, Descriptor) -> bool): (r: seq<Descriptor>)
    requires |local| == |remote|
    ensures |r| <= |remote|
    ensures forall i :: 0 <= i < |r| ==> r[i] in remote
  {
    if |local| == 0 then []
    else (if upload(local[0], remote[0]) then [remote[0]] else [])
         + Uploaded(local[1..], remote[1..], upload)
  }

  /** One "Error uploading image" signal per failed upload, in upload order. */
  function UploadErrors(local: seq<Descriptor>, remote: seq<Descriptor>, upload: (Descriptor, Descriptor) -> bool): (r: seq<Signal>)
    requires |local| == |remote|
    ensures forall i :: 0 <= i < |r| ==> r[i] == NextError(400, "Error uploading image")
  {
    if |local| == 0 then []
    else (if upload(local[0], remote[0]) then [] else [NextError(400, "Error uploading image")])
         + UploadErrors(local[1..], remote[1..], upload)
  }

  /** The signals, the stored destinations and the stored products after one run of the handler. */
  datatype Outcome = Outcome(signals: seq<Signal>, uploaded: seq<Descriptor>, records: seq<ProductRecord>)

  /** The error `next` receives, without stopping, when there is no file. */
  function FileCheck(req: Request): seq<Signal>
  {
    if req.file.None? then [NextError(400, "Can not get file")] else []
  }

  /**
   * One run of `reduceAudio` as written. Neither a missing file nor a failed upload stops it;
   * a wrong media type, a missing product or a thrown exception does. The watermarker's result
   * is only logged, so it does not appear here.
   */
  function Publish(req: Request, ports: Ports, records: seq<ProductRecord>): (o: Outcome)
    ensures |o.signals| >= 1 && |o.uploaded| <= 2
    ensures o.records != records ==>
              req.body.Some? && req.body.value.mediaType == "audio" && o.signals[|o.signals| - 1].Json?
    ensures o.signals[|o.signals| - 1].Json? ==> o.signals[|o.signals| - 1].product in o.records
  {
    var pre := FileCheck(req);
    if req.body.None? then Outcome(pre + [Thrown], [], records)
    else if req.body.value.mediaType != "audio" then Outcome(pre + [NextError(400, "Wrong mediaType")], [], records)
    else
      var uuid := req.body.value.uuid;
      var base, ext := Render(BaseName(req.file)), Render(Extension(req.file));
      var local, remote := LocalFiles(base, ext), StorageTargets(uuid, ext);
      var (last, after) := Conclude(uuid, ext, ports, records);
      Outcome(pre + UploadErrors(local, remote, ports.upload) + [last], Uploaded(local, remote, ports.upload), after)
  }

  /** The part of the run after the uploads: look the product up, update it, save it; the last signal and the products. */
  function Conclude(uuid: string, ext: string, ports: Ports, records: seq<ProductRecord>): (r: (Signal, seq<ProductRecord>))
    ensures !r.0.Json? ==> r.1 == records
    ensures r.0.Json? ==> FindByUuid(records, uuid).Some? && r.0.product.uuid == uuid && r.0.product in r.1
    ensures r.0.Json? ==> r.0.product.publicKey == WatermarkedKey(uuid, ext) && r.0.product.thumbnailKey == WatermarkedKey(uuid, ext)
  {
    if !ports.findOk then (Thrown, records)
    else match FindByUuid(records, uuid)
      case None => (NextError(404, "Product not found"), records)
      case Some(k) =>
        var updated := WithAudio(records[k], uuid, ext);
        if !ports.saveOk then (Thrown, records)
        else (Json(updated), SaveRecord(records, updated))
  }

  // ---------------------------------------------------------------- properties of one run

  /** A media type other than "audio" is rejected with 400 before any upload or product change. */
  lemma WrongMediaTypeRejected(req: Request, ports: Ports, records: seq<ProductRecord>)
    requires req.body.Some? && req.body.value.mediaType != "audio"
    ensures var o := Publish(req, ports, records);
            o.uploaded == [] && o.records == records
            && o.signals[|o.signals| - 1] == NextError(400, "Wrong mediaType")
            && forall i :: 0 <= i < |o.signals| ==> !o.signals[i].Json?
  {
  }

  /** With no product for the uuid the answer is 404 and no product changes, whatever was uploaded. */
  lemma MissingProductNotFound(req: Request, ports: Ports, records: seq<ProductRecord>)
    requires req.body.Some? && req.body.value.mediaType == "audio" && ports.findOk
    requires forall j :: 0 <= j < |records| ==> records[j].uuid != req.body.value.uuid
    ensures var o := Publish(req, ports, records);
            o.records == records && o.signals[|o.signals| - 1] == NextError(404, "Product not found")
  {
  }

  /**
   * A run that reaches the save changes exactly the first product with the uuid, as WithAudio
   * describes, and answers with that product.
   */
  lemma SuccessUpdatesOneProduct(req: Request, ports: Ports, records: seq<ProductRecord>)
    requires UniqueIds(records)
    requires req.body.Some? && req.body.value.mediaType == "audio" && ports.findOk && ports.saveOk
    requires FindByUuid(records, req.body.value.uuid).Some?
    ensures var uuid := req.body.value.uuid;
            var ext := Render(Extension(req.file));
            var k := FindByUuid(records, uuid).value;
            var o := Publish(req, ports, records);
            o.records == records[k := WithAudio(records[k], uuid, ext)]
            && o.signals[|o.signals| - 1] == Json(WithAudio(records[k], uuid, ext))
  {
  }

  /** Replacing the first product with a uuid by a record with the same uuid keeps it the first. */
  lemma FirstUuidKept(records: seq<ProductRecord>, k: nat, doc: ProductRecord)
    requires FindByUuid(records, doc.uuid) == Some(k)
    ensures FindByUuid(records[k := doc], doc.uuid) == Some(k)
  {
    var rs := records[k := doc];
    var r := FindByUuid(rs, doc.uuid);
    assert rs[k].uuid == doc.uuid;
    assert forall j :: 0 <= j < k ==> rs[j].uuid != doc.uuid by {
      assert forall j :: 0 <= j < k ==> rs[j] == records[j];
    }
    assert r.Some? && !(r.value < k) && !(k < r.value);
  }

  /**
   * Running the handler twice with the same request: the second run finds the same product again,
   * which ends up with two identical "Original" variants, and every other product is untouched.
   */
  lemma RepeatedRunDuplicatesVariant(req: Request, ports: Ports, records: seq<ProductRecord>)
    requires UniqueIds(records)
    requires req.body.Some? && req.body.value.mediaType == "audio" && ports.findOk && ports.saveOk
    requires FindByUuid(records, req.body.value.uuid).Some?
    ensures var uuid := req.body.value.uuid;
            var ext := Render(Extension(req.file));
            var k := FindByUuid(records, uuid).value;
            var n := |records[k].variants|;
            var once := Publish(req, ports, records).records;
            var twice := Publish(req, ports, once).records;
            twice == records[k := WithAudio(WithAudio(records[k], uuid, ext), uuid, ext)]
            && |twice[k].variants| == n + 2 && twice[k].variants[n] == twice[k].variants[n + 1]
            && twice != once
  {
    var uuid := req.body.value.uuid;
    var ext := Render(Extension(req.file));
    var k := FindByUuid(records, uuid).value;
    var w1 := WithAudio(records[k], uuid, ext);
    SuccessUpdatesOneProduct(req, ports, records);
    var once := Publish(req, ports, records).records;
    assert once == records[k := w1];
    assert records[k].uuid == uuid;
    FirstUuidKept(records, k, w1);
    assert UniqueIds(once) by {
      assert forall j :: 0 <= j < |records| ==> once[j].id == records[j].id;
    }
    SuccessUpdatesOneProduct(req, ports, once);
    NotIdempotent(records[k], uuid, ext);
    var twice := Publish(req, ports, once).records;
    assert twice[k] != once[k];
  }

  /**
   * A watermarking failure is caught and logged: it never stops the uploads or the product
   * update, and the handler does not branch on it.
   */
  lemma WatermarkOutcomeIgnored(req: Request, ports: Ports, w: (string, string, string) -> bool, records: seq<ProductRecord>)
    ensures Publish(req, ports.(watermark := w), records) == Publish(req, ports, records)
  {
  }

  /** When both uploads succeed, the two destination keys are stored, original first. */
  lemma BothUploaded(local: seq<Descriptor>, remote: seq<Descriptor>, upload: (Descriptor, Descriptor) -> bool)
    requires |local| == |remote| == 2 && upload(local[0], remote[0]) && upload(local[1], remote[1])
    ensures Uploaded(local, remote, upload) == remote
    ensures UploadErrors(local, remote, upload) == []
  {
    assert local[1..][1..] == [] && remote[1..][1..] == [];
    assert UploadErrors(local[1..][1..], remote[1..][1..], upload) == [];
    assert UploadErrors(local[1..], remote[1..], upload) == [];
    assert Uploaded(local[1..], remote[1..], upload) == [remote[1]];
  }

  /** When both uploads fail, nothing is stored and two upload errors are emitted. */
  lemma NoneUploaded(local: seq<Descriptor>, remote: seq<Descriptor>, upload: (Descriptor, Descriptor) -> bool)
    requires |local| == |remote| == 2 && !upload(local[0], remote[0]) && !upload(local[1], remote[1])
    ensures Uploaded(local, remote, upload) == []
    ensures |UploadErrors(local, remote, upload)| == 2
  {
    assert local[1..][1..] == [] && remote[1..][1..] == [];
    assert UploadErrors(local[1..][1..], remote[1..][1..], upload) == [];
    assert |UploadErrors(local[1..], remote[1..], upload)| == 1;
  }

  /**
   * A file named `{base}.{ext}` for a product with the request's uuid, with every port succeeding:
   * both objects are stored and the product gains the variant and keys.
   */
  lemma PublishSingleDotName(base: string, ext: string, uuid: string, ports: Ports, p: ProductRecord)
    requires '.' !in base && '.' !in ext && p.uuid == uuid && ports.findOk && ports.saveOk
    requires forall l, r :: ports.upload(l, r)
    ensures var o := Publish(Request(Some(UploadedFile(base + "." + ext)), Some(Meta(uuid, "audio"))), ports, [p]);
            o.signals == [Json(WithAudio(p, uuid, ext))]
            && o.uploaded == [Descriptor(uuid + "/audio", uuid + "-original." + ext),
                              Descriptor(uuid + "/audio", uuid + "-watermarked." + ext)]
            && o.records == [WithAudio(p, uuid, ext)]
  {
    NameParts(base, ext);
    BothUploaded(LocalFiles(base, ext), StorageTargets(uuid, ext), ports.upload);

  }

  // ---------------------------------------------------------------- the upload finding

  /**
   * As written, a failed upload does not stop the handler: with every upload failing, the product
   * still gets the new variant and keys, which name objects that were never stored.
   */
  lemma UploadFailureStillMutates(req: Request, ports: Ports, p: ProductRecord)
    requires req.body.Some? && req.body.value.mediaType == "audio" && p.uuid == req.body.value.uuid
    requires ports.findOk && ports.saveOk && forall l, r :: !ports.upload(l, r)
    ensures var o := Publish(req, ports, [p]);
            o.uploaded == [] && o.records == [WithAudio(p, p.uuid, Render(Extension(req.file)))]
            && o.records != [p]
  {
    var base, ext := Render(BaseName(req.file)), Render(Extension(req.file));
    NoneUploaded(LocalFiles(base, ext), StorageTargets(p.uuid, ext), ports.upload);
    var w := WithAudio(p, p.uuid, ext);
    assert |w.variants| != |p.variants|;
  }

  /**
   * The run as intended: a missing file ends it with its 400 before anything else, and the first
   * failed upload ends it with that error, before the product is looked up.
   */
  function PublishFailFast(req: Request, ports: Ports, records: seq<ProductRecord>): (o: Outcome)
    ensures NextError(400, "Error uploading image") in o.signals ==>
              o.records == records && o.signals[|o.signals| - 1] == NextError(400, "Error uploading image")
  {
    if req.file.None? then Outcome([NextError(400, "Can not get file")], [], records)
    else if req.body.None? then Outcome([Thrown], [], records)
    else if req.body.value.mediaType != "audio" then Outcome([NextError(400, "Wrong mediaType")], [], records)
    else
      var uuid := req.body.value.uuid;
      var base, ext := Render(BaseName(req.file)), Render(Extension(req.file));
      var local, remote := LocalFiles(base, ext), StorageTargets(uuid, ext);
      if !ports.upload(local[0], remote[0]) then Outcome([NextError(400, "Error uploading image")], [], records)
      else if !ports.upload(local[1], remote[1]) then
        Outcome([NextError(400, "Error uploading image")], [remote[0]], records)
      else
        BothUploaded(local, remote, ports.upload);
        Publish(req, ports, records)
  }

  /**
   * With the fail-fast run, a product changes only after both objects were stored: the stored
   * destinations are exactly the ones named by the variant key and the public key.
   */
  lemma FailFastKeepsKeysStored(req: Request, ports: Ports, records: seq<ProductRecord>)
    requires UniqueIds(records)
    ensures var o := PublishFailFast(req, ports, records);
            o.records != records ==>
              req.body.Some? &&
              var uuid := req.body.value.uuid;
              var ext := Render(Extension(req.file));
              o.uploaded == [Descriptor(uuid + "/audio", OriginalKey(uuid, ext)),
                             Descriptor(uuid + "/audio", WatermarkedKey(uuid, ext))]
  {
    var o := PublishFailFast(req, ports, records);
    if o.records != records {
      var uuid := req.body.value.uuid;
      var base, ext := Render(BaseName(req.file)), Render(Extension(req.file));
      var local, remote := LocalFiles(base, ext), StorageTargets(uuid, ext);
      BothUploaded(local, remote, ports.upload);
      UploadPairs(base, uuid, ext);
    }
  }

  // ---------------------------------------------------------------- the missing-file finding

  /**
   * As written, the missing-file error does not stop the handler: for an "audio" request whose
   * product exists, the product is still saved, with keys built from the extension "undefined".
   */
  lemma MissingFileStillMutates(req: Request, ports: Ports, p: ProductRecord)
    requires req.file.None? && req.body.Some? && req.body.value.mediaType == "audio" && p.uuid == req.body.value.uuid
    requires ports.findOk && ports.saveOk
    ensures var o := Publish(req, ports, [p]);
            o.signals[0] == NextError(400, "Can not get file")
            && o.records == [WithAudio(p, p.uuid, "undefined")] && o.records != [p]
  {
    var w := WithAudio(p, p.uuid, "undefined");
    assert |w.variants| != |p.variants|;
  }

  /**
   * Corrected: returning after the missing-file error emits only the 400 the code emits first,
   * stores nothing and leaves every product record as it was.
   */
  lemma MissingFileRejected(req: Request, ports: Ports, records: seq<ProductRecord>)
    requires req.file.None?
    ensures var o := PublishFailFast(req, ports, records);
            o.signals == [Publish(req, ports, records).signals[0]] && o.uploaded == [] && o.records == records
  {
    assert Publish(req, ports, records).signals[0] == NextError(400, "Can not get file");
  }

  // ---------------------------------------------------------------- the handler as a method

  /** Appending one more upload to the loop's prefix appends its outcome. */
  lemma {:induction false} UploadSnoc(local: seq<Descriptor>, remote: seq<Descriptor>, a: Descriptor, b: Descriptor,
                                      upload: (Descriptor, Descriptor) -> bool)
    requires |local| == |remote|
    ensures Uploaded(local + [a], remote + [b], upload)
            == Uploaded(local, remote, upload) + (if upload(a, b) then [b] else [])
    ensures UploadErrors(local + [a], remote + [b], upload)
            == UploadErrors(local, remote, upload) + (if upload(a, b) then [] else [NextError(400, "Error uploading image")])
    decreases |local|
  {
    if |local| > 0 {
      assert (local + [a])[1..] == local[1..] + [a];
      assert (remote + [b])[1..] == remote[1..] + [b];
      UploadSnoc(local[1..], remote[1..], a, b, upload);
    }
  }

  /** The object store: the destinations written so far. */
  class ObjectStorage {
    var stored: seq<Descriptor>

    constructor ()
      ensures stored == []
    {
      stored := [];
    }

    /** `uploadAudio(local, destination)`, whose outcome is `succeeds`: on success the destination is stored. */
    method Upload(local: Descriptor, destination: Descriptor, succeeds: bool) returns (ok: bool)
      modifies this
      ensures ok == succeeds
      ensures stored == old(stored) + (if succeeds then [destination] else [])
    {
      ok := succeeds;
      if succeeds {
        stored := stored + [destination];
      }
    }
  }

  /** A product document loaded from the collection; the handler changes its variants and keys in place. */
  class ProductDocument {
    const loaded: ProductRecord
    var variants: seq<Variant>
    var publicKey: string
    var thumbnailKey: string

    /** The document as it would be written back. */
    function Record(): ProductRecord
      reads this
    {
      loaded.(variants := variants, publicKey := publicKey, thumbnailKey := thumbnailKey)
    }

    constructor Load(r: ProductRecord)
      ensures Record() == r
    {
      loaded := r;
      variants := r.variants;
      publicKey := r.publicKey;
      thumbnailKey := r.thumbnailKey;
    }

    /** `product.variants.push(...vs)`. */
    method PushVariants(vs: seq<Variant>)
      modifies this`variants
      ensures variants == old(variants) + vs
    {
      variants := variants + vs;
    }
  }

  /** The product collection, in natural order. */
  class ProductStore {
    var records: seq<ProductRecord>

    predicate Valid()
      reads this
    {
      UniqueIds(records)
    }

    constructor ()
      ensures Valid() && records == []
    {
      records := [];
    }

    /** `Product.findOne({uuid})`: a fresh document for the first product with the uuid, or null. */
    method FindOne(uuid: string) returns (doc: ProductDocument?)
      ensures doc == null <==> FindByUuid(records, uuid).None?
      ensures doc != null ==> fresh(doc) && doc.Record() == records[FindByUuid(records, uuid).value]
    {
      var found := FindByUuid(records, uuid);
      if found.None? {
        doc := null;
      } else {
        doc := new ProductDocument.Load(records[found.value]);
      }
    }

    /** `doc.save()`. */
    method Save(doc: ProductDocument)
      requires Valid()
      modifies this
      ensures Valid()
      ensures records == SaveRecord(old(records), doc.Record())
    {
      records := SaveRecord(records, doc.Record());
    }
  }

  /** The upload loop: each pair in turn, an error signal for each failure, without stopping. */
  method UploadAll(images: seq<Descriptor>, s3images: seq<Descriptor>, upload: (Descriptor, Descriptor) -> bool,
                   storage: ObjectStorage) returns (errors: seq<Signal>)
    requires |images| == |s3images|
    modifies storage
    ensures storage.stored == old(storage.stored) + Uploaded(images, s3images, upload)
    ensures errors == UploadErrors(images, s3images, upload)
  {
    errors := [];
    var i := 0;
    while i < |s3images|
      invariant 0 <= i <= |s3images|
      invariant storage.stored == old(storage.stored) + Uploaded(images[..i], s3images[..i], upload)
      invariant errors == UploadErrors(images[..i], s3images[..i], upload)
    {
      var ok := storage.Upload(images[i], s3images[i], upload(images[i], s3images[i]));
      if !ok {
        errors := errors + [NextError(400, "Error uploading image")];
      }
      assert images[..i + 1] == images[..i] + [images[i]];
      assert s3images[..i + 1] == s3images[..i] + [s3images[i]];
      UploadSnoc(images[..i], s3images[..i], images[i], s3images[i], upload);
      i := i + 1;
    }
    assert images[..i] == images && s3images[..i] == s3images;
  }

  /** Find the product, push the variant, set both keys and save: the last signal, as Conclude describes. */
  method UpdateProduct(uuid: string, fileExtension: string, ports: Ports, store: ProductStore) returns (last: Signal)
    requires store.Valid()
    modifies store
    ensures store.Valid()
    ensures (last, store.records) == Conclude(uuid, fileExtension, ports, old(store.records))
  {
    if !ports.findOk {
      return Thrown;
    }
    var product := store.FindOne(uuid);
    if product == null {
      return NextError(404, "Product not found");
    }
    product.PushVariants([Variant(None, Some("Original"), None, OriginalKey(uuid, fileExtension))]);
    product.publicKey := WatermarkedKey(uuid, fileExtension);
    product.thumbnailKey := WatermarkedKey(uuid, fileExtension);
    if !ports.saveOk {
      return Thrown;
    }
    store.Save(product);
    last := Json(product.Record());
  }

  /**
   * `reduceAudio`: emits its signals, writes the uploads to `storage` and saves the product to
   * `store`, exactly as Publish describes.
   */
  method ReduceAudio(req: Request, ports: Ports, storage: ObjectStorage, store: ProductStore) returns (signals: seq<Signal>)
    requires store.Valid()
    modifies storage, store
    ensures store.Valid()
    ensures var o := Publish(req, ports, old(store.records));
            signals == o.signals && storage.stored == old(storage.stored) + o.uploaded && store.records == o.records
  {
    if req.file.None? {
      signals := [NextError(400, "Can not get file")];
    } else {
      signals := [];
    }
    if req.body.None? {
      signals := signals + [Thrown];
      return;
    }
    var meta := req.body.value;
    if meta.mediaType != "audio" {
      signals := signals + [NextError(400, "Wrong mediaType")];
      return;
    }
    var filename := Render(BaseName(req.file));
    var fileExtension := Render(Extension(req.file));
    // the outcome of watermarking is only logged
    var watermarked := ports.watermark(OriginalAudioPath(filename, fileExtension), WatermarkAudioPath,
                                       OutputAudioPath(filename, fileExtension));
    var errors := UploadAll(LocalFiles(filename, fileExtension), StorageTargets(meta.uuid, fileExtension),
                            ports.upload, storage);
    var last := UpdateProduct(meta.uuid, fileExtension, ports, store);
    signals := signals + errors + [last];
  }
}
