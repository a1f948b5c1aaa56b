/**
 * `handlerUploadVideo`: authorise the caller, accept an MP4 form file, classify
 * it, remux it for fast start, upload it under an orientation-prefixed key,
 * record the "bucket,key" reference and answer with a presigned copy of the
 * record.
 *
 * Every call that leaves the process (JWT checks, form parsing, temp files,
 * ffprobe, ffmpeg, crypto/rand, S3, the database write, presigning) is an input:
 * `Steps` holds what each call returned. The database read is a map lookup.
 */
module UploadVideo {
  import opened Wrappers
  import opened Strings
  import Base64
  import opened Database
  import opened Assets
  import opened VideoReference

  /** `1 << 30`: the `http.MaxBytesReader` ceiling on the request body. */
  const UploadLimit: nat := 0x4000_0000

  /** The only media type accepted for the form file. */
  const AcceptedMediaType := "video/mp4"

  const StatusOK := 200
  const StatusBadRequest := 400
  const StatusUnauthorized := 401
  const StatusInternalServerError := 500

  datatype Config = Config(s3Bucket: string, jwtSecret: string)

  /** The buffer `getAssetPath` fills from `crypto/rand`: always exactly 32 bytes. */
  type RandomBytes = s: seq<Base64.byte> | |s| == 32 witness seq(32, _ => 0)

  /** What each outside call returned, in the order the handler makes them. */
  datatype Steps = Steps(
    videoID: Uuid,                           // uuid.Parse's value, returned even on error
    videoIDOk: bool,                         // uuid.Parse's error is nil
    bearer: Option<string>,                  // auth.GetBearerToken
    validateJWT: (string, string) -> Option<Uuid>,  // auth.ValidateJWT(token, secret)
    bodySize: nat,                           // bytes the client sends
    formFileOk: bool,                        // r.FormFile("video") apart from the size ceiling
    mediaType: Option<string>,               // mime.ParseMediaType on the part's Content-Type
    tempFile: Option<string>,                // os.CreateTemp: the new file's name
    copyOk: bool,                            // io.Copy into the temp file
    seekOk: bool,                            // tempFile.Seek(0, io.SeekStart)
    probe: ProbeOutput,                      // ffprobe on the temp file
    random: Option<RandomBytes>,             // crypto/rand.Read into the 32-byte buffer
    remux: RemuxOutcome,                     // ffmpeg and os.Stat on its output
    openOk: bool,                            // os.Open of the processed file
    putOk: bool,                             // s3 PutObject
    updateOk: bool,                          // db.UpdateVideo
    presign: Presigner)                      // generatePresignedURL

  /** The object PutObject stored: where, with which content type, from which file. */
  datatype StoredObject = StoredObject(bucket: string, key: string, contentType: string, source: string)

  /** What one request did to the world. */
  datatype Outcome = Outcome(
    statuses: seq<int>,          // every status the handler wrote, in order
    panicked: bool,              // the handler panicked (no stream, or no randomness)
    stored: Option<StoredObject>,
    updated: Option<Video>,      // the record UpdateVideo wrote
    body: Option<Video>)         // the record sent with status 200
  {
    /**
     * The first status written: net/http keeps the first header, so this is what
     * the client gets unless the handler later panics, in which case the
     * connection is closed without the buffered response.
     */
    function Status(): Option<int>
    {
      if statuses == [] then None else Some(statuses[0])
    }
  }

  /** The step at which a request stops; `Done` when it gets through. */
  datatype Stage =
    | MissingToken | InvalidToken | LookupFailed | NotOwner
    | FormFailed | BadContentType | NotMp4
    | TempFailed | CopyFailed | SeekFailed
    | AspectFailed | NoStreamPanic | RandomPanic | FastStartFailed | OpenFailed
    | PutFailed | UpdateFailed | SignFailed | Done
  {
    /** The object is in the bucket. */
    predicate Stored() { UpdateFailed? || SignFailed? || Done? }

    /** The record points at the object. */
    predicate Updated() { SignFailed? || Done? }
  }

  /** The status written when a request stops at `stage`; `None` for the two panics. */
  function StatusOf(stage: Stage): (code: Option<int>)
    ensures code == Some(StatusUnauthorized) <==> stage.MissingToken? || stage.InvalidToken? || stage.NotOwner?
    ensures code == Some(StatusBadRequest) <==> stage.FormFailed? || stage.BadContentType? || stage.NotMp4?
    ensures code == Some(StatusOK) <==> stage.Done?
    ensures code == Some(StatusInternalServerError) <==>
      || stage.LookupFailed? || stage.TempFailed? || stage.CopyFailed? || stage.SeekFailed?
      || stage.AspectFailed? || stage.FastStartFailed? || stage.OpenFailed? || stage.PutFailed?
      || stage.UpdateFailed? || stage.SignFailed?
    ensures code.None? <==> stage.NoStreamPanic? || stage.RandomPanic?
    ensures code.Some? ==> code.value in {StatusOK, StatusBadRequest, StatusUnauthorized, StatusInternalServerError}
  {
    match stage
    case MissingToken | InvalidToken | NotOwner => Some(StatusUnauthorized)
    case FormFailed | BadContentType | NotMp4 => Some(StatusBadRequest)
    case NoStreamPanic | RandomPanic => None
    case Done => Some(StatusOK)
    case _ => Some(StatusInternalServerError)
  }

  function Writes(stage: Stage): seq<int>
  {
    if StatusOf(stage).Some? then [StatusOf(stage).value] else []
  }

  /** The orientation directory of an aspect label; 4:3 shares "other". */
  function Directory(aspect: string): (dir: string)
    ensures dir == "landscape" || dir == "portrait" || dir == "other"
    ensures dir == "landscape" <==> aspect == "16:9"
    ensures dir == "portrait" <==> aspect == "9:16"
  {
    if aspect == "16:9" then "landscape"
    else if aspect == "9:16" then "portrait"
    else "other"
  }

  /**
   * `filepath.Join(directory, assetPath)`. Join also cleans the path, which
   * changes nothing here: the directory is one plain name and an asset path has
   * no '/' and is never "." or "..".
   */
  function ObjectKey(directory: string, assetPath: string): string
  {
    directory + "/" + assetPath
  }

  /** The key of an upload whose first stream has the given size. */
  function UploadKey(stream: Stream, random: seq<Base64.byte>): string
  {
    ObjectKey(Directory(RatioLabel(stream.width, stream.height)), GetAssetPath(random, AcceptedMediaType))
  }

  /** Joining two slash-free segments splits back into exactly those two. */
  lemma ObjectKeySegments(dir: string, name: string)
    requires '/' !in dir && '/' !in name
    ensures Split(ObjectKey(dir, name), '/') == [dir, name]
  {
    SplitAtFirst(dir, name, '/');
  }

  /** A key under a plain directory, ending in a non-space, comma-free name, is plain. */
  lemma ObjectKeyPlain(dir: string, name: string)
    requires Plain(dir) && name != [] && ',' !in name && !IsSpace(name[|name| - 1])
    ensures Plain(ObjectKey(dir, name))
  {
    var key := ObjectKey(dir, name);
    assert key[0] == dir[0] && key[|key| - 1] == name[|name| - 1];
    assert forall i | 0 <= i < |key| :: key[i] != ',' by {
      forall i | 0 <= i < |key| ensures key[i] != ',' {
        if i < |dir| { assert key[i] == dir[i]; }
        else if i > |dir| { assert key[i] == name[i - |dir| - 1]; }
      }
    }
  }

  /** An mp4 asset name: base64url characters then ".mp4", so no '/' and no ','. */
  lemma Mp4AssetName(random: seq<Base64.byte>)
    ensures var name := GetAssetPath(random, AcceptedMediaType);
      && |name| >= 4 && name[|name| - 4..] == ".mp4" && name[|name| - 1] == '4'
      && ',' !in name && '/' !in name
      && (|random| == 32 ==> |name| == 47)
  {
    var name := GetAssetPath(random, AcceptedMediaType);
    MediaTypeToExtOfMp4();
    var n := |name| - 4;
    Base64.NotInUrlChars(name[..n], ',');
    assert name == name[..n] + ".mp4";
  }

  /** A directory name is a plain, slash-free path segment. */
  lemma DirectoryPlain(aspect: string)
    ensures '/' !in Directory(aspect) && Plain(Directory(aspect))
  {
    var dir := Directory(aspect);
    assert forall i | 0 <= i < |dir| :: 'a' <= dir[i] <= 'z';
    assert !IsSpace(dir[0]) && !IsSpace(dir[|dir| - 1]);
  }

  /**
   * An upload key has two path segments, the orientation directory and the asset
   * name, and is a plain reference half: no comma and no white space at its ends.
   */
  lemma UploadKeyShape(stream: Stream, random: seq<Base64.byte>)
    ensures var dir := Directory(RatioLabel(stream.width, stream.height));
      && Split(UploadKey(stream, random), '/') == [dir, GetAssetPath(random, AcceptedMediaType)]
      && (dir == "landscape" || dir == "portrait" || dir == "other")
    ensures Plain(UploadKey(stream, random))
    ensures |random| == 32 ==> |UploadKey(stream, random)| == |Directory(RatioLabel(stream.width, stream.height))| + 1 + 47
  {
    var aspect := RatioLabel(stream.width, stream.height);
    var dir := Directory(aspect);
    assert UploadKey(stream, random) == ObjectKey(dir, GetAssetPath(random, AcceptedMediaType));
    DirectoryPlain(aspect);
    AssetKeySegments(dir, random);
    AssetKeyPlain(dir, random);
  }

  /** The key of an mp4 asset under a slash-free directory splits into the two. */
  lemma AssetKeySegments(dir: string, random: seq<Base64.byte>)
    requires '/' !in dir
    ensures var name := GetAssetPath(random, AcceptedMediaType);
      && Split(ObjectKey(dir, name), '/') == [dir, name]
      && (|random| == 32 ==> |ObjectKey(dir, name)| == |dir| + 1 + 47)
  {
    Mp4AssetName(random);
    ObjectKeySegments(dir, GetAssetPath(random, AcceptedMediaType));
  }

  /** The key of an mp4 asset under a plain directory is plain. */
  lemma AssetKeyPlain(dir: string, random: seq<Base64.byte>)
    requires Plain(dir)
    ensures Plain(ObjectKey(dir, GetAssetPath(random, AcceptedMediaType)))
  {
    var name := GetAssetPath(random, AcceptedMediaType);
    Mp4AssetName(random);
    assert name != [] && !IsSpace(name[|name| - 1]);
    ObjectKeyPlain(dir, name);
  }

  /** Lines 29-50: a bearer token, a valid JWT, a stored video, owned by the caller. */
  function AuthorizeStage(cfg: Config, db: map<Uuid, Video>, steps: Steps, videoID: Uuid): (stop: Option<Stage>)
    ensures stop.None? ==> videoID in db
  {
    if steps.bearer.None? then Some(MissingToken)
    else if steps.validateJWT(steps.bearer.value, cfg.jwtSecret).None? then Some(InvalidToken)
    else if videoID !in db then Some(LookupFailed)
    else if db[videoID].userID != steps.validateJWT(steps.bearer.value, cfg.jwtSecret).value then Some(NotOwner)
    else None
  }

  /** Lines 52-89: a form file within the size ceiling, of type video/mp4, saved to a temp file. */
  function ReceiveStage(steps: Steps): (stop: Option<Stage>)
    ensures stop.None? ==> steps.tempFile.Some?
  {
    if steps.bodySize > UploadLimit || !steps.formFileOk then Some(FormFailed)
    else if steps.mediaType.None? then Some(BadContentType)
    else if steps.mediaType.value != AcceptedMediaType then Some(NotMp4)
    else if steps.tempFile.None? then Some(TempFailed)
    else if !steps.copyOk then Some(CopyFailed)
    else if !steps.seekOk then Some(SeekFailed)
    else None
  }

  /** Lines 91-105: a probe with a first stream, and random bytes for the name. */
  function KeyStage(steps: Steps): (stop: Option<Stage>)
    ensures stop.None? ==> steps.probe.ProbeJson? && |steps.probe.streams| > 0 && steps.random.Some?
  {
    if !steps.probe.ProbeJson? then Some(AspectFailed)
    else if steps.probe.streams == [] then Some(NoStreamPanic)
    else if steps.random.None? then Some(RandomPanic)
    else None
  }

  /** Lines 107-145: remux, upload under `key`, record the reference and sign it. */
  function StoreStage(cfg: Config, video: Video, steps: Steps, key: string): Stage
  {
    if !steps.remux.Wrote? || steps.remux.size == 0 then FastStartFailed
    else if !steps.openOk then OpenFailed
    else if !steps.putOk then PutFailed
    else if !steps.updateOk then UpdateFailed
    else if DbVideoToSignedVideo(video.(videoURL := Some(Serialize(cfg.s3Bucket, key))), steps.presign).Failure? then SignFailed
    else Done
  }

  /** Once the remux, the upload and the update succeed, the record has been updated, whatever the key. */
  lemma StoreStageUpdated(cfg: Config, video: Video, steps: Steps, key: string)
    requires steps.remux.Wrote? && steps.remux.size > 0 && steps.openOk && steps.putOk && steps.updateOk
    ensures StoreStage(cfg, video, steps, key).Updated()
  {
  }

  /** Lines 91-145: classify, name, remux, upload, record and sign. */
  function ProcessStage(cfg: Config, video: Video, steps: Steps): Stage
  {
    if KeyStage(steps).Some? then KeyStage(steps).value
    else StoreStage(cfg, video, steps, UploadKey(steps.probe.streams[0], steps.random.value))
  }

  /** The first step at which a request for `videoID` stops, in the handler's order. */
  function StageOf(cfg: Config, db: map<Uuid, Video>, steps: Steps, videoID: Uuid): Stage
  {
    if AuthorizeStage(cfg, db, steps, videoID).Some? then AuthorizeStage(cfg, db, steps, videoID).value
    else if ReceiveStage(steps).Some? then ReceiveStage(steps).value
    else ProcessStage(cfg, db[videoID], steps)
  }

  /** The statuses, the panic and which effects happened, for a request stopping at `stage`. */
  ghost predicate Effects(out: Outcome, stage: Stage)
  {
    && out.statuses == Writes(stage)
    && out.panicked == StatusOf(stage).None?
    && (out.stored.Some? <==> stage.Stored())
    && (out.updated.Some? <==> stage.Updated())
    && (out.body.Some? <==> stage.Done?)
  }

  /**
   * What the effects hold: the object stored under the upload key from the
   * remuxed file, the record of `video` pointing at it, the body its signed copy.
   */
  ghost predicate Contents(out: Outcome, stage: Stage, cfg: Config, steps: Steps, video: Video)
  {
    stage.Stored() ==>
      && steps.tempFile.Some? && steps.random.Some? && steps.probe.ProbeJson? && |steps.probe.streams| > 0
      && out.stored.Some?
      && var key := UploadKey(steps.probe.streams[0], steps.random.value);
      && out.stored.value == StoredObject(cfg.s3Bucket, key, AcceptedMediaType, FastStartPath(steps.tempFile.value))
      && (stage.Updated() ==> out.updated == Some(video.(videoURL := Some(Serialize(cfg.s3Bucket, key)))))
      && (stage.Done? ==>
            && out.updated.Some? && out.body.Some?
            && DbVideoToSignedVideo(out.updated.value, steps.presign) == Success(out.body.value))
  }

  /** Everything a request for `videoID` does, by the stage it stops at. */
  ghost predicate Conforms(out: Outcome, cfg: Config, db: map<Uuid, Video>, steps: Steps, videoID: Uuid)
  {
    var stage := StageOf(cfg, db, steps, videoID);
    && Effects(out, stage)
    && (stage.Stored() ==> videoID in db && Contents(out, stage, cfg, steps, db[videoID]))
  }

  /** A request stopped before anything was stored: only its status, or its panic. */
  function Stopped(stage: Stage): (out: Outcome)
    requires !stage.Stored()
    ensures Effects(out, stage)
  {
    Outcome(Writes(stage), StatusOf(stage).None?, None, None, None)
  }

  /** Lines 29-50: look up the video and check that the caller owns it. */
  method Authorize(cfg: Config, db: map<Uuid, Video>, steps: Steps, videoID: Uuid) returns (r: Result<Video, Stage>)
    ensures r.Failure? <==> AuthorizeStage(cfg, db, steps, videoID).Some?
    ensures r.Failure? ==> r.error == AuthorizeStage(cfg, db, steps, videoID).value && !r.error.Stored()
    ensures r.Success? ==> videoID in db && r.value == db[videoID]
  {
    if steps.bearer.None? {
      return Failure(MissingToken);
    }
    var token := steps.bearer.value;
    var userID := steps.validateJWT(token, cfg.jwtSecret);
    if userID.None? {
      return Failure(InvalidToken);
    }
    if videoID !in db {
      return Failure(LookupFailed);
    }
    var video := db[videoID];
    if video.userID != userID.value {
      return Failure(NotOwner);
    }
    return Success(video);
  }

  /** Lines 52-89: take the form file, check its media type, copy it to a temp file. */
  method Receive(steps: Steps) returns (r: Result<string, Stage>)
    ensures r.Failure? <==> ReceiveStage(steps).Some?
    ensures r.Failure? ==> r.error == ReceiveStage(steps).value && !r.error.Stored()
    ensures r.Success? ==> steps.tempFile == Some(r.value) && steps.mediaType == Some(AcceptedMediaType)
  {
    // r.FormFile reads the whole multipart body through the MaxBytesReader
    if steps.bodySize > UploadLimit || !steps.formFileOk {
      return Failure(FormFailed);
    }
    if steps.mediaType.None? {
      return Failure(BadContentType);
    }
    var mediaType := steps.mediaType.value;
    if mediaType != AcceptedMediaType {
      return Failure(NotMp4);
    }
    if steps.tempFile.None? {
      return Failure(TempFailed);
    }
    var tempName := steps.tempFile.value;
    if !steps.copyOk {
      return Failure(CopyFailed);
    }
    if !steps.seekOk {
      return Failure(SeekFailed);
    }
    return Success(tempName);
  }

  /** Lines 91-105: classify the temp file and name the object after its orientation. */
  method BuildKey(steps: Steps, mediaType: string) returns (r: Result<string, Stage>)
    requires mediaType == AcceptedMediaType
    ensures r.Failure? <==> KeyStage(steps).Some?
    ensures r.Failure? ==> r.error == KeyStage(steps).value && !r.error.Stored()
    ensures r.Success? ==> r.value == UploadKey(steps.probe.streams[0], steps.random.value)
  {
    var directory: string;
    var aspectRatio := GetVideoAspectRatio(steps.probe);
    if aspectRatio.Failure? {
      if aspectRatio.error == AspectError.NoStreams {
        return Failure(NoStreamPanic);
      }
      return Failure(AspectFailed);
    }
    if aspectRatio.value == "16:9" {
      directory := "landscape";
    } else if aspectRatio.value == "9:16" {
      directory := "portrait";
    } else {
      directory := "other";
    }
    if steps.random.None? {
      return Failure(RandomPanic);
    }
    var key := GetAssetPath(steps.random.value, mediaType);
    key := ObjectKey(directory, key);
    return Success(key);
  }

  /**
   * Lines 107-145: remux the temp file, upload it under `key`, point the record
   * at the object and answer with its signed copy.
   */
  method Store(cfg: Config, video: Video, steps: Steps, tempName: string, key: string) returns (out: Outcome)
    requires steps.tempFile == Some(tempName) && steps.mediaType == Some(AcceptedMediaType)
    ensures var stage := StoreStage(cfg, video, steps, key);
      && Effects(out, stage)
      && (stage.Stored() ==>
            && out.stored == Some(StoredObject(cfg.s3Bucket, key, AcceptedMediaType, FastStartPath(tempName)))
            && (stage.Updated() ==> out.updated == Some(video.(videoURL := Some(Serialize(cfg.s3Bucket, key)))))
            && (stage.Done? ==>
                  && out.updated.Some? && out.body.Some?
                  && DbVideoToSignedVideo(out.updated.value, steps.presign) == Success(out.body.value)))
    ensures out.stored.Some? ==> steps.putOk
    ensures out.updated.Some? ==> steps.updateOk
  {
    var mediaType := steps.mediaType.value;
    var processed := ProcessVideoForFastStart(tempName, steps.remux);
    if processed.Failure? {
      return Stopped(FastStartFailed);
    }
    if !steps.openOk {
      return Stopped(OpenFailed);
    }
    if !steps.putOk {
      return Stopped(PutFailed);
    }
    out := Outcome([], false, Some(StoredObject(cfg.s3Bucket, key, mediaType, processed.value)), None, None);
    var objectURL := Serialize(cfg.s3Bucket, key);
    var updated := video.(videoURL := Some(objectURL));
    if !steps.updateOk {
      out := out.(statuses := [StatusInternalServerError]);
      return;
    }
    out := out.(updated := Some(updated));
    var presigned := DbVideoToSignedVideo(updated, steps.presign);
    if presigned.Failure? {
      out := out.(statuses := [StatusInternalServerError]);
      return;
    }
    out := out.(statuses := [StatusOK], body := Some(presigned.value));
  }

  /**
   * Lines 29-145 of the handler for the video ID it ended up with: each phase
   * either stops the request with its status, or hands its result on.
   */
  method AuthorizeAndUpload(cfg: Config, db: map<Uuid, Video>, steps: Steps, videoID: Uuid) returns (out: Outcome)
    ensures Conforms(out, cfg, db, steps, videoID)
    ensures out.stored.Some? ==>
      && steps.bearer.Some?
      && var user := steps.validateJWT(steps.bearer.value, cfg.jwtSecret);
      && user.Some? && videoID in db && db[videoID].userID == user.value
      && steps.bodySize <= UploadLimit && steps.mediaType == Some(AcceptedMediaType)
      && steps.putOk
    ensures out.updated.Some? ==> out.stored.Some? && steps.updateOk
  {
    var video := Authorize(cfg, db, steps, videoID);
    if video.Failure? {
      out := Stopped(video.error);
      return;
    }
    var tempName := Receive(steps);
    if tempName.Failure? {
      out := Stopped(tempName.error);
      return;
    }
    var key := BuildKey(steps, steps.mediaType.value);
    if key.Failure? {
      out := Stopped(key.error);
      return;
    }
    out := Store(cfg, video.value, steps, tempName.value, key.value);
  }

  /**
   * `handlerUploadVideo` as written: a malformed video ID writes 400 but does
   * not return, so the request goes on with whatever ID `uuid.Parse` produced.
   */
  method HandleUpload(cfg: Config, db: map<Uuid, Video>, steps: Steps) returns (out: Outcome)
    ensures steps.videoIDOk ==> Conforms(out, cfg, db, steps, steps.videoID)
    ensures !steps.videoIDOk ==>
      && |out.statuses| >= 1 && out.statuses[0] == StatusBadRequest
      && Conforms(out.(statuses := out.statuses[1..]), cfg, db, steps, steps.videoID)
  {
    var written: seq<int> := [];
    if !steps.videoIDOk {
      written := [StatusBadRequest];
    }
    out := AuthorizeAndUpload(cfg, db, steps, steps.videoID);
    out := out.(statuses := written + out.statuses);
    assert !steps.videoIDOk ==> out.statuses[1..] == Writes(StageOf(cfg, db, steps, steps.videoID));
  }

  /** The handler with the missing `return`: a malformed ID ends the request at 400. */
  method HandleUploadFixed(cfg: Config, db: map<Uuid, Video>, steps: Steps) returns (out: Outcome)
    ensures steps.videoIDOk ==> Conforms(out, cfg, db, steps, steps.videoID)
    ensures !steps.videoIDOk ==> out == Outcome([StatusBadRequest], false, None, None, None)
    ensures out.Status().Some? ==> out.Status().value in {StatusOK, StatusBadRequest, StatusUnauthorized, StatusInternalServerError}
    ensures out.stored.Some? ==> steps.videoIDOk
  {
    if !steps.videoIDOk {
      out := Outcome([StatusBadRequest], false, None, None, None);
      return;
    }
    out := AuthorizeAndUpload(cfg, db, steps, steps.videoID);
  }

  /**
   * A record that reaches the database carries a reference that parses back to
   * the configured bucket and the upload key, whenever the bucket name is plain.
   */
  lemma StoredReferenceParses(cfg: Config, db: map<Uuid, Video>, steps: Steps, videoID: Uuid)
    requires Plain(cfg.s3Bucket)
    requires StageOf(cfg, db, steps, videoID).Updated()
    ensures steps.random.Some? && steps.probe.ProbeJson? && |steps.probe.streams| > 0
    ensures var key := UploadKey(steps.probe.streams[0], steps.random.value);
      ParseReference(Serialize(cfg.s3Bucket, key)) == Success((cfg.s3Bucket, key))
  {
    var key := UploadKey(steps.probe.streams[0], steps.random.value);
    UploadKeyShape(steps.probe.streams[0], steps.random.value);
    ParseSerialize(cfg.s3Bucket, key);
  }

  /**
   * With a plain bucket name, a request that updated the record fails afterwards
   * only if the presign call fails for that bucket, that key and fifteen minutes.
   */
  lemma SignFailsOnlyInPresign(cfg: Config, db: map<Uuid, Video>, steps: Steps, videoID: Uuid)
    requires Plain(cfg.s3Bucket)
    requires StageOf(cfg, db, steps, videoID).Updated()
    ensures steps.random.Some? && steps.probe.ProbeJson? && |steps.probe.streams| > 0
    ensures StageOf(cfg, db, steps, videoID) == SignFailed <==>
      steps.presign(cfg.s3Bucket, UploadKey(steps.probe.streams[0], steps.random.value), SignedURLTTL).None?
  {
    var key := UploadKey(steps.probe.streams[0], steps.random.value);
    assert StageOf(cfg, db, steps, videoID) == StoreStage(cfg, db[videoID], steps, key);
    UploadKeyShape(steps.probe.streams[0], steps.random.value);
    StoreSignFails(cfg, db[videoID], steps, key);
  }

  /** `SignFailsOnlyInPresign` for the store phase alone, at any plain key. */
  lemma StoreSignFails(cfg: Config, video: Video, steps: Steps, key: string)
    requires Plain(cfg.s3Bucket) && Plain(key)
    requires StoreStage(cfg, video, steps, key).Updated()
    ensures StoreStage(cfg, video, steps, key) == SignFailed <==> steps.presign(cfg.s3Bucket, key, SignedURLTTL).None?
  {
    SignWrittenReference(video, cfg.s3Bucket, key, steps.presign);
  }

  /**
   * The as-written handler on a request with a malformed ID and no bearer token:
   * it writes 400 and then 401, two error bodies in one response.
   */
  method BadIdWithoutToken() returns (out: Outcome)
    ensures out.statuses == [StatusBadRequest, StatusUnauthorized]
    ensures out.Status() == Some(StatusBadRequest)
  {
    var steps := Steps(NilUuid, false, None, (t, s) => None, 0, true, None, None, true, true,
                       ProbeExitError, None, FfmpegFailed, true, true, true, (b, k, d) => None);
    out := HandleUpload(Config("bucket", "secret"), map[], steps);
  }

  /**
   * The as-written handler on a malformed ID that parses to the ID of a video the
   * caller owns: the client is told 400, yet the object is stored and the record
   * is updated.
   */
  method BadIdStillUploads() returns (out: Outcome)
    ensures out.Status() == Some(StatusBadRequest)
    ensures out.stored.Some? && out.updated.Some?
  {
    var owner: Uuid := 7;
    var video := Video(NilUuid, 0, 0, None, None, "title", "", owner);
    var steps := Steps(NilUuid, false, Some("token"), (t, s) => Some(owner), 10, true, Some(AcceptedMediaType),
                       Some("/tmp/upload"), true, true, ProbeJson([Stream(1920, 1080)]), Some(seq(32, _ => 0)),
                       Wrote(10), true, true, true, (b, k, d) => Some("signed"));
    var cfg := Config("bucket", "secret");
    var db := map[NilUuid := video];
    assert AuthorizeStage(cfg, db, steps, NilUuid).None?;
    assert ReceiveStage(steps).None? && KeyStage(steps).None?;
    StoreStageUpdated(cfg, video, steps, UploadKey(Stream(1920, 1080), steps.random.value));
    assert StageOf(cfg, db, steps, NilUuid).Updated();
    out := HandleUpload(cfg, db, steps);
  }
}
