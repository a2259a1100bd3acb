/** `handlerUploadVideo`: the gates before the upload, staging the request
    body in a temporary file, probing and remuxing it, deriving the storage
    key from the orientation, the S3 upload and the record update, with the
    `defer` stack that releases every file on every return. Each external
    step is represented by its outcome. */
module UploadVideo {
  import opened Wrappers
  import opened Text
  import opened GoPath
  import opened Base64Url
  import opened Assets
  import opened Host

  /** What `ffmpeg` did: produced the remuxed file, or failed, possibly
      after writing part of its output file. */
  datatype RemuxOutcome = Remuxed | RemuxFailed(leftOutput: bool)

  /** The outcome of every step the handler delegates, in the order the
      handler takes them. */
  datatype VideoSteps = VideoSteps(
    idParsed: bool,             // uuid.Parse of the "videoID" path value
    tokenFound: bool,           // auth.GetBearerToken
    jwtUser: Option<string>,    // auth.ValidateJWT: the caller's user ID
    fetched: Option<Video>,     // cfg.db.GetVideo
    formFile: bool,             // r.FormFile("video")
    mediaType: Option<string>,  // mime.ParseMediaType of the part's Content-Type
    tempFile: Option<string>,   // os.CreateTemp: the name of the new file
    copied: bool,               // io.Copy into the temporary file
    synced: bool,               // tempFile.Sync
    rewound: bool,              // tempFile.Seek(0, io.SeekStart)
    probe: ProbeOutcome,        // ffprobe and the decoding of its output
    remux: RemuxOutcome,        // ffmpeg
    reopened: bool,             // os.Open of the processed file
    randomBytes: seq<Byte>,     // the 32 bytes crypto/rand yields
    putSucceeded: bool,         // s3Client.PutObject
    updateSucceeded: bool)      // cfg.db.UpdateVideo

  /** Where the handler returns. */
  datatype Exit =
    | InvalidId | NoToken | BadToken | VideoNotFound | NotOwner
    | NoFormFile | BadContentType | NotMp4
    | TempFileFailed | CopyFailed | SyncFailed | SeekFailed
    | AspectRatioFailed | FastStartFailed | OpenProcessedFailed
    | UploadFailed | UpdateFailed | Uploaded

  /** Position of an exit in the handler: a later exit passed every gate of
      an earlier one. */
  function Stage(e: Exit): nat
  {
    match e
    case InvalidId => 0
    case NoToken => 1
    case BadToken => 2
    case VideoNotFound => 3
    case NotOwner => 4
    case NoFormFile => 5
    case BadContentType => 6
    case NotMp4 => 7
    case TempFileFailed => 8
    case CopyFailed => 9
    case SyncFailed => 10
    case SeekFailed => 11
    case AspectRatioFailed => 12
    case FastStartFailed => 13
    case OpenProcessedFailed => 14
    case UploadFailed => 15
    case UpdateFailed => 16
    case Uploaded => 17
  }

  /** The HTTP status the handler responds with at each exit. */
  function Status(e: Exit): (code: int)
    ensures code == 200 <==> e == Uploaded
    ensures code == 400 <==> e in {InvalidId, NoFormFile, BadContentType, NotMp4}
    ensures code == 401 <==> e in {NoToken, BadToken, NotOwner}
    ensures code == 500 <==> 8 <= Stage(e) <= 16 || e == VideoNotFound
  {
    match e
    case InvalidId | NoFormFile | BadContentType | NotMp4 => 400
    case NoToken | BadToken | NotOwner => 401
    case Uploaded => 200
    case _ => 500
  }

  /** The first gate that fails, or `Uploaded` when none does. The chain
      is cut where the handler's phases begin: admission (lines 24-61),
      staging (lines 63-97), processing (lines 99-118) and publishing
      (lines 120-149). */
  function VideoExit(s: VideoSteps): (e: Exit)
    ensures e == Uploaded <==> ReachedPut(s) && s.putSucceeded && s.updateSucceeded
    ensures Stage(e) <= Stage(NoFormFile) <==> AdmissionExit(s).Some?
  {
    var rejected := AdmissionExit(s);
    if rejected.Some? then rejected.value else StagingExit(s)
  }

  /** Lines 24-60: the exits before anything is opened. */
  function AdmissionExit(s: VideoSteps): Option<Exit>
  {
    if !s.idParsed then Some(InvalidId)
    else if !s.tokenFound then Some(NoToken)
    else if s.jwtUser.None? then Some(BadToken)
    else if s.fetched.None? then Some(VideoNotFound)
    else if s.fetched.value.userID != s.jwtUser.value then Some(NotOwner)
    else if !s.formFile then Some(NoFormFile)
    else None
  }

  function StagingExit(s: VideoSteps): Exit
  {
    if s.mediaType.None? then BadContentType
    else if s.mediaType.value != "video/mp4" then NotMp4
    else if s.tempFile.None? then TempFileFailed
    else if !s.copied then CopyFailed
    else if !s.synced then SyncFailed
    else if !s.rewound then SeekFailed
    else ProcessingExit(s)
  }

  function ProcessingExit(s: VideoSteps): Exit
  {
    if VideoAspectRatio(s.probe).Err? then AspectRatioFailed
    else if !s.remux.Remuxed? then FastStartFailed
    else if !s.reopened then OpenProcessedFailed
    else PublishingExit(s)
  }

  function PublishingExit(s: VideoSteps): Exit
  {
    if !s.putSucceeded then UploadFailed
    else if !s.updateSucceeded then UpdateFailed
    else Uploaded
  }

  /** The temporary file exists: the handler got past `os.CreateTemp`. */
  predicate Staged(s: VideoSteps)
  {
    AdmissionExit(s).None? && s.mediaType.Some? && s.mediaType.value == "video/mp4" && s.tempFile.Some?
  }

  /** The body is in the temporary file, flushed and rewound. */
  predicate Filled(s: VideoSteps)
  {
    Staged(s) && s.copied && s.synced && s.rewound
  }

  /** The remuxed file exists: the handler got past `ffmpeg`. */
  predicate Processed(s: VideoSteps)
  {
    Filled(s) && VideoAspectRatio(s.probe).Ok? && s.remux.Remuxed?
  }

  /** The handler reached the upload. */
  predicate ReachedPut(s: VideoSteps)
  {
    Processed(s) && s.reopened
  }

  /** A failed `ffmpeg` wrote part of its output file. */
  predicate LeftPartialOutput(s: VideoSteps)
  {
    Filled(s) && VideoAspectRatio(s.probe).Ok? && s.remux == RemuxFailed(true)
  }

  /** The predicates above are the exits past `os.CreateTemp`, past the
      rewind, past `ffmpeg` and past the reopening of its output. */
  lemma PhasesAreStages(s: VideoSteps)
    ensures Staged(s) <==> Stage(VideoExit(s)) > Stage(TempFileFailed)
    ensures Filled(s) <==> Stage(VideoExit(s)) > Stage(SeekFailed)
    ensures Processed(s) <==> Stage(VideoExit(s)) > Stage(FastStartFailed)
    ensures ReachedPut(s) <==> Stage(VideoExit(s)) > Stage(OpenProcessedFailed)
    ensures LeftPartialOutput(s) <==> VideoExit(s) == FastStartFailed && s.remux.leftOutput
  {
  }

  /** The orientation label of lines 120-125. */
  function OrientationLabel(aspectRatio: string): (orientation: string)
    ensures orientation == "landscape" || orientation == "portrait" || orientation == "other"
    ensures orientation == "landscape" <==> aspectRatio == "16:9"
    ensures orientation == "portrait" <==> aspectRatio == "9:16"
  {
    if aspectRatio == "16:9" then "landscape"
    else if aspectRatio == "9:16" then "portrait"
    else "other"
  }

  /** Lines 120-127: the orientation label, then the key made of the
      directory part of a fresh asset path, the label, a slash and the file
      part. An asset path never holds a slash, so for the one media type
      that gets this far the key is the label, a slash, the base64url name
      and ".mp4". */
  method DeriveKey(aspectRatio: string, randomBytes: seq<Byte>, mediaType: string) returns (key: string)
    requires |randomBytes| == 32
    ensures mediaType == "video/mp4" ==>
              key == OrientationLabel(aspectRatio) + "/" + (Encode(randomBytes) + ".mp4")
  {
    var orientation := OrientationLabel(aspectRatio);
    var assetPath := AssetPath(randomBytes, mediaType);
    var parts := PathSplit(assetPath);
    key := parts.0 + orientation + "/" + parts.1;
    PathSplitNoSlash(assetPath);
    assert parts == ("", assetPath);
    assert parts.0 + orientation == orientation;
    if mediaType == "video/mp4" {
      Mp4AssetPath(randomBytes);
      assert assetPath == Encode(randomBytes) + ".mp4";
    }
  }

  /** The key under which a run that reached the upload stores the video:
      `<orientation>/<base64url of the random bytes>.mp4`. */
  function UploadKey(s: VideoSteps): (key: string)
    requires ReachedPut(s)
    ensures var orientation := OrientationLabel(VideoAspectRatio(s.probe).value);
      |key| > |orientation| + 4 && key[..|orientation| + 1] == orientation + "/" && key[|key| - 4..] == ".mp4"
  {
    OrientationLabel(VideoAspectRatio(s.probe).value) + "/" + (Encode(s.randomBytes) + ".mp4")
  }

  /** The record as written back: only its video URL changes. */
  function UpdatedVideo(cfg: ApiConfig, s: VideoSteps): (v: Video)
    requires ReachedPut(s)
    ensures var before := s.fetched.value;
      v.id == before.id && v.userID == before.userID && v.thumbnailURL == before.thumbnailURL
    ensures v.videoURL.Some? && cfg.ObjectKey(v.videoURL.value) == Some(UploadKey(s))
  {
    ObjectURLShape(cfg, UploadKey(s));
    s.fetched.value.(videoURL := Some(cfg.ObjectURL(UploadKey(s))))
  }

  /** The S3 and database calls of a run, in order. */
  function Requests(cfg: ApiConfig, s: VideoSteps): (calls: seq<Call>)
    ensures |calls| <= 2 && (calls != [] <==> ReachedPut(s))
    ensures calls != [] ==> calls[0].PutObject? && calls[0].input.contentType == "video/mp4"
                            && calls[0].input.body == ProcessedPath(s.tempFile.value)
    ensures |calls| == 2 ==> s.putSucceeded && calls[1].UpdateVideo?
  {
    if !ReachedPut(s) then []
    else
      var put := PutObject(PutObjectInput(cfg.s3Bucket, UploadKey(s),
                                          ProcessedPath(s.tempFile.value), s.mediaType.value));
      if !s.putSucceeded then [put] else [put, UpdateVideo(UpdatedVideo(cfg, s))]
  }

  /** The `defer` stack at the handler's return, oldest entry first. */
  function DeferStack(s: VideoSteps): (stack: seq<Deferred>)
    ensures stack == [] <==> AdmissionExit(s).Some?
    ensures stack != [] ==> stack[0] == Close(FormPart)
    ensures forall k :: 0 <= k < |stack| && stack[k].Close? && stack[k].handle.DiskFile? ==>
              0 < k && stack[k - 1] == Remove(stack[k].handle.path)
  {
    if AdmissionExit(s).Some? then []
    else if !Staged(s) then [Close(FormPart)]
    else
      var t := s.tempFile.value;
      if !Processed(s) then [Close(FormPart), Remove(t), Close(DiskFile(t))]
      else if !ReachedPut(s) then [Close(FormPart), Remove(t), Close(DiskFile(t)), Remove(ProcessedPath(t))]
      else
        [Close(FormPart), Remove(t), Close(DiskFile(t)), Remove(ProcessedPath(t)),
         Close(DiskFile(ProcessedPath(t)))]
  }

  /** The files on disk after a run that started with `disk0`: the
      temporary file is gone once created, the remuxed file is gone once
      remuxing succeeded, and a failed `ffmpeg` that wrote part of its
      output leaves that output behind. */
  function DiskAfter(disk0: set<string>, s: VideoSteps): (disk: set<string>)
    ensures !Staged(s) ==> disk == disk0
    ensures Staged(s) ==> s.tempFile.value !in disk
    ensures disk - disk0 <= CreatedFiles(s)
  {
    if !Staged(s) then disk0
    else
      var t := s.tempFile.value;
      if Processed(s) then disk0 - {t, ProcessedPath(t)}
      else if LeftPartialOutput(s) then disk0 - {t} + {ProcessedPath(t)}
      else disk0 - {t}
  }

  /** The files the handler itself creates: the temporary file once
      `os.CreateTemp` succeeded, and whatever `ffmpeg` wrote. */
  function CreatedFiles(s: VideoSteps): (created: set<string>)
    ensures created == {} <==> !Staged(s)
    ensures Staged(s) ==> s.tempFile.value in created
                          && created - {s.tempFile.value} <= {ProcessedPath(s.tempFile.value)}
  {
    if !Staged(s) then {}
    else
      var t := s.tempFile.value;
      if Processed(s) || LeftPartialOutput(s)
      then {t, ProcessedPath(t)} else {t}
  }

  /** The files the deferred `os.Remove` calls delete: the temporary file
      once it exists, the remuxed file once `ffmpeg` succeeded. */
  lemma RemovedByStack(s: VideoSteps)
    ensures RemovedBy(DeferStack(s)) ==
            (if Staged(s) then {s.tempFile.value} else {})
            + (if Processed(s) then {ProcessedPath(s.tempFile.value)} else {})
  {
    var stack := DeferStack(s);
    var expected := (if Staged(s) then {s.tempFile.value} else {})
                    + (if Processed(s) then {ProcessedPath(s.tempFile.value)} else {});
    forall p | p in expected ensures p in RemovedBy(stack) {
      if p == s.tempFile.value && Staged(s) {
        assert stack[1] == Remove(p);
      } else {
        assert stack[3] == Remove(p);
      }
    }
  }

  /** The disk after a run is what the handler created added to the
      starting disk, less what the deferred calls removed. */
  lemma DiskAfterUnwind(disk0: set<string>, s: VideoSteps)
    ensures DiskAfter(disk0, s) == disk0 + CreatedFiles(s) - RemovedBy(DeferStack(s))
  {
    RemovedByStack(s);
  }

  /** Lines 120-149, once the remuxed file is open: derive the key, upload
      the remuxed file, point the record at the object and respond with it. */
  method PublishVideo(cfg: ApiConfig, env: Environment, s: VideoSteps,
                      aspectRatio: string, mediaType: string, processedPath: string)
    returns (exit: Exit, response: Option<Video>)
    requires ReachedPut(s) && |s.randomBytes| == 32
    requires aspectRatio == VideoAspectRatio(s.probe).value && mediaType == s.mediaType.value
    requires processedPath == ProcessedPath(s.tempFile.value)
    modifies env
    ensures exit == VideoExit(s)
    ensures env.disk == old(env.disk)
    ensures env.calls == old(env.calls) + Requests(cfg, s)
    ensures response == if exit == Uploaded then Some(UpdatedVideo(cfg, s)) else None
  {
    var key := DeriveKey(aspectRatio, s.randomBytes, mediaType);
    env.Record(PutObject(PutObjectInput(cfg.s3Bucket, key, processedPath, mediaType)));
    if !s.putSucceeded {
      return UploadFailed, None;
    }
    var url := cfg.ObjectURL(key);
    var video := s.fetched.value.(videoURL := Some(url));
    env.Record(UpdateVideo(video));
    if !s.updateSucceeded {
      return UpdateFailed, None;
    }
    return Uploaded, Some(video);
  }

  /** A run that stops between the probe and the upload makes no S3 or
      database call; the `defer` stack holds the temporary file's entries
      and, once `ffmpeg` succeeded, the removal of its output. */
  lemma NotUploaded(cfg: ApiConfig, s: VideoSteps)
    requires Filled(s)
    requires VideoAspectRatio(s.probe).Err? || !s.remux.Remuxed? || !s.reopened
    ensures !ReachedPut(s) && Requests(cfg, s) == []
    ensures var t := s.tempFile.value;
      DeferStack(s) == [Close(FormPart), Remove(t), Close(DiskFile(t))]
                       + (if VideoExit(s) == OpenProcessedFailed then [Remove(ProcessedPath(t))] else [])
    ensures var t := s.tempFile.value;
      CreatedFiles(s) == if VideoExit(s) == AspectRatioFailed then {t}
                         else if s.remux.Remuxed? || s.remux.leftOutput then {t, ProcessedPath(t)}
                         else {t}
    ensures VideoExit(s) == if VideoAspectRatio(s.probe).Err? then AspectRatioFailed
                            else if !s.remux.Remuxed? then FastStartFailed
                            else OpenProcessedFailed
  {
  }

  /** Lines 113-118, once `ffmpeg` wrote `processedPath`: open it, then
      publish it. `pushed` is what this step adds to the `defer` stack. */
  method OpenProcessed(cfg: ApiConfig, env: Environment, s: VideoSteps,
                       aspectRatio: string, mediaType: string, processedPath: string)
    returns (exit: Exit, response: Option<Video>, pushed: seq<Deferred>)
    requires Processed(s) && |s.randomBytes| == 32
    requires aspectRatio == VideoAspectRatio(s.probe).value && mediaType == s.mediaType.value
    requires processedPath == ProcessedPath(s.tempFile.value)
    modifies env
    ensures exit == VideoExit(s)
    ensures [Close(FormPart), Remove(s.tempFile.value), Close(DiskFile(s.tempFile.value)),
             Remove(processedPath)] + pushed == DeferStack(s)
    ensures env.disk == old(env.disk)
    ensures env.calls == old(env.calls) + Requests(cfg, s)
    ensures response == if exit == Uploaded then Some(UpdatedVideo(cfg, s)) else None
  {
    if !s.reopened {
      NotUploaded(cfg, s);
      return OpenProcessedFailed, None, [];
    }
    pushed := [Close(DiskFile(processedPath))];
    exit, response := PublishVideo(cfg, env, s, aspectRatio, mediaType, processedPath);
  }

  /** Lines 99-111, once the body is staged in `tempName`: probe it and
      remux it. `pushed` is what this phase adds to the `defer` stack. */
  method ProcessVideo(cfg: ApiConfig, env: Environment, s: VideoSteps, mediaType: string, tempName: string)
    returns (exit: Exit, response: Option<Video>, pushed: seq<Deferred>)
    requires Filled(s) && |s.randomBytes| == 32
    requires mediaType == s.mediaType.value && tempName == s.tempFile.value
    modifies env
    ensures exit == VideoExit(s)
    ensures [Close(FormPart), Remove(tempName), Close(DiskFile(tempName))] + pushed == DeferStack(s)
    ensures env.disk == old(env.disk) + (CreatedFiles(s) - {tempName})
    ensures env.calls == old(env.calls) + Requests(cfg, s)
    ensures response == if exit == Uploaded then Some(UpdatedVideo(cfg, s)) else None
  {
    var aspectRatio := VideoAspectRatio(s.probe);
    if aspectRatio.Err? {
      NotUploaded(cfg, s);
      return AspectRatioFailed, None, [];
    }
    if s.remux.Remuxed? || s.remux.leftOutput {
      env.CreateFile(ProcessedPath(tempName));
    }
    var processed := ProcessVideoForFastStart(tempName, s.remux.Remuxed?);
    if processed.Err? {
      NotUploaded(cfg, s);
      return FastStartFailed, None, [];
    }
    var more;
    exit, response, more := OpenProcessed(cfg, env, s, aspectRatio.value, mediaType, processed.value);
    pushed := [Remove(processed.value)] + more;
  }

  /** A request turned away before the temporary file exists leaves only
      the form part to close. */
  lemma NotStaged(cfg: ApiConfig, s: VideoSteps)
    requires AdmissionExit(s).None?
    requires s.mediaType.None? || s.mediaType.value != "video/mp4" || s.tempFile.None?
    ensures !Staged(s)
    ensures DeferStack(s) == [Close(FormPart)] && CreatedFiles(s) == {} && Requests(cfg, s) == []
  {
  }

  /** A run that stops while staging the body leaves the temporary file's
      two entries on the `defer` stack and makes no S3 or database call. */
  lemma NotFilled(cfg: ApiConfig, s: VideoSteps)
    requires Staged(s)
    requires !s.copied || !s.synced || !s.rewound
    ensures VideoExit(s) == if !s.copied then CopyFailed else if !s.synced then SyncFailed else SeekFailed
    ensures var t := s.tempFile.value;
      DeferStack(s) == [Close(FormPart), Remove(t), Close(DiskFile(t))] && CreatedFiles(s) == {t}
    ensures Requests(cfg, s) == []
  {
  }

  /** Lines 83-97, once the temporary file `tempName` exists: copy the body
      into it, flush it and rewind it, then process it. */
  method FillTempFile(cfg: ApiConfig, env: Environment, s: VideoSteps, mediaType: string, tempName: string)
    returns (exit: Exit, response: Option<Video>, pushed: seq<Deferred>)
    requires Staged(s) && |s.randomBytes| == 32
    requires mediaType == s.mediaType.value && tempName == s.tempFile.value
    modifies env
    ensures exit == VideoExit(s)
    ensures [Close(FormPart), Remove(tempName), Close(DiskFile(tempName))] + pushed == DeferStack(s)
    ensures env.disk == old(env.disk) + (CreatedFiles(s) - {tempName})
    ensures env.calls == old(env.calls) + Requests(cfg, s)
    ensures response == if exit == Uploaded then Some(UpdatedVideo(cfg, s)) else None
  {
    if !s.copied {
      NotFilled(cfg, s);
      return CopyFailed, None, [];
    }
    if !s.synced {
      NotFilled(cfg, s);
      return SyncFailed, None, [];
    }
    if !s.rewound {
      NotFilled(cfg, s);
      return SeekFailed, None, [];
    }
    exit, response, pushed := ProcessVideo(cfg, env, s, mediaType, tempName);
  }

  /** Lines 63-81, once the request is admitted: check the media type and
      create the temporary file. */
  method StageVideo(cfg: ApiConfig, env: Environment, s: VideoSteps)
    returns (exit: Exit, response: Option<Video>, pushed: seq<Deferred>)
    requires AdmissionExit(s).None? && |s.randomBytes| == 32
    modifies env
    ensures exit == VideoExit(s)
    ensures [Close(FormPart)] + pushed == DeferStack(s)
    ensures env.disk == old(env.disk) + CreatedFiles(s)
    ensures env.calls == old(env.calls) + Requests(cfg, s)
    ensures response == if exit == Uploaded then Some(UpdatedVideo(cfg, s)) else None
  {
    if s.mediaType.None? {
      NotStaged(cfg, s);
      return BadContentType, None, [];
    }
    var mediaType := s.mediaType.value;
    if mediaType != "video/mp4" {
      NotStaged(cfg, s);
      return NotMp4, None, [];
    }
    if s.tempFile.None? {
      NotStaged(cfg, s);
      return TempFileFailed, None, [];
    }
    var tempName := s.tempFile.value;
    env.CreateFile(tempName);
    pushed := [Remove(tempName), Close(DiskFile(tempName))];
    var more;
    exit, response, more := FillTempFile(cfg, env, s, mediaType, tempName);
    pushed := pushed + more;
  }

  /** A request turned away at admission leaves no file, no request and no
      deferred call behind. */
  lemma NothingStaged(cfg: ApiConfig, disk0: set<string>, s: VideoSteps)
    requires AdmissionExit(s).Some?
    ensures DeferStack(s) == [] && Requests(cfg, s) == []
    ensures CreatedFiles(s) == {} && DiskAfter(disk0, s) == disk0
  {
  }

  /** `handlerUploadVideo`: the admission gates, then the phases above, then
      the deferred calls in reverse order of registration. */
  method HandleUploadVideo(cfg: ApiConfig, env: Environment, s: VideoSteps)
    returns (status: int, exit: Exit, response: Option<Video>)
    requires |s.randomBytes| == 32
    modifies env
    ensures exit == VideoExit(s) && status == Status(exit)
    ensures env.disk == DiskAfter(old(env.disk), s)
    ensures env.calls == old(env.calls) + Requests(cfg, s) + Unwound(DeferStack(s))
    ensures response == if exit == Uploaded then Some(UpdatedVideo(cfg, s)) else None
  {
    var deferred: seq<Deferred> := [];
    response := None;
    if !s.idParsed {
      exit := InvalidId;
    } else if !s.tokenFound {
      exit := NoToken;
    } else if s.jwtUser.None? {
      exit := BadToken;
    } else if s.fetched.None? {
      exit := VideoNotFound;
    } else if s.fetched.value.userID != s.jwtUser.value {
      exit := NotOwner;
    } else if !s.formFile {
      exit := NoFormFile;
    } else {
      deferred := [Close(FormPart)];
      var pushed;
      exit, response, pushed := StageVideo(cfg, env, s);
      deferred := deferred + pushed;
    }
    if deferred == [] {
      NothingStaged(cfg, old(env.disk), s);
    }
    status := Status(exit);
    assert deferred == DeferStack(s);
    assert env.disk == old(env.disk) + CreatedFiles(s);
    DiskAfterUnwind(old(env.disk), s);
    env.Unwind(deferred);
  }

  // ---------------------------------------------------------------------
  // Properties of a whole run
  // ---------------------------------------------------------------------

  /** A body that is not MP4 is refused with 400 before anything is written
      to disk, S3 or the database; only the form part is closed. */
  lemma NonMp4Rejected(cfg: ApiConfig, disk0: set<string>, s: VideoSteps)
    requires AdmissionExit(s).None? && s.mediaType.Some? && s.mediaType.value != "video/mp4"
    ensures VideoExit(s) == NotMp4 && Status(VideoExit(s)) == 400
    ensures DiskAfter(disk0, s) == disk0 && Requests(cfg, s) == []
    ensures Unwound(DeferStack(s)) == [Ran(Close(FormPart))]
  {
    NotStaged(cfg, s);
  }

  /** Ownership is settled before the form is read: a caller who does not
      own the video gets 401 whatever the body holds, and nothing was
      opened. */
  lemma OwnerBeforeForm(cfg: ApiConfig, disk0: set<string>, s: VideoSteps)
    requires s.idParsed && s.tokenFound && s.jwtUser.Some? && s.fetched.Some?
    requires s.fetched.value.userID != s.jwtUser.value
    ensures VideoExit(s) == NotOwner && Status(VideoExit(s)) == 401
    ensures DeferStack(s) == [] && DiskAfter(disk0, s) == disk0 && Requests(cfg, s) == []
  {
    NothingStaged(cfg, disk0, s);
  }

  /** The temporary file never outlives the request, nor does the remuxed
      file once `ffmpeg` succeeded; a failed `ffmpeg` that wrote part of its
      output is the one case that leaves a new file behind. */
  lemma NoStagingFileLeft(disk0: set<string>, s: VideoSteps)
    requires Staged(s)
    ensures s.tempFile.value !in DiskAfter(disk0, s)
    ensures Processed(s) ==> ProcessedPath(s.tempFile.value) !in DiskAfter(disk0, s)
    ensures ProcessedPath(s.tempFile.value) !in disk0 ==>
              (ProcessedPath(s.tempFile.value) in DiskAfter(disk0, s)
               <==> LeftPartialOutput(s))
    ensures DiskAfter(disk0, s) - disk0 <= {ProcessedPath(s.tempFile.value)}
  {
  }

  /** On return each file is closed before it is removed, the remuxed file
      first, and the form part last. */
  lemma ClosedBeforeRemoved(s: VideoSteps)
    requires Staged(s)
    ensures var calls := Unwound(DeferStack(s)); var n := |calls|; var t := s.tempFile.value;
      n >= 3 && calls[n - 3] == Ran(Close(DiskFile(t))) && calls[n - 2] == Ran(Remove(t))
      && calls[n - 1] == Ran(Close(FormPart))
    ensures var calls := Unwound(DeferStack(s)); var p := ProcessedPath(s.tempFile.value);
      ReachedPut(s) ==>
        calls[0] == Ran(Close(DiskFile(p))) && calls[1] == Ran(Remove(p))
  {
    var stack := DeferStack(s);
    var n := |stack|;
    assert 3 <= n <= 5;
    UnwoundLifo(stack, n - 3);
    UnwoundLifo(stack, n - 2);
    UnwoundLifo(stack, n - 1);
    if ReachedPut(s) {
      UnwoundLifo(stack, 0);
      UnwoundLifo(stack, 1);
    }
  }

  /** An encoded name holds no slash. */
  lemma NoSlashInName(b: seq<Byte>)
    ensures '/' !in Encode(b) + ".mp4"
  {
    var name := Encode(b) + ".mp4";
    forall k | 0 <= k < |name| ensures name[k] != '/' {
      if k < |Encode(b)| {
        assert IsUrlSafe(Encode(b)[k]);
      }
    }
  }

  /** An upload key is exactly two path elements: the orientation label and
      the asset name. */
  lemma UploadKeyShape(s: VideoSteps)
    requires ReachedPut(s)
    ensures Split(UploadKey(s), '/') ==
            [OrientationLabel(VideoAspectRatio(s.probe).value), Encode(s.randomBytes) + ".mp4"]
  {
    NoSlashInName(s.randomBytes);
    SplitAround(OrientationLabel(VideoAspectRatio(s.probe).value), Encode(s.randomBytes) + ".mp4", '/');
  }

  /** Two uploads share a key only if they drew the same random bytes. */
  lemma UploadKeyInjective(s1: VideoSteps, s2: VideoSteps)
    requires ReachedPut(s1) && ReachedPut(s2) && UploadKey(s1) == UploadKey(s2)
    ensures s1.randomBytes == s2.randomBytes
  {
    UploadKeyShape(s1);
    UploadKeyShape(s2);
    var n1 := Encode(s1.randomBytes);
    var n2 := Encode(s2.randomBytes);
    assert n1 + ".mp4" == n2 + ".mp4";
    assert n1 == (n1 + ".mp4")[..|n1|];
    assert n2 == (n2 + ".mp4")[..|n2|];
    EncodeInjective(s1.randomBytes, s2.randomBytes);
  }

  /** The upload streams the remuxed file, not the original body, with the
      content type "video/mp4"; the record is updated only after S3
      accepted the object. */
  lemma UploadRequests(cfg: ApiConfig, s: VideoSteps)
    requires ReachedPut(s)
    ensures var calls := Requests(cfg, s);
      1 <= |calls| <= 2
      && calls[0] == PutObject(PutObjectInput(cfg.s3Bucket, UploadKey(s),
                                             ProcessedPath(s.tempFile.value), "video/mp4"))
      && (|calls| == 2 <==> s.putSucceeded)
      && (|calls| == 2 ==> calls[1] == UpdateVideo(UpdatedVideo(cfg, s)))
  {
  }

  /** The update changes only the video URL, which names the uploaded
      object. */
  lemma UpdateSetsOnlyURL(cfg: ApiConfig, s: VideoSteps)
    requires ReachedPut(s)
    ensures var v := UpdatedVideo(cfg, s); var before := s.fetched.value;
      v.id == before.id && v.userID == before.userID && v.thumbnailURL == before.thumbnailURL
      && v.videoURL.Some? && cfg.ObjectKey(v.videoURL.value) == Some(UploadKey(s))
  {
    ObjectURLShape(cfg, UploadKey(s));
  }

  /** A 1920x1080 MP4 that passes every step ends as `landscape/<name>.mp4`. */
  lemma LandscapeUpload(cfg: ApiConfig, s: VideoSteps)
    requires AdmissionExit(s).None? && s.mediaType == Some("video/mp4") && s.tempFile.Some?
    requires s.copied && s.synced && s.rewound && s.remux.Remuxed? && s.reopened
    requires s.putSucceeded && s.updateSucceeded
    requires s.probe == Decoded([Stream(0, 1920, 1080)])
    ensures VideoExit(s) == Uploaded && Status(VideoExit(s)) == 200
    ensures UploadKey(s) == "landscape/" + (Encode(s.randomBytes) + ".mp4")
  {
    ClassifyExamples();
  }
}
