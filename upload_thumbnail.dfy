/** `handlerUploadThumbnail`: the gates before the upload, the media-type
    allow-list, the split of the media type into its subtype, the random
    file name and the local asset URL, writing the image under the assets
    root, removing the previous thumbnail's file and pointing the record at
    the new one. Each external step is represented by its outcome. */
module UploadThumbnail {
  import opened Wrappers
  import opened Text
  import opened GoPath
  import opened Base64Url
  import opened Assets
  import opened Host

  /** The outcome of every step the handler delegates, in the order the
      handler takes them. */
  datatype ThumbnailSteps = ThumbnailSteps(
    idParsed: bool,             // uuid.Parse of the "videoID" path value
    tokenFound: bool,           // auth.GetBearerToken
    jwtUser: Option<string>,    // auth.ValidateJWT: the caller's user ID
    formParsed: bool,           // r.ParseMultipartForm
    formFile: bool,             // r.FormFile("thumbnail")
    mediaType: Option<string>,  // mime.ParseMediaType of the part's Content-Type
    fetched: Option<Video>,     // cfg.db.GetVideo
    randomBytes: seq<Byte>,     // the 32 bytes crypto/rand yields
    created: bool,              // os.Create of the image file
    copied: bool,               // io.Copy into it
    updateSucceeded: bool)      // cfg.db.UpdateVideo

  /** Where the handler returns. */
  datatype Exit =
    | InvalidId | NoToken | BadToken | FormUnparsable | NoFormFile
    | BadContentType | NotImage | VideoNotFound | NotOwner | BadSubtype
    | CreateFailed | CopyFailed | UpdateFailed | Saved

  /** Position of an exit in the handler: a later exit passed every gate of
      an earlier one. */
  function Stage(e: Exit): nat
  {
    match e
    case InvalidId => 0
    case NoToken => 1
    case BadToken => 2
    case FormUnparsable => 3
    case NoFormFile => 4
    case BadContentType => 5
    case NotImage => 6
    case VideoNotFound => 7
    case NotOwner => 8
    case BadSubtype => 9
    case CreateFailed => 10
    case CopyFailed => 11
    case UpdateFailed => 12
    case Saved => 13
  }

  /** The HTTP status the handler responds with at each exit. */
  function Status(e: Exit): (code: int)
    ensures code == 200 <==> e == Saved
    ensures code == 400 <==> e in {InvalidId, FormUnparsable, NoFormFile, BadContentType, NotImage, BadSubtype}
    ensures code == 401 <==> e in {NoToken, BadToken, NotOwner}
    ensures code == 500 <==> e in {VideoNotFound, CreateFailed, CopyFailed, UpdateFailed}
  {
    match e
    case InvalidId | FormUnparsable | NoFormFile | BadContentType | NotImage | BadSubtype => 400
    case NoToken | BadToken | NotOwner => 401
    case Saved => 200
    case _ => 500
  }

  /** The allow-list of line 60. */
  function IsAllowedImage(mediaType: string): (allowed: bool)
    ensures allowed ==> |mediaType| > 6 && mediaType[..6] == "image/"
  {
    mediaType == "image/jpeg" || mediaType == "image/png"
  }

  /** Lines 76-82: the text after the single slash of the media type, or
      `None` when the media type does not split into two parts or the second
      is empty. */
  function Subtype(mediaType: string): (r: Option<string>)
    ensures r.Some? ==> r.value != "" && '/' !in r.value
    ensures Count(mediaType, '/') != 1 ==> r.None?
  {
    var parts := Split(mediaType, '/');
    if |parts| != 2 || parts[1] == "" then None
    else
      JoinSplit(mediaType, '/');
      assert mediaType == parts[0] + "/" + parts[1];
      Some(parts[1])
  }

  /** A type and a non-empty subtype joined by one slash give that subtype. */
  lemma SubtypeOf(mainType: string, subtype: string)
    requires '/' !in mainType && '/' !in subtype && subtype != ""
    ensures Subtype(mainType + "/" + subtype) == Some(subtype)
  {
    SplitAround(mainType, subtype, '/');
  }

  /** The subtype is what the media type ends with, after a slash, with no
      other slash before it. */
  lemma SubtypeSuffix(mediaType: string)
    requires Subtype(mediaType).Some?
    ensures var sub := Subtype(mediaType).value; var n := |mediaType| - |sub|;
      n >= 1 && mediaType[n..] == sub && mediaType[n - 1] == '/' && '/' !in mediaType[..n - 1]
  {
    var parts := Split(mediaType, '/');
    JoinSplit(mediaType, '/');
    assert mediaType == parts[0] + "/" + parts[1];
    var n := |mediaType| - |parts[1]|;
    assert mediaType[..n - 1] == parts[0];
  }

  /** Once the allow-list of line 60 is passed, the split check of lines
      76-80 cannot fail: the subtype is "jpeg" or "png". */
  lemma AllowedImageSubtype(mediaType: string)
    requires IsAllowedImage(mediaType)
    ensures Subtype(mediaType) == Some(if mediaType == "image/jpeg" then "jpeg" else "png")
  {
    var mainType := "image";
    var subtype := if mediaType == "image/jpeg" then "jpeg" else "png";
    assert mediaType == mainType + "/" + subtype;
    SubtypeOf(mainType, subtype);
  }

  /** The stored file name of line 87: the random name, a dot and the
      extension. */
  function ThumbnailFileName(randName: string, ext: string): (name: string)
    ensures name != ""
    ensures '/' !in randName && '/' !in ext ==> '/' !in name
  {
    randName + "." + ext
  }

  /** The URL of line 101, built with its own format string. */
  function ThumbnailURL(cfg: ApiConfig, randName: string, ext: string): (url: string)
    ensures url == cfg.AssetURL(ThumbnailFileName(randName, ext))
  {
    var url := "http://localhost:" + cfg.port + "/assets/" + randName + "." + ext;
    assert url == cfg.AssetURLPrefix() + (randName + "." + ext);
    url
  }

  /** A file name made of an encoded name and an extension without a slash
      holds no slash. */
  lemma FileNameHasNoSlash(randomBytes: seq<Byte>, ext: string)
    requires '/' !in ext
    ensures '/' !in ThumbnailFileName(Encode(randomBytes), ext)
  {
    var name := ThumbnailFileName(Encode(randomBytes), ext);
    forall k | 0 <= k < |name| ensures name[k] != '/' {
      if k < |Encode(randomBytes)| {
        assert IsUrlSafe(Encode(randomBytes)[k]);
      } else if k > |Encode(randomBytes)| {
        assert name[k] == ext[k - |Encode(randomBytes)| - 1];
      }
    }
  }

  /** A thumbnail URL of this handler leads back, through `path.Base` and
      `getAssetDiskPath`, to the file the handler wrote. */
  lemma ThumbnailURLRoundTrip(cfg: ApiConfig, randomBytes: seq<Byte>, ext: string)
    requires '/' !in ext
    ensures var randName := Encode(randomBytes);
      cfg.AssetDiskPath(PathBase(ThumbnailURL(cfg, randName, ext)))
      == JoinPath(cfg.assetsRoot, ThumbnailFileName(randName, ext))
  {
    var randName := Encode(randomBytes);
    FileNameHasNoSlash(randomBytes, ext);
    AssetURLRoundTrip(cfg, ThumbnailFileName(randName, ext));
  }

  /** Lines 103-109: the disk path of the file the previous thumbnail URL
      names, if the record had one. */
  function OldThumbnailPath(cfg: ApiConfig, video: Video): (p: Option<string>)
    ensures p.Some? <==> video.thumbnailURL.Some?
    ensures p.Some? ==> var n := |cfg.assetsRoot|;
      |p.value| > n && p.value[..n] == cfg.assetsRoot
      && (p.value[n + 1..] == "/" || '/' !in p.value[n + 1..])
  {
    if video.thumbnailURL.Some? then Some(cfg.AssetDiskPath(PathBase(video.thumbnailURL.value))) else None
  }

  /** The first gate that fails, or `Saved` when none does. The chain is cut
      where the handler's phases begin: admission (lines 20-51), validation
      (lines 54-80) and storing (lines 82-118). */
  function ThumbnailExit(s: ThumbnailSteps): (e: Exit)
    ensures e == Saved <==> ReachedUpdate(s) && s.updateSucceeded
  {
    var rejected := AdmissionExit(s);
    if rejected.Some? then rejected.value else ValidationExit(s)
  }

  /** Lines 20-51: the exits before the form part is open. */
  function AdmissionExit(s: ThumbnailSteps): Option<Exit>
  {
    if !s.idParsed then Some(InvalidId)
    else if !s.tokenFound then Some(NoToken)
    else if s.jwtUser.None? then Some(BadToken)
    else if !s.formParsed then Some(FormUnparsable)
    else if !s.formFile then Some(NoFormFile)
    else None
  }

  function ValidationExit(s: ThumbnailSteps): Exit
    requires s.jwtUser.Some?
  {
    if s.mediaType.None? then BadContentType
    else if !IsAllowedImage(s.mediaType.value) then NotImage
    else if s.fetched.None? then VideoNotFound
    else if s.fetched.value.userID != s.jwtUser.value then NotOwner
    else if Subtype(s.mediaType.value).None? then BadSubtype
    else StoringExit(s)
  }

  function StoringExit(s: ThumbnailSteps): Exit
  {
    if !s.created then CreateFailed
    else if !s.copied then CopyFailed
    else if !s.updateSucceeded then UpdateFailed
    else Saved
  }

  /** The handler got past every check and chose a file name. */
  predicate Named(s: ThumbnailSteps)
  {
    AdmissionExit(s).None? && s.mediaType.Some? && IsAllowedImage(s.mediaType.value)
    && s.fetched.Some? && s.fetched.value.userID == s.jwtUser.value
    && Subtype(s.mediaType.value).Some?
  }

  /** The handler created the image file. */
  predicate Created(s: ThumbnailSteps)
  {
    Named(s) && s.created
  }

  /** The handler wrote the image and reached the record update. */
  predicate ReachedUpdate(s: ThumbnailSteps)
  {
    Created(s) && s.copied
  }

  /** The three predicates above are the exits past the split check, past
      `os.Create` and past `io.Copy`. */
  lemma PhasesAreStages(s: ThumbnailSteps)
    ensures Named(s) <==> Stage(ThumbnailExit(s)) > Stage(BadSubtype)
    ensures Created(s) <==> Stage(ThumbnailExit(s)) > Stage(CreateFailed)
    ensures ReachedUpdate(s) <==> Stage(ThumbnailExit(s)) > Stage(CopyFailed)
  {
  }

  /** The extension of a run that chose a file name. */
  function Extension(s: ThumbnailSteps): string
    requires Named(s)
  {
    Subtype(s.mediaType.value).value
  }

  /** Line 88: where a run that chose a file name writes the image. */
  function ImagePath(cfg: ApiConfig, s: ThumbnailSteps): (p: string)
    requires Named(s)
    ensures var n := |cfg.assetsRoot|;
      |p| > n + 1 && p[..n] == cfg.assetsRoot && p[n] == '/' && '/' !in p[n + 1..]
  {
    FileNameHasNoSlash(s.randomBytes, Extension(s));
    JoinPath(cfg.assetsRoot, ThumbnailFileName(Encode(s.randomBytes), Extension(s)))
  }

  /** The record as written back: only its thumbnail URL changes. */
  function UpdatedVideo(cfg: ApiConfig, s: ThumbnailSteps): (v: Video)
    requires Named(s)
    ensures var before := s.fetched.value;
      v.id == before.id && v.userID == before.userID && v.videoURL == before.videoURL
    ensures v.thumbnailURL == Some(cfg.AssetURL(ThumbnailFileName(Encode(s.randomBytes), Extension(s))))
  {
    s.fetched.value.(thumbnailURL := Some(ThumbnailURL(cfg, Encode(s.randomBytes), Extension(s))))
  }

  /** The immediate calls of a run, in order: the removal of the previous
      thumbnail's file, then the record update. */
  function Requests(cfg: ApiConfig, s: ThumbnailSteps): (calls: seq<Call>)
    ensures |calls| <= 2 && (calls != [] <==> ReachedUpdate(s))
    ensures calls != [] ==> calls[|calls| - 1] == UpdateVideo(UpdatedVideo(cfg, s))
    ensures |calls| == 2 ==> calls[0].Removed?
  {
    if !ReachedUpdate(s) then []
    else
      var previous := OldThumbnailPath(cfg, s.fetched.value);
      (if previous.Some? then [Removed(previous.value)] else []) + [UpdateVideo(UpdatedVideo(cfg, s))]
  }

  /** The `defer` stack when the handler returns, oldest entry first. */
  function DeferStack(cfg: ApiConfig, s: ThumbnailSteps): (stack: seq<Deferred>)
    ensures stack == [] <==> AdmissionExit(s).Some?
    ensures stack != [] ==> stack[0] == Close(FormPart)
    ensures forall k :: 0 <= k < |stack| ==> stack[k].Close?
  {
    if AdmissionExit(s).Some? then []
    else if !Created(s) then [Close(FormPart)]
    else [Close(FormPart), Close(DiskFile(ImagePath(cfg, s)))]
  }

  /** The files on disk after a run that started with `disk0`: the new
      image stays once created, even when the copy or the update failed, and
      the previous thumbnail's file is gone once the update was reached. */
  function DiskAfter(cfg: ApiConfig, disk0: set<string>, s: ThumbnailSteps): (disk: set<string>)
    ensures !Created(s) ==> disk == disk0
    ensures Created(s) ==> disk - disk0 <= {ImagePath(cfg, s)}
    ensures !ReachedUpdate(s) ==> disk0 <= disk
  {
    if !Created(s) then disk0
    else
      var withNew := disk0 + {ImagePath(cfg, s)};
      var previous := OldThumbnailPath(cfg, s.fetched.value);
      if ReachedUpdate(s) && previous.Some? then withNew - {previous.value} else withNew
  }

  /** A request turned away at admission leaves nothing behind. */
  lemma NothingOpened(cfg: ApiConfig, disk0: set<string>, s: ThumbnailSteps)
    requires AdmissionExit(s).Some?
    ensures DeferStack(cfg, s) == [] && Requests(cfg, s) == [] && DiskAfter(cfg, disk0, s) == disk0
  {
  }

  /** A request turned away while validating the part closes the part and
      nothing else. */
  lemma NothingWritten(cfg: ApiConfig, disk0: set<string>, s: ThumbnailSteps)
    requires AdmissionExit(s).None? && !Named(s)
    ensures Stage(ThumbnailExit(s)) <= Stage(BadSubtype)
    ensures DeferStack(cfg, s) == [Close(FormPart)] && Requests(cfg, s) == []
    ensures DiskAfter(cfg, disk0, s) == disk0
  {
  }

  /** Past the split check, the exit is decided by the storing steps. */
  lemma StoringDecides(s: ThumbnailSteps)
    requires Named(s)
    ensures ThumbnailExit(s) == StoringExit(s)
  {
  }

  /** The immediate calls of a run that reached the update. */
  lemma UpdateRequests(cfg: ApiConfig, s: ThumbnailSteps)
    requires ReachedUpdate(s)
    ensures var previous := OldThumbnailPath(cfg, s.fetched.value);
      Requests(cfg, s) == (if previous.Some? then [Removed(previous.value)] else [])
                          + [UpdateVideo(UpdatedVideo(cfg, s))]
  {
  }

  /** Lines 103-109: remove the file the previous thumbnail URL names, if
      the record had one, ignoring any error. */
  method RemoveOldThumbnail(cfg: ApiConfig, env: Environment, video: Video)
    modifies env
    ensures var previous := OldThumbnailPath(cfg, video);
      env.disk == (if previous.Some? then old(env.disk) - {previous.value} else old(env.disk))
      && env.calls == old(env.calls) + (if previous.Some? then [Removed(previous.value)] else [])
  {
    if video.thumbnailURL.Some? {
      var oldURL := video.thumbnailURL.value;
      var fileName := PathBase(oldURL);
      var oldDiskPath := cfg.AssetDiskPath(fileName);
      env.RemoveFile(oldDiskPath);
    }
  }

  /** Lines 103-118, once the image is written at `imgPath`: remove the
      previous thumbnail's file, point the record at the new URL and store
      it. */
  method ReplaceThumbnail(cfg: ApiConfig, env: Environment, s: ThumbnailSteps, thumbURL: string)
    returns (exit: Exit, response: Option<Video>)
    requires ReachedUpdate(s)
    requires thumbURL == ThumbnailURL(cfg, Encode(s.randomBytes), Extension(s))
    modifies env
    ensures exit == ThumbnailExit(s)
    ensures var previous := OldThumbnailPath(cfg, s.fetched.value);
      env.disk == if previous.Some? then old(env.disk) - {previous.value} else old(env.disk)
    ensures env.calls == old(env.calls) + Requests(cfg, s)
    ensures response == if exit == Saved then Some(UpdatedVideo(cfg, s)) else None
  {
    StoringDecides(s);
    var video := s.fetched.value;
    RemoveOldThumbnail(cfg, env, video);
    ghost var removal := env.calls[|old(env.calls)|..];
    assert env.calls == old(env.calls) + removal;
    video := video.(thumbnailURL := Some(thumbURL));
    assert video == UpdatedVideo(cfg, s);
    env.Record(UpdateVideo(video));
    assert env.calls == old(env.calls) + (removal + [UpdateVideo(video)]);
    UpdateRequests(cfg, s);
    if !s.updateSucceeded {
      return UpdateFailed, None;
    }
    return Saved, Some(video);
  }

  /** Lines 82-118, once the subtype is known: name the file, write it and
      replace the thumbnail. `pushed` is what this phase adds to the `defer`
      stack. */
  method StoreThumbnail(cfg: ApiConfig, env: Environment, s: ThumbnailSteps, imgExtension: string)
    returns (exit: Exit, response: Option<Video>, pushed: seq<Deferred>)
    requires Named(s) && imgExtension == Extension(s)
    modifies env
    ensures exit == ThumbnailExit(s)
    ensures [Close(FormPart)] + pushed == DeferStack(cfg, s)
    ensures env.disk == DiskAfter(cfg, old(env.disk), s)
    ensures env.calls == old(env.calls) + Requests(cfg, s)
    ensures response == if exit == Saved then Some(UpdatedVideo(cfg, s)) else None
  {
    var randFileName := Encode(s.randomBytes);
    var fileName := ThumbnailFileName(randFileName, imgExtension);
    var imgPath := JoinPath(cfg.assetsRoot, fileName);
    if !s.created {
      return CreateFailed, None, [];
    }
    env.CreateFile(imgPath);
    pushed := [Close(DiskFile(imgPath))];
    if !s.copied {
      return CopyFailed, None, pushed;
    }
    var thumbURL := ThumbnailURL(cfg, randFileName, imgExtension);
    exit, response := ReplaceThumbnail(cfg, env, s, thumbURL);
  }

  /** Lines 54-80, once the form part is open: parse and check the media
      type, look the video up, check its owner and split the media type. */
  method ValidateThumbnail(cfg: ApiConfig, env: Environment, s: ThumbnailSteps)
    returns (exit: Exit, response: Option<Video>, pushed: seq<Deferred>)
    requires AdmissionExit(s).None?
    modifies env
    ensures exit == ThumbnailExit(s)
    ensures [Close(FormPart)] + pushed == DeferStack(cfg, s)
    ensures env.disk == DiskAfter(cfg, old(env.disk), s)
    ensures env.calls == old(env.calls) + Requests(cfg, s)
    ensures response == if exit == Saved then Some(UpdatedVideo(cfg, s)) else None
  {
    if s.mediaType.None? {
      NothingWritten(cfg, env.disk, s);
      return BadContentType, None, [];
    }
    var mediaType := s.mediaType.value;
    if mediaType != "image/jpeg" && mediaType != "image/png" {
      NothingWritten(cfg, env.disk, s);
      return NotImage, None, [];
    }
    if s.fetched.None? {
      NothingWritten(cfg, env.disk, s);
      return VideoNotFound, None, [];
    }
    if s.fetched.value.userID != s.jwtUser.value {
      NothingWritten(cfg, env.disk, s);
      return NotOwner, None, [];
    }
    var subtype := Subtype(mediaType);
    if subtype.None? {
      NothingWritten(cfg, env.disk, s);
      return BadSubtype, None, [];
    }
    exit, response, pushed := StoreThumbnail(cfg, env, s, subtype.value);
  }

  /** `handlerUploadThumbnail`: the admission gates, then the phases above,
      then the deferred calls in reverse order of registration. */
  method HandleUploadThumbnail(cfg: ApiConfig, env: Environment, s: ThumbnailSteps)
    returns (status: int, exit: Exit, response: Option<Video>)
    requires |s.randomBytes| == 32
    modifies env
    ensures exit == ThumbnailExit(s) && status == Status(exit)
    ensures env.disk == DiskAfter(cfg, old(env.disk), s)
    ensures env.calls == old(env.calls) + Requests(cfg, s) + Unwound(DeferStack(cfg, s))
    ensures response == if exit == Saved then Some(UpdatedVideo(cfg, s)) else None
  {
    var deferred: seq<Deferred> := [];
    response := None;
    if !s.idParsed {
      exit := InvalidId;
    } else if !s.tokenFound {
      exit := NoToken;
    } else if s.jwtUser.None? {
      exit := BadToken;
    } else if !s.formParsed {
      exit := FormUnparsable;
    } else if !s.formFile {
      exit := NoFormFile;
    } else {
      deferred := [Close(FormPart)];
      var pushed;
      exit, response, pushed := ValidateThumbnail(cfg, env, s);
      deferred := deferred + pushed;
    }
    if deferred == [] {
      NothingOpened(cfg, env.disk, s);
    }
    status := Status(exit);
    NoDeferredRemoval(cfg, s);
    env.Unwind(deferred);
  }

  // ---------------------------------------------------------------------
  // Properties of a whole run
  // ---------------------------------------------------------------------

  /** This handler defers only `Close` calls: no file it writes is removed
      on return. */
  lemma NoDeferredRemoval(cfg: ApiConfig, s: ThumbnailSteps)
    ensures RemovedBy(DeferStack(cfg, s)) == {}
  {
    var stack := DeferStack(cfg, s);
    assert forall k :: 0 <= k < |stack| ==> stack[k].Close?;
  }

  /** A media type outside the allow-list is refused with 400 before the
      video is looked up: the lookup's outcome does not matter, and nothing
      is written or requested. */
  lemma NotImageRejected(cfg: ApiConfig, disk0: set<string>, s: ThumbnailSteps, lookup: Option<Video>)
    requires AdmissionExit(s).None? && s.mediaType.Some? && !IsAllowedImage(s.mediaType.value)
    ensures ThumbnailExit(s) == NotImage && Status(ThumbnailExit(s)) == 400
    ensures ThumbnailExit(s.(fetched := lookup)) == NotImage
    ensures DiskAfter(cfg, disk0, s) == disk0 && Requests(cfg, s) == []
  {
  }

  /** The split check of lines 76-80 never rejects anything: every media
      type that reaches it is "image/jpeg" or "image/png". */
  lemma BadSubtypeUnreachable(s: ThumbnailSteps)
    ensures ThumbnailExit(s) != BadSubtype
  {
    if AdmissionExit(s).None? && s.mediaType.Some? && IsAllowedImage(s.mediaType.value) {
      AllowedImageSubtype(s.mediaType.value);
    }
  }

  /** The image is stored under the assets root as the random name, a dot
      and "jpeg" or "png" as the media type says; the record's new URL is
      `getAssetURL` of that file name, and reading the file name back from
      it leads to the same file. */
  lemma StoredFile(cfg: ApiConfig, s: ThumbnailSteps)
    requires Named(s)
    ensures Extension(s) == if s.mediaType.value == "image/jpeg" then "jpeg" else "png"
    ensures var fileName := Encode(s.randomBytes) + "." + Extension(s);
      ImagePath(cfg, s) == JoinPath(cfg.assetsRoot, fileName)
      && UpdatedVideo(cfg, s).thumbnailURL == Some(cfg.AssetURL(fileName))
      && cfg.AssetDiskPath(PathBase(UpdatedVideo(cfg, s).thumbnailURL.value)) == ImagePath(cfg, s)
  {
    AllowedImageSubtype(s.mediaType.value);
    ThumbnailURLRoundTrip(cfg, s.randomBytes, Extension(s));
  }

  /** The update changes only the thumbnail URL. */
  lemma UpdateSetsOnlyThumbnail(cfg: ApiConfig, s: ThumbnailSteps)
    requires Named(s)
    ensures var v := UpdatedVideo(cfg, s); var before := s.fetched.value;
      v.id == before.id && v.userID == before.userID && v.videoURL == before.videoURL
      && v.thumbnailURL.Some?
  {
  }

  /** The previous thumbnail's file is removed, if there was one, before
      the record is updated; so a failed update leaves the record pointing
      at a file that is gone. */
  lemma OldRemovedBeforeUpdate(cfg: ApiConfig, disk0: set<string>, s: ThumbnailSteps)
    requires ReachedUpdate(s)
    ensures var previous := OldThumbnailPath(cfg, s.fetched.value);
      Requests(cfg, s) == (if previous.Some? then [Removed(previous.value)] else [])
                          + [UpdateVideo(UpdatedVideo(cfg, s))]
    ensures var previous := OldThumbnailPath(cfg, s.fetched.value);
      previous.Some? ==> previous.value !in DiskAfter(cfg, disk0, s)
    ensures var previous := OldThumbnailPath(cfg, s.fetched.value);
      previous.None? ==> DiskAfter(cfg, disk0, s) == disk0 + {ImagePath(cfg, s)}
  {
  }

  /** Once created, the new image file stays, even when the copy or the
      update failed, unless it is the previous thumbnail's own file. */
  lemma NewImageKept(cfg: ApiConfig, disk0: set<string>, s: ThumbnailSteps)
    requires Created(s)
    requires OldThumbnailPath(cfg, s.fetched.value) != Some(ImagePath(cfg, s))
    ensures ImagePath(cfg, s) in DiskAfter(cfg, disk0, s)
    ensures DiskAfter(cfg, disk0, s) - disk0 == {ImagePath(cfg, s)} - disk0
  {
  }

  /** A PNG thumbnail that passes every step is saved under a ".png" name. */
  lemma PngUpload(cfg: ApiConfig, s: ThumbnailSteps)
    requires AdmissionExit(s).None? && s.mediaType == Some("image/png")
    requires s.fetched.Some? && s.fetched.value.userID == s.jwtUser.value
    requires s.created && s.copied && s.updateSucceeded
    ensures ThumbnailExit(s) == Saved && Status(ThumbnailExit(s)) == 200
    ensures Named(s) && Extension(s) == "png"
  {
    var mediaType := s.mediaType.value;
    AllowedImageSubtype(mediaType);
  }
}
