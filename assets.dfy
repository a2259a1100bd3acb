/** The asset helpers of `assets.go`: media type to extension, random asset
    names, the S3 object URL, the local asset URL and disk path, the
    classification of an already probed video stream list, and the name of
    the fast-start output file. The `ffprobe`/`ffmpeg` processes and the
    JSON decoding are represented by their outcomes. */
module Assets {
  import opened Wrappers
  import opened Text
  import opened GoPath
  import opened Base64Url

  /** The part of `apiConfig` these helpers read. */
  datatype ApiConfig = ApiConfig(assetsRoot: string, s3Bucket: string, s3Region: string, port: string)
  {
    /** Everything an S3 object URL of this configuration puts before the key. */
    function ObjectURLPrefix(): string
    {
      "https://" + s3Bucket + ".s3." + s3Region + ".amazonaws.com/"
    }

    /** `getObjectURL`: the virtual-hosted S3 URL of `key`. */
    function ObjectURL(key: string): (url: string)
      ensures |url| >= 8 && url[..8] == "https://"
      ensures |url| > |key| && url[|url| - |key|..] == key
    {
      ObjectURLPrefix() + key
    }

    /** The key an S3 URL of this configuration names, if it is one. */
    function ObjectKey(url: string): Option<string>
    {
      var prefix := ObjectURLPrefix();
      if |prefix| <= |url| && url[..|prefix|] == prefix then Some(url[|prefix|..]) else None
    }

    /** Everything a local asset URL of this configuration puts before the
        asset path. */
    function AssetURLPrefix(): string
    {
      "http://localhost:" + port + "/assets/"
    }

    /** `getAssetURL`: the URL under which the local file server serves
        `assetPath`. */
    function AssetURL(assetPath: string): (url: string)
      ensures |url| >= 17 && url[..17] == "http://localhost:"
      ensures |url| > |assetPath| && url[|url| - |assetPath|..] == assetPath
    {
      AssetURLPrefix() + assetPath
    }

    /** `getAssetDiskPath`: where `assetPath` lives under the assets root. */
    function AssetDiskPath(assetPath: string): (p: string)
      ensures |p| > |assetsRoot| && p[..|assetsRoot|] == assetsRoot
      ensures p[|assetsRoot| + 1..] == assetPath
    {
      JoinPath(assetsRoot, assetPath)
    }
  }

  /** An object URL is an https URL that ends in its key, and the key can
      be read back from it. */
  lemma ObjectURLShape(cfg: ApiConfig, key: string)
    ensures var url := cfg.ObjectURL(key);
      |url| >= 8 && url[..8] == "https://"
      && |url| > |key| && url[|url| - |key|..] == key
      && cfg.ObjectKey(url) == Some(key)
  {
    var url := cfg.ObjectURL(key);
    assert url[..|cfg.ObjectURLPrefix()|] == cfg.ObjectURLPrefix();
  }

  /** A URL of one configuration that is not an object URL yields no key,
      and every object URL gives back the key it was built from. */
  lemma {:induction false} ObjectKeyInverse(cfg: ApiConfig, url: string)
    requires cfg.ObjectKey(url).Some?
    ensures cfg.ObjectURL(cfg.ObjectKey(url).value) == url
  {
    var prefix := cfg.ObjectURLPrefix();
    assert url == prefix + url[|prefix|..];
  }

  /** The last element of the URL of a slash-free asset path is that path. */
  lemma AssetURLBase(cfg: ApiConfig, assetPath: string)
    requires assetPath != "" && '/' !in assetPath
    ensures PathBase(cfg.AssetURL(assetPath)) == assetPath
  {
    var dir := "http://localhost:" + cfg.port + "/assets";
    assert cfg.AssetURL(assetPath) == dir + "/" + assetPath;
    PathBaseOfName(dir, assetPath);
  }

  /** Serving a stored asset and reading its file name back from the URL
      leads to the file it was written to. */
  lemma AssetURLRoundTrip(cfg: ApiConfig, fileName: string)
    requires fileName != "" && '/' !in fileName
    ensures cfg.AssetDiskPath(PathBase(cfg.AssetURL(fileName))) == JoinPath(cfg.assetsRoot, fileName)
  {
    AssetURLBase(cfg, fileName);
  }

  /** `mediaTypeToExt`: "." and the subtype when the media type has exactly
      one slash, ".bin" otherwise. */
  function MediaTypeToExt(mediaType: string): (ext: string)
    ensures |ext| > 0 && ext[0] == '.' && '/' !in ext
    ensures Count(mediaType, '/') != 1 ==> ext == ".bin"
  {
    var parts := Split(mediaType, '/');
    if |parts| != 2 then ".bin" else "." + parts[1]
  }

  /** With exactly one slash, the extension is "." and the text after it. */
  lemma ExtAfterSlash(mediaType: string, i: int)
    requires Count(mediaType, '/') == 1
    requires 0 <= i < |mediaType| && mediaType[i] == '/'
    ensures MediaTypeToExt(mediaType) == "." + mediaType[i + 1..]
  {
    OneSeparator(mediaType, '/', i);
  }

  /** A type and a subtype joined by one slash give "." and the subtype as
      extension. */
  lemma ExtOfTypeAndSubtype(mediaType: string, mainType: string, subtype: string)
    requires mediaType == mainType + "/" + subtype
    requires '/' !in mainType && '/' !in subtype
    ensures MediaTypeToExt(mediaType) == "." + subtype
  {
    SplitAround(mainType, subtype, '/');
  }

  /** The extension of the one type the video upload accepts. */
  lemma Mp4Extension(mediaType: string)
    requires mediaType == "video/mp4"
    ensures MediaTypeToExt(mediaType) == ".mp4"
  {
    ExtOfTypeAndSubtype(mediaType, "video", "mp4");
  }

  /** The extension of a PNG image. */
  lemma PngExtension(mediaType: string)
    requires mediaType == "image/png"
    ensures MediaTypeToExt(mediaType) == ".png"
  {
    ExtOfTypeAndSubtype(mediaType, "image", "png");
  }

  /** An empty subtype leaves the bare dot. */
  lemma EmptySubtypeExtension()
    ensures MediaTypeToExt("video/") == "."
  {
    ExtOfTypeAndSubtype("video/", "video", "");
  }

  /** No slash, or more than one, gives ".bin". */
  lemma MalformedExamples()
    ensures MediaTypeToExt("garbage") == ".bin"
    ensures MediaTypeToExt("a/b/c") == ".bin"
  {
  }

  /** `getAssetPath`: the base64url name of 32 random bytes followed by the
      extension of `mediaType`. The random bytes are a parameter. */
  function AssetPath(randomBytes: seq<Byte>, mediaType: string): (p: string)
    requires |randomBytes| == 32
    ensures |p| == 43 + |MediaTypeToExt(mediaType)|
    ensures '/' !in p
    ensures Decode(p[..43]) == Some(randomBytes)
    ensures p[43..] == MediaTypeToExt(mediaType)
  {
    var id := Encode(randomBytes);
    ThirtyTwoBytes(randomBytes);
    DecodeEncode(randomBytes);
    var p := id + MediaTypeToExt(mediaType);
    assert p[..43] == id;
    p
  }

  /** The asset path of an MP4 upload is the base64url name and ".mp4". */
  lemma Mp4AssetPath(randomBytes: seq<Byte>)
    requires |randomBytes| == 32
    ensures AssetPath(randomBytes, "video/mp4") == Encode(randomBytes) + ".mp4"
  {
    Mp4Extension("video/mp4");
  }

  /** Two draws of random bytes that differ give different asset paths. */
  lemma AssetPathInjective(a: seq<Byte>, b: seq<Byte>, mediaType: string)
    requires |a| == 32 && |b| == 32
    requires AssetPath(a, mediaType) == AssetPath(b, mediaType)
    ensures a == b
  {
  }

  // ---------------------------------------------------------------------
  // Aspect ratio of the first probed stream
  // ---------------------------------------------------------------------

  /** One entry of `ffprobeFeedback.Streams`; a missing `width` or `height`
      decodes as 0. */
  datatype Stream = Stream(index: int, width: int, height: int)

  /** What running `ffprobe` and decoding its JSON output produced. */
  datatype ProbeOutcome =
    | RunFailed               // `cmd.Run` returned an error
    | Unparsable              // `json.Unmarshal` returned an error
    | Decoded(streams: seq<Stream>)

  /** The errors `getVideoAspectRatio` returns. */
  datatype RatioError = ProbeFailed | DecodeFailed | NoStreams

  function Abs(x: int): nat { if x < 0 then -x else x }

  function RealAbs(x: real): real { if x < 0.0 then -x else x }

  /** The floating-point test `math.Abs(w/h - target) < 0.01` of the source,
      read over exact rationals; a zero height (Go: an infinity or NaN) is
      never within tolerance. */
  ghost predicate WithinTolerance(w: int, h: int, target: real)
  {
    h != 0 && RealAbs(w as real / h as real - target) < 0.01
  }

  /** The integer form of the 16:9 test: |900w - 1600h| < 9|h|, written
      out for each sign of `h`. */
  predicate NearLandscape(w: int, h: int)
  {
    (h > 0 && -9 * h < 900 * w - 1600 * h < 9 * h)
    || (h < 0 && 9 * h < 900 * w - 1600 * h < -9 * h)
  }

  /** The integer form of the 9:16 test: |1600w - 900h| < 16|h|, written
      out for each sign of `h`. */
  predicate NearPortrait(w: int, h: int)
  {
    (h > 0 && -16 * h < 1600 * w - 900 * h < 16 * h)
    || (h < 0 && 16 * h < 1600 * w - 900 * h < -16 * h)
  }

  /** `|a| < k|h|` with `h` non-zero, for each sign of `h`. */
  lemma AbsBand(a: int, k: int, h: int)
    requires k > 0
    ensures (h != 0 && Abs(a) < k * Abs(h)) <==> ((h > 0 && -(k * h) < a < k * h) || (h < 0 && k * h < a < -(k * h)))
  {
    if h < 0 {
      assert k * Abs(h) == -(k * h);
    }
  }

  /** A positive factor keeps the sign of a product. */
  lemma MulPositive(x: real, d: real)
    requires d > 0.0
    ensures x > 0.0 <==> x * d > 0.0
    ensures x == 0.0 <==> x * d == 0.0
  {
  }

  /** Scaling a deviation `y` by the height `h` scales its tolerance by |h|. */
  lemma ScaleByHeight(y: real, h: int, a: int, k: real)
    requires h != 0 && k > 0.0
    requires a as real == y * h as real
    ensures RealAbs(y) < k <==> (Abs(a) as real) < k * Abs(h) as real
  {
    var d := Abs(h) as real;
    var ya := RealAbs(y);
    assert h as real == d || h as real == -d;
    assert y * (-d) == -(y * d);
    MulPositive(y, d);
    MulPositive(-y, d);
    assert (-y) * d == -(y * d);
    assert Abs(a) as real == ya * d;
    MulPositive(k - ya, d);
    assert (k - ya) * d == k * d - ya * d;
  }

  /** The integer 16:9 test is exactly the rational one. */
  lemma LandscapeExact(w: int, h: int)
    ensures NearLandscape(w, h) <==> WithinTolerance(w, h, 16.0 / 9.0)
  {
    if h != 0 {
      var x := w as real / h as real;
      assert x * h as real == w as real;
      var y := 900.0 * x - 1600.0;
      assert RealAbs(x - 16.0 / 9.0) < 0.01 <==> RealAbs(y) < 9.0;
      ScaleByHeight(y, h, 900 * w - 1600 * h, 9.0);
      AbsBand(900 * w - 1600 * h, 9, h);
    }
  }

  /** The integer 9:16 test is exactly the rational one. */
  lemma PortraitExact(w: int, h: int)
    ensures NearPortrait(w, h) <==> WithinTolerance(w, h, 9.0 / 16.0)
  {
    if h != 0 {
      var x := w as real / h as real;
      assert x * h as real == w as real;
      var y := 1600.0 * x - 900.0;
      assert RealAbs(x - 9.0 / 16.0) < 0.01 <==> RealAbs(y) < 16.0;
      ScaleByHeight(y, h, 1600 * w - 900 * h, 16.0);
      AbsBand(1600 * w - 900 * h, 16, h);
    }
  }

  /** No ratio is within tolerance of both 16/9 and 9/16. */
  lemma BandsDisjoint(w: int, h: int)
    ensures !(WithinTolerance(w, h, 16.0 / 9.0) && WithinTolerance(w, h, 9.0 / 16.0))
  {
    LandscapeExact(w, h);
    PortraitExact(w, h);
  }

  /** The classification of lines 80-89 of `getVideoAspectRatio`, given the
      first stream's width and height. */
  function ClassifyRatio(w: int, h: int): (r: string)
    ensures r == "16:9" || r == "9:16" || r == "other"
    ensures h == 0 ==> r == "other"
  {
    if NearLandscape(w, h) then "16:9"
    else if NearPortrait(w, h) then "9:16"
    else "other"
  }

  /** The classification is exactly the source's tolerance test against
      16/9 and against 9/16. */
  lemma ClassifyMatchesTolerance(w: int, h: int)
    ensures ClassifyRatio(w, h) == "16:9" <==> WithinTolerance(w, h, 16.0 / 9.0)
    ensures ClassifyRatio(w, h) == "9:16" <==> WithinTolerance(w, h, 9.0 / 16.0)
  {
    LandscapeExact(w, h);
    PortraitExact(w, h);
    BandsDisjoint(w, h);
  }

  /** Testing 9:16 first would classify every ratio the same way. */
  lemma CheckOrderIrrelevant(w: int, h: int)
    ensures ClassifyRatio(w, h) ==
            (if NearPortrait(w, h) then "9:16" else if NearLandscape(w, h) then "16:9" else "other")
  {
    LandscapeExact(w, h);
    PortraitExact(w, h);
    BandsDisjoint(w, h);
  }

  /** Common sizes, a square, a zero height, and ratios on each side of the
      16:9 band edge. */
  lemma ClassifyExamples()
    ensures ClassifyRatio(1920, 1080) == "16:9"
    ensures ClassifyRatio(1280, 720) == "16:9"
    ensures ClassifyRatio(1080, 1920) == "9:16"
    ensures ClassifyRatio(1000, 1000) == "other"
    ensures ClassifyRatio(1787, 1000) == "16:9"
    ensures ClassifyRatio(179, 100) == "other"
    ensures ClassifyRatio(1920, 0) == "other"
    ensures ClassifyRatio(0, 0) == "other"
  {
  }

  /** `getVideoAspectRatio` after the probe: the error of the failed step,
      an error for an empty stream list, otherwise the classification of the
      first stream alone. */
  function VideoAspectRatio(probe: ProbeOutcome): (r: Result<string, RatioError>)
    ensures r.Ok? <==> probe.Decoded? && |probe.streams| > 0
    ensures probe.RunFailed? ==> r == Err(ProbeFailed)
    ensures probe.Unparsable? ==> r == Err(DecodeFailed)
    ensures probe.Decoded? && probe.streams == [] ==> r == Err(NoStreams)
    ensures r.Ok? ==> r.value in {"16:9", "9:16", "other"}
    ensures r.Ok? ==> r.value == ClassifyRatio(probe.streams[0].width, probe.streams[0].height)
  {
    match probe
    case RunFailed => Err(ProbeFailed)
    case Unparsable => Err(DecodeFailed)
    case Decoded(streams) =>
      if |streams| == 0 then Err(NoStreams)
      else Ok(ClassifyRatio(streams[0].width, streams[0].height))
  }

  /** A decoded probe is "16:9" or "9:16" exactly when its first stream is
      within the source's tolerance of that ratio. */
  lemma AspectRatioTolerance(probe: ProbeOutcome)
    requires VideoAspectRatio(probe).Ok?
    ensures var r := VideoAspectRatio(probe).value; var first := probe.streams[0];
      (r == "16:9" <==> WithinTolerance(first.width, first.height, 16.0 / 9.0))
      && (r == "9:16" <==> WithinTolerance(first.width, first.height, 9.0 / 16.0))
  {
    ClassifyMatchesTolerance(probe.streams[0].width, probe.streams[0].height);
  }

  /** Streams after the first never change the result. */
  lemma OnlyFirstStream(first: Stream, rest: seq<Stream>)
    ensures VideoAspectRatio(Decoded([first] + rest)) == VideoAspectRatio(Decoded([first]))
  {
  }

  /** A first stream without dimensions (both decoded as 0) is "other", not
      an error. */
  lemma DimensionlessStream(index: int, rest: seq<Stream>)
    ensures VideoAspectRatio(Decoded([Stream(index, 0, 0)] + rest)) == Ok("other")
  {
  }

  // ---------------------------------------------------------------------
  // Fast start
  // ---------------------------------------------------------------------

  /** The sibling file `processVideoForFastStart` writes. */
  function ProcessedPath(filePath: string): (p: string)
    ensures |p| == |filePath| + 11 && p[..|filePath|] == filePath
    ensures p != filePath
  {
    filePath + ".processing"
  }

  /** `processVideoForFastStart` with `ffmpeg`'s exit status as a parameter:
      the output path when it succeeded, an error otherwise. */
  function ProcessVideoForFastStart(filePath: string, ffmpegSucceeded: bool): (r: Result<string, string>)
    ensures r.Ok? <==> ffmpegSucceeded
    ensures r.Ok? ==> r.value == ProcessedPath(filePath)
  {
    if ffmpegSucceeded then Ok(ProcessedPath(filePath)) else Err("ffmpeg failed")
  }
}
