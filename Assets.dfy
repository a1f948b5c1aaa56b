/**
 * Naming and classification rules of `assets.go`: the extension derived from a
 * media type, the random asset name, the aspect-ratio bucket of a probed video,
 * the sibling path of the fast-start remux and the static asset URL.
 */
module Assets {
  import opened Wrappers
  import opened Strings
  import Base64

  // ---------------------------------------------------------------- extensions

  /** `mediaTypeToExt`: "." and the subtype when the type has exactly one '/', else ".bin". */
  function MediaTypeToExt(mediaType: string): (ext: string)
    ensures |ext| >= 1 && ext[0] == '.'
    ensures '/' !in ext
  {
    var parts := Split(mediaType, '/');
    if |parts| != 2 then ".bin" else "." + parts[1]
  }

  /** Without exactly one '/', the split does not give two parts and the fallback is used. */
  lemma MediaTypeToExtFallback(mediaType: string)
    requires Count(mediaType, '/') != 1
    ensures MediaTypeToExt(mediaType) == ".bin"
  {
    SplitLength(mediaType, '/');
  }

  /** With exactly one '/', the extension is the part after it. */
  lemma MediaTypeToExtSubtype(kind: string, subtype: string)
    requires '/' !in kind && '/' !in subtype
    ensures MediaTypeToExt(kind + "/" + subtype) == "." + subtype
  {
    SplitAtFirst(kind, subtype, '/');
  }

  lemma MediaTypeToExtOfMp4()
    ensures MediaTypeToExt("video/mp4") == ".mp4"
  {
    var mediaType := "video/mp4";
    assert mediaType[5] == '/' && '/' !in mediaType[..5];
    assert IndexOf(mediaType, '/') == 5;
    assert mediaType[..5] == "video" && mediaType[6..] == "mp4";
    assert Split(mediaType, '/') == ["video", "mp4"];
  }

  lemma MediaTypeToExtEmptySubtype()
    ensures MediaTypeToExt("video/") == "."
  {
    MediaTypeToExtSubtype("video", "");
    assert "video" + "/" + "" == "video/";
  }

  lemma MediaTypeToExtTooManyParts()
    ensures MediaTypeToExt("a/b/c") == ".bin"
  {
    CountAppend("a/", "b/c", '/');
    CountAppend("b/", "c", '/');
    assert "a/" + "b/c" == "a/b/c" && "b/" + "c" == "b/c";
    MediaTypeToExtFallback("a/b/c");
  }

  // ---------------------------------------------------------------- asset names

  /**
   * `getAssetPath` with the 32 bytes read from `crypto/rand` passed in: the
   * unpadded base64url text of the bytes followed by the extension.
   */
  function GetAssetPath(random: seq<Base64.byte>, mediaType: string): (path: string)
    ensures var n := |path| - |MediaTypeToExt(mediaType)|;
      && n == (4 * |random| + 2) / 3
      && path[n..] == MediaTypeToExt(mediaType)
      && Base64.Canonical(path[..n])
      && Base64.Decode(path[..n]) == random
    ensures |random| == 32 ==> |path| == 43 + |MediaTypeToExt(mediaType)|
    ensures '/' !in path
  {
    var id := Base64.Encode(random);
    var ext := MediaTypeToExt(mediaType);
    Base64.DecodeEncode(random);
    assert (id + ext)[..|id|] == id && (id + ext)[|id|..] == ext;
    Base64.NotInUrlChars(id, '/');
    id + ext
  }

  /** Different random bytes give different asset paths for one media type. */
  lemma GetAssetPathInjective(r1: seq<Base64.byte>, r2: seq<Base64.byte>, mediaType: string)
    requires GetAssetPath(r1, mediaType) == GetAssetPath(r2, mediaType)
    ensures r1 == r2
  {
    var p := GetAssetPath(r1, mediaType);
    var n := |p| - |MediaTypeToExt(mediaType)|;
    assert Base64.Decode(p[..n]) == r1;
    assert Base64.Decode(p[..n]) == r2;
  }

  // ---------------------------------------------------------------- aspect ratio

  /** One entry of the `streams` array that `ffprobe -show_streams` prints. */
  datatype Stream = Stream(width: int, height: int)

  /** What running ffprobe and decoding its JSON gave. */
  datatype ProbeOutput = ProbeExitError | ProbeBadJson | ProbeJson(streams: seq<Stream>)

  /** `NoStreams` is the index-out-of-range panic on `Streams[0]`. */
  datatype AspectError = ProbeFailed | ParseFailed | NoStreams

  /** `math.Abs(ratio - target) < 0.1`, on exact reals. */
  predicate Near(ratio: real, target: real)
  {
    -0.1 < ratio - target < 0.1
  }

  /**
   * The ratio tests of `getVideoAspectRation`, in their order 16:9, 4:3, 9:16.
   * A zero height makes Go's ratio +Inf, -Inf or NaN, for which no test holds.
   */
  function RatioLabel(width: int, height: int): (aspect: string)
    ensures aspect == "16:9" || aspect == "4:3" || aspect == "9:16" || aspect == "other"
    ensures height == 0 ==> aspect == "other"
  {
    if height == 0 then "other"
    else
      var ratio := width as real / height as real;
      if Near(ratio, 16.0 / 9.0) then "16:9"
      else if Near(ratio, 4.0 / 3.0) then "4:3"
      else if Near(ratio, 9.0 / 16.0) then "9:16"
      else "other"
  }

  /**
   * The three tolerance windows are pairwise disjoint, so each label holds exactly
   * when the ratio lies in its own window: the order of the tests never matters.
   */
  lemma RatioLabelWindows(width: int, height: int)
    requires height != 0
    ensures var ratio := width as real / height as real;
      && (RatioLabel(width, height) == "16:9" <==> Near(ratio, 16.0 / 9.0))
      && (RatioLabel(width, height) == "4:3" <==> Near(ratio, 4.0 / 3.0))
      && (RatioLabel(width, height) == "9:16" <==> Near(ratio, 9.0 / 16.0))
      && (RatioLabel(width, height) == "other" <==>
            !Near(ratio, 16.0 / 9.0) && !Near(ratio, 4.0 / 3.0) && !Near(ratio, 9.0 / 16.0))
  {
  }

  /** For a positive height the 16:9 window is the integer test 10 * |9w - 16h| < 9h. */
  lemma NearWideInIntegers(width: int, height: int)
    requires height > 0
    ensures Near(width as real / height as real, 16.0 / 9.0)
        <==> 10 * Abs(9 * width - 16 * height) < 9 * height
  {
    NearInIntegers(width, height, 16, 9);
  }

  /** For a positive height the 9:16 window is the integer test 10 * |16w - 9h| < 16h. */
  lemma NearTallInIntegers(width: int, height: int)
    requires height > 0
    ensures Near(width as real / height as real, 9.0 / 16.0)
        <==> 10 * Abs(16 * width - 9 * height) < 16 * height
  {
    NearInIntegers(width, height, 9, 16);
  }

  function Abs(x: int): nat
  {
    if x < 0 then -x else x
  }

  lemma NearInIntegers(width: int, height: int, num: int, den: int)
    requires height > 0 && den > 0
    ensures Near(width as real / height as real, num as real / den as real)
        <==> 10 * Abs(den * width - num * height) < den * height
  {
    var w, h, n, d := width as real, height as real, num as real, den as real;
    var x := w / h - n / d;
    var a := den * width - num * height;
    var s := den * height;
    ScaledDifference(w, h, n, d);
    CastProducts(width, height, num, den);
    var sr, ar := s as real, a as real;
    assert x * sr == ar;
    ScaleStrict(x, sr, ar);
    IntegerWindow(a, s);
    assert (-0.1 < x < 0.1) <==> 10 * Abs(a) < s;
    assert Near(w / h, n / d) <==> -0.1 < x < 0.1;
  }

  lemma CastProducts(width: int, height: int, num: int, den: int)
    ensures (den * width - num * height) as real == den as real * width as real - num as real * height as real
    ensures (den * height) as real == den as real * height as real
  {
  }

  lemma IntegerWindow(a: int, s: int)
    ensures 10 * Abs(a) < s <==> -(s as real) < 10.0 * (a as real) < s as real
  {
  }

  /** Bringing w / h - n / d to the common denominator d * h. */
  lemma ScaledDifference(w: real, h: real, n: real, d: real)
    requires h > 0.0 && d > 0.0
    ensures (w / h - n / d) * (d * h) == d * w - n * h
  {
    assert (w / h) * h == w;
    assert (n / d) * d == n;
    calc {
      (w / h - n / d) * (d * h);
      (w / h) * h * d - (n / d) * d * h;
      d * w - n * h;
    }
  }

  /** Multiplying by a positive scale keeps the window |x| < 0.1. */
  lemma ScaleStrict(x: real, scale: real, scaled: real)
    requires scale > 0.0 && x * scale == scaled
    ensures -0.1 < x < 0.1 <==> -scale < 10.0 * scaled < scale
  {
    assert x < 0.1 <==> x * scale < 0.1 * scale;
    assert -0.1 < x <==> -0.1 * scale < x * scale;
  }

  lemma RatioLabelExamples()
    ensures RatioLabel(1920, 1080) == "16:9"
    ensures RatioLabel(1080, 1920) == "9:16"
    ensures RatioLabel(640, 480) == "4:3"
    ensures RatioLabel(1000, 1000) == "other"
    ensures RatioLabel(169, 90) == "other"   // exactly 16/9 + 0.1: the strict test fails
    ensures RatioLabel(151, 90) == "other"   // exactly 16/9 - 0.1; float64 rounding puts it inside, as "16:9"
    ensures RatioLabel(1920, 0) == "other"
  {
  }

  /**
   * `getVideoAspectRation` once ffprobe has run: a failed run or undecodable
   * output is an error, an empty stream list is the `Streams[0]` panic, and
   * otherwise the first stream's width and height are classified.
   */
  function GetVideoAspectRatio(probe: ProbeOutput): (r: Result<string, AspectError>)
    ensures r.Success? <==> probe.ProbeJson? && |probe.streams| > 0
    ensures r.Success? ==> r.value == RatioLabel(probe.streams[0].width, probe.streams[0].height)
    ensures r.Failure? && probe.ProbeJson? ==> r.error == NoStreams
  {
    match probe
    case ProbeExitError => Failure(ProbeFailed)
    case ProbeBadJson => Failure(ParseFailed)
    case ProbeJson(streams) =>
      if |streams| == 0 then Failure(NoStreams)
      else Success(RatioLabel(streams[0].width, streams[0].height))
  }

  // ---------------------------------------------------------------- fast start

  /** The file ffmpeg writes beside the input: the input path with ".processing" appended. */
  function FastStartPath(filePath: string): (out: string)
    ensures |out| == |filePath| + 11 && out[..|filePath|] == filePath
    ensures out[|filePath|..] == ".processing"
    ensures out != filePath
  {
    filePath + ".processing"
  }

  /** What running ffmpeg and then `os.Stat` on its output gave. */
  datatype RemuxOutcome = FfmpegFailed | StatFailed | Wrote(size: nat)

  datatype FastStartError = RemuxFailed | NoFileInfo | EmptyOutput

  /**
   * `processVideoForFastStart` once ffmpeg has run: the sibling path when a
   * non-empty file was written, an error otherwise.
   */
  function ProcessVideoForFastStart(filePath: string, run: RemuxOutcome): (r: Result<string, FastStartError>)
    ensures r.Success? <==> run.Wrote? && run.size > 0
    ensures r.Success? ==> r.value == FastStartPath(filePath) && r.value != filePath
    ensures run.Wrote? && run.size == 0 ==> r == Failure(EmptyOutput)
  {
    match run
    case FfmpegFailed => Failure(RemuxFailed)
    case StatFailed => Failure(NoFileInfo)
    case Wrote(size) => if size == 0 then Failure(EmptyOutput) else Success(FastStartPath(filePath))
  }

  // ---------------------------------------------------------------- asset URL

  const AssetURLPrefix := "http://localhost:"

  /** `getAssetURL`: the asset served under /assets/ on the configured local port. */
  function GetAssetURL(port: string, assetPath: string): (url: string)
    ensures |url| == |AssetURLPrefix| + |port| + 8 + |assetPath|
    ensures url[..|AssetURLPrefix|] == AssetURLPrefix
    ensures url[|AssetURLPrefix|..|AssetURLPrefix| + |port|] == port
    ensures url[|AssetURLPrefix| + |port|..] == "/assets/" + assetPath
  {
    AssetURLPrefix + port + "/assets/" + assetPath
  }

  /** On one port, the URL determines the asset path. */
  lemma GetAssetURLInjective(port: string, a: string, b: string)
    requires GetAssetURL(port, a) == GetAssetURL(port, b)
    ensures a == b
  {
    var u := GetAssetURL(port, a);
    var n := |AssetURLPrefix| + |port| + 8;
    assert u[n..] == ("/assets/" + a)[8..] == a;
    assert GetAssetURL(port, b)[n..] == ("/assets/" + b)[8..] == b;
  }
}
