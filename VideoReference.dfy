/**
 * The storage reference kept in a video's `VideoURL` field: the bucket and the
 * object key joined by one comma. The handler writes it after uploading; on the
 * way out `dbVideoToSignedVideo` parses it back and swaps in a presigned URL.
 */
module VideoReference {
  import opened Wrappers
  import opened Strings
  import opened Database

  /** `15 * time.Minute`, a Go duration in nanoseconds. */
  const SignedURLTTL: nat := 15 * 60 * 1_000_000_000

  /**
   * `generatePresignedURL(client, bucket, key, expireTime)`: the S3 presign call,
   * taken as given. `None` is its error.
   */
  type Presigner = (string, string, nat) -> Option<string>

  /** `fmt.Sprintf("%s,%s", bucket, key)`. */
  function Serialize(bucket: string, key: string): (ref: string)
    ensures Count(ref, ',') == Count(bucket, ',') + Count(key, ',') + 1
  {
    CountAppend(bucket + ",", key, ',');
    CountAppend(bucket, ",", ',');
    bucket + "," + key
  }

  datatype ReferenceError =
    | WrongPartCount(parts: nat)  // the split on ',' did not give two parts
    | EmptyPart                   // bucket or key is empty once trimmed

  /** A bucket or key that survives the round trip: non-empty, comma-free, not padded. */
  predicate Plain(part: string)
  {
    part != [] && ',' !in part && Trimmed(part)
  }

  /**
   * The parsing half of `dbVideoToSignedVideo`: split on every ',', demand two
   * parts, trim both and demand both non-empty.
   */
  function ParseReference(ref: string): (r: Result<(string, string), ReferenceError>)
    ensures r.Success? ==> Plain(r.value.0) && Plain(r.value.1)
    ensures r.Success? ==> Count(ref, ',') == 1
    ensures r == Failure(WrongPartCount(Count(ref, ',') + 1)) <==> Count(ref, ',') != 1
  {
    SplitLength(ref, ',');
    var parts := Split(ref, ',');
    if |parts| != 2 then Failure(WrongPartCount(|parts|))
    else
      var bucket := TrimSpace(parts[0]);
      var key := TrimSpace(parts[1]);
      if bucket == "" || key == "" then Failure(EmptyPart)
      else
        TrimmedHasNoComma(parts[0]);
        TrimmedHasNoComma(parts[1]);
        Success((bucket, key))
  }

  /** Trimming never adds a character, so a comma-free part stays comma-free. */
  lemma TrimmedHasNoComma(s: string)
    requires ',' !in s
    ensures ',' !in TrimSpace(s)
  {
    var n := LeadingSpace(s);
    var t := s[n..];
    assert forall k :: 0 <= k < |t| ==> t[k] == s[n + k];
    var u := t[..|t| - TrailingSpace(t)];
    assert forall k :: 0 <= k < |u| ==> u[k] == t[k];
  }

  /** With one comma, the parts are the text around it, each trimmed. */
  lemma ParseOneComma(b: string, k: string)
    requires ',' !in b && ',' !in k
    ensures TrimSpace(b) == [] || TrimSpace(k) == [] ==> ParseReference(b + "," + k) == Failure(EmptyPart)
    ensures TrimSpace(b) != [] && TrimSpace(k) != [] ==>
      ParseReference(b + "," + k) == Success((TrimSpace(b), TrimSpace(k)))
  {
    SplitAtFirst(b, k, ',');
    assert b + "," + k == b + [','] + k;
    assert Split(k, ',') == [k];
    assert Split(b + "," + k, ',') == [b, k];
  }

  /**
   * Round trip: parsing a serialised pair gives the pair back exactly when both
   * halves are plain.
   */
  lemma ParseSerialize(bucket: string, key: string)
    ensures ParseReference(Serialize(bucket, key)) == Success((bucket, key)) <==> Plain(bucket) && Plain(key)
  {
    if Plain(bucket) && Plain(key) {
      ParseOneComma(bucket, key);
      TrimSpaceOfTrimmed(bucket);
      TrimSpaceOfTrimmed(key);
    }
  }

  /** What a parse returns, serialised again, parses to the same pair. */
  lemma ParseIsNormalising(ref: string)
    requires ParseReference(ref).Success?
    ensures ParseReference(Serialize(ParseReference(ref).value.0, ParseReference(ref).value.1)) == ParseReference(ref)
  {
    var p := ParseReference(ref).value;
    ParseSerialize(p.0, p.1);
  }

  lemma ParseOnePartExample()
    ensures ParseReference("onlyonepart") == Failure(WrongPartCount(1))
  {
    assert ',' !in "onlyonepart";
  }

  /** A reference whose bucket half is only white space is refused as having an empty part. */
  lemma ParseBlankBucket(b: string, k: string)
    requires AllSpace(b) && ',' !in b && ',' !in k
    ensures ParseReference(b + "," + k) == Failure(EmptyPart)
  {
    AllSpaceTrims(b);
    ParseOneComma(b, k);
  }

  datatype SignError =
    | Malformed(cause: ReferenceError)  // the stored reference is not "bucket,key"
    | PresignFailed                     // the presign call returned an error

  /**
   * `dbVideoToSignedVideo`: a video without a reference is returned as it is;
   * otherwise the reference is parsed and replaced by a URL presigned for
   * fifteen minutes. (Go also returns the unchanged video beside an error; the
   * caller drops it, so the model keeps only the error.)
   */
  function DbVideoToSignedVideo(video: Video, presign: Presigner): (r: Result<Video, SignError>)
    ensures video.videoURL.None? ==> r == Success(video)
    ensures r.Success? ==> r.value.(videoURL := video.videoURL) == video
    ensures video.videoURL.Some? && ParseReference(video.videoURL.value).Failure? ==>
      r == Failure(Malformed(ParseReference(video.videoURL.value).error))
    ensures video.videoURL.Some? && ParseReference(video.videoURL.value).Success? ==>
      var (bucket, key) := ParseReference(video.videoURL.value).value;
      && (r.Success? <==> presign(bucket, key, SignedURLTTL).Some?)
      && (r.Success? ==> r.value.videoURL == presign(bucket, key, SignedURLTTL))
      && (presign(bucket, key, SignedURLTTL).None? ==> r == Failure(PresignFailed))
  {
    match video.videoURL
    case None => Success(video)
    case Some(ref) =>
      match ParseReference(ref)
      case Failure(e) => Failure(Malformed(e))
      case Success((bucket, key)) =>
        match presign(bucket, key, SignedURLTTL)
        case None => Failure(PresignFailed)
        case Some(url) => Success(video.(videoURL := Some(url)))
  }

  /**
   * A video whose reference was written from a plain bucket and key is signed
   * for exactly that bucket and key; only the presign call itself can fail.
   */
  lemma SignWrittenReference(video: Video, bucket: string, key: string, presign: Presigner)
    requires Plain(bucket) && Plain(key)
    ensures var signed := DbVideoToSignedVideo(video.(videoURL := Some(Serialize(bucket, key))), presign);
      && (signed.Success? <==> presign(bucket, key, SignedURLTTL).Some?)
      && (signed.Success? ==> signed.value == video.(videoURL := presign(bucket, key, SignedURLTTL)))
      && (signed.Failure? ==> signed == Failure(PresignFailed))
  {
    ParseSerialize(bucket, key);
  }
}
