# Video upload: asset naming, storage references and the upload handler

This project models the core of a video-sharing service's upload path.

**Naming helpers (`assets.go`)**
- An asset is named by a random identifier. It is 32 random bytes in unpadded base64url (section 5 of RFC 4648), followed by an extension taken from the media type.
- ffprobe's first stream is classified by its width/height ratio as `16:9`, `4:3`, `9:16` or `other`.
- ffmpeg remuxes the upload "for fast start" into a sibling `.processing` file.
- Local assets are served under `http://localhost:<port>/assets/`.

**Upload handler (`handler_upload_video.go`)**

The handler `handlerUploadVideo` runs these steps in order:
1. Authorises the caller.
2. Accepts a `video/mp4` form file from a request body of at most 1 GiB, multipart framing included.
3. Classifies the file and builds the object key `landscape|portrait|other/<asset name>`.
4. Remuxes the file and uploads it to S3.
5. Stores the reference `bucket,key` in the video record.
6. Answers with a copy of the record whose URL was replaced by a presigned one (`dbVideoToSignedVideo`, 15-minute lifetime).

**Modules**
- `Wrappers` holds `Option`/`Result`.
- `Strings` models Go's `strings.Split` on one character, `strings.Count` and `strings.TrimSpace` (with `unicode.IsSpace`).
- `Base64` models the raw URL encoding with its decoder.
- `Database` holds the video record.
- `Assets` models `assets.go`.
- `VideoReference` models the reference format and `dbVideoToSignedVideo`.
- `UploadVideo` models the handler.

**How the handler is modelled**
- The handler is an imperative method over the outcomes of its outside calls (`Steps`). The database read is a map lookup.
- It is specified by `StageOf`, the first step at which a request stops, and `StatusOf`, the status that step writes.
- The method is split into four phase methods, one per block of the source: `Authorize`, `Receive`, `BuildKey` and `Store`. Each is proved against its own phase function (`AuthorizeStage`, `ReceiveStage`, `KeyStage`, `StoreStage`).

**Consequences of the code worth knowing**
- A reference is split on every comma and must give exactly two parts (handler_upload_video.go:164-167). A comma in the bucket or the key therefore makes the reference malformed.
- A `4:3` video is stored under `other`, alongside every unrecognised ratio (handler_upload_video.go:97-103).
- The three tolerance windows never overlap (`Assets.RatioLabelWindows`), so the order of the tests never decides a label.

## Model

| member | source | states |
|---|---|---|
| Assets.MediaTypeToExt | assets.go:43-49 | the extension always starts with '.', is never empty and holds no '/' |
| Assets.MediaTypeToExtFallback | assets.go:44-47 | a media type without exactly one '/' (so not two parts) gives ".bin" |
| Assets.MediaTypeToExtSubtype | assets.go:48 | "kind/subtype" with slash-free halves gives "." + subtype |
| Assets.MediaTypeToExtOfMp4 | assets.go:48 | "video/mp4" gives ".mp4" |
| Assets.MediaTypeToExtEmptySubtype | assets.go:48 | "video/" gives "." |
| Assets.MediaTypeToExtTooManyParts | assets.go:44-47 | "a/b/c" gives ".bin" |
| Assets.GetAssetPath | assets.go:23-33 | the name is an id followed by the extension; the id is canonical base64url text (alphabet only, zero pad bits) that decodes to the random bytes, which makes it THE encoding of them (`Base64.CanonicalIsEncoding`); 32 bytes give a 43-character id; no '/' |
| Assets.GetAssetPathInjective | assets.go:23-33 | different random bytes give different names for one media type |
| Base64.Encode | assets.go:29 | unpadded length (4n+2)/3; the text is canonical: URL-safe alphabet only, never 1 mod 4 long, and the unused low bits of the last character are zero |
| Base64.EncodePadBits | assets.go:29 | counted from the data: after one leftover byte the last character's low four bits are zero, after two its low two bits |
| Base64.DecodeEncode | assets.go:29 | decoding the encoding gives the bytes back |
| Base64.EncodeInjective | assets.go:29 | the encoding is injective |
| Base64.EncodeDecode | assets.go:29 | encoding what canonical text decodes to gives that text back, so the encoder's output is exactly the canonical texts |
| Base64.CanonicalIsEncoding | assets.go:29 | canonical text that decodes to some bytes is the encoding of those bytes |
| Assets.RatioLabel | assets.go:71-84 | the label is one of "16:9", "4:3", "9:16", "other"; a zero height gives "other" |
| Assets.RatioLabelWindows | assets.go:75-84 | each label holds exactly when the ratio is strictly within 0.1 of its target (or of none, for "other"), so the test order never matters |
| Assets.NearWideInIntegers | assets.go:75 | for a positive height the 16:9 test is 10*abs(9w - 16h) < 9h |
| Assets.NearTallInIntegers | assets.go:81 | for a positive height the 9:16 test is 10*abs(16w - 9h) < 16h |
| Assets.NearInIntegers | assets.go:75-83 | the tolerance test against num/den as an integer inequality |
| Assets.RatioLabelExamples | assets.go:75-84 | 1920x1080 is 16:9, 1080x1920 is 9:16, 640x480 is 4:3, a square is other, 169x90 and 151x90 (exactly on the 16/9 + 0.1 and 16/9 - 0.1 edges) are other, a zero height is other |
| Assets.GetVideoAspectRatio | assets.go:51-85 | succeeds exactly for decoded output with a stream, with the first stream's label; an empty stream list is the index panic |
| Assets.FastStartPath | assets.go:88 | the input path followed by ".processing", never the input itself |
| Assets.ProcessVideoForFastStart | assets.go:87-102 | succeeds exactly when ffmpeg wrote a non-empty file, returning the sibling path; an empty file is an error |
| Assets.GetAssetURL | assets.go:39-41 | the URL is the localhost prefix, the port, "/assets/" and the asset path, in that order |
| Assets.GetAssetURLInjective | assets.go:39-41 | on one port the URL determines the asset path |
| UploadVideo.Directory | handler_upload_video.go:97-103 | 16:9 maps to landscape, 9:16 to portrait, everything else (4:3 included) to other |
| UploadVideo.UploadKeyShape | handler_upload_video.go:104-105 | the key splits on '/' into exactly the directory and the asset name, contains no comma, has no surrounding space; 32 bytes give directory + 1 + 47 characters |
| UploadVideo.Mp4AssetName | handler_upload_video.go:104 | the asset name of an accepted upload ends in ".mp4" and holds no ',' and no '/'; 32 bytes give 47 characters |
| UploadVideo.ObjectKeySegments | handler_upload_video.go:105 | joining two slash-free segments splits back into them |
| VideoReference.Serialize | handler_upload_video.go:133 | the reference holds one more comma than bucket and key together |
| VideoReference.ParseReference | handler_upload_video.go:164-172 | a parse fails with the part count exactly when the reference has other than one comma; on success both halves are non-empty, comma-free and trimmed |
| VideoReference.ParseOneComma | handler_upload_video.go:164-172 | with one comma the halves are the trimmed text around it, and a blank half is refused |
| VideoReference.ParseBlankBucket | handler_upload_video.go:168-172 | an all-space bucket half is refused as an empty part |
| VideoReference.ParseOnePartExample | handler_upload_video.go:164-167 | a reference without a comma is refused with one part |
| VideoReference.ParseSerialize | handler_upload_video.go:133-172 | parsing a written reference gives back the bucket and key exactly when both are non-empty, comma-free and trimmed |
| VideoReference.ParseIsNormalising | handler_upload_video.go:164-172 | rewriting a parsed pair and parsing again gives the same pair |
| VideoReference.DbVideoToSignedVideo | handler_upload_video.go:160-180 | a record without a URL comes back unchanged; a malformed reference is refused with its cause; otherwise it succeeds exactly when presigning bucket and key for 15 minutes succeeds, and only the URL changes, to the presigned one; a failed presign gives the presign error |
| VideoReference.SignWrittenReference | handler_upload_video.go:133-179 | a reference written from a plain bucket and key is signed for exactly that pair; only the presign call can fail, and its failure is the only error |
| UploadVideo.StatusOf | handler_upload_video.go:31-145 | 401 exactly for a missing or invalid JWT or a non-owner; 400 exactly for form, content-type and media-type failures; 500 exactly for the lookup and internal step failures; 200 only on success; nothing for the two panics |
| UploadVideo.Authorize | handler_upload_video.go:29-50 | stops at the first failing check among token, JWT, lookup, ownership; otherwise returns the stored record |
| UploadVideo.Receive | handler_upload_video.go:52-89 | stops at the first failure among form file (including a body over 1 GiB), content type, "video/mp4", temp file, copy, seek; otherwise returns the temp file's name |
| UploadVideo.BuildKey | handler_upload_video.go:91-105 | stops on a probe failure, the no-stream panic or the randomness panic; otherwise returns the upload key of the first stream and the random bytes |
| UploadVideo.Store | handler_upload_video.go:107-145 | stores the remuxed file under the key only after remux and open succeed; updates the record to point at bucket,key only after the upload; answers 200 with the record's signed copy only after the update; each failure writes 500 |
| UploadVideo.StoreStageUpdated | handler_upload_video.go:107-139 | once remux, open, upload and update succeed the record has been updated, whatever the key |
| UploadVideo.AuthorizeAndUpload | handler_upload_video.go:29-145 | the outcome matches the first failing step (status, panic, stored object, updated record, body); storing implies an authorised owner, a body within 1 GiB, video/mp4 and a successful upload; updating implies storing |
| UploadVideo.HandleUpload | handler_upload_video.go:20-146 | with a valid ID the outcome matches the stage sequence; with a malformed ID a 400 is written first and the request then carries on with the parsed ID |
| UploadVideo.HandleUploadFixed | handler_upload_video.go:20-146 | with a malformed ID only a 400 is written and nothing is stored; otherwise as the stage sequence |
| UploadVideo.StoredReferenceParses | handler_upload_video.go:133-172 | with a plain bucket name every reference the handler writes parses back to that bucket and the upload key |
| UploadVideo.SignFailsOnlyInPresign | handler_upload_video.go:140-176 | with a plain bucket name a request that updated the record fails afterwards only if presigning that bucket and key for 15 minutes fails |
| UploadVideo.StoreSignFails | handler_upload_video.go:140-176 | the same for the store phase at any plain key |
| UploadVideo.BadIdWithoutToken | handler_upload_video.go:24-34 | a malformed ID and no token write 400 and then 401 |
| UploadVideo.BadIdStillUploads | handler_upload_video.go:24-139 | a malformed ID that parses to an owned video's ID is answered 400, yet the object is stored and the record updated |

## Left out

- Running ffprobe and ffmpeg and decoding ffprobe's JSON: their results (`ProbeOutput`, `RemuxOutcome`) are inputs.
- Assets.RatioLabel: does not model float64 rounding in `width / height` and `math.Abs`, because the ratio is computed on exact reals. At ratios exactly 0.1 from a target the answers differ: 151x90, 37x30, 53x80 and 37x80 (and their multiples, such as 1208x720 and 740x1600) sit on an edge, where the exact ratio fails the strict test and the model says "other", while the rounded float64 difference falls just below 0.1, so Go answers "16:9", "4:3", "9:16" and "9:16" respectively. At 169x90 and 43x30 the rounding goes the other way and Go agrees with the model.
- Assets.RatioLabelExamples: the 151x90 case states the exact-real answer "other"; Go's float64 test answers "16:9" there (see Assets.RatioLabel).
- `crypto/rand`: the 32-byte buffer `getAssetPath` fills is an input, `Steps.random`, of type `RandomBytes` (exactly 32 bytes). `None` is the read failure, whose panic is `Outcome.panicked`.
- S3 `PutObject` is a boolean outcome, and `generatePresignedURL` is an abstract function (`Presigner`). Signed URL contents are not specified.
- HTTP framing is abstract: `MaxBytesReader` is reduced to the 1 GiB comparison, and `mime.ParseMediaType` and `r.FormFile` are outcomes. The response bodies of errors are not modelled, only their statuses.
- JWT extraction and validation are inputs. `internal/auth` is not part of this model.
- The database is a map for `GetVideo`, so every read failure is a missing row. `UpdateVideo` is a boolean outcome. `internal/database` is not part of this model.
- Temp-file creation, `defer` cleanup (`os.Remove`, `Close`), `os.Stat` and `os.Open` are outcomes. Deleting the temp and processed files is not modelled.
- `ensureAssetsDir` and `getAssetDiskPath` (assets.go:16-21, 35-37) are filesystem plumbing. They are not modelled.
- UploadVideo.ObjectKey: `filepath.Join` is modelled as `dir + "/" + name`, without Join's path cleaning. Cleaning is the identity for these keys, because the directory is a plain word and the asset name holds no '/'.
- On an error, `dbVideoToSignedVideo` also returns the unchanged video. The model returns only the error, which the handler discards.
- `uuid.Parse`: the ID it yields (including on error) is an input, `Steps.videoID`. Its parsing rules are not modelled.
- The `createdAt`/`updatedAt` timestamps are carried in the record, not interpreted.
- Concurrency between requests is not modelled; the handler has no shared in-process state.
- Go strings are byte sequences; here a `string` is a sequence of Unicode characters. This changes nothing for the rules modelled: the separators ',' and '/' are ASCII bytes that never occur inside a multi-byte UTF-8 sequence, and Go's `TrimSpace` treats invalid bytes as non-space. Invalid UTF-8 input is not represented.

## Findings

| source | as written | input that shows it | evidently intended | confidence | as-written member | corrected member |
|---|---|---|---|---|---|---|
| handler_upload_video.go:24-27 | after a malformed video ID the handler writes 400 but does not return, so it goes on with the value `uuid.Parse` produced | a malformed ID with no bearer token writes 400 then 401; a malformed ID whose parsed value (the nil UUID) is the ID of a video the caller owns is answered 400, yet the upload is stored and the record updated | return right after the 400, with nothing stored | not executed | UploadVideo.HandleUpload, UploadVideo.BadIdWithoutToken, UploadVideo.BadIdStillUploads | UploadVideo.HandleUploadFixed |
