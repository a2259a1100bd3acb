# Tubely asset uploads, modelled in Dafny

This project models the upload path of Tubely. Tubely is a small Go web
service that stores video thumbnails on the local disk and videos in S3. The
model covers three parts:

- The asset helpers of `assets.go`:
  - the media type to file extension mapping;
  - the random asset name (the unpadded base64url encoding of 32 random bytes);
  - the S3 object URL, the local asset URL and the disk path of an asset;
  - the classification of the first probed video stream as "16:9", "9:16" or "other";
  - the name of the fast-start output file.
- `handlerUploadVideo`, as a method over an environment. The environment holds
  the set of files on disk and the log of calls made to S3 and the database.
  The model follows each gate of the handler:
  - the temporary file that holds the request body;
  - the probe and the `ffmpeg` remux;
  - the storage key `<landscape|portrait|other>/<name>.mp4`;
  - the S3 upload and the record update;
  - the `defer` stack, which closes and removes the files on every return,
    last registered first.
- `handlerUploadThumbnail`, in the same style:
  - the `image/jpeg`/`image/png` allow-list;
  - the split of the media type into its subtype;
  - the file name and its local URL;
  - writing the image under the assets root;
  - removing the previous thumbnail's file before the record update.

Every external step is an input to the model, given as its outcome:

- the request parsing, the JWT checks and the database lookup;
- `os.CreateTemp`, the copy and the flush;
- `ffprobe` (with its decoded stream list) and `ffmpeg`;
- the S3 call and the database update;
- the random bytes.

The handlers are proved against specification functions (`VideoExit`,
`DeferStack`, `DiskAfter`, `Requests` and their thumbnail counterparts). Those
functions say where the handler returns, which HTTP status it sends, which
files remain and which calls it makes, in which order.

Supporting modules:

- `Text` models `strings.Split` for one separator, with `Join` as its inverse.
- `GoPath` models `path.Split`, `path.Base` and a joining `filepath.Join`.
- `Base64Url` models unpadded base64url, as in section 5 of RFC 4648, with a
  decoder as its inverse.
- `Host` models the disk, the call log and Go's last-in, first-out `defer`.

The floating-point test `math.Abs(w/h - 16.0/9.0) < 0.01` is modelled as an
exact integer test. `Assets.ClassifyMatchesTolerance` proves that integer test
equal to the test over exact rationals.

## Model

| member | source | states |
|---|---|---|
| `Text.Split` | assets.go:56 | `strings.Split` gives one more piece than there are separators, and no piece holds a separator |
| `Text.JoinSplit` | assets.go:56 | joining the pieces of `strings.Split` with the separator gives back the input, so the split loses nothing |
| `Text.SplitAround` | handler_upload_thumbnail.go:76 | a string with exactly one separator splits into the text before it and the text after it |
| `Text.OneSeparator` | assets.go:56-60 | with exactly one separator at position i, the pieces are the text before i and the text after i |
| `GoPath.PathSplit` | handler_upload_video.go:126 | `path.Split` gives a directory part that is empty or ends in `/`, and a file part without `/`; together they are the input |
| `GoPath.PathSplitNoSlash` | handler_upload_video.go:126 | a path without a slash has an empty directory part and is its own file part |
| `GoPath.PathBase` | handler_upload_thumbnail.go:105 | `path.Base` is never empty, and it is "/" or holds no slash |
| `GoPath.PathBaseOfName` | handler_upload_thumbnail.go:104-106 | the last element of `dir/name` is `name` when `name` is non-empty and has no slash |
| `GoPath.JoinPath` | assets.go:32 | the joined path is the root, one slash, then the name |
| `Base64Url.Encode` | assets.go:41 | the encoding has `EncodedLength` characters, all from the URL-safe alphabet |
| `Base64Url.DecodeEncode` | assets.go:41 | decoding the unpadded base64url encoding of any byte string gives it back |
| `Base64Url.EncodeInjective` | assets.go:36-41 | different random byte strings never give the same asset name |
| `Base64Url.ThirtyTwoBytes` | assets.go:36-41 | the name of 32 bytes is 43 characters long, with no slash and no dot |
| `Assets.ApiConfig.AssetDiskPath` | assets.go:31-33 | `getAssetDiskPath` is the assets root, a slash and the asset path |
| `Assets.ApiConfig.ObjectURL` | assets.go:47-49 | `getObjectURL` starts with `https://` and ends with the key |
| `Assets.ApiConfig.AssetURL` | assets.go:51-53 | `getAssetURL` starts with `http://localhost:` and ends with the asset path |
| `Assets.AssetURLBase` | assets.go:51-53 | `path.Base` of the asset URL of a slash-free asset path is that path |
| `Assets.AssetURLRoundTrip` | assets.go:31-33 | the disk path of the file name read back from an asset URL is the file the name was stored at |
| `Assets.ObjectURLShape` | assets.go:47-49 | `getObjectURL` is an https URL that ends in the key, and the key can be read back from it |
| `Assets.ObjectKeyInverse` | assets.go:47-49 | every URL from which a key is read is the object URL of that key |
| `Assets.MediaTypeToExt` | assets.go:55-61 | the extension starts with a dot and holds no slash; a media type without exactly one slash gives ".bin" |
| `Assets.ExtAfterSlash` | assets.go:55-61 | with exactly one slash, the extension is "." and the text after the slash |
| `Assets.ExtOfTypeAndSubtype` | assets.go:55-61 | `type/subtype` gives "." and the subtype |
| `Assets.Mp4Extension` | assets.go:55-61 | "video/mp4" gives ".mp4" |
| `Assets.PngExtension` | assets.go:55-61 | "image/png" gives ".png" |
| `Assets.EmptySubtypeExtension` | assets.go:57-60 | "video/" passes the two-part check and gives a bare "." |
| `Assets.MalformedExamples` | assets.go:57-59 | no slash, or two slashes, gives ".bin" |
| `Assets.AssetPath` | assets.go:35-45 | the asset path is 43 characters that decode to the random bytes, then the extension, and holds no slash |
| `Assets.Mp4AssetPath` | assets.go:35-45 | the asset path of an MP4 is the base64url name and ".mp4" |
| `Assets.AssetPathInjective` | assets.go:35-45 | different random bytes give different asset paths |
| `Assets.LandscapeExact` | assets.go:82-83 | the integer 16:9 test holds exactly when `abs(w/h - 16/9) < 0.01` over the rationals, with no match for a zero height |
| `Assets.PortraitExact` | assets.go:82-86 | the integer 9:16 test holds exactly when `abs(w/h - 9/16) < 0.01` over the rationals |
| `Assets.BandsDisjoint` | assets.go:83-88 | no ratio is within tolerance of both 16/9 and 9/16 |
| `Assets.ClassifyRatio` | assets.go:80-89 | the classification is one of "16:9", "9:16" and "other", and "other" for a zero height |
| `Assets.ClassifyMatchesTolerance` | assets.go:80-89 | the result is "16:9" exactly when the ratio is within 0.01 of 16/9, and "9:16" exactly when it is within 0.01 of 9/16 |
| `Assets.CheckOrderIrrelevant` | assets.go:83-89 | testing 9:16 before 16:9 would classify every ratio the same way |
| `Assets.ClassifyExamples` | assets.go:80-89 | 1920x1080 and 1280x720 are "16:9", 1080x1920 is "9:16", a square is "other", 1.787 is inside the band and 1.79 is outside it |
| `Assets.VideoAspectRatio` | assets.go:63-91 | a failed probe, undecodable output and an empty stream list are the three errors; otherwise the result is the classification of the first stream |
| `Assets.AspectRatioTolerance` | assets.go:76-89 | a decoded probe is "16:9" or "9:16" exactly when its first stream is within tolerance of that ratio |
| `Assets.OnlyFirstStream` | assets.go:80-81 | streams after the first never change the result |
| `Assets.DimensionlessStream` | assets.go:80-89 | a first stream without width and height is "other", not an error |
| `Assets.ProcessedPath` | assets.go:95 | the fast-start output is the input path followed by ".processing", a different file |
| `Assets.ProcessVideoForFastStart` | assets.go:93-101 | the result is the processed path exactly when `ffmpeg` succeeded, and an error otherwise |
| `Host.Unwound` | handler_upload_video.go:80-81 | unwinding runs exactly one deferred call per entry |
| `Host.UnwoundLifo` | handler_upload_video.go:80-81 | the k-th call made on return is the k-th entry from the top of the `defer` stack |
| `Host.Environment.Unwind` | handler_upload_video.go:80-81 | returning removes the paths of the `os.Remove` entries and logs every deferred call, last first |
| `UploadVideo.Status` | handler_upload_video.go:24-149 | 200 only on success; 400 for a bad ID, a missing file part, a bad Content-Type and a non-MP4 type; 401 for token and ownership failures; 500 for every other failure |
| `UploadVideo.VideoExit` | handler_upload_video.go:24-149 | the handler reaches the 200 response exactly when every step up to the update succeeded; it stops at an admission exit (lines 24-60) exactly when an admission gate fails |
| `UploadVideo.UploadKey` | handler_upload_video.go:120-127 | the key starts with the orientation label and a slash and ends in ".mp4" |
| `UploadVideo.UpdatedVideo` | handler_upload_video.go:141-142 | the record keeps its ID, owner and thumbnail URL; its video URL is an object URL of this bucket that names the upload key |
| `UploadVideo.Requests` | handler_upload_video.go:130-147 | at most two calls, made exactly when the upload is reached; the first uploads the remuxed file as "video/mp4"; a second, the update, only after a successful upload |
| `UploadVideo.DeferStack` | handler_upload_video.go:61-118 | the stack is empty exactly when an admission gate failed; the form part's close is at the bottom; each file's close is registered right after its removal, so it runs first |
| `UploadVideo.CreatedFiles` | handler_upload_video.go:75-111 | the handler creates a file exactly when `os.CreateTemp` succeeded: the temporary file, and at most the `ffmpeg` output besides |
| `UploadVideo.DiskAfter` | handler_upload_video.go:75-118 | the disk is unchanged before the temporary file exists; the temporary file is never left; no file appears that the handler did not create |
| `UploadVideo.OrientationLabel` | handler_upload_video.go:120-125 | "16:9" is landscape, "9:16" is portrait, anything else is other |
| `UploadVideo.DeriveKey` | handler_upload_video.go:120-127 | for an MP4, the key is the orientation label, a slash, the base64url name and ".mp4" |
| `UploadVideo.PhasesAreStages` | handler_upload_video.go:75-118 | the staged, filled, processed and reached-upload phases are exactly the exits past each gate; partial `ffmpeg` output is a failed remux that wrote output |
| `UploadVideo.DiskAfterUnwind` | handler_upload_video.go:80-111 | the disk after a run is the starting disk plus the files the handler created, less what the deferred removals delete |
| `UploadVideo.PublishVideo` | handler_upload_video.go:120-149 | the upload and the update are logged in order, the disk is unchanged, and the response is the updated record only on success |
| `UploadVideo.ProcessVideo` | handler_upload_video.go:99-111 | probing and remuxing return at the exit `VideoExit` gives, push the rest of the entries `DeferStack` gives, and add only the `ffmpeg` output to the disk |
| `UploadVideo.StageVideo` | handler_upload_video.go:63-97 | after admission, the run returns at the exit `VideoExit` gives, with the `defer` entries `DeferStack` gives, the files `CreatedFiles` gives and the calls `Requests` gives |
| `UploadVideo.FillTempFile` | handler_upload_video.go:83-97 | copying, flushing and rewinding return at the exit `VideoExit` gives, push the rest of the entries `DeferStack` gives, and add only the files `CreatedFiles` gives besides the temporary file |
| `UploadVideo.OpenProcessed` | handler_upload_video.go:113-118 | reopening the `ffmpeg` output returns at the exit `VideoExit` gives, pushes its close exactly when it reached the upload, leaves the disk alone, and makes the calls `Requests` gives |
| `UploadVideo.HandleUploadVideo` | handler_upload_video.go:17-150 | the handler returns at the first failing gate with its status; the final disk is `DiskAfter`; the calls are the upload requests then the deferred calls, last registered first |
| `UploadVideo.NotStaged` | handler_upload_video.go:63-79 | a request refused before `os.CreateTemp` succeeded only has the form part to close, and creates and requests nothing |
| `UploadVideo.NothingStaged` | handler_upload_video.go:24-60 | a request refused before the form part opened leaves no file, no request and no deferred call |
| `UploadVideo.NotFilled` | handler_upload_video.go:83-97 | a failed copy, flush or rewind leaves only the temporary file's entries on the `defer` stack, and makes no S3 or database call |
| `UploadVideo.NotUploaded` | handler_upload_video.go:99-118 | a run that stops between the probe and the upload makes no S3 or database call, and defers the removal of the `ffmpeg` output only once `ffmpeg` succeeded |
| `UploadVideo.NonMp4Rejected` | handler_upload_video.go:69-72 | a non-MP4 body gets 400 before anything touches the disk, S3 or the database; only the form part is closed |
| `UploadVideo.OwnerBeforeForm` | handler_upload_video.go:50-61 | a caller who does not own the video gets 401 whatever the body holds, with nothing opened |
| `UploadVideo.NoStagingFileLeft` | handler_upload_video.go:80-111 | the temporary file never outlives the request, nor does the remuxed file once `ffmpeg` succeeded; the only new file left behind is the partial output of a failed `ffmpeg` |
| `UploadVideo.ClosedBeforeRemoved` | handler_upload_video.go:80-118 | on return each file is closed before it is removed, the remuxed file first and the form part last |
| `UploadVideo.UploadKeyShape` | handler_upload_video.go:126-127 | the key splits on "/" into exactly the orientation label and the asset name |
| `UploadVideo.UploadKeyInjective` | handler_upload_video.go:126-127 | two uploads share a key only if they drew the same random bytes |
| `UploadVideo.UploadRequests` | handler_upload_video.go:130-147 | the upload streams the remuxed file with content type "video/mp4"; the record update comes after it, and only when S3 accepted the object |
| `UploadVideo.UpdateSetsOnlyURL` | handler_upload_video.go:141-143 | the update changes only the video URL, which names the uploaded object |
| `UploadVideo.LandscapeUpload` | handler_upload_video.go:120-149 | a 1920x1080 MP4 that passes every step is stored as `landscape/<name>.mp4` with status 200 |
| `UploadThumbnail.Status` | handler_upload_thumbnail.go:19-119 | 200 only on success; 400 for a bad ID, an unparsable form, a missing part, a bad or disallowed media type and the split check; 401 for token and ownership failures; 500 for the lookup, create, copy and update failures |
| `UploadThumbnail.ThumbnailExit` | handler_upload_thumbnail.go:20-118 | the handler reaches the 200 response exactly when every step up to the update succeeded |
| `UploadThumbnail.IsAllowedImage` | handler_upload_thumbnail.go:60 | an allowed media type is an image type: it starts with "image/" |
| `UploadThumbnail.Subtype` | handler_upload_thumbnail.go:76-82 | an accepted subtype is non-empty and has no slash; a media type without exactly one slash is refused |
| `UploadThumbnail.SubtypeOf` | handler_upload_thumbnail.go:76-82 | `type/subtype` with a non-empty subtype passes the split check with that subtype |
| `UploadThumbnail.SubtypeSuffix` | handler_upload_thumbnail.go:76-82 | the accepted subtype is what the media type ends with after its only slash |
| `UploadThumbnail.AllowedImageSubtype` | handler_upload_thumbnail.go:60-82 | past the allow-list the split check cannot fail: the subtype is "jpeg" or "png" |
| `UploadThumbnail.ThumbnailURL` | handler_upload_thumbnail.go:101 | the URL built with its own format string is `getAssetURL` of the stored file name |
| `UploadThumbnail.FileNameHasNoSlash` | handler_upload_thumbnail.go:85-87 | the stored file name holds no slash |
| `UploadThumbnail.ThumbnailFileName` | handler_upload_thumbnail.go:87 | the file name is never empty, and it holds no slash when neither the random name nor the extension does |
| `UploadThumbnail.ImagePath` | handler_upload_thumbnail.go:88 | the image is written directly under the assets root: the root, a slash, then a name without a slash |
| `UploadThumbnail.OldThumbnailPath` | handler_upload_thumbnail.go:103-107 | there is a file to remove exactly when the record had a thumbnail URL; that path is the assets root, a slash, then a name without a slash, unless `path.Base` gave "/" |
| `UploadThumbnail.UpdatedVideo` | handler_upload_thumbnail.go:101-111 | the record keeps its ID, owner and video URL; its thumbnail URL is `getAssetURL` of the stored file name |
| `UploadThumbnail.Requests` | handler_upload_thumbnail.go:103-112 | at most two calls, made exactly when the update is reached; the update is the last, and a removal comes before it when there are two |
| `UploadThumbnail.DeferStack` | handler_upload_thumbnail.go:52-94 | the stack is empty exactly when an admission gate failed; the form part's close is at the bottom; every entry is a close |
| `UploadThumbnail.DiskAfter` | handler_upload_thumbnail.go:89-108 | the disk is unchanged until the image file is created; the only new file is the image; nothing is deleted unless the update was reached |
| `UploadThumbnail.ThumbnailURLRoundTrip` | handler_upload_thumbnail.go:88-107 | `path.Base` of the thumbnail URL, through `getAssetDiskPath`, is the path the image was written to |
| `UploadThumbnail.PhasesAreStages` | handler_upload_thumbnail.go:76-99 | the named, created and reached-update phases are exactly the exits past the split check, `os.Create` and `io.Copy` |
| `UploadThumbnail.NothingOpened` | handler_upload_thumbnail.go:20-51 | a request refused before the part opened leaves nothing behind |
| `UploadThumbnail.NothingWritten` | handler_upload_thumbnail.go:54-80 | a request refused while validating the part only closes the part |
| `UploadThumbnail.RemoveOldThumbnail` | handler_upload_thumbnail.go:103-109 | the file that the previous URL's base names under the assets root is removed if there was a previous URL, and nothing else |
| `UploadThumbnail.ReplaceThumbnail` | handler_upload_thumbnail.go:103-118 | the old file is removed, then the record with the new URL is written; the response is that record only on success |
| `UploadThumbnail.StoreThumbnail` | handler_upload_thumbnail.go:82-118 | naming, writing and replacing return at the exit `ThumbnailExit` gives, with the `defer` entries `DeferStack` gives, the disk `DiskAfter` gives and the calls `Requests` gives |
| `UploadThumbnail.ValidateThumbnail` | handler_upload_thumbnail.go:54-80 | validation, then storing, returns at the exit `ThumbnailExit` gives, with the `defer` entries `DeferStack` gives, the disk `DiskAfter` gives and the calls `Requests` gives |
| `UploadThumbnail.HandleUploadThumbnail` | handler_upload_thumbnail.go:19-119 | the handler returns at the first failing gate with its status; the final disk is `DiskAfter`; the calls are the removal, the update, then the deferred closes |
| `UploadThumbnail.NoDeferredRemoval` | handler_upload_thumbnail.go:52-94 | this handler defers only closes: nothing it writes is removed on return |
| `UploadThumbnail.NotImageRejected` | handler_upload_thumbnail.go:60-65 | a media type outside the allow-list gets 400 whatever the video lookup would give, and nothing is written or requested |
| `UploadThumbnail.BadSubtypeUnreachable` | handler_upload_thumbnail.go:60-80 | no input ever reaches the "Invalid Content-Type for thumbnail" exit |
| `UploadThumbnail.StoredFile` | handler_upload_thumbnail.go:82-101 | the image is stored at `join(assetsRoot, name + "." + jpeg/png)`, and the new URL is `getAssetURL` of that file name and leads back to that file |
| `UploadThumbnail.UpdateSetsOnlyThumbnail` | handler_upload_thumbnail.go:111 | the update changes only the thumbnail URL |
| `UploadThumbnail.OldRemovedBeforeUpdate` | handler_upload_thumbnail.go:103-115 | the previous file is removed, if there was one, before the update, and is gone even when the update fails |
| `UploadThumbnail.NewImageKept` | handler_upload_thumbnail.go:89-99 | once created, the new image file stays, even when the copy or the update failed, unless the previous thumbnail URL names that same file (line 108 then deletes the file just written) |
| `UploadThumbnail.PngUpload` | handler_upload_thumbnail.go:60-118 | a PNG that passes every step is saved with status 200 under a ".png" name |

## Left out

- Running `ffprobe` and `ffmpeg` (assets.go:64-69, 96-97). They are represented by their outcomes. The JSON decoding is represented by its result: an error, or the decoded stream list, where a missing width or height is 0.
- Floating-point rounding in the ratio test. The model decides it exactly over the rationals, so a ratio within a few ulps of a band edge may differ from Go's `float64` result.
- HTTP, JWT and multipart parsing, `mime.ParseMediaType`, `uuid.Parse`, and the response bodies. Their outcomes are inputs. The 1 GiB `MaxBytesReader` limit (handler_upload_video.go:20-21) is not modelled on its own: `r.FormFile` reads the whole multipart body, so an oversized body ends at the 400 `NoFormFile` exit, an outcome the model already has.
- The database and S3: only the calls and their arguments are recorded, and success or failure is an input. The update writes only the four modelled fields of `database.Video`.
- `crypto/rand`: the 32 random bytes are an input, and `getAssetPath`'s panic on a read failure is not modelled.
- `os.Remove` is assumed to succeed (`Host.Environment.RemoveFile`, `Host.Environment.Unwind`). The source ignores its error (the deferred removals at handler_upload_video.go:80 and :111, and `_ = os.Remove` at handler_upload_thumbnail.go:108), so a failed removal would leave the file behind; `NoStagingFileLeft` and `OldRemovedBeforeUpdate` conclude that a file is gone only under this assumption.
- The lexical cleaning that `filepath.Join` does. `JoinPath` joins with one slash.
- Logging (`fmt.Println`, `fmt.Printf`), `ensureAssetsDir`, and the presigned-URL helper, which the source comments out.
- `UploadVideo.DeriveKey`: its contract gives the key only for "video/mp4", because no other media type gets past line 69 to reach line 126.
- A failed `ffmpeg` that wrote part of its output leaves that file on disk, because no `defer` removes it before line 111. The model keeps this behaviour (`LeftPartialOutput`, `NoStagingFileLeft`).
- A failed copy of a thumbnail leaves the created file on disk. The model keeps this (`NewImageKept`).
- Orientation: `getVideoAspectRatio` returns "16:9", "9:16" or "other", not an orientation; the handler maps those to the key label (`OrientationLabel`).
