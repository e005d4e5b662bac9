# bumblebee task pipeline, modelled in Dafny

bumblebee is an image service. Its HTTP front accepts one uploaded image
(`POST /api/images`, multipart only), gives it a hashed file name and hands
the decoded image to the dispatcher. The dispatcher fans the image out into
three kinds of tasks: one thumbnail task, one resize task per configured
width, and one upload task for the original. All of them share one
`BaseImageTask`. Transformer workers resample thumbnail and resize tasks and
send one upload task for each. An uploader (on disk or on S3) stores every
upload task under `<upload path>/<hashed name>.<extension>`. The response
tells the client where the thumbnail and the 256 and 1024 resizes will
appear.

The model follows the Go files one module each:

- `message.dfy` (`Message`) holds the task records. `BaseImageTask` and the
  derived tasks are classes, because the transformer clears `ImageData` in
  place on the base that every task of one dispatch shares. The package
  channels are a `Channels` object holding three sequences.
- `transform.dfy` (`Transform`) models the worker. `Resize` and
  `GenerateThumbnail` change the task and its base in place. `Start` is a
  loop over the sequence of `select` outcomes (`Event`s). It is proved
  against `Routed`, the (base, path) pairs a stream of events produces,
  cut at the first quit signal.
- `dispatch.dfy` (`Dispatch`) is `DispatchMessages`, which appends to the
  three channels.
- `upload.dfy` (`Upload`) covers both uploaders:
  - the storage key and content type;
  - the encoder switches;
  - the disk uploader's guard, create / mkdir / retry decision and fatal
    encoder failures, as a trace of filesystem requests;
  - the S3 put;
  - both `Start` loops;
  - the uploader ID counter.
- `image.dfy` (`Image`) is the EXIF orientation to rotation map and the
  result shaping of `DecodeImageFile`.
- `http.dfy` (`Http`) is the response URLs, the Content-Type gate and the
  upload handler.
- `pipeline.dfy` (`Pipeline`) runs scenarios across the modules, including
  the two findings below.
- `text.dfy` (`Text`) models the pieces of Go's `strings`, `path` and
  `strconv` that the code relies on. Each piece is paired with its inverse
  or a reference definition.

Inputs that the code gets from the outside world become parameters:

- the filesystem's and S3's answers;
- encoder failures;
- what the decoders, the EXIF parser and the form return;
- the hash function;
- the configured endpoint and resize widths.

Images are known by their bounds (`Raster`) or GIF configuration (`Animation`).

What the HTTP front computes agrees with the transformer's paths. The
advertised directories "thumbnail", "resized/256" and "resized/1024" are
exactly the upload paths the transformer gives the thumbnail and a resize
task whose `MaxWidth` is 256 or 1024. As written, though, the dispatcher
never sets `MaxWidth` (see below), so every stored resize lands under
"resized/0", and neither advertised resize URL names a stored object.

Two things in the shown files are inconsistent, and each file is modelled
as written:

- `transform.go` reads `MaxWidth` and `MaxHeight`, but `message.go` declares
  only `ResizingWidth`. The resize record has all three. The dispatcher sets
  only `ResizingWidth`, so resize tasks it builds carry `MaxWidth =
  MaxHeight = 0` and get the upload path "resized/0".
- `http.go` expects three results from `ParseImageFileName`, while
  `transform.go` returns two. The handler therefore takes the parser's
  answer as a parameter.

## Model

| member | source | states |
|---|---|---|
| Text.Split | transform.go:73 | `strings.Split` with a one-character separator: at least one piece, no piece contains the separator, and there are two or more pieces exactly when the text contains it |
| Text.JoinSplit | transform.go:73 | joining the pieces of a split with the separator gives back the original text |
| Text.Itoa | transform.go:40 | `strconv.Itoa`: at least one character, all decimal digits except a leading '-', which appears exactly for negative numbers; canonical form: a leading '0' only in "0" itself, and no '0' right after the '-' |
| Text.ItoaRoundTrip | transform.go:40 | reading the decimal text back gives the number, so the text names the width exactly |
| Text.ItoaInjective | transform.go:40 | two widths get the same text only when they are equal |
| Text.JoinEmpty | upload.go:105 | `path.Join` gives the empty string exactly when every element is empty |
| Text.NonEmptyNone | upload.go:105 | the non-empty filter `path.Join` applies leaves nothing exactly when every element is empty |
| Text.Join2 | upload.go:105 | `path.Join` of two non-empty elements puts one '/' between them |
| Text.Join3 | http.go:100-102 | `path.Join` of three non-empty elements puts one '/' between each pair |
| Text.Flatten | transform.go:40 | joining a joined group in place gives the same text as joining its elements in place |
| Message.BaseImageTask.Validate | message.go:67-73 | returns `ErrNoImageErr` exactly when both `ImageData` and `GIFImageData` are absent, and succeeds exactly when at least one is present (both present is accepted) |
| Message.BaseImageTask.GetOriginalWidth | message.go:75-83 | its error is `Validate`'s; the raster's `Dx` wins when a raster is present, otherwise the GIF's configured width; on error the width is 0 |
| Message.BaseImageTask.GetOriginalHeight | message.go:85-93 | the same choice of source as the width, reading `Dy` or the GIF's configured height; 0 on error |
| Message.BaseImageTask.String | message.go:59-61 | the text is "BaseImageTask(OriginalFileName: ", the original name, ", HashedFileName: ", the hashed name and ')', each at its position, with nothing else |
| Message.ImageUploadTask.String | message.go:63-65 | the text is "ImageUploadTask(UploadPath: ", the upload path, ", OriginalFileName: ", the original name, ", HashedFileName: ", the hashed name and ')', each at its position, with nothing else |
| Message.Channels.constructor | message.go:53-57 | the three task channels start empty |
| Transform.ResizedUploadPath | transform.go:40 | the resize upload path is "resized/" followed by the decimal digits of `MaxWidth` |
| Transform.ResizedUploadPathsDistinct | transform.go:33-40 | different widths get different upload paths, and no resize path is the thumbnail path |
| Transform.ParseImageFileName | transform.go:72-74 | given a name with a '.', it returns two dot-free parts; the first part, '.', and the second part form a prefix of the name, followed by '.' whenever more text follows |
| Transform.ParseSingleDot | transform.go:72-74 | for a name with exactly one '.', `pureName + "." + extension` is the name |
| Transform.QuitIndex | transform.go:51-52 | the index of the first quit signal: no quit before it, and a quit at it unless the stream has none |
| Transform.QuitCutsStream | transform.go:26-55 | the worker handles exactly the events before the first quit signal, whatever follows it |
| Transform.RoutedSingle | transform.go:29-50 | a thumbnail or resize event yields exactly one upload task, a timeout (with or without a drained resize task) or a quit yields none |
| Transform.RoutedAppend | transform.go:26-55 | the upload tasks of two consecutive stretches of events are those of the first followed by those of the second |
| Transform.RoutedBases | transform.go:29-42 | every upload task routed by a stream is on the base of a thumbnail or resize task received in it |
| Transform.Transformer.Resize | transform.go:58-65 | the task gets a `MaxWidth` x `MaxHeight` raster at the origin and the shared base's `ImageData` is cleared; the frame allows no other write |
| Transform.Transformer.GenerateThumbnail | transform.go:67-70 | the task gets a 64 x 64 raster at the origin and the shared base's `ImageData` is cleared; nothing else is written |
| Transform.Transformer.HandleThumbnail | transform.go:29-35 | exactly one new upload task is appended, on the same base object, with upload path "thumbnail", after the thumbnail transform |
| Transform.Transformer.HandleResize | transform.go:36-42 | exactly one new upload task is appended, on the same base object, with upload path "resized/<MaxWidth>", after the resize |
| Transform.Transformer.Receive | transform.go:28-53 | one `select` turn: the upload channel grows by exactly the pairs the event routes, and what was in it stays |
| Transform.Transformer.Start | transform.go:26-56 | it stops exactly when a quit signal arrives; the upload channel grows by the routed pairs of the events before the first quit, in order; every new upload task is fresh and its base has no raster; every handled task holds its transform's output |
| Dispatch.DispatchMessages | dispatch.go:9-41 | one new thumbnail task on the argument base; one new resize task per width, in list order, with `ResizingWidth` that width, on the same base; one new "original" upload task on the same base; `\|ResizeSizes\| + 2` tasks in all; earlier channel contents kept; the base unchanged |
| Upload.StorageKey | upload.go:105 | the key is the upload path, '/', the hashed name, '.', and the extension, or without the path and '/' when the path is empty |
| Upload.KeyEndsWithExtension | upload.go:105 | every key ends with "." followed by the extension |
| Upload.ContentType | upload.go:106 | the content type is "image/" followed by the extension |
| Upload.ContentTypeInjective | upload.go:106 | two extensions get the same content type exactly when they are equal |
| Upload.DiskEncoder | upload.go:160-176 | the disk switch selects PNG exactly for "png", JPEG exactly for "jpeg", GIF exactly for "gif" |
| Upload.S3Encoder | upload.go:84-100 | the S3 switch selects PNG for "png", JPEG exactly for "jpg" or "jpeg", GIF for "gif" |
| Upload.EncodersAgreeExceptJpg | upload.go:160-176 | the two switches agree on every extension except "jpg", which only S3 encodes |
| Upload.DiskGuard | upload.go:139-142 | `ErrNoImageDataToUpload` is returned exactly when neither image field is set, and then no filesystem request is made |
| Upload.DiskCreateDecision | upload.go:144-157 | every create and encode uses the storage key; `ErrNotExist` leads to `MkdirAll(uploadPath, 0755)` and exactly one more create, whose failure is returned; any other create error is returned after the first create alone |
| Upload.DiskMkdirErrorIgnored | upload.go:147-148 | the outcome of `MkdirAll` changes nothing |
| Upload.DiskEncoding | upload.go:160-178 | once a file is open: fatal exactly when a png or jpeg encode fails (printed with 3 or 4), and otherwise nil is returned; a gif failure is only logged; any other extension, "jpg" included, writes nothing |
| Upload.DiskUploader.Upload | upload.go:136-179 | the step-by-step upload gives exactly the decisions of `DiskUploadSpec` |
| Upload.DiskUploader.Start | upload.go:120-134 | a quit never ends the loop; the uploads are made in order, one per received task, up to and including the first fatal one; the loop exits only on a fatal encoder failure; every returned error is logged after what `Upload` logged |
| Upload.S3Uploader.Upload | upload.go:79-114 | no guard: the put is always made, to the uploader's bucket, under the storage key, with content type "image/<ext>", carrying what the S3 switch encoded; encoder failures are only logged; an error is returned exactly when the backend fails, and it is the backend's |
| Upload.S3Uploader.Start | upload.go:60-77 | every received task is uploaded, in order, and a quit never ends the loop; errors are logged |
| Upload.UploaderIds.NewS3Uploader | upload.go:44-54 | the counter is incremented first and the new uploader gets its new value, with the given bucket |
| Upload.SuccessiveUploaderIds | upload.go:19-22 | starting from the initial counter, three uploaders in a row get IDs 1, 2 and 3 |
| Upload.QuitIgnored | upload.go:130-131 | a quit signal anywhere in an uploader's stream changes nothing about which uploads are made |
| Upload.UploadsAppend | upload.go:124-133 | the uploads of two consecutive stretches of events are those of the first followed by those of the second |
| Image.OrientationRotation | image.go:93-107 | 7 or 8 gives `Rotate90`, 3 or 4 `Rotate180`, 5 or 6 `Rotate270`, and every other code the input unchanged, each an if-and-only-if |
| Image.UnsupportedCodes | image.go:101-102 | "Unsupported orientation" is logged exactly for 2 and for codes above 8 |
| Image.RotateImage | image.go:93-107 | codes 0 and 1 return the input unchanged and log nothing; 2 and codes above 8 are logged and return the input; width and height are swapped exactly for codes 5 to 8; a rotated image starts at the origin |
| Image.UnmirroredCodesUpright | image.go:95-100 | for the EXIF Orientation codes without mirroring (1, 3, 6, 8), the rotation applied is the one that shows the image upright |
| Image.QuarterTurnsForTransposedCodes | image.go:95-100 | among codes 1 to 8, a quarter turn is applied exactly for the codes 5 to 8 that store rows as columns |
| Image.DecodeImageFile | image.go:30-90 | a read failure returns all zero values with an error; a "gif" result never carries a raster; only a "gif" result carries an animation; the orientation fits in a `uint16` |
| Image.OrientationDefault | image.go:57-72 | the orientation is non-zero only when a JPEG or PNG structure gave a media context and an Orientation value was read, and it is then that value |
| Image.ParserDecidesError | image.go:40-56 | for JPEG and PNG the structure parser's error replaces the decoder's, so a decoding failure is masked by a successful parse, and the decoded image is kept |
| Image.GifResult | image.go:76-83 | for a GIF the raster is dropped and `gif.DecodeAll`'s animation and error are returned, with orientation 0 |
| Image.OtherFormatResult | image.go:84-89 | any other format returns the decoder's image and error, with orientation 0 |
| Http.GenerateSuccessfullyUploadedResponse | http.go:94-106 | root endpoint and file name are echoed; for every input each URL is `path.Join` of the endpoint, the transformer's upload path for that image ("thumbnail", "resized/256", "resized/1024") and the name; for a non-empty endpoint and name that is the three parts '/' apart |
| Http.AdvertisedPaths | http.go:100-102 | `path.Join(root, "resized", Itoa(w), name)` is `path.Join(root, <resize upload path of w>, name)`, and likewise for the thumbnail, for every endpoint and name |
| Http.AdvertisedURLs | http.go:100-102 | for a non-empty endpoint and name the joined URLs are the three parts separated by single '/' characters |
| Http.ForceContentTypeMultipartFormData | http.go:108-118 | a rejected request gets a 400, with "Unsupported Content-Type. Please use multipart/form-data." as its message |
| Http.GateForwardsMultipart | http.go:111 | a request is forwarded exactly when its Content-Type is "multipart/form-data" followed by anything |
| Http.GateRejects | http.go:111-115 | an empty, a JSON and a differently-cased multipart Content-Type are all rejected |
| Http.HashedFileName | http.go:53 | the hashed name is the hash of the parsed name, '.', then the extension |
| Http.ImageUploadRequestHandler | http.go:38-79 | in source order: a form error is returned; a parse error gets a 400; an open error is returned; an extension other than "jpg", "jpeg", "png" gets a 400; each of these dispatches nothing; otherwise a fresh base is dispatched with only the decoded image (decoder error ignored), the original name and the hashed name set, and the answer is 200 with the advertised URLs |
| Http.PostImages | http.go:33 | the route runs the gate first: a non-multipart request gets the gate's 400 and dispatches nothing; a 200 comes exactly when the gate and the handler both accept |
| Pipeline.SharedBaseScenario | transform.go:29-35 | as written: after the thumbnail of a dispatch is handled, the resize task of the same dispatch sits on a base with no image, and the disk uploader rejects the thumbnail's upload task whatever the filesystem answers |
| Pipeline.CorrectedTransformer.HandleThumbnail | transform.go:29-35 | corrected: the upload task carries a new base that holds the thumbnail and the original's names; the shared base is not written |
| Pipeline.CorrectedTransformer.HandleResize | transform.go:36-42 | corrected: the upload task carries a new base that holds the resized image and the original's names; the shared base is not written |
| Pipeline.GuardPasses | upload.go:139-142 | an upload task whose base holds a raster is never rejected for missing image data |
| Pipeline.CorrectedScenario | transform.go:29-42 | corrected: after the thumbnail, the resize task still finds the original image, and the thumbnail's upload task holds the thumbnail and passes the guard |
| Pipeline.KeyWithUnsetExtension | upload.go:144 | with the empty extension the handler leaves, the key is path, '/', hashed name and a trailing '.', and differs from the path and the name joined |
| Pipeline.TestTaskKey | upload_test.go:115-125 | the uploader test's task (path "test_data_thumbnail", declared at upload_test.go:21, hashed name "abcd1234abcd.png") is stored as "test_data_thumbnail/abcd1234abcd.png." rather than at the joined path the test looks for |
| Pipeline.StoredKeyNotAdvertised | http.go:100 | the advertised thumbnail URL is never the endpoint followed by the key the uploader stores |
| Pipeline.CorrectedStorageKey | upload.go:105 | corrected: the key is the upload path, '/' and the hashed name, which already ends with its extension |
| Pipeline.CorrectedKeyAdvertised | http.go:100-102 | with the corrected key, each advertised URL is the endpoint followed by the key of the image it names |

## Left out

- main.go is not part of this model. It holds signal handling, the goroutine fan-out of quit signals, the `WaitGroup`, `os.Exit`, worker start-up, and the choice of disk or S3 backend by configuration.
- config.go is not part of this model: configuration loading is I/O. The endpoint and the resize widths are parameters.
- util.go is not part of this model. It re-declares `DecodeImageFile` and `getHashedFileName`, and its `ParseImageFileName` is commented out. The hash function is a parameter of the handler.
- Pixel work is left out because it is foreign code and floating point: resampling, rotation, the PNG/JPEG/GIF codecs and EXIF parsing. Images are known by their bounds and GIF configuration, and the libraries' answers are inputs.
- Transform.Transformer.Resize: the resample depends only on the requested size. When `MaxWidth` or `MaxHeight` is 0, the resampling library derives the size from the input image (with both 0 it returns the input), and the model does not capture that. When the input image is nil the library crashes, which the model does not capture either (see Findings).
- Transform.Transformer.GenerateThumbnail: likewise, the resample does not look at the input image, which may be the nil left by an earlier transform.
- Transform.Transformer.Start: the one-second and three-second timers become a `TimedOut` event, which records what the inner `select` drained from the package-level resize channel. That drained task is printed and otherwise dropped. Fairness and scheduling between the `select` cases are not modelled. The loop ends when a quit signal arrives, or when the event stream ends.
- Upload.DiskUploader.Start and Upload.S3Uploader.Start: the real loops never end. The model stops at the end of the event stream, or at a fatal encoder failure on disk.
- Encoders are oracles that succeed or fail. As written, no encoder receives a nil image: the disk guard rejects the worker's upload tasks, whose bases have no image, and the handler leaves `Extension` empty, so neither switch picks an encoder. Only a task with `Extension` set and no image, on the S3 backend (which has no guard), would reach one; that crash is not modelled.
- `path.Join` is modelled as '/'-separated non-empty elements, without the lexical cleaning step that would collapse "//" or remove "." and "..".
- Negative widths turned into `uint` for the resampler are not modelled, since the widths come from configuration. All integers are unbounded.
- The file opened by the disk uploader is never closed; file handles are not modelled.
- Logging is modelled only as the list of errors the uploader loops log. Informational messages, `fmt.Println` output and the text of errors are left out.
- Echo routing, JSON rendering and the `/healthz` route are HTTP plumbing and are left out. The form file, opening it and decoding it are parameters.
- The S3 session and client are left out. The put is recorded as its input, and the body is recorded as the encoder chosen.
- `S3Uploader.String` and `DiskUploader.String` (upload.go:56-58, 116-118) are log formatting and are left out.
- `InitTaskChannels` assigning the package globals is modelled only as the `Channels` constructor.
- Transform.ParseImageFileName: requires a '.' in the name. The Go code indexes the second piece of the split, so a name without '.' panics with an index out of range; the model does not run that path.
- Dispatch.DispatchMessages: the three goroutines are run one after another, and their sends are appended at once. In Go the function returns before the sends happen, and the `UploadTaskChan` send interleaves with the transformers' sends; that ordering is not modelled.
- Image.RotateImage: the mirrored EXIF orientations 2, 4, 5 and 7 get the rotation the code gives them. No mirroring is modelled, because the code does none.

## Findings

Both findings come from following one image through the whole pipeline.
`Transform` and `Upload` model the code as written. The corrected members
live in `Pipeline`, next to the scenarios that use them.

| source | as written | input that shows it | evidently intended | confidence | as-written member | corrected member |
|---|---|---|---|---|---|---|
| transform.go:29-42, 58-70 | every transform sets `ImageData = nil` on the base shared by all tasks of one dispatch, and the upload task built next reuses that base, while the derived image stays in the thumbnail or resize task | one image dispatched with `ResizeSizes = [256]`: once the thumbnail is handled, the resize task's base has no image for the resampler, and the thumbnail's upload task is rejected with `ErrNoImageDataToUpload` | each upload task carries the image it names, on a base of its own, as the benchmark at transform_test.go:138-147 builds it and transform_test.go:190 checks; the shared original stays available to the other transforms | high (not executed) | Pipeline.SharedBaseScenario | Pipeline.CorrectedScenario |
| upload.go:105, 144, 148 | the key is `path.Join(UploadPath, HashedFileName + "." + Extension)`. The handler's `HashedFileName` already ends in "." plus the extension (http.go:53), and it never sets `Extension` (http.go:71-75) | `UploadPath = "test_data_thumbnail"` (upload_test.go:21), `HashedFileName = "abcd1234abcd.png"`, empty `Extension` gives "test_data_thumbnail/abcd1234abcd.png."; the tests look up `path.Join(UploadPath, HashedFileName)` (upload_test.go:104, 125); the response advertises ".../thumbnail/abcd1234abcd.png" | the key is `path.Join(UploadPath, HashedFileName)`, the file upload_test.go:104 and 125 look for and the name the response advertises | medium (not executed) | Pipeline.TestTaskKey | Pipeline.CorrectedKeyAdvertised |
