/**
 * The uploaders (upload.go): where an upload task is stored, which encoder
 * writes it, and what happens when the filesystem, an encoder or the S3
 * backend fails.
 *
 * The filesystem, the encoders and the S3 client are outside the model.
 * Their outcomes are inputs (`DiskEnv`, `S3Env`), and what the uploader
 * asks of them is recorded as a trace of `DiskAction`s or a `PutInput`.
 */
module Upload {
  import opened Text
  import opened Message

  /** `os.ErrNotExist`, as recognised by `errors.Is`, or any other filesystem error. */
  datatype FsError = ErrNotExist | OtherFsError(code: nat)

  datatype Format = Png | Jpeg | Gif

  datatype UploadError =
    | ErrNoImageDataToUpload
    | CreateFailed(fs: FsError)
    | EncodeFailed(format: Format)
    | BackendFailed(code: nat)

  /** `path.Join(uploadPath, hashedFileName + "." + extension)`: the S3 key and the disk path. */
  function StorageKey(uploadPath: string, hashedFileName: string, extension: string): (key: string)
    ensures uploadPath != "" ==> key == uploadPath + "/" + hashedFileName + "." + extension
    ensures uploadPath == "" ==> key == hashedFileName + "." + extension
  {
    var name := hashedFileName + "." + extension;
    if uploadPath != "" then
      Join2(uploadPath, name);
      Join([uploadPath, name])
    else
      assert [uploadPath, name][1..] == [name];
      assert [name][1..] == [];
      assert NonEmpty([uploadPath, name]) == [name];
      Join([uploadPath, name])
  }

  /** The file name part of a key always ends with "." followed by the extension. */
  lemma KeyEndsWithExtension(uploadPath: string, hashedFileName: string, extension: string)
    ensures var key := StorageKey(uploadPath, hashedFileName, extension);
            |key| > |extension| && key[|key| - |extension| - 1..] == "." + extension
  {
    var key := StorageKey(uploadPath, hashedFileName, extension);
    if uploadPath != "" {
      assert key == (uploadPath + "/" + hashedFileName) + ("." + extension);
    } else {
      assert key == hashedFileName + ("." + extension);
    }
  }

  /** `"image/" + extension`. */
  function ContentType(extension: string): (t: string)
    ensures |t| == 6 + |extension| && t[..6] == "image/" && t[6..] == extension
  {
    "image/" + extension
  }

  /** Different extensions are announced with different content types. */
  lemma ContentTypeInjective(e1: string, e2: string)
    ensures ContentType(e1) == ContentType(e2) <==> e1 == e2
  {
    if ContentType(e1) == ContentType(e2) {
      assert e1 == ContentType(e1)[6..];
    }
  }

  // ---------------------------------------------------------------------
  // Encoder selection
  // ---------------------------------------------------------------------

  /** The disk uploader's `switch`: "jpg" is not one of its cases. */
  function DiskEncoder(extension: string): (f: Option<Format>)
    ensures f == Some(Png) <==> extension == "png"
    ensures f == Some(Jpeg) <==> extension == "jpeg"
    ensures f == Some(Gif) <==> extension == "gif"
  {
    if extension == "png" then Some(Png)
    else if extension == "jpeg" then Some(Jpeg)
    else if extension == "gif" then Some(Gif)
    else None
  }

  /** The S3 uploader's `switch`: "jpg" and "jpeg" both select JPEG. */
  function S3Encoder(extension: string): (f: Option<Format>)
    ensures f == Some(Png) <==> extension == "png"
    ensures f == Some(Jpeg) <==> extension == "jpg" || extension == "jpeg"
    ensures f == Some(Gif) <==> extension == "gif"
  {
    if extension == "png" then Some(Png)
    else if extension == "jpg" || extension == "jpeg" then Some(Jpeg)
    else if extension == "gif" then Some(Gif)
    else None
  }

  /** The two switches agree everywhere except on "jpg", which only S3 encodes. */
  lemma EncodersAgreeExceptJpg(extension: string)
    ensures extension != "jpg" ==> DiskEncoder(extension) == S3Encoder(extension)
    ensures DiskEncoder("jpg") == None && S3Encoder("jpg") == Some(Jpeg)
  {
  }

  // ---------------------------------------------------------------------
  // DiskUploader.Upload
  // ---------------------------------------------------------------------

  /**
   * What the filesystem and the encoder answer: the first `os.Create`, the
   * `os.MkdirAll`, the second `os.Create` (asked only after `ErrNotExist`),
   * and whether the encoder fails.
   */
  datatype DiskEnv = DiskEnv(create: Option<FsError>, mkdir: Option<FsError>,
                             retry: Option<FsError>, encodeFails: bool)

  /** A request the disk uploader makes of the filesystem or an encoder. */
  datatype DiskAction =
    | Create(path: string)
    | MkdirAll(dir: string, perm: int)
    | Encode(format: Format, path: string)

  /**
   * How an upload ends: it returns (maybe an error), or `log.Fatal` prints a
   * number and the error and stops the process (with exit status 1, whatever
   * the number).
   */
  datatype Outcome = Returned(err: Option<UploadError>) | Fatal(tag: int, cause: UploadError)

  /** The requests made, the errors logged by `Upload` itself, and how it ended. */
  datatype DiskResult = DiskResult(actions: seq<DiskAction>, logged: seq<UploadError>, outcome: Outcome)

  /** The permission bits `MkdirAll` is asked for. */
  const DirPerm := 0x1ED  // 0755

  /** The number `log.Fatal` prints before an encoder failure, if that failure is fatal. */
  function FatalTag(f: Format): Option<int>
  {
    match f
    case Png => Some(3)
    case Jpeg => Some(4)
    case Gif => None
  }

  /** The encoding step, once a file is open: `prior` are the requests made so far. */
  function DiskEncodeStep(prior: seq<DiskAction>, key: string, extension: string, encodeFails: bool): DiskResult
  {
    match DiskEncoder(extension)
    case None => DiskResult(prior, [], Returned(None))
    case Some(f) =>
      var actions := prior + [Encode(f, key)];
      if !encodeFails then DiskResult(actions, [], Returned(None))
      else if FatalTag(f).Some? then DiskResult(actions, [], Fatal(FatalTag(f).value, EncodeFailed(f)))
      else DiskResult(actions, [EncodeFailed(f)], Returned(None))
  }

  /** The decisions of `DiskUploader.Upload`, one branch per path through the Go code. */
  function DiskUploadSpec(hasImage: bool, uploadPath: string, hashedFileName: string, extension: string,
                          env: DiskEnv): DiskResult
  {
    var key := StorageKey(uploadPath, hashedFileName, extension);
    if !hasImage then
      DiskResult([], [ErrNoImageDataToUpload], Returned(Some(ErrNoImageDataToUpload)))
    else if env.create.None? then
      DiskEncodeStep([Create(key)], key, extension, env.encodeFails)
    else if env.create.value != ErrNotExist then
      DiskResult([Create(key)], [CreateFailed(env.create.value)], Returned(Some(CreateFailed(env.create.value))))
    else
      var actions := [Create(key), MkdirAll(uploadPath, DirPerm), Create(key)];
      if env.retry.Some? then
        DiskResult(actions, [CreateFailed(env.retry.value)], Returned(Some(CreateFailed(env.retry.value))))
      else
        DiskEncodeStep(actions, key, extension, env.encodeFails)
  }

  /** The number of `os.Create` requests in a trace. */
  function Creates(actions: seq<DiskAction>): nat
  {
    if |actions| == 0 then 0
    else Creates(actions[..|actions| - 1]) + (if actions[|actions| - 1].Create? then 1 else 0)
  }

  /** Whether a file was opened: the first create succeeded, or the retry after `ErrNotExist` did. */
  predicate Opened(env: DiskEnv)
  {
    env.create.None? || (env.create == Some(ErrNotExist) && env.retry.None?)
  }

  /** The guard: the error is returned, and nothing else is done, exactly when there is no image. */
  lemma DiskGuard(hasImage: bool, uploadPath: string, hashedFileName: string, extension: string, env: DiskEnv)
    ensures var r := DiskUploadSpec(hasImage, uploadPath, hashedFileName, extension, env);
            (r.outcome == Returned(Some(ErrNoImageDataToUpload)) <==> !hasImage)
            && (!hasImage ==> r.actions == [])
  {
  }

  /**
   * The create decision: every create and every encode is on the same key;
   * `ErrNotExist` leads to `MkdirAll(uploadPath, 0755)` and exactly one more
   * create; any other error stops after the first create.
   */
  lemma {:induction false} DiskCreateDecision(uploadPath: string, hashedFileName: string, extension: string, env: DiskEnv)
    ensures var r := DiskUploadSpec(true, uploadPath, hashedFileName, extension, env);
            var key := StorageKey(uploadPath, hashedFileName, extension);
            && (forall k :: 0 <= k < |r.actions| && r.actions[k].Create? ==> r.actions[k].path == key)
            && (forall k :: 0 <= k < |r.actions| && r.actions[k].Encode? ==> r.actions[k].path == key)
            && Creates(r.actions) == (if env.create == Some(ErrNotExist) then 2 else 1)
            && (env.create == Some(ErrNotExist) ==> r.actions[1] == MkdirAll(uploadPath, DirPerm))
            && (env.create.Some? && env.create != Some(ErrNotExist) ==>
                  r.actions == [Create(key)] && r.outcome == Returned(Some(CreateFailed(env.create.value))))
            && (env.create == Some(ErrNotExist) && env.retry.Some? ==>
                  r.outcome == Returned(Some(CreateFailed(env.retry.value))))
  {
    var r := DiskUploadSpec(true, uploadPath, hashedFileName, extension, env);
    var key := StorageKey(uploadPath, hashedFileName, extension);
    var one := [Create(key)];
    var three := [Create(key), MkdirAll(uploadPath, DirPerm), Create(key)];
    assert Creates(one) == 1 by { assert one[..0] == []; }
    assert Creates(three) == 2 by {
      assert three[..2] == [Create(key), MkdirAll(uploadPath, DirPerm)];
      assert three[..2][..1] == one;
      assert one[..0] == [];
    }
    var f := DiskEncoder(extension);
    if f.Some? && Opened(env) {
      var prior := if env.create.None? then one else three;
      assert r.actions == prior + [Encode(f.value, key)];
      assert r.actions[..|r.actions| - 1] == prior;
    }
  }

  /** The error of `os.MkdirAll` is overwritten before it is looked at. */
  lemma DiskMkdirErrorIgnored(hasImage: bool, uploadPath: string, hashedFileName: string, extension: string,
                              env: DiskEnv, m: Option<FsError>)
    ensures DiskUploadSpec(hasImage, uploadPath, hashedFileName, extension, env)
         == DiskUploadSpec(hasImage, uploadPath, hashedFileName, extension, env.(mkdir := m))
  {
  }

  /**
   * Encoding, once a file is open: "png", "jpeg" and "gif" are encoded; any
   * other extension, "jpg" included, writes nothing and succeeds. A png or
   * jpeg failure is fatal (printed with 3 and 4); a gif failure is only logged.
   */
  lemma DiskEncoding(uploadPath: string, hashedFileName: string, extension: string, env: DiskEnv)
    requires Opened(env)
    ensures var r := DiskUploadSpec(true, uploadPath, hashedFileName, extension, env);
            && (r.outcome.Fatal? <==> env.encodeFails && (extension == "png" || extension == "jpeg"))
            && (r.outcome.Fatal? ==> r.outcome.tag == (if extension == "png" then 3 else 4))
            && (!r.outcome.Fatal? ==> r.outcome == Returned(None))
            && (r.logged != [] <==> env.encodeFails && extension == "gif")
            && (DiskEncoder(extension).None? <==> forall k :: 0 <= k < |r.actions| ==> !r.actions[k].Encode?)
  {
    var r := DiskUploadSpec(true, uploadPath, hashedFileName, extension, env);
    if DiskEncoder(extension).Some? {
      assert r.actions[|r.actions| - 1].Encode?;
    }
  }

  // ---------------------------------------------------------------------
  // S3Uploader.Upload
  // ---------------------------------------------------------------------

  /** Whether the encoder fails, and the error (if any) the S3 backend returns. */
  datatype S3Env = S3Env(encodeFails: bool, backend: Option<nat>)

  /** The `s3manager.UploadInput`: the body is what the chosen encoder (if any) wrote. */
  datatype PutInput = PutInput(bucket: string, body: Option<Format>, key: string, contentType: string)

  datatype S3Result = S3Result(put: PutInput, logged: seq<UploadError>, err: Option<UploadError>)

  /** The errors an S3 uploader loop logs for a sequence of results. */
  function S3Log(results: seq<S3Result>): seq<UploadError>
  {
    if |results| == 0 then []
    else
      var r := results[|results| - 1];
      S3Log(results[..|results| - 1]) + LoggedByLoop(r.logged, r.err)
  }

  class S3Uploader {
    const id: int
    const bucketName: string

    constructor (id: int, bucketName: string)
      ensures this.id == id && this.bucketName == bucketName
    {
      this.id := id;
      this.bucketName := bucketName;
    }

    /**
     * `S3Uploader.Upload`. There is no guard on missing image data: the put
     * is always made, under the same key the disk uploader would use. An
     * encoder failure is only logged; the only error returned is the backend's.
     */
    function Upload(task: ImageUploadTask, env: S3Env): (r: S3Result)
      reads task.base
      ensures r.put.bucket == bucketName
      ensures r.put.key == StorageKey(task.uploadPath, task.base.hashedFileName, task.base.extension)
      ensures r.put.contentType == ContentType(task.base.extension)
      ensures r.put.body == S3Encoder(task.base.extension)
      ensures r.err.Some? <==> env.backend.Some?
      ensures r.err.Some? ==> r.err == Some(BackendFailed(env.backend.value))
      ensures r.logged != [] <==> env.encodeFails && r.put.body.Some?
    {
      var format := S3Encoder(task.base.extension);
      var logged := if format.Some? && env.encodeFails then [EncodeFailed(format.value)] else [];
      var put := PutInput(bucketName, format,
                          StorageKey(task.uploadPath, task.base.hashedFileName, task.base.extension),
                          ContentType(task.base.extension));
      S3Result(put, logged, if env.backend.Some? then Some(BackendFailed(env.backend.value)) else None)
    }

    /**
     * `S3Uploader.Start`. As on disk, a quit signal sets `loop` to true again;
     * every upload is attempted and its errors are logged, and the loop goes on.
     */
    method Start(events: seq<UploaderEvent<S3Env>>) returns (results: seq<S3Result>, logged: seq<UploadError>)
      ensures |results| == |Uploads(events)|
      ensures forall k :: 0 <= k < |results| ==> results[k] == Upload(Uploads(events)[k].0, Uploads(events)[k].1)
      ensures logged == S3Log(results)
    {
      var loop := true;
      var i := 0;
      results, logged := [], [];
      while loop && i < |events|
        invariant 0 <= i <= |events|
        invariant loop
        invariant results == S3Run(Uploads(events[..i]))
        invariant logged == S3Log(results)
        decreases |events| - i
      {
        assert events[..i + 1] == events[..i] + [events[i]];
        match events[i] {
          case UploadReceived(task, env) =>
            var r := Upload(task, env);
            results := results + [r];
            logged := logged + LoggedByLoop(r.logged, r.err);
          case QuitReceived =>
            loop := true;
        }
        i := i + 1;
      }
      assert events[..i] == events;
    }

    /** The results of uploading each task of `uploads` in turn. */
    function S3Run(uploads: seq<(ImageUploadTask, S3Env)>): (rs: seq<S3Result>)
      reads set k | 0 <= k < |uploads| :: uploads[k].0.base
      ensures |rs| == |uploads|
      ensures forall k :: 0 <= k < |uploads| ==> rs[k] == Upload(uploads[k].0, uploads[k].1)
    {
      seq(|uploads|, k reads set k | 0 <= k < |uploads| :: uploads[k].0.base
                      requires 0 <= k < |uploads| => Upload(uploads[k].0, uploads[k].1))
    }
  }

  /** The package-level `autoIncrementUploaderID`. */
  class UploaderIds {
    var autoIncrementUploaderID: int

    constructor ()
      ensures autoIncrementUploaderID == 0
    {
      autoIncrementUploaderID := 0;
    }

    /** `NewS3Uploader`: the counter is incremented first, and the new uploader gets its new value. */
    method NewS3Uploader(bucketName: string) returns (u: S3Uploader)
      modifies this
      ensures autoIncrementUploaderID == old(autoIncrementUploaderID) + 1
      ensures fresh(u) && u.id == autoIncrementUploaderID && u.bucketName == bucketName
    {
      autoIncrementUploaderID := autoIncrementUploaderID + 1;
      u := new S3Uploader(autoIncrementUploaderID, bucketName);
    }
  }

  /** Three uploaders made one after the other, from a fresh counter, are numbered 1, 2 and 3. */
  method SuccessiveUploaderIds(bucketName: string) returns (a: S3Uploader, b: S3Uploader, c: S3Uploader)
    ensures a.id == 1 && b.id == 2 && c.id == 3
  {
    var ids := new UploaderIds();
    a := ids.NewS3Uploader(bucketName);
    b := ids.NewS3Uploader(bucketName);
    c := ids.NewS3Uploader(bucketName);
  }

  // ---------------------------------------------------------------------
  // Start loops
  // ---------------------------------------------------------------------

  /** One case of an uploader's `select`: a task with what the outside world will answer, or a quit signal. */
  datatype UploaderEvent<Env> = UploadReceived(task: ImageUploadTask, env: Env) | QuitReceived

  /** The bases an event stream lets an uploader read. */
  function EventBases<Env>(events: seq<UploaderEvent<Env>>): set<BaseImageTask>
  {
    set k | 0 <= k < |events| && events[k].UploadReceived? :: events[k].task.base
  }

  /** The uploads of a stream, in order: the quit signals dropped. */
  function Uploads<Env>(events: seq<UploaderEvent<Env>>): (u: seq<(ImageUploadTask, Env)>)
    ensures |u| <= |events|
  {
    if |events| == 0 then []
    else
      var rest := Uploads(events[..|events| - 1]);
      match events[|events| - 1]
      case UploadReceived(t, env) => rest + [(t, env)]
      case QuitReceived => rest
  }

  /** One more event of a stream: an upload is appended, a quit adds nothing. */
  lemma UploadsSnoc<Env>(events: seq<UploaderEvent<Env>>, i: nat)
    requires i < |events|
    ensures Uploads(events[..i + 1]) == Uploads(events[..i]) +
              (if events[i].UploadReceived? then [(events[i].task, events[i].env)] else [])
  {
    assert events[..i + 1][..i] == events[..i];
  }

  /** A quit signal anywhere in the stream changes nothing about what is uploaded. */
  lemma {:induction false} QuitIgnored<Env>(a: seq<UploaderEvent<Env>>, b: seq<UploaderEvent<Env>>)
    ensures Uploads(a + [QuitReceived] + b) == Uploads(a + b)
    decreases |b|
  {
    if |b| == 0 {
      assert (a + [QuitReceived] + b)[..|a|] == a;
      assert a + b == a;
    } else {
      var b' := b[..|b| - 1];
      assert (a + [QuitReceived] + b)[..|a + [QuitReceived] + b| - 1] == a + [QuitReceived] + b';
      assert (a + b)[..|a + b| - 1] == a + b';
      QuitIgnored(a, b');
    }
  }

  /** Which uploads, and in what order, an event stream asks for is decided by the uploads alone. */
  lemma {:induction false} UploadsAppend<Env>(a: seq<UploaderEvent<Env>>, b: seq<UploaderEvent<Env>>)
    ensures Uploads(a + b) == Uploads(a) + Uploads(b)
    decreases |b|
  {
    if |b| == 0 {
      assert a + b == a;
    } else {
      var b' := b[..|b| - 1];
      assert (a + b)[..|a + b| - 1] == a + b';
      UploadsAppend(a, b');
    }
  }

  /** The errors an uploader loop logs for one upload: those `Upload` logged, then the one it returned. */
  function LoggedByLoop(logged: seq<UploadError>, err: Option<UploadError>): seq<UploadError>
  {
    logged + (if err.Some? then [err.value] else [])
  }

  /**
   * The errors a disk uploader loop logs for a sequence of results: for each
   * upload that returned, what `Upload` logged and then the error it returned.
   */
  function LoopLog(results: seq<DiskResult>): seq<UploadError>
  {
    if |results| == 0 then []
    else
      var r := results[|results| - 1];
      LoopLog(results[..|results| - 1]) + (if r.outcome.Returned? then LoggedByLoop(r.logged, r.outcome.err) else [])
  }

  /** What `DiskUploader.Upload` does with `task` when the outside world answers `env`. */
  function DiskUploadOf(task: ImageUploadTask, env: DiskEnv): DiskResult
    reads task.base
  {
    DiskUploadSpec(task.base.HasImage(), task.uploadPath, task.base.hashedFileName, task.base.extension, env)
  }

  lemma LoopLogSnoc(results: seq<DiskResult>, r: DiskResult)
    ensures LoopLog(results + [r])
         == LoopLog(results) + (if r.outcome.Returned? then LoggedByLoop(r.logged, r.outcome.err) else [])
  {
    assert (results + [r])[..|results|] == results;
  }

  /** What `DiskUploader.Upload` does with each upload of `uploads`, when each is attempted. */
  function DiskResults(uploads: seq<(ImageUploadTask, DiskEnv)>): (rs: seq<DiskResult>)
    reads set k | 0 <= k < |uploads| :: uploads[k].0.base
    ensures |rs| == |uploads|
    ensures forall k :: 0 <= k < |uploads| ==> rs[k] == DiskUploadOf(uploads[k].0, uploads[k].1)
  {
    seq(|uploads|, k reads set k | 0 <= k < |uploads| :: uploads[k].0.base
                    requires 0 <= k < |uploads| => DiskUploadOf(uploads[k].0, uploads[k].1))
  }

  lemma DiskResultsSnoc(uploads: seq<(ImageUploadTask, DiskEnv)>, task: ImageUploadTask, env: DiskEnv)
    ensures DiskResults(uploads + [(task, env)]) == DiskResults(uploads) + [DiskUploadOf(task, env)]
  {
  }

  /** One more event: an upload adds its result, a quit signal adds none. */
  lemma DiskStep(events: seq<UploaderEvent<DiskEnv>>, i: nat, results: seq<DiskResult>)
    requires i < |events|
    requires results == DiskResults(Uploads(events[..i]))
    ensures events[i].UploadReceived? ==>
              DiskResults(Uploads(events[..i + 1])) == results + [DiskUploadOf(events[i].task, events[i].env)]
    ensures events[i].QuitReceived? ==> DiskResults(Uploads(events[..i + 1])) == results
  {
    UploadsSnoc(events, i);
    if events[i].UploadReceived? {
      DiskResultsSnoc(Uploads(events[..i]), events[i].task, events[i].env);
    }
  }

  /** What the disk loop's log becomes after one more upload, and that no earlier upload was fatal. */
  lemma DiskLoopStep(results: seq<DiskResult>, logged: seq<UploadError>, r: DiskResult)
    requires forall k :: 0 <= k < |results| ==> !results[k].outcome.Fatal?
    requires logged == LoopLog(results)
    ensures r.outcome.Fatal? ==> logged == LoopLog(results + [r])
    ensures !r.outcome.Fatal? ==> logged + LoggedByLoop(r.logged, r.outcome.err) == LoopLog(results + [r])
    ensures !r.outcome.Fatal? ==> forall k :: 0 <= k < |results + [r]| ==> !(results + [r])[k].outcome.Fatal?
  {
    LoopLogSnoc(results, r);
  }

  /** The results for the first `i` events are the results for a prefix of all the uploads. */
  lemma ResultsPrefix(events: seq<UploaderEvent<DiskEnv>>, i: nat, results: seq<DiskResult>)
    requires i <= |events|
    requires results == DiskResults(Uploads(events[..i]))
    ensures |results| <= |Uploads(events)|
    ensures forall k :: 0 <= k < |results| ==> results[k] == DiskUploadOf(Uploads(events)[k].0, Uploads(events)[k].1)
    ensures i == |events| ==> |results| == |Uploads(events)|
  {
    UploadsAppend(events[..i], events[i..]);
    assert events[..i] + events[i..] == events;
  }

  class DiskUploader {
    const id: int

    constructor (id: int)
      ensures this.id == id
    {
      this.id := id;
    }

    /** `DiskUploader.Upload`, step by step: guard, create, maybe mkdir and retry, encode. */
    method Upload(task: ImageUploadTask, env: DiskEnv) returns (r: DiskResult)
      ensures r == DiskUploadOf(task, env)
    {
      if task.base.imageData.None? && task.base.gifImageData.None? {
        return DiskResult([], [ErrNoImageDataToUpload], Returned(Some(ErrNoImageDataToUpload)));
      }
      var key := StorageKey(task.uploadPath, task.base.hashedFileName, task.base.extension);
      var actions := [Create(key)];
      var err := env.create;
      if err.Some? {
        if err.value == ErrNotExist {
          actions := actions + [MkdirAll(task.uploadPath, DirPerm)];
          actions := actions + [Create(key)];
          err := env.retry;
          if err.Some? {
            return DiskResult(actions, [CreateFailed(err.value)], Returned(Some(CreateFailed(err.value))));
          }
        } else {
          return DiskResult(actions, [CreateFailed(err.value)], Returned(Some(CreateFailed(err.value))));
        }
      }
      var format := DiskEncoder(task.base.extension);
      var logged := [];
      if format.Some? {
        actions := actions + [Encode(format.value, key)];
        if env.encodeFails {
          var tag := FatalTag(format.value);
          if tag.Some? {
            return DiskResult(actions, logged, Fatal(tag.value, EncodeFailed(format.value)));
          }
          logged := logged + [EncodeFailed(format.value)];
        }
      }
      return DiskResult(actions, logged, Returned(None));
    }

    /**
     * `DiskUploader.Start`. The quit branch sets `loop` to true again, so the
     * loop never ends on a quit signal; it ends only when `log.Fatal` stops
     * the process (`exited`) or, in the model, when the stream runs out.
     * Every upload up to the first fatal one is made, in order.
     */
    method Start(events: seq<UploaderEvent<DiskEnv>>) returns (results: seq<DiskResult>, logged: seq<UploadError>, exited: bool)
      ensures |results| <= |Uploads(events)|
      ensures forall k :: 0 <= k < |results| ==> results[k] == DiskUploadOf(Uploads(events)[k].0, Uploads(events)[k].1)
      ensures forall k :: 0 <= k < |results| - 1 ==> !results[k].outcome.Fatal?
      ensures exited <==> |results| > 0 && results[|results| - 1].outcome.Fatal?
      ensures !exited ==> |results| == |Uploads(events)|
      ensures logged == LoopLog(results)
    {
      var loop := true;
      var i := 0;
      results, logged, exited := [], [], false;
      while loop && i < |events|
        invariant 0 <= i <= |events|
        invariant loop
        invariant results == DiskResults(Uploads(events[..i]))
        invariant forall k :: 0 <= k < |results| ==> !results[k].outcome.Fatal?
        invariant logged == LoopLog(results)
        decreases |events| - i
      {
        DiskStep(events, i, results);
        match events[i] {
          case UploadReceived(task, env) =>
            ghost var expected := DiskResults(Uploads(events[..i + 1]));
            var r := Upload(task, env);
            assert expected == DiskResults(Uploads(events[..i + 1]));
            DiskLoopStep(results, logged, r);
            results := results + [r];
            if r.outcome.Fatal? {
              exited := true;
              ResultsPrefix(events, i + 1, results);
              return;
            }
            logged := logged + LoggedByLoop(r.logged, r.outcome.err);
          case QuitReceived =>
            loop := true;
        }
        i := i + 1;
      }
      assert events[..i] == events;
      ResultsPrefix(events, i, results);
    }
  }
}
