/**
 * The pipeline end to end: a base accepted by the HTTP front, fanned out by
 * the dispatcher, transformed by the worker and stored by an uploader.
 *
 * Two behaviours of the code as written are exhibited here:
 *
 *  - the transforms clear `ImageData` on the base that every task of one
 *    dispatch shares, so the transform that runs second has no image to
 *    resample, and every upload task the worker sends has no image to store;
 *  - the storage key appends "." + `Extension` to a hashed name that already
 *    ends with its extension, while `Extension` is never set, so the key
 *    ends with a stray '.' and is not the name the response advertises.
 *
 * Each sits next to a corrected version with the property the repository's
 * own tests expect. The transformer benchmark (transform_test.go:138-147,
 * 190) builds each upload task on a base of its own holding the derived
 * image and checks that it has image data; the uploader tests
 * (upload_test.go:104, 125) look for the file at
 * `path.Join(UploadPath, HashedFileName)`.
 */
module Pipeline {
  import opened Text
  import opened Message
  import opened Dispatch
  import opened Transform
  import opened Upload
  import Http

  // ---------------------------------------------------------------------
  // The shared base, as written
  // ---------------------------------------------------------------------

  /**
   * One image dispatched with one resize width, after the worker has handled
   * its thumbnail task: the resize task now sits on a base with no image
   * (the resampler would be handed a nil image), and the disk uploader
   * refuses the thumbnail's upload task whatever the filesystem answers.
   */
  method SharedBaseScenario() returns (thumbnailUpload: ImageUploadTask, resizeTask: ImageResizeTask)
    ensures resizeTask.base == thumbnailUpload.base
    ensures resizeTask.base.imageData.None?
    ensures forall env :: DiskUploadOf(thumbnailUpload, env).outcome == Returned(Some(ErrNoImageDataToUpload))
  {
    var channels := new Channels();
    var base := new BaseImageTask("logo.png", "abcd1234abcd.png", Some(Raster(Rect(0, 0, 640, 480))), None, "");
    DispatchMessages(base, [256], channels);
    var thumbnailTask := channels.thumbnailTasks[0];
    resizeTask := channels.resizeTasks[0];
    var transformer := new Transformer(channels);
    thumbnailUpload := transformer.HandleThumbnail(thumbnailTask);
    forall env: DiskEnv
      ensures DiskUploadOf(thumbnailUpload, env).outcome == Returned(Some(ErrNoImageDataToUpload))
    {
      var t := thumbnailUpload;
      DiskGuard(t.base.HasImage(), t.uploadPath, t.base.hashedFileName, t.base.extension, env);
    }
  }

  // ---------------------------------------------------------------------
  // The shared base, corrected
  // ---------------------------------------------------------------------

  /**
   * A worker whose upload tasks carry the image they are meant to store: the
   * derived image goes into a base of its own, with the same names, and the
   * shared base keeps the original for the other transforms.
   */
  class CorrectedTransformer {
    const channels: Channels

    constructor (channels: Channels)
      ensures this.channels == channels
    {
      this.channels := channels;
    }

    method HandleThumbnail(task: ImageGenerateThumbnailTask) returns (upload: ImageUploadTask)
      modifies channels`uploadTasks, task`thumbnailImageData
      ensures task.thumbnailImageData == Some(Resampled(ThumbnailWidth, ThumbnailHeight))
      ensures fresh(upload) && fresh(upload.base) && upload.uploadPath == ThumbnailUploadPath
      ensures upload.base.imageData == task.thumbnailImageData && upload.base.gifImageData.None?
      ensures upload.base.originalFileName == task.base.originalFileName
      ensures upload.base.hashedFileName == task.base.hashedFileName
      ensures upload.base.extension == task.base.extension
      ensures channels.uploadTasks == old(channels.uploadTasks) + [upload]
    {
      var thumbnail := Some(Resampled(ThumbnailWidth, ThumbnailHeight));
      task.thumbnailImageData := thumbnail;
      var b := task.base;
      var derived := new BaseImageTask(b.originalFileName, b.hashedFileName, thumbnail, None, b.extension);
      upload := new ImageUploadTask(derived, ThumbnailUploadPath);
      channels.uploadTasks := channels.uploadTasks + [upload];
    }

    method HandleResize(task: ImageResizeTask) returns (upload: ImageUploadTask)
      modifies channels`uploadTasks, task`resizedImageData
      ensures task.resizedImageData == Some(Resampled(task.maxWidth, task.maxHeight))
      ensures fresh(upload) && fresh(upload.base) && upload.uploadPath == ResizedUploadPath(task.maxWidth)
      ensures upload.base.imageData == task.resizedImageData && upload.base.gifImageData.None?
      ensures upload.base.originalFileName == task.base.originalFileName
      ensures upload.base.hashedFileName == task.base.hashedFileName
      ensures upload.base.extension == task.base.extension
      ensures channels.uploadTasks == old(channels.uploadTasks) + [upload]
    {
      var resized := Some(Resampled(task.maxWidth, task.maxHeight));
      task.resizedImageData := resized;
      var b := task.base;
      var derived := new BaseImageTask(b.originalFileName, b.hashedFileName, resized, None, b.extension);
      upload := new ImageUploadTask(derived, ResizedUploadPath(task.maxWidth));
      channels.uploadTasks := channels.uploadTasks + [upload];
    }
  }

  /** An upload task whose base holds a raster passes the disk uploader's guard. */
  lemma GuardPasses(upload: ImageUploadTask, env: DiskEnv)
    requires upload.base.imageData.Some?
    ensures DiskUploadOf(upload, env).outcome != Returned(Some(ErrNoImageDataToUpload))
  {
    var b := upload.base;
    DiskGuard(b.HasImage(), upload.uploadPath, b.hashedFileName, b.extension, env);
  }

  /**
   * The same dispatch with the corrected worker: after the thumbnail, the
   * resize task still finds the original image, and the thumbnail's upload
   * task holds the thumbnail and gets past the guard.
   */
  method CorrectedScenario() returns (thumbnailUpload: ImageUploadTask, resizeTask: ImageResizeTask)
    ensures resizeTask.base.imageData == Some(Raster(Rect(0, 0, 640, 480)))
    ensures thumbnailUpload.base.imageData == Some(Resampled(ThumbnailWidth, ThumbnailHeight))
    ensures forall env :: DiskUploadOf(thumbnailUpload, env).outcome != Returned(Some(ErrNoImageDataToUpload))
  {
    var channels := new Channels();
    var base := new BaseImageTask("logo.png", "abcd1234abcd.png", Some(Raster(Rect(0, 0, 640, 480))), None, "");
    DispatchMessages(base, [256], channels);
    var thumbnailTask := channels.thumbnailTasks[0];
    resizeTask := channels.resizeTasks[0];
    var transformer := new CorrectedTransformer(channels);
    thumbnailUpload := transformer.HandleThumbnail(thumbnailTask);
    forall env: DiskEnv
      ensures DiskUploadOf(thumbnailUpload, env).outcome != Returned(Some(ErrNoImageDataToUpload))
    {
      GuardPasses(thumbnailUpload, env);
    }
  }

  // ---------------------------------------------------------------------
  // The storage key, as written and corrected
  // ---------------------------------------------------------------------

  /**
   * With the extension the handler leaves empty, the key is the upload path,
   * '/', the hashed name and a trailing '.', which is one character longer
   * than the path and the name joined.
   */
  lemma KeyWithUnsetExtension(uploadPath: string, hashedFileName: string)
    requires uploadPath != "" && hashedFileName != ""
    ensures StorageKey(uploadPath, hashedFileName, "") == uploadPath + "/" + hashedFileName + "."
    ensures StorageKey(uploadPath, hashedFileName, "") != Join([uploadPath, hashedFileName])
  {
    Join2(uploadPath, hashedFileName);
  }

  /**
   * The uploader tests' task (upload path "test_data_thumbnail", hashed name
   * "abcd1234abcd.png", no extension) is stored under a key with a trailing
   * '.', not at `path.Join(uploadPathForTest, HashedFileName)`, the file those
   * tests look for.
   */
  lemma TestTaskKey()
    ensures StorageKey("test_data_thumbnail", "abcd1234abcd.png", "") == "test_data_thumbnail/abcd1234abcd.png."
    ensures StorageKey("test_data_thumbnail", "abcd1234abcd.png", "") != Join(["test_data_thumbnail", "abcd1234abcd.png"])
  {
    KeyWithUnsetExtension("test_data_thumbnail", "abcd1234abcd.png");
  }

  /**
   * For a non-empty endpoint and a non-empty stored key, the advertised
   * thumbnail URL never ends in the key the uploader stores: the URL is the
   * endpoint, '/' and the path and name joined, while the stored key has a
   * trailing '.'.
   */
  lemma StoredKeyNotAdvertised(rootEndpoint: string, hashedFileName: string)
    requires rootEndpoint != "" && hashedFileName != ""
    ensures Http.GenerateSuccessfullyUploadedResponse(rootEndpoint, hashedFileName).thumbnailURL
         != rootEndpoint + "/" + StorageKey(ThumbnailUploadPath, hashedFileName, "")
  {
    var d := Http.GenerateSuccessfullyUploadedResponse(rootEndpoint, hashedFileName);
    KeyWithUnsetExtension(ThumbnailUploadPath, hashedFileName);
    assert |d.thumbnailURL| < |rootEndpoint + "/" + StorageKey(ThumbnailUploadPath, hashedFileName, "")|;
  }

  /**
   * The key the uploader tests look up: the upload path and the hashed name,
   * which already ends with its extension.
   */
  function CorrectedStorageKey(uploadPath: string, hashedFileName: string): (key: string)
    ensures uploadPath != "" && hashedFileName != "" ==> key == uploadPath + "/" + hashedFileName
    ensures uploadPath == "" ==> key == hashedFileName
  {
    Join2Cases(uploadPath, hashedFileName);
    Join([uploadPath, hashedFileName])
  }

  /** `Join` of two elements when one may be empty. */
  lemma Join2Cases(a: string, b: string)
    ensures a != "" && b != "" ==> Join([a, b]) == a + "/" + b
    ensures a == "" ==> Join([a, b]) == b
  {
    if a != "" && b != "" {
      Join2(a, b);
    } else if a == "" {
      assert [a, b][1..] == [b];
      assert [b][1..] == [];
      if b == "" {
        assert NonEmpty([a, b]) == [];
      } else {
        assert NonEmpty([a, b]) == [b];
      }
    }
  }

  /**
   * With the corrected key every advertised URL is the endpoint followed by
   * the key under which the corresponding image is stored.
   */
  lemma CorrectedKeyAdvertised(rootEndpoint: string, hashedFileName: string)
    requires rootEndpoint != "" && hashedFileName != ""
    ensures var d := Http.GenerateSuccessfullyUploadedResponse(rootEndpoint, hashedFileName);
            && d.thumbnailURL == rootEndpoint + "/" + CorrectedStorageKey(ThumbnailUploadPath, hashedFileName)
            && d.resized256URL == rootEndpoint + "/" + CorrectedStorageKey(ResizedUploadPath(256), hashedFileName)
            && d.resized1024URL == rootEndpoint + "/" + CorrectedStorageKey(ResizedUploadPath(1024), hashedFileName)
  {
    var d := Http.GenerateSuccessfullyUploadedResponse(rootEndpoint, hashedFileName);
    assert ResizedUploadPath(256) != "" && ResizedUploadPath(1024) != "";
    assert d.thumbnailURL == rootEndpoint + "/" + (ThumbnailUploadPath + "/" + hashedFileName);
    assert d.resized256URL == rootEndpoint + "/" + (ResizedUploadPath(256) + "/" + hashedFileName);
    assert d.resized1024URL == rootEndpoint + "/" + (ResizedUploadPath(1024) + "/" + hashedFileName);
  }
}
