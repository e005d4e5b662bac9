/**
 * Task records that flow through the pipeline (message.go).
 *
 * `BaseImageTask` is a class because the transformer clears its `ImageData`
 * in place, and every derived task holds a reference to the same base.
 * Images are abstract: a raster is its bounds rectangle, an animated GIF its
 * logical screen size and frame count.
 */
module Message {

  datatype Option<T> = None | Some(value: T)

  /** `image.Rectangle`: the half-open box [minX, maxX) x [minY, maxY). */
  datatype Rect = Rect(minX: int, minY: int, maxX: int, maxY: int)
  {
    function Dx(): int { maxX - minX }
    function Dy(): int { maxY - minY }
  }

  /** A decoded single-frame image (`image.Image`), known by its bounds. */
  datatype Raster = Raster(bounds: Rect)

  /** A decoded animated image (`*gif.GIF`): `Config.Width`, `Config.Height`, number of frames. */
  datatype Animation = Animation(configWidth: int, configHeight: int, frameCount: nat)

  /** `ErrNoImageErr`: neither `ImageData` nor `GIFImageData` is set. */
  datatype TaskError = ErrNoImageErr

  class BaseImageTask {
    var originalFileName: string
    var hashedFileName: string
    var imageData: Option<Raster>
    var gifImageData: Option<Animation>
    var extension: string

    constructor (originalFileName: string, hashedFileName: string,
                 imageData: Option<Raster>, gifImageData: Option<Animation>, extension: string)
      ensures this.originalFileName == originalFileName && this.hashedFileName == hashedFileName
      ensures this.imageData == imageData && this.gifImageData == gifImageData
      ensures this.extension == extension
    {
      this.originalFileName := originalFileName;
      this.hashedFileName := hashedFileName;
      this.imageData := imageData;
      this.gifImageData := gifImageData;
      this.extension := extension;
    }

    /** True when at least one of the two image fields is present. */
    predicate HasImage()
      reads this
    {
      imageData.Some? || gifImageData.Some?
    }

    /**
     * Fails exactly when both image fields are absent. Having both present
     * is accepted: there is no exclusivity check.
     */
    function Validate(): (err: Option<TaskError>)
      reads this
      ensures err == Some(ErrNoImageErr) <==> imageData.None? && gifImageData.None?
      ensures err == None <==> HasImage()
    {
      if imageData.None? && gifImageData.None? then Some(ErrNoImageErr) else None
    }

    /**
     * Width of the raster when there is one (it wins over the GIF), else
     * the GIF's configured width; (0, ErrNoImageErr) when there is neither.
     */
    function GetOriginalWidth(): (r: (int, Option<TaskError>))
      reads this
      ensures r.1 == Validate()
      ensures imageData.Some? ==> r.0 == imageData.value.bounds.Dx()
      ensures imageData.None? && gifImageData.Some? ==> r.0 == gifImageData.value.configWidth
      ensures r.1.Some? ==> r.0 == 0
    {
      if imageData.Some? then (imageData.value.bounds.Dx(), None)
      else if gifImageData.Some? then (gifImageData.value.configWidth, None)
      else (0, Some(ErrNoImageErr))
    }

    /** Same choice of source as `GetOriginalWidth`, reading the height. */
    function GetOriginalHeight(): (r: (int, Option<TaskError>))
      reads this
      ensures r.1 == Validate()
      ensures imageData.Some? ==> r.0 == imageData.value.bounds.Dy()
      ensures imageData.None? && gifImageData.Some? ==> r.0 == gifImageData.value.configHeight
      ensures r.1.Some? ==> r.0 == 0
    {
      if imageData.Some? then (imageData.value.bounds.Dy(), None)
      else if gifImageData.Some? then (gifImageData.value.configHeight, None)
      else (0, Some(ErrNoImageErr))
    }

    /** `BaseImageTask(OriginalFileName: <o>, HashedFileName: <h>)`. */
    function String(): (s: string)
      reads this
      ensures |s| == |BaseOpen| + |originalFileName| + |HashedLabel| + |hashedFileName| + 1
      ensures s[..|BaseOpen|] == BaseOpen
      ensures s[|BaseOpen|..|BaseOpen| + |originalFileName|] == originalFileName
      ensures s[|s| - 1 - |hashedFileName| - |HashedLabel|..|s| - 1 - |hashedFileName|] == HashedLabel
      ensures s[|s| - 1 - |hashedFileName|..|s| - 1] == hashedFileName
      ensures s[|s| - 1] == ')'
    {
      BaseOpen + originalFileName + HashedLabel + hashedFileName + ")"
    }
  }

  const BaseOpen := "BaseImageTask(OriginalFileName: "
  const UploadOpen := "ImageUploadTask(UploadPath: "
  const OriginalLabel := ", OriginalFileName: "
  const HashedLabel := ", HashedFileName: "

  /** `ImageResizeTask`: a base plus the requested size and the resize outputs. */
  class ImageResizeTask {
    const base: BaseImageTask
    const resizingWidth: int
    const maxWidth: int
    const maxHeight: int
    var resizedImageData: Option<Raster>
    var resizedGIFImageData: Option<Animation>

    constructor (base: BaseImageTask, resizingWidth: int, maxWidth: int, maxHeight: int)
      ensures this.base == base && this.resizingWidth == resizingWidth
      ensures this.maxWidth == maxWidth && this.maxHeight == maxHeight
      ensures resizedImageData.None? && resizedGIFImageData.None?
    {
      this.base := base;
      this.resizingWidth := resizingWidth;
      this.maxWidth := maxWidth;
      this.maxHeight := maxHeight;
      resizedImageData := None;
      resizedGIFImageData := None;
    }
  }

  /** `ImageGenerateThumbnailTask`: a base plus the thumbnail outputs. */
  class ImageGenerateThumbnailTask {
    const base: BaseImageTask
    var thumbnailImageData: Option<Raster>
    var thumbnailGIFImageData: Option<Animation>

    constructor (base: BaseImageTask)
      ensures this.base == base
      ensures thumbnailImageData.None? && thumbnailGIFImageData.None?
    {
      this.base := base;
      thumbnailImageData := None;
      thumbnailGIFImageData := None;
    }
  }

  /** `ImageUploadTask`: a base and the logical directory it is stored under. */
  class ImageUploadTask {
    const base: BaseImageTask
    const uploadPath: string

    constructor (base: BaseImageTask, uploadPath: string)
      ensures this.base == base && this.uploadPath == uploadPath
    {
      this.base := base;
      this.uploadPath := uploadPath;
    }

    /** `ImageUploadTask(UploadPath: <p>, OriginalFileName: <o>, HashedFileName: <h>)`. */
    function String(): (s: string)
      reads base
      ensures |s| == |UploadOpen| + |uploadPath| + |OriginalLabel| + |base.originalFileName|
                     + |HashedLabel| + |base.hashedFileName| + 1
      ensures s[..|UploadOpen|] == UploadOpen
      ensures s[|UploadOpen|..|UploadOpen| + |uploadPath|] == uploadPath
      ensures s[|UploadOpen| + |uploadPath|..|UploadOpen| + |uploadPath| + |OriginalLabel|] == OriginalLabel
      ensures s[|UploadOpen| + |uploadPath| + |OriginalLabel|..
                |UploadOpen| + |uploadPath| + |OriginalLabel| + |base.originalFileName|] == base.originalFileName
      ensures s[|s| - 1 - |base.hashedFileName| - |HashedLabel|..|s| - 1 - |base.hashedFileName|] == HashedLabel
      ensures s[|s| - 1 - |base.hashedFileName|..|s| - 1] == base.hashedFileName
      ensures s[|s| - 1] == ')'
    {
      UploadOpen + uploadPath + OriginalLabel + base.originalFileName + HashedLabel + base.hashedFileName + ")"
    }
  }

  /**
   * The package-level task channels `ResizeTaskChan`, `ThumbnailTaskChan` and
   * `UploadTaskChan`, each modelled as the sequence of tasks sent into it.
   */
  class Channels {
    var resizeTasks: seq<ImageResizeTask>
    var thumbnailTasks: seq<ImageGenerateThumbnailTask>
    var uploadTasks: seq<ImageUploadTask>

    /** `InitTaskChannels`: three fresh, empty channels. */
    constructor ()
      ensures resizeTasks == [] && thumbnailTasks == [] && uploadTasks == []
    {
      resizeTasks := [];
      thumbnailTasks := [];
      uploadTasks := [];
    }
  }
}
