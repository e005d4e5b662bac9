/**
 * The dispatcher (dispatch.go): one accepted image becomes one thumbnail
 * task, one resize task per configured width and one upload task for the
 * original, all sent into the package-level channels. Every derived task
 * holds the very same base object; nothing is copied.
 */
module Dispatch {
  import opened Message

  /** The upload path of the untransformed image. */
  const OriginalUploadPath := "original"

  /** The requested widths of a sequence of resize tasks, in order. */
  function Widths(tasks: seq<ImageResizeTask>): (w: seq<int>)
    ensures |w| == |tasks|
    ensures forall k :: 0 <= k < |tasks| ==> w[k] == tasks[k].resizingWidth
  {
    seq(|tasks|, k requires 0 <= k < |tasks| => tasks[k].resizingWidth)
  }

  /**
   * A resize task as the dispatcher builds it: on `base`, with nothing
   * resized yet and `MaxWidth` and `MaxHeight` left at zero, because the
   * dispatcher only sets `ResizingWidth`.
   */
  predicate FreshResizeTask(r: ImageResizeTask, base: BaseImageTask)
    reads r
  {
    && r.base == base
    && r.maxWidth == 0 && r.maxHeight == 0
    && r.resizedImageData.None? && r.resizedGIFImageData.None?
  }

  /** The total number of tasks waiting in the three channels. */
  function Pending(c: Channels): nat
    reads c
  {
    |c.thumbnailTasks| + |c.resizeTasks| + |c.uploadTasks|
  }

  /**
   * `DispatchMessages`. The three goroutines write to three different
   * channels, so their interleaving does not change what each channel
   * receives; the model runs them one after the other.
   */
  method DispatchMessages(base: BaseImageTask, resizeSizes: seq<int>, channels: Channels)
    modifies channels
    ensures unchanged(base)
    // exactly one thumbnail task, on the argument itself
    ensures |channels.thumbnailTasks| == |old(channels.thumbnailTasks)| + 1
    ensures channels.thumbnailTasks[..|old(channels.thumbnailTasks)|] == old(channels.thumbnailTasks)
    ensures var t := channels.thumbnailTasks[|old(channels.thumbnailTasks)|];
            fresh(t) && t.base == base && t.thumbnailImageData.None? && t.thumbnailGIFImageData.None?
    // one resize task per width, in list order
    ensures |channels.resizeTasks| == |old(channels.resizeTasks)| + |resizeSizes|
    ensures channels.resizeTasks[..|old(channels.resizeTasks)|] == old(channels.resizeTasks)
    ensures Widths(channels.resizeTasks[|old(channels.resizeTasks)|..]) == resizeSizes
    ensures forall k :: |old(channels.resizeTasks)| <= k < |channels.resizeTasks| ==>
              fresh(channels.resizeTasks[k]) && FreshResizeTask(channels.resizeTasks[k], base)
    // exactly one upload task, for the original
    ensures |channels.uploadTasks| == |old(channels.uploadTasks)| + 1
    ensures channels.uploadTasks[..|old(channels.uploadTasks)|] == old(channels.uploadTasks)
    ensures var u := channels.uploadTasks[|old(channels.uploadTasks)|];
            fresh(u) && u.base == base && u.uploadPath == OriginalUploadPath
    ensures Pending(channels) == old(Pending(channels)) + |resizeSizes| + 2
  {
    var thumbnailTask := new ImageGenerateThumbnailTask(base);
    channels.thumbnailTasks := channels.thumbnailTasks + [thumbnailTask];

    ghost var n0 := |channels.resizeTasks|;
    var i := 0;
    while i < |resizeSizes|
      invariant 0 <= i <= |resizeSizes|
      invariant |channels.resizeTasks| == n0 + i
      invariant channels.resizeTasks[..n0] == old(channels.resizeTasks)
      invariant forall k :: n0 <= k < n0 + i ==>
                  && fresh(channels.resizeTasks[k])
                  && FreshResizeTask(channels.resizeTasks[k], base)
                  && channels.resizeTasks[k].resizingWidth == resizeSizes[k - n0]
      invariant channels.thumbnailTasks == old(channels.thumbnailTasks) + [thumbnailTask]
      invariant thumbnailTask.thumbnailImageData.None? && thumbnailTask.thumbnailGIFImageData.None?
      invariant channels.uploadTasks == old(channels.uploadTasks)
    {
      var resizeTask := new ImageResizeTask(base, resizeSizes[i], 0, 0);
      var prev := channels.resizeTasks;
      channels.resizeTasks := prev + [resizeTask];
      assert forall k :: 0 <= k < n0 + i ==> channels.resizeTasks[k] == prev[k];
      i := i + 1;
    }
    ghost var added := channels.resizeTasks[n0..];
    assert forall k :: 0 <= k < |added| ==> added[k].resizingWidth == resizeSizes[k] by {
      forall k | 0 <= k < |added| ensures added[k].resizingWidth == resizeSizes[k] {
        assert added[k] == channels.resizeTasks[n0 + k];
      }
    }
    assert Widths(added) == resizeSizes;

    var uploadTask := new ImageUploadTask(base, OriginalUploadPath);
    channels.uploadTasks := channels.uploadTasks + [uploadTask];
  }
}
