/**
 * The transformer worker (transform.go): it receives thumbnail and resize
 * tasks, transforms them in place and sends one upload task per transformed
 * task, until it receives a quit signal.
 *
 * A `select` over channels and timers becomes a sequence of `Event`s, each
 * one being the case that fired together with the value it received.
 */
module Transform {
  import opened Text
  import opened Message

  const ThumbnailWidth := 64
  const ThumbnailHeight := 64

  /** The upload path of every thumbnail. */
  const ThumbnailUploadPath := "thumbnail"

  /**
   * What the resampling library returns for a `w` x `h` request: an image of
   * exactly that size whose bounds start at the origin.
   */
  function Resampled(w: int, h: int): Raster
  {
    Raster(Rect(0, 0, w, h))
  }

  /** `path.Join("resized", strconv.Itoa(maxWidth))`. */
  function ResizedUploadPath(maxWidth: int): (p: string)
    ensures p == "resized/" + Itoa(maxWidth)
  {
    Join2("resized", Itoa(maxWidth));
    Join(["resized", Itoa(maxWidth)])
  }

  /** Different widths are stored under different directories, and never under the thumbnail one. */
  lemma ResizedUploadPathsDistinct(w1: int, w2: int)
    ensures ResizedUploadPath(w1) == ResizedUploadPath(w2) <==> w1 == w2
    ensures ResizedUploadPath(w1) != ThumbnailUploadPath
  {
    var p1, p2 := ResizedUploadPath(w1), ResizedUploadPath(w2);
    assert p1[8..] == Itoa(w1);
    assert p2[8..] == Itoa(w2);
    ItoaInjective(w1, w2);
    assert |p1| > |ThumbnailUploadPath| || p1[0] != ThumbnailUploadPath[0];
  }

  /**
   * `ParseImageFileName`: the text before the first '.' and the text between
   * the first and the second '.'. A name without '.' makes the Go code index
   * out of range, so callers must supply one.
   */
  function ParseImageFileName(fileName: string): (r: (string, string))
    requires '.' in fileName
    ensures '.' !in r.0 && '.' !in r.1
    ensures r.0 + "." + r.1 <= fileName
    ensures |r.0| + 1 + |r.1| < |fileName| ==> fileName[|r.0| + 1 + |r.1|] == '.'
  {
    var parts := Split(fileName, '.');
    FirstTwoParts(fileName, parts);
    (parts[0], parts[1])
  }

  /** The first two pieces of a split, with the separator between them, start the text. */
  lemma FirstTwoParts(fileName: string, parts: seq<string>)
    requires parts == Split(fileName, '.') && |parts| >= 2
    ensures parts[0] + "." + parts[1] <= fileName
    ensures |parts[0]| + 1 + |parts[1]| < |fileName| ==> fileName[|parts[0]| + 1 + |parts[1]|] == '.'
  {
    var i := IndexOf(fileName, '.');
    var t := fileName[i + 1..];
    var rest := Split(t, '.');
    assert parts == [fileName[..i]] + rest;
    assert parts[0] == fileName[..i] && parts[1] == rest[0];
    SplitHead(t, '.');
    var n := |rest[0]|;
    assert t[..n] == rest[0];
    SliceAround(fileName, i, n);
    assert fileName[..i + 1 + n] == fileName[..i] + "." + t[..n];
    assert n < |t| ==> fileName[i + 1 + n] == t[n];
  }

  /** A prefix that runs past position `i`: the part before it, the element at it, and what follows. */
  lemma SliceAround<T>(s: seq<T>, i: nat, n: nat)
    requires i + 1 + n <= |s|
    ensures s[..i + 1 + n] == s[..i] + [s[i]] + s[i + 1..][..n]
  {
    var l, r := s[..i + 1 + n], s[..i] + [s[i]] + s[i + 1..][..n];
    assert |l| == |r|;
    forall k | 0 <= k < |l| ensures l[k] == r[k] {
      if k > i {
        assert r[k] == s[i + 1..][k - i - 1];
      }
    }
  }

  /** A file name with exactly one '.' */
  predicate SingleDot(fileName: string)
  {
    '.' in fileName && forall i, j :: 0 <= i < j < |fileName| && fileName[i] == '.' ==> fileName[j] != '.'
  }

  /** For a name with a single '.', the two parts put back together give the name. */
  lemma ParseSingleDot(fileName: string)
    requires SingleDot(fileName)
    ensures var (pureName, extension) := ParseImageFileName(fileName);
            pureName + "." + extension == fileName
  {
    var (pureName, extension) := ParseImageFileName(fileName);
    var n := |pureName| + 1 + |extension|;
    assert (pureName + "." + extension)[|pureName|] == '.';
    if n < |fileName| {
      assert false;
    }
  }

  /** One case of the transformer's `select`, with the value it received. */
  datatype Event =
    | ThumbnailReceived(thumbnailTask: ImageGenerateThumbnailTask)
    | ResizeReceived(resizeTask: ImageResizeTask)
      /** The one-second timer fired; `drained` is what the inner `select` took
          from the package-level resize channel before its own timer fired. */
    | TimedOut(drained: Option<ImageResizeTask>)
    | QuitReceived

  /** Index of the first quit signal, or the length of the stream when there is none. */
  function QuitIndex(events: seq<Event>): (q: nat)
    ensures q <= |events|
    ensures forall k :: 0 <= k < q ==> !events[k].QuitReceived?
    ensures q < |events| ==> events[q].QuitReceived?
  {
    if |events| == 0 then 0
    else if events[0].QuitReceived? then 0
    else 1 + QuitIndex(events[1..])
  }

  /** The events the worker handles: everything before the first quit signal. */
  function Handled(events: seq<Event>): seq<Event>
  {
    events[..QuitIndex(events)]
  }

  /** Whatever follows a quit signal is never handled. */
  lemma {:induction false} QuitCutsStream(before: seq<Event>, after: seq<Event>)
    requires forall k :: 0 <= k < |before| ==> !before[k].QuitReceived?
    ensures Handled(before + [QuitReceived] + after) == before
  {
    var s := before + [QuitReceived] + after;
    var q := QuitIndex(s);
    assert s[|before|].QuitReceived?;
    assert q == |before|;
    assert s[..q] == before;
  }

  /** The (base, upload path) pair an event makes the worker send, if any. */
  function Step(e: Event): seq<(BaseImageTask, string)>
  {
    match e
    case ThumbnailReceived(t) => [(t.base, ThumbnailUploadPath)]
    case ResizeReceived(t) => [(t.base, ResizedUploadPath(t.maxWidth))]
    case TimedOut(_) => []
    case QuitReceived => []
  }

  /** The upload tasks a stream of handled events produces, in order, as (base, path) pairs. */
  function Routed(events: seq<Event>): seq<(BaseImageTask, string)>
  {
    if |events| == 0 then [] else Routed(events[..|events| - 1]) + Step(events[|events| - 1])
  }

  lemma {:induction false} RoutedAppend(a: seq<Event>, b: seq<Event>)
    ensures Routed(a + b) == Routed(a) + Routed(b)
    decreases |b|
  {
    if |b| == 0 {
      assert a + b == a;
    } else {
      var b' := b[..|b| - 1];
      assert (a + b)[..|a + b| - 1] == a + b';
      RoutedAppend(a, b');
    }
  }

  /** A thumbnail or resize event routes exactly one task; a timeout or a quit routes none. */
  lemma RoutedSingle(e: Event)
    ensures Routed([e]) == Step(e)
    ensures |Step(e)| == (if e.ThumbnailReceived? || e.ResizeReceived? then 1 else 0)
  {
    assert [e][..0] == [];
  }

  /** The (base, path) pairs of a sequence of upload tasks. */
  function Views(uploads: seq<ImageUploadTask>): (v: seq<(BaseImageTask, string)>)
    ensures |v| == |uploads|
    ensures forall i :: 0 <= i < |uploads| ==> v[i] == (uploads[i].base, uploads[i].uploadPath)
  {
    seq(|uploads|, i requires 0 <= i < |uploads| => (uploads[i].base, uploads[i].uploadPath))
  }

  lemma ViewsSnoc(uploads: seq<ImageUploadTask>, u: ImageUploadTask)
    ensures Views(uploads + [u]) == Views(uploads) + [(u.base, u.uploadPath)]
  {
    var l, r := Views(uploads + [u]), Views(uploads) + [(u.base, u.uploadPath)];
    assert |l| == |r|;
    forall k | 0 <= k < |l| ensures l[k] == r[k] {
      if k < |uploads| {
        assert (uploads + [u])[k] == uploads[k];
      }
    }
  }

  lemma AppendAssociates<T>(a: seq<T>, b: seq<T>, c: seq<T>)
    ensures a + b + c == a + (b + c)
  {
  }

  /** The thumbnail tasks received, in any order. */
  function ThumbnailTasks(events: seq<Event>): set<ImageGenerateThumbnailTask>
  {
    set k | 0 <= k < |events| && events[k].ThumbnailReceived? :: events[k].thumbnailTask
  }

  /** The resize tasks received (a task drained on a timeout is not one of them). */
  function ResizeTasks(events: seq<Event>): set<ImageResizeTask>
  {
    set k | 0 <= k < |events| && events[k].ResizeReceived? :: events[k].resizeTask
  }

  /** The thumbnail task an event carries, if any. */
  function EventThumbnail(e: Event): set<ImageGenerateThumbnailTask>
  {
    if e.ThumbnailReceived? then {e.thumbnailTask} else {}
  }

  /** The resize task an event hands to the worker, if any. */
  function EventResize(e: Event): set<ImageResizeTask>
  {
    if e.ResizeReceived? then {e.resizeTask} else {}
  }

  /** The base of the task an event carries, if it carries one the worker handles. */
  function EventBase(e: Event): set<BaseImageTask>
  {
    match e
    case ThumbnailReceived(t) => {t.base}
    case ResizeReceived(t) => {t.base}
    case TimedOut(_) => {}
    case QuitReceived => {}
  }

  /** The bases of the thumbnail and resize tasks received. */
  function Bases(events: seq<Event>): set<BaseImageTask>
  {
    set k, b | 0 <= k < |events| && b in EventBase(events[k]) :: b
  }

  /** Receiving one more event adds its task and its base, and nothing else. */
  lemma SetsSnoc(s: seq<Event>, e: Event)
    ensures ThumbnailTasks(s + [e]) == ThumbnailTasks(s) + EventThumbnail(e)
    ensures ResizeTasks(s + [e]) == ResizeTasks(s) + EventResize(e)
    ensures Bases(s + [e]) == Bases(s) + EventBase(e)
  {
    var s' := s + [e];
    assert forall k :: 0 <= k < |s| ==> s'[k] == s[k];
    assert s'[|s|] == e;
  }

  /** What handling one more event of a stream adds to each of its summaries. */
  lemma Advance(events: seq<Event>, i: nat)
    requires i < |events|
    ensures Routed(events[..i + 1]) == Routed(events[..i]) + Step(events[i])
    ensures ThumbnailTasks(events[..i + 1]) == ThumbnailTasks(events[..i]) + EventThumbnail(events[i])
    ensures ResizeTasks(events[..i + 1]) == ResizeTasks(events[..i]) + EventResize(events[i])
    ensures Bases(events[..i + 1]) == Bases(events[..i]) + EventBase(events[i])
  {
    assert events[..i + 1] == events[..i] + [events[i]];
    SetsSnoc(events[..i], events[i]);
  }

  /** Every upload task routed by a stream is on the base of a task received in it. */
  lemma {:induction false} RoutedBases(s: seq<Event>)
    ensures forall p :: p in Routed(s) ==> p.0 in Bases(s)
  {
    if |s| > 0 {
      var s', e := s[..|s| - 1], s[|s| - 1];
      assert s == s' + [e];
      RoutedBases(s');
      SetsSnoc(s', e);
    }
  }

  /** The event at `i` contributes its task and its base to the stream's sets. */
  lemma MembersAt(events: seq<Event>, i: nat)
    requires i < |events|
    ensures EventBase(events[i]) <= Bases(events)
    ensures events[i].ThumbnailReceived? ==> events[i].thumbnailTask in ThumbnailTasks(events)
    ensures events[i].ResizeReceived? ==> events[i].resizeTask in ResizeTasks(events)
  {
    forall b | b in EventBase(events[i]) ensures b in Bases(events) {
      assert 0 <= i < |events| && b in EventBase(events[i]);
    }
  }

  /**
   * What the worker has done to the tasks and bases it handled: each thumbnail
   * task holds a 64 x 64 resample, each resize task its `MaxWidth` x
   * `MaxHeight` resample, and each base has lost its image.
   */
  ghost predicate Transformed(thumbnailed: set<ImageGenerateThumbnailTask>, resized: set<ImageResizeTask>,
                              cleared: set<BaseImageTask>)
    reads thumbnailed, resized, cleared
  {
    && (forall t :: t in thumbnailed ==> t.thumbnailImageData == Some(Resampled(ThumbnailWidth, ThumbnailHeight)))
    && (forall t :: t in resized ==> t.resizedImageData == Some(Resampled(t.maxWidth, t.maxHeight)))
    && (forall b :: b in cleared ==> b.imageData == None)
  }

  class Transformer {
    /** The worker's own `ResizeTaskChan`, `ThumbnailTaskChan` and `UploadTaskChan`. */
    const channels: Channels

    constructor (channels: Channels)
      ensures this.channels == channels
    {
      this.channels := channels;
    }

    /**
     * Stores a `MaxWidth` x `MaxHeight` resample of the image in the task and
     * drops the image from the (shared) base; no other field is written.
     */
    method Resize(task: ImageResizeTask)
      modifies task`resizedImageData, task.base`imageData
      ensures task.resizedImageData == Some(Resampled(task.maxWidth, task.maxHeight))
      ensures task.base.imageData == None
    {
      task.resizedImageData := Some(Resampled(task.maxWidth, task.maxHeight));
      task.base.imageData := None;
    }

    /** Stores a 64 x 64 resample in the task and drops the image from the base. */
    method GenerateThumbnail(task: ImageGenerateThumbnailTask)
      modifies task`thumbnailImageData, task.base`imageData
      ensures task.thumbnailImageData == Some(Resampled(ThumbnailWidth, ThumbnailHeight))
      ensures task.base.imageData == None
    {
      task.thumbnailImageData := Some(Resampled(ThumbnailWidth, ThumbnailHeight));
      task.base.imageData := None;
    }

    /**
     * The thumbnail case of the `select`: transform the task, then send an
     * upload task for the same base under the thumbnail path.
     */
    method HandleThumbnail(task: ImageGenerateThumbnailTask) returns (upload: ImageUploadTask)
      modifies channels`uploadTasks, task`thumbnailImageData, task.base`imageData
      ensures fresh(upload) && upload.base == task.base && upload.uploadPath == ThumbnailUploadPath
      ensures channels.uploadTasks == old(channels.uploadTasks) + [upload]
      ensures task.thumbnailImageData == Some(Resampled(ThumbnailWidth, ThumbnailHeight))
      ensures task.base.imageData == None
    {
      GenerateThumbnail(task);
      upload := new ImageUploadTask(task.base, ThumbnailUploadPath);
      channels.uploadTasks := channels.uploadTasks + [upload];
    }

    /**
     * The resize case of the `select`: transform the task, then send an
     * upload task for the same base under "resized/<MaxWidth>".
     */
    method HandleResize(task: ImageResizeTask) returns (upload: ImageUploadTask)
      modifies channels`uploadTasks, task`resizedImageData, task.base`imageData
      ensures fresh(upload) && upload.base == task.base && upload.uploadPath == ResizedUploadPath(task.maxWidth)
      ensures channels.uploadTasks == old(channels.uploadTasks) + [upload]
      ensures task.resizedImageData == Some(Resampled(task.maxWidth, task.maxHeight))
      ensures task.base.imageData == None
    {
      Resize(task);
      upload := new ImageUploadTask(task.base, ResizedUploadPath(task.maxWidth));
      channels.uploadTasks := channels.uploadTasks + [upload];
    }

    /**
     * One turn of the `select`: a thumbnail or resize event is handled, a
     * timeout or quit signal changes nothing. The ghost sets name tasks and
     * bases already handled; what holds of them stays true.
     */
    method Receive(e: Event, ghost thumbnailed: set<ImageGenerateThumbnailTask>,
                   ghost resized: set<ImageResizeTask>, ghost cleared: set<BaseImageTask>)
      requires Transformed(thumbnailed, resized, cleared)
      modifies channels`uploadTasks, EventThumbnail(e)`thumbnailImageData, EventResize(e)`resizedImageData
      modifies EventBase(e)`imageData
      ensures Views(channels.uploadTasks) == Views(old(channels.uploadTasks)) + Step(e)
      ensures |channels.uploadTasks| >= |old(channels.uploadTasks)|
      ensures channels.uploadTasks[..|old(channels.uploadTasks)|] == old(channels.uploadTasks)
      ensures forall j :: |old(channels.uploadTasks)| <= j < |channels.uploadTasks| ==> fresh(channels.uploadTasks[j])
      ensures Transformed(thumbnailed + EventThumbnail(e), resized + EventResize(e), cleared + EventBase(e))
    {
      match e
      case ThumbnailReceived(task) =>
        ghost var before := channels.uploadTasks;
        var upload := HandleThumbnail(task);
        ViewsSnoc(before, upload);
      case ResizeReceived(task) =>
        ghost var before := channels.uploadTasks;
        var upload := HandleResize(task);
        ViewsSnoc(before, upload);
      case TimedOut(_) =>
      case QuitReceived =>
    }

    /**
     * The worker loop. Every thumbnail or resize event before the first quit
     * signal is transformed and yields one upload task on the same base; a
     * timeout yields none (a task it drains is dropped untouched); the quit
     * signal ends the loop, and nothing after it is handled or written.
     * `stopped` says whether the loop ended because of a quit signal.
     */
    method Start(events: seq<Event>) returns (stopped: bool)
      modifies channels`uploadTasks
      modifies ThumbnailTasks(Handled(events))`thumbnailImageData
      modifies ResizeTasks(Handled(events))`resizedImageData
      modifies Bases(Handled(events))`imageData
      ensures stopped <==> QuitIndex(events) < |events|
      ensures Views(channels.uploadTasks) == Views(old(channels.uploadTasks)) + Routed(Handled(events))
      ensures forall j :: |old(channels.uploadTasks)| <= j < |channels.uploadTasks| ==>
                fresh(channels.uploadTasks[j]) && channels.uploadTasks[j].base.imageData == None
      ensures forall t :: t in ThumbnailTasks(Handled(events)) ==>
                t.thumbnailImageData == Some(Resampled(ThumbnailWidth, ThumbnailHeight))
      ensures forall t :: t in ResizeTasks(Handled(events)) ==>
                t.resizedImageData == Some(Resampled(t.maxWidth, t.maxHeight))
      ensures forall b :: b in Bases(Handled(events)) ==> b.imageData == None
    {
      var loop := true;
      var i := 0;
      ghost var handled := Handled(events);
      while loop && i < |events|
        invariant 0 <= i <= QuitIndex(events)
        invariant !loop ==> i == QuitIndex(events) < |events|
        invariant Views(channels.uploadTasks) == Views(old(channels.uploadTasks)) + Routed(events[..i])
        invariant |old(channels.uploadTasks)| <= |channels.uploadTasks|
        invariant forall j :: |old(channels.uploadTasks)| <= j < |channels.uploadTasks| ==> fresh(channels.uploadTasks[j])
        invariant Transformed(ThumbnailTasks(events[..i]), ResizeTasks(events[..i]), Bases(events[..i]))
        decreases |events| - i + (if loop then 1 else 0)
      {
        var e := events[i];
        if e.QuitReceived? {
          loop := false;
        } else {
          Advance(events, i);
          MembersAt(handled, i);
          ghost var prev := Views(channels.uploadTasks);
          Receive(e, ThumbnailTasks(events[..i]), ResizeTasks(events[..i]), Bases(events[..i]));
          AppendAssociates(Views(old(channels.uploadTasks)), Routed(events[..i]), Step(e));
          assert Views(channels.uploadTasks) == prev + Step(e);
          i := i + 1;
        }
      }
      assert events[..i] == handled;
      RoutedBases(handled);
      stopped := !loop;
    }
  }
}
