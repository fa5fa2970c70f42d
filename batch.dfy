/** The two entry points that call the analysis: the upload tab, which runs
    one analysis per uploaded file in upload order once the start button is
    pressed, and the camera tab, which runs one analysis when a capture
    exists. Opening the image files and the camera are outside the model: an
    image is an opaque value and the classifier a function from images to
    ranked outputs. */
module Batch {
  import opened Analysis

  datatype Option<T> = None | Some(value: T)

  /** How a run of the tab ended. An analysis that raises stops the script
      run, so the images after it are not analysed. */
  datatype Status = Completed | Aborted(failedAt: nat, error: AnalysisError)

  /** `shown[i]` is the record of the `i`-th image, for every record shown. */
  ghost predicate ShownInOrder<Image>(images: seq<Image>, classify: Image -> seq<Prediction>, shown: seq<DisplayRecord>)
  {
    |shown| <= |images| && forall i :: 0 <= i < |shown| ==> Analyze(classify(images[i])) == Ok(shown[i])
  }

  /** The upload tab: nothing happens for an empty upload list or before the
      start button is pressed; otherwise each file is analysed in upload
      order until one analysis fails. */
  method AnalyzeUploads<Image>(uploads: seq<Image>, startPressed: bool, classify: Image -> seq<Prediction>)
    returns (shown: seq<DisplayRecord>, status: Status)
    ensures uploads == [] || !startPressed ==> shown == [] && status == Completed
    ensures ShownInOrder(uploads, classify, shown)
    ensures status == Completed && startPressed ==> |shown| == |uploads|
    ensures status.Aborted? ==>
      startPressed && status.failedAt == |shown| < |uploads|
      && Analyze(classify(uploads[|shown|])) == Err(status.error)
  {
    shown, status := [], Completed;
    if uploads == [] || !startPressed {
      return;
    }
    for i := 0 to |uploads|
      invariant |shown| == i
      invariant ShownInOrder(uploads, classify, shown)
    {
      var r := AnalyzeImage(classify(uploads[i]));
      if r.Err? {
        status := Aborted(i, r.error);
        return;
      }
      shown := shown + [r.value];
    }
  }

  /** The camera tab: one analysis when a capture exists, none otherwise. */
  method AnalyzeCapture<Image>(capture: Option<Image>, classify: Image -> seq<Prediction>)
    returns (shown: seq<DisplayRecord>, status: Status)
    ensures |shown| <= 1
    ensures capture == None ==> shown == [] && status == Completed
    ensures capture.Some? ==>
      match Analyze(classify(capture.value))
      case Ok(d) => shown == [d] && status == Completed
      case Err(e) => shown == [] && status == Aborted(0, e)
  {
    shown, status := [], Completed;
    if capture.Some? {
      var r := AnalyzeImage(classify(capture.value));
      match r
      case Ok(d) => shown := [d];
      case Err(e) => status := Aborted(0, e);
    }
  }

  /** A completed upload run analysed every image, each once, in upload
      order; a run that was not completed failed at an image whose output was
      empty, after showing the records of all images before it. */
  lemma UploadRunOutcome<Image>(uploads: seq<Image>, classify: Image -> seq<Prediction>,
                                shown: seq<DisplayRecord>, status: Status)
    requires ShownInOrder(uploads, classify, shown)
    requires status == Completed ==> |shown| == |uploads|
    requires status.Aborted? ==>
      status.failedAt == |shown| < |uploads| && Analyze(classify(uploads[|shown|])) == Err(status.error)
    ensures status == Completed <==> forall i :: 0 <= i < |uploads| ==> classify(uploads[i]) != []
    ensures status == Completed ==> shown == seq(|uploads|, i requires 0 <= i < |uploads| => Analyze(classify(uploads[i])).value)
    ensures status.Aborted? ==> classify(uploads[status.failedAt]) == []
  {
  }
}
