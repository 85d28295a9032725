/**
 * The per-image loop of `detect_objects`: every discovered image is run through
 * the detector, its path is parsed into `(channel_name, message_id)`, its boxes
 * are classified, and one detection record is kept per image that got through;
 * a failing image is skipped and the run goes on.
 */
module Enrichment {
  import opened Wrappers
  import opened Strings
  import opened Paths
  import opened Classifier

  /**
   * What calling the detector on one image gives: an exception, or the list of
   * per-image results it returns (each a sequence of boxes).
   */
  datatype Inference = InferenceFailed | Results(results: seq<seq<Box>>)

  /** One row of the detections CSV; `imageCategory` holds the category's column name. */
  datatype DetectionRecord = DetectionRecord(
    messageId: string,
    channelName: string,
    imagePath: string,
    detectedObjects: string,
    imageCategory: string)

  /** The separator between the `name:conf` entries of `detected_objects`. */
  const EntrySeparator: string := "; "

  /**
   * One iteration of the loop: the detector call or `results[0]` raising, or a
   * path with fewer than two components, skips the image; otherwise the record
   * of the first result's boxes.
   */
  function ProcessImage(imgPath: string, inference: Inference): (r: Option<DetectionRecord>)
    ensures r.Some? <==> inference.Results? && |inference.results| > 0 && ParsePath(imgPath).Some?
    ensures r.Some? ==> r.value.imagePath == imgPath
    ensures r.Some? ==> ImageKey(r.value.channelName, r.value.messageId) == ParsePath(imgPath).value
    ensures r.Some? ==> r.value.imageCategory == ClassifyBoxes(inference.results[0]).Name()
    ensures r.Some? ==> r.value.detectedObjects == Join(Entries(inference.results[0]), EntrySeparator)
  {
    match inference
    case InferenceFailed => None
    case Results(results) =>
      if |results| == 0 then None
      else
        match ParsePath(imgPath)
        case None => None
        case Some(key) =>
          var boxes := results[0];
          Some(DetectionRecord(key.messageId, key.channelName, imgPath,
                               Join(Entries(boxes), EntrySeparator), ClassifyBoxes(boxes).Name()))
  }

  /**
   * The per-image step of a run whose detector is `detect`: an image yields a
   * record iff the detector returns at least one result for it and its path
   * parses, and the record names that image.
   */
  function Step(detect: string -> Inference): (process: string -> Option<DetectionRecord>)
    ensures forall imgPath :: process(imgPath).Some? <==>
              detect(imgPath).Results? && |detect(imgPath).results| > 0 && ParsePath(imgPath).Some?
    ensures forall imgPath :: process(imgPath).Some? ==> process(imgPath).value.imagePath == imgPath
  {
    imgPath => ProcessImage(imgPath, detect(imgPath))
  }

  /**
   * The records the loop collects over `paths`, in discovery order, when
   * `process` is what one iteration gives for an image.
   */
  function Collect(paths: seq<string>, process: string -> Option<DetectionRecord>): (records: seq<DetectionRecord>)
    ensures |records| <= |paths|
    decreases |paths|
  {
    if |paths| == 0 then []
    else
      var prefix := paths[..|paths| - 1];
      var last := paths[|paths| - 1];
      var earlier := Collect(prefix, process);
      match process(last)
      case None => earlier
      case Some(rec) => earlier + [rec]
  }

  /** Every kept record is the record of some discovered image. */
  lemma {:induction false} CollectSound(paths: seq<string>, process: string -> Option<DetectionRecord>, j: nat)
    requires j < |Collect(paths, process)|
    ensures exists i :: 0 <= i < |paths| && process(paths[i]) == Some(Collect(paths, process)[j])
    decreases |paths|
  {
    var prefix := paths[..|paths| - 1];
    var last := paths[|paths| - 1];
    var earlier := Collect(prefix, process);
    if j < |earlier| {
      CollectSound(prefix, process, j);
      var i :| 0 <= i < |prefix| && process(prefix[i]) == Some(earlier[j]);
      assert paths[i] == prefix[i];
      assert Collect(paths, process)[j] == earlier[j];
    } else {
      assert process(paths[|paths| - 1]) == Some(Collect(paths, process)[j]);
    }
  }

  /** Collection distributes over splitting the image list: images are processed independently. */
  lemma {:induction false} CollectAppend(a: seq<string>, b: seq<string>, process: string -> Option<DetectionRecord>)
    ensures Collect(a + b, process) == Collect(a, process) + Collect(b, process)
    decreases |b|
  {
    if |b| == 0 {
      assert a + b == a;
    } else {
      var b' := b[..|b| - 1];
      assert (a + b)[..|a + b| - 1] == a + b';
      assert (a + b)[|a + b| - 1] == b[|b| - 1];
      CollectAppend(a, b', process);
    }
  }

  /** The records of a single image: its record, or nothing when it is skipped. */
  function Single(imgPath: string, process: string -> Option<DetectionRecord>): (r: seq<DetectionRecord>)
    ensures r == Collect([imgPath], process)
  {
    assert [imgPath][..0] == [];
    match process(imgPath)
    case None => []
    case Some(rec) => [rec]
  }

  /**
   * A failing image drops only itself: the output is what the images before
   * and after it produce, in their order. A succeeding image contributes its
   * record right after the records of the images before it.
   */
  lemma SkipIsLocal(before: seq<string>, x: string, after: seq<string>, process: string -> Option<DetectionRecord>)
    ensures Collect(before + [x] + after, process)
            == Collect(before, process) + Single(x, process) + Collect(after, process)
  {
    CollectAppend(before + [x], after, process);
    CollectAppend(before, [x], process);
  }

  /** True iff no image of `paths` is skipped. */
  predicate NoneSkipped(paths: seq<string>, process: string -> Option<DetectionRecord>) {
    forall i :: 0 <= i < |paths| ==> process(paths[i]).Some?
  }

  /** Every image yields a record iff none of them is skipped. */
  lemma {:induction false} CollectCompleteIff(paths: seq<string>, process: string -> Option<DetectionRecord>)
    ensures |Collect(paths, process)| == |paths| <==> NoneSkipped(paths, process)
    decreases |paths|
  {
    if |paths| > 0 {
      var prefix := paths[..|paths| - 1];
      var last := paths[|paths| - 1];
      CollectCompleteIff(prefix, process);
      assert forall i :: 0 <= i < |prefix| ==> prefix[i] == paths[i];
    }
  }

  /** True iff every image of `paths` is skipped. */
  predicate AllSkipped(paths: seq<string>, process: string -> Option<DetectionRecord>) {
    forall i :: 0 <= i < |paths| ==> process(paths[i]).None?
  }

  /** The run collects nothing iff every image is skipped. */
  lemma {:induction false} CollectEmptyIff(paths: seq<string>, process: string -> Option<DetectionRecord>)
    ensures Collect(paths, process) == [] <==> AllSkipped(paths, process)
    decreases |paths|
  {
    if |paths| > 0 {
      var prefix := paths[..|paths| - 1];
      CollectEmptyIff(prefix, process);
      assert forall i :: 0 <= i < |prefix| ==> prefix[i] == paths[i];
    }
  }

  /** The `detected_objects` text is empty iff the detector found no boxes. */
  lemma DetectedObjectsEmptyIff(boxes: seq<Box>)
    ensures Join(Entries(boxes), EntrySeparator) == "" <==> |boxes| == 0
  {
    var entries := Entries(boxes);
    if |boxes| > 0 {
      var text := Join(entries, EntrySeparator);
      assert entries[0] <= text;
      assert |Entry(boxes[0])| >= 1;
    }
  }

  /** What the run leaves behind: a CSV of records, or no file at all. */
  datatype CsvOutput = NoOutput | Csv(rows: seq<DetectionRecord>)

  /**
   * `detect_objects`: with the model loaded, process every discovered image in
   * order and write the CSV only when at least one record was collected; a model
   * that fails to load ends the run with nothing written.
   */
  method DetectObjects(modelLoads: bool, imagePaths: seq<string>, detect: string -> Inference)
    returns (out: CsvOutput)
    ensures !modelLoads ==> out == NoOutput
    ensures out.Csv? ==> |out.rows| > 0 && out.rows == Collect(imagePaths, Step(detect))
    ensures modelLoads && out == NoOutput ==>
              forall i :: 0 <= i < |imagePaths| ==> ProcessImage(imagePaths[i], detect(imagePaths[i])).None?
  {
    if !modelLoads {
      return NoOutput;
    }
    var process := Step(detect);
    var results: seq<DetectionRecord> := [];
    var k := 0;
    while k < |imagePaths|
      invariant 0 <= k <= |imagePaths|
      invariant results == Collect(imagePaths[..k], process)
    {
      var imgPath := imagePaths[k];
      assert imagePaths[..k + 1][..k] == imagePaths[..k];
      var record := ProcessImage(imgPath, detect(imgPath));
      if record.Some? {
        results := results + [record.value];
      }
      k := k + 1;
    }
    assert imagePaths[..k] == imagePaths;
    if |results| > 0 {
      out := Csv(results);
    } else {
      out := NoOutput;
      CollectEmptyIff(imagePaths, process);
    }
  }
}
