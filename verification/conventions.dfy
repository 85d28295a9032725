/**
 * The path convention shared by the scraper and the enrichment step: the
 * scraper stores the photo of message `id` of `channel` at
 * `data/raw/images/<channel>/<id>.jpg`, and the enrichment step recovers
 * `(channel, str(id))` from that path.
 */
module Conventions {
  import opened Wrappers
  import opened Strings
  import opened Paths
  import opened Classifier
  import opened Scraper
  import opened Enrichment

  /** The components of an image path. */
  function ImagePathParts(channel: string, id: int): seq<string> {
    ["data", "raw", "images", channel, IntToDecimal(id) + ".jpg"]
  }

  /** The file name of an image is a plain component whose stem is the decimal id. */
  lemma ImageFileName(id: int)
    ensures IsPlainComponent(IntToDecimal(id) + ".jpg")
    ensures SplitExt(IntToDecimal(id) + ".jpg").0 == IntToDecimal(id)
  {
    var dec := IntToDecimal(id);
    var file := dec + ".jpg";
    DecimalHasNoSeparators(id);
    assert file == dec + "." + "jpg";
    assert '/' !in file by {
      assert forall k :: 0 <= k < |file| ==> file[k] == (if k < |dec| then dec[k] else ".jpg"[k - |dec|]);
    }
    var last := |dec| - 1;
    assert dec[last] != '.' by {
      if id < 0 {
        assert dec[last] == dec[1..][last - 1];
      }
    }
    SplitExtOfStem(dec, "jpg");
  }

  /**
   * Round trip: for a channel name that is a plain path component, the
   * enrichment step reads back from the scraper's image path the channel and
   * the decimal message id.
   */
  lemma ImagePathRoundTrip(channel: string, id: int)
    requires IsPlainComponent(channel)
    ensures ParsePath(ImagePath(channel, id)) == Some(ImageKey(channel, IntToDecimal(id)))
  {
    var parts := ImagePathParts(channel, id);
    ImageFileName(id);
    assert forall i :: 0 <= i < |parts| ==> IsPlainComponent(parts[i]);
    ParsePathOfPlain(parts);
  }

  /**
   * Distinct (channel, id) pairs never share an image path, whatever the
   * channel name: the file name `<id>.jpg` has no `/`, so the last `/` of the
   * path separates the channel from it.
   */
  lemma ImagePathInjective(channel1: string, id1: int, channel2: string, id2: int)
    requires ImagePath(channel1, id1) == ImagePath(channel2, id2)
    ensures channel1 == channel2 && id1 == id2
  {
    var root := "data/raw/images/";
    var dec1, dec2 := IntToDecimal(id1), IntToDecimal(id2);
    var file1, file2 := dec1 + ".jpg", dec2 + ".jpg";
    var t1, t2 := channel1 + "/" + file1, channel2 + "/" + file2;
    assert ImagePath(channel1, id1) == root + t1;
    assert ImagePath(channel2, id2) == root + t2;
    assert t1 == (root + t1)[|root|..] == (root + t2)[|root|..] == t2;
    ImageFileName(id1);
    ImageFileName(id2);
    SplitAtLastSeparator(channel1, file1, channel2, file2, '/');
    assert dec1 == file1[..|dec1|] == file2[..|dec2|] == dec2;
    IntToDecimalInjective(id1, id2);
  }

  /** The decimal rendering of the example id. */
  lemma ExampleIdDecimal()
    ensures IntToDecimal(12345) == "12345"
  {
    assert NatToDecimal(1) == "1";
    assert NatToDecimal(12) == "12";
    assert NatToDecimal(123) == "123";
    assert NatToDecimal(1234) == "1234";
    assert NatToDecimal(12345) == "12345";
  }

  /** The photo of message 12345 of channel `ChannelX`. */
  lemma ExampleImagePath()
    ensures ImagePath("ChannelX", 12345) == "data/raw/images/ChannelX/12345.jpg"
  {
    ExampleIdDecimal();
  }

  /** That photo's path parsed back: channel `ChannelX`, message id `12345`. */
  lemma ParseExample()
    ensures ParsePath("data/raw/images/ChannelX/12345.jpg") == Some(ImageKey("ChannelX", "12345"))
  {
    ExampleImagePath();
    ExampleIdDecimal();
    ImagePathRoundTrip("ChannelX", 12345);
  }

  /**
   * Why the channel must be a plain component: a channel named `..` stores the
   * photo at `data/raw/<id>.jpg`, outside the image directory the enrichment
   * step scans, so that photo is never enriched; parsing the stored path string
   * itself would give the channel `raw`.
   */
  lemma DotDotChannelLeavesImageDir(id: int)
    ensures NormPath(ImagePath("..", id)) == Join(["data", "raw", IntToDecimal(id) + ".jpg"], "/")
    ensures ParsePath(ImagePath("..", id)) == Some(ImageKey("raw", IntToDecimal(id)))
  {
    var file := IntToDecimal(id) + ".jpg";
    ImageFileName(id);
    assert IsPlainComponent("data") && IsPlainComponent("raw") && IsPlainComponent("images");
    ParentComponentNormalised("data", "raw", "images", file);
    ParentComponentResolved("data", "raw", "images", file);
  }

  /**
   * An empty channel name or `.` vanishes under `normpath`, and the image is
   * attributed to the channel `images`.
   */
  lemma EmptyChannelMisattributed(channel: string, id: int)
    requires channel == "" || channel == "."
    ensures ParsePath(ImagePath(channel, id)) == Some(ImageKey("images", IntToDecimal(id)))
  {
    var file := IntToDecimal(id) + ".jpg";
    ImageFileName(id);
    assert IsPlainComponent("data") && IsPlainComponent("raw") && IsPlainComponent("images");
    VanishingComponentDropped("data", "raw", "images", channel, file);
  }

  /** In `a/b/c/x/f` with `x` empty or `.`, the file is attributed to `c`. */
  lemma VanishingComponentDropped(a: string, b: string, c: string, x: string, file: string)
    requires IsPlainComponent(a) && IsPlainComponent(b) && IsPlainComponent(c) && IsPlainComponent(file)
    requires x == "" || x == "."
    ensures ParsePath(Join([a, b, c, x, file], "/")) == Some(ImageKey(c, SplitExt(file).0))
  {
    var parts := [a, b, c, x, file];
    var path := Join(parts, "/");
    var kept := [a, b, c, file];
    var normal := Join(kept, "/");
    assert NormPath(path) == normal by {
      assert Split(path, '/') == parts by {
        SplitJoin(parts, '/');
      }
      VanishingComponentKept(a, b, c, x, file);
      assert a <= path && a <= normal;
      NormPathOfRelative(path);
    }
    assert Split(normal, '/') == kept by {
      SplitJoin(kept, '/');
    }
    ParsePathOfParts(path, kept);
  }

  /** The component loop over `a/b/c/x/f` with `x` empty or `.` keeps `a`, `b`, `c` and `f`. */
  lemma VanishingComponentKept(a: string, b: string, c: string, x: string, file: string)
    requires IsPlainComponent(a) && IsPlainComponent(b) && IsPlainComponent(c) && IsPlainComponent(file)
    requires x == "" || x == "."
    ensures NormComponents([], [a, b, c, x, file], false) == [a, b, c, file]
  {
    var parts := [a, b, c, x, file];
    var s1, s2, s3 := [b, c, x, file], [c, x, file], [x, file];
    assert parts[1..] == s1 && s1[1..] == s2 && s2[1..] == s3;
    assert NormComponents([], parts, false) == NormComponents([a], s1, false) by {
      assert NormStep([], a, false) == [a];
    }
    assert NormComponents([a], s1, false) == NormComponents([a, b], s2, false) by {
      assert NormStep([a], b, false) == [a] + [b] == [a, b];
    }
    assert NormComponents([a, b], s2, false) == NormComponents([a, b, c], s3, false) by {
      assert NormStep([a, b], c, false) == [a, b] + [c] == [a, b, c];
    }
    VanishingTail([a, b, c], x, file);
  }

  /** The loop drops an empty or `.` component and keeps the plain one after it. */
  lemma VanishingTail(kept: seq<string>, x: string, file: string)
    requires IsPlainComponent(file) && (x == "" || x == ".")
    ensures NormComponents(kept, [x, file], false) == kept + [file]
  {
    var s3, s4 := [x, file], [file];
    assert s3[1..] == s4 && s4[1..] == [];
    assert NormStep(kept, x, false) == kept;
    assert NormComponents(kept, s3, false) == NormComponents(kept, s4, false);
    assert NormStep(kept, file, false) == kept + [file];
    assert NormComponents(kept, s4, false) == NormComponents(kept + [file], [], false);
  }

  /** The component loop over `a/b/c/../f` keeps `a`, `b` and `f`. */
  lemma ParentComponentKept(a: string, b: string, c: string, file: string)
    requires IsPlainComponent(a) && IsPlainComponent(b) && IsPlainComponent(c) && IsPlainComponent(file)
    ensures NormComponents([], [a, b, c, "..", file], false) == [a, b, file]
  {
    var parts := [a, b, c, "..", file];
    var s1, s2, s3, s4 := [b, c, "..", file], [c, "..", file], ["..", file], [file];
    assert parts[1..] == s1 && s1[1..] == s2 && s2[1..] == s3 && s3[1..] == s4;
    assert s4[1..] == [];
    assert NormStep([], a, false) == [a];
    assert NormComponents([], parts, false) == NormComponents([a], s1, false);
    assert NormStep([a], b, false) == [a] + [b] == [a, b];
    assert NormComponents([a], s1, false) == NormComponents([a, b], s2, false);
    assert NormStep([a, b], c, false) == [a, b] + [c] == [a, b, c];
    assert NormComponents([a, b], s2, false) == NormComponents([a, b, c], s3, false);
    assert NormStep([a, b, c], "..", false) == [a, b];
    assert NormComponents([a, b, c], s3, false) == NormComponents([a, b], s4, false);
    assert NormStep([a, b], file, false) == [a, b] + [file] == [a, b, file];
    assert NormComponents([a, b], s4, false) == NormComponents([a, b, file], [], false);
  }

  /** In `a/b/c/../f` the `..` cancels `c`, so the file is attributed to `b`. */
  lemma ParentComponentResolved(a: string, b: string, c: string, file: string)
    requires IsPlainComponent(a) && IsPlainComponent(b) && IsPlainComponent(c) && IsPlainComponent(file)
    ensures ParsePath(Join([a, b, c, "..", file], "/")) == Some(ImageKey(b, SplitExt(file).0))
  {
    var kept := [a, b, file];
    var normal := Join(kept, "/");
    ParentComponentNormalised(a, b, c, file);
    assert Split(normal, '/') == kept by {
      SplitJoin(kept, '/');
    }
  }

  /** `a/b/c/../f` normalises to `a/b/f`. */
  lemma ParentComponentNormalised(a: string, b: string, c: string, file: string)
    requires IsPlainComponent(a) && IsPlainComponent(b) && IsPlainComponent(c) && IsPlainComponent(file)
    ensures NormPath(Join([a, b, c, "..", file], "/")) == Join([a, b, file], "/")
  {
    var parts := [a, b, c, "..", file];
    var path := Join(parts, "/");
    var normal := Join([a, b, file], "/");
    assert Split(path, '/') == parts by {
      SplitJoin(parts, '/');
    }
    ParentComponentKept(a, b, c, file);
    assert a <= path && a <= normal;
    NormPathOfRelative(path);
  }

  /**
   * A file directly under the root directory is not skipped: its channel is
   * the empty name before the leading slash.
   */
  lemma RootFileHasEmptyChannel(file: string)
    requires IsPlainComponent(file)
    ensures ParsePath("/" + file) == Some(ImageKey("", SplitExt(file).0))
  {
    var path := "/" + file;
    var parts := ["", file];
    assert Split(path, '/') == parts by {
      assert path == Join(parts, "/");
      SplitJoin(parts, '/');
    }
    assert InitialSlashes(path) == 1 by {
      assert file[0] != '/';
    }
    assert NormComponents([], parts, true) == [file] by {
      assert parts[1..] == [file];
      assert parts[1..][1..] == [];
      assert NormStep([], "", true) == [];
      assert NormStep([], file, true) == [file];
      assert NormComponents([], parts, true) == NormComponents([], [file], true);
      assert NormComponents([], [file], true) == NormComponents([file], [], true);
    }
    assert NormPath(path) == path;
  }

  /**
   * End to end: the photo the scraper stores for a message, once the detector
   * has run on it, becomes a detection record of the same channel and the
   * message's decimal id, whose category is the classification of the boxes.
   */
  lemma ScrapedPhotoEnriched(channel: string, m: Message, boxes: seq<Box>)
    requires IsPlainComponent(channel) && m.hasPhoto
    ensures ShapeRecord(channel, m).imagePath.Some?
    ensures var imgPath := ShapeRecord(channel, m).imagePath.value;
            ProcessImage(imgPath, Results([boxes]))
            == Some(DetectionRecord(IntToDecimal(m.id), channel, imgPath,
                                    Join(Entries(boxes), EntrySeparator), ClassifyBoxes(boxes).Name()))
  {
    ImagePathRoundTrip(channel, m.id);
  }
}
