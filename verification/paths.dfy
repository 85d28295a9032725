/**
 * POSIX path handling as CPython's `posixpath` does it (`os.sep` is `/`):
 * `normpath`, `splitext`, and the recovery of `(channel_name, message_id)` from
 * an image path that `detect_objects` performs before classifying an image.
 */
module Paths {
  import opened Wrappers
  import opened Strings

  /** A component that `normpath` keeps as it is and that holds no separator. */
  predicate IsPlainComponent(comp: string) {
    comp != "" && comp != "." && comp != ".." && '/' !in comp
  }

  /**
   * One iteration of `normpath`'s component loop: empty and `.` components are
   * dropped; `..` pops the previous component unless there is nothing to pop
   * (kept in a relative path, dropped under the root) or the previous one is
   * itself `..`.
   */
  function NormStep(kept: seq<string>, comp: string, rooted: bool): seq<string> {
    if comp == "" || comp == "." then kept
    else if comp != ".." || (!rooted && |kept| == 0) || (|kept| > 0 && kept[|kept| - 1] == "..") then kept + [comp]
    else if |kept| > 0 then kept[..|kept| - 1]
    else kept
  }

  /** The component loop of `normpath`, run over `comps` starting from `kept`. */
  function NormComponents(kept: seq<string>, comps: seq<string>, rooted: bool): seq<string>
    decreases |comps|
  {
    if |comps| == 0 then kept
    else NormComponents(NormStep(kept, comps[0], rooted), comps[1..], rooted)
  }

  /**
   * How many leading slashes `normpath` keeps: POSIX gives exactly two leading
   * slashes a meaning of their own, and three or more collapse to one.
   */
  function InitialSlashes(path: string): (n: nat)
    ensures n <= 2
    ensures n == 0 <==> (|path| == 0 || path[0] != '/')
  {
    if |path| == 0 || path[0] != '/' then 0
    else if |path| >= 2 && path[1] == '/' && !(|path| >= 3 && path[2] == '/') then 2
    else 1
  }

  /** Python's `os.path.normpath` on POSIX. */
  function NormPath(path: string): (r: string)
    ensures r != ""
  {
    if path == "" then "."
    else
      var slashes := InitialSlashes(path);
      var body := Join(NormComponents([], Split(path, '/'), slashes > 0), "/");
      var r := (if slashes == 2 then "//" else if slashes == 1 then "/" else "") + body;
      if r == "" then "." else r
  }

  /** The component loop leaves plain components untouched. */
  lemma {:induction false} NormComponentsOfPlain(kept: seq<string>, comps: seq<string>, rooted: bool)
    requires forall i :: 0 <= i < |comps| ==> IsPlainComponent(comps[i])
    ensures NormComponents(kept, comps, rooted) == kept + comps
    decreases |comps|
  {
    if |comps| > 0 {
      assert NormStep(kept, comps[0], rooted) == kept + [comps[0]];
      NormComponentsOfPlain(kept + [comps[0]], comps[1..], rooted);
      assert kept + [comps[0]] + comps[1..] == kept + comps;
    }
  }

  /** A relative path made of plain components is already normal. */
  lemma NormPathOfPlain(parts: seq<string>)
    requires |parts| >= 1
    requires forall i :: 0 <= i < |parts| ==> IsPlainComponent(parts[i])
    ensures NormPath(Join(parts, "/")) == Join(parts, "/")
  {
    var path := Join(parts, "/");
    assert path != "" && path[0] != '/' by {
      assert parts[0] <= path;
      assert path[0] == parts[0][0];
    }
    assert NormComponents([], Split(path, '/'), false) == parts by {
      SplitJoin(parts, '/');
      NormComponentsOfPlain([], parts, false);
      assert [] + parts == parts;
    }
    NormPathOfRelative(path);
  }

  /** A relative path normalises to the `/`-join of the components the loop keeps. */
  lemma NormPathOfRelative(path: string)
    requires path != "" && path[0] != '/'
    requires Join(NormComponents([], Split(path, '/'), false), "/") != ""
    ensures NormPath(path) == Join(NormComponents([], Split(path, '/'), false), "/")
  {
    assert InitialSlashes(path) == 0;
  }

  /** A path without any separator normalises to a path without any separator. */
  lemma NormPathWithoutSeparator(path: string)
    requires '/' !in path
    ensures '/' !in NormPath(path)
  {
    if path != "" {
      assert InitialSlashes(path) == 0;
      var comps := Split(path, '/');
      assert comps == [path];
      var kept := NormComponents([], comps, false);
      var step := NormStep([], path, false);
      assert comps[1..] == [];
      assert kept == NormComponents(step, [], false) == step;
      assert forall i :: 0 <= i < |kept| ==> kept[i] == path;
    }
  }

  /**
   * The shape of what the component loop keeps: components that are non-empty,
   * not `.` and separator-free; no `..` at all under the root, and in a
   * relative path `..` components only at the front.
   */
  predicate NormalComponents(kept: seq<string>, rooted: bool) {
    && (forall i :: 0 <= i < |kept| ==> kept[i] != "" && kept[i] != "." && '/' !in kept[i])
    && (rooted ==> forall i :: 0 <= i < |kept| ==> kept[i] != "..")
    && (forall i, j :: 0 <= i < j < |kept| && kept[j] == ".." ==> kept[i] == "..")
  }

  /** One loop iteration keeps the kept components normal. */
  lemma NormStepKeepsNormal(kept: seq<string>, comp: string, rooted: bool)
    requires NormalComponents(kept, rooted) && '/' !in comp
    ensures NormalComponents(NormStep(kept, comp, rooted), rooted)
  {
    var next := NormStep(kept, comp, rooted);
    if comp != "" && comp != "." && comp == ".." && |kept| > 0 && kept[|kept| - 1] == ".." {
      assert next == kept + [comp];
      assert forall i :: 0 <= i < |kept| ==> kept[i] == "..";
    } else if comp != "" && comp != "." && comp == ".." && |kept| > 0 && !rooted {
      assert next == kept[..|kept| - 1];
    }
  }

  /** The whole component loop keeps the kept components normal. */
  lemma {:induction false} NormComponentsKeepsNormal(kept: seq<string>, comps: seq<string>, rooted: bool)
    requires NormalComponents(kept, rooted)
    requires forall i :: 0 <= i < |comps| ==> '/' !in comps[i]
    ensures NormalComponents(NormComponents(kept, comps, rooted), rooted)
    decreases |comps|
  {
    if |comps| > 0 {
      NormStepKeepsNormal(kept, comps[0], rooted);
      NormComponentsKeepsNormal(NormStep(kept, comps[0], rooted), comps[1..], rooted);
    }
  }

  /** The component loop leaves normal components untouched. */
  lemma {:induction false} NormComponentsOfNormal(kept: seq<string>, rest: seq<string>, rooted: bool)
    requires NormalComponents(kept + rest, rooted)
    ensures NormComponents(kept, rest, rooted) == kept + rest
    decreases |rest|
  {
    if |rest| > 0 {
      var comp := rest[0];
      var all := kept + rest;
      assert all[|kept|] == comp;
      if comp == ".." && |kept| > 0 {
        assert all[|kept| - 1] == kept[|kept| - 1];
      }
      assert NormStep(kept, comp, rooted) == kept + [comp];
      assert all == (kept + [comp]) + rest[1..];
      NormComponentsOfNormal(kept + [comp], rest[1..], rooted);
    }
  }

  /** Leading empty components (from leading slashes) are skipped by the loop. */
  lemma SkipEmptyComponent(rest: seq<string>, rooted: bool)
    ensures NormComponents([], [""] + rest, rooted) == NormComponents([], rest, rooted)
  {
    assert ([""] + rest)[1..] == rest;
  }

  /** Splitting the joined normal components gives them back, up to empty pieces. */
  lemma SplitNormalBody(kept: seq<string>, rooted: bool)
    requires NormalComponents(kept, rooted)
    ensures NormComponents([], Split(Join(kept, "/"), '/'), rooted) == kept
  {
    if kept == [] {
      assert Split("", '/') == [""];
      assert [""][1..] == [];
      assert NormComponents([], [""], rooted) == NormComponents(NormStep([], "", rooted), [], rooted);
    } else {
      assert forall i :: 0 <= i < |kept| ==> '/' !in kept[i];
      SplitJoin(kept, '/');
      NormComponentsOfNormal([], kept, rooted);
    }
  }

  /** The first character of joined non-empty normal components is not a slash. */
  lemma NormalBodyStart(kept: seq<string>, rooted: bool)
    requires NormalComponents(kept, rooted) && kept != []
    ensures Join(kept, "/") != "" && Join(kept, "/")[0] != '/'
  {
    var body := Join(kept, "/");
    assert kept[0] <= body;
    assert body[0] == kept[0][0];
  }

  /** A relative normal path renormalises to itself. */
  lemma RenormaliseRelative(kept: seq<string>)
    requires NormalComponents(kept, false) && kept != []
    ensures NormPath(Join(kept, "/")) == Join(kept, "/")
  {
    var body := Join(kept, "/");
    NormalBodyStart(kept, false);
    assert InitialSlashes(body) == 0;
    SplitNormalBody(kept, false);
  }

  /** A path with one leading slash and normal components renormalises to itself. */
  lemma RenormaliseRooted(kept: seq<string>)
    requires NormalComponents(kept, true)
    ensures NormPath("/" + Join(kept, "/")) == "/" + Join(kept, "/")
  {
    var body := Join(kept, "/");
    var r := "/" + body;
    if kept != [] { NormalBodyStart(kept, true); }
    assert InitialSlashes(r) == 1;
    assert Split(r, '/') == [""] + Split(body, '/') by {
      SplitAtSeparator("", body, '/');
      assert "" + ['/'] + body == r;
    }
    SkipEmptyComponent(Split(body, '/'), true);
    SplitNormalBody(kept, true);
  }

  /** A path with two leading slashes and normal components renormalises to itself. */
  lemma RenormaliseDoubleRooted(kept: seq<string>)
    requires NormalComponents(kept, true)
    ensures NormPath("//" + Join(kept, "/")) == "//" + Join(kept, "/")
  {
    var body := Join(kept, "/");
    var r := "//" + body;
    if kept != [] { NormalBodyStart(kept, true); }
    assert InitialSlashes(r) == 2;
    var split := Split(body, '/');
    assert Split(r, '/') == [""] + ([""] + split) by {
      SplitAtSeparator("", body, '/');
      assert "" + ['/'] + body == "/" + body;
      SplitAtSeparator("", "/" + body, '/');
      assert "" + ['/'] + ("/" + body) == r;
    }
    SkipEmptyComponent([""] + split, true);
    SkipEmptyComponent(split, true);
    SplitNormalBody(kept, true);
  }

  /** `normpath` is idempotent: a normalised path is its own normal form. */
  lemma NormPathIdempotent(path: string)
    ensures NormPath(NormPath(path)) == NormPath(path)
  {
    if path == "" {
      NormPathOfDot();
    } else {
      var slashes := InitialSlashes(path);
      var rooted := slashes > 0;
      var kept := NormComponents([], Split(path, '/'), rooted);
      NormComponentsKeepsNormal([], Split(path, '/'), rooted);
      var body := Join(kept, "/");
      if slashes == 2 {
        assert NormPath(path) == "//" + body;
        RenormaliseDoubleRooted(kept);
      } else if slashes == 1 {
        assert NormPath(path) == "/" + body;
        RenormaliseRooted(kept);
      } else if kept == [] {
        assert NormPath(path) == ".";
        NormPathOfDot();
      } else {
        NormalBodyStart(kept, false);
        assert NormPath(path) == body;
        RenormaliseRelative(kept);
      }
    }
  }

  /** `.` is normal. */
  lemma NormPathOfDot()
    ensures NormPath(".") == "."
  {
    assert Split(".", '/') == ["."];
    assert ["."][1..] == [];
    assert NormComponents([], ["."], false) == NormComponents([], [], false);
  }

  /** Python's `s.rfind(c)`: the last index of `c` in `s`, or -1. */
  function LastIndexOf(s: string, c: char): (k: int)
    ensures -1 <= k < |s|
    ensures k >= 0 ==> s[k] == c
    ensures forall j :: k < j < |s| ==> s[j] != c
  {
    if |s| == 0 then -1
    else if s[|s| - 1] == c then |s| - 1
    else LastIndexOf(s[..|s| - 1], c)
  }

  /**
   * Python's `os.path.splitext(p)` on POSIX: `(root, ext)` where `ext` starts at
   * the last dot of the last component, unless every character of that
   * component before the dot is itself a dot (so `.jpg` has no extension).
   */
  function SplitExt(p: string): (r: (string, string))
    ensures r.0 + r.1 == p
    ensures r.1 != "" ==> r.1[0] == '.' && '.' !in r.1[1..] && '/' !in r.1
  {
    var sepIndex := LastIndexOf(p, '/');
    var dotIndex := LastIndexOf(p, '.');
    if dotIndex > sepIndex && exists k :: sepIndex < k < dotIndex && p[k] != '.' then
      assert p[dotIndex..][1..] == p[dotIndex + 1..];
      (p[..dotIndex], p[dotIndex..])
    else (p, "")
  }

  /** A component `stem.ext` whose stem has a non-dot character loses exactly `.ext`. */
  lemma SplitExtOfStem(stem: string, ext: string)
    requires '/' !in stem && '/' !in ext && '.' !in ext
    requires exists k :: 0 <= k < |stem| && stem[k] != '.'
    ensures SplitExt(stem + "." + ext) == (stem, "." + ext)
  {
    var p := stem + "." + ext;
    assert p[|stem|] == '.';
    assert forall j :: |stem| < j < |p| ==> p[j] == ext[j - |stem| - 1];
    var dotIndex := LastIndexOf(p, '.');
    assert dotIndex == |stem|;
    assert forall j :: 0 <= j < |p| ==> p[j] != '/' by {
      forall j | 0 <= j < |p|
        ensures p[j] != '/'
      {
        if j < |stem| { assert p[j] == stem[j]; }
      }
    }
    assert LastIndexOf(p, '/') == -1;
    var k :| 0 <= k < |stem| && stem[k] != '.';
    assert p[k] == stem[k];
    assert p[..dotIndex] == stem;
    assert p[dotIndex..] == "." + ext;
  }

  /** The key an image path encodes: its parent directory and its file stem. */
  datatype ImageKey = ImageKey(channelName: string, messageId: string)

  /**
   * `parts = normpath(img_path).split(os.sep)`; with at least two parts the
   * channel is the second-to-last one and the message id the last one without
   * its extension, otherwise the path is not parsed.
   */
  function ParsePath(imgPath: string): (r: Option<ImageKey>)
    ensures r.None? <==> '/' !in NormPath(imgPath)
    ensures r.Some? ==> '/' !in r.value.channelName && '/' !in r.value.messageId
  {
    var parts := Split(NormPath(imgPath), '/');
    if |parts| >= 2 then
      var last := parts[|parts| - 1];
      var root := SplitExt(last).0;
      assert root <= last;
      assert forall j :: 0 <= j < |root| ==> root[j] == last[j];
      Some(ImageKey(parts[|parts| - 2], root))
    else None
  }

  /**
   * A relative path of two or more plain components, at any depth, parses to
   * its second-to-last component as the channel and the extension-less last
   * component as the message id.
   */
  lemma ParsePathOfPlain(comps: seq<string>)
    requires |comps| >= 2
    requires forall i :: 0 <= i < |comps| ==> IsPlainComponent(comps[i])
    ensures ParsePath(Join(comps, "/")) == Some(ImageKey(comps[|comps| - 2], SplitExt(comps[|comps| - 1]).0))
  {
    var path := Join(comps, "/");
    assert Split(NormPath(path), '/') == comps by {
      NormPathOfPlain(comps);
      SplitJoin(comps, '/');
    }
    ParsePathOfParts(path, comps);
  }

  /** The parse of a path whose normal form splits into `parts`, two or more of them. */
  lemma ParsePathOfParts(imgPath: string, parts: seq<string>)
    requires |parts| >= 2 && Split(NormPath(imgPath), '/') == parts
    ensures ParsePath(imgPath) == Some(ImageKey(parts[|parts| - 2], SplitExt(parts[|parts| - 1]).0))
  {
    var last := parts[|parts| - 1];
    var channel := parts[|parts| - 2];
    var root := SplitExt(last).0;
    assert ParsePath(imgPath) == Some(ImageKey(channel, root));
  }

  /** A bare file name (no directory component) is not parsed. */
  lemma BareFileIsSkipped(imgPath: string)
    requires '/' !in imgPath
    ensures ParsePath(imgPath) == None
  {
    NormPathWithoutSeparator(imgPath);
  }
}
