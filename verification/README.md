# Medical Telegram warehouse: ingestion and enrichment core in Dafny

This project models the logic of the ingestion pipeline of the medical
Telegram warehouse. The pipeline scrapes public Telegram channels of Ethiopian
medical businesses, loads them into a warehouse, transforms them with dbt, and
enriches the downloaded photos with a YOLO object detector. Three pieces of that
pipeline have stateable rules, and each becomes a module of immutable datatypes
and pure functions:

- **Enrichment** (`src/yolo_detect.py`, `detect_objects`). Each discovered image
  goes through the detector. Its path `.../<channel>/<message_id>.<ext>` is split
  back into its channel and message id. The labels of its boxes are classified as
  `promotional`, `product_display`, `lifestyle` or `other`, and one detection
  record is kept per image that was processed without error. Modules:
  `Classifier` (the flag scan and the category table), `Paths` (POSIX `normpath`,
  `splitext` and the path parse), `Enrichment` (the per-image loop and the CSV
  decision).
- **Scraping** (`src/scraper.py`). Each fetched message becomes an output record,
  and photos are stored at `data/raw/images/<channel>/<id>.jpg`. A failure
  anywhere in a channel gives that channel an empty batch. `main` writes one JSON
  file per configured channel at `data/raw/telegram_messages/<date>/<channel>.json`.
  Module: `Scraper`.
- **Orchestration** (`pipeline.py`). Four operations run in line: scrape, load,
  dbt, YOLO. Each fails iff its command's return code is non-zero. The job is
  modelled as a fold over the four commands' outcomes that stops launching at
  the first failure. Module: `Pipeline`.

`Conventions` ties the scraper and the enrichment step together. When the
channel name is a plain path component (non-empty, not `.` or `..`, no `/`),
the enrichment step parses the path the scraper gives a photo back into
`(channel, str(id))`. Other channel names go wrong. A channel `..` stores the
photo at `data/raw/<id>.jpg`, outside the scanned `data/raw/images` directory, so
it is never enriched; parsing its stored path string would give `raw`. An empty
channel or `.` stores the photo directly in `data/raw/images`, where it is found
and attributed to the channel `images`. `Strings` holds Python's `join`, `split` and `str(int)`,
and `Wrappers` holds the `Option` type used for Python's `None`.

Foreign calls become parameters:

- the detector is a function from an image path to either an exception or the
  list of per-image box lists it returns;
- the Telegram client is, per channel, either a failure or the sequence of
  messages it yields, plus a predicate saying which photo downloads succeed;
- each pipeline command is its return code and captured stderr.

Behaviour of the code that the model keeps as it is:

- `src/load_to_pg.py` only creates a schema and a table without a key. It
  stores nothing, so no loader is modelled.
- A path is skipped only when its normalised form contains no `/`. A file
  directly under the root, `/12345.jpg`, is therefore processed with the empty
  channel name (`Conventions.RootFileHasEmptyChannel`).
- The box loop records one `name:conf` entry per box, in box order and with
  duplicates. Only the category depends on the set of class names alone
  (`Classifier.CategoryDependsOnlyOnLabels`).
- A run ends with every stage `Pending`, `Succeeded` or `Failed`. A stage that
  is running is not a state of the model.

## Model

| member | source | states |
|---|---|---|
| Strings.Join | src/yolo_detect.py:77 | `sep.join` of no parts is empty and of one part is that part; a join starts with its first part; `Strings.SplitJoin` shows `split` undoes it on separator-free parts |
| Strings.Split | src/yolo_detect.py:35 | `split(os.sep)` gives at least one piece; it gives exactly one iff the separator does not occur; no piece contains the separator; joining the pieces with the separator restores the string |
| Strings.SplitJoin | src/yolo_detect.py:35 | splitting the `/`-join of one or more separator-free pieces gives the pieces back |
| Strings.SplitAtSeparator | src/yolo_detect.py:35 | splitting `x/rest`, where `x` has no separator, gives `x` followed by the pieces of `rest` |
| Strings.DecimalRoundTrip | src/scraper.py:35 | reading back the decimal digits of `str(n)` gives `n` |
| Strings.IntToDecimal | src/scraper.py:35 | `str(id)` is non-empty and starts with `-` exactly for negative ids; the remaining characters are digits |
| Strings.IntRoundTrip | src/scraper.py:35 | parsing `str(i)` back as a signed decimal gives `i` |
| Strings.IntToDecimalInjective | src/scraper.py:35 | different message ids render to different decimal strings |
| Strings.DecimalHasNoSeparators | src/scraper.py:35 | `str(id)` contains neither `/` nor `.`, so it is one path component with no extension |
| Paths.InitialSlashes | src/yolo_detect.py:35 | `normpath` keeps no leading slash for a relative path and at most two for an absolute one |
| Paths.NormPath | src/yolo_detect.py:35 | `normpath` never returns the empty string (an empty path becomes `.`) |
| Paths.NormComponentsOfPlain | src/yolo_detect.py:35 | `normpath`'s component loop keeps plain components (non-empty, not `.`, not `..`) unchanged and in order |
| Paths.NormPathOfPlain | src/yolo_detect.py:35 | a relative path made of plain components is already normal: `normpath` returns it unchanged |
| Paths.NormPathOfRelative | src/yolo_detect.py:35 | a relative path normalises to the `/`-join of the components the loop keeps |
| Paths.NormPathWithoutSeparator | src/yolo_detect.py:35-36 | a path without `/` normalises to a path without `/` |
| Paths.NormComponentsKeepsNormal | src/yolo_detect.py:35 | `normpath`'s component loop only ever keeps non-empty, non-`.`, separator-free components, with no `..` under the root and `..` only at the front of a relative path |
| Paths.NormComponentsOfNormal | src/yolo_detect.py:35 | the component loop leaves an already normal component list unchanged |
| Paths.RenormaliseRooted | src/yolo_detect.py:35 | `/` followed by normal components is its own normal form |
| Paths.RenormaliseDoubleRooted | src/yolo_detect.py:35 | `//` followed by normal components is its own normal form (two leading slashes survive) |
| Paths.NormPathIdempotent | src/yolo_detect.py:35 | `normpath` is idempotent: normalising a normalised path changes nothing |
| Paths.LastIndexOf | src/yolo_detect.py:37 | `rfind` gives -1 when the character is absent, otherwise the index of its last occurrence |
| Paths.SplitExt | src/yolo_detect.py:37 | `splitext` splits the path into root and extension, which concatenate back to it; a non-empty extension starts with its only dot and holds no `/` |
| Paths.SplitExtOfStem | src/yolo_detect.py:37 | for `stem.ext` with a stem that has a non-dot character and no `/`, the root is exactly the stem |
| Paths.ParsePath | src/yolo_detect.py:35-41 | the path is skipped iff its normalised form has no `/` (fewer than two parts); otherwise channel and message id are separator-free |
| Paths.ParsePathOfPlain | src/yolo_detect.py:35-38 | any relative path of two or more plain components, at any depth, parses to its second-to-last component as the channel and its last component without extension as the message id |
| Paths.BareFileIsSkipped | src/yolo_detect.py:36-41 | a bare file name without directory is skipped (no record) |
| Classifier.Names | src/yolo_detect.py:51-53 | one class name per box, in box order |
| Classifier.Entries | src/yolo_detect.py:51-56 | one `name:conf` entry per box, in box order |
| Classifier.ScanFlags | src/yolo_detect.py:43-61 | after the box loop, `has_person` is raised iff some box is `person`, and `has_product` iff some box is one of bottle, cup, bowl, vase, suitcase, handbag, backpack |
| Classifier.Decide | src/yolo_detect.py:63-71 | the if/elif chain: promotional iff both flags, product_display iff only the product flag, lifestyle iff only the person flag, other iff neither |
| Classifier.Classify | src/yolo_detect.py:43-71 | promotional iff a `person` box and a product box occur; product_display iff a product box and no `person`; lifestyle iff `person` and no product box; other iff neither |
| Classifier.ClassifyBoxes | src/yolo_detect.py:51-71 | an image's category is the reference classification of the set of its boxes' class names |
| Classifier.Category.Name | src/yolo_detect.py:65-71 | a category is written as one of `promotional`, `product_display`, `lifestyle`, `other` |
| Classifier.NameInjective | src/yolo_detect.py:65-71 | different categories are written as different names, so the `image_category` column determines the category |
| Classifier.ClassifyMatchesLabelSet | src/yolo_detect.py:58-71 | the loop-and-if-chain category equals the reference classification of the set of labels, with the checks in tie-break order |
| Classifier.CategoryDependsOnlyOnLabels | src/yolo_detect.py:51-71 | box order, repeated boxes and confidences never change the category; only the set of names matters |
| Classifier.NoBoxesIsOther | src/yolo_detect.py:43-71 | an image with no boxes is `other` |
| Classifier.ClassifierExamples | src/yolo_detect.py:58-71 | {person, bottle} is promotional, {bottle} product_display, {person} lifestyle, {} and {car} other |
| Classifier.ScanBoxes | src/yolo_detect.py:43-61 | the box loop records every box's `name:conf` entry in order and raises each flag iff a matching box exists; its flags are those of `Classifier.ScanFlags` |
| Enrichment.ProcessImage | src/yolo_detect.py:24-79 | an image yields a record iff the detector returns at least one result and the path parses; the record holds the parsed channel and id, the original path, the `"; "`-join of the entries and the name of the category of the first result's boxes |
| Enrichment.Step | src/yolo_detect.py:24-82 | one iteration on an image yields a record iff the detector returns a result for it and its path parses, and that record carries the image's own path |
| Enrichment.Collect | src/yolo_detect.py:24-82 | the run keeps at most one record per discovered image |
| Enrichment.CollectSound | src/yolo_detect.py:24-82 | every kept record is the record of some discovered image |
| Enrichment.CollectAppend | src/yolo_detect.py:24-82 | the records of a concatenated image list are the records of each part, in order: images are processed independently |
| Enrichment.Single | src/yolo_detect.py:73-82 | one image contributes its record or, when skipped, nothing |
| Enrichment.SkipIsLocal | src/yolo_detect.py:24-82 | a failing image drops only itself; a succeeding one contributes its record between the records of the images before and after it |
| Enrichment.CollectEmptyIff | src/yolo_detect.py:24-90 | the run collects nothing, so writes no CSV, iff every discovered image is skipped |
| Enrichment.CollectCompleteIff | src/yolo_detect.py:24-82 | there is one record per discovered image iff no image is skipped |
| Enrichment.DetectedObjectsEmptyIff | src/yolo_detect.py:56-77 | `detected_objects` is the empty string iff the detector found no boxes |
| Enrichment.DetectObjects | src/yolo_detect.py:10-90 | a model that fails to load writes nothing; a CSV is written only with at least one record and then holds exactly the collected records in discovery order; no CSV with a loaded model means every image was skipped |
| Scraper.ImageDir | src/scraper.py:33 | a channel's image directory is the `/`-join of `data`, `raw`, `images` and the channel |
| Scraper.ImagePath | src/scraper.py:33-35 | a photo's path is the `/`-join of `data`, `raw`, `images`, the channel and `<str(id)>.jpg`; `Conventions.ImagePathRoundTrip` parses it back |
| Scraper.ShapeRecord | src/scraper.py:21-37 | the record copies id, date, text, views and forwards, takes the requested channel, sets `has_media` iff the message has media, and has the image path `data/raw/images/<channel>/<str(id)>.jpg` exactly when the message has a photo, `None` otherwise |
| Scraper.ShapeBatch | src/scraper.py:20-40 | the loop fails iff some photo download fails; otherwise it gives one record per message, in message order |
| Scraper.Fetched | src/scraper.py:20 | the first `min(n, 100)` messages of the `n` the channel yields: all of them up to 100, exactly 100 beyond |
| Scraper.ScrapeChannel | src/scraper.py:16-43 | at most 100 records; an unreadable channel or a failed download gives the empty list; otherwise one record per fetched message, in order |
| Scraper.Keys | src/scraper.py:49-52 | the dict's keys, in insertion order |
| Scraper.Put | src/scraper.py:52 | assigning an existing key keeps the key order; a new key is appended |
| Scraper.PutLookup | src/scraper.py:52 | after `d[key] = value`, `d[key]` is `value` and every other key keeps its value |
| Scraper.LookupIffKey | src/scraper.py:49-52 | a lookup succeeds exactly for the dict's keys |
| Scraper.ScrapeAll | src/scraper.py:48-52 | the dict's keys are pairwise different and are exactly the configured channels; with distinct channels they are the channels in list order |
| Scraper.ScrapeAllEntries | src/scraper.py:48-52 | `all_messages` has an entry for exactly the configured channels, each holding that channel's scrape |
| Scraper.JsonPath | src/scraper.py:58 | a batch's file is the `/`-join of `data`, `raw`, `telegram_messages`, the date and `<channel>.json` |
| Scraper.JsonPathInjective | src/scraper.py:55-58 | two (date, channel) pairs with slash-free dates share a JSON path only if they are equal |
| Scraper.SaveAll | src/scraper.py:57-61 | one JSON file per dict entry, in dict order, at the dated path of its channel |
| Scraper.Main | src/scraper.py:45-61 | nothing is written iff the client cannot start; otherwise one file per configured channel, in list order, at that channel's dated path |
| Scraper.MainWritesOneFilePerChannel | src/scraper.py:45-61 | a client that cannot start writes nothing; otherwise exactly three files are written, one per configured channel in list order, each with that channel's scrape |
| Conventions.ImageFileName | src/scraper.py:35 | `<id>.jpg` is a plain component whose `splitext` root is `str(id)` |
| Conventions.ImagePathRoundTrip | src/scraper.py:33-35 | the enrichment path parse of a stored photo's path gives back its channel and `str(id)`, for a channel that is a plain component |
| Conventions.ImagePathInjective | src/scraper.py:33-35 | distinct (channel, id) pairs get distinct image paths, for every channel name |
| Conventions.ExampleIdDecimal | src/scraper.py:35 | `str(12345)` is `12345` |
| Conventions.ExampleImagePath | src/scraper.py:33-35 | message 12345 of `ChannelX` is stored at `data/raw/images/ChannelX/12345.jpg` |
| Conventions.ParseExample | src/yolo_detect.py:35-38 | `data/raw/images/ChannelX/12345.jpg` parses to channel `ChannelX` and message id `12345` |
| Conventions.ParentComponentKept | src/yolo_detect.py:35 | `normpath`'s loop over `a/b/c/../f` keeps `a`, `b` and `f` |
| Conventions.ParentComponentResolved | src/yolo_detect.py:35-38 | in `a/b/c/../f` normalisation cancels `c`, so the image is attributed to `b` |
| Conventions.ParentComponentNormalised | src/yolo_detect.py:35 | `normpath` turns `a/b/c/../f` into `a/b/f` |
| Conventions.DotDotChannelLeavesImageDir | src/scraper.py:33-36 | a channel named `..` stores the photo at `data/raw/<id>.jpg`, outside the scanned image directory; parsing that stored path string would give the channel `raw` |
| Conventions.VanishingComponentKept | src/yolo_detect.py:35 | `normpath`'s loop over `a/b/c/x/f` with `x` empty or `.` keeps `a`, `b`, `c` and `f` |
| Conventions.VanishingComponentDropped | src/yolo_detect.py:35-38 | in `a/b/c/x/f` with `x` empty or `.`, the image is attributed to `c` |
| Conventions.EmptyChannelMisattributed | src/yolo_detect.py:35-38 | a photo stored under an empty channel name or `.` is attributed to the channel `images` |
| Conventions.RootFileHasEmptyChannel | src/yolo_detect.py:35-41 | a file directly under `/` is not skipped and gets the empty channel name |
| Conventions.ScrapedPhotoEnriched | src/yolo_detect.py:24-79 | a photo stored by the scraper, once detected, yields a record with the message's channel, `str(id)`, its path, its entries and its category's name |
| Pipeline.RunOp | pipeline.py:7-39 | an operation raises iff its command's return code is non-zero, with the stage's prefix followed by the stderr; otherwise it returns the stage's completion message |
| Pipeline.FailureIdentifiesStage | pipeline.py:12-38 | an exception text determines the stage that raised it and its stderr |
| Pipeline.CompletionIdentifiesStage | pipeline.py:13-39 | a completion message determines the stage that returned it |
| Pipeline.FirstFailure | pipeline.py:41-46 | the first non-zero return code, or the number of stages when every code is zero |
| Pipeline.RunPrefix | pipeline.py:41-46 | stages before the first failure succeed with their messages, the first failing stage fails with its stderr, later stages stay pending; launched stages are the wiring order up to and including the first failure |
| Pipeline.RunJob | pipeline.py:41-46 | every stage of the job ends with its expected status (succeeded before the first failing command, failed at it, pending after it) and the launched stages are the wiring order up to and including the first failure |
| Pipeline.RunSucceedsIff | pipeline.py:41-46 | the run succeeds iff all four return codes are zero |
| Pipeline.FailFast | pipeline.py:41-46 | when stage k fails, it is reported failed with its stderr and no later stage is launched or leaves `Pending` |
| Pipeline.LaunchOrder | pipeline.py:41-46 | stages launch in the order scrape, load, dbt, yolo, each at most once, and each after the first only once its predecessor succeeded |
| Pipeline.LoadFailureScenario | pipeline.py:41-46 | when loading fails, scraping has succeeded, loading has failed with its stderr, dbt and YOLO stay pending, and only scrape and load were launched |
| Pipeline.ExecuteJob | pipeline.py:41-46 | running the stages one after another, each fed by its predecessor's output, gives the fold's run and the status of every stage |

## Left out

- Model loading, inference and `glob` discovery: the detector is a function parameter, and the discovered image list is an input sequence.
- Confidence formatting (`{conf:.2f}`): floating point. The confidence reaches the model as opaque text.
- The unused `product_classes` list in `src/yolo_detect.py`: it plays no part in the result.
- Logging, pandas CSV writing and `json.dump`: file I/O. The model returns the rows or files that would be written.
- The Telegram client, its async iteration, media download and `.env` reading: network, concurrency and environment. They become inputs: a per-channel message sequence or failure, and a predicate for which downloads succeed. Photos downloaded before a failure are left on disk by the code; the model does not track files on disk.
- `message.date.isoformat()` and `datetime.now().strftime('%Y-%m-%d')`: clock and formatting. Both dates are opaque strings.
- `src/load_to_pg.py`: it only creates a schema and a table, with no key and no load code. There is no deduplication or batch atomicity to model.
- `api/main.py` and `api/schemas.py`: pass-through SQL-to-JSON endpoints.
- The Dagster runtime, scheduling and `subprocess` execution: each command is an abstract return code plus stderr. Dagster's transient `Running` state is not represented.
- `has_media` and the photo test read two separate client attributes (`message.media`, `message.photo`). The model keeps them as independent flags and does not assume that a photo implies media.
- `os.sep` is taken to be `/` (POSIX). Windows path handling is not modelled.
