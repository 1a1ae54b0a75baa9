/** `ImageAnalyzer` of `analyzer.py` around the component parser: checking an
    image path before any request, the result record of one analysis, batches
    that keep going past failures, and video analysis by sampled frames with
    the cleanup of its scratch directory.

    The model service and the file system are values passed in; every
    operation returns the requests it made (`Gateway.Call`), and the video
    analysis also returns the file system it leaves behind. The frames a
    video holds are given by their number. */
module Analyzer {
  import opened Text
  import opened Errors
  import opened Files
  import opened Gateway
  import opened Components

  /** The default analysis instruction, `ImageAnalyzer.VISION_PROMPT`. */
  const VisionPrompt: string :=
    "Analyze this UI mockup or wireframe image in detail. Extract the following information:\n\n" +
    "1. **UI Components**: List all visible UI elements (buttons, forms, navigation bars, cards, etc.)\n" +
    "2. **Layout Structure**: Describe the overall layout and hierarchy (header, main content, footer, sidebars, etc.)\n" +
    "3. **Text Content**: Extract all visible text, labels, and headings\n" +
    "4. **User Interactions**: Identify interactive elements and potential user actions\n" +
    "5. **Visual Style**: Note any styling patterns (colors, spacing, typography hints)\n" +
    "6. **Data Elements**: Identify areas that would need dynamic data (lists, tables, user profiles, etc.)\n\n" +
    "Provide the analysis in a structured format with clear sections.\n" +
    "Be specific and detailed. If this is a hand-drawn sketch, interpret it as best as possible."

  /** The default vision model of `analyze_image`, `analyze_batch` and `analyze_video`. */
  const DefaultModel: string := "llava:latest"

  /** The accepted extensions, compared after lowercasing. */
  const ImageSuffixes: seq<string> := [".png", ".jpg", ".jpeg", ".webp"]

  /** The record `analyze_image` returns. */
  datatype AnalysisResult = AnalysisResult(
    imagePath: string,
    imageName: string,
    modelUsed: string,
    rawAnalysis: string,
    parsedComponents: seq<Category>)

  /** The checks made before anything is sent: the path must exist, then its
      lowercased suffix must be one of the image extensions. */
  function Rejection(fs: FileSystem, imagePath: string): Option<Error> {
    if !Exists(fs, imagePath) then Some(ImageNotFound(imagePath))
    else if Lower(Suffix(imagePath)) !in ImageSuffixes then Some(UnsupportedFormat(Suffix(imagePath)))
    else None
  }

  /** The instruction sent with the image: the custom one unless it is empty. */
  function AnalysisPrompt(customPrompt: string): string {
    if customPrompt == "" then VisionPrompt else customPrompt
  }

  /** An analysis outcome with the requests it made. */
  datatype ImageRun = ImageRun(result: Result<AnalysisResult>, calls: seq<Call>)

  /** What `analyze_image` does, as a value. */
  function ImageOutcome(svc: Service, fs: FileSystem, imagePath: string, model: string, prompt: string): ImageRun {
    match Rejection(fs, imagePath)
    case Some(e) => ImageRun(Err(e), [])
    case None =>
      var ex := ImageExchange(svc, fs, imagePath, model, prompt);
      match ex.result
      case Err(e) => ImageRun(Err(e), ex.calls)
      case Ok(text) =>
        ImageRun(Ok(AnalysisResult(imagePath, Name(imagePath), model, text, Parse(text))), ex.calls)
  }

  /** `analyze_image`: the two checks, then one request through the gateway,
      then the parsed record. */
  method AnalyzeImage(svc: Service, fs: FileSystem, imagePath: string, model: string, customPrompt: string)
    returns (result: Result<AnalysisResult>, calls: seq<Call>)
    ensures ImageRun(result, calls) == ImageOutcome(svc, fs, imagePath, model, AnalysisPrompt(customPrompt))
  {
    if !Exists(fs, imagePath) {
      return Err(ImageNotFound(imagePath)), [];
    }
    var suffix := Suffix(imagePath);
    if Lower(suffix) !in ImageSuffixes {
      return Err(UnsupportedFormat(suffix)), [];
    }
    var prompt := if customPrompt != "" then customPrompt else VisionPrompt;
    var text;
    text, calls := Gateway.AnalyzeImage(svc, fs, imagePath, model, prompt);
    if text.Err? {
      return Err(text.error), calls;
    }
    var components := ParseComponents(text.value);
    result := Ok(AnalysisResult(imagePath, Name(imagePath), model, text.value, components));
  }

  /** A path that passes the checks is always sent on: the analysis makes no
      request exactly when the path is missing or not an image. */
  lemma RejectedBeforeAnyCall(svc: Service, fs: FileSystem, imagePath: string, model: string, prompt: string)
    ensures Rejection(fs, imagePath).Some? <==> ImageOutcome(svc, fs, imagePath, model, prompt).calls == []
    ensures Rejection(fs, imagePath).Some? ==>
      ImageOutcome(svc, fs, imagePath, model, prompt).result == Err(Rejection(fs, imagePath).value)
  {
    if Rejection(fs, imagePath).None? {
      var ex := ImageExchange(svc, fs, imagePath, model, prompt);
      assert ImageOutcome(svc, fs, imagePath, model, prompt).calls == ex.calls;
    }
  }

  /** The image sent is the file at the path, with the instruction given;
      the record holds the reply verbatim. */
  lemma PromptSent(svc: Service, fs: FileSystem, imagePath: string, model: string, prompt: string)
    requires Rejection(fs, imagePath).None? && Available(svc, model) && imagePath in fs.files
    ensures var run := ImageOutcome(svc, fs, imagePath, model, prompt);
      var reply := svc.generate(model, prompt, fs.files[imagePath]);
      run.calls[|run.calls| - 1] == GenerateCall(model, prompt, fs.files[imagePath]) &&
      (run.result.Ok? <==> reply.Generated?) &&
      (run.result.Ok? ==> run.result.value.rawAnalysis == reply.response.GetOr(""))
  {
    var ex := ImageExchange(svc, fs, imagePath, model, prompt);
    ImageSent(svc, fs, imagePath, model, prompt);
    var run := ImageOutcome(svc, fs, imagePath, model, prompt);
    assert run.calls == ex.calls;
    assert run.result.Ok? <==> ex.result.Ok?;
    assert run.result.Ok? ==> run.result.value.rawAnalysis == ex.result.value;
  }

  /** A text whose lowercase form is made of letters holds no dot and no separator. */
  lemma LettersOnly(ext: string)
    requires forall i :: 0 <= i < |Lower(ext)| ==> 'a' <= Lower(ext)[i] <= 'z'
    ensures '.' !in ext && '/' !in ext
  {
    forall i | 0 <= i < |ext|
      ensures ext[i] != '.' && ext[i] != '/'
    {
      assert Lower(ext)[i] == LowerChar(ext[i]);
    }
  }

  /** A dotted image extension lowercases into the whitelist. */
  lemma DottedImageSuffix(ext: string)
    requires Lower(ext) in ["png", "jpg", "jpeg", "webp"]
    ensures Lower("." + ext) in ImageSuffixes
  {
    LowerDotted(ext);
    var low := Lower(ext);
    assert "." + low in ImageSuffixes by {
      if low == "png" { assert "." + low == ".png"; }
      else if low == "jpg" { assert "." + low == ".jpg"; }
      else if low == "jpeg" { assert "." + low == ".jpeg"; }
      else { assert "." + low == ".webp"; }
    }
  }

  lemma LowerDotted(ext: string)
    ensures Lower("." + ext) == "." + Lower(ext)
  {
    assert forall i :: 0 <= i < |ext| ==> ("." + ext)[i + 1] == ext[i];
  }

  lemma AcceptedSuffix(fs: FileSystem, q: string, x: string)
    requires Exists(fs, q) && Suffix(q) == x && Lower(x) in ImageSuffixes
    ensures Rejection(fs, q).None?
  {
  }

  /** The extension check ignores case: a named path given one of the image
      extensions, in any mix of upper and lower case, passes it. */
  lemma ImageExtensionAccepted(fs: FileSystem, p: string, ext: string)
    requires Name(p) != "" && Exists(fs, p + "." + ext)
    requires Lower(ext) in ["png", "jpg", "jpeg", "webp"]
    ensures Rejection(fs, p + "." + ext).None?
  {
    assert forall i :: 0 <= i < |Lower(ext)| ==> 'a' <= Lower(ext)[i] <= 'z' by {
      var low := Lower(ext);
      assert low == "png" || low == "jpg" || low == "jpeg" || low == "webp";
    }
    LettersOnly(ext);
    AppendedSuffix(p, ext);
    DottedImageSuffix(ext);
    AcceptedSuffix(fs, p + "." + ext, "." + ext);
  }

  /** The record and the lemmas above are about one image; an analysis
      record names the path it was asked about and holds the parse of the
      reply it holds. */
  lemma AnalysisRecord(svc: Service, fs: FileSystem, imagePath: string, model: string, prompt: string)
    ensures var run := ImageOutcome(svc, fs, imagePath, model, prompt);
      run.result.Ok? ==>
        run.result.value.imagePath == imagePath && run.result.value.imageName == Name(imagePath) &&
        run.result.value.modelUsed == model && run.result.value.parsedComponents == Parse(run.result.value.rawAnalysis) &&
        Keys(run.result.value.parsedComponents) == CategoryKeys
  {
  }

  /** One entry of `analyze_batch`: the record, or the path and the error's text. */
  datatype BatchEntry = Analyzed(result: AnalysisResult) | Failed(imagePath: string, error: string)

  function EntryOf(run: ImageRun, imagePath: string): BatchEntry {
    match run.result
    case Ok(r) => Analyzed(r)
    case Err(e) => Failed(imagePath, Message(e))
  }

  /** The path an entry is about. */
  function EntryPath(entry: BatchEntry): string {
    match entry
    case Analyzed(r) => r.imagePath
    case Failed(p, _) => p
  }

  /** How `analyze_batch` analyses each of its paths: `analyze_image` with
      the default instruction. */
  function BatchAnalysis(svc: Service, fs: FileSystem, model: string, prompt: string): string -> ImageRun {
    p => ImageOutcome(svc, fs, p, model, prompt)
  }

  /** The entries of a batch: each path analysed on its own by `analyze`. */
  function BatchEntries(analyze: string -> ImageRun, paths: seq<string>): (entries: seq<BatchEntry>)
    ensures |entries| == |paths|
  {
    seq(|paths|, i requires 0 <= i < |paths| => EntryOf(analyze(paths[i]), paths[i]))
  }

  /** The requests of a batch: those of each analysis, in input order. */
  function BatchCalls(analyze: string -> ImageRun, paths: seq<string>): seq<Call> {
    if paths == [] then []
    else BatchCalls(analyze, paths[..|paths| - 1]) + analyze(paths[|paths| - 1]).calls
  }

  /** Analysing one more path adds its entry and its requests at the end. */
  lemma BatchGrows(analyze: string -> ImageRun, paths: seq<string>, i: nat)
    requires i < |paths|
    ensures BatchEntries(analyze, paths[..i + 1]) ==
      BatchEntries(analyze, paths[..i]) + [EntryOf(analyze(paths[i]), paths[i])]
    ensures BatchCalls(analyze, paths[..i + 1]) == BatchCalls(analyze, paths[..i]) + analyze(paths[i]).calls
  {
    assert paths[..i + 1][..i] == paths[..i];
  }

  /** `analyze_batch`: one entry per path in input order; a failure becomes an
      entry and the loop goes on. */
  method AnalyzeBatch(svc: Service, fs: FileSystem, paths: seq<string>, model: string)
    returns (entries: seq<BatchEntry>, calls: seq<Call>)
    ensures entries == BatchEntries(BatchAnalysis(svc, fs, model, VisionPrompt), paths)
    ensures calls == BatchCalls(BatchAnalysis(svc, fs, model, VisionPrompt), paths)
  {
    ghost var analyze := BatchAnalysis(svc, fs, model, VisionPrompt);
    entries := [];
    calls := [];
    for i := 0 to |paths|
      invariant entries == BatchEntries(analyze, paths[..i])
      invariant calls == BatchCalls(analyze, paths[..i])
    {
      var result, made := AnalyzeImage(svc, fs, paths[i], model, "");
      assert ImageRun(result, made) == analyze(paths[i]);
      BatchGrows(analyze, paths, i);
      var entry := match result
        case Ok(r) => Analyzed(r)
        case Err(e) => Failed(paths[i], Message(e));
      entries := entries + [entry];
      calls := calls + made;
    }
    assert paths[..|paths|] == paths;
  }

  /** Entry `i` is about input `i`, and it is a failure exactly when that
      input's analysis fails, carrying the error's text. */
  lemma BatchEntryPerInput(svc: Service, fs: FileSystem, paths: seq<string>, model: string, prompt: string, i: nat)
    requires i < |paths|
    ensures var entry := BatchEntries(BatchAnalysis(svc, fs, model, prompt), paths)[i];
      var run := ImageOutcome(svc, fs, paths[i], model, prompt);
      EntryPath(entry) == paths[i] &&
      (entry.Failed? <==> run.result.Err?) &&
      (entry.Failed? ==> entry.error == Message(run.result.error)) &&
      (entry.Analyzed? ==> entry.result == run.result.value)
  {
    AnalysisRecord(svc, fs, paths[i], model, prompt);
  }

  /** A batch is the batches of its parts side by side: what happens to one
      input does not affect the entries of the others. */
  lemma BatchEntriesSplit(analyze: string -> ImageRun, a: seq<string>, b: seq<string>)
    ensures BatchEntries(analyze, a + b) == BatchEntries(analyze, a) + BatchEntries(analyze, b)
  {
    var whole := BatchEntries(analyze, a + b);
    var parts := BatchEntries(analyze, a) + BatchEntries(analyze, b);
    forall i | 0 <= i < |whole|
      ensures whole[i] == parts[i]
    {
      if i < |a| {
        assert (a + b)[i] == a[i];
      } else {
        assert (a + b)[i] == b[i - |a|];
      }
    }
  }

  /** ... and the requests of a batch are those of its parts, in order. */
  lemma {:induction false} BatchCallsSplit(analyze: string -> ImageRun, a: seq<string>, b: seq<string>)
    ensures BatchCalls(analyze, a + b) == BatchCalls(analyze, a) + BatchCalls(analyze, b)
    decreases |b|
  {
    if b == [] {
      assert a + b == a;
    } else {
      var b' := b[..|b| - 1];
      assert (a + b)[..|a + b| - 1] == a + b';
      BatchCallsSplit(analyze, a, b');
    }
  }

  // ----- Video analysis -----

  /** The record `analyze_video` returns. */
  datatype VideoAnalysis = VideoAnalysis(
    videoPath: string,
    videoName: string,
    totalFrames: nat,
    analyzedFrames: nat,
    frameInterval: int,
    modelUsed: string,
    frameAnalyses: seq<BatchEntry>)

  /** The numbers of the frames kept among the first `n`: those for which
      `k % interval` is zero. (Dafny's remainder is never negative, but for a
      non-zero divisor it is zero exactly when Python's is.) */
  function Kept(n: nat, interval: int): (kept: seq<nat>)
    requires interval != 0
    ensures |kept| <= n
  {
    if n == 0 then []
    else Kept(n - 1, interval) + (if (n - 1) % interval == 0 then [n - 1] else [])
  }

  /** The selection rule: frame `k` is kept exactly when it was read and its
      number is a multiple of the interval. */
  lemma {:induction false} KeptFrames(n: nat, interval: int, k: nat)
    requires interval != 0
    ensures k in Kept(n, interval) <==> k < n && k % interval == 0
  {
    if n > 0 {
      KeptFrames(n - 1, interval, k);
    }
  }

  lemma {:induction false} MulMonotone(x: int, y: int, a: nat)
    ensures x <= y ==> x * a <= y * a
  {
    if a > 0 {
      MulMonotone(x, y, a - 1);
      assert x * a == x * (a - 1) + x && y * a == y * (a - 1) + y;
    }
  }

  /** The only multiple of `a` in `((m - 1) * a, m * a]` is `m * a`. */
  lemma MultipleBelow(q: int, m: int, a: nat)
    requires a > 0 && (m - 1) * a < q * a <= m * a
    ensures q == m
  {
    MulMonotone(q, m - 1, a);
    MulMonotone(m + 1, q, a);
    assert (m + 1) * a == m * a + a;
  }

  /** A multiple of a non-zero divisor leaves no remainder. */
  lemma ModOfMultiple(c: int, b: int)
    requires b != 0
    ensures (c * b) % b == 0
  {
    var a: nat := if b < 0 then -b else b;
    var x := c * b;
    var q := x / b;
    var r := x % b;
    assert x == q * b + r && 0 <= r < a;
    var d := if b < 0 then q - c else c - q;
    assert d * a == r;
    MulMonotone(1, d, a);
    MulMonotone(d, -1, a);
  }

  /** A frame number is a multiple of the interval exactly when it is a
      multiple of `|interval|`; the frame is then that multiple. */
  lemma KeptStep(k: nat, interval: int, m: int)
    requires interval != 0
    ensures var a := if interval < 0 then -interval else interval;
      (m - 1) * a < k <= m * a ==> (k % interval == 0 <==> k == m * a)
  {
    var a: nat := if interval < 0 then -interval else interval;
    var ma := if interval < 0 then -m else m;
    ModOfMultiple(ma, interval);
    assert ma * interval == m * a;
    if (m - 1) * a < k <= m * a && k % interval == 0 {
      var q := k / interval;
      assert k == q * interval;
      var qa := if interval < 0 then -q else q;
      assert k == qa * a;
      MultipleBelow(qa, m, a);
    }
  }

  /** `|kept|` is the ceiling of `n / |interval|`: the smallest count whose
      multiples of `|interval|` reach `n`. */
  lemma {:induction false} KeptCount(n: nat, interval: int)
    requires interval != 0
    ensures var a := if interval < 0 then -interval else interval;
      var m := |Kept(n, interval)|;
      (m - 1) * a < n <= m * a
  {
    var a: nat := if interval < 0 then -interval else interval;
    if n > 0 {
      KeptCount(n - 1, interval);
      var m := |Kept(n - 1, interval)|;
      KeptStep(n - 1, interval, m);
      assert (m + 1) * a == m * a + a;
    }
  }

  /** Kept frame `j` is frame `j * |interval|`. */
  lemma {:induction false} KeptElements(n: nat, interval: int)
    requires interval != 0
    ensures var a := if interval < 0 then -interval else interval;
      forall j :: 0 <= j < |Kept(n, interval)| ==> Kept(n, interval)[j] == j * a
  {
    if n > 0 {
      KeptElements(n - 1, interval);
      KeptCount(n - 1, interval);
      KeptStep(n - 1, interval, |Kept(n - 1, interval)|);
    }
  }

  lemma DivUnique(x: int, m: int, a: nat)
    requires a > 0 && m * a <= x < m * a + a
    ensures x / a == m
  {
    var q := x / a;
    assert x == q * a + x % a;
    assert (m + 1) * a == m * a + a && (m - 1) * a == m * a - a;
    MulMonotone(m + 1, q, a);
    MulMonotone(q, m - 1, a);
  }

  /** The same count as Python writes it: `ceil(n / |interval|)`. */
  lemma KeptIsCeiling(n: nat, interval: int)
    requires interval != 0
    ensures var a := if interval < 0 then -interval else interval;
      |Kept(n, interval)| == (n + a - 1) / a
  {
    var a: nat := if interval < 0 then -interval else interval;
    KeptCount(n, interval);
    var m := |Kept(n, interval)|;
    assert (m - 1) * a == m * a - a;
    DivUnique(n + a - 1, m, a);
  }

  /** The name of the `j`-th saved frame: `frame_{j:04d}.png`. */
  function FrameName(j: nat): string {
    "frame_" + ZeroPad(Decimal(j), 4) + ".png"
  }

  /** Frame names are zero-padded to four digits. */
  lemma FrameNameExample()
    ensures FrameName(7) == "frame_0007.png"
    ensures FrameName(42) == "frame_0042.png"
  {
    assert Decimal(7) == "7";
    assert Decimal(42) == "42" by {
      assert Decimal(4) == "4";
    }
  }

  /** Different frames get different names, also past four digits. */
  lemma FrameNamesDistinct(i: nat, j: nat)
    requires FrameName(i) == FrameName(j)
    ensures i == j
  {
    var a := ZeroPad(Decimal(i), 4);
    var b := ZeroPad(Decimal(j), 4);
    var name := FrameName(i);
    assert name[6..|name| - 4] == a;
    assert FrameName(j)[6..|FrameName(j)| - 4] == b;
    DecimalValue(i);
    DecimalValue(j);
    ZeroPadValue(Decimal(i), 4);
    ZeroPadValue(Decimal(j), 4);
  }

  /** The scratch directory of a video: `/tmp/feature-gen-frames-<stem>`. */
  function ScratchDir(video: string): string {
    "/tmp/feature-gen-frames-" + Stem(video)
  }

  /** Where frame `j` is saved. */
  function FramePath(dir: string, j: nat): string {
    dir + "/" + FrameName(j)
  }

  /** Frames are saved inside the scratch directory. */
  lemma FramePathBelow(dir: string, j: nat)
    ensures Below(dir, FramePath(dir, j))
  {
    assert FramePath(dir, j)[..|dir + "/"|] == dir + "/";
  }

  lemma FramePathsDistinct(dir: string, i: nat, j: nat)
    requires FramePath(dir, i) == FramePath(dir, j)
    ensures i == j
  {
    var n := |dir| + 1;
    assert FramePath(dir, i)[n..] == FrameName(i);
    assert FramePath(dir, j)[n..] == FrameName(j);
    FrameNamesDistinct(i, j);
  }

  /** The paths of the first `count` saved frames. */
  function FramePaths(dir: string, count: nat): (paths: seq<string>)
    ensures |paths| == count
  {
    seq(count, j requires 0 <= j < count => FramePath(dir, j))
  }

  /** The file system after saving kept frame `j` as frame file `j`, for each
      `j` in order. Saving over a directory does nothing: `cv2.imwrite`
      reports that failure by its return value, which goes unread. */
  function Extract(fs: FileSystem, dir: string, video: string, kept: seq<nat>): (out: FileSystem)
    ensures out.dirs == fs.dirs
  {
    if kept == [] then fs
    else
      var j := |kept| - 1;
      var prev := Extract(fs, dir, video, kept[..j]);
      var path := FramePath(dir, j);
      if path in prev.dirs then prev
      else prev.(files := prev.files[path := VideoFrame(video, kept[j])])
  }

  /** Saved frame `j` holds kept frame `j`, unless a directory stood in its way. */
  lemma {:induction false} ExtractFrame(fs: FileSystem, dir: string, video: string, kept: seq<nat>, j: nat)
    requires j < |kept| && FramePath(dir, j) !in fs.dirs
    ensures var out := Extract(fs, dir, video, kept);
      FramePath(dir, j) in out.files && out.files[FramePath(dir, j)] == VideoFrame(video, kept[j])
  {
    var last := |kept| - 1;
    if j < last {
      ExtractFrame(fs, dir, video, kept[..last], j);
      if FramePath(dir, last) == FramePath(dir, j) {
        FramePathsDistinct(dir, last, j);
      }
    }
  }

  /** Saving frames touches no path but the frame paths. */
  lemma {:induction false} ExtractOthers(fs: FileSystem, dir: string, video: string, kept: seq<nat>, p: string)
    requires forall j :: 0 <= j < |kept| ==> p != FramePath(dir, j)
    ensures var out := Extract(fs, dir, video, kept);
      (p in out.files <==> p in fs.files) && (p in fs.files ==> out.files[p] == fs.files[p])
  {
    if kept != [] {
      ExtractOthers(fs, dir, video, kept[..|kept| - 1], p);
    }
  }

  /** The outcome of a cleanup step: the error it raised, if any, and the
      file system it leaves. */
  datatype Cleanup = Cleanup(error: Option<Error>, fs: FileSystem)

  /** The `finally` loop: `unlink(missing_ok=True)` on each path in order; a
      path that is a directory raises and ends the loop. */
  function Unlink(fs: FileSystem, paths: seq<string>): Cleanup
    decreases |paths|
  {
    if paths == [] then Cleanup(None, fs)
    else if paths[0] in fs.dirs then Cleanup(Some(IsADirectory(paths[0])), fs)
    else Unlink(fs.(files := fs.files - {paths[0]}), paths[1..])
  }

  /** When no path is a directory, unlinking removes exactly those paths. */
  lemma {:induction false} UnlinkAll(fs: FileSystem, paths: seq<string>)
    requires forall k :: 0 <= k < |paths| ==> paths[k] !in fs.dirs
    ensures Unlink(fs, paths) == Cleanup(None, fs.(files := fs.files - set k | 0 <= k < |paths| :: paths[k]))
    decreases |paths|
  {
    if paths != [] {
      var rest := fs.(files := fs.files - {paths[0]});
      UnlinkAll(rest, paths[1..]);
      var all := set k | 0 <= k < |paths| :: paths[k];
      var tail := set k | 0 <= k < |paths[1..]| :: paths[1..][k];
      assert all == {paths[0]} + tail by {
        forall x | x in all ensures x in {paths[0]} + tail {
          var k :| 0 <= k < |paths| && paths[k] == x;
          if k > 0 { assert paths[1..][k - 1] == x; }
        }
      }
      assert rest.files - tail == fs.files - all;
    }
  }

  /** Something other than the directory itself lies below it. */
  predicate Occupied(fs: FileSystem, dir: string) {
    (exists p | p in fs.files :: Below(dir, p)) || (exists p | p in fs.dirs :: Below(dir, p))
  }

  /** `rmdir`: fails on a directory that still holds entries. */
  function RemoveDir(fs: FileSystem, dir: string): Cleanup {
    if Occupied(fs, dir) then Cleanup(Some(DirectoryNotEmpty(dir)), fs)
    else Cleanup(None, fs.(dirs := fs.dirs - {dir}))
  }

  /** A video analysis outcome, with the file system it leaves and the
      requests it made. */
  datatype VideoRun = VideoRun(result: Result<VideoAnalysis>, fs: FileSystem, calls: seq<Call>)

  /** The frames saved for a video of `frameCount` frames: none when the
      interval is zero (the first remainder already raises). */
  function SavedFrames(frameCount: nat, interval: int): seq<nat> {
    if interval == 0 then [] else Kept(frameCount, interval)
  }

  /** The whole `finally` block: the unlink loop, then `rmdir` if the loop
      raised nothing. */
  function Finally(fs: FileSystem, frames: seq<string>, dir: string): Cleanup {
    var unlinked := Unlink(fs, frames);
    if unlinked.error.Some? then unlinked else RemoveDir(unlinked.fs, dir)
  }

  /** The file system the frame analyses see: the scratch directory made
      (`mkdir(exist_ok=True)`), then every kept frame saved in it. */
  function ScratchFiles(fs: FileSystem, video: string, frameCount: nat, interval: int): FileSystem {
    var dir := ScratchDir(video);
    Extract(fs.(dirs := fs.dirs + {dir}), dir, video, SavedFrames(frameCount, interval))
  }

  /** What `analyze_video` does, as a value: the existence check, the scratch
      directory, the frame loop, the batch over the saved frames, then the
      `finally` cleanup, whose own exception replaces the outcome. */
  function VideoOutcome(svc: Service, fs: FileSystem, video: string, frameCount: nat, interval: int, model: string, prompt: string): VideoRun {
    if !Exists(fs, video) then VideoRun(Err(VideoNotFound(video)), fs, [])
    else
      var dir := ScratchDir(video);
      if dir in fs.files then VideoRun(Err(FileExists(dir)), fs, [])
      else
        var kept := SavedFrames(frameCount, interval);
        var written := ScratchFiles(fs, video, frameCount, interval);
        var frames := FramePaths(dir, |kept|);
        var raised := interval == 0 && frameCount > 0;
        var analyze := BatchAnalysis(svc, written, model, prompt);
        var calls := if raised then [] else BatchCalls(analyze, frames);
        var body: Result<VideoAnalysis> :=
          if raised then Err(ModuloByZero)
          else Ok(VideoAnalysis(video, Name(video), frameCount, |kept|, interval, model,
                                BatchEntries(analyze, frames)));
        var cleanup := Finally(written, frames, dir);
        VideoRun(if cleanup.error.Some? then Err(cleanup.error.value) else body, cleanup.fs, calls)
  }

  /** Reading one more frame saves it, under the next frame name, exactly
      when its number is a multiple of the interval. */
  lemma ExtractGrows(fs0: FileSystem, dir: string, video: string, count: nat, interval: int)
    requires interval != 0
    ensures var before := Kept(count, interval);
      var prev := Extract(fs0, dir, video, before);
      var path := FramePath(dir, |before|);
      if count % interval == 0 then
        Kept(count + 1, interval) == before + [count] &&
        FramePaths(dir, |before| + 1) == FramePaths(dir, |before|) + [path] &&
        Extract(fs0, dir, video, Kept(count + 1, interval)) ==
          (if path in prev.dirs then prev else prev.(files := prev.files[path := VideoFrame(video, count)]))
      else
        Kept(count + 1, interval) == before
  {
    var before := Kept(count, interval);
    if count % interval == 0 {
      var after := before + [count];
      assert after[..|after| - 1] == before;
    }
  }

  /** The frame loop of `analyze_video`: reads `frameCount` frames and saves
      each kept one under the next frame name; a zero interval raises at the
      first frame. */
  method ExtractFrames(fs0: FileSystem, dir: string, video: string, frameCount: nat, interval: int)
    returns (fs: FileSystem, frames: seq<string>, count: nat, raised: bool)
    ensures raised <==> interval == 0 && frameCount > 0
    ensures !raised ==> count == frameCount
    ensures frames == FramePaths(dir, |SavedFrames(frameCount, interval)|)
    ensures fs == Extract(fs0, dir, video, SavedFrames(frameCount, interval))
  {
    fs := fs0;
    frames := [];
    count := 0;
    raised := false;
    if interval == 0 {
      // `count % interval` is evaluated for the first frame read
      raised := frameCount > 0;
      return;
    }
    while count < frameCount
      invariant count <= frameCount
      invariant frames == FramePaths(dir, |Kept(count, interval)|)
      invariant fs == Extract(fs0, dir, video, Kept(count, interval))
    {
      ExtractGrows(fs0, dir, video, count, interval);
      if count % interval == 0 {
        var path := FramePath(dir, |frames|);
        if path !in fs.dirs {
          fs := fs.(files := fs.files[path := VideoFrame(video, count)]);
        }
        frames := frames + [path];
      }
      count := count + 1;
    }
  }

  /** The `finally` block of `analyze_video`. */
  method CleanUp(fs0: FileSystem, frames: seq<string>, dir: string) returns (error: Option<Error>, fs: FileSystem)
    ensures Cleanup(error, fs) == Finally(fs0, frames, dir)
  {
    fs := fs0;
    var i := 0;
    while i < |frames|
      invariant 0 <= i <= |frames|
      invariant Unlink(fs, frames[i..]) == Unlink(fs0, frames)
    {
      assert frames[i..][1..] == frames[i + 1..];
      if frames[i] in fs.dirs {
        return Some(IsADirectory(frames[i])), fs;
      }
      fs := fs.(files := fs.files - {frames[i]});
      i := i + 1;
    }
    assert frames[i..] == [];
    if (exists p | p in fs.files :: Below(dir, p)) || (exists p | p in fs.dirs :: Below(dir, p)) {
      return Some(DirectoryNotEmpty(dir)), fs;
    }
    error := None;
    fs := fs.(dirs := fs.dirs - {dir});
  }

  /** `analyze_video`. */
  method AnalyzeVideo(svc: Service, fs0: FileSystem, video: string, frameCount: nat, interval: int, model: string)
    returns (result: Result<VideoAnalysis>, fs: FileSystem, calls: seq<Call>)
    ensures VideoRun(result, fs, calls) == VideoOutcome(svc, fs0, video, frameCount, interval, model, VisionPrompt)
  {
    fs := fs0;
    calls := [];
    if !Exists(fs, video) {
      return Err(VideoNotFound(video)), fs, calls;
    }
    var dir := "/tmp/feature-gen-frames-" + Stem(video);
    if dir in fs.files {
      return Err(FileExists(dir)), fs, calls;
    }
    fs := fs.(dirs := fs.dirs + {dir});
    var frames, count, raised;
    fs, frames, count, raised := ExtractFrames(fs, dir, video, frameCount, interval);
    var body: Result<VideoAnalysis>;
    if raised {
      body := Err(ModuloByZero);
    } else {
      var entries;
      entries, calls := AnalyzeBatch(svc, fs, frames, model);
      body := Ok(VideoAnalysis(video, Name(video), count, |frames|, interval, model, entries));
    }
    var error;
    error, fs := CleanUp(fs, frames, dir);
    result := if error.Some? then Err(error.value) else body;
  }


  /** A missing video fails at once: nothing is created and no request is made. */
  lemma VideoMissing(svc: Service, fs: FileSystem, video: string, frameCount: nat, interval: int, model: string, prompt: string)
    requires !Exists(fs, video)
    ensures VideoOutcome(svc, fs, video, frameCount, interval, model, prompt) ==
      VideoRun(Err(VideoNotFound(video)), fs, [])
  {
  }

  /** Unlinking the saved frames of a directory that held nothing to begin
      with removes exactly the frames again. */
  lemma UnlinkFrames(fs: FileSystem, dir: string, video: string, kept: seq<nat>)
    requires !Occupied(fs, dir)
    ensures var written := Extract(fs.(dirs := fs.dirs + {dir}), dir, video, kept);
      Unlink(written, FramePaths(dir, |kept|)) == Cleanup(None, fs.(dirs := fs.dirs + {dir}))
  {
    var made := fs.(dirs := fs.dirs + {dir});
    var written := Extract(made, dir, video, kept);
    var frames := FramePaths(dir, |kept|);
    forall k | 0 <= k < |frames|
      ensures frames[k] !in written.dirs && frames[k] !in fs.files
    {
      FramePathBelow(dir, k);
      assert frames[k] == FramePath(dir, k);
    }
    UnlinkAll(written, frames);
    var gone := set k | 0 <= k < |frames| :: frames[k];
    forall p | p !in gone
      ensures (p in written.files <==> p in fs.files) && (p in fs.files ==> written.files[p] == fs.files[p])
    {
      forall j | 0 <= j < |kept|
        ensures p != FramePath(dir, j)
      {
        assert frames[j] == FramePath(dir, j);
      }
      ExtractOthers(made, dir, video, kept, p);
    }
    assert written.files - gone == fs.files;
  }

  /** With nothing below the scratch directory to begin with, the `finally`
      block removes every saved frame and then the directory, and leaves the
      file system as it was, less the scratch directory. */
  lemma CleanupRestores(fs: FileSystem, dir: string, video: string, kept: seq<nat>)
    requires dir !in fs.files && !Occupied(fs, dir)
    ensures var written := Extract(fs.(dirs := fs.dirs + {dir}), dir, video, kept);
      Finally(written, FramePaths(dir, |kept|), dir) == Cleanup(None, fs.(dirs := fs.dirs - {dir}))
  {
    UnlinkFrames(fs, dir, video, kept);
    var unlinked := fs.(dirs := fs.dirs + {dir});
    assert !Occupied(unlinked, dir) by {
      assert !Below(dir, dir);
    }
    assert unlinked.dirs - {dir} == fs.dirs - {dir};
  }

  /** `analyze_video` on an existing video whose scratch directory held
      nothing: the file system ends as it began (less a scratch directory
      that was already there), a zero interval raises `ZeroDivisionError`
      exactly when there is a frame to read, and otherwise the record counts
      every frame read and holds one analysis per saved frame, in order. */
  lemma VideoResult(svc: Service, fs: FileSystem, video: string, frameCount: nat, interval: int, model: string, prompt: string)
    requires Exists(fs, video) && ScratchDir(video) !in fs.files && !Occupied(fs, ScratchDir(video))
    ensures var run := VideoOutcome(svc, fs, video, frameCount, interval, model, prompt);
      var dir := ScratchDir(video);
      var kept := SavedFrames(frameCount, interval);
      var frames := FramePaths(dir, |kept|);
      var analyze := BatchAnalysis(svc, ScratchFiles(fs, video, frameCount, interval), model, prompt);
      run.fs == fs.(dirs := fs.dirs - {dir}) &&
      (interval == 0 && frameCount > 0 ==> run.result == Err(ModuloByZero) && run.calls == []) &&
      (interval != 0 || frameCount == 0 ==>
        run.result == Ok(VideoAnalysis(video, Name(video), frameCount, |kept|, interval, model, BatchEntries(analyze, frames))) &&
        run.calls == BatchCalls(analyze, frames))
  {
    var dir := ScratchDir(video);
    var kept := SavedFrames(frameCount, interval);
    CleanupRestores(fs, dir, video, kept);
    assert ScratchFiles(fs, video, frameCount, interval) == Extract(fs.(dirs := fs.dirs + {dir}), dir, video, kept);
  }

  /** Saved frame `j` holds frame `j * |interval|` of the video, unless a
      directory already stood at its path. */
  lemma SavedFrameContents(fs: FileSystem, video: string, frameCount: nat, interval: int, j: nat)
    requires interval != 0 && j < |Kept(frameCount, interval)|
    requires FramePath(ScratchDir(video), j) !in fs.dirs
    ensures var a := if interval < 0 then -interval else interval;
      var path := FramePath(ScratchDir(video), j);
      var written := ScratchFiles(fs, video, frameCount, interval);
      path in written.files && written.files[path].VideoFrame? &&
      written.files[path].video == video && written.files[path].index == j * a
  {
    var dir := ScratchDir(video);
    var kept := Kept(frameCount, interval);
    assert FramePath(dir, j) != dir by {
      FramePathBelow(dir, j);
    }
    ExtractFrame(fs.(dirs := fs.dirs + {dir}), dir, video, kept, j);
    KeptElements(frameCount, interval);
  }
}
