/**
 * The application object: the batch driver of `process_files` and its worker
 * loop `process_thread`, the per-file step `process_image`, and the two entry
 * points `select_files` and `select_folder`. Widgets are reduced to the state
 * they hold: the API key entry, the selected output type, the progress bar,
 * the progress label, the log lines and the message boxes shown.
 */
module App {
  import opened Text
  import opened Paths
  import opened Resize
  import opened Modes
  import opened Naming
  import opened FolderScan

  /** What the steps outside the program report for one file: the pixel size of
      the decoded image, or the message of the exception raised while reading the
      file, calling the background-removal service, decoding or writing. */
  datatype Decoded = Image(width: nat, height: nat) | Failed(message: string)

  /** Those steps as one function of the file and of whether the background-removal
      service is called for it. */
  type Pipeline = (string, bool) -> Decoded

  /** What one call of `process_image` ends with: the path it returns together with
      the size of the image written there, or the message of the exception it raises. */
  datatype Outcome = Created(path: string, width: nat, height: nat) | Raised(message: string)

  /** One line of the log box: "Created: <name>" or "Error: <name> - <message>". */
  datatype LogLine = CreatedLine(name: string) | ErrorLine(name: string, message: string)

  /** The text of the progress label: "Ready", "Processing i/n..." or "Done! s/n processed". */
  datatype Status = Ready | Processing(current: nat, total: nat) | Done(succeeded: nat, total: nat)

  /** The message boxes the program shows. */
  datatype Dialog = MissingKeyError | Complete(succeeded: nat, outputDir: string) | NoImagesWarning

  /** The message Python gives `h / w` when both sides are zero. */
  const ZeroDivisionMessage: string := "division by zero"

  /** The message of the imaging library's `resize` when asked for a side of 0 pixels. */
  const EmptySideMessage: string := "height and width must be > 0"

  /** `process_image(filepath, output_dir)` with the output type `outputType`: a
      failure of a step outside the program is passed on; a sticker is refused
      when `resize_for_sticker` divides by zero or computes a side of 0 pixels;
      otherwise the result is written as `<stem>_sticker.webp` or
      `<stem>_processed.png` in `outputDir`. */
  function ProcessImage(filepath: string, outputDir: string, outputType: string, pipeline: Pipeline): (o: Outcome)
    ensures var d := pipeline(filepath, DecodeMode(outputType).removeBg);
      (d.Failed? ==> o == Raised(d.message)) &&
      (o.Created? ==> d.Image?)
    ensures var d := pipeline(filepath, DecodeMode(outputType).removeBg);
      d.Image? && o.Raised? ==>
        DecodeMode(outputType).makeSticker &&
        o.message == if d.width == 0 && d.height == 0 then ZeroDivisionMessage else EmptySideMessage
  {
    var mode := DecodeMode(outputType);
    match pipeline(filepath, mode.removeBg)
    case Failed(message) => Raised(message)
    case Image(w, h) =>
      if !mode.makeSticker then Created(OutputPath(outputDir, filepath, false), w, h)
      else if w == 0 && h == 0 then Raised(ZeroDivisionMessage)
      else
        var size := ResizeForSticker(w, h);
        if size.0 == 0 || size.1 == 0 then Raised(EmptySideMessage)
        else Created(OutputPath(outputDir, filepath, true), size.0, size.1)
  }

  /** A file succeeds exactly when its image decodes and, for a sticker, the shorter
      side times 512 reaches the longer side, so that neither scaled side is 0. */
  lemma ProcessImageSucceeds(filepath: string, outputDir: string, outputType: string, pipeline: Pipeline)
    ensures var mode := DecodeMode(outputType); var d := pipeline(filepath, mode.removeBg);
      ProcessImage(filepath, outputDir, outputType, pipeline).Created? <==>
        d.Image? && (mode.makeSticker ==> d.width > 0 && d.height > 0 &&
                                          d.height * StickerSize >= d.width &&
                                          d.width * StickerSize >= d.height)
  {
    var mode := DecodeMode(outputType);
    var d := pipeline(filepath, mode.removeBg);
    if d.Image? && mode.makeSticker && (d.width > 0 || d.height > 0) {
      ResizeCanVanish(d.width, d.height, StickerSize);
      ResizeLongestSide(d.width, d.height, StickerSize);
    }
  }

  /** A result is written into the output directory, under the name made of the
      input's stem and the suffix of the chosen mode. */
  lemma ResultLocation(filepath: string, outputDir: string, outputType: string, pipeline: Pipeline)
    requires outputDir != [] && outputDir[|outputDir| - 1] != Sep
    ensures var o := ProcessImage(filepath, outputDir, outputType, pipeline);
      o.Created? ==>
        Name(o.path) == OutputName(Stem(Name(filepath)), DecodeMode(outputType).makeSticker) &&
        Dirname(o.path) == outputDir
  {
    OutputPathParts(outputDir, filepath, DecodeMode(outputType).makeSticker);
  }

  /** A sticker's longest side is 512 pixels and neither side is empty or exceeds
      it; a PNG keeps the size of the decoded image. */
  lemma ResultSize(filepath: string, outputDir: string, outputType: string, pipeline: Pipeline)
    ensures var o := ProcessImage(filepath, outputDir, outputType, pipeline);
      var mode := DecodeMode(outputType); var d := pipeline(filepath, mode.removeBg);
      o.Created? ==>
        (mode.makeSticker ==> 0 < o.width <= StickerSize && 0 < o.height <= StickerSize &&
                              (o.width == StickerSize || o.height == StickerSize)) &&
        (!mode.makeSticker ==> o.width == d.width && o.height == d.height)
  {
    var mode := DecodeMode(outputType);
    var d := pipeline(filepath, mode.removeBg);
    if d.Image? && mode.makeSticker && (d.width > 0 || d.height > 0) {
      ResizeLongestSide(d.width, d.height, StickerSize);
    }
  }

  /** A 1000x500 photo becomes a 512x256 sticker in the `output` folder beside it. */
  lemma StickerExample()
    ensures ProcessImage("photos/cat.jpg", "photos/output", StickerKeepLabel, (f: string, removeBg: bool) => Image(1000, 500))
         == Created("photos/output" + [Sep] + "cat" + StickerSuffix, 512, 256)
  {
    DecodeStickerKeep();
    ResizeExamples();
    OutputPathExample();
  }

  /** A 1025x1 banner cannot be a sticker: its height scales to 0 and the resize is refused. */
  lemma EmptySideExample()
    ensures ProcessImage("photos/banner.png", "photos/output", StickerKeepLabel, (f: string, removeBg: bool) => Image(1025, 1))
         == Raised(EmptySideMessage)
  {
    DecodeStickerKeep();
    ResizeExamples();
  }

  /** The outcome of every file of a batch, in order. */
  function Outcomes(files: seq<string>, outputDir: string, outputType: string, pipeline: Pipeline): (r: seq<Outcome>)
    ensures |r| == |files|
  {
    if files == [] then []
    else Outcomes(files[..|files| - 1], outputDir, outputType, pipeline)
         + [ProcessImage(files[|files| - 1], outputDir, outputType, pipeline)]
  }

  /** Each file's outcome is that of `process_image` on that file alone. */
  lemma {:induction false} OutcomesAt(files: seq<string>, outputDir: string, outputType: string, pipeline: Pipeline, k: nat)
    requires k < |files|
    ensures Outcomes(files, outputDir, outputType, pipeline)[k] == ProcessImage(files[k], outputDir, outputType, pipeline)
    decreases |files|
  {
    var n := |files| - 1;
    if k < n {
      OutcomesAt(files[..n], outputDir, outputType, pipeline, k);
    }
  }

  /** The number of outcomes that are successes: the final value of `success`. */
  function Succeeded(outcomes: seq<Outcome>): (n: nat)
    ensures n <= |outcomes|
  {
    if outcomes == [] then 0
    else Succeeded(outcomes[..|outcomes| - 1]) + if outcomes[|outcomes| - 1].Created? then 1 else 0
  }

  /** Every file succeeded exactly when the count reaches the number of files, and
      none did exactly when it stays at zero. */
  lemma {:induction false} SucceededExtremes(outcomes: seq<Outcome>)
    ensures Succeeded(outcomes) == |outcomes| <==> forall k :: 0 <= k < |outcomes| ==> outcomes[k].Created?
    ensures Succeeded(outcomes) == 0 <==> forall k :: 0 <= k < |outcomes| ==> outcomes[k].Raised?
    decreases |outcomes|
  {
    if outcomes != [] {
      var n := |outcomes| - 1;
      SucceededExtremes(outcomes[..n]);
      assert forall k :: 0 <= k < n ==> outcomes[..n][k] == outcomes[k];
    }
  }

  /** The positions of the files that succeeded. */
  function SuccessPositions(outcomes: seq<Outcome>): set<nat> {
    set k: nat | k < |outcomes| && outcomes[k].Created?
  }

  /** The count is the number of positions whose file succeeded. */
  lemma {:induction false} SucceededCounts(outcomes: seq<Outcome>)
    ensures Succeeded(outcomes) == |SuccessPositions(outcomes)|
    decreases |outcomes|
  {
    if outcomes != [] {
      var n := |outcomes| - 1;
      var front := outcomes[..n];
      SucceededCounts(front);
      var extra: set<nat> := if outcomes[n].Created? then {n} else {};
      assert SuccessPositions(outcomes) == SuccessPositions(front) + extra;
      assert n !in SuccessPositions(front);
    }
  }

  /** The log line written for `filepath` after it ended with `outcome`. */
  function LogLineFor(filepath: string, outcome: Outcome): LogLine {
    match outcome
    case Created(path, _, _) => CreatedLine(Name(path))
    case Raised(message) => ErrorLine(Name(filepath), message)
  }

  /** The log lines of a batch, one per file in input order. */
  function BatchLog(files: seq<string>, outcomes: seq<Outcome>): (r: seq<LogLine>)
    requires |files| == |outcomes|
    ensures |r| == |files|
  {
    if files == [] then []
    else BatchLog(files[..|files| - 1], outcomes[..|outcomes| - 1])
         + [LogLineFor(files[|files| - 1], outcomes[|outcomes| - 1])]
  }

  /** Line `k` of the log is about file `k` and is determined by its outcome alone. */
  lemma {:induction false} BatchLogAt(files: seq<string>, outcomes: seq<Outcome>, k: nat)
    requires |files| == |outcomes| && k < |files|
    ensures BatchLog(files, outcomes)[k] == LogLineFor(files[k], outcomes[k])
    decreases |files|
  {
    var n := |files| - 1;
    if k < n {
      BatchLogAt(files[..n], outcomes[..n], k);
    }
  }

  /** A batch in which only the file at `k` fails succeeds on all the others, and
      its log reports an error for that file and for no other. */
  lemma {:induction false} OneFailure(files: seq<string>, outcomes: seq<Outcome>, k: nat)
    requires |files| == |outcomes| && k < |outcomes|
    requires outcomes[k].Raised?
    requires forall j :: 0 <= j < |outcomes| && j != k ==> outcomes[j].Created?
    ensures Succeeded(outcomes) == |outcomes| - 1
    ensures forall j :: 0 <= j < |files| ==> (BatchLog(files, outcomes)[j].ErrorLine? <==> j == k)
    decreases |outcomes|
  {
    var n := |outcomes| - 1;
    if k < n {
      OneFailure(files[..n], outcomes[..n], k);
    } else {
      SucceededExtremes(outcomes[..n]);
      assert Succeeded(outcomes[..n]) == n;
    }
    forall j | 0 <= j < |files| ensures BatchLog(files, outcomes)[j].ErrorLine? <==> j == k {
      BatchLogAt(files, outcomes, j);
    }
  }

  /** Outcome sequences that differ at most at position `k` differ by at most one success. */
  lemma {:induction false} SucceededDifferAtOne(o1: seq<Outcome>, o2: seq<Outcome>, k: nat)
    requires |o1| == |o2| && k < |o1|
    requires forall j :: 0 <= j < |o1| && j != k ==> o1[j] == o2[j]
    ensures -1 <= Succeeded(o1) - Succeeded(o2) <= 1
    decreases |o1|
  {
    var n := |o1| - 1;
    if k < n {
      SucceededDifferAtOne(o1[..n], o2[..n], k);
    } else {
      assert o1[..n] == o2[..n];
    }
  }

  /** A failure cannot spread: if two pipelines differ only on the file at `k`, and
      that file is not listed twice, every other file has the same outcome and the
      success counts differ by at most one. */
  lemma FailureIsolated(files: seq<string>, outputDir: string, outputType: string,
                        p1: Pipeline, p2: Pipeline, k: nat)
    requires k < |files|
    requires forall j :: 0 <= j < |files| && j != k ==> files[j] != files[k]
    requires forall f, removeBg :: f != files[k] ==> p1(f, removeBg) == p2(f, removeBg)
    ensures var o1, o2 := Outcomes(files, outputDir, outputType, p1), Outcomes(files, outputDir, outputType, p2);
      (forall j :: 0 <= j < |files| && j != k ==> o1[j] == o2[j]) &&
      -1 <= Succeeded(o1) - Succeeded(o2) <= 1
  {
    var o1, o2 := Outcomes(files, outputDir, outputType, p1), Outcomes(files, outputDir, outputType, p2);
    forall j | 0 <= j < |files| && j != k ensures o1[j] == o2[j] {
      OutcomesAt(files, outputDir, outputType, p1, j);
      OutcomesAt(files, outputDir, outputType, p2, j);
    }
    SucceededDifferAtOne(o1, o2, k);
  }

  /** One more file adds its outcome's contribution to the count and its line to the log. */
  lemma PrefixStep(files: seq<string>, outcomes: seq<Outcome>, i: nat)
    requires |files| == |outcomes| && i < |files|
    ensures Succeeded(outcomes[..i + 1]) == Succeeded(outcomes[..i]) + if outcomes[i].Created? then 1 else 0
    ensures BatchLog(files[..i + 1], outcomes[..i + 1]) == BatchLog(files[..i], outcomes[..i]) + [LogLineFor(files[i], outcomes[i])]
  {
    assert files[..i + 1][..i] == files[..i];
    assert outcomes[..i + 1][..i] == outcomes[..i];
  }

  /** The application state the batch operations read and change. */
  class StickerMakerApp {
    var apiKey: string            // `self.api_key`, read from the environment at start-up
    var apiEntry: string          // the text in the API key entry
    var outputType: string        // the selected output type
    var progressMaximum: nat      // `progress_bar['maximum']`
    var progressValue: nat        // `progress_bar['value']`
    var status: Status            // `progress_var`
    var log: seq<LogLine>         // the lines of the log box
    var dialogs: seq<Dialog>      // the message boxes shown so far
    var madeDirs: set<string>     // the directories `os.makedirs` has ensured exist
    var openedFolders: seq<string>       // the folders handed to `os.startfile`

    /** The window as `__init__` and `setup_ui` leave it. */
    constructor (environmentKey: string)
      ensures apiKey == environmentKey && apiEntry == environmentKey
      ensures outputType == Labels[0]
      ensures progressMaximum == 100 && progressValue == 0 && status == Ready
      ensures log == [] && dialogs == [] && madeDirs == {} && openedFolders == []
    {
      apiKey, apiEntry := environmentKey, environmentKey;
      outputType := Labels[0];
      progressMaximum, progressValue, status := 100, 0, Ready;
      log, dialogs, madeDirs, openedFolders := [], [], {}, [];
    }

    /** The guard of `process_files`: no key is entered but the chosen output
        type needs the background-removal service. */
    predicate MissingKey()
      reads this
    {
      Strip(apiEntry) == [] && Contains(outputType, RemoveBackgroundMarker)
    }

    /** The batch is refused exactly when the key entry holds only whitespace and
        the selected output type asks for background removal. */
    lemma MissingKeyMeans()
      ensures MissingKey() <==>
        (forall i :: 0 <= i < |apiEntry| ==> IsSpace(apiEntry[i])) && DecodeMode(outputType).removeBg
    {
      StripEmptyIffBlank(apiEntry);
    }

    /** What `process_files(files)` leaves behind. A rejected batch shows the error
        and touches nothing else: no directory, no progress, no file. Otherwise the
        output directory is created, every file is attempted once in order, and the
        progress bar, label, log and completion dialog report the outcomes. The key
        and the output type are left as they were either way. */
    twostate predicate BatchDone(files: seq<string>, pipeline: Pipeline)
      reads this
    {
      apiKey == old(apiKey) && apiEntry == old(apiEntry) && outputType == old(outputType) &&
      if old(MissingKey()) then Rejected() else |files| > 0 && Ran(files, pipeline)
    }

    /** The missing-key error is shown and nothing else changes. */
    twostate predicate Rejected()
      reads this
    {
      dialogs == old(dialogs) + [MissingKeyError] &&
      madeDirs == old(madeDirs) && openedFolders == old(openedFolders) && log == old(log) &&
      progressMaximum == old(progressMaximum) && progressValue == old(progressValue) &&
      status == old(status)
    }

    /** The batch ran: the output directory next to the first file was created and
        every file was attempted in order with the output type now selected. */
    twostate predicate Ran(files: seq<string>, pipeline: Pipeline)
      requires |files| > 0
      reads this
    {
      var dir := OutputDir(files[0]);
      var outcomes := Outcomes(files, dir, outputType, pipeline);
      var succeeded := Succeeded(outcomes);
      madeDirs == old(madeDirs) + {dir} &&
      progressMaximum == |files| && progressValue == |files| &&
      status == Done(succeeded, |files|) &&
      log == old(log) + BatchLog(files, outcomes) &&
      dialogs == old(dialogs) + [Complete(succeeded, dir)] &&
      openedFolders == old(openedFolders) + [dir]
    }

    /** `process_files`: the guard, then the batch. The list is indexed only once
        the guard has passed, and both callers pass a non-empty list. */
    method ProcessFiles(files: seq<string>, pipeline: Pipeline)
      requires |files| > 0 || MissingKey()
      modifies this
      ensures BatchDone(files, pipeline)
    {
      if MissingKey() {
        dialogs := dialogs + [MissingKeyError];
        return;
      }
      RunBatch(files, pipeline);
    }

    /** The part of `process_files` after the guard: the output directory, the
        progress bar's range, then the worker. */
    method RunBatch(files: seq<string>, pipeline: Pipeline)
      requires |files| > 0
      modifies this
      ensures apiKey == old(apiKey) && apiEntry == old(apiEntry) && outputType == old(outputType)
      ensures Ran(files, pipeline)
    {
      var outputDir := OutputDir(files[0]);
      madeDirs := madeDirs + {outputDir};
      progressMaximum := |files|;
      progressValue := 0;
      ProcessThread(files, outputDir, pipeline);
    }

    /** The body of the loop in `process_thread` for one file: `process_image`
        inside `try`, a "Created" line when it returns, an "Error" line when it
        raises. Reports whether the file succeeded. */
    method AttemptFile(filepath: string, outputDir: string, pipeline: Pipeline) returns (succeeded: bool)
      modifies this`log
      ensures var outcome := ProcessImage(filepath, outputDir, outputType, pipeline);
        succeeded == outcome.Created? && log == old(log) + [LogLineFor(filepath, outcome)]
    {
      var outcome := ProcessImage(filepath, outputDir, outputType, pipeline);
      match outcome {
        case Created(path, _, _) =>
          log := log + [CreatedLine(Name(path))];
          succeeded := true;
        case Raised(message) =>
          log := log + [ErrorLine(Name(filepath), message)];
          succeeded := false;
      }
    }

    /** `process_thread`: the loop over the files, then the summary, the completion
        dialog and the opening of the output folder. */
    method ProcessThread(files: seq<string>, outputDir: string, pipeline: Pipeline)
      requires |files| > 0
      modifies this`progressValue, this`status, this`log, this`dialogs, this`openedFolders
      ensures var outcomes := Outcomes(files, outputDir, outputType, pipeline);
        progressValue == |files| &&
        status == Done(Succeeded(outcomes), |files|) &&
        log == old(log) + BatchLog(files, outcomes) &&
        dialogs == old(dialogs) + [Complete(Succeeded(outcomes), outputDir)] &&
        openedFolders == old(openedFolders) + [outputDir]
    {
      var success := ProcessEach(files, outputDir, pipeline);
      status := Done(success, |files|);
      dialogs := dialogs + [Complete(success, outputDir)];
      openedFolders := openedFolders + [outputDir];
    }

    /** The `for` loop of `process_thread`: each file in turn, an exception ending
        only that file, the progress bar advanced after every file. Returns the
        final value of `success`. */
    method ProcessEach(files: seq<string>, outputDir: string, pipeline: Pipeline) returns (success: nat)
      requires |files| > 0
      modifies this`progressValue, this`status, this`log
      ensures var outcomes := Outcomes(files, outputDir, outputType, pipeline);
        success == Succeeded(outcomes) &&
        progressValue == |files| &&
        log == old(log) + BatchLog(files, outcomes)
    {
      ghost var outcomes := Outcomes(files, outputDir, outputType, pipeline);
      success := 0;
      for i := 0 to |files|
        invariant success == Succeeded(outcomes[..i])
        invariant log == old(log) + BatchLog(files[..i], outcomes[..i])
        invariant i > 0 ==> progressValue == i
      {
        status := Processing(i + 1, |files|);
        OutcomesAt(files, outputDir, outputType, pipeline, i);
        PrefixStep(files, outcomes, i);
        var succeeded := AttemptFile(files[i], outputDir, pipeline);
        if succeeded {
          success := success + 1;
        }
        progressValue := i + 1;
      }
      assert files[..|files|] == files;
      assert outcomes[..|files|] == outcomes;
    }

    /** `select_files`: the files picked in the dialog, none when it is cancelled. */
    method SelectFiles(chosen: seq<string>, pipeline: Pipeline)
      modifies this
      ensures chosen == [] ==> unchanged(this)
      ensures chosen != [] ==> BatchDone(chosen, pipeline)
    {
      if chosen != [] {
        ProcessFiles(chosen, pipeline);
      }
    }

    /** `select_folder`: `folder` is empty when the dialog is cancelled, and
        `glob(folder, pattern)` lists the files the pattern matches there. */
    method SelectFolder(folder: string, glob: (string, string) -> seq<string>, pipeline: Pipeline)
      modifies this
      ensures folder == [] ==> unchanged(this)
      ensures folder != [] ==>
        var batch := KeepUnprocessed(Collect(seq(|ImagePatterns|, k requires 0 <= k < |ImagePatterns| => glob(folder, ImagePatterns[k]))));
        (batch != [] ==> BatchDone(batch, pipeline)) &&
        (batch == [] ==> dialogs == old(dialogs) + [NoImagesWarning] &&
                         apiKey == old(apiKey) && apiEntry == old(apiEntry) && outputType == old(outputType) &&
                         progressMaximum == old(progressMaximum) && progressValue == old(progressValue) &&
                         status == old(status) && log == old(log) && madeDirs == old(madeDirs) &&
                         openedFolders == old(openedFolders))
    {
      if folder == [] {
        return;
      }
      ghost var matches := seq(|ImagePatterns|, k requires 0 <= k < |ImagePatterns| => glob(folder, ImagePatterns[k]));
      var files: seq<string> := [];
      for k := 0 to |ImagePatterns|
        invariant files == Collect(matches[..k])
      {
        files := files + glob(folder, ImagePatterns[k]);
        assert matches[..k + 1][..k] == matches[..k];
      }
      assert matches[..|ImagePatterns|] == matches;
      files := KeepUnprocessed(files);
      if files != [] {
        ProcessFiles(files, pipeline);
      } else {
        dialogs := dialogs + [NoImagesWarning];
      }
    }
  }
}
