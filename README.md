# Sticker Maker, verified model

Sticker Maker is a small desktop program (`sticker_maker.py`) that turns images
into Telegram stickers or PNG files. The user enters a remove.bg API key,
chooses one of four output types, and picks either some image files or a folder.
Every selected image is then processed in turn. The background may be removed
through the remove.bg service. A sticker is scaled so that its longest side is
512 pixels and saved as `<stem>_sticker.webp`. Otherwise the image is saved as
`<stem>_processed.png`. Results go to an `output` folder next to the first
image, and a progress bar, a status line and a log report on each file.

This project models the deterministic logic under that interface and proves
what it promises:

- `resize.dfy` (`Resize`): the target size computed by `resize_for_sticker`.
- `modes.dfy` (`Modes`): how the four combobox labels become the two flags
  "remove background" and "make sticker", by substring tests.
- `text.dfy` (`Text`): Python's substring test and `str.strip()`.
- `paths.dfy` (`Paths`): `os.path.dirname` and `os.path.join` with POSIX
  semantics, and `Path.name` and `Path.stem` on the paths the program builds:
  dialog selections, `glob` matches and `os.path.join` results.
- `naming.dfy` (`Naming`): the output file name and the output folder.
- `folderscan.dfy` (`FolderScan`): how `select_folder` collects the matches of
  the five glob patterns and drops the results of earlier runs.
- `app.dfy` (`App`): `process_image` as a function of what the outside steps
  report, and the class `StickerMakerApp`. The class holds the widget state the
  batch reads and changes. Its methods are `process_files` (the key guard, then
  the batch), the worker loop of `process_thread`, `select_files` and
  `select_folder`.

The steps outside the program are one opaque function, `Pipeline`. Given the
file and whether the background is removed, it reports either the pixel size of
the decoded image or the message of the exception raised on the way. Those
steps are reading the file, calling remove.bg, decoding and writing. The
program's own logic decides the rest: the flags, the sticker size, the output
path, the two errors a sticker can hit, the count of successes, the log lines,
the progress and the dialogs.

A sticker can fail for two reasons inside the program. If both sides are 0,
`h / w` divides by zero. If the shorter side times 512 is less than the longer
side, the scaled short side truncates to 0, and the imaging library's `resize`
refuses an empty side. `App.ProcessImageSucceeds` states exactly when a file
succeeds. `App.EmptySideExample` shows the 1025x1 case.

The resize is written with floating-point division and `int()`. The model uses
exact integer floor division, `short * 512 / long`. The two agree for every
image smaller than 2^44 pixels a side, because multiplying by 512 is exact and
the rounded ratio never crosses a multiple of 1/512. `int()` truncates toward
zero, which for these non-negative values is the floor.

## Model

| member | source | states |
|---|---|---|
| Resize.ResizeLongestSide | sticker_maker.py:108-115 | The longer input side (width on a tie) becomes exactly `max_size`, and the other side never exceeds it. |
| Resize.ResizeTruncates | sticker_maker.py:111-114 | The shorter side is the floor of short * max_size / long: new_short * long <= short * max_size < (new_short + 1) * long. |
| Resize.ResizeKeepsAspect | sticker_maker.py:108-115 | The aspect ratio is kept within one pixel of truncation: the cross products new_w * h and new_h * w differ by less than the long side. |
| Resize.ResizeKeepsOrientation | sticker_maker.py:111-114 | For a positive max_size, new_w >= new_h exactly when w >= h. |
| Resize.ResizeSquare | sticker_maker.py:111-112 | A square input of any positive side becomes a max_size square. |
| Resize.ResizeCanVanish | sticker_maker.py:111-114 | The short side becomes 0 exactly when short * max_size < long, since nothing guards against it. |
| Resize.ResizeExamples | sticker_maker.py:108-115 | 1000x500 gives 512x256, 500x1000 gives 256x512, 300x300 gives 512x512, and 1025x1 gives 512x0. |
| Text.StripLeadingSpec | sticker_maker.py:149 | `lstrip` removes exactly a whitespace prefix and keeps a remainder that starts with a non-whitespace character. |
| Text.StripTrailingSpec | sticker_maker.py:149 | `rstrip` removes exactly a whitespace suffix and keeps a remainder that ends with a non-whitespace character. |
| Text.StripEmptyIffBlank | sticker_maker.py:149 | A string strips to nothing exactly when every character is whitespace. |
| Paths.LastIndexOf | sticker_maker.py:119 | `rfind`: the result is -1 or an index holding the character, and no later index holds it. |
| Paths.NameSpec | sticker_maker.py:166 | `Path(p).name` is the separator-free tail of `p`, preceded by a separator unless it is all of `p`. |
| Paths.StripTrailingSeps | sticker_maker.py:154 | The separators `dirname` strips form a suffix, and what is left does not end in a separator. |
| Paths.NameOfJoin | sticker_maker.py:166 | The name of `join(dir, part)` is `part` when `part` has no separator. |
| Paths.DirnameOfJoin | sticker_maker.py:154 | `dirname(join(dir, part))` is `dir` again when `dir` is non-empty, does not end in a separator, and `part` has no separator. |
| Modes.DecodeStickerRemove | sticker_maker.py:122-123 | "Telegram Sticker (remove background)" decodes to remove_bg = true and make_sticker = true. |
| Modes.DecodeStickerKeep | sticker_maker.py:122-123 | "Telegram Sticker (keep background)" decodes to remove_bg = false and make_sticker = true. |
| Modes.DecodePngRemove | sticker_maker.py:122-123 | "PNG (remove background only)" decodes to remove_bg = true and make_sticker = false. |
| Modes.DecodePngKeep | sticker_maker.py:122-123 | "PNG (keep original)" decodes to remove_bg = false and make_sticker = false. |
| Modes.LabelsDecodeBijectively | sticker_maker.py:46-51 | The four labels decode to four different flag pairs, and every flag pair is offered by some label. |
| Naming.StemHasNoSep | sticker_maker.py:119 | The stem of a separator-free name has no separator. |
| Naming.OutputDirShape | sticker_maker.py:154 | The output folder is non-empty, does not end in a separator, and is named `output`. |
| Naming.OutputPathParts | sticker_maker.py:139-142 | The result path has name `<stem>_sticker.webp` or `<stem>_processed.png`, and its directory is the output folder. |
| Naming.OutputPathInOutputDir | sticker_maker.py:154 | Every result of a batch lands directly in the folder the batch created next to its first file. |
| Naming.OutputNameInjective | sticker_maker.py:139-142 | Two output names are equal only for the same stem and the same mode. |
| Naming.StemOfOutputName | sticker_maker.py:139-142 | The stem of an output name is the input stem followed by `_sticker` or `_processed`. |
| Naming.OutputPathExample | sticker_maker.py:139-140 | The sticker of `photos/cat.jpg` written to `photos/output` is `photos/output/cat_sticker.webp`. |
| Naming.OutputDirExample | sticker_maker.py:154 | A batch whose first file is `photos/cat.jpg` writes to `photos/output`. |
| FolderScan.Collect | sticker_maker.py:189-191 | The collected list holds every match of every pattern and nothing else. |
| FolderScan.CollectAppend | sticker_maker.py:189-191 | The matches of later patterns follow those of earlier ones as whole blocks, so each pattern's matches are one block, in pattern order. |
| FolderScan.KeepUnprocessed | sticker_maker.py:192 | A path is kept exactly when it was collected and its name contains neither `_sticker` nor `_processed`, and the list never grows. |
| FolderScan.KeepUnprocessedAppend | sticker_maker.py:192 | Filtering the concatenation of two lists gives the concatenation of the filtered lists. |
| FolderScan.KeepUnprocessedCounts | sticker_maker.py:192 | A kept path appears exactly as often as it was collected, and a dropped path not at all. |
| FolderScan.KeptInOrder | sticker_maker.py:192 | The kept files are an order-preserving subsequence of the collected files. |
| FolderScan.GeneratedOutputsDropped | sticker_maker.py:192 | A file the program wrote, in any directory and in either mode, is always dropped by the filter. |
| App.ProcessImage | sticker_maker.py:117-145 | A failure reported by an outside step becomes that exception with the same message, and only a decoded image can succeed. A decoded image fails only as a sticker: with "division by zero" when both sides are 0, otherwise with the resize's "height and width must be > 0". |
| App.ProcessImageSucceeds | sticker_maker.py:122-143 | A file succeeds exactly when its image decodes and, for a sticker, both sides are positive and each side times 512 reaches the other. |
| App.ResultLocation | sticker_maker.py:139-145 | A successful result lies directly in the output folder, named after the input's stem with the mode's suffix. |
| App.ResultSize | sticker_maker.py:137-143 | A sticker's sides are between 1 and 512 with one of them equal to 512, and a PNG keeps the decoded size. |
| App.StickerExample | sticker_maker.py:117-145 | `photos/cat.jpg` at 1000x500 with "keep background" becomes `photos/output/cat_sticker.webp` at 512x256. |
| App.EmptySideExample | sticker_maker.py:137-140 | A 1025x1 image cannot become a sticker: its height scales to 0 and the resize raises. |
| App.Outcomes | sticker_maker.py:162-165 | A batch has exactly one outcome per file. |
| App.OutcomesAt | sticker_maker.py:162-165 | The outcome of file k is that of `process_image` on file k alone, so earlier files cannot influence it. |
| App.Succeeded | sticker_maker.py:161-167 | The success count never exceeds the number of files. |
| App.SucceededCounts | sticker_maker.py:161-167 | The success count equals the number of positions whose file succeeded. |
| App.SucceededExtremes | sticker_maker.py:161-173 | The count equals the number of files exactly when every file succeeded, and it is 0 exactly when every file failed. |
| App.BatchLog | sticker_maker.py:166-169 | The log gets exactly one line per file. |
| App.BatchLogAt | sticker_maker.py:166-169 | Log line k names file k: "Created" with the result's name, or "Error" with the input's name and the message. |
| App.OneFailure | sticker_maker.py:162-169 | If only file k fails, the count is one less than the number of files, and file k's line is the only error line. |
| App.SucceededDifferAtOne | sticker_maker.py:161-169 | Two outcome lists that differ at one position have success counts that differ by at most one. |
| App.FailureIsolated | sticker_maker.py:162-169 | Changing what happens to one file changes no other file's outcome and moves the count by at most one. |
| App.PrefixStep | sticker_maker.py:162-170 | Each further file adds its own contribution to the count and its own line to the log. |
| App.StickerMakerApp.constructor | sticker_maker.py:13-71 | At start-up, the entry holds the environment key, the first label is selected, the progress is 0 of 100, the status is "Ready", and the log and dialogs are empty. |
| App.StickerMakerApp.MissingKeyMeans | sticker_maker.py:149 | The guard fires exactly when the key entry is all whitespace and the selected type asks for background removal. |
| App.StickerMakerApp.ProcessFiles | sticker_maker.py:147-158 | With the guard firing, only the error dialog is added. Otherwise the output folder is made, every file is attempted in order, and the progress, status, log, completion dialog and opened folder report the outcomes. The key and the selected type are never changed. |
| App.StickerMakerApp.RunBatch | sticker_maker.py:153-177 | After the guard: the folder next to the first file is made, the progress range is the number of files, and the batch runs to completion. |
| App.StickerMakerApp.AttemptFile | sticker_maker.py:163-169 | One iteration's `try` block: it succeeds exactly when `process_image` returns, and appends the matching "Created" or "Error" line. |
| App.StickerMakerApp.ProcessThread | sticker_maker.py:160-175 | After the loop, the status is "Done! s/n", the completion dialog reports s and the folder, and the folder is opened. Here s counts the successes. |
| App.StickerMakerApp.ProcessEach | sticker_maker.py:161-171 | The loop returns the number of successes, leaves the progress value at the number of files, and appends one log line per file in input order. |
| App.StickerMakerApp.SelectFiles | sticker_maker.py:179-184 | A cancelled dialog changes nothing; otherwise the chosen files are processed as one batch. |
| App.StickerMakerApp.SelectFolder | sticker_maker.py:186-196 | A cancelled dialog changes nothing. Otherwise the matches of the five patterns, minus earlier results, are processed as a batch, or the "No images" warning alone is shown when none remain. |

## Left out

- The tkinter window, its layout, `log_message`'s text rendering and `root.update()` are not modelled. Widgets are reduced to the values they hold, log lines and dialogs to datatypes.
- `save_api_key` is not modelled. When the stripped entry is non-empty, it runs `setx` through `os.system`, sets `self.api_key` to the stripped entry and shows a dialog. The model's `apiKey` field therefore never changes after the constructor. The batch reads only the entry, so this does not affect it.
- `remove_background` (the remove.bg HTTP request) is not modelled. Together with reading the file, decoding, converting to RGBA, resampling and encoding, it is folded into the opaque `Pipeline` parameter. Its error messages are whatever that parameter reports.
- `App.ProcessImage`: the imaging library's refusal of a 0-pixel side is modelled, with its message as a constant. Any other failure of decoding or saving is taken from `Pipeline`.
- `Resize.ResizeForSticker`: uses exact floor division instead of IEEE double division followed by `int()`. The two agree for sides below 2^44 with the 512 the program passes.
- `os.makedirs`, `os.startfile` and `Path.glob` are side effects outside the program. They are modelled as the set `madeDirs`, the sequence `openedFolders` and the `glob` parameter of `SelectFolder`. The order in which `glob` lists the files of one pattern is whatever that parameter returns.
- `App.StickerMakerApp.RunBatch`: assumes that `os.makedirs(output_dir, exist_ok=True)` succeeds. In the program it raises `FileExistsError` when `output` exists as a regular file, and `PermissionError` when the folder cannot be created. Either one ends `process_files` after the key check: no progress, no file, no dialog.
- `App.StickerMakerApp.ProcessThread`: assumes that `os.startfile` succeeds. It exists only on Windows. On other systems it raises `AttributeError` in the worker thread after the completion dialog, and only the opening of the folder is lost.
- The worker thread is modelled as a sequential call, so nothing can change the entry or the combobox while a batch runs. In the program, the thread reads the output type again for every file and the key for every remove.bg call.
- `App.StickerMakerApp.ProcessEach`: the intermediate status text "Processing i/n..." is set on every iteration, but only the final "Done" status is stated.
- Paths use POSIX semantics with '/' as the only separator. Windows drive letters and backslashes are not modelled, although the program calls `os.startfile`, which exists only on Windows.
- `Paths.NameSpec`: `Name` is `os.path.basename`. It does not model pathlib's normalisation of a path that ends in a separator or in a '.' component. For example, pathlib gives `photos` for `photos/` and an empty name for `.`, where `Name` gives an empty name and `.`. The program only passes dialog selections, `glob` matches and `os.path.join` results, which end in neither.
- `Paths.Stem` follows the `pathlib` rule before Python 3.14: a name that ends in '.' keeps its whole text as its stem.
- `App.StickerMakerApp.ProcessFiles` requires a non-empty list unless the guard fires. With an empty list, the program would fail on `files[0]`. Both callers only pass non-empty lists.
