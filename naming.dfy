/**
 * Where `process_image` writes its result: `<stem>_sticker.webp` or
 * `<stem>_processed.png` inside the batch's output directory, which
 * `process_files` places in an `output` subdirectory next to the first file.
 */
module Naming {
  import opened Text
  import opened Paths

  const StickerSuffix: string := "_sticker.webp"
  const ProcessedSuffix: string := "_processed.png"
  const OutputFolder: string := "output"

  /** The file name for the result of an input whose stem is `stem`. */
  function OutputName(stem: string, makeSticker: bool): string {
    stem + if makeSticker then StickerSuffix else ProcessedSuffix
  }

  /** The path `process_image` returns for `filepath`. */
  function OutputPath(outputDir: string, filepath: string, makeSticker: bool): string {
    Join(outputDir, OutputName(Stem(Name(filepath)), makeSticker))
  }

  /** The directory `process_files` creates for a batch whose first file is `first`. */
  function OutputDir(first: string): string {
    Join(Dirname(first), OutputFolder)
  }

  /** A stem is part of its name, so it has no separator either. */
  lemma StemHasNoSep(name: string)
    requires Sep !in name
    ensures Sep !in Stem(name)
  {
    var i := LastIndexOf(name, '.');
    if 0 < i < |name| - 1 {
      forall j | 0 <= j < i ensures name[..i][j] != Sep {
        assert name[..i][j] == name[j];
      }
    }
  }

  /** The output directory is never empty, does not end in a separator, and is
      named `output`. */
  lemma OutputDirShape(first: string)
    ensures var d := OutputDir(first); d != [] && d[|d| - 1] != Sep && Name(d) == OutputFolder
  {
    NameOfJoin(Dirname(first), OutputFolder);
    NotAbsolute(OutputFolder);
    var d := OutputDir(first);
    assert d[|d| - |OutputFolder|..] == OutputFolder;
  }

  /** The result of `filepath` sits directly in `outputDir` under the name made of
      its stem and the mode's suffix. */
  lemma OutputPathParts(outputDir: string, filepath: string, makeSticker: bool)
    requires outputDir != [] && outputDir[|outputDir| - 1] != Sep
    ensures Name(OutputPath(outputDir, filepath, makeSticker)) == OutputName(Stem(Name(filepath)), makeSticker)
    ensures Dirname(OutputPath(outputDir, filepath, makeSticker)) == outputDir
  {
    var part := OutputName(Stem(Name(filepath)), makeSticker);
    StemHasNoSep(Name(filepath));
    assert Sep !in part;
    NameOfJoin(outputDir, part);
    DirnameOfJoin(outputDir, part);
  }

  /** The sticker of `photos/cat.jpg` in `photos/output` is `photos/output/cat_sticker.webp`. */
  lemma OutputPathExample()
    ensures OutputPath("photos/output", "photos/cat.jpg", true) == "photos/output" + [Sep] + "cat" + StickerSuffix
  {
    var fp := "photos/cat.jpg";
    assert Name(fp) == "cat.jpg" by {
      LastIndexOfAt(fp, Sep, 6);
    }
    assert Stem("cat.jpg") == "cat" by {
      LastIndexOfAt("cat.jpg", '.', 3);
    }
  }

  /** A batch starting with `photos/cat.jpg` writes to `photos/output`. */
  lemma OutputDirExample()
    ensures OutputDir("photos/cat.jpg") == "photos" + [Sep] + OutputFolder
  {
    var fp := "photos/cat.jpg";
    var head := fp[..7];
    assert Dirname(fp) == StripTrailingSeps(head) by {
      LastIndexOfAt(fp, Sep, 6);
      assert head[0] != Sep;
    }
    assert StripTrailingSeps(head) == StripTrailingSeps(head[..6]) == head[..6];
    assert head[..6] == "photos";
  }

  /** Every result of a batch lands in the directory the batch created. */
  lemma OutputPathInOutputDir(first: string, filepath: string, makeSticker: bool)
    ensures Dirname(OutputPath(OutputDir(first), filepath, makeSticker)) == OutputDir(first)
  {
    OutputDirShape(first);
    OutputPathParts(OutputDir(first), filepath, makeSticker);
  }

  /** Different stems or different modes never share an output name, so within one
      batch two results collide only when their inputs have the same stem. */
  lemma OutputNameInjective(a: string, b: string, stickerA: bool, stickerB: bool)
    requires OutputName(a, stickerA) == OutputName(b, stickerB)
    ensures a == b && stickerA == stickerB
  {
    var na := OutputName(a, stickerA);
    assert na[|na| - 1] == if stickerA then 'p' else 'g';
    assert na[|na| - 1] == if stickerB then 'p' else 'g';
    var suffix := if stickerA then StickerSuffix else ProcessedSuffix;
    assert a == na[..|na| - |suffix|];
    assert b == na[..|na| - |suffix|];
  }

  /** Taking the stem of an output name strips only the format extension, leaving
      the input stem with its `_sticker` or `_processed` marker. */
  lemma StemOfOutputName(stem: string, makeSticker: bool)
    ensures Stem(OutputName(stem, makeSticker)) == stem + if makeSticker then "_sticker" else "_processed"
  {
    var base := stem + if makeSticker then "_sticker" else "_processed";
    var ext := if makeSticker then ".webp" else ".png";
    var name := OutputName(stem, makeSticker);
    assert name == base + ext;
    var i := LastIndexOf(name, '.');
    assert name[|base|] == '.';
    assert forall j :: |base| < j < |name| ==> name[j] == ext[j - |base|];
    assert i == |base|;
    assert name[..i] == base;
  }
}
