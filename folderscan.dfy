/**
 * How `select_folder` builds a batch: the files found for each image pattern,
 * in pattern order, minus the results of earlier runs (names containing
 * `_sticker` or `_processed`), in their original order.
 */
module FolderScan {
  import opened Text
  import opened Paths
  import opened Naming

  /** The glob patterns, in the order their matches are collected. */
  const ImagePatterns: seq<string> := ["*.png", "*.jpg", "*.jpeg", "*.webp", "*.bmp"]

  const StickerTag: string := "_sticker"
  const ProcessedTag: string := "_processed"

  /** A file is kept unless its name marks it as an earlier result. */
  predicate Keep(path: string) {
    !Contains(Name(path), StickerTag) && !Contains(Name(path), ProcessedTag)
  }

  /** The files of all patterns, one pattern's matches after another's. */
  function Collect(matches: seq<seq<string>>): (r: seq<string>)
    ensures forall k, p :: 0 <= k < |matches| && p in matches[k] ==> p in r
    ensures forall p :: p in r ==> exists k :: 0 <= k < |matches| && p in matches[k]
  {
    if matches == [] then [] else Collect(matches[..|matches| - 1]) + matches[|matches| - 1]
  }

  /** The matches of consecutive groups of patterns stay in blocks, group after
      group; with `Collect([m]) == m`, each pattern's matches are one block, in
      pattern order, each listed as often as `glob` listed it. */
  lemma {:induction false} CollectAppend(a: seq<seq<string>>, b: seq<seq<string>>)
    ensures Collect(a + b) == Collect(a) + Collect(b)
    decreases |b|
  {
    if b == [] {
      assert a + b == a;
    } else {
      var n := |b| - 1;
      assert (a + b)[..|a + b| - 1] == a + b[..n];
      CollectAppend(a, b[..n]);
    }
  }

  /** The list comprehension of `select_folder`: the kept files, in order. */
  function KeepUnprocessed(paths: seq<string>): (r: seq<string>)
    ensures |r| <= |paths|
    ensures forall p :: p in r <==> p in paths && Keep(p)
  {
    if paths == [] then []
    else (if Keep(paths[0]) then [paths[0]] else []) + KeepUnprocessed(paths[1..])
  }

  /** Filtering a concatenation filters each part. */
  lemma {:induction false} KeepUnprocessedAppend(a: seq<string>, b: seq<string>)
    ensures KeepUnprocessed(a + b) == KeepUnprocessed(a) + KeepUnprocessed(b)
    decreases |a|
  {
    if a == [] {
      assert a + b == b;
    } else {
      assert (a + b)[1..] == a[1..] + b;
      KeepUnprocessedAppend(a[1..], b);
    }
  }

  /** Each kept path appears as often as it was collected, and each dropped one not at all. */
  lemma {:induction false} KeepUnprocessedCounts(paths: seq<string>)
    ensures forall p :: multiset(KeepUnprocessed(paths))[p] == if Keep(p) then multiset(paths)[p] else 0
    decreases |paths|
  {
    if paths != [] {
      KeepUnprocessedCounts(paths[1..]);
      assert paths == [paths[0]] + paths[1..];
      assert multiset(paths) == multiset([paths[0]]) + multiset(paths[1..]);
    }
  }

  /** `r` can be obtained from `s` by deleting elements, without reordering. */
  predicate IsSubsequence(r: seq<string>, s: seq<string>)
    decreases |s|
  {
    r == [] ||
    (s != [] && ((r[0] == s[0] && IsSubsequence(r[1..], s[1..])) || IsSubsequence(r, s[1..])))
  }

  /** The kept files are an order-preserving subsequence of the collected ones. */
  lemma {:induction false} KeptInOrder(paths: seq<string>)
    ensures IsSubsequence(KeepUnprocessed(paths), paths)
    decreases |paths|
  {
    if paths != [] {
      KeptInOrder(paths[1..]);
      var r := KeepUnprocessed(paths);
      if Keep(paths[0]) {
        assert r[0] == paths[0] && r[1..] == KeepUnprocessed(paths[1..]);
      } else {
        assert r == KeepUnprocessed(paths[1..]);
      }
    }
  }

  /** Results of an earlier run are never taken up again: whatever directory they
      were written to, their names carry a marker that the filter drops. */
  lemma GeneratedOutputsDropped(outputDir: string, filepath: string, makeSticker: bool)
    ensures !Keep(OutputPath(outputDir, filepath, makeSticker))
  {
    var stem := Stem(Name(filepath));
    var name := OutputName(stem, makeSticker);
    StemHasNoSep(Name(filepath));
    NameOfJoin(outputDir, name);
    if makeSticker {
      ContainsAtEach(name, StickerTag, |stem|);
    } else {
      ContainsAtEach(name, ProcessedTag, |stem|);
    }
  }
}
