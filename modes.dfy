/**
 * The output-type combobox: its four labels and the two flags `process_image`
 * derives from the chosen label by substring tests.
 */
module Modes {
  import opened Text

  const StickerRemoveLabel: string := "Telegram Sticker (remove background)"
  const StickerKeepLabel: string := "Telegram Sticker (keep background)"
  const PngRemoveLabel: string := "PNG (remove background only)"
  const PngKeepLabel: string := "PNG (keep original)"

  /** The combobox values in display order; the first one is selected at start-up. */
  const Labels: seq<string> := [StickerRemoveLabel, StickerKeepLabel, PngRemoveLabel, PngKeepLabel]

  const RemoveBackgroundMarker: string := "remove background"
  const StickerMarker: string := "Sticker"

  /** The two independent choices a label stands for. */
  datatype Mode = Mode(removeBg: bool, makeSticker: bool)

  /** `remove_bg = "remove background" in output_type`,
      `make_sticker = "Sticker" in output_type`. */
  function DecodeMode(outputType: string): Mode {
    Mode(Contains(outputType, RemoveBackgroundMarker), Contains(outputType, StickerMarker))
  }

  /** "Telegram Sticker (remove background)" asks for both background removal and a sticker. */
  lemma DecodeStickerRemove()
    ensures DecodeMode(StickerRemoveLabel) == Mode(true, true)
  {
    ContainsAtEach(StickerRemoveLabel, RemoveBackgroundMarker, 18);
    ContainsAtEach(StickerRemoveLabel, StickerMarker, 9);
  }

  /** "Telegram Sticker (keep background)" asks for a sticker only. Like every label
      without "remove background", it has no 'v' (that marker's fifth character). */
  lemma DecodeStickerKeep()
    ensures DecodeMode(StickerKeepLabel) == Mode(false, true)
  {
    ContainsAtEach(StickerKeepLabel, StickerMarker, 9);
    LacksChar(StickerKeepLabel, RemoveBackgroundMarker, 4);
  }

  /** "PNG (remove background only)" asks for background removal only. Like every
      label without "Sticker", it has no 'S'. */
  lemma DecodePngRemove()
    ensures DecodeMode(PngRemoveLabel) == Mode(true, false)
  {
    ContainsAtEach(PngRemoveLabel, RemoveBackgroundMarker, 5);
    LacksChar(PngRemoveLabel, StickerMarker, 0);
  }

  /** "PNG (keep original)" asks for neither. */
  lemma DecodePngKeep()
    ensures DecodeMode(PngKeepLabel) == Mode(false, false)
  {
    LacksChar(PngKeepLabel, RemoveBackgroundMarker, 4);
    LacksChar(PngKeepLabel, StickerMarker, 0);
  }

  /** The flag pairs the combobox offers, in label order. */
  function OfferedModes(): seq<Mode> {
    seq(|Labels|, i requires 0 <= i < |Labels| => DecodeMode(Labels[i]))
  }

  /** The four labels stand for four different flag pairs, and every pair is offered:
      decoding is a bijection from the labels onto the modes. */
  lemma LabelsDecodeBijectively()
    ensures |OfferedModes()| == |Labels|
    ensures forall i, j :: 0 <= i < j < |Labels| ==> OfferedModes()[i] != OfferedModes()[j]
    ensures forall m: Mode :: m in OfferedModes()
  {
    DecodeStickerRemove();
    DecodeStickerKeep();
    DecodePngRemove();
    DecodePngKeep();
    var offered := OfferedModes();
    assert offered == [Mode(true, true), Mode(false, true), Mode(true, false), Mode(false, false)];
    forall m: Mode ensures m in offered {
      var i := if m.removeBg then (if m.makeSticker then 0 else 2) else (if m.makeSticker then 1 else 3);
      assert offered[i] == m;
    }
  }
}
