/**
 * The values `render` derives from the state (source/Controlled.tsx:45-47, 208-226,
 * 256-258); the render tree itself is not modelled.
 */
module Render {
  import opened ZoomModel

  /** `isModalActive`: the modal is opening or open, that is, in neither closed phase. */
  function IsModalActive(m: ModalState): (r: bool)
    ensures r <==> m != Unloaded && m != Unloading
  {
    m == Loading || m == Loaded
  }

  /** `dataOverlayState == "hidden"`. */
  predicate OverlayHidden(m: ModalState)
  {
    m == Unloaded || m == Unloading
  }

  /** `data-rmiz-modal-overlay`: "hidden" or "visible". */
  function OverlayState(m: ModalState): (r: string)
    ensures r == "hidden" || r == "visible"
    ensures r == "hidden" <==> OverlayHidden(m)
  {
    if OverlayHidden(m) then "hidden" else "visible"
  }

  /** `styleContent.visibility`: the inline content shows only while UNLOADED. */
  function ContentVisibility(m: ModalState): (r: string)
    ensures r == "visible" || r == "hidden"
    ensures r == "visible" <==> m == Unloaded
  {
    if m == Unloaded then "visible" else "hidden"
  }

  /**
   * `labelBtnZoom`: the button name, followed by ": " and the alt text when there is
   * one; without alt text the label is the name alone.
   */
  function LabelBtnZoom(name: string, alt: string): (r: string)
    ensures |r| >= |name| && r[..|name|] == name
    ensures alt == "" ==> r == name
    ensures alt != "" ==> |r| == |name| + 2 + |alt| && r[|name|..] == ": " + alt
  {
    if alt != "" then name + ": " + alt else name
  }

  /**
   * Whether the `zoomImg` attributes are spread onto the modal image: never before the
   * zoom image has loaded, and never outside LOADED.
   */
  function ZoomImgApplied(isZoomImgLoaded: bool, m: ModalState): (r: bool)
    ensures r ==> IsModalActive(m) && m != Loading
    ensures !isZoomImgLoaded ==> !r
    ensures isZoomImgLoaded ==> (r <==> m == Loaded)
  {
    isZoomImgLoaded && m == Loaded
  }

  /**
   * `parts.map(f).join(sep)` where `f` appends `suffix` to every part: empty for no
   * parts, and otherwise at least as long as the first suffixed part (the lemmas below
   * say where every part sits and that nothing trails the last one).
   */
  function JoinSuffixed(parts: seq<string>, suffix: string, sep: string): (r: string)
    ensures parts == [] ==> r == ""
    ensures parts != [] ==> |parts[0]| + |suffix| <= |r|
    decreases |parts|
  {
    if parts == [] then ""
    else if |parts| == 1 then parts[0] + suffix
    else parts[0] + suffix + sep + JoinSuffixed(parts[1..], suffix, sep)
  }

  /** Where the `i`-th suffixed part starts in `JoinSuffixed(parts, suffix, sep)`. */
  function PartOffset(parts: seq<string>, suffix: string, sep: string, i: nat): nat
    requires i < |parts|
    decreases i
  {
    if i == 0 then 0 else |parts[0]| + |suffix| + |sep| + PartOffset(parts[1..], suffix, sep, i - 1)
  }

  const ImageSelectors: seq<string> := ["img", "svg", "[role=\"img\"]", "[data-zoom]"]
  const NotAriaHidden: string := ":not([aria-hidden=\"true\"])"

  /** `IMAGE_QUERY`: the selector that finds the image to track, 136 characters long. */
  function ImageQuery(): (r: string)
    ensures |r| == 136
  {
    JoinSuffixedLength(ImageSelectors, NotAriaHidden, ",");
    JoinSuffixed(ImageSelectors, NotAriaHidden, ",")
  }

  // ---------------------------------------------------------------------------
  // Properties of the derivations

  /** Reads the alt text back out of a zoom button label for the given button name. */
  function AltFromLabel(name: string, text: string): string
  {
    if |text| > |name| + 2 then text[|name| + 2..] else ""
  }

  /** The alt text can be read back from the label: building the label loses nothing. */
  lemma LabelBtnZoomRecoversAlt(name: string, alt: string)
    ensures AltFromLabel(name, LabelBtnZoom(name, alt)) == alt
  {
    var r := LabelBtnZoom(name, alt);
    if alt != "" {
      assert r[|name| + 2..] == (r[|name|..])[2..];
    }
  }

  /**
   * In `parts.map(f).join(sep)` every part appears followed by the suffix, at its
   * offset, and every part but the last is then followed by the separator.
   */
  lemma {:induction false} JoinSuffixedHoldsEveryPart(parts: seq<string>, suffix: string, sep: string, i: nat)
    requires i < |parts|
    ensures var r := JoinSuffixed(parts, suffix, sep);
      var k := PartOffset(parts, suffix, sep, i);
      var n := |parts[i]| + |suffix|;
      && k + n <= |r| && r[k..k + n] == parts[i] + suffix
      && (i + 1 < |parts| ==> k + n + |sep| <= |r| && r[k + n..k + n + |sep|] == sep)
    decreases i
  {
    var r := JoinSuffixed(parts, suffix, sep);
    var head := parts[0] + suffix;
    if |parts| == 1 {
      assert r == head;
    } else {
      var rest := JoinSuffixed(parts[1..], suffix, sep);
      if i == 0 {
        JoinSuffixedHead(parts, suffix, sep);
      } else {
        assert r == (head + sep) + rest;
        JoinSuffixedHoldsEveryPart(parts[1..], suffix, sep, i - 1);
        assert parts[1..][i - 1] == parts[i];
        var k := PartOffset(parts[1..], suffix, sep, i - 1);
        var n := |parts[i]| + |suffix|;
        SliceOfAppend(head + sep, rest, k, k + n);
        if i + 1 < |parts| {
          SliceOfAppend(head + sep, rest, k + n, k + n + |sep|);
        }
      }
    }
  }

  /** The join ends exactly where the last suffixed part ends: nothing trails it. */
  lemma {:induction false} JoinSuffixedLength(parts: seq<string>, suffix: string, sep: string)
    requires parts != []
    ensures |JoinSuffixed(parts, suffix, sep)|
              == PartOffset(parts, suffix, sep, |parts| - 1) + |parts[|parts| - 1]| + |suffix|
    decreases |parts|
  {
    if 1 < |parts| {
      JoinSuffixedLength(parts[1..], suffix, sep);
      assert parts[1..][|parts| - 2] == parts[|parts| - 1];
    }
  }

  /** The first suffixed part opens the join, and the separator follows it when more parts come. */
  lemma JoinSuffixedHead(parts: seq<string>, suffix: string, sep: string)
    requires 1 < |parts|
    ensures var r := JoinSuffixed(parts, suffix, sep);
      var n := |parts[0]| + |suffix|;
      && n + |sep| <= |r| && r[0..n] == parts[0] + suffix && r[n..n + |sep|] == sep
  {
    var head := parts[0] + suffix;
    var rest := JoinSuffixed(parts[1..], suffix, sep);
    assert JoinSuffixed(parts, suffix, sep) == head + (sep + rest);
    PrefixOfAppend(head, sep + rest);
    SliceOfAppend(head, sep + rest, 0, |sep|);
    PrefixOfAppend(sep, rest);
  }

  lemma PrefixOfAppend(a: string, b: string)
    ensures (a + b)[0..|a|] == a
  {
  }

  lemma SliceOfAppend(a: string, b: string, i: nat, j: nat)
    requires i <= j <= |b|
    ensures (a + b)[|a| + i..|a| + j] == b[i..j]
  {
  }

  /**
   * `IMAGE_QUERY` names each of the four image selectors, each restricted by the
   * `:not([aria-hidden="true"])` suffix, and separates them by commas.
   */
  lemma ImageQueryCoversEverySelector(i: nat)
    requires i < |ImageSelectors|
    ensures var q := ImageQuery();
      var k := PartOffset(ImageSelectors, NotAriaHidden, ",", i);
      var n := |ImageSelectors[i]| + |NotAriaHidden|;
      && k + n <= |q| && q[k..k + n] == ImageSelectors[i] + NotAriaHidden
      && (i + 1 < |ImageSelectors| ==> k + n + 1 <= |q| && q[k + n..k + n + 1] == ",")
      && (i + 1 == |ImageSelectors| ==> |q| == k + n)
  {
    JoinSuffixedHoldsEveryPart(ImageSelectors, NotAriaHidden, ",", i);
    JoinSuffixedLength(ImageSelectors, NotAriaHidden, ",");
  }

  /**
   * The four phases split cleanly: the overlay is hidden exactly when the modal is not
   * active, the inline content only shows when the overlay is hidden, and the `zoomImg`
   * attributes only apply while the modal is active.
   */
  lemma DerivationsAgree(m: ModalState, isZoomImgLoaded: bool)
    ensures OverlayHidden(m) <==> !IsModalActive(m)
    ensures ContentVisibility(m) == "visible" ==> OverlayState(m) == "hidden"
    ensures ZoomImgApplied(isZoomImgLoaded, m) ==> IsModalActive(m) && OverlayState(m) == "visible"
  {
  }
}
