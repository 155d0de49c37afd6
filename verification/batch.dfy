/**
 * The batch runner: decode four preprocessed variants of each image, keep
 * the distinct (data, type) pairs in first-seen order, fall back to a
 * high-contrast pass when none of them yields anything, write an annotated
 * copy only when the main passes found something, and collect the results
 * per path.
 */
module Batch {
  import opened Barcodes
  import Detection

  /**
   * `enhance_image_for_barcode`: the handler's three variants followed by
   * sharpening; the high-contrast pass is not among them.
   */
  function EnhanceImageForBarcode(): (variants: seq<Variant>)
    ensures |variants| == 4
    ensures variants[..3] == Detection.Methods && variants[3] == Sharpen
    ensures HighContrast !in variants && NoDuplicates(variants)
  {
    [Original, AdaptiveThreshold, GaussianBlur, Sharpen]
  }

  /** A box drawn around a symbol, with its label text and where the label goes. */
  datatype Annotation = Annotation(box: Rect, text: string, textX: int, textY: int)

  /** `max(y - 10, 10)`: the label sits 10 pixels above the box, but never above y = 10. */
  function LabelY(top: int): (y: int)
    ensures y >= 10 && y >= top - 10
    ensures y == 10 || y == top - 10
  {
    if top - 10 >= 10 then top - 10 else 10
  }

  function Annotate(b: Barcode): Annotation
  {
    Annotation(b.rect, b.data + " (" + b.kind + ")", b.rect.left, LabelY(b.rect.top))
  }

  /** The annotations drawn for `bs`, one per symbol, in order. */
  function AnnotateAll(bs: seq<Barcode>): seq<Annotation>
  {
    seq(|bs|, k requires 0 <= k < |bs| => Annotate(bs[k]))
  }

  lemma AnnotateAllAppend(a: seq<Barcode>, b: seq<Barcode>)
    ensures AnnotateAll(a + b) == AnnotateAll(a) + AnnotateAll(b)
  {
  }

  /** The key of every symbol in `bs`, in order, repeats kept. */
  function Keys(bs: seq<Barcode>): (keys: seq<Candidate>)
    ensures |keys| == |bs| && forall k :: 0 <= k < |bs| ==> keys[k] == bs[k].Key()
  {
    seq(|bs|, k requires 0 <= k < |bs| => bs[k].Key())
  }

  /** Some variant of the main passes yields at least one symbol. */
  ghost predicate AnyVariantDecodes(image: Image)
  {
    exists v :: v in EnhanceImageForBarcode() && image.decode(v) != []
  }

  /**
   * The list `detect_and_decode_barcode` returns: None for an unreadable
   * image; otherwise the distinct keys of the main passes in first-seen
   * order, or, when those found nothing, every key of the high-contrast pass.
   */
  function BatchResult(image: Option<Image>): Option<seq<Candidate>>
  {
    if image.None? then None
    else
      var main := Stream(image.value, EnhanceImageForBarcode());
      Some(FirstSeen(main) + if main == [] then Keys(image.value.decode(HighContrast)) else [])
  }

  lemma {:induction false} StreamEmpty(image: Image, variants: seq<Variant>)
    ensures Stream(image, variants) == [] <==> forall v :: v in variants ==> image.decode(v) == []
    decreases |variants|
  {
    if variants != [] {
      var n := |variants| - 1;
      StreamEmpty(image, variants[..n]);
      assert variants == variants[..n] + [variants[n]];
    }
  }

  lemma RecordStep(seen: seq<Barcode>, b: Barcode, all: seq<Candidate>, annotations: seq<Annotation>)
    requires all == FirstSeen(seen) && annotations == AnnotateAll(seen)
    ensures (if b.Key() in all then all else all + [b.Key()]) == FirstSeen(seen + [b])
    ensures annotations + [Annotate(b)] == AnnotateAll(seen + [b])
  {
    SnocFirstSeen(seen, b);
    AnnotateAllAppend(seen, [b]);
  }

  /**
   * The loop over the symbols one variant reports: a key not yet listed is
   * appended, and every symbol gets a box and a label.
   */
  method RecordSymbols(ghost before: seq<Barcode>, decoded: seq<Barcode>, all0: seq<Candidate>,
                       annotations0: seq<Annotation>)
    returns (all: seq<Candidate>, annotations: seq<Annotation>)
    requires all0 == FirstSeen(before) && annotations0 == AnnotateAll(before)
    ensures all == FirstSeen(before + decoded)
    ensures annotations == AnnotateAll(before + decoded)
  {
    all, annotations := all0, annotations0;
    ghost var seen := before;
    for j := 0 to |decoded|
      invariant seen == before + decoded[..j]
      invariant all == FirstSeen(seen)
      invariant annotations == AnnotateAll(seen)
    {
      var barcode := decoded[j];
      RecordStep(seen, barcode, all, annotations);
      if barcode.Key() !in all {
        all := all + [barcode.Key()];
      }
      annotations := annotations + [Annotate(barcode)];
      PrefixSnoc(before, decoded, j);
      seen := seen + [barcode];
    }
    assert decoded[..|decoded|] == decoded;
  }

  /**
   * The main passes of `detect_and_decode_barcode`: `found` is set by the
   * first variant that reports anything, `all` collects each key once in
   * first-seen order, and every reported symbol is annotated.
   */
  method MainPasses(picture: Image, variants: seq<Variant>)
    returns (found: bool, all: seq<Candidate>, annotations: seq<Annotation>)
    ensures found <==> exists v :: v in variants && picture.decode(v) != []
    ensures all == FirstSeen(Stream(picture, variants))
    ensures annotations == AnnotateAll(Stream(picture, variants))
  {
    found, all, annotations := false, [], [];
    ghost var seen: seq<Barcode> := [];
    for i := 0 to |variants|
      invariant seen == Stream(picture, variants[..i])
      invariant found <==> seen != []
      invariant all == FirstSeen(seen)
      invariant annotations == AnnotateAll(seen)
    {
      var decoded := picture.decode(variants[i]);
      if decoded != [] {
        found := true;
        all, annotations := RecordSymbols(seen, decoded, all, annotations);
      } else {
        assert seen + decoded == seen;
      }
      seen := seen + decoded;
      StreamSnoc(picture, variants, i);
    }
    assert variants[..|variants|] == variants;
    StreamEmpty(picture, variants);
  }

  /**
   * `detect_and_decode_barcode`. `image` is what reading the file gave
   * (None when it could not be read); `saved` says whether the annotated
   * copy was written.
   */
  method DetectAndDecodeBarcode(image: Option<Image>, saveResult: bool)
    returns (barcodes: Option<seq<Candidate>>, annotations: seq<Annotation>, saved: bool)
    ensures barcodes == BatchResult(image)
    ensures saved <==> saveResult && image.Some? && AnyVariantDecodes(image.value)
    ensures image.None? ==> annotations == []
    ensures image.Some? ==> annotations == AnnotateAll(Stream(image.value, EnhanceImageForBarcode()))
  {
    if image.None? {
      return None, [], false;
    }
    var picture := image.value;
    var found, all;
    found, all, annotations := MainPasses(picture, EnhanceImageForBarcode());
    StreamEmpty(picture, EnhanceImageForBarcode());
    if found {
      assert all + [] == all;
    } else {
      var decoded := picture.decode(HighContrast);
      assert all == [];
      if decoded != [] {
        for j := 0 to |decoded|
          invariant |all| == j
          invariant forall k :: 0 <= k < j ==> all[k] == decoded[k].Key()
        {
          all := all + [decoded[j].Key()];
        }
      }
      assert all == [] + Keys(decoded);
    }
    barcodes := Some(all);
    saved := saveResult && found;
  }

  ghost function PathsBefore(paths: seq<string>, n: nat): set<string>
    requires n <= |paths|
  {
    set k | 0 <= k < n :: paths[k]
  }

  lemma PathsBeforeSnoc(paths: seq<string>, i: nat)
    requires i < |paths|
    ensures PathsBefore(paths, i + 1) == PathsBefore(paths, i) + {paths[i]}
  {
  }

  /** `process_multiple_images`' view of path `k`: no later entry repeats it. */
  ghost predicate LastOccurrence(paths: seq<string>, k: nat, n: nat)
  {
    forall m :: k < m < n && m < |paths| ==> paths[m] != paths[k]
  }

  /**
   * `process_multiple_images`. `images[k]` is what reading `paths[k]` gave on
   * the k-th call. Every path is a key, and a repeated path keeps the result
   * of its last occurrence.
   */
  method ProcessMultipleImages(paths: seq<string>, images: seq<Option<Image>>)
    returns (results: map<string, Option<seq<Candidate>>>)
    requires |images| == |paths|
    ensures results.Keys == PathsBefore(paths, |paths|)
    ensures forall k :: 0 <= k < |paths| && LastOccurrence(paths, k, |paths|) ==>
                          results[paths[k]] == BatchResult(images[k])
  {
    results := map[];
    ghost var expected := seq(|images|, k requires 0 <= k < |images| => BatchResult(images[k]));
    for i := 0 to |paths|
      invariant results.Keys == PathsBefore(paths, i)
      invariant forall k :: 0 <= k < i && LastOccurrence(paths, k, i) ==> paths[k] in results && results[paths[k]] == expected[k]
    {
      var barcodes, _, _ := DetectAndDecodeBarcode(images[i], true);
      PathsBeforeSnoc(paths, i);
      KeepLastStep(paths, expected, results, i, barcodes);
      results := results[paths[i] := barcodes];
    }
  }

  lemma KeepLastStep<V>(paths: seq<string>, values: seq<V>, results: map<string, V>, i: nat, v: V)
    requires i < |paths| == |values| && v == values[i]
    requires forall k :: 0 <= k < i && LastOccurrence(paths, k, i) ==> paths[k] in results && results[paths[k]] == values[k]
    ensures forall k :: 0 <= k < i + 1 && LastOccurrence(paths, k, i + 1) ==>
                          paths[k] in results[paths[i] := v] && results[paths[i] := v][paths[k]] == values[k]
  {
    forall k | 0 <= k < i + 1 && LastOccurrence(paths, k, i + 1)
      ensures paths[k] in results[paths[i] := v] && results[paths[i] := v][paths[k]] == values[k]
    {
      if k < i {
        assert paths[i] != paths[k];
        assert LastOccurrence(paths, k, i);
      }
    }
  }

  /**
   * When the main passes find something, the result holds each key once,
   * exactly the keys they reported, in order of first appearance.
   */
  lemma MainPassesDeduplicate(image: Image)
    requires AnyVariantDecodes(image)
    ensures var main := Stream(image, EnhanceImageForBarcode());
            var keys := BatchResult(Some(image)).value;
            && NoDuplicates(keys)
            && (forall c :: c in keys <==> Count(main, c) > 0)
            && (forall i, k :: 0 <= i < k < |keys| ==> FirstPos(main, keys[i]) < FirstPos(main, keys[k]))
  {
    var main := Stream(image, EnhanceImageForBarcode());
    StreamEmpty(image, EnhanceImageForBarcode());
    assert BatchResult(Some(image)).value == FirstSeen(main);
    forall i, k | 0 <= i < k < |FirstSeen(main)|
      ensures FirstPos(main, FirstSeen(main)[i]) < FirstPos(main, FirstSeen(main)[k])
    {
      FirstSeenOrder(main, i, k);
    }
  }

  /**
   * When the main passes find nothing, the result is every key the
   * high-contrast pass reported, in order, duplicates included.
   */
  lemma FallbackKeepsEveryReport(image: Image)
    requires !AnyVariantDecodes(image)
    ensures var keys := BatchResult(Some(image)).value;
            var extra := image.decode(HighContrast);
            |keys| == |extra| && forall k :: 0 <= k < |keys| ==> keys[k] == extra[k].Key()
  {
    StreamEmpty(image, EnhanceImageForBarcode());
  }

  /** A symbol the high-contrast pass reports twice appears twice in the result. */
  lemma FallbackRepeats(image: Image, b: Barcode)
    requires forall v :: v in EnhanceImageForBarcode() ==> image.decode(v) == []
    requires image.decode(HighContrast) == [b, b]
    ensures BatchResult(Some(image)) == Some([b.Key(), b.Key()])
  {
    StreamEmpty(image, EnhanceImageForBarcode());
    assert Keys([b, b]) == [b.Key(), b.Key()];
    assert FirstSeen([]) + [b.Key(), b.Key()] == [b.Key(), b.Key()];
  }
}
