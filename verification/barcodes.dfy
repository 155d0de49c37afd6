/**
 * Values shared by both entry points: what the barcode decoder reports for
 * one preprocessed variant of an image, the (data, type) key both entry
 * points group on, and the sequence functions that describe counting and
 * first-seen order over the concatenated decoder output.
 */
module Barcodes {

  datatype Option<+T> = None | Some(value: T)

  /** Bounding rectangle the decoder reports for a symbol, in pixels. */
  datatype Rect = Rect(left: int, top: int, width: int, height: int)

  /** The (decoded text, symbology) pair used as a dictionary key. */
  datatype Candidate = Candidate(data: string, kind: string)

  /** One decoded symbol: its UTF-8 text, its symbology and where it was found. */
  datatype Barcode = Barcode(data: string, kind: string, rect: Rect)
  {
    function Key(): Candidate
    {
      Candidate(data, kind)
    }
  }

  /** The named image transforms the decoder is run on. */
  datatype Variant = Original | AdaptiveThreshold | GaussianBlur | Sharpen | HighContrast

  /**
   * A readable image, known to the model only through what the decoder
   * returns for each preprocessed variant of it.
   */
  datatype Image = Image(decode: Variant -> seq<Barcode>)

  /** Decoder output of every variant in `variants`, concatenated in order. */
  function Stream(image: Image, variants: seq<Variant>): seq<Barcode>
  {
    if variants == [] then []
    else Stream(image, variants[..|variants| - 1]) + image.decode(variants[|variants| - 1])
  }

  lemma StreamSnoc(image: Image, variants: seq<Variant>, i: nat)
    requires i < |variants|
    ensures Stream(image, variants[..i + 1]) == Stream(image, variants[..i]) + image.decode(variants[i])
  {
    assert variants[..i + 1][..i] == variants[..i];
  }

  lemma PrefixSnoc<T>(before: seq<T>, s: seq<T>, j: nat)
    requires j < |s|
    ensures before + s[..j + 1] == (before + s[..j]) + [s[j]]
  {
    assert s[..j + 1] == s[..j] + [s[j]];
  }

  /** Number of symbols in `bs` whose key is `c`. */
  function Count(bs: seq<Barcode>, c: Candidate): (n: nat)
    ensures n <= |bs|
    ensures n == 0 <==> forall j :: 0 <= j < |bs| ==> bs[j].Key() != c
  {
    if bs == [] then 0
    else Count(bs[..|bs| - 1], c) + (if bs[|bs| - 1].Key() == c then 1 else 0)
  }

  /** The distinct keys of `bs`, each once, in order of first appearance. */
  function FirstSeen(bs: seq<Barcode>): (keys: seq<Candidate>)
    ensures forall c :: c in keys <==> Count(bs, c) > 0
    ensures NoDuplicates(keys)
  {
    if bs == [] then []
    else
      var earlier := FirstSeen(bs[..|bs| - 1]);
      var c := bs[|bs| - 1].Key();
      if c in earlier then earlier else earlier + [c]
  }

  /** Index of the first symbol in `bs` whose key is `c`. */
  function FirstPos(bs: seq<Barcode>, c: Candidate): (p: nat)
    requires Count(bs, c) > 0
    ensures p < |bs| && bs[p].Key() == c
    ensures forall j :: 0 <= j < p ==> bs[j].Key() != c
  {
    if Count(bs[..|bs| - 1], c) > 0 then FirstPos(bs[..|bs| - 1], c) else |bs| - 1
  }

  ghost predicate NoDuplicates<T>(s: seq<T>)
  {
    forall i, j :: 0 <= i < j < |s| ==> s[i] != s[j]
  }

  /** No key occurs twice in one decoder result. */
  ghost predicate NoRepeatedKeys(bs: seq<Barcode>)
  {
    forall i, j :: 0 <= i < j < |bs| ==> bs[i].Key() != bs[j].Key()
  }

  /** How Count changes when one symbol is appended. */
  lemma SnocCount(bs: seq<Barcode>, b: Barcode, c: Candidate)
    ensures Count(bs + [b], c) == Count(bs, c) + (if b.Key() == c then 1 else 0)
  {
    assert (bs + [b])[..|bs|] == bs;
  }

  /** How FirstPos changes when one symbol is appended. */
  lemma SnocFirstPos(bs: seq<Barcode>, b: Barcode, c: Candidate)
    ensures Count(bs, c) > 0 ==> FirstPos(bs + [b], c) == FirstPos(bs, c)
    ensures Count(bs, c) == 0 && b.Key() == c ==> FirstPos(bs + [b], c) == |bs|
  {
    SnocCount(bs, b, c);
    assert (bs + [b])[..|bs|] == bs;
  }

  /** How FirstSeen changes when one symbol is appended. */
  lemma SnocFirstSeen(bs: seq<Barcode>, b: Barcode)
    ensures FirstSeen(bs + [b]) == if b.Key() in FirstSeen(bs) then FirstSeen(bs) else FirstSeen(bs) + [b.Key()]
  {
    assert (bs + [b])[..|bs|] == bs;
  }

  lemma {:induction false} CountAppend(a: seq<Barcode>, b: seq<Barcode>, c: Candidate)
    ensures Count(a + b, c) == Count(a, c) + Count(b, c)
    decreases |b|
  {
    if b == [] {
      assert a + b == a;
    } else {
      var init := b[..|b| - 1];
      var last := b[|b| - 1];
      CountAppend(a, init, c);
      assert a + b == (a + init) + [last];
      assert b == init + [last];
      SnocCount(a + init, last, c);
      SnocCount(init, last, c);
    }
  }

  /** A result without repeated keys holds each key at most once. */
  lemma {:induction false} CountAtMostOne(bs: seq<Barcode>, c: Candidate)
    requires NoRepeatedKeys(bs)
    ensures Count(bs, c) <= 1
    decreases |bs|
  {
    if bs != [] {
      var init := bs[..|bs| - 1];
      assert NoRepeatedKeys(init);
      CountAtMostOne(init, c);
    }
  }

  /**
   * FirstSeen lists keys in the order of their first position: a key
   * listed earlier first occurs strictly earlier in the stream.
   */
  lemma {:induction false} FirstSeenOrder(bs: seq<Barcode>, i: nat, k: nat)
    requires i < k < |FirstSeen(bs)|
    ensures FirstPos(bs, FirstSeen(bs)[i]) < FirstPos(bs, FirstSeen(bs)[k])
    decreases |bs|
  {
    var init := bs[..|bs| - 1];
    var last := bs[|bs| - 1];
    assert bs == init + [last];
    SnocFirstSeen(init, last);
    var keys := FirstSeen(bs);
    SnocCount(init, last, keys[i]);
    SnocCount(init, last, keys[k]);
    SnocFirstPos(init, last, keys[i]);
    SnocFirstPos(init, last, keys[k]);
    if last.Key() in FirstSeen(init) || k < |FirstSeen(init)| {
      FirstSeenOrder(init, i, k);
    } else {
      assert keys[i] in FirstSeen(init);
    }
  }

  /**
   * Every symbol before the first occurrence of the key listed at `w` has a
   * key listed before `w`.
   */
  lemma EarlierSymbolEarlierKey(bs: seq<Barcode>, w: nat, j: nat)
    requires w < |FirstSeen(bs)|
    requires j < FirstPos(bs, FirstSeen(bs)[w])
    ensures exists i :: 0 <= i < w && FirstSeen(bs)[i] == bs[j].Key()
  {
    var keys := FirstSeen(bs);
    var c := bs[j].Key();
    assert Count(bs, c) > 0;
    var i :| 0 <= i < |keys| && keys[i] == c;
    if i > w {
      FirstSeenOrder(bs, w, i);
    }
  }
}
