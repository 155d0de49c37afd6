/**
 * The request handler's detection engine (`detect_barcode`): decode three
 * preprocessed variants, count every (data, type) key in an insertion-ordered
 * dictionary, and return the most frequent key, ties going to the key that
 * was inserted first, with confidence hits / number of variants.
 */
module Detection {
  import opened Barcodes

  /** The variants `detect_barcode` decodes, in its order of reliability. */
  const Methods: seq<Variant> := [Original, AdaptiveThreshold, GaussianBlur]

  /** The winning key with its confidence kept as the exact fraction hits / total. */
  datatype BarcodeResult = BarcodeResult(data: string, kind: string, hits: nat, total: nat)
  {
    function Key(): Candidate
    {
      Candidate(data, kind)
    }
  }

  /** `counts` holds, for every key reported in `seen` and no other, its number of occurrences. */
  ghost predicate CountsOf(seen: seq<Barcode>, counts: map<Candidate, nat>)
  {
    && (forall c :: c in counts <==> Count(seen, c) > 0)
    && (forall c :: c in counts ==> counts[c] == Count(seen, c))
  }

  /** `objects` holds, for every key reported in `seen` and no other, its first symbol. */
  ghost predicate FirstObjectsOf(seen: seq<Barcode>, objects: map<Candidate, Barcode>)
  {
    && (forall c :: c in objects <==> Count(seen, c) > 0)
    && (forall c :: c in objects ==> objects[c] == seen[FirstPos(seen, c)])
  }

  /**
   * The tally after reading the symbols `seen`: `order` is the insertion
   * order of the counting dictionary, `counts` its contents, `objects` the
   * first symbol stored under each key.
   */
  ghost predicate TallyOf(seen: seq<Barcode>, order: seq<Candidate>, counts: map<Candidate, nat>,
                          objects: map<Candidate, Barcode>)
  {
    order == FirstSeen(seen) && CountsOf(seen, counts) && FirstObjectsOf(seen, objects)
  }

  /**
   * `c` is the plurality key of `seen` under first-seen tie-breaking: it
   * occurs, no key occurs more often, and every symbol before its first
   * occurrence carries a key that occurs strictly less often.
   */
  ghost predicate Wins(seen: seq<Barcode>, c: Candidate)
  {
    && Count(seen, c) > 0
    && (forall j :: 0 <= j < |seen| ==> Count(seen, seen[j].Key()) <= Count(seen, c))
    && (forall j :: 0 <= j < FirstPos(seen, c) ==> Count(seen, seen[j].Key()) < Count(seen, c))
  }

  /** One iteration of the inner counting loop keeps the tally exact. */
  lemma TallyStep(seen: seq<Barcode>, b: Barcode, order: seq<Candidate>, counts: map<Candidate, nat>,
                  objects: map<Candidate, Barcode>)
    requires TallyOf(seen, order, counts, objects)
    ensures TallyOf(seen + [b],
                    if b.Key() in counts then order else order + [b.Key()],
                    counts[b.Key() := (if b.Key() in counts then counts[b.Key()] else 0) + 1],
                    if b.Key() in objects then objects else objects[b.Key() := b])
  {
    StepCounts(seen, b, counts);
    StepOrder(seen, b, order, counts);
    StepObjects(seen, b, objects);
  }

  lemma StepCounts(seen: seq<Barcode>, b: Barcode, counts: map<Candidate, nat>)
    requires CountsOf(seen, counts)
    ensures CountsOf(seen + [b], counts[b.Key() := (if b.Key() in counts then counts[b.Key()] else 0) + 1])
  {
    var counts' := counts[b.Key() := (if b.Key() in counts then counts[b.Key()] else 0) + 1];
    forall c
      ensures c in counts' <==> Count(seen + [b], c) > 0
    {
      SnocCount(seen, b, c);
    }
    forall c | c in counts'
      ensures counts'[c] == Count(seen + [b], c)
    {
      SnocCount(seen, b, c);
    }
  }

  lemma StepOrder(seen: seq<Barcode>, b: Barcode, order: seq<Candidate>, counts: map<Candidate, nat>)
    requires CountsOf(seen, counts) && order == FirstSeen(seen)
    ensures (if b.Key() in counts then order else order + [b.Key()]) == FirstSeen(seen + [b])
  {
    SnocFirstSeen(seen, b);
  }

  lemma StepObjects(seen: seq<Barcode>, b: Barcode, objects: map<Candidate, Barcode>)
    requires FirstObjectsOf(seen, objects)
    ensures FirstObjectsOf(seen + [b], if b.Key() in objects then objects else objects[b.Key() := b])
  {
    var objects' := if b.Key() in objects then objects else objects[b.Key() := b];
    forall c
      ensures c in objects' <==> Count(seen + [b], c) > 0
    {
      SnocCount(seen, b, c);
    }
    forall c | c in objects'
      ensures objects'[c] == (seen + [b])[FirstPos(seen + [b], c)]
    {
      SnocCount(seen, b, c);
      SnocFirstPos(seen, b, c);
    }
  }

  /**
   * The inner counting loop over the symbols one variant reports: each
   * symbol adds one to its key's count, and a key seen for the first time is
   * inserted last and stores that symbol.
   */
  method CountSymbols(ghost before: seq<Barcode>, barcodes: seq<Barcode>, order0: seq<Candidate>,
                      counts0: map<Candidate, nat>, objects0: map<Candidate, Barcode>)
    returns (order: seq<Candidate>, counts: map<Candidate, nat>, objects: map<Candidate, Barcode>)
    requires TallyOf(before, order0, counts0, objects0)
    ensures TallyOf(before + barcodes, order, counts, objects)
  {
    order, counts, objects := order0, counts0, objects0;
    ghost var seen := before;
    for j := 0 to |barcodes|
      invariant seen == before + barcodes[..j]
      invariant TallyOf(seen, order, counts, objects)
    {
      var barcode := barcodes[j];
      var key := barcode.Key();
      TallyStep(seen, barcode, order, counts, objects);
      if key !in counts {
        order := order + [key];
      }
      counts := counts[key := (if key in counts then counts[key] else 0) + 1];
      if key !in objects {
        objects := objects[key := barcode];
      }
      PrefixSnoc(before, barcodes, j);
      seen := seen + [barcode];
    }
    assert barcodes[..|barcodes|] == barcodes;
  }

  /** The counting loops: every key counted once per symbol reported, over all variants. */
  method Tally(image: Image, variants: seq<Variant>)
    returns (order: seq<Candidate>, counts: map<Candidate, nat>, objects: map<Candidate, Barcode>)
    ensures TallyOf(Stream(image, variants), order, counts, objects)
    ensures counts.Keys == objects.Keys
  {
    order, counts, objects := [], map[], map[];
    for i := 0 to |variants|
      invariant TallyOf(Stream(image, variants[..i]), order, counts, objects)
    {
      var barcodes := image.decode(variants[i]);
      order, counts, objects := CountSymbols(Stream(image, variants[..i]), barcodes, order, counts, objects);
      StreamSnoc(image, variants, i);
    }
    assert variants[..|variants|] == variants;
  }

  /**
   * Python's `max` over the dictionary's items by count: the first item
   * whose count no other item exceeds.
   */
  method MaxByCount(order: seq<Candidate>, counts: map<Candidate, nat>) returns (w: nat)
    requires order != []
    requires forall i :: 0 <= i < |order| ==> order[i] in counts
    ensures w < |order|
    ensures forall i :: 0 <= i < |order| ==> counts[order[i]] <= counts[order[w]]
    ensures forall i :: 0 <= i < w ==> counts[order[i]] < counts[order[w]]
  {
    w := 0;
    for i := 1 to |order|
      invariant w < i
      invariant forall k :: 0 <= k < i ==> counts[order[k]] <= counts[order[w]]
      invariant forall k :: 0 <= k < w ==> counts[order[k]] < counts[order[w]]
    {
      if counts[order[i]] > counts[order[w]] {
        w := i;
      }
    }
  }

  /**
   * `detect_barcode` on a readable image: absent exactly when no variant
   * reports a symbol, otherwise the plurality key with hits equal to its
   * number of occurrences and total equal to the number of variants.
   */
  method DetectBarcode(image: Image) returns (r: Option<BarcodeResult>)
    ensures r.None? <==> Stream(image, Methods) == []
    ensures r.Some? ==> r.value.total == |Methods| == 3
    ensures r.Some? ==> r.value.hits == Count(Stream(image, Methods), r.value.Key())
    ensures r.Some? ==> Wins(Stream(image, Methods), r.value.Key())
  {
    var order, counts, objects := Tally(image, Methods);
    ghost var seen := Stream(image, Methods);
    TallyEmpty(seen, order, counts, objects);
    if |counts| == 0 {
      return None;
    }
    var w := MaxByCount(order, counts);
    var best := order[w];
    SelectionWins(seen, counts, w);
    r := Some(BarcodeResult(best.data, best.kind, counts[best], |Methods|));
  }

  /** The tally is empty exactly when nothing was reported. */
  lemma TallyEmpty(seen: seq<Barcode>, order: seq<Candidate>, counts: map<Candidate, nat>,
                   objects: map<Candidate, Barcode>)
    requires TallyOf(seen, order, counts, objects)
    ensures |counts| == 0 <==> seen == []
    ensures |counts| == 0 <==> order == []
  {
    if seen != [] {
      assert seen[0].Key() in counts;
    }
    if |counts| != 0 {
      var c :| c in counts;
      assert c in order;
    }
  }

  /** The item `max` picks from the tally of `seen` is the plurality key. */
  lemma SelectionWins(seen: seq<Barcode>, counts: map<Candidate, nat>, w: nat)
    requires forall c :: c in counts <==> Count(seen, c) > 0
    requires forall c :: c in counts ==> counts[c] == Count(seen, c)
    requires w < |FirstSeen(seen)|
    requires forall i :: 0 <= i < |FirstSeen(seen)| ==> counts[FirstSeen(seen)[i]] <= counts[FirstSeen(seen)[w]]
    requires forall i :: 0 <= i < w ==> counts[FirstSeen(seen)[i]] < counts[FirstSeen(seen)[w]]
    ensures Wins(seen, FirstSeen(seen)[w])
  {
    var order := FirstSeen(seen);
    var best := order[w];
    forall j | 0 <= j < FirstPos(seen, best)
      ensures Count(seen, seen[j].Key()) < Count(seen, best)
    {
      EarlierSymbolEarlierKey(seen, w, j);
    }
    forall j | 0 <= j < |seen|
      ensures Count(seen, seen[j].Key()) <= Count(seen, best)
    {
      assert seen[j].Key() in order;
    }
  }

  /** The tie-breaking rule leaves exactly one winner. */
  lemma WinnerIsUnique(seen: seq<Barcode>, c: Candidate, d: Candidate)
    requires Wins(seen, c) && Wins(seen, d)
    ensures c == d
  {
  }

  /** A key counts at most once per variant when no variant reports it twice. */
  lemma {:induction false} CountAtMostVariants(image: Image, variants: seq<Variant>, c: Candidate)
    requires forall i :: 0 <= i < |variants| ==> NoRepeatedKeys(image.decode(variants[i]))
    ensures Count(Stream(image, variants), c) <= |variants|
    decreases |variants|
  {
    if variants != [] {
      var n := |variants| - 1;
      CountAtMostVariants(image, variants[..n], c);
      CountAppend(Stream(image, variants[..n]), image.decode(variants[n]), c);
      CountAtMostOne(image.decode(variants[n]), c);
    }
  }

  /** The number of variants in `variants` whose decoder result carries `c`. */
  function Reporting(image: Image, variants: seq<Variant>, c: Candidate): (n: nat)
    ensures n <= |variants|
  {
    if variants == [] then 0
    else
      var n := |variants| - 1;
      Reporting(image, variants[..n], c) + (if Count(image.decode(variants[n]), c) > 0 then 1 else 0)
  }

  /** Every variant in `variants` detected `c`. */
  ghost predicate AllReport(image: Image, variants: seq<Variant>, c: Candidate)
  {
    forall i :: 0 <= i < |variants| ==> Count(image.decode(variants[i]), c) > 0
  }

  /** Every variant detected `c` exactly when the number reporting it is the number of variants. */
  lemma {:induction false} ReportingAll(image: Image, variants: seq<Variant>, c: Candidate)
    ensures Reporting(image, variants, c) == |variants| <==> AllReport(image, variants, c)
    decreases |variants|
  {
    if variants != [] {
      var n := |variants| - 1;
      var init := variants[..n];
      ReportingAll(image, init, c);
      assert AllReport(image, variants, c) <==>
               AllReport(image, init, c) && Count(image.decode(variants[n]), c) > 0 by {
        assert forall i :: 0 <= i < n ==> init[i] == variants[i];
      }
    }
  }

  /**
   * When no variant reports a key twice, a key's count is the number of
   * variants that detected it: one vote per variant.
   */
  lemma {:induction false} CountIsVariantsReporting(image: Image, variants: seq<Variant>, c: Candidate)
    requires forall i :: 0 <= i < |variants| ==> NoRepeatedKeys(image.decode(variants[i]))
    ensures Count(Stream(image, variants), c) == Reporting(image, variants, c)
    decreases |variants|
  {
    if variants != [] {
      var n := |variants| - 1;
      assert forall i :: 0 <= i < n ==> variants[..n][i] == variants[i];
      CountIsVariantsReporting(image, variants[..n], c);
      assert Stream(image, variants) == Stream(image, variants[..n]) + image.decode(variants[n]);
      CountAppend(Stream(image, variants[..n]), image.decode(variants[n]), c);
      CountAtMostOne(image.decode(variants[n]), c);
    }
  }

  /**
   * Confidence is positive, and it is at most 1 when no variant reports the
   * same key twice.
   */
  lemma ConfidenceBounds(image: Image, d: BarcodeResult)
    requires d.total == |Methods| && d.hits == Count(Stream(image, Methods), d.Key())
    requires Wins(Stream(image, Methods), d.Key())
    ensures 0 < d.hits
    ensures (forall i :: 0 <= i < |Methods| ==> NoRepeatedKeys(image.decode(Methods[i]))) ==> d.hits <= d.total
  {
    if forall i :: 0 <= i < |Methods| ==> NoRepeatedKeys(image.decode(Methods[i])) {
      CountAtMostVariants(image, Methods, d.Key());
    }
  }

  /**
   * When no variant reports a key twice, the confidence is k / 3 for the k
   * variants that detected the winner, and it is 1 exactly when all three did.
   */
  lemma ConfidenceIsVariantShare(image: Image, d: BarcodeResult)
    requires d.total == |Methods| && d.hits == Count(Stream(image, Methods), d.Key())
    requires forall i :: 0 <= i < |Methods| ==> NoRepeatedKeys(image.decode(Methods[i]))
    ensures d.hits == Reporting(image, Methods, d.Key())
    ensures d.hits == d.total <==> AllReport(image, Methods, d.Key())
  {
    CountIsVariantsReporting(image, Methods, d.Key());
    ReportingAll(image, Methods, d.Key());
  }

  /**
   * A variant that reports the same symbol twice counts twice, so the
   * confidence can exceed 1: a symbol reported twice by every variant
   * scores 6 / 3.
   */
  lemma RepeatedSymbolExceedsTotal(image: Image, b: Barcode, d: BarcodeResult)
    requires forall v :: image.decode(v) == [b, b]
    requires d.total == |Methods| && d.hits == Count(Stream(image, Methods), d.Key()) && d.hits > 0
    ensures Count(Stream(image, Methods), b.Key()) == 2 * |Methods|
    ensures d.Key() == b.Key() && d.hits == 2 * d.total
  {
    var key := b.Key();
    CountPair(b);
    assert Methods[..0] == [];
    assert Methods[..3] == Methods;
    StreamSnoc(image, Methods, 0);
    assert image.decode(Methods[0]) == [b, b];
    CountAppend(Stream(image, Methods[..0]), image.decode(Methods[0]), key);
    StreamSnoc(image, Methods, 1);
    assert image.decode(Methods[1]) == [b, b];
    CountAppend(Stream(image, Methods[..1]), image.decode(Methods[1]), key);
    StreamSnoc(image, Methods, 2);
    assert image.decode(Methods[2]) == [b, b];
    CountAppend(Stream(image, Methods[..2]), image.decode(Methods[2]), key);
    OnlyKeyOccurs(Stream(image, Methods), d.Key(), key);
  }

  /** When every symbol carries `key`, no other key occurs. */
  lemma {:induction false} OnlyKeyOccurs(bs: seq<Barcode>, c: Candidate, key: Candidate)
    requires Count(bs, key) == |bs| && Count(bs, c) > 0
    ensures c == key
    decreases |bs|
  {
    var n := |bs| - 1;
    var init := bs[..n];
    assert bs == init + [bs[n]];
    SnocCount(init, bs[n], key);
    SnocCount(init, bs[n], c);
    if Count(init, c) > 0 {
      OnlyKeyOccurs(init, c, key);
    }
  }

  lemma CountPair(b: Barcode)
    ensures Count([b, b], b.Key()) == 2
  {
    assert [b, b] == [b] + [b];
    assert [b] == [] + [b];
    SnocCount([b], b, b.Key());
    SnocCount([], b, b.Key());
  }
}
