# CaloScan barcode bookkeeping, modelled in Dafny

CaloScan reads barcodes from photos. It has two entry points.

- A serverless handler (`lambda_function.py`) takes an event carrying an
  image. The image comes as a base64 upload, a storage notification, or a
  base64 `image` field. The handler runs `detect_barcode` on it and answers
  with an HTTP-style response. `detect_barcode` decodes three preprocessed
  variants of the image and counts every (data, type) pair reported. It
  returns the most frequent pair, ties going to the pair inserted first. Its
  confidence is the count divided by the number of variants.
- A batch script (`main.py`) decodes four variants of each image file. It
  keeps the distinct pairs in first-seen order. When no variant finds
  anything, it falls back to a high-contrast pass. It writes an annotated
  copy only when the main passes found something, and it collects the
  results of many files into a map keyed by path.

The model keeps the bookkeeping and treats the image work as given:

- An image is known only through what the decoder reports for each named
  variant (`Barcodes.Image`).
- The pair the decoder reports is `Barcodes.Candidate`.
- The concatenated decoder output over a list of variants is
  `Barcodes.Stream`.
- The counting loops of `detect_barcode` and the loops of `main.py` are
  methods with loop invariants.
- Each method is proved against specification functions on the stream:
  `Count`, `FirstSeen` (the distinct keys in order of first appearance) and
  `FirstPos`.
- The handler is a pure function. It is given base64 decoding, the storage
  fetch and detection as services that may fail.

Files:

- `barcodes.dfy`: shared values and specification functions.
- `detection.dfy`: `detect_barcode`.
- `handler.dfy`: `lambda_handler`.
- `batch.dfy`: `main.py`.

## Model

| member | source | states |
|---|---|---|
| Barcodes.Count | lambda_function.py:29-37 | The number of occurrences of a key is at most the stream length, and it is 0 exactly when no symbol carries the key. |
| Barcodes.FirstSeen | main.py:61-68 | The distinct keys of a stream: a key is listed iff it occurs, and no key is listed twice. |
| Barcodes.FirstPos | lambda_function.py:39-41 | The first position of an occurring key: the symbol there carries the key and no earlier symbol does. |
| Barcodes.CountAppend | lambda_function.py:29-37 | Counting over two concatenated decoder outputs adds the two counts, so every variant contributes its own occurrences. |
| Barcodes.CountAtMostOne | lambda_function.py:29-37 | A decoder result that never repeats a key contributes at most 1 to any key's count. |
| Barcodes.FirstSeenOrder | main.py:66-68 | A key listed earlier in first-seen order first occurs strictly earlier in the stream. |
| Barcodes.EarlierSymbolEarlierKey | lambda_function.py:48 | Every symbol before the first occurrence of the key listed at position w carries a key listed before w. |
| Detection.TallyStep | lambda_function.py:37-41 | One counting step keeps the tally exact: insertion order, counts and first-stored objects all describe the stream extended by one symbol. |
| Detection.CountSymbols | lambda_function.py:31-41 | The inner loop over one variant's symbols: the tally of the stream so far becomes the tally of the stream extended by those symbols. |
| Detection.Tally | lambda_function.py:24-41 | After both loops, each key's count is its number of occurrences across all variants, a repeat within one variant included. Keys are inserted in first-seen order. `barcode_objects` has the same key set as `barcode_counts` and holds the first symbol seen for each key. |
| Detection.MaxByCount | lambda_function.py:48 | Python `max` over the items by count: the chosen index has a count no item exceeds, and every earlier item has a strictly smaller count. |
| Detection.TallyEmpty | lambda_function.py:43-45 | The counting dictionary is empty exactly when no symbol was reported, and then its insertion order is empty too. |
| Detection.SelectionWins | lambda_function.py:48-49 | The item `max` picks is the plurality key of the stream under first-seen tie-breaking. |
| Detection.DetectBarcode | lambda_function.py:9-56 | The result is None exactly when no variant reports a symbol. Otherwise it is the plurality key of the stream, ties going to the key first seen earliest. Its hits are that key's occurrence count, which is positive, so the key really was decoded. Its total is the number of variants, 3. |
| Detection.WinnerIsUnique | lambda_function.py:48 | The tie-breaking rule admits exactly one winner. |
| Detection.CountAtMostVariants | lambda_function.py:29-37 | When no variant reports a key twice, no key occurs more often than there are variants. |
| Detection.Reporting | lambda_function.py:29-37 | The number of variants that detected a key, which is at most the number of variants. |
| Detection.ReportingAll | lambda_function.py:29-37 | The number of variants that detected a key equals the number of variants exactly when every variant detected it. |
| Detection.CountIsVariantsReporting | lambda_function.py:29-37 | When no variant reports a key twice, the key's count equals the number of variants that detected it, one vote per variant. |
| Detection.ConfidenceBounds | lambda_function.py:50 | The confidence hits / 3 is strictly positive. It is at most 1 when no variant reports the same key twice. |
| Detection.ConfidenceIsVariantShare | lambda_function.py:50 | When no variant reports a key twice, the winner's hits are the number of variants that detected it, so the confidence is k / 3. Hits equal the total, a confidence of 1, exactly when all three variants detected it. |
| Detection.RepeatedSymbolExceedsTotal | lambda_function.py:29-50 | When every variant reports the same symbol twice, that symbol counts 6 times, and a detection with a positive count over that stream is that symbol with hits 6 against a total of 3: the confidence exceeds 1. |
| Handler.Dispatch | lambda_function.py:68-87 | An event is rejected exactly when it is neither a base64 upload, nor an event whose `Records` the storage test reaches and accepts or fails on, nor one with a string `image`. |
| Handler.Respond | lambda_function.py:89-144 | Once the event is recognised, the status is 200, 404 or 500. The JSON headers and the request id are always present. `success` holds and a detection is carried exactly on 200. A 404 carries BARCODE_NOT_FOUND and a 500 carries PROCESSING_ERROR. |
| Handler.Handle | lambda_function.py:64-144 | The status is one of 200, 400, 404 and 500. It is 400 exactly for an unrecognised event, and then there are no headers and the body is the "Invalid input format" error. A detection is carried iff the status is 200, and an error code iff it is 404 or 500. Every non-400 response has the JSON headers and the request id, with `success` true iff the status is 200. A 404 carries BARCODE_NOT_FOUND and a 500 carries PROCESSING_ERROR. The bytes come from `Obtain` on the dispatched route; Handler.BytesFromEvent and Handler.FetchFailureIs500 tie them to the event's fields. |
| Handler.StatusFollowsDetection | lambda_function.py:89-144 | With the bytes in hand, a detection gives 200 with its value, type and confidence. No detection gives 404. An exception during detection gives the 500 response. |
| Handler.BytesFromEvent | lambda_function.py:68-81 | Which event field supplies the bytes detection receives. For an upload, it is the base64 decode of `body`. For a storage record with a complete path, it is the object fetched from that bucket and key. For an inline image, it is the base64 decode of the `image` string. |
| Handler.FetchFailureIs500 | lambda_function.py:66-144 | Each way of failing to obtain the bytes gives the 500 response, stated case by case on the event: a failing decode of an upload's `body`, an empty `Records` list, a storage record without a bucket or key, a failing storage fetch, or a failing decode of an inline `image`. |
| Handler.UploadTakesPriority | lambda_function.py:68-70 | For a base64 upload, the response does not depend on `Records` or `image`. |
| Handler.StorageTakesPriorityOverImage | lambda_function.py:73-81 | For an event that is not an upload and that the storage test accepts, the response does not depend on `image`. |
| Handler.AsWrittenOnlyRejects | lambda_function.py:83-144 | As written, the handler returns only on the 400 path, and there it agrees with Handle. Every other event ends in an exception that escapes the handler. |
| Handler.AsWrittenUploadRaises | lambda_function.py:92-108 | A valid upload whose bytes hold a barcode gets 200 from Handle, but as written it raises. |
| Batch.EnhanceImageForBarcode | main.py:8-28 | Exactly four distinct variants: the handler's three in the same order, then sharpening. The high-contrast fallback is not among them. |
| Batch.LabelY | main.py:80 | The label's y coordinate is `max(y - 10, 10)`: at least 10, at least y - 10, and equal to one of them. |
| Batch.RecordSymbols | main.py:61-82 | The loop over one variant's symbols extends the duplicate-free list to the distinct keys of the stream so far plus those symbols. It annotates every symbol, in order, with `Annotate`: its box, the text `data (type)` and the label at `(x, LabelY(y))`. |
| Batch.MainPasses | main.py:48-82 | `found_barcode` holds exactly when some variant reports a symbol. `all_barcodes` is the distinct keys of all reports in first-seen order. Every reported symbol is annotated, in order. |
| Batch.DetectAndDecodeBarcode | main.py:30-120 | The result is `BatchResult(image)`: None for an unreadable image; otherwise the distinct keys of the main passes in first-seen order, or every key of the high-contrast pass when those found nothing. The annotated copy is written exactly when `save_result` holds and some main pass decoded something. The annotations are `AnnotateAll` of the main passes' symbols only. |
| Batch.StreamEmpty | main.py:52-57 | The main passes report nothing exactly when every variant decodes to nothing. |
| Batch.ProcessMultipleImages | main.py:122-131 | The keys of the result map are exactly the input paths. For each path, the value is the detection result of its last occurrence in the list. |
| Batch.KeepLastStep | main.py:126-129 | Assigning `results[path]` keeps, for every path not repeated later, the value of its last occurrence so far. |
| Batch.MainPassesDeduplicate | main.py:52-68 | When the main passes find something, the result has no duplicate, lists exactly the keys reported, and lists them in order of first appearance. |
| Batch.FallbackKeepsEveryReport | main.py:84-98 | When the main passes find nothing, the result is every key of the high-contrast pass, in order, duplicates included. |
| Batch.FallbackRepeats | main.py:92-98 | A symbol reported twice by the high-contrast pass alone appears twice in the result. |

## Left out

- OpenCV image work (`imdecode`, `imread`, `cvtColor`, `adaptiveThreshold`, `GaussianBlur`, `filter2D`, `convertScaleAbs`) is pixel arithmetic. Each variant is represented by its name only.
- The grayscale branch of `enhance_image_for_barcode` (main.py:11-14) is left out with the pixel work.
- pyzbar `decode` is a foreign library call. It is the `decode` field of `Image`.
- UTF-8 decoding of `barcode.data` is a library call. A symbol's text is given already decoded, so a decoding error is not modelled.
- An image `cv2.imdecode` cannot read makes `detect_barcode` raise inside the handler. This is part of the detection service's `Failed` outcome.
- Base64 decoding, the boto3 client (`get_image_from_s3`, lambda_function.py:58-62) and detection on raw bytes are library and network calls. They are the `Services` parameters of the handler, each of which may fail.
- `json.dumps` is not modelled. A response body is the structured `Payload`, not its JSON text.
- Confidence is the exact pair (hits, total) rather than a float, so float rounding is not modelled.
- Event shapes outside the model are left out:
  - a `body` that is present but not a string;
  - a non-boolean `isBase64Encoded`, which Python tests for truthiness;
  - a `Records` value that is not a list;
  - a first record that is not an object.

  In the source, each of these either raises (500) or is tested for truthiness. The model's `Event` fields cannot express them.
- Drawing, plotting, showing and saving (`rectangle`, `putText`, matplotlib) are UI and file I/O. The model keeps the annotations that would be drawn and the decision whether the file is written.
- The output file name built from `os.path` (main.py:42,113) is not modelled.
- `print` calls, the `glob` listing and the `__main__` block (main.py:133-145) are left out, as is `test_lambda.py`, a script that prints results.
- Batch.ProcessMultipleImages: each file's read result is an input, one per position in the list. Reading the same path twice may give different images, and a repeated path keeps the last one.

## Findings

| source | as written | input that shows it | evidently intended | confidence | as-written member | corrected member |
|---|---|---|---|---|---|---|
| lambda_function.py:100,119,137 | The response bodies use `true` and `false`, which are undefined names in Python, and the `except` block's body uses `false` too (line 137). Every path past the dispatch therefore ends in a NameError that escapes the handler. The request id is also read from `context.awsRequestId` (lines 106, 124, 142), which the Lambda context does not provide. | An event with `body` "aW1n" and `isBase64Encoded` true whose bytes hold a barcode. | Python's `True` and `False`, and the context's request id: 200, 404 and 500 responses as the code lays them out. | not executed | Handler.HandleAsWritten (with Handler.AsWrittenOnlyRejects, Handler.AsWrittenUploadRaises) | Handler.Handle |
