# Measure extraction and quotation lines of the Placacentro quotation form

This project models the core of the Placacentro quotation app in Dafny. The app collects quotations for custom-cut wood panels.

- **Extraction from text.** Two parsers turn free text into measure records. Each record has `cantidad`, `largo`, `ancho`, `tipoBordo`, `perforacion` and `cantoBordo`.
  - The dictation parser works on a speech transcript (`VoiceRecorder.jsx`).
  - The caption parser works on an image description. It exists as three identical copies: two `CameraCapture.jsx` and one `FileUpload.jsx`.
- **File check.** The upload component checks a chosen file before reading it.
- **Quotation list.** `CotizacionForm.jsx` keeps the list of lines. Lines are added by hand, removed by position, or appended from a batch of extracted records, and are numbered 1, 2, 3, … in list order. Each line carries a one-line description. The form sends the list with two totals once the header is filled in.

Modules, one per file:

- `Options`: `Option` and `Result`.
- `Seqs`: mapping a function over a sequence, and its distribution over concatenation.
- `JsText`: the JavaScript string operations used:
  - `toLowerCase` and `trim`, with JavaScript's set of white-space characters;
  - `startsWith`;
  - `join`, and `split` on one character.
- `Numerals`: the JavaScript number operations used:
  - `parseFloat` on the captured numerals, into exact normalized decimals;
  - `String(number)`;
  - `parseInt`, whose result may be `NaN`;
  - `+` on such numbers.
- `Measures`: the record, and the identifiers of its three choice fields.
- `Captures`: one match of a regular expression, as the list of its capture groups. `Group(m, i)` is `match[i]`, and `None` stands for `undefined`.
- `EdgeBanding`: the synonym table for spoken edge-banding phrases.
- `Dictation`: the dictation parser.
- `Dedup` and `Caption`: the caption parser and its duplicate removal.
- `FileUpload`: the file check.
- `Description`: the description template and a reader for it.
- `Quotation`: the list operations, the totals, and the form over a run of user events.
- `Submission`: the submission gate and the payload.

The regular expressions are not executed. Each parser takes, per recognizer, the matches `exec` reports, in the order it reports them. A `Conforms` predicate states what each recognizer guarantees of its groups. For example, a group of `\d+(?:\.\d+)?` is `Some` numeral, and an optional `(\d+)?` is `None` or `Some` digit string.

JavaScript numbers are modelled as exact decimals `Dec(mantissa, scale)` kept normalized, that is, with no trailing fractional zero. `NormalizedUnique` shows that two normalized decimals are equal exactly when they denote the same number, so `==` on them is `===`.

Behaviour of the code worth knowing:

- Removing a line at a position outside the list removes nothing. The lines are renumbered anyway; the operation does not fail.
- The synonym lookup only lower-cases and trims the phrase. It does not collapse inner white space.
- The dictation parser does not remove duplicates. Only the caption parser does.
- A dictated quantity may be 0 ("0 unidades de …"). A quantity typed by hand may be `NaN` (an empty field), and then the piece total is `NaN` too.
- A quantity typed by hand as "2.5" or "1e3" counts as its leading digits, 2 or 1, while the line's description keeps the text as typed ("Cant: 2.5").
- A line added by hand is numbered `length + 1` and the list is not renumbered. `ContiguityInvariant` shows the numbering stays 1..n anyway.

## Model

| member | source | states |
|---|---|---|
| Dictation.ParseMeasuresFromText | home/ubuntu/placacentro-cotizaciones/src/components/VoiceRecorder.jsx:119-197 | The output is the accepted matches of the first recognizer, then of the second, then of the third. Every record has positive length and width, no drilling and a soft edge. No matches give an empty list. |
| Dictation.ToMeasure | home/ubuntu/placacentro-cotizaciones/src/components/VoiceRecorder.jsx:157-192 | A match is kept exactly when its length and width texts both parse to positive numbers. A kept record carries those two numbers, positive and normalized, drilling "ninguna", the soft finish and one of the four banding identifiers. |
| Dictation.ExtractAll | home/ubuntu/placacentro-cotizaciones/src/components/VoiceRecorder.jsx:132-196 | At most one record per match. Every record has both dimensions positive and normalized, no drilling and a soft edge. |
| Dictation.ExtractAllKeepsEveryMatch | home/ubuntu/placacentro-cotizaciones/src/components/VoiceRecorder.jsx:132-196 | There is no deduplication. If every match is accepted, each yields its own record in match order, repeated sizes included. If none is, the output is empty. |
| Dictation.ExtractAllAppend | home/ubuntu/placacentro-cotizaciones/src/components/VoiceRecorder.jsx:132-135 | Matches are processed one by one: the records of two runs of matches are the first run's records followed by the second's. |
| Dictation.FieldOrder | home/ubuntu/placacentro-cotizaciones/src/components/VoiceRecorder.jsx:137-162 | For each recognizer, the length and width are read from its own groups (the quantity-first form reads them from groups 2 and 3, the others from 1 and 2). A match is kept exactly when both parse to positive numbers. |
| Dictation.FieldDefaults | home/ubuntu/placacentro-cotizaciones/src/components/VoiceRecorder.jsx:137-192 | A kept match has quantity equal to its digits, or 1 when the group is absent. The labelled form always bands one long side. The other two use their captured phrase through the table, or one long side when there is none. Drilling is "ninguna" and the finish is soft. |
| Dictation.DictationRoundTrip | home/ubuntu/placacentro-cotizaciones/src/components/VoiceRecorder.jsx:123-192 | The groups each recognizer reports for a dictated measure in its own phrasing satisfy `Conforms`, and extracting them gives that measure back. |
| Dictation.DefaultPhrase | home/ubuntu/placacentro-cotizaciones/src/components/VoiceRecorder.jsx:141-154 | The default phrase "1 largo" maps to one long side through the table. |
| EdgeBanding.Synonym | home/ubuntu/placacentro-cotizaciones/src/components/VoiceRecorder.jsx:165-181 | The table has an entry for exactly its fifteen phrases and for no other key. |
| EdgeBanding.SynonymEntries | home/ubuntu/placacentro-cotizaciones/src/components/VoiceRecorder.jsx:166-180 | Each phrase gives the pattern it names: the four one-long-side phrases "1-largo", the four one-long-one-short phrases "1-largo-1-corto", the four one-long-two-short phrases "1-largo-2-cortos", and the three four-sides phrases "4-lados". |
| EdgeBanding.BordoFromText | home/ubuntu/placacentro-cotizaciones/src/components/VoiceRecorder.jsx:165-183 | The result is always one of the four identifiers; a phrase whose lower-cased, trimmed key is in the table gives that entry's banding, and any other phrase gives one long side. |
| EdgeBanding.PhraseRoundTrip | home/ubuntu/placacentro-cotizaciones/src/components/VoiceRecorder.jsx:165-183 | Every banding pattern has a capturable phrase that the lookup maps back to that pattern. |
| EdgeBanding.FourSidesSynonyms | home/ubuntu/placacentro-cotizaciones/src/components/VoiceRecorder.jsx:178-180 | "4 lados", "cuatro lados" and "todos los lados" all mean four sides. |
| EdgeBanding.LookupKeyIdempotent | home/ubuntu/placacentro-cotizaciones/src/components/VoiceRecorder.jsx:183 | Lower-casing and trimming a key again changes nothing, so a phrase and its key map to the same pattern. |
| EdgeBanding.BordoFromTextAsWritten | home/ubuntu/placacentro-cotizaciones/src/components/VoiceRecorder.jsx:165-183 | The lookup as the object literal performs it. It yields an inherited member exactly when the key is "constructor" or "__proto__"; otherwise it agrees with the corrected lookup. |
| EdgeBanding.AsWrittenLeaksPrototype | home/ubuntu/placacentro-cotizaciones/src/components/VoiceRecorder.jsx:165-183 | "constructor" and "__proto__" are capturable and already lower-case. The object literal returns inherited members for them, where the corrected lookup gives one long side. |
| EdgeBanding.CorrectedAgreesOnOwnEntries | home/ubuntu/placacentro-cotizaciones/src/components/VoiceRecorder.jsx:165-183 | Outside those two keys, the lookup as written and the corrected lookup agree. |
| Numerals.ParseFloat | home/ubuntu/placacentro-cotizaciones/src/components/VoiceRecorder.jsx:158-159 | `parseFloat` gives a number exactly for a present numeral and `NaN` otherwise. A whole numeral reads as the value of its digits, leading zeros included. A numeral with a point reads as its digits without the point divided by ten to the length of the fraction. The number is normalized. |
| Numerals.LeadingZerosWhole | src/components/CameraCapture.jsx:312-313 | Leading zeros do not change a whole dimension: "010" reads as 10. |
| Numerals.LeadingZerosFraction | home/ubuntu/placacentro-cotizaciones/src/components/VoiceRecorder.jsx:158-159 | Leading zeros do not change a fractional dimension: "05.50" reads as 5.5. |
| Numerals.NumberToStringRoundTrip | src/components/CotizacionForm.jsx:126-127 | `toString` of a number prints a numeral that `parseFloat` reads back as the same number. |
| Numerals.NormalizedUnique | src/components/CameraCapture.jsx:331 | Two normalized decimals are equal exactly when they denote the same number, so `===` on sizes is equality. |
| Numerals.ParseInt | home/ubuntu/placacentro-cotizaciones/src/components/VoiceRecorder.jsx:186 | `parseInt` of a digit string is its decimal value. Text that starts with a digit reads as the value of its leading digits. A blank field, the empty one included, is `NaN`. |
| Numerals.ParseIntPrefix | src/components/CotizacionForm.jsx:83 | A quantity typed as "2.5" reads as 2. |
| Numerals.ParseIntExponent | src/components/CotizacionForm.jsx:83 | A quantity typed as "1e3" reads as 1. |
| Numerals.QuantityToStringRoundTrip | src/components/CotizacionForm.jsx:125-131 | A printed quantity, `NaN` included, reads back through `parseInt` as itself. |
| Dedup.FindIndex | src/components/CameraCapture.jsx:331 | `findIndex`: -1 exactly when no record has the size; otherwise the first position holding it. |
| Dedup.UniqueMeasures | src/components/CameraCapture.jsx:330-332 | The output sizes are pairwise distinct. Each record is the first record of its size, they come in order of first occurrence, the set of sizes is that of the input, and the output is no longer than the input. |
| Dedup.FilterFirstKeepsAllFirsts | src/components/CameraCapture.jsx:330-332 | Every record that is the first of its size is kept. |
| Dedup.DistinctFixed | home/ubuntu/placacentro-cotizaciones/src/components/CameraCapture.jsx:209-212 | A list without repeated sizes passes the filter unchanged. |
| Dedup.UniqueMeasuresIdempotent | src/components/FileUpload.jsx:185-188 | Removing duplicates twice is the same as removing them once. |
| Caption.ParseMeasuresFromText | src/components/CameraCapture.jsx:294-335 | Sizes are pairwise distinct and both sides lie in [10, 500]. Every record has quantity 1, one long side banded, no drilling and a soft edge. The sizes are exactly those of the accepted matches, each record is the first candidate of its size, in candidate order. No accepted match gives an empty list. Extracting again from the output changes nothing. |
| Caption.Candidate | src/components/CameraCapture.jsx:311-324 | A match is kept exactly when both groups parse to numbers from 10 to 500. A kept record carries those two numbers, normalized, with one unit, one long side banded, no drilling and the soft finish. |
| Caption.Candidates | src/components/CameraCapture.jsx:309-326 | Before duplicate removal, every record is in range, normalized and carries the caption defaults. |
| Caption.CandidatesByRecognizer | src/components/FileUpload.jsx:165-182 | Candidates come recognizer by recognizer, each in match order. |
| Caption.CandidateSizes | home/ubuntu/placacentro-cotizaciones/src/components/CameraCapture.jsx:189-206 | The candidates carry exactly the sizes of the accepted matches. |
| Caption.CandidateOfConforming | src/components/CameraCapture.jsx:312-324 | A match is accepted exactly when both sides lie in [10, 500], and it then gives its two sides with the fixed defaults. |
| Caption.CaptionRoundTrip | src/components/CameraCapture.jsx:298-324 | A caption naming one plausible size, through any recognizer, gives exactly that size with the defaults. |
| Caption.RepeatedSizeKeptOnce | src/components/CameraCapture.jsx:304-332 | "120cm x 60cm" is reported by both centimetre recognizers and only one record is kept. |
| Caption.ImplausibleWidthRejected | src/components/CameraCapture.jsx:316 | "119 por 9" gives nothing. |
| Caption.PlausibleCaptionAccepted | src/components/CameraCapture.jsx:300-324 | "120 por 60" gives one record of 120 by 60 with the defaults. |
| FileUpload.CheckFile | src/components/FileUpload.jsx:17-33 | No file is ignored, with no message. A type not starting with "image/" and more than 10·1024·1024 bytes are each reported; anything else is accepted. The type is checked before the size. |
| FileUpload.SizeLimit | src/components/FileUpload.jsx:29-30 | Acceptance is downward closed in size. 10 MiB is accepted and one byte more is not. |
| FileUpload.TypeBeforeSize | src/components/FileUpload.jsx:23-27 | A non-image is refused for its type whatever its size. |
| FileUpload.TypeExamples | src/components/FileUpload.jsx:21 | The type test is a case-sensitive prefix test: "image/png" passes, while "IMAGE/PNG" and "application/pdf" do not. |
| Description.Describe | src/components/CotizacionForm.jsx:89 | The description of comma-free quantity, length and width texts reads back to those texts and the three choices. It has no line break when the three texts have none. |
| Description.LabelsPlain | src/components/CotizacionForm.jsx:67-72 | The banding labels, drilling identifiers and finish words contain neither commas nor line breaks, and each one reads back to its choice. |
| Quotation.AgregarMedida | src/components/CotizacionForm.jsx:75-105 | An empty length or width leaves the form unchanged. Otherwise exactly one line is appended, the earlier lines are untouched, the new line is numbered `length + 1` and carries the entry's length, width, drilling, banding and finish, `parseInt` of the quantity and the description of the entry, and the entry fields are cleared. Contiguous numbering is preserved. |
| Quotation.DraftLineDescribed | src/components/CotizacionForm.jsx:89 | The description of a line typed by hand reads back to the entry fields. |
| Quotation.Reindex | src/components/CotizacionForm.jsx:110-113 | Lines are renumbered 1..n and everything but the number is kept. |
| Quotation.ReindexContiguous | src/components/CotizacionForm.jsx:110-113 | Renumbering a contiguously numbered list changes nothing. |
| Quotation.WithoutIndex | src/components/CotizacionForm.jsx:109 | Filtering out position `index` is the list without that element. An index outside the list keeps every line. |
| Quotation.EliminarMedida | src/components/CotizacionForm.jsx:108-118 | The numbering is contiguous. In range, the one line at `index` is dropped and the others keep their order and contents. Out of range, nothing is dropped, and a contiguous list is unchanged. |
| Quotation.AppendBatch | src/components/CotizacionForm.jsx:122-136 | The length is the old length plus the batch size and the numbering is contiguous. Earlier lines keep their contents (and are unchanged if they were already numbered). The new lines follow in batch order, one per record. |
| Quotation.ManejarTranscripcionVoz | src/components/CotizacionForm.jsx:121-139 | The dictated batch is appended and the transcript is kept, or "" when absent. |
| Quotation.ManejarAnalisisImagen | src/components/CotizacionForm.jsx:142-159 | The caption batch is appended and nothing else changes. |
| Quotation.AppendBatchTwice | src/components/CotizacionForm.jsx:143-157 | Appending two batches one after the other equals appending them as one. |
| Quotation.LineOfRoundTrip | src/components/CotizacionForm.jsx:123-132 | An extracted record's line reads back: its numbers parse to the record's values, its quantity text parses to the quantity, and its single-line description decodes to the record's fields. |
| Quotation.TotalPiezas | src/components/CotizacionForm.jsx:190 | The piece total is `NaN` exactly when some quantity is `NaN`, and is otherwise the sum of the quantities. |
| Quotation.TotalAppend | src/components/CotizacionForm.jsx:475 | The total of two runs of lines is the sum of their totals. |
| Quotation.TotalPiezasAppendBatch | src/components/CotizacionForm.jsx:122-136 | Appending a batch adds the batch's quantities to the total; renumbering does not change it. |
| Quotation.ContiguityInvariant | src/components/CotizacionForm.jsx:75-159 | Whatever sequence of edits, adds, removals and batch appends the user performs, the lines stay numbered 1..n. |
| Submission.BuildPayload | src/components/CotizacionForm.jsx:164-193 | A missing required header field refuses first, then an empty list. Otherwise the payload carries every header field as given, the descriptions in list order both as a list and joined with line breaks, the lines, their count (at least one), the piece total and the user id. |
| Submission.PayloadTextIsList | src/components/CotizacionForm.jsx:186-187 | Splitting the text form at line breaks gives the list form back. |
| Submission.ExtractedPayloadSplits | src/components/CotizacionForm.jsx:186-187 | The same holds for any list built from extracted records, whose descriptions are single lines. |
| JsText.SplitJoin | src/components/CotizacionForm.jsx:186 | Joining with a separator that occurs in no part and splitting again gives the parts back. |

## Left out

- The regular-expression engine is not modelled. The parsers receive the matches each recognizer reports, and `Conforms` states the group shapes the patterns guarantee. Which substrings a pattern matches, greedy capture of trailing words included, is not modelled.
- Numerals.ParseFloat: works in exact decimal arithmetic. It does not model IEEE-754 rounding of long numerals, exponent notation or `Infinity`, none of which the capture groups can hold except through rounding. It is defined only on what the capture groups hold: it returns `NaN` for any text that is not a whole numeral, where JavaScript would read a numeric prefix.
- Numerals.NumberToString: prints plain decimals. It does not model JavaScript's switch to exponent notation from 1e21 up or below 1e-6.
- Numerals.ParseInt: returns an unbounded integer. JavaScript loses precision above 2^53, and a dictated quantity (a `(\d+)` group of any length, as in "12345678901234567890 unidades de 120 por 60") or a quantity typed by hand can reach that range. The `0x` hexadecimal prefix is not modelled either. No input reaches `parseInt` with it: a dictated quantity is a `(\d+)` group, and the number field of the form hands over an empty string for such text.
- Dictation.ParseMeasuresFromText: uses the corrected banding lookup described under Findings. A banding phrase that lower-cases to "constructor" or "__proto__" gives one long side here, while the code as written stores an inherited `Object.prototype` member as the banding.
- Dictation.FieldDefaults: states the banding through the corrected lookup of Findings, so it does not promise what the code as written stores for the phrases "constructor" and "__proto__".
- Dictation.ToMeasure: its promise that the banding is one of the four identifiers holds for the corrected lookup of Findings, not for the code as written.
- JsText.ToLower: maps only ASCII letters. The phrases looked up are `[\w\s\d]` captures, which hold no other letters.
- Network calls are not modelled: audio transcription, image analysis, and the webhook POST with its response handling (CotizacionForm.jsx after line 193).
- The user id from `localStorage` is a parameter.
- Toasts, loading flags, camera, microphone and rendering are user-interface effects. React's asynchronous state updaters are modelled as one sequential step per event.
- BordoSelector, imageUtils and browser_user_id are not part of this model. They only supply choices and perform I/O.

## Findings

| source | as written | input that shows it | evidently intended | confidence | as-written member | corrected member |
|---|---|---|---|---|---|---|
| home/ubuntu/placacentro-cotizaciones/src/components/VoiceRecorder.jsx:165-183 | `bordoMapping` is a plain object literal, read with the lower-cased, trimmed phrase as key. The keys "constructor" and "__proto__" read members inherited from `Object.prototype`, which are truthy, so the fallback to "1-largo" does not apply. `tipoBordo` is then none of the four identifiers, and the description shows `Bordo-undefined`. | the utterance "1 por 2 constructor" (the second recognizer captures "constructor" as the banding phrase) | only the fifteen table entries are recognised, and every other phrase means "1-largo" | not executed | EdgeBanding.BordoFromTextAsWritten, exhibited by EdgeBanding.AsWrittenLeaksPrototype | EdgeBanding.BordoFromText, related by EdgeBanding.CorrectedAgreesOnOwnEntries |
