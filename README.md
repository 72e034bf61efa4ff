# code-insights-rs in Dafny

A model of the core of `code-insights-rs`, a Rust crate that builds Bitbucket
Server Code Insights documents, a **report** and a set of **annotations**, as
typed values and serializes them to JSON. The serde attributes on the Rust
types fix the JSON shape. The model writes that shape out as functions into a
small JSON datatype and proves what the attributes promise:

- camelCase keys, and `annotation_type` emitted as `type`;
- absent optional fields left out, never written as `null`;
- the adjacently tagged `Parameter`, flattened into each `Data` entry;
- the upper-case enum names, and reading them back.

The model also covers the crate's error type (`FieldTooLong`, `SerdeError`),
its `Display` text and `source`. It covers the two copies of the length-check
macros `validate_field!` and `validate_optional_field!`.

Files, one module each:

| file | module | models |
|---|---|---|
| `optional.dfy` | `Optional` | `Option<T>` |
| `uint.dfy` | `Uint` | `u8`, `u32`, `u64` as bounded subset types |
| `decimal.dfy` | `Decimal` | decimal text of integers (`{}` formatting) and reading it back |
| `utf8.dfy` | `Utf8` | `str::len`: the UTF-8 byte length (RFC 3629, section 3), not the character count |
| `json.dfy` | `Json` | JSON values with ordered object members; `skip_serializing_if` as `Present`; compact text with string escaping |
| `errors.dfy` | `Errors` | `src/error.rs` |
| `validation.dfy` | `Validation` | the macros in `src/lib.rs` (the copy the crate compiles) |
| `ref_validation.dfy` | `RefValidation` | the macros in `src/validation.rs` (a copy the crate does not compile) |
| `report.dfy` | `Reports` | `src/report.rs` |
| `annotation.dfy` | `Annotations` | `src/annotation.rs` |

`Report` is a class. Its fields are updated in place by the six setters,
and each setter returns the object itself, as the Rust setters return
`&mut self`. `Snapshot()` reads the fields as a `ReportDoc` value, and the
encoding is a function of that value. `Annotation` and `Annotations` have no
operations in the crate, so they are plain datatypes.

The macro checks are pure functions returning an `Outcome`. `Pass` means
control falls through; `Fail(e)` is the early `return Err(e)`. A validated
field is a `Field<T>`, either `Text` or `Items`, so `.len()` is the byte length
of text or the element count of a vector.

The crate never calls the macros. Neither `Report::new`, the setters,
`to_string` nor `to_value` reject long fields. The limits 450 / 2000 / 6 appear
only in doc-comments. `Reports.CheckLimits` is a separate predicate built from
the macro functions, and nothing else in the model uses it. The crate gives no
order for these checks, so it checks title, details, reporter, data. The
doc-comments give the limits in characters; the predicate measures text as
`.len()` does, in UTF-8 bytes.

The crate compiles only the inline `mod validation` of `src/lib.rs`. That copy
binds the present optional value by value (`Some(field)`). `src/validation.rs`
binds it by reference (`Some(ref field)`). Both compute the same outcome for
every input (`RefValidation.SameOptionalFieldCheck`).

## Model

| member | source | states |
|---|---|---|
| `Utf8.ByteLen` | src/lib.rs:5 | the measured length of text is its UTF-8 byte count, between the character count and four times it |
| `Utf8.ByteLenIsCharCountIffAscii` | src/lib.rs:5 | byte length equals character count exactly when the text is ASCII |
| `Utf8.ByteLenUniform` | src/lib.rs:5 | text of one repeated character measures that character's width times the character count |
| `Decimal.ValueOfFromNat` | src/error.rs:29-30 | the decimal text a length or limit is displayed as reads back as that number |
| `Json.PresentKeys` | src/report.rs:45-69 | with `skip_serializing_if = "Option::is_none"`, a key is emitted exactly when some field with that key is present |
| `Json.PresentGet` | src/report.rs:45-69 | with distinct keys, looking up a field's key in the emitted object gives back exactly that field's value, or nothing when it is absent |
| `Json.PresentNoNull` | src/report.rs:45-69 | skipping absent fields emits no `null` of its own |
| `Json.UnescapeEscape` | src/report.rs:154-156 | the string escaping of the JSON text loses nothing: the escaped body reads back as the original characters |
| `Json.Write` | src/report.rs:154-156 | the compact writer behind `serde_json::to_string`; its contract is stated by `WriteSingleMember`, `UnescapeEscape` and `Report.ToString` |
| `Json.WriteSingleMember` | src/report.rs:154-156 | a one-member object is written as `{"key":value}` with no whitespace |
| `Errors.Source` | src/error.rs:38-43 | `source()` is None exactly for `FieldTooLong`, and is the wrapped encoder error for `SerdeError` |
| `Errors.FromEncoderError` | src/error.rs:46-49 | `From` wraps an encoder error as `SerdeError`; its source is that error and its display is that error's display, unchanged |
| `Errors.Display` | src/error.rs:20-35 | `impl fmt::Display`; its contract is stated by `DisplayFieldTooLongParses`, `DisplayFieldTooLongInjective` and `FromEncoderError` |
| `Errors.DisplayFieldTooLongParses` | src/error.rs:23-31 | the message `field '<name>' too long, its length <len> is longer than the allowed limit <limit>` gives back name, len and limit |
| `Errors.DisplayFieldTooLongInjective` | src/error.rs:23-31 | two `FieldTooLong` errors with the same message are the same error |
| `Validation.ValidateField` | src/lib.rs:3-14 | fails iff the measured length exceeds the limit (so the limit itself passes), with the field name, measured length and limit in the error |
| `Validation.ValidateOptionalField` | src/lib.rs:16-29 | an absent field passes; a present one gives the same outcome as `validate_field!` on its value |
| `Validation.RunChecks` | src/lib.rs:3-29 | checks in sequence pass iff all pass; otherwise the result is the first failing check in order |
| `Validation.FirstFailureDecides` | src/lib.rs:7-11 | after the first failure, the later checks have no influence on the result |
| `Validation.AsciiLimitBoundary` | src/lib.rs:6 | ASCII text of exactly the limit passes; one byte more fails with length limit+1 |
| `Validation.TextLenAdds` | src/lib.rs:5 | the measured length of text adds up over concatenation, so every part of a passing text passes the same check |
| `Validation.BytesNotCharacters` | src/lib.rs:5 | one two-byte character already exceeds a limit of 1 |
| `Validation.FailureMessage` | src/lib.rs:7-11 | a failing check's displayed message names the field, its measured length and the limit |
| `RefValidation.ValidateField` | src/validation.rs:1-12 | fails iff the measured length exceeds the limit, recording name, length and limit |
| `RefValidation.ValidateOptionalField` | src/validation.rs:16-29 | None always passes; on Some(v) it fails iff v's length exceeds the limit |
| `RefValidation.SameFieldCheck` | src/validation.rs:1-12 | identical to the compiled `validate_field!` on every input |
| `RefValidation.SameOptionalFieldCheck` | src/validation.rs:16-29 | identical to the compiled `validate_optional_field!` on every input |
| `Reports.ResultNameRoundTrip` | src/report.rs:4-9 | `ReportResult` is named `PASS`/`FAIL`, and reading a name back gives the variant exactly when it is that variant's name |
| `Reports.Tag` | src/report.rs:21-32 | every emitted `type` tag is one of BOOLEAN, DATE, DURATION, LINK, NUMBER, PERCENTAGE, TEXT |
| `Reports.TagIdentifiesVariant` | src/report.rs:22-32 | two parameters share a tag exactly when they are the same variant |
| `Reports.EncodeParameter` | src/report.rs:21-32 | the adjacently tagged encoding; its contract is stated by `TagIdentifiesVariant`, `EncodeParameterInjective` and `ParameterExamples` |
| `Reports.EncodeParameterInjective` | src/report.rs:21-32 | the `{"type":…, "value":…}` encoding determines the parameter |
| `Reports.ParameterExamples` | src/report.rs:169-220 | the encodings of `Boolean(false)`, `Date(1582841968)`, `Duration(3600)`, the link, `Number(1234)`, `Percentage(50)` and `Text("Some string")` |
| `Reports.EncodeData` | src/report.rs:11-19 | `flatten`: a data entry is one object, the title member followed by the parameter's `type` and `value` members |
| `Reports.EncodeDataList` | src/report.rs:52-56 | the `data` array keeps the count and order of the entries |
| `Reports.EncodeDataInjective` | src/report.rs:11-19 | the flattened object determines the data entry |
| `Reports.EncodeDataListInjective` | src/report.rs:52-56 | the `data` array determines the entries |
| `Reports.Initial` | src/report.rs:78-88 | a new report has the given title and every optional field absent |
| `Reports.Report.constructor` | src/report.rs:78-88 | `Report::new(t)`'s fields are `Initial(t)` |
| `Reports.Report.SetDetails` | src/report.rs:98-101 | sets `details` to Some(arg), changes no other field, returns the same report |
| `Reports.Report.SetResult` | src/report.rs:105-108 | sets `result` to Some(arg), changes no other field, returns the same report |
| `Reports.Report.SetData` | src/report.rs:118-121 | sets `data` to Some(arg), changes no other field, returns the same report |
| `Reports.Report.SetReporter` | src/report.rs:130-133 | sets `reporter` to Some(arg), changes no other field, returns the same report |
| `Reports.Report.SetLink` | src/report.rs:139-142 | sets `link` to Some(arg), changes no other field, returns the same report |
| `Reports.Report.SetLogoUrl` | src/report.rs:148-151 | sets `logo_url` to Some(arg), changes no other field, returns the same report |
| `Reports.RepeatedSetters` | src/report.rs:98-151 | calling each setter twice with the same argument leaves the report as calling it once |
| `Reports.Report.ToValue` | src/report.rs:159-161 | `to_value` is an object with no null anywhere, where each field's key holds that field's encoding, or is missing exactly when the field is absent |
| `Reports.Report.ToString` | src/report.rs:154-156 | `to_string` is the compact text of the fields in declaration order, which is also the model's `ToValue` document, a braced JSON object |
| `Reports.ReportEntries` | src/report.rs:36-70 | the fields are emitted under the keys title, details, result, data, reporter, link, logoUrl, in declaration order |
| `Reports.EncodeReport` | src/report.rs:36-70 | the `Serialize` derive of `Report`; its contract is stated by `ReportFields`, `ReportKeysCamelCase`, `ReportKeysPresent`, `ReportNoNull` and `EncodeReportInjective` |
| `Reports.ReportFields` | src/report.rs:38-69 | `title` always holds the title; each optional key holds its field's encoding when present and is absent otherwise |
| `Reports.ReportKeysCamelCase` | src/report.rs:37-69 | only the camelCase keys are emitted, so `logo_url` never appears |
| `Reports.ReportKeysPresent` | src/report.rs:45-69 | `title` is always emitted, each optional key exactly when its field is set |
| `Reports.ReportNoNull` | src/report.rs:45-69 | the encoded report holds no `null` at any depth |
| `Reports.EncodeReportInjective` | src/report.rs:38-70 | two reports with the same encoding have the same fields |
| `Reports.SameEntriesDetermineReport` | src/report.rs:38-70 | reports whose fields encode to the same entry values are equal |
| `Reports.NewReportEncoding` | src/report.rs:78-88 | `Report::new(t)` encodes to `{"title": t}` and its text is `{"title":"…"}` |
| `Reports.CheckLimits` | src/report.rs:75-128 | the limits of the doc-comments at lines 75, 96, 116 and 128; its contract is stated by `CheckLimitsPasses`, `TitleReportedFirst`, `DataLimitBoundary` and `CharacterLimitIsNotByteLimit` |
| `Reports.CheckLimitsPasses` | src/report.rs:75-128 | the doc-comments state the limits (title 450, details 2000, reporter 450, at most 6 data entries) in characters; the predicate measures as `.len()` does, in UTF-8 bytes, and passes exactly when every limited field is within its limit |
| `Reports.CharacterLimitIsNotByteLimit` | src/report.rs:75-77 | a title of 300 'é' is within the stated 450 characters but measures 600 bytes and fails the predicate |
| `Reports.TitleReportedFirst` | src/report.rs:75-77 | with the predicate's own order (the crate gives none), an over-long title is the failure reported, whatever else is wrong |
| `Reports.DataLimitBoundary` | src/report.rs:116-117 | six data entries pass; seven fail as `data` with length 7 and limit 6 |
| `Annotations.SeverityNameRoundTrip` | src/annotation.rs:9-15 | `Severity` is named LOW/MEDIUM/HIGH and reads back as the same variant |
| `Annotations.TypeNameRoundTrip` | src/annotation.rs:17-23 | `Type` is named VULNERABILITY/CODE_SMELL/BUG and reads back as the same variant |
| `Annotations.AnnotationEntries` | src/annotation.rs:25-64 | the fields are emitted under message, severity, type, path, line, link, externalId, in declaration order |
| `Annotations.EncodeAnnotation` | src/annotation.rs:25-64 | the `Serialize` derive of `Annotation`; its contract is stated by `AnnotationFields`, `AnnotationKeysRenamed`, `AnnotationKeysPresent`, `AnnotationNoNull` and `EncodeAnnotationInjective` |
| `Annotations.AnnotationFields` | src/annotation.rs:27-63 | each key holds its field's encoding when present and is absent otherwise |
| `Annotations.AnnotationKeysRenamed` | src/annotation.rs:35-37 | only the listed keys are emitted: never `annotationType`, `annotation_type` or `external_id` |
| `Annotations.AnnotationKeysPresent` | src/annotation.rs:28-63 | `message` and `severity` are always emitted; type, path, line, link and externalId exactly when set |
| `Annotations.LineInRange` | src/annotation.rs:50-51 | an emitted `line` is an integer in 0..2^32 equal to the field's value |
| `Annotations.AnnotationNoNull` | src/annotation.rs:35-63 | the encoded annotation holds no `null` |
| `Annotations.EncodeAnnotationInjective` | src/annotation.rs:27-64 | the encoding determines the annotation |
| `Annotations.SameEntriesDetermineAnnotation` | src/annotation.rs:27-64 | annotations whose fields encode to the same entry values are equal |
| `Annotations.MinimalAnnotationEncoding` | src/annotation.rs:27-64 | an annotation with only its required fields encodes to just `message` and `severity` |
| `Annotations.EncodeAll` | src/annotation.rs:3-7 | one encoded object per annotation, same count, same order |
| `Annotations.EncodeAnnotations` | src/annotation.rs:3-7 | the container encodes as `{"annotations": [...]}` and nothing else |
| `Annotations.EncodeAnnotationsInjective` | src/annotation.rs:3-7 | the container's encoding keeps every annotation in order and determines the container; there is no cap on length |

## Left out

- The serde derive machinery, and the `Deserialize` derives. The only reading back modelled is of the enum names, plus the escaping of strings in JSON text.
- Key order in `to_value`. serde_json's `Map` may sort keys, depending on a serde_json feature this crate's files do not show. The model keeps declaration order, which is the order of `to_string`'s text.
- Reports.CheckLimits: the doc-comments (src/report.rs:75, 96, 128) state the limits in characters, but the predicate measures text in UTF-8 bytes as `.len()` does. Non-ASCII text within the character limit can therefore fail: 300 'é' are 600 bytes.
- Reports.Report.ToString: the `serde_json::Error` that `to_string` and `to_value` may return is not modelled. Writing these types cannot fail, so both return the document directly.
- `Parameter::Number` holds a serde_json number; the model holds an integer, and its i64/u64 range is not enforced. Floating-point numbers are left out. This changes the encoding of no value the crate can hold.
- Errors.FieldTooLong: `len` and `limit` are unbounded naturals. The `usize` width is not modelled, since any measured length fits in it.
- The contents of `serde_json::Error` inside `SerdeError`: the model keeps only its displayed message.
- Lifetimes and the `&'a mut self` chaining rules. The setters return the same object, and only the field update is modelled.
- Validation.RunChecks: the checks arrive as already computed outcomes, so "later checks are not evaluated" is modelled only as "later checks do not affect the result". Each check is pure, so nothing else is observable.
- The value-versus-reference binding in `validate_optional_field!`. It matters only to the Rust borrow checker, and both copies compute the same outcome.
- Limits on annotation fields, a `reportType` field, a `build()` step, a 0–100 range on `Percentage` and a cap of 1000 annotations. None of these exist in the crate.
- `Json.Unescape` accepts `\u` escapes that denote one UTF-16 unit only, without surrogate pairs. That is enough to read back everything the writer produces.
