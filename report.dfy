/**
 * A Code Insights report (`src/report.rs`): its field types, the report
 * object with its constructor and chainable setters, and the JSON document
 * its serde attributes produce.
 */
module Reports {

  import opened Optional
  import opened Uint
  import opened Json
  import Validation
  import Utf8
  import Errors

  // ---- ReportResult ---------------------------------------------------------

  datatype ReportResult = Pass | Fail

  /** `rename_all = "UPPERCASE"`. */
  function ResultName(r: ReportResult): string {
    match r
    case Pass => "PASS"
    case Fail => "FAIL"
  }

  function ResultFromName(s: string): Option<ReportResult> {
    if s == "PASS" then Some(Pass) else if s == "FAIL" then Some(Fail) else None
  }

  /** A result's name reads back as that result, and only its own name does. */
  lemma ResultNameRoundTrip(r: ReportResult, s: string)
    ensures ResultFromName(s) == Some(r) <==> ResultName(r) == s
  {
  }

  // ---- Parameter and Data ---------------------------------------------------

  /** The value of a data field. `Number` stands for a serde_json integer. */
  datatype Parameter =
    | Boolean(b: bool)
    | Date(date: u64)
    | Duration(duration: u64)
    | Link(linktext: string, href: string)
    | Number(number: int)
    | Percentage(percentage: u8)
    | Text(text: string)

  const PARAMETER_TAGS: seq<string> := ["BOOLEAN", "DATE", "DURATION", "LINK", "NUMBER", "PERCENTAGE", "TEXT"]

  /** The upper-case variant name that `tag = "type"` emits. */
  function Tag(p: Parameter): (t: string)
    ensures t in PARAMETER_TAGS
  {
    match p
    case Boolean(_) => "BOOLEAN"
    case Date(_) => "DATE"
    case Duration(_) => "DURATION"
    case Link(_, _) => "LINK"
    case Number(_) => "NUMBER"
    case Percentage(_) => "PERCENTAGE"
    case Text(_) => "TEXT"
  }

  /** The variant's content, emitted under `content = "value"`. */
  function Payload(p: Parameter): Json {
    match p
    case Boolean(b) => JBool(b)
    case Date(ms) => JNumber(ms)
    case Duration(ms) => JNumber(ms)
    case Link(linktext, href) => JObject([Member("linktext", JString(linktext)), Member("href", JString(href))])
    case Number(n) => JNumber(n)
    case Percentage(n) => JNumber(n)
    case Text(s) => JString(s)
  }

  /** The adjacently tagged encoding: `{"type": TAG, "value": payload}`. */
  function EncodeParameter(p: Parameter): Json {
    JObject([Member("type", JString(Tag(p))), Member("value", Payload(p))])
  }

  /** Two parameters share a tag exactly when they are the same variant. */
  lemma TagIdentifiesVariant(p: Parameter, q: Parameter)
    ensures Tag(p) == Tag(q) <==>
      (p.Boolean? && q.Boolean?) || (p.Date? && q.Date?) || (p.Duration? && q.Duration?)
      || (p.Link? && q.Link?) || (p.Number? && q.Number?) || (p.Percentage? && q.Percentage?)
      || (p.Text? && q.Text?)
  {
  }

  /** The encoding of a parameter determines the parameter. */
  lemma EncodeParameterInjective(p: Parameter, q: Parameter)
    requires EncodeParameter(p) == EncodeParameter(q)
    ensures p == q
  {
  }

  /** The fixed encodings of one value of each variant. */
  lemma ParameterExamples()
    ensures EncodeParameter(Boolean(false)) == JObject([Member("type", JString("BOOLEAN")), Member("value", JBool(false))])
    ensures EncodeParameter(Date(1582841968)) == JObject([Member("type", JString("DATE")), Member("value", JNumber(1582841968))])
    ensures EncodeParameter(Duration(3600)) == JObject([Member("type", JString("DURATION")), Member("value", JNumber(3600))])
    ensures EncodeParameter(Link("Link text", "https://link.test"))
         == JObject([Member("type", JString("LINK")),
                     Member("value", JObject([Member("linktext", JString("Link text")), Member("href", JString("https://link.test"))]))])
    ensures EncodeParameter(Number(1234)) == JObject([Member("type", JString("NUMBER")), Member("value", JNumber(1234))])
    ensures EncodeParameter(Percentage(50)) == JObject([Member("type", JString("PERCENTAGE")), Member("value", JNumber(50))])
    ensures EncodeParameter(Text("Some string")) == JObject([Member("type", JString("TEXT")), Member("value", JString("Some string"))])
  {
  }

  datatype Data = Data(title: string, parameter: Parameter)

  /** `#[serde(flatten)]`: the parameter's members join the title in one object. */
  function EncodeData(d: Data): (j: Json)
    ensures j.JObject? && j.members == [Member("title", JString(d.title))] + EncodeParameter(d.parameter).members
  {
    JObject([Member("title", JString(d.title)), Member("type", JString(Tag(d.parameter))), Member("value", Payload(d.parameter))])
  }

  /** The `data` array: one object per entry, same count, same order. */
  function EncodeDataList(ds: seq<Data>): (js: seq<Json>)
    ensures |js| == |ds|
    ensures forall i :: 0 <= i < |ds| ==> js[i] == EncodeData(ds[i])
  {
    if ds == [] then [] else [EncodeData(ds[0])] + EncodeDataList(ds[1..])
  }

  /** A flattened data entry has exactly the keys title, type and value, and determines the entry. */
  lemma EncodeDataInjective(d: Data, e: Data)
    requires EncodeData(d) == EncodeData(e)
    ensures d == e
  {
  }

  lemma EncodeDataListInjective(ds: seq<Data>, es: seq<Data>)
    requires EncodeDataList(ds) == EncodeDataList(es)
    ensures ds == es
  {
  }

  // ---- Report ---------------------------------------------------------------

  /** The field values of a report at one moment. */
  datatype ReportDoc = ReportDoc(
    title: string,
    details: Option<string>,
    result: Option<ReportResult>,
    data: Option<seq<Data>>,
    reporter: Option<string>,
    link: Option<string>,
    logoUrl: Option<string>)

  /** What `Report::new(title)` builds: the title and nothing else. */
  function Initial(title: string): (doc: ReportDoc)
    ensures doc.title == title
    ensures doc.details.None? && doc.result.None? && doc.data.None?
    ensures doc.reporter.None? && doc.link.None? && doc.logoUrl.None?
  {
    ReportDoc(title, None, None, None, None, None, None)
  }

  /** A report whose fields are set in place by chainable setters. */
  class Report {
    var title: string
    var details: Option<string>
    var result: Option<ReportResult>
    var data: Option<seq<Data>>
    var reporter: Option<string>
    var link: Option<string>
    var logoUrl: Option<string>

    function Snapshot(): ReportDoc
      reads this
    {
      ReportDoc(title, details, result, data, reporter, link, logoUrl)
    }

    /** `Report::new`. */
    constructor (title: string)
      ensures Snapshot() == Initial(title)
    {
      this.title := title;
      details, result, data := None, None, None;
      reporter, link, logoUrl := None, None, None;
    }

    method SetDetails(details: string) returns (r: Report)
      modifies this
      ensures r == this
      ensures Snapshot() == old(Snapshot()).(details := Some(details))
    {
      this.details := Some(details);
      r := this;
    }

    method SetResult(result: ReportResult) returns (r: Report)
      modifies this
      ensures r == this
      ensures Snapshot() == old(Snapshot()).(result := Some(result))
    {
      this.result := Some(result);
      r := this;
    }

    method SetData(data: seq<Data>) returns (r: Report)
      modifies this
      ensures r == this
      ensures Snapshot() == old(Snapshot()).(data := Some(data))
    {
      this.data := Some(data);
      r := this;
    }

    method SetReporter(reporter: string) returns (r: Report)
      modifies this
      ensures r == this
      ensures Snapshot() == old(Snapshot()).(reporter := Some(reporter))
    {
      this.reporter := Some(reporter);
      r := this;
    }

    method SetLink(link: string) returns (r: Report)
      modifies this
      ensures r == this
      ensures Snapshot() == old(Snapshot()).(link := Some(link))
    {
      this.link := Some(link);
      r := this;
    }

    method SetLogoUrl(logoUrl: string) returns (r: Report)
      modifies this
      ensures r == this
      ensures Snapshot() == old(Snapshot()).(logoUrl := Some(logoUrl))
    {
      this.logoUrl := Some(logoUrl);
      r := this;
    }

    /** `to_value`: every field under its camelCase key, absent ones left out, no null anywhere. */
    function ToValue(): (j: Json)
      reads this
      ensures j.JObject? && NoNull(j)
      ensures Get(j.members, "title") == Some(JString(title))
      ensures Get(j.members, "details") == OptString(details)
      ensures Get(j.members, "result") == OptResult(result)
      ensures Get(j.members, "data") == OptData(data)
      ensures Get(j.members, "reporter") == OptString(reporter)
      ensures Get(j.members, "link") == OptString(link)
      ensures Get(j.members, "logoUrl") == OptString(logoUrl)
    {
      ReportFields(Snapshot());
      ReportNoNull(Snapshot());
      EncodeReport(Snapshot())
    }

    /** `to_string`: the compact text of the fields in declaration order (the model's `ToValue` document), one JSON object. */
    function ToString(): (s: string)
      reads this
      ensures s == Write(ToValue())
      ensures |s| >= 2 && s[0] == '{' && s[|s| - 1] == '}'
    {
      var j := ToValue();
      WriteObjectBraced(j.members);
      Write(j)
    }
  }

  /** Setting a field twice with the same value leaves the report as setting it once. */
  method RepeatedSetters(r: Report, details: string, result: ReportResult, data: seq<Data>,
                         reporter: string, link: string, logoUrl: string)
    modifies r
    ensures r.Snapshot() == old(r.Snapshot()).(details := Some(details), result := Some(result),
      data := Some(data), reporter := Some(reporter), link := Some(link), logoUrl := Some(logoUrl))
  {
    var s := r.SetDetails(details);
    s := s.SetDetails(details);
    s := s.SetResult(result);
    s := s.SetResult(result);
    s := s.SetData(data);
    s := s.SetData(data);
    s := s.SetReporter(reporter);
    s := s.SetReporter(reporter);
    s := s.SetLink(link);
    s := s.SetLink(link);
    s := s.SetLogoUrl(logoUrl);
    s := s.SetLogoUrl(logoUrl);
  }

  // ---- Encoding --------------------------------------------------------------

  function OptResult(o: Option<ReportResult>): Option<Json> {
    if o.Some? then Some(JString(ResultName(o.value))) else None
  }

  function OptData(o: Option<seq<Data>>): Option<Json> {
    if o.Some? then Some(JArray(EncodeDataList(o.value))) else None
  }

  /** The keys `rename_all = "camelCase"` gives the fields, in declaration order. */
  const REPORT_KEYS: seq<string> := ["title", "details", "result", "data", "reporter", "link", "logoUrl"]

  /** The struct's fields in declaration order, each absent one marked for skipping. */
  function ReportEntries(doc: ReportDoc): (es: seq<Entry>)
    ensures EntryKeys(es) == REPORT_KEYS
  {
    var es := [
      Entry("title", Some(JString(doc.title))),
      Entry("details", OptString(doc.details)),
      Entry("result", OptResult(doc.result)),
      Entry("data", OptData(doc.data)),
      Entry("reporter", OptString(doc.reporter)),
      Entry("link", OptString(doc.link)),
      Entry("logoUrl", OptString(doc.logoUrl))];
    assert EntryKeys(es) == REPORT_KEYS by {
      EntryKeysAt(es, 0);
      forall i | 0 <= i < |es| ensures EntryKeys(es)[i] == REPORT_KEYS[i] {
        EntryKeysAt(es, i);
      }
    }
    es
  }

  function EncodeReport(doc: ReportDoc): Json {
    JObject(Present(ReportEntries(doc)))
  }

  /** Each field is found under its key exactly when it is present, holding its encoding. */
  lemma ReportFields(doc: ReportDoc)
    ensures Get(EncodeReport(doc).members, "title") == Some(JString(doc.title))
    ensures Get(EncodeReport(doc).members, "details") == OptString(doc.details)
    ensures Get(EncodeReport(doc).members, "result") == OptResult(doc.result)
    ensures Get(EncodeReport(doc).members, "data") == OptData(doc.data)
    ensures Get(EncodeReport(doc).members, "reporter") == OptString(doc.reporter)
    ensures Get(EncodeReport(doc).members, "link") == OptString(doc.link)
    ensures Get(EncodeReport(doc).members, "logoUrl") == OptString(doc.logoUrl)
  {
    var es := ReportEntries(doc);
    assert Distinct(EntryKeys(es));
    PresentGet(es, 0);
    PresentGet(es, 1);
    PresentGet(es, 2);
    PresentGet(es, 3);
    PresentGet(es, 4);
    PresentGet(es, 5);
    PresentGet(es, 6);
  }

  /** Only the camelCase keys are emitted, so never `logo_url`. */
  lemma ReportKeysCamelCase(doc: ReportDoc, k: string)
    ensures k in Keys(EncodeReport(doc).members) ==> k in REPORT_KEYS
    ensures "logo_url" !in Keys(EncodeReport(doc).members)
  {
    var es := ReportEntries(doc);
    PresentKeys(es, k);
    PresentKeys(es, "logo_url");
    if k in Keys(Present(es)) {
      var i :| 0 <= i < |es| && es[i].key == k && es[i].value.Some?;
      EntryKeysAt(es, i);
    }
    forall i | 0 <= i < |es| ensures es[i].key != "logo_url" {
      EntryKeysAt(es, i);
    }
  }

  /** `title` is always emitted; each optional key is emitted exactly when its field is set. */
  lemma ReportKeysPresent(doc: ReportDoc)
    ensures "title" in Keys(EncodeReport(doc).members)
    ensures "details" in Keys(EncodeReport(doc).members) <==> doc.details.Some?
    ensures "result" in Keys(EncodeReport(doc).members) <==> doc.result.Some?
    ensures "data" in Keys(EncodeReport(doc).members) <==> doc.data.Some?
    ensures "reporter" in Keys(EncodeReport(doc).members) <==> doc.reporter.Some?
    ensures "link" in Keys(EncodeReport(doc).members) <==> doc.link.Some?
    ensures "logoUrl" in Keys(EncodeReport(doc).members) <==> doc.logoUrl.Some?
  {
    ReportFields(doc);
  }

  /** The encoding never emits `null`, at any depth. */
  lemma ReportNoNull(doc: ReportDoc)
    ensures NoNull(EncodeReport(doc))
  {
    var es := ReportEntries(doc);
    forall i | 0 <= i < |es| && es[i].value.Some? ensures NoNull(es[i].value.value) {
      if i == 3 {
        DataListNoNull(doc.data.value);
      }
    }
    PresentNoNull(es);
  }

  lemma DataListNoNull(ds: seq<Data>)
    ensures NoNull(JArray(EncodeDataList(ds)))
  {
    var items := EncodeDataList(ds);
    forall n | 0 <= n < |items| ensures NoNull(items[n]) {
      var ps := EncodeData(ds[n]).members;
      assert forall m :: 0 <= m < |ps| ==> NoNull(ps[m].value);
    }
  }

  /** What the key lookups of an encoded report say about its fields. */
  predicate LookupsMatch(ms: seq<Member>, doc: ReportDoc) {
    && Get(ms, "title") == Some(JString(doc.title))
    && Get(ms, "details") == OptString(doc.details)
    && Get(ms, "result") == OptResult(doc.result)
    && Get(ms, "data") == OptData(doc.data)
    && Get(ms, "reporter") == OptString(doc.reporter)
    && Get(ms, "link") == OptString(doc.link)
    && Get(ms, "logoUrl") == OptString(doc.logoUrl)
  }

  /** Reports whose fields encode to the same entry values are equal. */
  lemma SameEntriesDetermineReport(a: ReportDoc, b: ReportDoc)
    requires a.title == b.title
    requires OptString(a.details) == OptString(b.details)
    requires OptResult(a.result) == OptResult(b.result)
    requires OptData(a.data) == OptData(b.data)
    requires OptString(a.reporter) == OptString(b.reporter)
    requires OptString(a.link) == OptString(b.link)
    requires OptString(a.logoUrl) == OptString(b.logoUrl)
    ensures a == b
  {
    if a.data.Some? {
      EncodeDataListInjective(a.data.value, b.data.value);
    }
  }

  /** Two reports with the same encoding have the same fields. */
  lemma EncodeReportInjective(a: ReportDoc, b: ReportDoc)
    requires EncodeReport(a) == EncodeReport(b)
    ensures a == b
  {
    var ms := EncodeReport(a).members;
    ReportFields(a);
    ReportFields(b);
    assert LookupsMatch(ms, a);
    assert LookupsMatch(ms, b);
    SameEntriesDetermineReport(a, b);
  }

  /** `Report::new(t)` serializes to `{"title":t}` and nothing more. */
  lemma NewReportEncoding(t: string)
    ensures EncodeReport(Initial(t)) == JObject([Member("title", JString(t))])
    ensures Write(EncodeReport(Initial(t))) == "{" + Quote("title") + ":" + Quote(t) + "}"
  {
    var es := ReportEntries(Initial(t));
    PresentAllAbsent(es[1..]);
    assert Present(es) == [Member("title", JString(t))] + Present(es[1..]);
    WriteSingleMember("title", JString(t));
  }

  // ---- Documented limits -----------------------------------------------------

  const TITLE_LIMIT: nat := 450
  const DETAILS_LIMIT: nat := 2000
  const REPORTER_LIMIT: nat := 450
  const DATA_LIMIT: nat := 6

  function OptText(o: Option<string>): Option<Validation.Field<Data>> {
    if o.Some? then Some(Validation.Text(o.value)) else None
  }

  function OptItems(o: Option<seq<Data>>): Option<Validation.Field<Data>> {
    if o.Some? then Some(Validation.Items(o.value)) else None
  }

  /**
   * The limits the doc-comments state, checked with the validation macros in
   * the order title, details, reporter, data. The doc-comments count text in
   * characters; the macros measure it as `.len()` does, in UTF-8 bytes.
   * Neither construction nor serialization applies this predicate.
   */
  function CheckLimits(doc: ReportDoc): Validation.Outcome {
    Validation.RunChecks([
      Validation.ValidateField("title", Validation.Field<Data>.Text(doc.title), TITLE_LIMIT),
      Validation.ValidateOptionalField("details", OptText(doc.details), DETAILS_LIMIT),
      Validation.ValidateOptionalField("reporter", OptText(doc.reporter), REPORTER_LIMIT),
      Validation.ValidateOptionalField("data", OptItems(doc.data), DATA_LIMIT)])
  }

  /** A report is within limits exactly when every limited field measures at most its limit. */
  lemma CheckLimitsPasses(doc: ReportDoc)
    ensures CheckLimits(doc).Pass? <==>
      && Utf8.ByteLen(doc.title) <= TITLE_LIMIT
      && (doc.details.Some? ==> Utf8.ByteLen(doc.details.value) <= DETAILS_LIMIT)
      && (doc.reporter.Some? ==> Utf8.ByteLen(doc.reporter.value) <= REPORTER_LIMIT)
      && (doc.data.Some? ==> |doc.data.value| <= DATA_LIMIT)
  {
    var checks: seq<Validation.Outcome> := [
      Validation.ValidateField("title", Validation.Field<Data>.Text(doc.title), TITLE_LIMIT),
      Validation.ValidateOptionalField("details", OptText(doc.details), DETAILS_LIMIT),
      Validation.ValidateOptionalField("reporter", OptText(doc.reporter), REPORTER_LIMIT),
      Validation.ValidateOptionalField("data", OptItems(doc.data), DATA_LIMIT)];
    assert CheckLimits(doc) == Validation.RunChecks(checks);
    assert (forall i :: 0 <= i < |checks| ==> checks[i].Pass?) <==>
      checks[0].Pass? && checks[1].Pass? && checks[2].Pass? && checks[3].Pass?;
  }

  /** An over-long title is what gets reported, whatever else is wrong. */
  lemma TitleReportedFirst(doc: ReportDoc)
    requires Utf8.ByteLen(doc.title) > TITLE_LIMIT
    ensures CheckLimits(doc) == Validation.Fail(Errors.FieldTooLong("title", Utf8.ByteLen(doc.title), TITLE_LIMIT))
  {
  }

  /**
   * Characters and bytes part ways: a title of 300 'é' is within the stated
   * 450 characters, yet measures 600 bytes and fails.
   */
  lemma CharacterLimitIsNotByteLimit(doc: ReportDoc)
    requires doc.title == seq(300, _ => 'é')
    ensures |doc.title| <= TITLE_LIMIT
    ensures CheckLimits(doc) == Validation.Fail(Errors.FieldTooLong("title", 600, TITLE_LIMIT))
  {
    Utf8.ByteLenUniform(doc.title, 'é');
    TitleReportedFirst(doc);
  }

  /** Six data entries are allowed; seven are reported as `data` with length 7 and limit 6. */
  lemma DataLimitBoundary(doc: ReportDoc)
    requires Utf8.ByteLen(doc.title) <= TITLE_LIMIT
    requires doc.details.Some? ==> Utf8.ByteLen(doc.details.value) <= DETAILS_LIMIT
    requires doc.reporter.Some? ==> Utf8.ByteLen(doc.reporter.value) <= REPORTER_LIMIT
    requires doc.data.Some? && 6 <= |doc.data.value| <= 7
    ensures |doc.data.value| == 6 ==> CheckLimits(doc).Pass?
    ensures |doc.data.value| == 7 ==> CheckLimits(doc) == Validation.Fail(Errors.FieldTooLong("data", 7, DATA_LIMIT))
  {
    CheckLimitsPasses(doc);
    var passed := [
      Validation.ValidateField("title", Validation.Field<Data>.Text(doc.title), TITLE_LIMIT),
      Validation.ValidateOptionalField("details", OptText(doc.details), DETAILS_LIMIT),
      Validation.ValidateOptionalField("reporter", OptText(doc.reporter), REPORTER_LIMIT)];
    var last := Validation.ValidateOptionalField("data", OptItems(doc.data), DATA_LIMIT);
    if |doc.data.value| == 7 {
      Validation.FirstFailureDecides(passed, last, []);
      assert passed + [last] + [] == passed + [last];
    }
  }
}
