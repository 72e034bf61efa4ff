/**
 * Code Insights annotations (`src/annotation.rs`): plain records with no
 * operations of their own, and the JSON document their serde attributes
 * produce.
 */
module Annotations {

  import opened Optional
  import opened Uint
  import opened Json

  datatype Severity = Low | Medium | High

  /** `rename_all = "UPPERCASE"`. */
  function SeverityName(s: Severity): string {
    match s
    case Low => "LOW"
    case Medium => "MEDIUM"
    case High => "HIGH"
  }

  function SeverityFromName(name: string): Option<Severity> {
    if name == "LOW" then Some(Low)
    else if name == "MEDIUM" then Some(Medium)
    else if name == "HIGH" then Some(High)
    else None
  }

  /** A severity's name reads back as that severity, and only its own name does. */
  lemma SeverityNameRoundTrip(s: Severity, name: string)
    ensures SeverityFromName(name) == Some(s) <==> SeverityName(s) == name
  {
  }

  /** The annotation's `Type`. */
  datatype AnnotationType = Vulnerability | CodeSmell | Bug

  /** `rename_all = "SCREAMING_SNAKE_CASE"`: the word break in `CodeSmell` becomes an underscore. */
  function TypeName(t: AnnotationType): string {
    match t
    case Vulnerability => "VULNERABILITY"
    case CodeSmell => "CODE_SMELL"
    case Bug => "BUG"
  }

  function TypeFromName(name: string): Option<AnnotationType> {
    if name == "VULNERABILITY" then Some(Vulnerability)
    else if name == "CODE_SMELL" then Some(CodeSmell)
    else if name == "BUG" then Some(Bug)
    else None
  }

  /** A type's name reads back as that type, and only its own name does. */
  lemma TypeNameRoundTrip(t: AnnotationType, name: string)
    ensures TypeFromName(name) == Some(t) <==> TypeName(t) == name
  {
  }

  datatype Annotation = Annotation(
    message: string,
    severity: Severity,
    annotationType: Option<AnnotationType>,
    path: Option<string>,
    line: Option<u32>,
    link: Option<string>,
    externalId: Option<string>)

  /** The container: the annotations in order, with no cap on their number. */
  datatype Annotations = Annotations(annotations: seq<Annotation>)

  function OptType(o: Option<AnnotationType>): Option<Json> {
    if o.Some? then Some(JString(TypeName(o.value))) else None
  }

  function OptLine(o: Option<u32>): Option<Json> {
    if o.Some? then Some(JNumber(o.value)) else None
  }

  /** Emitted keys: camelCase, except `annotation_type`, renamed to `type`. */
  const ANNOTATION_KEYS: seq<string> := ["message", "severity", "type", "path", "line", "link", "externalId"]

  function AnnotationEntries(a: Annotation): (es: seq<Entry>)
    ensures EntryKeys(es) == ANNOTATION_KEYS
  {
    var es := [
      Entry("message", Some(JString(a.message))),
      Entry("severity", Some(JString(SeverityName(a.severity)))),
      Entry("type", OptType(a.annotationType)),
      Entry("path", OptString(a.path)),
      Entry("line", OptLine(a.line)),
      Entry("link", OptString(a.link)),
      Entry("externalId", OptString(a.externalId))];
    assert EntryKeys(es) == ANNOTATION_KEYS by {
      EntryKeysAt(es, 0);
      forall i | 0 <= i < |es| ensures EntryKeys(es)[i] == ANNOTATION_KEYS[i] {
        EntryKeysAt(es, i);
      }
    }
    es
  }

  function EncodeAnnotation(a: Annotation): Json {
    JObject(Present(AnnotationEntries(a)))
  }

  /** One encoded object per annotation, same count, same order. */
  function EncodeAll(xs: seq<Annotation>): (js: seq<Json>)
    ensures |js| == |xs|
    ensures forall i :: 0 <= i < |xs| ==> js[i] == EncodeAnnotation(xs[i])
  {
    if xs == [] then [] else [EncodeAnnotation(xs[0])] + EncodeAll(xs[1..])
  }

  /** `{"annotations": [...]}`. */
  function EncodeAnnotations(c: Annotations): (j: Json)
    ensures j.JObject? && Keys(j.members) == ["annotations"]
    ensures Get(j.members, "annotations") == Some(JArray(EncodeAll(c.annotations)))
  {
    JObject([Member("annotations", JArray(EncodeAll(c.annotations)))])
  }

  /** Each field is found under its key exactly when it is present, holding its encoding. */
  lemma AnnotationFields(a: Annotation)
    ensures Get(EncodeAnnotation(a).members, "message") == Some(JString(a.message))
    ensures Get(EncodeAnnotation(a).members, "severity") == Some(JString(SeverityName(a.severity)))
    ensures Get(EncodeAnnotation(a).members, "type") == OptType(a.annotationType)
    ensures Get(EncodeAnnotation(a).members, "path") == OptString(a.path)
    ensures Get(EncodeAnnotation(a).members, "line") == OptLine(a.line)
    ensures Get(EncodeAnnotation(a).members, "link") == OptString(a.link)
    ensures Get(EncodeAnnotation(a).members, "externalId") == OptString(a.externalId)
  {
    var es := AnnotationEntries(a);
    assert Distinct(EntryKeys(es));
    PresentGet(es, 0);
    PresentGet(es, 1);
    PresentGet(es, 2);
    PresentGet(es, 3);
    PresentGet(es, 4);
    PresentGet(es, 5);
    PresentGet(es, 6);
  }

  /** Only the listed keys are emitted: never `annotationType`, `annotation_type` or `external_id`. */
  lemma AnnotationKeysRenamed(a: Annotation, k: string)
    ensures k in Keys(EncodeAnnotation(a).members) ==> k in ANNOTATION_KEYS
    ensures "annotationType" !in Keys(EncodeAnnotation(a).members)
    ensures "annotation_type" !in Keys(EncodeAnnotation(a).members)
    ensures "external_id" !in Keys(EncodeAnnotation(a).members)
  {
    var es := AnnotationEntries(a);
    PresentKeys(es, k);
    PresentKeys(es, "annotationType");
    PresentKeys(es, "annotation_type");
    PresentKeys(es, "external_id");
    if k in Keys(Present(es)) {
      var i :| 0 <= i < |es| && es[i].key == k && es[i].value.Some?;
      EntryKeysAt(es, i);
    }
    forall i | 0 <= i < |es| ensures es[i].key !in {"annotationType", "annotation_type", "external_id"} {
      EntryKeysAt(es, i);
    }
  }

  /** `message` and `severity` are always emitted; every other key exactly when its field is set. */
  lemma AnnotationKeysPresent(a: Annotation)
    ensures "message" in Keys(EncodeAnnotation(a).members)
    ensures "severity" in Keys(EncodeAnnotation(a).members)
    ensures "type" in Keys(EncodeAnnotation(a).members) <==> a.annotationType.Some?
    ensures "path" in Keys(EncodeAnnotation(a).members) <==> a.path.Some?
    ensures "line" in Keys(EncodeAnnotation(a).members) <==> a.line.Some?
    ensures "link" in Keys(EncodeAnnotation(a).members) <==> a.link.Some?
    ensures "externalId" in Keys(EncodeAnnotation(a).members) <==> a.externalId.Some?
  {
    AnnotationFields(a);
  }

  /** An emitted `line` is a JSON integer in the `u32` range. */
  lemma LineInRange(a: Annotation)
    requires "line" in Keys(EncodeAnnotation(a).members)
    ensures var v := Get(EncodeAnnotation(a).members, "line").value;
            v.JNumber? && 0 <= v.n < U32_LIMIT && a.line == Some(v.n)
  {
    AnnotationFields(a);
  }

  /** The encoding never emits `null`. */
  lemma AnnotationNoNull(a: Annotation)
    ensures NoNull(EncodeAnnotation(a))
  {
    PresentNoNull(AnnotationEntries(a));
  }

  /** What the key lookups of an encoded annotation say about its fields. */
  predicate LookupsMatch(ms: seq<Member>, a: Annotation) {
    && Get(ms, "message") == Some(JString(a.message))
    && Get(ms, "severity") == Some(JString(SeverityName(a.severity)))
    && Get(ms, "type") == OptType(a.annotationType)
    && Get(ms, "path") == OptString(a.path)
    && Get(ms, "line") == OptLine(a.line)
    && Get(ms, "link") == OptString(a.link)
    && Get(ms, "externalId") == OptString(a.externalId)
  }

  /** Annotations whose fields encode to the same entry values are equal. */
  lemma SameEntriesDetermineAnnotation(a: Annotation, b: Annotation)
    requires a.message == b.message
    requires SeverityName(a.severity) == SeverityName(b.severity)
    requires OptType(a.annotationType) == OptType(b.annotationType)
    requires OptString(a.path) == OptString(b.path)
    requires OptLine(a.line) == OptLine(b.line)
    requires OptString(a.link) == OptString(b.link)
    requires OptString(a.externalId) == OptString(b.externalId)
    ensures a == b
  {
  }

  /** Two annotations with the same encoding have the same fields. */
  lemma EncodeAnnotationInjective(a: Annotation, b: Annotation)
    requires EncodeAnnotation(a) == EncodeAnnotation(b)
    ensures a == b
  {
    var ms := EncodeAnnotation(a).members;
    AnnotationFields(a);
    AnnotationFields(b);
    assert LookupsMatch(ms, a);
    assert LookupsMatch(ms, b);
    SameEntriesDetermineAnnotation(a, b);
  }

  /** The container's encoding keeps every annotation, in order, and determines the container. */
  lemma EncodeAnnotationsInjective(c: Annotations, d: Annotations)
    requires EncodeAnnotations(c) == EncodeAnnotations(d)
    ensures c == d
  {
    var xs, ys := c.annotations, d.annotations;
    assert EncodeAll(xs) == EncodeAll(ys);
    forall i | 0 <= i < |xs| ensures xs[i] == ys[i] {
      EncodeAnnotationInjective(xs[i], ys[i]);
    }
  }

  /** An annotation with only its required fields encodes to just `message` and `severity`. */
  lemma MinimalAnnotationEncoding(message: string, severity: Severity)
    ensures EncodeAnnotation(Annotation(message, severity, None, None, None, None, None))
         == JObject([Member("message", JString(message)), Member("severity", JString(SeverityName(severity)))])
  {
    var es := AnnotationEntries(Annotation(message, severity, None, None, None, None, None));
    PresentAllAbsent(es[2..]);
    assert es[1..][1..] == es[2..];
    assert Present(es[1..]) == [Member("severity", JString(SeverityName(severity)))] + Present(es[2..]);
    assert Present(es) == [Member("message", JString(message))] + Present(es[1..]);
  }
}
