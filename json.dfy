/**
 * JavaScript values as `JSON.parse` produces them, JavaScript's bracket
 * property access on them, and the field path the back end follows to read
 * a transcript out of a transcription job's result document.
 */
module Json {
  import opened Results

  /** A JavaScript value; `Undefined` is what a missing property reads as. */
  datatype JsValue =
    | Undefined
    | Null
    | Bool(b: bool)
    | Num(n: int)
    | Str(s: string)
    | Arr(items: seq<JsValue>)
    | Obj(fields: map<string, JsValue>)

  /** The operand of `v[...]`: a property name or an array index. */
  datatype Key = Field(name: string) | Index(i: nat)

  /** `undefined` and `null` are the values whose properties cannot be read. */
  predicate Nullish(v: JsValue) {
    v.Undefined? || v.Null?
  }

  /** The number a string of decimal digits denotes. */
  function DecimalValue(s: string): int {
    if s == [] then 0 else DecimalValue(s[..|s| - 1]) * 10 + (s[|s| - 1] as int - '0' as int)
  }

  /**
   * The decimal digits of `n`, as JavaScript turns a number into a property
   * name: digits only, denoting `n`, with no leading zero.
   */
  function Decimal(n: nat): (r: string)
    ensures |r| > 0 && forall c :: c in r ==> '0' <= c <= '9'
    ensures DecimalValue(r) == n
    ensures |r| > 1 ==> r[0] != '0'
  {
    if n < 10 then ['0' + n as char]
    else
      var d := Decimal(n / 10);
      var r := d + ['0' + (n % 10) as char];
      assert r[..|r| - 1] == d;
      r
  }

  function PropertyName(k: Key): string {
    match k
    case Field(name) => name
    case Index(i) => Decimal(i)
  }

  /**
   * `v[k]`: `None` when the access throws a `TypeError` (reading a property
   * of `undefined` or `null`); otherwise the value read, which is `Undefined`
   * for a property the value does not have. On arrays and strings only index
   * access is modelled; a named property of one reads as `undefined`.
   */
  function Member(v: JsValue, k: Key): (r: Option<JsValue>)
    ensures r.None? <==> Nullish(v)
  {
    match v
    case Undefined => None
    case Null => None
    case Obj(m) =>
      var name := PropertyName(k);
      Some(if name in m then m[name] else Undefined)
    case Arr(a) =>
      Some(if k.Index? && k.i < |a| then a[k.i] else Undefined)
    case Str(s) =>
      Some(if k.Index? && k.i < |s| then Str([s[k.i]]) else Undefined)
    case _ => Some(Undefined)
  }

  /** `v[k0][k1]...`, evaluated left to right; `None` when some access throws. */
  function Walk(v: JsValue, path: seq<Key>): Option<JsValue>
    decreases |path|
  {
    if path == [] then Some(v)
    else
      match Member(v, path[0])
      case None => None
      case Some(w) => Walk(w, path[1..])
  }

  /** `["results"]["transcripts"][0]["transcript"]` (index.js line 223). */
  const TranscriptPath: seq<Key> :=
    [Field("results"), Field("transcripts"), Index(0), Field("transcript")]

  /**
   * The transcription carried by a result object: `body` is `None` when
   * fetching the object or parsing its text as JSON threw; every throw is
   * caught and reported as a failure with a `null` transcription
   * (index.js lines 218-235).
   */
  function ExtractTranscript(body: Option<JsValue>): Outcome<JsValue> {
    match body
    case None => Failed
    case Some(doc) =>
      match Walk(doc, TranscriptPath)
      case None => Failed
      case Some(t) => Succeeded(t)
  }

  /** Following `p + q` is following `p`, then `q` from where `p` ended. */
  lemma {:induction false} WalkAppend(v: JsValue, p: seq<Key>, q: seq<Key>)
    ensures Walk(v, p + q) == match Walk(v, p) case None => None case Some(w) => Walk(w, q)
    decreases |p|
  {
    if p == [] {
      assert p + q == q;
    } else {
      assert (p + q)[0] == p[0] && (p + q)[1..] == p[1..] + q;
      match Member(v, p[0])
      case None =>
      case Some(w) => WalkAppend(w, p[1..], q);
    }
  }

  /**
   * A path access throws exactly when one of the values it reads a property
   * of is `undefined` or `null`.
   */
  lemma {:induction false} WalkThrowsIffNullishStep(v: JsValue, path: seq<Key>)
    ensures Walk(v, path).None? <==>
      exists i :: 0 <= i < |path| && Walk(v, path[..i]).Some? && Nullish(Walk(v, path[..i]).value)
    decreases |path|
  {
    if path == [] {
    } else {
      assert path[..0] == [];
      match Member(v, path[0])
      case None =>
        assert Walk(v, path[..0]) == Some(v);
      case Some(w) =>
        WalkThrowsIffNullishStep(w, path[1..]);
        forall i | 1 <= i <= |path|
          ensures Walk(v, path[..i]) == Walk(w, path[1..][..i - 1])
        {
          assert path[..i][0] == path[0] && path[..i][1..] == path[1..][..i - 1];
        }
        if Walk(v, path).None? {
          var i :| 0 <= i < |path| - 1 && Walk(w, path[1..][..i]).Some? && Nullish(Walk(w, path[1..][..i]).value);
          assert Walk(v, path[..i + 1]) == Walk(w, path[1..][..i]);
        }
    }
  }

  /** A result document of the shape the transcription service writes yields its first transcript. */
  lemma TranscriptOfResultDocument(doc: JsValue, transcripts: seq<JsValue>, t: string)
    requires doc.Obj? && "results" in doc.fields
    requires doc.fields["results"].Obj? && "transcripts" in doc.fields["results"].fields
    requires doc.fields["results"].fields["transcripts"] == Arr(transcripts)
    requires |transcripts| > 0 && transcripts[0].Obj?
    requires "transcript" in transcripts[0].fields && transcripts[0].fields["transcript"] == Str(t)
    ensures ExtractTranscript(Some(doc)) == Succeeded(Str(t))
  {
    assert PropertyName(Index(0)) == "0";
  }

  /** A document without `results` gives a failure: `transcripts` is read of `undefined`. */
  lemma MissingResultsFails(fields: map<string, JsValue>)
    requires "results" !in fields
    ensures ExtractTranscript(Some(Obj(fields))) == Failed
  {
    WalkAppend(Obj(fields), [Field("results")], TranscriptPath[1..]);
    assert [Field("results")] + TranscriptPath[1..] == TranscriptPath;
  }

  /** An empty `transcripts` list gives a failure: `transcript` is read of `undefined`. */
  lemma NoTranscriptsFails(doc: JsValue)
    requires doc.Obj? && "results" in doc.fields
    requires doc.fields["results"].Obj? && "transcripts" in doc.fields["results"].fields
    requires doc.fields["results"].fields["transcripts"] == Arr([])
    ensures ExtractTranscript(Some(doc)) == Failed
  {
    assert PropertyName(Index(0)) == "0";
  }

  /** A `null` first entry gives a failure: `transcript` is read of `null`. */
  lemma NullEntryFails(doc: JsValue, rest: seq<JsValue>)
    requires doc.Obj? && "results" in doc.fields
    requires doc.fields["results"].Obj? && "transcripts" in doc.fields["results"].fields
    requires doc.fields["results"].fields["transcripts"] == Arr([Null] + rest)
    ensures ExtractTranscript(Some(doc)) == Failed
  {
    assert PropertyName(Index(0)) == "0";
  }

  /**
   * A first transcript entry without a `transcript` field is NOT a failure:
   * the last access reads `undefined` without throwing, and the step reports
   * success with an undefined transcription.
   */
  lemma MissingTranscriptFieldIsUndefined(doc: JsValue, entry: map<string, JsValue>, rest: seq<JsValue>)
    requires doc.Obj? && "results" in doc.fields
    requires doc.fields["results"].Obj? && "transcripts" in doc.fields["results"].fields
    requires doc.fields["results"].fields["transcripts"] == Arr([Obj(entry)] + rest)
    requires "transcript" !in entry
    ensures ExtractTranscript(Some(doc)) == Succeeded(Undefined)
  {
    assert PropertyName(Index(0)) == "0";
  }
}
