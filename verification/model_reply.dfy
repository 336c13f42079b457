/** A reply from the language-model endpoint, as both engines read it:
    `response.raise_for_status()` followed by
    `response.json()['candidates'][0]['content']['parts'][0]['text']`.
    The HTTP exchange itself is not modelled: what came back is a parameter. */
module ModelReply {
  import opened Values

  /** What `requests.post(...)` produced. `statusError` is the text of the
      `HTTPError` that `raise_for_status` would raise, and `body` is what
      `response.json()` returns, or the text of the decode error it raises. */
  datatype Http =
    | Unreachable(error: string)
    | Response(status: int, statusError: string, body: Result<Value, string>)

  /** `raise_for_status` raises exactly for client and server error codes:
      the 4xx and 5xx statuses. */
  predicate RaisesForStatus(status: int): (b: bool)
    ensures b <==> status / 100 == 4 || status / 100 == 5
  {
    400 <= status < 600
  }

  /** `v[key]` with a string key; on failure, the text of the exception. */
  function Field(v: Value, key: string): (r: Result<Value, string>)
    ensures r.Ok? <==> v.Obj? && key in v.fields
    ensures r.Ok? ==> r.value == v.fields[key]
  {
    match v
    case Obj(fields) =>
      if key in fields then Ok(fields[key]) else Err("'" + key + "'")
    case List(_) => Err("list indices must be integers or slices, not str")
    case Str(_) => Err("string indices must be integers, not 'str'")
    case _ => Err("'" + TypeName(v) + "' object is not subscriptable")
  }

  /** `v[0]`; on failure, the text of the exception. */
  function First(v: Value): (r: Result<Value, string>)
    ensures r.Ok? <==> (v.List? && |v.items| > 0) || (v.Str? && |v.s| > 0)
    ensures v.List? && |v.items| > 0 ==> r == Ok(v.items[0])
  {
    match v
    case List(items) =>
      if |items| > 0 then Ok(items[0]) else Err("list index out of range")
    case Str(s) =>
      if |s| > 0 then Ok(Str([s[0]])) else Err("string index out of range")
    case Obj(_) => Err("0")
    case _ => Err("'" + TypeName(v) + "' object is not subscriptable")
  }

  function Then(r: Result<Value, string>, step: Value -> Result<Value, string>): Result<Value, string> {
    match r
    case Ok(v) => step(v)
    case Err(e) => Err(e)
  }

  /** The `['candidates'][0]['content']['parts'][0]['text']` lookup. */
  function TextAt(body: Value): Result<Value, string> {
    var candidates := Field(body, "candidates");
    var candidate := Then(candidates, First);
    var content := Then(candidate, v => Field(v, "content"));
    var parts := Then(content, v => Field(v, "parts"));
    var part := Then(parts, First);
    Then(part, v => Field(v, "text"))
  }

  /** The `text` an engine extracts from a reply, or the text of the first
      exception raised on the way there. */
  function ReplyText(h: Http): (r: Result<Value, string>)
    ensures h.Unreachable? ==> r == Err(h.error)
    ensures h.Response? && RaisesForStatus(h.status) ==> r == Err(h.statusError)
    ensures h.Response? && h.body.Err? && !RaisesForStatus(h.status) ==> r == Err(h.body.error)
    ensures r.Ok? ==> h.Response? && !RaisesForStatus(h.status) && h.body.Ok?
  {
    match h
    case Unreachable(e) => Err(e)
    case Response(status, statusError, body) =>
      if RaisesForStatus(status) then Err(statusError)
      else
        match body
        case Err(e) => Err(e)
        case Ok(v) => TextAt(v)
  }

  /** The body holds `text` at `['candidates'][0]['content']['parts'][0]['text']`,
      whatever other keys and list items come with it. */
  predicate HoldsTextAt(body: Value, text: Value) {
    && body.Obj? && "candidates" in body.fields
    && var candidates := body.fields["candidates"];
    && candidates.List? && |candidates.items| > 0
    && var candidate := candidates.items[0];
    && candidate.Obj? && "content" in candidate.fields
    && var content := candidate.fields["content"];
    && content.Obj? && "parts" in content.fields
    && var parts := content.fields["parts"];
    && parts.List? && |parts.items| > 0
    && var part := parts.items[0];
    && part.Obj? && "text" in part.fields && part.fields["text"] == text
  }

  /** A successful reply whose body holds a text at the lookup path yields exactly that text. */
  lemma ReplyTextHeld(status: int, statusError: string, body: Value, text: Value)
    requires !RaisesForStatus(status) && HoldsTextAt(body, text)
    ensures ReplyText(Response(status, statusError, Ok(body))) == Ok(text)
  {
  }

  /** Conversely, text is only ever extracted from a successful reply whose
      body holds it at the lookup path; every other reply makes the lookup raise. */
  lemma ReplyTextOnlyHeld(h: Http)
    ensures ReplyText(h).Ok? <==> h.Response? && !RaisesForStatus(h.status) && h.body.Ok?
                                  && exists text :: HoldsTextAt(h.body.value, text)
    ensures ReplyText(h).Ok? ==> HoldsTextAt(h.body.value, ReplyText(h).value)
  {
    if ReplyText(h).Ok? {
      assert HoldsTextAt(h.body.value, ReplyText(h).value);
    } else if h.Response? && !RaisesForStatus(h.status) && h.body.Ok? {
      if text :| HoldsTextAt(h.body.value, text) {
        ReplyTextHeld(h.status, h.statusError, h.body.value, text);
      }
    }
  }

  /** The body the endpoint sends when it answers with `text` and nothing else. */
  function Envelope(text: Value): (body: Value)
    ensures HoldsTextAt(body, text)
  {
    Obj(map["candidates" := List([Obj(map["content" := Obj(map["parts" := List([Obj(map["text" := text])])])])])])
  }

  /** A minimal answer is read back exactly: the lookup path inverts `Envelope`. */
  lemma ReplyTextOfEnvelope(status: int, statusError: string, text: Value)
    requires !RaisesForStatus(status)
    ensures ReplyText(Response(status, statusError, Ok(Envelope(text)))) == Ok(text)
  {
    ReplyTextHeld(status, statusError, Envelope(text), text);
  }

  /** A body without a `candidates` key makes the lookup fail with `KeyError('candidates')`. */
  lemma ReplyTextWithoutCandidates(status: int, statusError: string, fields: map<string, Value>)
    requires !RaisesForStatus(status) && "candidates" !in fields
    ensures ReplyText(Response(status, statusError, Ok(Obj(fields)))) == Err("'candidates'")
  {
    assert "'" + "candidates" + "'" == "'candidates'";
    assert Field(Obj(fields), "candidates") == Err("'candidates'");
  }

  /** An empty candidate list makes the lookup fail with `IndexError`, whatever else the body holds. */
  lemma ReplyTextNoCandidate(status: int, statusError: string, fields: map<string, Value>)
    requires !RaisesForStatus(status)
    requires "candidates" in fields && fields["candidates"] == List([])
    ensures ReplyText(Response(status, statusError, Ok(Obj(fields)))) == Err("list index out of range")
  {
  }
}
