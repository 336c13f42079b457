/** `FilterAgent.sift_input`: the classifier. The request to the language
    model and `json.loads` are outside the model; what is modelled is how the
    reply is unwrapped, how code fences are cleaned off, and the fallback
    record returned on any failure. */
module FilterAgent {
  import opened Values
  import opened Text
  import opened ModelReply

  const Fence: string := "```"
  const JsonFence: string := "```json"

  /** The classification returned whenever anything goes wrong. */
  const Fallback: Value := Obj(map[
    "structured_data" := Null,
    "fluff" := Bool(true),
    "updates_to_bio" := Null,
    "is_important_decision" := Bool(false)])

  /** `content.replace('```json', '').replace('```', '')`: no fence is left. */
  function Unfence(content: string): (u: string)
    ensures !Contains(u, Fence)
  {
    NoFenceAfterRemoval(Replace(content, JsonFence, ""));
    Replace(Replace(content, JsonFence, ""), Fence, "")
  }

  /** `content.replace('```json', '').replace('```', '').strip()` */
  function CleanFences(content: string): (r: string)
    ensures !Contains(r, Fence)
    ensures |r| > 0 ==> !IsSpace(r[0]) && !IsSpace(r[|r| - 1])
  {
    var unfenced := Unfence(content);
    StripKeepsNoFence(unfenced);
    Strip(unfenced)
  }

  /** `strip` keeps a slice, so it cannot create a fence. */
  lemma StripKeepsNoFence(s: string)
    requires !Contains(s, Fence)
    ensures !Contains(Strip(s), Fence)
  {
    var i := StripStart(s);
    NoPatternInSlice(s, i, i + |Strip(s)|, Fence);
  }

  /** Removing a fence keeps a leading non-backtick character in front. */
  lemma FirstCharKept(t: string)
    requires |t| > 0 && t[0] != '`'
    ensures |Replace(t, Fence, "")| > 0 && Replace(t, Fence, "")[0] == t[0]
  {
    if |t| >= 3 {
      assert t[..3][0] == t[0];
    }
  }

  /** One pass of `replace('```', '')` leaves no fence behind: removing a
      fence never brings backticks on its two sides together into a new one. */
  lemma {:induction false} NoFenceAfterRemoval(s: string)
    ensures !Contains(Replace(s, Fence, ""), Fence)
    decreases |s|
  {
    var r := Replace(s, Fence, "");
    if |s| < 3 {
      assert r == s;
      NoRoomForMatch(s, Fence);
    } else if s[..3] == Fence {
      assert |Fence| == 3;
      assert r == "" + Replace(s[3..], Fence, "");
      assert r == Replace(s[3..], Fence, "");
      NoFenceAfterRemoval(s[3..]);
    } else {
      var t := s[1..];
      var rt := Replace(t, Fence, "");
      NoFenceAfterRemoval(t);
      assert r == [s[0]] + rt;
      assert r[1..] == rt;
      if s[0] == '`' {
        if t[0] != '`' {
          FirstCharKept(t);
          assert r[1] != '`';
        } else {
          assert t[1] != '`' by { assert s[..3] == [s[0], s[1], s[2]]; }
          if |t| < 3 {
            assert rt == t;
          } else {
            assert t[..3][1] == t[1];
            assert rt == [t[0]] + Replace(t[1..], Fence, "");
            FirstCharKept(t[1..]);
          }
          assert r[2] != '`';
        }
        assert !HasPrefix(r, Fence);
      } else {
        assert r[0] != '`';
        assert !HasPrefix(r, Fence);
      }
    }
  }

  /** Cleaning is idempotent: a cleaned reply is already clean. */
  lemma {:induction false} CleanFencesIdempotent(content: string)
    ensures CleanFences(CleanFences(content)) == CleanFences(content)
  {
    var c := CleanFences(content);
    if Contains(c, JsonFence) {
      assert JsonFence == Fence + "json";
      ContainsPrefixOfPattern(c, Fence, "json");
    }
    ReplaceWithoutMatch(c, JsonFence, "");
    ReplaceWithoutMatch(c, Fence, "");
    StripTrimmed(c);
  }

  /** Text without backticks and without surrounding whitespace passes through unchanged. */
  lemma {:induction false} CleanFencesPlain(content: string)
    requires forall k :: 0 <= k < |content| ==> content[k] != '`'
    requires |content| > 0 ==> !IsSpace(content[0]) && !IsSpace(content[|content| - 1])
    ensures CleanFences(content) == content
  {
    MissingFirstChar(content, JsonFence);
    MissingFirstChar(content, Fence);
    ReplaceWithoutMatch(content, JsonFence, "");
    ReplaceWithoutMatch(content, Fence, "");
    StripTrimmed(content);
  }

  /** `sift_input(raw_text)`, given the endpoint's reply and the JSON parser
      (`json.loads`, `None` when it raises). */
  function SiftInput(reply: Http, loads: string -> Option<Value>): (r: Value)
    // any failure on the way to the reply text gives the fallback record
    ensures ReplyText(reply).Err? ==> r == Fallback
    // a text that parses is returned verbatim, with no key filled in
    ensures ReplyText(reply).Ok? && ReplyText(reply).value.Str?
            && loads(CleanFences(ReplyText(reply).value.s)).Some?
            ==> r == loads(CleanFences(ReplyText(reply).value.s)).value
    // a text that does not parse gives the fallback record
    ensures ReplyText(reply).Ok? && ReplyText(reply).value.Str?
            && loads(CleanFences(ReplyText(reply).value.s)).None?
            ==> r == Fallback
    // non-string content is returned as it is
    ensures ReplyText(reply).Ok? && !ReplyText(reply).value.Str? ==> r == ReplyText(reply).value
  {
    match ReplyText(reply)
    case Err(_) => Fallback
    case Ok(content) =>
      if content.Str? then loads(CleanFences(content.s)).GetOr(Fallback)
      else content
  }

  /** Every error status gives the fallback record, whatever the body says. */
  lemma ErrorStatusFallsBack(status: int, statusError: string, body: Result<Value, string>,
                             loads: string -> Option<Value>)
    requires 400 <= status < 600
    ensures SiftInput(Response(status, statusError, body), loads) == Fallback
  {
  }

  /** A fenced JSON answer is parsed from the text between the fences. */
  lemma SiftFencedAnswer(json: string, loads: string -> Option<Value>)
    requires forall k :: 0 <= k < |json| ==> json[k] != '`'
    requires |json| > 0 ==> !IsSpace(json[0]) && !IsSpace(json[|json| - 1])
    ensures SiftInput(Response(200, "", Ok(Envelope(Str(JsonFence + "\n" + json + "\n" + Fence)))), loads)
         == loads(json).GetOr(Fallback)
  {
    ReplyTextOfEnvelope(200, "", Str(JsonFence + "\n" + json + "\n" + Fence));
    CleanFencedJson(json);
  }

  /** The cleanup turns a fenced answer into the text between the fences. */
  lemma CleanFencedJson(json: string)
    requires forall k :: 0 <= k < |json| ==> json[k] != '`'
    requires |json| > 0 ==> !IsSpace(json[0]) && !IsSpace(json[|json| - 1])
    ensures CleanFences(JsonFence + "\n" + json + "\n" + Fence) == json
  {
    var inner := "\n" + json + "\n";
    var tail := inner + Fence;
    var text := JsonFence + "\n" + json + "\n" + Fence;
    assert text == JsonFence + tail;
    assert |JsonFence| == 7;
    assert text[..7] == JsonFence;
    assert text[7..] == tail;
    assert Replace(text, JsonFence, "") == "" + Replace(tail, JsonFence, "");
    assert Replace(tail, JsonFence, "") == tail by {
      MissingFirstCharBeforeEnd(tail);
      ReplaceWithoutMatch(tail, JsonFence, "");
    }
    assert Replace(text, JsonFence, "") == tail;
    ReplaceFenceAtEnd(inner);
    StripNewlines(json);
  }

  lemma StripNewlines(json: string)
    requires |json| > 0 ==> !IsSpace(json[0]) && !IsSpace(json[|json| - 1])
    ensures Strip("\n" + json + "\n") == json
  {
    var t := json + "\n";
    assert "\n" + json + "\n" == ['\n'] + t;
    LStripDropsSpace('\n', t);
    if |json| == 0 {
      assert t == ['\n'] + "";
      LStripDropsSpace('\n', "");
    } else {
      assert t[0] == json[0];
      RStripDropsSpace(json, '\n');
    }
  }

  /** A backtick-free text followed by one fence loses exactly the fence. */
  lemma {:induction false} ReplaceFenceAtEnd(s: string)
    requires forall k :: 0 <= k < |s| ==> s[k] != '`'
    ensures Replace(s + Fence, Fence, "") == s
    decreases |s|
  {
    if |s| == 0 {
      assert s + Fence == Fence;
      assert Replace(Fence, Fence, "") == "" + Replace("", Fence, "");
    } else {
      var t := s + Fence;
      assert t[..3] != Fence by { assert t[..3][0] == s[0]; }
      assert t[1..] == s[1..] + Fence;
      ReplaceFenceAtEnd(s[1..]);
      assert [s[0]] + s[1..] == s;
    }
  }

  /** A text whose only backticks are a closing fence does not contain an opening JSON fence. */
  lemma MissingFirstCharBeforeEnd(t: string)
    requires |t| >= 3 && t[|t| - 3..] == Fence
    requires forall k :: 0 <= k < |t| - 3 ==> t[k] != '`'
    ensures !Contains(t, JsonFence)
  {
    NoRoomForMatch(t, JsonFence);
  }
}
