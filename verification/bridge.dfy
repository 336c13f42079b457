/** `APIBridge`: the speech capabilities (guards and return values only; the
    ElevenLabs calls themselves are parameters) and the decision audit log. */
module Bridge {
  import opened Values
  import opened Text
  import MemoryManager

  /** `ElevenLabs(api_key=eleven_key) if eleven_key else None`: a client exists
      exactly when the key is a non-empty string. */
  predicate ClientPresent(key: string): (b: bool)
    ensures b <==> Truthy(Str(key))
  {
    |key| > 0
  }

  const NoTranscription: string := "No Audio Transcription"
  const AdvicePath: string := "data/latest_advice.mp3"

  /** `capture_voice(path)`, given what the transcription service did: its
      text, or the error it raised (opening the file included). */
  function CaptureVoice(key: string, transcription: Result<string, string>): (text: string)
    ensures !ClientPresent(key) ==> text == NoTranscription
    ensures ClientPresent(key) && transcription.Err? ==> text == ""
    ensures ClientPresent(key) && transcription.Ok? ==> text == transcription.value
  {
    if !ClientPresent(key) then NoTranscription
    else
      match transcription
      case Ok(t) => t
      case Err(_) => ""
  }

  /** What the speech service did: raised before producing audio, or streamed
      chunks, either to the end or until it raised. */
  datatype Speech = Refused(error: string) | Streamed(chunks: seq<seq<bv8>>, completed: bool)

  function Concat(chunks: seq<seq<bv8>>): seq<bv8> {
    if |chunks| == 0 then [] else chunks[0] + Concat(chunks[1..])
  }

  /** `speak_advice(text)`: the path returned and the content of the audio
      file afterwards. The file is opened for writing before the stream is
      read, so a stream that breaks leaves the chunks written so far. */
  function SpeakAdvice(key: string, speech: Speech, audioFile: Option<seq<bv8>>)
    : (out: (Option<string>, Option<seq<bv8>>))
    ensures !ClientPresent(key) ==> out == (None, audioFile)
    ensures speech.Refused? ==> out == (None, audioFile)
    ensures out.0.Some? <==> ClientPresent(key) && speech.Streamed? && speech.completed
    ensures out.0.Some? ==> out.0.value == AdvicePath
    ensures ClientPresent(key) && speech.Streamed? ==> out.1 == Some(Concat(speech.chunks))
  {
    if !ClientPresent(key) then (None, audioFile)
    else
      match speech
      case Refused(_) => (None, audioFile)
      case Streamed(chunks, completed) =>
        (if completed then Some(AdvicePath) else None, Some(Concat(chunks)))
  }

  predicate IsDigit(c: char) {
    '0' <= c <= '9'
  }

  /** A `%Y-%m-%d %H:%M:%S` time stamp with a four-digit year. */
  predicate IsStamp(s: string) {
    && |s| == 19
    && s[4] == '-' && s[7] == '-' && s[10] == ' ' && s[13] == ':' && s[16] == ':'
    && forall i :: 0 <= i < 19 && i != 4 && i != 7 && i != 10 && i != 13 && i != 16 ==> IsDigit(s[i])
  }

  /** `timestamp.replace(' ', '-').replace(':', '')` */
  function DecisionId(ts: string): (id: string)
    ensures ' ' !in id && ':' !in id
    ensures |id| <= |ts|
  {
    var dashed := Replace(ts, " ", "-");
    ReplaceAddsNothing(dashed, ":", "", ' ');
    Replace(dashed, ":", "")
  }

  /** A text without spaces and colons is its own identifier. */
  lemma DecisionIdWithoutSeparators(ts: string)
    requires ' ' !in ts && ':' !in ts
    ensures DecisionId(ts) == ts
  {
    MissingFirstChar(ts, " ");
    MissingFirstChar(ts, ":");
  }

  /** The stamp an identifier was made from: the inverse of `DecisionId` on stamps. */
  function StampOfId(id: string): string
    requires |id| == 17
  {
    id[..10] + " " + id[11..13] + ":" + id[13..15] + ":" + id[15..]
  }

  lemma ReplaceCharFree(x: string, p: string, r: string)
    requires |p| == 1 && forall k :: 0 <= k < |x| ==> x[k] != p[0]
    ensures Replace(x, p, r) == x
  {
    MissingFirstChar(x, p);
    ReplaceWithoutMatch(x, p, r);
  }

  /** The identifier of a stamp: its date, a dash, and its time without colons. */
  lemma StampId(ts: string)
    requires IsStamp(ts)
    ensures DecisionId(ts) == ts[..10] + "-" + ts[11..13] + ts[14..16] + ts[17..]
  {
    var a, b, c, d := ts[..10], ts[11..13], ts[14..16], ts[17..];
    assert ts == a + (" " + (b + (":" + (c + (":" + d)))));
    SpaceToDash(ts, a, b, c, d);
    DropColons(a + ("-" + (b + (":" + (c + (":" + d))))), a, b, c, d);
    assert a + ("-" + (b + (c + d))) == a + "-" + b + c + d;
  }

  /** `replace(' ', '-')` on a stamp cut at its separators. */
  lemma SpaceToDash(s: string, a: string, b: string, c: string, d: string)
    requires forall k :: 0 <= k < |a| ==> IsDigit(a[k]) || a[k] == '-'
    requires forall k :: 0 <= k < |b| ==> IsDigit(b[k])
    requires forall k :: 0 <= k < |c| ==> IsDigit(c[k])
    requires forall k :: 0 <= k < |d| ==> IsDigit(d[k])
    requires s == a + (" " + (b + (":" + (c + (":" + d)))))
    ensures Replace(s, " ", "-") == a + ("-" + (b + (":" + (c + (":" + d)))))
  {
    ReplaceCharFree(a, " ", "-");
    ReplaceCharFree(b, " ", "-");
    ReplaceCharFree(c, " ", "-");
    ReplaceCharFree(d, " ", "-");
    ReplaceCharFree(":", " ", "-");
    ReplaceConcat(a, " " + (b + (":" + (c + (":" + d)))), " ", "-");
    ReplaceConcat(" ", b + (":" + (c + (":" + d))), " ", "-");
    ReplaceConcat(b, ":" + (c + (":" + d)), " ", "-");
    ReplaceConcat(":", c + (":" + d), " ", "-");
    ReplaceConcat(c, ":" + d, " ", "-");
    ReplaceConcat(":", d, " ", "-");
    assert Replace(" ", " ", "-") == "-" + Replace("", " ", "-");
  }

  /** `replace(':', '')` on a dashed stamp cut at its separators. */
  lemma DropColons(s: string, a: string, b: string, c: string, d: string)
    requires forall k :: 0 <= k < |a| ==> IsDigit(a[k]) || a[k] == '-'
    requires forall k :: 0 <= k < |b| ==> IsDigit(b[k])
    requires forall k :: 0 <= k < |c| ==> IsDigit(c[k])
    requires forall k :: 0 <= k < |d| ==> IsDigit(d[k])
    requires s == a + ("-" + (b + (":" + (c + (":" + d)))))
    ensures Replace(s, ":", "") == a + ("-" + (b + (c + d)))
  {
    ReplaceCharFree(a, ":", "");
    ReplaceCharFree(b, ":", "");
    ReplaceCharFree(c, ":", "");
    ReplaceCharFree(d, ":", "");
    ReplaceCharFree("-", ":", "");
    ReplaceConcat(a, "-" + (b + (":" + (c + (":" + d)))), ":", "");
    ReplaceConcat("-", b + (":" + (c + (":" + d))), ":", "");
    ReplaceConcat(b, ":" + (c + (":" + d)), ":", "");
    ReplaceConcat(":", c + (":" + d), ":", "");
    ReplaceConcat(c, ":" + d, ":", "");
    ReplaceConcat(":", d, ":", "");
    assert Replace(":", ":", "") == "" + Replace("", ":", "");
    assert "" + d == d;
    assert "" + (c + d) == c + d;
  }

  /** For a well-formed stamp the identifier is 17 characters, holds no space
      or colon, and gives the stamp back. */
  lemma DecisionIdShape(ts: string)
    requires IsStamp(ts)
    ensures |DecisionId(ts)| == 17
    ensures forall k :: 0 <= k < 17 ==> DecisionId(ts)[k] != ' ' && DecisionId(ts)[k] != ':'
    ensures StampOfId(DecisionId(ts)) == ts
  {
    StampId(ts);
    var id := DecisionId(ts);
    assert id[..10] == ts[..10];
    assert id[11..13] == ts[11..13];
    assert id[13..15] == ts[14..16];
    assert id[15..] == ts[17..];
    forall k | 0 <= k < 17
      ensures id[k] != ' ' && id[k] != ':'
    {
      if k < 10 {
        assert id[k] == id[..10][k] == ts[k];
      } else if 11 <= k < 13 {
        assert id[k] == id[11..13][k - 11] == ts[k];
      } else if 13 <= k < 15 {
        assert id[k] == id[13..15][k - 13] == ts[k + 1];
      } else if 15 <= k {
        assert id[k] == id[15..][k - 15] == ts[k + 2];
      }
    }
    assert ts == ts[..10] + " " + ts[11..13] + ":" + ts[14..16] + ":" + ts[17..];
  }

  /** `str(decision_data.get(key))` for a packet of strings: a missing key shows as `None`. */
  function Shown(packet: map<string, string>, key: string): (shown: string)
    ensures key in packet ==> shown == packet[key]
    ensures key !in packet ==> shown == "None"
  {
    if key in packet then packet[key] else "None"
  }

  /** The seven lines of a decision-log entry. */
  function EntryLines(ts: string, packet: map<string, string>): seq<string> {
    [ "ID: " + DecisionId(ts),
      "DATE: " + ts,
      "CONTEXT/TRIGGER: " + Shown(packet, "trigger"),
      "ADVICE: " + Shown(packet, "advice"),
      "RATIONALE: " + Shown(packet, "rationale"),
      "PROBABILITY/IMPACT: " + Shown(packet, "impact"),
      seq(40, _ => '=') ]
  }

  /** The text `log_decision_to_file` appends: seven newline-terminated lines. */
  function DecisionEntry(ts: string, packet: map<string, string>): (e: string)
    ensures e == JoinLines(EntryLines(ts, packet))
  {
    var ls := EntryLines(ts, packet);
    JoinLines7(ls);
    ls[0] + "\n" + (ls[1] + "\n" + (ls[2] + "\n" + (ls[3] + "\n" + (ls[4] + "\n" + (ls[5] + "\n" + (ls[6] + "\n" + ""))))))
  }

  /** An entry whose stamp and fields hold no newline reads back as exactly
      its seven lines, in order, the last one forty `=` signs. */
  lemma DecisionEntryLayout(ts: string, packet: map<string, string>)
    requires OneLine(ts)
    requires forall k :: k in packet ==> OneLine(packet[k])
    ensures var ls := SplitLines(DecisionEntry(ts, packet));
      && |ls| == 7
      && ls[0] == "ID: " + DecisionId(ts)
      && ls[1] == "DATE: " + ts
      && ls[2] == "CONTEXT/TRIGGER: " + Shown(packet, "trigger")
      && ls[3] == "ADVICE: " + Shown(packet, "advice")
      && ls[4] == "RATIONALE: " + Shown(packet, "rationale")
      && ls[5] == "PROBABILITY/IMPACT: " + Shown(packet, "impact")
      && |ls[6]| == 40 && forall k :: 0 <= k < 40 ==> ls[6][k] == '='
  {
    EntryLinesAreLines(ts, packet);
    SplitJoinLines(EntryLines(ts, packet));
  }

  lemma EntryLinesAreLines(ts: string, packet: map<string, string>)
    requires OneLine(ts)
    requires forall k :: k in packet ==> OneLine(packet[k])
    ensures forall k :: 0 <= k < |EntryLines(ts, packet)| ==> OneLine(EntryLines(ts, packet)[k])
  {
    var ls := EntryLines(ts, packet);
    LabelsOneLine();
    DecisionIdOneLine(ts);
    OneLineConcat("ID: ", DecisionId(ts));
    OneLineConcat("DATE: ", ts);
    OneLineConcat("CONTEXT/TRIGGER: ", Shown(packet, "trigger"));
    OneLineConcat("ADVICE: ", Shown(packet, "advice"));
    OneLineConcat("RATIONALE: ", Shown(packet, "rationale"));
    OneLineConcat("PROBABILITY/IMPACT: ", Shown(packet, "impact"));
    assert OneLine(ls[6]);
  }

  /** The labels of an entry hold no newline. */
  lemma LabelsOneLine()
    ensures OneLine("ID: ") && OneLine("DATE: ")
    ensures OneLine("CONTEXT/TRIGGER: ") && OneLine("ADVICE: ")
    ensures OneLine("RATIONALE: ") && OneLine("PROBABILITY/IMPACT: ")
  {
  }

  lemma DecisionIdOneLine(ts: string)
    requires OneLine(ts)
    ensures OneLine(DecisionId(ts))
  {
    ReplaceKeepsOneLine(ts, " ", "-");
    ReplaceKeepsOneLine(Replace(ts, " ", "-"), ":", "");
  }

  /** Replacing a pattern by newline-free text introduces no newline. */
  lemma {:induction false} ReplaceKeepsOneLine(s: string, p: string, r: string)
    requires |p| > 0 && OneLine(s) && OneLine(r)
    ensures OneLine(Replace(s, p, r))
    decreases |s|
  {
    if |s| >= |p| {
      if s[..|p|] == p {
        ReplaceKeepsOneLine(s[|p|..], p, r);
      } else {
        ReplaceKeepsOneLine(s[1..], p, r);
      }
    }
  }

  /** `log_decision_to_file(decision_data)`: the entry is appended and earlier log text is kept. */
  function LogDecisionToFile(st: MemoryManager.Store, ts: string, packet: map<string, string>)
    : (st': MemoryManager.Store)
    ensures |st'.decisions| == |st.decisions| + 1
    ensures st'.decisions[..|st.decisions|] == st.decisions
    ensures st'.decisions[|st.decisions|] == DecisionEntry(ts, packet)
    ensures st' == st.(decisions := st'.decisions)
  {
    st.(decisions := st.decisions + [DecisionEntry(ts, packet)])
  }
}
