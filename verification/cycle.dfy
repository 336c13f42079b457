/** `FinancierApp.run_cycle`: one user turn. The cycle is a pure function
    from a store and the outside world's answers to the ordered list of file
    effects it performs and how it ends; the store afterwards is those
    effects replayed in order. */
module Cycle {
  import opened Values
  import opened ModelReply
  import FilterAgent
  import RiskEngine
  import MemoryManager
  import Bridge

  type Store = MemoryManager.Store

  /** What the user handed over: typed text, or a path to an audio file. */
  datatype Input = Typed(text: string) | Voice(path: string)

  /** The `datetime.now()` readings of one cycle, one per write that stamps. */
  datatype Clock = Clock(interaction: string, transaction: string, decision: string)

  /** Everything outside the program that one cycle consults.
      `marketReadError` and `bioReadError` are what opening or reading the
      market file and the profile raises when the file exists but cannot be
      read (a permission error, an undecodable byte, a directory). */
  datatype World = World(
    elevenKey: string,
    transcription: Result<string, string>,
    classifierReply: Http,
    loads: string -> Option<Value>,
    ledgerReadable: bool,
    marketReadError: Option<string>,
    bioReadError: Option<string>,
    advisorReply: Http,
    show: Value -> string,
    speech: Bridge.Speech,
    clock: Clock)

  const Rationale: string := "Analyzed via MiMo-V2 Hybrid-Thinking Mode"
  const Impact: string := "Projected 12-month wealth adjustment"
  const DescriptionPrefix: string := "Extracted from: "
  const ContextSize: nat := 5

  /** A write to one of the files. */
  datatype Effect =
    | LoggedInteraction(ts: string, speaker: string, text: string)
    | AppendedRow(ts: string, tType: Value, category: Value, amount: Value, description: string, necessary: bool)
    | SavedBio(doc: Value)
    | LoggedDecision(ts: string, packet: map<string, string>)
    | WroteAudio(audio: seq<bv8>)

  function Apply(st: Store, e: Effect): Store {
    match e
    case LoggedInteraction(ts, speaker, text) => MemoryManager.LogInteraction(st, ts, speaker, text)
    case AppendedRow(ts, t, c, a, d, n) => MemoryManager.AddTransaction(st, ts, t, c, a, d, n)
    case SavedBio(doc) => MemoryManager.SaveJson(st, doc)
    case LoggedDecision(ts, packet) => Bridge.LogDecisionToFile(st, ts, packet)
    case WroteAudio(audio) => st.(speech := Some(audio))
  }

  function Replay(st: Store, es: seq<Effect>): Store
    decreases |es|
  {
    if |es| == 0 then st else Replay(Apply(st, es[0]), es[1..])
  }

  lemma {:induction false} ReplayConcat(st: Store, a: seq<Effect>, b: seq<Effect>)
    ensures Replay(st, a + b) == Replay(Replay(st, a), b)
    decreases |a|
  {
    if |a| > 0 {
      assert (a + b)[1..] == a[1..] + b;
      ReplayConcat(Apply(st, a[0]), a[1..], b);
    } else {
      assert a + b == b;
    }
  }

  /** Why a cycle stopped with an exception before advising. */
  datatype Crash =
    | ClassificationNotDict                  // `filtered_data.get` on a non-dict
    | StructuredDataNotDict                  // `sd.get` on a truthy non-dict
    | BioUnreadable(error: string)           // `load_json` raised
    | BioNotDict                             // `update` / `setdefault` on a non-dict profile
    | NotesNotList                           // `.append` on a `notes` that is not a list
    | ContextUnreadable(error: string)       // the advisor's read of an existing file raised

  datatype Ending =
    | Advised(advice: string, prompt: RiskEngine.AdvisorPrompt, spokenPath: Option<string>)
    | Crashed(crash: Crash)

  /** The text the cycle works on, the writes it made in order, and how it ended. */
  datatype Turn = Turn(rawText: string, effects: seq<Effect>, ending: Ending)

  /** Step 1: voice input is transcribed, anything else passes through unchanged. */
  function RawText(input: Input, w: World): (raw: string)
    ensures input.Typed? ==> raw == input.text
    ensures input.Voice? ==> raw == Bridge.CaptureVoice(w.elevenKey, w.transcription)
  {
    match input
    case Typed(t) => t
    case Voice(_) => Bridge.CaptureVoice(w.elevenKey, w.transcription)
  }

  /** Step 2a: the ledger append, gated on the truthiness of `structured_data`. */
  function LedgerEffects(fd: map<string, Value>, raw: string, ts: string): (r: Result<seq<Effect>, Crash>)
    ensures r.Ok? ==> |r.value| <= 1 && forall i :: 0 <= i < |r.value| ==> r.value[i].AppendedRow?
  {
    var sd := Get(fd, "structured_data", Null);
    if !Truthy(sd) then Ok([])
    else if !sd.Obj? then Err(StructuredDataNotDict)
    else
      Ok([AppendedRow(ts,
                      FieldOf(sd.fields, "Type", "type"),
                      FieldOf(sd.fields, "Category", "category"),
                      FieldOf(sd.fields, "Amount", "amount"),
                      DescriptionPrefix + raw,
                      !Truthy(Get(fd, "fluff", Bool(false))))])
  }

  /** The profile after a truthy `updates_to_bio`: a dict is merged key by
      key, a string is appended to `notes`, anything else is written back as read. */
  function MergeBio(current: Value, updates: Value): (r: Result<Value, Crash>)
    // a mapping: every updated key takes its new value, every other key keeps its old one
    ensures updates.Obj? && current.Obj? ==>
              && r.Ok? && r.value.Obj?
              && r.value.fields.Keys == current.fields.Keys + updates.fields.Keys
              && (forall k :: k in updates.fields ==> r.value.fields[k] == updates.fields[k])
              && (forall k :: k in current.fields && k !in updates.fields ==> r.value.fields[k] == current.fields[k])
    // a string: appended at the end of `notes`, which is created when absent
    ensures updates.Str? && current.Obj? && "notes" !in current.fields ==>
              r == Ok(Obj(current.fields["notes" := List([updates])]))
    ensures updates.Str? && current.Obj? && "notes" in current.fields && current.fields["notes"].List? ==>
              && r.Ok? && r.value.Obj? && "notes" in r.value.fields
              && r.value.fields["notes"] == List(current.fields["notes"].items + [updates])
              && r.value.fields == current.fields["notes" := r.value.fields["notes"]]
    ensures updates.Str? && current.Obj? && "notes" in current.fields && !current.fields["notes"].List? ==>
              r == Err(NotesNotList)
    ensures (updates.Obj? || updates.Str?) && !current.Obj? ==> r == Err(BioNotDict)
    // anything else: the same contents are written back
    ensures !updates.Obj? && !updates.Str? ==> r == Ok(current)
  {
    if updates.Obj? then
      if current.Obj? then Ok(Obj(current.fields + updates.fields)) else Err(BioNotDict)
    else if updates.Str? then
      if !current.Obj? then Err(BioNotDict)
      else if "notes" !in current.fields then Ok(Obj(current.fields["notes" := List([updates])]))
      else
        match current.fields["notes"]
        case List(items) => Ok(Obj(current.fields["notes" := List(items + [updates])]))
        case _ => Err(NotesNotList)
    else Ok(current)
  }

  /** Step 2b: the profile update, gated on the truthiness of `updates_to_bio`. */
  function BioEffects(fd: map<string, Value>, st: Store): (r: Result<seq<Effect>, Crash>)
    ensures r.Ok? ==> |r.value| <= 1 && forall i :: 0 <= i < |r.value| ==> r.value[i].SavedBio?
  {
    var updates := Get(fd, "updates_to_bio", Null);
    if !Truthy(updates) then Ok([])
    else
      match MemoryManager.LoadJson(st)
      case Err(e) => Err(BioUnreadable(e))
      case Ok(current) =>
        match MergeBio(current, updates)
        case Err(c) => Err(c)
        case Ok(doc) => Ok([SavedBio(doc)])
  }

  /** The rows `csv.DictReader` yields: every line after the first. A missing
      or unreadable ledger reads as no rows. */
  function LedgerRows(ledger: Option<seq<Row>>, readable: bool): (r: seq<Row>)
    ensures ledger.None? || !readable ==> r == []
    ensures ledger.Some? && readable && |ledger.value| > 0 ==> ledger.value == ledger.value[..1] + r
    ensures ledger.Some? && |ledger.value| == 0 ==> r == []
  {
    match ledger
    case None => []
    case Some(lines) => if !readable || |lines| == 0 then [] else lines[1..]
  }

  /** `transactions[-5:]`: the last five rows, or all of them when fewer, in order. */
  function Recent(rows: seq<Row>): (r: seq<Row>)
    ensures |r| == if |rows| < ContextSize then |rows| else ContextSize
    ensures r == rows[|rows| - |r|..]
  {
    if |rows| <= ContextSize then rows else rows[|rows| - ContextSize..]
  }

  /** The record `run_cycle` hands to the decision log. */
  function DecisionPacket(raw: string, advice: string): (p: map<string, string>)
    ensures p.Keys == {"trigger", "advice", "rationale", "impact"}
    ensures Bridge.Shown(p, "trigger") == raw && Bridge.Shown(p, "advice") == advice
    ensures Bridge.Shown(p, "rationale") == "Analyzed via MiMo-V2 Hybrid-Thinking Mode"
    ensures Bridge.Shown(p, "impact") == "Projected 12-month wealth adjustment"
  {
    map["trigger" := raw, "advice" := advice, "rationale" := Rationale, "impact" := Impact]
  }

  /** The audio file write `speak_advice` performs, if any. */
  function SpeechEffects(w: World): (r: seq<Effect>)
    ensures |r| <= 1 && forall i :: 0 <= i < |r| ==> r[i].WroteAudio?
  {
    if Bridge.ClientPresent(w.elevenKey) && w.speech.Streamed? then [WroteAudio(Bridge.Concat(w.speech.chunks))]
    else []
  }

  /** The audio write is the one `speak_advice` makes. */
  lemma SpeechMatches(audioFile: Option<seq<bv8>>, w: World, tail: seq<Effect>)
    requires |tail| >= 1 && tail[1..] == SpeechEffects(w)
    ensures (if |tail| <= 1 then audioFile else Some(tail[1].audio))
         == Bridge.SpeakAdvice(w.elevenKey, w.speech, audioFile).1
  {
    if |tail| > 1 {
      assert tail[1] == SpeechEffects(w)[0];
    }
  }

  /** The advisor's two reads raise nothing but `FileNotFoundError`. */
  predicate ContextReadable(w: World) {
    w.marketReadError.None? && w.bioReadError.None?
  }

  /** Steps 3 and 4: read the recent ledger, ask the advisor, log the decision,
      speak. A read error escaping the advisor ends the turn before any write. */
  function Advise(updated: Store, raw: string, w: World): (r: (Ending, seq<Effect>))
    ensures var files := RiskEngine.ContextFiles(updated.market, updated.bio, w.marketReadError, w.bioReadError);
      && (r.0.Advised? <==> files.Ok?)
      && (files.Err? ==> r.0 == Crashed(ContextUnreadable(files.error)) && r.1 == [])
    ensures r.0.Advised? ==>
              |r.1| >= 1 && r.1[0] == LoggedDecision(w.clock.decision, DecisionPacket(raw, r.0.advice))
              && r.1[1..] == SpeechEffects(w)
  {
    var stats := Recent(LedgerRows(updated.ledger, w.ledgerReadable));
    match RiskEngine.ProbabilisticReasoning(raw, stats, updated.market, updated.bio,
                                            w.marketReadError, w.bioReadError, w.advisorReply, w.show)
    case Err(e) => (Crashed(ContextUnreadable(e)), [])
    case Ok(reasoning) =>
      var spoken := Bridge.SpeakAdvice(w.elevenKey, w.speech, updated.speech);
      (Advised(reasoning.1, reasoning.0, spoken.0),
       [LoggedDecision(w.clock.decision, DecisionPacket(raw, reasoning.1))] + SpeechEffects(w))
  }

  /** What the classifier hands back; it writes no file. */
  function Classification(w: World): Value {
    FilterAgent.SiftInput(w.classifierReply, w.loads)
  }

  /** Step 2 as a whole: the ledger row and profile save the classification
      calls for, and the crash that stops the cycle there, if any. */
  datatype Front = Front(rows: seq<Effect>, bios: seq<Effect>, crash: Option<Crash>)

  function FrontStages(st: Store, raw: string, c: Value, ts: string): (f: Front)
    ensures |f.rows| <= 1 && (forall i :: 0 <= i < |f.rows| ==> f.rows[i].AppendedRow?)
    ensures |f.bios| <= 1 && (forall i :: 0 <= i < |f.bios| ==> f.bios[i].SavedBio?)
    ensures f.crash.Some? ==> f.bios == []
  {
    if !c.Obj? then Front([], [], Some(ClassificationNotDict))
    else
      match LedgerEffects(c.fields, raw, ts)
      case Err(e) => Front([], [], Some(e))
      case Ok(rows) =>
        match BioEffects(c.fields, st)
        case Err(e) => Front(rows, [], Some(e))
        case Ok(bios) => Front(rows, bios, None)
  }

  /** Steps 2a and 2b as a turn runs them: on its raw text, its classification
      and its transaction stamp. */
  function TurnFront(st: Store, input: Input, w: World): Front {
    FrontStages(st, RawText(input, w), Classification(w), w.clock.transaction)
  }

  /** `run_cycle(user_input, is_voice)`. */
  function RunCycle(st: Store, input: Input, w: World): (t: Turn)
    ensures t.rawText == RawText(input, w)
    ensures |t.effects| >= 1 && t.effects[0] == LoggedInteraction(w.clock.interaction, "USER", t.rawText)
  {
    var raw := RawText(input, w);
    var front := FrontStages(st, raw, Classification(w), w.clock.transaction);
    var done := [LoggedInteraction(w.clock.interaction, "USER", raw)] + front.rows + front.bios;
    match front.crash
    case Some(c) => Turn(raw, done, Crashed(c))
    case None =>
      var advised := Advise(Replay(st, done), raw, w);
      Turn(raw, done + advised.1, advised.0)
  }

  /** The store after one cycle. */
  function After(st: Store, input: Input, w: World): Store {
    Replay(st, RunCycle(st, input, w).effects)
  }

  /** The pipeline position of each kind of write. */
  function Rank(e: Effect): nat {
    match e
    case LoggedInteraction(_, _, _) => 0
    case AppendedRow(_, _, _, _, _, _) => 1
    case SavedBio(_) => 2
    case LoggedDecision(_, _) => 3
    case WroteAudio(_) => 4
  }

  predicate Ordered(es: seq<Effect>) {
    forall i, j :: 0 <= i < j < |es| ==> Rank(es[i]) < Rank(es[j])
  }

  /** Two ordered traces, every rank of the first below every rank of the second, join into one. */
  lemma OrderedConcat(a: seq<Effect>, b: seq<Effect>, k: nat)
    requires Ordered(a) && Ordered(b)
    requires forall i :: 0 <= i < |a| ==> Rank(a[i]) < k
    requires forall j :: 0 <= j < |b| ==> k <= Rank(b[j])
    ensures Ordered(a + b)
    ensures forall i :: 0 <= i < |a + b| ==> Rank((a + b)[i]) < k || i >= |a|
  {
  }

  /** A turn's writes by stage: the interaction line, at most one ledger row,
      at most one profile save, then (exactly when it advises) the decision
      and the audio. */
  lemma TurnShape(st: Store, input: Input, w: World) returns (rows: seq<Effect>, bios: seq<Effect>, tail: seq<Effect>)
    ensures RunCycle(st, input, w).rawText == RawText(input, w)
    ensures RunCycle(st, input, w).effects
         == [LoggedInteraction(w.clock.interaction, "USER", RawText(input, w))] + rows + bios + tail
    ensures rows == TurnFront(st, input, w).rows
    ensures bios == TurnFront(st, input, w).bios
    ensures |rows| <= 1 && (forall i :: 0 <= i < |rows| ==> rows[i].AppendedRow?)
    ensures |bios| <= 1 && (forall i :: 0 <= i < |bios| ==> bios[i].SavedBio?)
    ensures TurnFront(st, input, w).crash.Some? ==>
              tail == [] && RunCycle(st, input, w).ending == Crashed(TurnFront(st, input, w).crash.value)
    ensures RunCycle(st, input, w).ending.Advised? <==> tail != []
    ensures tail != [] ==> tail[0].LoggedDecision? && tail[1..] == SpeechEffects(w)
    ensures TurnFront(st, input, w).crash.None? ==>
              var advised := Advise(Replay(st, [LoggedInteraction(w.clock.interaction, "USER", RawText(input, w))] + rows + bios),
                                    RawText(input, w), w);
              RunCycle(st, input, w).ending == advised.0 && tail == advised.1
  {
    var raw := RawText(input, w);
    var front := FrontStages(st, raw, Classification(w), w.clock.transaction);
    rows, bios := front.rows, front.bios;
    var done := [LoggedInteraction(w.clock.interaction, "USER", raw)] + rows + bios;
    if front.crash.Some? {
      tail := [];
      assert done + tail == done;
    } else {
      var advised := Advise(Replay(st, done), raw, w);
      tail := advised.1;
      assert RunCycle(st, input, w) == Turn(raw, done + tail, advised.0);
    }
  }

  /** Stage segments of the shapes `TurnShape` names join into an ordered
      trace, holding a decision exactly when the tail is non-empty. */
  lemma StagesOrdered(first: Effect, rows: seq<Effect>, bios: seq<Effect>, tail: seq<Effect>, speech: seq<Effect>)
    requires first.LoggedInteraction?
    requires |rows| <= 1 && (forall i :: 0 <= i < |rows| ==> rows[i].AppendedRow?)
    requires |bios| <= 1 && (forall i :: 0 <= i < |bios| ==> bios[i].SavedBio?)
    requires |speech| <= 1 && (forall i :: 0 <= i < |speech| ==> speech[i].WroteAudio?)
    requires tail == [] || (|tail| >= 1 && tail[0].LoggedDecision? && tail[1..] == speech)
    ensures Ordered([first] + rows + bios + tail)
    ensures tail != [] <==> exists i :: 0 <= i < |[first] + rows + bios + tail| && ([first] + rows + bios + tail)[i].LoggedDecision?
  {
    var logged := [first];
    OrderedConcat(logged, rows, 1);
    var lr := logged + rows;
    assert forall i :: 0 <= i < |lr| ==> Rank(lr[i]) <= 1;
    OrderedConcat(lr, bios, 2);
    var lrb := lr + bios;
    assert forall i :: 0 <= i < |lrb| ==> Rank(lrb[i]) <= 2;
    if tail != [] {
      OrderedConcat(tail[..1], tail[1..], 4);
      assert tail == tail[..1] + tail[1..];
      OrderedConcat(lrb, tail, 3);
      assert (lrb + tail)[|lrb|].LoggedDecision?;
    } else {
      assert lrb + tail == lrb;
      assert forall i :: 0 <= i < |lrb| ==> !lrb[i].LoggedDecision?;
    }
  }

  /** Every cycle first logs the user's text, then writes each file at most
      once in pipeline order; it logs a decision exactly when it advises. */
  lemma CycleEffectOrder(st: Store, input: Input, w: World)
    ensures var t := RunCycle(st, input, w);
      && |t.effects| >= 1
      && t.effects[0] == LoggedInteraction(w.clock.interaction, "USER", t.rawText)
      && Ordered(t.effects)
      && (t.ending.Advised? <==> exists i :: 0 <= i < |t.effects| && t.effects[i].LoggedDecision?)
  {
    var t := RunCycle(st, input, w);
    var rows, bios, tail := TurnShape(st, input, w);
    StagesOrdered(LoggedInteraction(w.clock.interaction, "USER", t.rawText), rows, bios, tail, SpeechEffects(w));
  }

  /** Which part of the store one write touches. */
  lemma ApplyFrame(st: Store, e: Effect)
    ensures Apply(st, e).market == st.market
    ensures !e.LoggedInteraction? ==> Apply(st, e).history == st.history
    ensures !e.AppendedRow? ==> Apply(st, e).ledger == st.ledger
    ensures !e.SavedBio? ==> Apply(st, e).bio == st.bio
    ensures !e.LoggedDecision? ==> Apply(st, e).decisions == st.decisions
    ensures !e.WroteAudio? ==> Apply(st, e).speech == st.speech
    ensures e.LoggedInteraction? ==>
              Apply(st, e).history == st.history + [MemoryManager.InteractionLine(e.ts, e.speaker, e.text)]
    ensures e.LoggedDecision? ==>
              Apply(st, e).decisions == st.decisions + [Bridge.DecisionEntry(e.ts, e.packet)]
    ensures e.SavedBio? ==> Apply(st, e).bio == Some(e.doc)
    ensures e.WroteAudio? ==> Apply(st, e).speech == Some(e.audio)
  {
  }

  /** Which parts of the store a trace of writes can touch. */
  lemma {:induction false} ReplayFrame(st: Store, es: seq<Effect>)
    ensures Replay(st, es).market == st.market
    ensures (forall i :: 0 <= i < |es| ==> !es[i].LoggedInteraction?) ==> Replay(st, es).history == st.history
    ensures (forall i :: 0 <= i < |es| ==> !es[i].AppendedRow?) ==> Replay(st, es).ledger == st.ledger
    ensures (forall i :: 0 <= i < |es| ==> !es[i].SavedBio?) ==> Replay(st, es).bio == st.bio
    ensures (forall i :: 0 <= i < |es| ==> !es[i].LoggedDecision?) ==> Replay(st, es).decisions == st.decisions
    ensures (forall i :: 0 <= i < |es| ==> !es[i].WroteAudio?) ==> Replay(st, es).speech == st.speech
    decreases |es|
  {
    if |es| > 0 {
      ApplyFrame(st, es[0]);
      ReplayFrame(Apply(st, es[0]), es[1..]);
      assert forall i :: 0 <= i < |es| - 1 ==> es[1..][i] == es[i + 1];
    }
  }

  /** The store after a staged trace, field by field, and the store the
      advisor reads (after the profile stage), which already holds the final
      ledger and profile. */
  lemma StagedReplay(st: Store, first: Effect, rows: seq<Effect>, bios: seq<Effect>, tail: seq<Effect>, w: World)
    requires first.LoggedInteraction?
    requires |rows| <= 1 && (forall i :: 0 <= i < |rows| ==> rows[i].AppendedRow?)
    requires |bios| <= 1 && (forall i :: 0 <= i < |bios| ==> bios[i].SavedBio?)
    requires tail == [] || (|tail| >= 1 && tail[0].LoggedDecision? && tail[1..] == SpeechEffects(w))
    ensures var after := Replay(st, [first] + rows + bios + tail);
            var mid := Replay(st, [first] + rows + bios);
      && after.history == st.history + [MemoryManager.InteractionLine(first.ts, first.speaker, first.text)]
      && after.market == st.market
      && after.ledger == (if rows == [] then st.ledger else Apply(st, rows[0]).ledger)
      && after.bio == (if bios == [] then st.bio else Some(bios[0].doc))
      && after.decisions == (if tail == [] then st.decisions
                             else st.decisions + [Bridge.DecisionEntry(tail[0].ts, tail[0].packet)])
      && after.speech == (if |tail| <= 1 then st.speech else Some(tail[1].audio))
      && mid.ledger == after.ledger && mid.bio == after.bio
      && mid.market == st.market && mid.speech == st.speech
  {
    var mid := Replay(st, [first] + rows + bios);
    ReplayConcat(st, [first] + rows + bios, tail);
    FrontReplay(st, first, rows, bios);
    TailReplay(mid, tail, w);
  }

  /** The first three stages: the interaction line, the row, the profile. */
  lemma FrontReplay(st: Store, first: Effect, rows: seq<Effect>, bios: seq<Effect>)
    requires first.LoggedInteraction?
    requires |rows| <= 1 && (forall i :: 0 <= i < |rows| ==> rows[i].AppendedRow?)
    requires |bios| <= 1 && (forall i :: 0 <= i < |bios| ==> bios[i].SavedBio?)
    ensures var mid := Replay(st, [first] + rows + bios);
      && mid.history == st.history + [MemoryManager.InteractionLine(first.ts, first.speaker, first.text)]
      && mid.market == st.market
      && mid.ledger == (if rows == [] then st.ledger else Apply(st, rows[0]).ledger)
      && mid.bio == (if bios == [] then st.bio else Some(bios[0].doc))
      && mid.decisions == st.decisions
      && mid.speech == st.speech
  {
    ReplayConcat(st, [first] + rows, bios);
    ReplayConcat(st, [first], rows);
    var s1 := Apply(st, first);
    ApplyFrame(st, first);
    ReplaySingle(s1, rows);
    var s2 := Replay(s1, rows);
    if rows != [] {
      ApplyFrame(s1, rows[0]);
    }
    ReplaySingle(s2, bios);
    if bios != [] {
      ApplyFrame(s2, bios[0]);
    }
  }

  /** The last stage: the decision entry, then the audio file. */
  lemma TailReplay(st: Store, tail: seq<Effect>, w: World)
    requires tail == [] || (|tail| >= 1 && tail[0].LoggedDecision? && tail[1..] == SpeechEffects(w))
    ensures var after := Replay(st, tail);
      && after.history == st.history && after.market == st.market
      && after.ledger == st.ledger && after.bio == st.bio
      && after.decisions == (if tail == [] then st.decisions
                             else st.decisions + [Bridge.DecisionEntry(tail[0].ts, tail[0].packet)])
      && after.speech == (if |tail| <= 1 then st.speech else Some(tail[1].audio))
  {
    if tail != [] {
      assert tail == tail[..1] + tail[1..];
      ReplayConcat(st, tail[..1], tail[1..]);
      ReplaySingle(st, tail[..1]);
      var s1 := Apply(st, tail[0]);
      ApplyFrame(st, tail[0]);
      ReplaySingle(s1, tail[1..]);
      if |tail| > 1 {
        ApplyFrame(s1, tail[1]);
      }
    }
  }

  /** Replaying at most one write is applying it. */
  lemma ReplaySingle(st: Store, es: seq<Effect>)
    requires |es| <= 1
    ensures Replay(st, es) == if es == [] then st else Apply(st, es[0])
  {
  }

  /** The interaction history gains exactly the user's line, whatever happens later. */
  lemma CycleLogsInteraction(st: Store, input: Input, w: World)
    ensures After(st, input, w).history
         == st.history + [MemoryManager.InteractionLine(w.clock.interaction, "USER", RawText(input, w))]
  {
    var rows, bios, tail := TurnShape(st, input, w);
    var first := LoggedInteraction(w.clock.interaction, "USER", RawText(input, w));
    StagedReplay(st, first, rows, bios, tail, w);
  }

  /** The row a truthy `structured_data` dict produces. */
  function NewRow(sd: map<string, Value>, fd: map<string, Value>, raw: string, ts: string): (row: Row)
    ensures MemoryManager.Column(row, "Type") == FieldOf(sd, "Type", "type")
    ensures MemoryManager.Column(row, "Category") == FieldOf(sd, "Category", "category")
    ensures MemoryManager.Column(row, "Amount") == FieldOf(sd, "Amount", "amount")
    ensures MemoryManager.Column(row, "Description") == Str("Extracted from: " + raw)
    // `necessary=not filtered_data.get('fluff', False)`
    ensures MemoryManager.Column(row, "Is_Necessary") == Bool(!Truthy(Get(fd, "fluff", Bool(false))))
    ensures MemoryManager.Column(row, "Timestamp") == Str(ts)
  {
    MemoryManager.TransactionRow(ts, FieldOf(sd, "Type", "type"), FieldOf(sd, "Category", "category"),
                                 FieldOf(sd, "Amount", "amount"), DescriptionPrefix + raw,
                                 !Truthy(Get(fd, "fluff", Bool(false))))
  }

  /** The ledger after a cycle: exactly one row appended when `structured_data`
      is a truthy dict, and no change otherwise (a truthy non-dict crashes,
      as does a classification that is not a dict). */
  lemma CycleLedger(st: Store, input: Input, w: World)
    ensures var c := Classification(w);
            var after := After(st, input, w);
            var t := RunCycle(st, input, w);
      && (!c.Obj? ==> after.ledger == st.ledger && t.ending == Crashed(ClassificationNotDict))
      && (c.Obj? ==>
            var sd := Get(c.fields, "structured_data", Null);
            && (!Truthy(sd) ==> after.ledger == st.ledger)
            && (Truthy(sd) && !sd.Obj? ==> after.ledger == st.ledger && t.ending == Crashed(StructuredDataNotDict))
            && (Truthy(sd) && sd.Obj? ==>
                  after.ledger == Some(st.ledger.GetOr([]) + [NewRow(sd.fields, c.fields, RawText(input, w), w.clock.transaction)])))
  {
    var raw := RawText(input, w);
    var rows, bios, tail := TurnShape(st, input, w);
    var first := LoggedInteraction(w.clock.interaction, "USER", raw);
    StagedReplay(st, first, rows, bios, tail, w);
    FrontLedger(st, raw, w);
    var c := Classification(w);
    if c.Obj? {
      var sd := Get(c.fields, "structured_data", Null);
      if Truthy(sd) && sd.Obj? {
        AppendNewRow(st, sd.fields, c.fields, raw, w.clock.transaction);
      }
    }
  }

  /** The write the ledger stage makes appends exactly the new row. */
  lemma AppendNewRow(st: Store, sd: map<string, Value>, fd: map<string, Value>, raw: string, ts: string)
    ensures Apply(st, AppendedRow(ts, FieldOf(sd, "Type", "type"), FieldOf(sd, "Category", "category"),
                                  FieldOf(sd, "Amount", "amount"), DescriptionPrefix + raw,
                                  !Truthy(Get(fd, "fluff", Bool(false))))).ledger
         == Some(st.ledger.GetOr([]) + [NewRow(sd, fd, raw, ts)])
  {
  }

  /** The ledger stage on its own: which row, if any, the classification
      calls for, and when it crashes instead. */
  lemma FrontLedger(st: Store, raw: string, w: World)
    ensures var c := Classification(w);
            var f := FrontStages(st, raw, Classification(w), w.clock.transaction);
      && (!c.Obj? ==> f.rows == [] && f.crash == Some(ClassificationNotDict))
      && (c.Obj? ==>
            var sd := Get(c.fields, "structured_data", Null);
            && (!Truthy(sd) ==> f.rows == [])
            && (Truthy(sd) && !sd.Obj? ==> f.rows == [] && f.crash == Some(StructuredDataNotDict))
            && (Truthy(sd) && sd.Obj? ==>
                  f.rows == [AppendedRow(w.clock.transaction,
                                         FieldOf(sd.fields, "Type", "type"),
                                         FieldOf(sd.fields, "Category", "category"),
                                         FieldOf(sd.fields, "Amount", "amount"),
                                         DescriptionPrefix + raw,
                                         !Truthy(Get(c.fields, "fluff", Bool(false))))]))
  {
  }

  /** The profile stage on its own, once the ledger stage went through. */
  lemma FrontBio(st: Store, raw: string, w: World)
    requires Classification(w).Obj?
    requires var sd := Get(Classification(w).fields, "structured_data", Null); !Truthy(sd) || sd.Obj?
    ensures var u := Get(Classification(w).fields, "updates_to_bio", Null);
            var f := FrontStages(st, raw, Classification(w), w.clock.transaction);
      && (!Truthy(u) ==> f.bios == [] && f.crash == None)
      && (Truthy(u) && st.bio.None? ==> f.bios == [] && f.crash == Some(BioUnreadable(MemoryManager.LoadJson(st).error)))
      && (Truthy(u) && st.bio.Some? && MergeBio(st.bio.value, u).Ok? ==>
            f.bios == [SavedBio(MergeBio(st.bio.value, u).value)] && f.crash == None)
      && (Truthy(u) && st.bio.Some? && MergeBio(st.bio.value, u).Err? ==>
            f.bios == [] && f.crash == Some(MergeBio(st.bio.value, u).error))
  {
    var c := Classification(w);
    assert LedgerEffects(c.fields, raw, w.clock.transaction).Ok?;
  }

  /** The profile after a cycle whose ledger stage went through: untouched by
      a falsy update, otherwise the merge of the stored profile with the update,
      or a crash that leaves it as it was. */
  lemma BioAfterLedgerStage(st: Store, input: Input, w: World)
    requires Classification(w).Obj?
    requires var sd := Get(Classification(w).fields, "structured_data", Null); !Truthy(sd) || sd.Obj?
    ensures var u := Get(Classification(w).fields, "updates_to_bio", Null);
            var after := After(st, input, w);
            var t := RunCycle(st, input, w);
      && (!Truthy(u) ==> after.bio == st.bio && (ContextReadable(w) ==> t.ending.Advised?))
      && (Truthy(u) && st.bio.None? ==>
            after.bio == None && t.ending == Crashed(BioUnreadable(MemoryManager.LoadJson(st).error)))
      && (Truthy(u) && st.bio.Some? && MergeBio(st.bio.value, u).Ok? ==>
            after.bio == Some(MergeBio(st.bio.value, u).value) && (ContextReadable(w) ==> t.ending.Advised?))
      && (Truthy(u) && st.bio.Some? && MergeBio(st.bio.value, u).Err? ==>
            after.bio == st.bio && t.ending == Crashed(MergeBio(st.bio.value, u).error))
  {
    var raw := RawText(input, w);
    var rows, bios, tail := TurnShape(st, input, w);
    var first := LoggedInteraction(w.clock.interaction, "USER", raw);
    StagedReplay(st, first, rows, bios, tail, w);
    FrontBio(st, raw, w);
  }

  /** The profile after a whole cycle. A crash of the ledger stage leaves it
      as it was; otherwise it is untouched by a falsy update, replaced by the
      merge of the stored profile with the update, or left as it was by a
      crash of the profile stage. */
  lemma CycleBio(st: Store, input: Input, w: World)
    ensures var c := Classification(w);
            var after := After(st, input, w);
            var t := RunCycle(st, input, w);
      && (!c.Obj? ==> after.bio == st.bio)
      && (c.Obj? ==>
            var sd := Get(c.fields, "structured_data", Null);
            var u := Get(c.fields, "updates_to_bio", Null);
            && (Truthy(sd) && !sd.Obj? ==> after.bio == st.bio)
            && (!Truthy(sd) || sd.Obj? ==>
                  && (!Truthy(u) ==> after.bio == st.bio && (ContextReadable(w) ==> t.ending.Advised?))
                  && (Truthy(u) && st.bio.None? ==>
                        after.bio == None && t.ending == Crashed(BioUnreadable(MemoryManager.LoadJson(st).error)))
                  && (Truthy(u) && st.bio.Some? && MergeBio(st.bio.value, u).Ok? ==>
                        after.bio == Some(MergeBio(st.bio.value, u).value) && (ContextReadable(w) ==> t.ending.Advised?))
                  && (Truthy(u) && st.bio.Some? && MergeBio(st.bio.value, u).Err? ==>
                        after.bio == st.bio && t.ending == Crashed(MergeBio(st.bio.value, u).error))))
  {
    var c := Classification(w);
    if c.Obj? && (var sd := Get(c.fields, "structured_data", Null); !Truthy(sd) || sd.Obj?) {
      BioAfterLedgerStage(st, input, w);
    } else {
      var raw := RawText(input, w);
      var rows, bios, tail := TurnShape(st, input, w);
      var first := LoggedInteraction(w.clock.interaction, "USER", raw);
      StagedReplay(st, first, rows, bios, tail, w);
      FrontLedger(st, raw, w);
    }
  }

  /** When the cycle advises, the advisor saw the user's text, the recent
      ledger and profile as the cycle leaves them, and the decision log gains
      exactly one entry holding that advice; the audio file is what
      `speak_advice` leaves. A crash logs no decision and writes no audio. */
  lemma CycleAdvice(st: Store, input: Input, w: World)
    ensures var t := RunCycle(st, input, w);
            var after := After(st, input, w);
            var raw := RawText(input, w);
      && (t.ending.Advised? ==>
            var stats := Recent(LedgerRows(after.ledger, w.ledgerReadable));
            var reasoning := RiskEngine.ProbabilisticReasoning(raw, stats, st.market, after.bio,
                                                                w.marketReadError, w.bioReadError, w.advisorReply, w.show);
            var spoken := Bridge.SpeakAdvice(w.elevenKey, w.speech, st.speech);
            && reasoning.Ok?
            && t.ending.prompt == reasoning.value.0
            && t.ending.advice == reasoning.value.1
            && after.decisions == st.decisions + [Bridge.DecisionEntry(w.clock.decision, DecisionPacket(raw, reasoning.value.1))]
            && t.ending.spokenPath == spoken.0
            && after.speech == spoken.1)
      && (t.ending.Crashed? ==> after.decisions == st.decisions && after.speech == st.speech)
  {
    var raw := RawText(input, w);
    var rows, bios, tail := TurnShape(st, input, w);
    var first := LoggedInteraction(w.clock.interaction, "USER", raw);
    StagedReplay(st, first, rows, bios, tail, w);
    if RunCycle(st, input, w).ending.Advised? {
      SpeechMatches(st.speech, w, tail);
    }
  }

  /** Once step 2 has gone through, the turn advises exactly when the
      advisor's reads of the market file and of the profile the cycle leaves
      succeed or find no file. Otherwise the read error ends the turn: the
      interaction line, row and profile save stay written, and no decision is
      logged and no audio written. */
  lemma AdvisorContextStage(st: Store, input: Input, w: World)
    requires TurnFront(st, input, w).crash.None?
    ensures var files := RiskEngine.ContextFiles(st.market, After(st, input, w).bio, w.marketReadError, w.bioReadError);
            var t := RunCycle(st, input, w);
      && (t.ending.Advised? <==> files.Ok?)
      && (files.Err? ==>
            && t.ending == Crashed(ContextUnreadable(files.error))
            && t.effects == [LoggedInteraction(w.clock.interaction, "USER", t.rawText)]
                            + TurnFront(st, input, w).rows + TurnFront(st, input, w).bios)
  {
    var raw := RawText(input, w);
    var rows, bios, tail := TurnShape(st, input, w);
    var first := LoggedInteraction(w.clock.interaction, "USER", raw);
    StagedReplay(st, first, rows, bios, tail, w);
    var mid := Replay(st, [first] + rows + bios);
    var advised := Advise(mid, raw, w);
    assert RunCycle(st, input, w).ending == advised.0 && tail == advised.1;
    AdvisedFiles(mid, raw, w, st.market, After(st, input, w).bio);
    if advised.0.Crashed? {
      assert [first] + rows + bios + [] == [first] + rows + bios;
    }
  }

  /** `Advise`'s outcome in terms of the market file and profile as given. */
  lemma AdvisedFiles(mid: Store, raw: string, w: World, market: Option<string>, bio: Option<Value>)
    requires mid.market == market && mid.bio == bio
    ensures var files := RiskEngine.ContextFiles(market, bio, w.marketReadError, w.bioReadError);
      && (Advise(mid, raw, w).0.Advised? <==> files.Ok?)
      && (files.Err? ==> Advise(mid, raw, w) == (Crashed(ContextUnreadable(files.error)), []))
  {
  }

  /** The advisor's context holds the rows before this cycle's and then the
      row it just appended, cut to the last five; so it always ends with the
      new row. */
  lemma NewRowInContext(st: Store, input: Input, w: World)
    requires Classification(w).Obj?
    requires var sd := Get(Classification(w).fields, "structured_data", Null); Truthy(sd) && sd.Obj?
    requires w.ledgerReadable && st.ledger.Some? && |st.ledger.value| > 0
    ensures RunCycle(st, input, w).ending.Advised? ==>
            var c := Classification(w);
            var row := NewRow(Get(c.fields, "structured_data", Null).fields, c.fields, RawText(input, w), w.clock.transaction);
            var stats := RunCycle(st, input, w).ending.prompt.stats;
      && stats == Recent(st.ledger.value[1..] + [row])
      && |stats| == (if |st.ledger.value| < ContextSize then |st.ledger.value| else ContextSize)
      && stats[|stats| - 1] == row
  {
    var c := Classification(w);
    var row := NewRow(Get(c.fields, "structured_data", Null).fields, c.fields, RawText(input, w), w.clock.transaction);
    LedgerGainsRow(st, input, w);
    LedgerRowsAfterAppend(st.ledger.value, row);
    AdvisorStats(st, input, w);
    RecentEndsWithLast(st.ledger.value[1..] + [row]);
  }

  /** `CycleLedger` for a truthy dict `structured_data`. */
  lemma LedgerGainsRow(st: Store, input: Input, w: World)
    requires Classification(w).Obj?
    requires var sd := Get(Classification(w).fields, "structured_data", Null); Truthy(sd) && sd.Obj?
    ensures var c := Classification(w);
      After(st, input, w).ledger
        == Some(st.ledger.GetOr([]) + [NewRow(Get(c.fields, "structured_data", Null).fields, c.fields,
                                              RawText(input, w), w.clock.transaction)])
  {
    CycleLedger(st, input, w);
  }

  /** The data rows of a ledger that gained one line. */
  lemma LedgerRowsAfterAppend(lines: seq<Row>, row: Row)
    requires |lines| > 0
    ensures LedgerRows(Some(lines + [row]), true) == lines[1..] + [row]
  {
    assert (lines + [row])[1..] == lines[1..] + [row];
  }

  /** The rows the advisor sees are the last ones of the ledger the cycle leaves. */
  lemma AdvisorStats(st: Store, input: Input, w: World)
    ensures RunCycle(st, input, w).ending.Advised? ==>
              RunCycle(st, input, w).ending.prompt.stats
                == Recent(LedgerRows(After(st, input, w).ledger, w.ledgerReadable))
  {
    CycleAdvice(st, input, w);
  }

  lemma RecentEndsWithLast(rows: seq<Row>)
    requires |rows| > 0
    ensures |Recent(rows)| > 0 && Recent(rows)[|Recent(rows)| - 1] == rows[|rows| - 1]
  {
  }

  /** A turn that starts without a ledger file gives the advisor no rows: the
      file it creates has no header line, so its only row is read as the header. */
  lemma MissingLedgerNoContext(st: Store, input: Input, w: World)
    requires st.ledger.None?
    ensures RunCycle(st, input, w).ending.Advised? ==> RunCycle(st, input, w).ending.prompt.stats == []
  {
    AdvisorStats(st, input, w);
    CycleLedger(st, input, w);
    var after := After(st, input, w).ledger;
    if after.Some? {
      assert |after.value| <= 1;
    }
  }

  /** An unreadable ledger gives the advisor no rows. */
  lemma UnreadableLedgerNoContext(st: Store, input: Input, w: World)
    requires !w.ledgerReadable
    ensures RunCycle(st, input, w).ending.Advised? ==> RunCycle(st, input, w).ending.prompt.stats == []
  {
    AdvisorStats(st, input, w);
  }

  /** A failed classification (unreachable endpoint, error status, missing
      reply path, unparsable text) changes neither the ledger nor the profile;
      with readable context files it still ends in advice and logs one decision. */
  lemma ClassifierFailureStillAdvises(st: Store, input: Input, w: World)
    requires ReplyText(w.classifierReply).Err? || Classification(w) == FilterAgent.Fallback
    ensures ContextReadable(w) ==> RunCycle(st, input, w).ending.Advised?
    ensures After(st, input, w).ledger == st.ledger && After(st, input, w).bio == st.bio
    ensures ContextReadable(w) ==> |After(st, input, w).decisions| == |st.decisions| + 1
  {
    assert Classification(w) == FilterAgent.Fallback;
    assert Get(FilterAgent.Fallback.fields, "structured_data", Null) == Null;
    assert Get(FilterAgent.Fallback.fields, "updates_to_bio", Null) == Null;
    CycleLedger(st, input, w);
    BioAfterLedgerStage(st, input, w);
    CycleAdvice(st, input, w);
  }

  /** A string update on a profile with a `notes` list adds exactly that
      string at its end and changes no other key. */
  lemma StringUpdateAddsNote(st: Store, input: Input, w: World, note: string, notes: seq<Value>)
    requires Classification(w).Obj?
    requires var sd := Get(Classification(w).fields, "structured_data", Null); !Truthy(sd) || sd.Obj?
    requires Get(Classification(w).fields, "updates_to_bio", Null) == Str(note) && note != ""
    requires st.bio.Some? && st.bio.value.Obj?
    requires "notes" in st.bio.value.fields && st.bio.value.fields["notes"] == List(notes)
    ensures After(st, input, w).bio == Some(Obj(st.bio.value.fields["notes" := List(notes + [Str(note)])]))
    ensures ContextReadable(w) ==> RunCycle(st, input, w).ending.Advised?
  {
    var u := Str(note);
    var merged := MergeBio(st.bio.value, u);
    assert merged.Ok? && merged.value.Obj?;
    assert merged.value.fields == st.bio.value.fields["notes" := List(notes + [u])];
    ProfileMerged(st, input, w);
  }

  /** `CycleBio` for an update that merges: the merged profile is saved, and
      with readable context files the cycle advises. */
  lemma ProfileMerged(st: Store, input: Input, w: World)
    requires Classification(w).Obj?
    requires var sd := Get(Classification(w).fields, "structured_data", Null); !Truthy(sd) || sd.Obj?
    requires var u := Get(Classification(w).fields, "updates_to_bio", Null);
             Truthy(u) && st.bio.Some? && MergeBio(st.bio.value, u).Ok?
    ensures var u := Get(Classification(w).fields, "updates_to_bio", Null);
            After(st, input, w).bio == Some(MergeBio(st.bio.value, u).value)
    ensures ContextReadable(w) ==> RunCycle(st, input, w).ending.Advised?
  {
    BioAfterLedgerStage(st, input, w);
  }

  /** The classification of the worked example below. */
  const GroceriesRecord: Value := Obj(map[
    "structured_data" := Obj(map["Type" := Str("Expense"), "Category" := Str("Groceries"), "Amount" := Int(50)]),
    "fluff" := Bool(false),
    "updates_to_bio" := Null,
    "is_important_decision" := Bool(false)])

  /** The worked example: "I spent $50 on groceries", classified as a
      necessary grocery expense of 50, appends exactly that row. */
  lemma GroceriesExample(st: Store, w: World)
    requires Classification(w) == GroceriesRecord
    ensures After(st, Typed("I spent $50 on groceries"), w).ledger
         == Some(st.ledger.GetOr([]) + [[Str(w.clock.transaction), Str("Expense"), Str("Groceries"), Int(50),
                                         Str("Extracted from: I spent $50 on groceries"), Bool(true)]])
    ensures ContextReadable(w) ==> RunCycle(st, Typed("I spent $50 on groceries"), w).ending.Advised?
  {
    var text := "I spent $50 on groceries";
    var input := Typed(text);
    var fd := GroceriesRecord.fields;
    var sd := fd["structured_data"];
    assert Get(fd, "structured_data", Null) == sd;
    assert Get(fd, "updates_to_bio", Null) == Null;
    assert RawText(input, w) == text;
    LedgerGainsRow(st, input, w);
    assert After(st, input, w).ledger
        == Some(st.ledger.GetOr([]) + [NewRow(sd.fields, fd, text, w.clock.transaction)]);
    GroceriesRow(w.clock.transaction);
    AdvisesWithoutProfileUpdate(st, input, w);
  }

  /** `CycleBio` for a falsy `updates_to_bio`: with readable context files
      the cycle goes on to advise. */
  lemma AdvisesWithoutProfileUpdate(st: Store, input: Input, w: World)
    requires Classification(w).Obj?
    requires var sd := Get(Classification(w).fields, "structured_data", Null); !Truthy(sd) || sd.Obj?
    requires !Truthy(Get(Classification(w).fields, "updates_to_bio", Null))
    ensures ContextReadable(w) ==> RunCycle(st, input, w).ending.Advised?
    ensures After(st, input, w).bio == st.bio
  {
    BioAfterLedgerStage(st, input, w);
  }

  lemma GroceriesRow(ts: string)
    ensures NewRow(GroceriesRecord.fields["structured_data"].fields, GroceriesRecord.fields,
                   "I spent $50 on groceries", ts)
         == [Str(ts), Str("Expense"), Str("Groceries"), Int(50),
             Str("Extracted from: I spent $50 on groceries"), Bool(true)]
  {
    var fd := GroceriesRecord.fields;
    var sd := fd["structured_data"].fields;
    assert FieldOf(sd, "Type", "type") == Str("Expense");
    assert FieldOf(sd, "Category", "category") == Str("Groceries");
    assert FieldOf(sd, "Amount", "amount") == Int(50);
    assert Get(fd, "fluff", Bool(false)) == Bool(false);
    GroceriesDescription();
  }

  lemma GroceriesDescription()
    ensures DescriptionPrefix + "I spent $50 on groceries" == "Extracted from: I spent $50 on groceries"
  {
  }

  /** An advisor that cannot be reached still produces advice, the labelled
      error text, and that text is what the decision log records. */
  lemma AdvisorTimeoutLogged(st: Store, input: Input, w: World, message: string)
    requires w.advisorReply == Unreachable(message)
    ensures RunCycle(st, input, w).ending.Advised? ==>
            RunCycle(st, input, w).ending.advice == "Error computing risk logic: " + message
    ensures RunCycle(st, input, w).ending.Advised? ==>
              After(st, input, w).decisions
                == st.decisions + [Bridge.DecisionEntry(w.clock.decision,
                                                        DecisionPacket(RawText(input, w), "Error computing risk logic: " + message))]
  {
    CycleAdvice(st, input, w);
  }
}
