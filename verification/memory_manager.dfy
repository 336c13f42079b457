/** `MemoryManager`: the assistant's files, as an abstract store. Each file
    is a value (the ledger a sequence of rows, the profile a JSON document,
    the two logs sequences of appended texts); real file I/O, CSV quoting and
    JSON text are not modelled. */
module MemoryManager {
  import opened Values
  import opened Text

  const LedgerHeader: Row := [Str("Timestamp"), Str("Type"), Str("Category"), Str("Amount"),
                              Str("Description"), Str("Is_Necessary")]

  /** The profile written on first run. */
  const DefaultBio: Value := Obj(map[
    "name" := Str("User"),
    "risk_profile" := Obj(map["score" := Int(5), "label" := Str("Moderate")]),
    "interests" := List([]),
    "financial_goals" := List([])])

  const BioPath: string := "data/user_bio.json"
  const NoMarketData: string := "No market data available."

  /** The `data/` directory. `None` is a file that does not exist.
      - ledger: `transactions.csv`, one row per CSV line, header included
      - bio: `user_bio.json`
      - history: `interaction_history.txt`, one text per append
      - decisions: `decision_log.txt`, one text per append (both writers share it)
      - market: `market_context.txt`, only ever read
      - speech: `latest_advice.mp3` */
  datatype Store = Store(
    ledger: Option<seq<Row>>,
    bio: Option<Value>,
    history: seq<string>,
    decisions: seq<string>,
    market: Option<string>,
    speech: Option<seq<bv8>>)

  /** `_initialize_files`: create the ledger with its header and the default
      profile, each only when absent. */
  function InitializeFiles(st: Store): (st': Store)
    ensures st.ledger.None? ==> st'.ledger == Some([LedgerHeader])
    ensures st.ledger.Some? ==> st'.ledger == st.ledger
    ensures st.bio.None? ==> st'.bio == Some(DefaultBio)
    ensures st.bio.Some? ==> st'.bio == st.bio
    ensures st'.history == st.history && st'.decisions == st.decisions
    ensures st'.market == st.market && st'.speech == st.speech
  {
    st.(ledger := Some(st.ledger.GetOr([LedgerHeader])), bio := Some(st.bio.GetOr(DefaultBio)))
  }

  /** Initialising twice is initialising once. */
  lemma InitializeFilesIdempotent(st: Store)
    ensures InitializeFiles(InitializeFiles(st)) == InitializeFiles(st)
  {
  }

  /** The default profile: name, risk profile, two empty lists, and no notes yet. */
  lemma DefaultBioShape()
    ensures DefaultBio.Obj? && "notes" !in DefaultBio.fields
    ensures DefaultBio.fields.Keys == {"name", "risk_profile", "interests", "financial_goals"}
    ensures DefaultBio.fields["risk_profile"] == Obj(map["score" := Int(5), "label" := Str("Moderate")])
  {
  }

  /** The line `log_interaction` writes. */
  function InteractionLine(ts: string, speaker: string, text: string): (line: string)
    ensures line == JoinLines(["[" + ts + "] " + speaker + ": " + text])
  {
    "[" + ts + "] " + speaker + ": " + text + "\n"
  }

  /** `log_interaction(speaker, text)`: one more line in the history, nothing else touched. */
  function LogInteraction(st: Store, ts: string, speaker: string, text: string): (st': Store)
    ensures |st'.history| == |st.history| + 1
    ensures st'.history[..|st.history|] == st.history
    ensures st'.history[|st.history|] == InteractionLine(ts, speaker, text)
    ensures st' == st.(history := st'.history)
  {
    st.(history := st.history + [InteractionLine(ts, speaker, text)])
  }

  /** An interaction whose parts hold no newline reads back as one line. */
  lemma InteractionIsOneLine(ts: string, speaker: string, text: string)
    requires OneLine(ts) && OneLine(speaker) && OneLine(text)
    ensures SplitLines(InteractionLine(ts, speaker, text)) == ["[" + ts + "] " + speaker + ": " + text]
  {
    var l := "[" + ts + "] " + speaker + ": " + text;
    assert OneLine(l);
    SplitJoinLines([l]);
  }

  /** The position of a column in the header, or 6 when there is none. */
  function ColumnIndex(name: string): (i: nat)
    ensures i <= 6
    ensures i < 6 ==> LedgerHeader[i] == Str(name)
    ensures i == 6 ==> Str(name) !in LedgerHeader
  {
    if name == "Timestamp" then 0
    else if name == "Type" then 1
    else if name == "Category" then 2
    else if name == "Amount" then 3
    else if name == "Description" then 4
    else if name == "Is_Necessary" then 5
    else 6
  }

  /** The cell of a row under a header column, as `csv.DictReader` pairs them. */
  function Column(row: Row, name: string): Value {
    var i := ColumnIndex(name);
    if i < |row| then row[i] else Null
  }

  /** The row `add_transaction` writes. */
  function TransactionRow(ts: string, tType: Value, category: Value, amount: Value,
                          description: string, necessary: bool): (row: Row)
    ensures |row| == |LedgerHeader|
    ensures Column(row, "Timestamp") == Str(ts)
    ensures Column(row, "Type") == tType
    ensures Column(row, "Category") == category
    ensures Column(row, "Amount") == amount
    ensures Column(row, "Description") == Str(description)
    ensures Column(row, "Is_Necessary") == Bool(necessary)
  {
    [Str(ts), tType, category, amount, Str(description), Bool(necessary)]
  }

  /** `add_transaction(...)`: exactly one row appended; earlier rows unchanged.
      An absent ledger is created by the append, without a header. */
  function AddTransaction(st: Store, ts: string, tType: Value, category: Value, amount: Value,
                          description: string, necessary: bool := true): (st': Store)
    ensures st'.ledger.Some?
    ensures |st'.ledger.value| == |st.ledger.GetOr([])| + 1
    ensures st'.ledger.value[..|st.ledger.GetOr([])|] == st.ledger.GetOr([])
    ensures st'.ledger.value[|st.ledger.GetOr([])|]
            == TransactionRow(ts, tType, category, amount, description, necessary)
    ensures st' == st.(ledger := st'.ledger)
  {
    st.(ledger := Some(st.ledger.GetOr([]) + [TransactionRow(ts, tType, category, amount, description, necessary)]))
  }

  /** Without an explicit flag, a transaction is recorded as necessary. */
  lemma NecessaryByDefault(st: Store, ts: string, tType: Value, category: Value, amount: Value, description: string)
    ensures var rows := AddTransaction(st, ts, tType, category, amount, description).ledger.value;
            Column(rows[|rows| - 1], "Is_Necessary") == Bool(true)
  {
  }

  /** The block `save_decision` writes. */
  function DecisionBlock(ts: string, trigger: string, decision: string, reasoning: string): (b: string)
    ensures b == JoinLines(["--- " + ts + " ---", "TRIGGER: " + trigger, "DECISION: " + decision,
                            "REASONING: " + reasoning, ""])
  {
    var ls := ["--- " + ts + " ---", "TRIGGER: " + trigger, "DECISION: " + decision, "REASONING: " + reasoning, ""];
    var b := ls[0] + "\n" + (ls[1] + "\n" + (ls[2] + "\n" + (ls[3] + "\n" + (ls[4] + "\n" + ""))));
    JoinLines5(ls);
    b
  }

  /** `save_decision(trigger, decision, reasoning)`: one block appended to the decision log. */
  function SaveDecision(st: Store, ts: string, trigger: string, decision: string, reasoning: string): (st': Store)
    ensures |st'.decisions| == |st.decisions| + 1
    ensures st'.decisions[..|st.decisions|] == st.decisions
    ensures st'.decisions[|st.decisions|] == DecisionBlock(ts, trigger, decision, reasoning)
    ensures st' == st.(decisions := st'.decisions)
  {
    st.(decisions := st.decisions + [DecisionBlock(ts, trigger, decision, reasoning)])
  }

  /** A decision block whose parts hold no newline reads back as its four lines and a blank one. */
  lemma DecisionBlockLines(ts: string, trigger: string, decision: string, reasoning: string)
    requires OneLine(ts) && OneLine(trigger) && OneLine(decision) && OneLine(reasoning)
    ensures SplitLines(DecisionBlock(ts, trigger, decision, reasoning))
         == ["--- " + ts + " ---", "TRIGGER: " + trigger, "DECISION: " + decision, "REASONING: " + reasoning, ""]
  {
    var ls := ["--- " + ts + " ---", "TRIGGER: " + trigger, "DECISION: " + decision, "REASONING: " + reasoning, ""];
    assert OneLine(ls[0]) && OneLine(ls[1]) && OneLine(ls[2]) && OneLine(ls[3]) && OneLine(ls[4]);
    SplitJoinLines(ls);
  }

  /** `get_market_trends()` */
  function MarketTrends(st: Store): (text: string)
    ensures st.market.Some? ==> text == st.market.value
    ensures st.market.None? ==> text == NoMarketData
  {
    st.market.GetOr(NoMarketData)
  }

  /** `save_json(bio_file, data)`: the whole document is overwritten. */
  function SaveJson(st: Store, doc: Value): (st': Store)
    ensures st'.bio == Some(doc)
    ensures st' == st.(bio := st'.bio)
  {
    st.(bio := Some(doc))
  }

  /** `load_json(bio_file)`; a missing file raises `FileNotFoundError`. */
  function LoadJson(st: Store): (r: Result<Value, string>)
    ensures st.bio.Some? ==> r == Ok(st.bio.value)
    ensures st.bio.None? ==> r.Err?
  {
    match st.bio
    case Some(doc) => Ok(doc)
    case None => Err("[Errno 2] No such file or directory: '" + BioPath + "'")
  }

  /** Loading right after saving returns the saved document. */
  lemma LoadAfterSave(st: Store, doc: Value)
    ensures LoadJson(SaveJson(st, doc)) == Ok(doc)
  {
  }

  /** Saving twice keeps only the second document. */
  lemma SaveOverwrites(st: Store, first: Value, second: Value)
    ensures SaveJson(SaveJson(st, first), second) == SaveJson(st, second)
  {
  }
}
