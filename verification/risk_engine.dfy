/** `RiskEngine`: the local risk score over ledger entries, and the advisor
    (`probabilistic_reasoning`) that asks the language model for advice. */
module RiskEngine {
  import opened Values
  import opened ModelReply

  /** `t.get('Amount', t.get('amount'))`: the capitalised key wins whenever it
      is present, even when it holds `None`. */
  function AmountOf(t: map<string, Value>): (v: Value)
    ensures "Amount" in t ==> v == t["Amount"]
    ensures "Amount" !in t && "amount" in t ==> v == t["amount"]
    ensures "Amount" !in t && "amount" !in t ==> v == Null
  {
    FieldOf(t, "Amount", "amount")
  }

  /** `2**1024 - 2**970`, halfway between the largest finite double and
      `2**1024`: integers of at least this magnitude round to infinity, so
      `float(i)` raises `OverflowError` for them. */
  const FloatOverflow: int := 0xFFFFFFFFFFFFFC00000000000000000000000000000000000000000000000000000000000000000000000000000000000000000000000000000000000000000000000000000000000000000000000000000000000000000000000000000000000000000000000000000000000000000000000000000000000000000000000000

  /** `float(v)`; `None` when Python raises. Parsing a numeric string is
      library code and is passed in as `parseFloat`. */
  function ToFloat(v: Value, parseFloat: string -> Option<real>): (r: Option<real>)
    ensures v.Null? || v.List? || v.Obj? ==> r.None?
    ensures v.Bool? ==> r.Some? && (r.value == 1.0 <==> v.b) && (r.value == 0.0 <==> !v.b)
    ensures v.Int? ==> (r.Some? <==> -FloatOverflow < v.i < FloatOverflow)
    ensures v.Int? && r.Some? ==> r.value == v.i as real
    ensures v.Float? ==> r == Some(v.f)
    ensures v.Str? ==> r == parseFloat(v.s)
  {
    match v
    case Bool(b) => Some(if b then 1.0 else 0.0)
    case Int(i) => if -FloatOverflow < i < FloatOverflow then Some(i as real) else None
    case Float(f) => Some(f)
    case Str(s) => parseFloat(s)
    case _ => None
  }

  /** The amounts the loop looks at: the truthy ones, in transaction order. */
  function Kept(ts: seq<map<string, Value>>): (r: seq<Value>)
    ensures |r| <= |ts|
    ensures forall k :: 0 <= k < |r| ==> Truthy(r[k])
  {
    if |ts| == 0 then []
    else
      var v := AmountOf(ts[|ts| - 1]);
      Kept(ts[..|ts| - 1]) + (if Truthy(v) then [v] else [])
  }

  /** What `amounts` holds after the loop over `ts`, or the amount on which
      `float` raised first. */
  function Amounts(ts: seq<map<string, Value>>, parseFloat: string -> Option<real>): (r: Result<seq<real>, Value>)
    ensures r.Ok? ==> |r.value| <= |ts|
    ensures r.Err? ==> Truthy(r.error) && ToFloat(r.error, parseFloat).None?
  {
    if |ts| == 0 then Ok([])
    else
      match Amounts(ts[..|ts| - 1], parseFloat)
      case Err(v) => Err(v)
      case Ok(xs) =>
        var v := AmountOf(ts[|ts| - 1]);
        if !Truthy(v) then Ok(xs)
        else
          match ToFloat(v, parseFloat)
          case None => Err(v)
          case Some(x) => Ok(xs + [x])
  }

  /** The loop's result relates to the kept amounts: it succeeds exactly when
      every kept amount converts, and then holds their conversions in order;
      otherwise it reports the first kept amount that does not convert. */
  lemma {:induction false} AmountsAreKeptFloats(ts: seq<map<string, Value>>, parseFloat: string -> Option<real>)
    ensures Amounts(ts, parseFloat).Ok?
            <==> forall k :: 0 <= k < |Kept(ts)| ==> ToFloat(Kept(ts)[k], parseFloat).Some?
    ensures Amounts(ts, parseFloat).Ok? ==>
              && |Amounts(ts, parseFloat).value| == |Kept(ts)|
              && forall k :: 0 <= k < |Kept(ts)| ==>
                   Amounts(ts, parseFloat).value[k] == ToFloat(Kept(ts)[k], parseFloat).value
    ensures Amounts(ts, parseFloat).Err? ==>
              exists k :: 0 <= k < |Kept(ts)|
                && Kept(ts)[k] == Amounts(ts, parseFloat).error
                && ToFloat(Kept(ts)[k], parseFloat).None?
                && forall j :: 0 <= j < k ==> ToFloat(Kept(ts)[j], parseFloat).Some?
  {
    if |ts| > 0 {
      var init := ts[..|ts| - 1];
      AmountsAreKeptFloats(init, parseFloat);
      var v := AmountOf(ts[|ts| - 1]);
      var kept := Kept(ts);
      assert kept == Kept(init) + (if Truthy(v) then [v] else []);
      assert forall k :: 0 <= k < |Kept(init)| ==> kept[k] == Kept(init)[k];
      match Amounts(init, parseFloat)
      case Err(e) =>
        var k :| 0 <= k < |Kept(init)|
                && Kept(init)[k] == e
                && ToFloat(Kept(init)[k], parseFloat).None?
                && forall j :: 0 <= j < k ==> ToFloat(Kept(init)[j], parseFloat).Some?;
        assert kept[k] == e;
      case Ok(xs) =>
        if Truthy(v) {
          assert kept[|kept| - 1] == v;
          if ToFloat(v, parseFloat).None? {
            var k := |kept| - 1;
            assert Kept(ts)[k] == Amounts(ts, parseFloat).error;
          }
        } else {
          assert kept == Kept(init);
        }
    }
  }

  /** An integer amount too large for a double makes the loop raise on it,
      whatever comes after it. */
  lemma HugeAmountRaises(ts: seq<map<string, Value>>, i: nat, parseFloat: string -> Option<real>)
    requires i < |ts| && AmountOf(ts[i]).Int? && !(-FloatOverflow < AmountOf(ts[i]).i < FloatOverflow)
    requires Amounts(ts[..i], parseFloat).Ok?
    ensures Amounts(ts, parseFloat) == Err(AmountOf(ts[i]))
  {
    assert ts[..i + 1][..i] == ts[..i];
    AmountsErrorPersists(ts, i + 1, parseFloat);
  }

  /** A prefix that already raised makes the whole loop raise the same way. */
  lemma {:induction false} AmountsErrorPersists(ts: seq<map<string, Value>>, i: nat, parseFloat: string -> Option<real>)
    requires i <= |ts| && Amounts(ts[..i], parseFloat).Err?
    ensures Amounts(ts, parseFloat) == Amounts(ts[..i], parseFloat)
    decreases |ts| - i
  {
    if i < |ts| {
      assert ts[..i + 1][..i] == ts[..i];
      AmountsErrorPersists(ts, i + 1, parseFloat);
    } else {
      assert ts[..i] == ts;
    }
  }

  /** The score: 0 when there is no amount, else `np.std(amounts) / np.mean(amounts)`,
      which is left uninterpreted. */
  datatype Score = Zero | Variation(amounts: seq<real>)

  /** `calculate_risk_score(transactions)`; `Err(v)` when `float(v)` raises. */
  method CalculateRiskScore(transactions: seq<map<string, Value>>, parseFloat: string -> Option<real>)
    returns (r: Result<Score, Value>)
    ensures r.Err? <==> Amounts(transactions, parseFloat).Err?
    ensures r.Err? ==> r.error == Amounts(transactions, parseFloat).error
    ensures r == Ok(Zero) <==> Amounts(transactions, parseFloat) == Ok([])
    ensures r.Ok? && r.value.Variation? ==>
              r.value.amounts == Amounts(transactions, parseFloat).value && |r.value.amounts| > 0
  {
    var amounts: seq<real> := [];
    var i := 0;
    while i < |transactions|
      invariant 0 <= i <= |transactions|
      invariant Amounts(transactions[..i], parseFloat) == Ok(amounts)
    {
      assert transactions[..i + 1][..i] == transactions[..i];
      var val := AmountOf(transactions[i]);
      if Truthy(val) {
        match ToFloat(val, parseFloat)
        case None =>
          AmountsErrorPersists(transactions, i + 1, parseFloat);
          return Err(val);
        case Some(x) =>
          amounts := amounts + [x];
      }
      i := i + 1;
    }
    assert transactions[..i] == transactions;
    if |amounts| == 0 {
      return Ok(Zero);
    }
    return Ok(Variation(amounts));
  }

  /** No transaction, or none with a truthy amount, scores 0. */
  lemma NothingKeptScoresZero(ts: seq<map<string, Value>>, parseFloat: string -> Option<real>)
    requires forall k :: 0 <= k < |ts| ==> !Truthy(AmountOf(ts[k]))
    ensures Amounts(ts, parseFloat) == Ok([])
  {
    KeptOnlyTruthy(ts);
    AmountsAreKeptFloats(ts, parseFloat);
  }

  lemma {:induction false} KeptOnlyTruthy(ts: seq<map<string, Value>>)
    requires forall k :: 0 <= k < |ts| ==> !Truthy(AmountOf(ts[k]))
    ensures Kept(ts) == []
  {
    if |ts| > 0 {
      KeptOnlyTruthy(ts[..|ts| - 1]);
    }
  }

  const MarketDefault: string := "No market data available"
  const BioDefault: string := "No bio available"
  const ErrorPrefix: string := "Error computing risk logic: "

  /** The profile as the advisor sees it: the default text, or the stored document. */
  datatype BioSeen = DefaultText(text: string) | Document(doc: Value)

  /** What the advisor puts in front of the language model. */
  datatype AdvisorPrompt = AdvisorPrompt(userBio: BioSeen, market: string, stats: seq<Row>, query: string)

  /** The two reads at the top of `probabilistic_reasoning`. Both sit in one
      `try` block that catches only `FileNotFoundError`: a missing market file
      also skips reading the profile, and any other error raised while opening
      or reading a file that exists (`marketError`, `bioError`: a permission
      error, an undecodable byte, a directory) propagates. */
  function ContextFiles(marketFile: Option<string>, bioFile: Option<Value>,
                        marketError: Option<string>, bioError: Option<string>)
    : (c: Result<(string, BioSeen), string>)
    ensures c.Err? <==> marketFile.Some? && (marketError.Some? || (bioFile.Some? && bioError.Some?))
    ensures marketFile.Some? && marketError.Some? ==> c == Err(marketError.value)
    ensures marketFile.Some? && marketError.None? && c.Err? ==> c == Err(bioError.value)
    ensures marketFile.None? ==> c == Ok((MarketDefault, DefaultText(BioDefault)))
    ensures marketFile.Some? && c.Ok? ==> c.value.0 == marketFile.value
    ensures marketFile.Some? && bioFile.None? && c.Ok? ==> c.value.1 == DefaultText(BioDefault)
    ensures marketFile.Some? && bioFile.Some? && c.Ok? ==> c.value.1 == Document(bioFile.value)
  {
    match marketFile
    case None => Ok((MarketDefault, DefaultText(BioDefault)))
    case Some(m) =>
      if marketError.Some? then Err(marketError.value)
      else
        match bioFile
        case None => Ok((m, DefaultText(BioDefault)))
        case Some(b) => if bioError.Some? then Err(bioError.value) else Ok((m, Document(b)))
  }

  /** `probabilistic_reasoning(user_query, current_stats)`: the prompt sent
      and the advice returned, or the read error that escapes it. `show` is
      Python's `str` on a non-string reply. */
  function ProbabilisticReasoning(query: string, stats: seq<Row>, marketFile: Option<string>,
                                  bioFile: Option<Value>, marketError: Option<string>,
                                  bioError: Option<string>, reply: Http, show: Value -> string)
    : (out: Result<(AdvisorPrompt, string), string>)
    ensures var files := ContextFiles(marketFile, bioFile, marketError, bioError);
      && (out.Err? <==> files.Err?)
      && (out.Err? ==> out.error == files.error)
      && (out.Ok? ==> out.value.0 == AdvisorPrompt(files.value.1, files.value.0, stats, query))
    // once the files are read, every failure becomes an error string handed back as advice
    ensures out.Ok? && ReplyText(reply).Err? ==> out.value.1 == ErrorPrefix + ReplyText(reply).error
    ensures out.Ok? && ReplyText(reply).Ok? && ReplyText(reply).value.Str? ==> out.value.1 == ReplyText(reply).value.s
  {
    match ContextFiles(marketFile, bioFile, marketError, bioError)
    case Err(e) => Err(e)
    case Ok(files) =>
      var prompt := AdvisorPrompt(files.1, files.0, stats, query);
      var advice :=
        match ReplyText(reply)
        case Err(e) => ErrorPrefix + e
        case Ok(v) => if v.Str? then v.s else show(v);
      Ok((prompt, advice))
  }

  /** An unreachable endpoint (a timeout, say) yields the labelled error
      text, once the files are read. */
  lemma AdvisorTimeout(query: string, stats: seq<Row>, marketFile: Option<string>, bioFile: Option<Value>,
                       marketError: Option<string>, bioError: Option<string>, message: string, show: Value -> string)
    ensures var out := ProbabilisticReasoning(query, stats, marketFile, bioFile, marketError, bioError,
                                              Unreachable(message), show);
      && (out.Ok? <==> ContextFiles(marketFile, bioFile, marketError, bioError).Ok?)
      && (out.Ok? ==> out.value.1 == "Error computing risk logic: " + message)
  {
  }
}
