/** The meaning of the ingestion core (parser/parser.go), as functions: how a head-height
    response is read, what one block's response contributes to the ledger and to the
    notifications, and what one polling cycle does from a given cursor. The methods of
    `Parser.ParserImpl` are proved to do exactly this. */
module Ingestion {
  import opened Results
  import opened Types
  import opened Ascii
  import opened Rpc
  import Hex
  import opened Storage

  /** Why fetching the head or a block failed. */
  datatype ParseError =
    | RpcFailure(reason: string)   // makeRPCRequest failed: encode, send, read or decode
    | InvalidResponseFormat        // `result` is not the expected string or object
    | InvalidTransactionsFormat    // `result.transactions` is not an array
    | ResultTooShort               // `resultHex[2:]` on a string shorter than 2 (a panic in Go)
    | InvalidNumber                // `strconv.ParseInt` rejected the rest of the string

  /** The side of a transaction on which a subscribed address appeared. */
  datatype Direction = Outgoing | Incoming

  /** One match: the transaction is recorded under its `from` address (Outgoing) or
      its `to` address (Incoming), and the same pair is sent to the notifier. */
  datatype Match = Match(direction: Direction, tx: Transaction) {
    function Address(): string
    {
      if direction == Outgoing then tx.from else tx.to
    }
  }

  /** The subscription query of the store: subscribed or not, or a store error. */
  type SubscriptionCheck = string -> Result<bool, StorageError>

  /** The query of the in-memory store with the given registry. */
  function MemCheck(subscribers: set<string>): SubscriptionCheck
  {
    (address: string) => Success(Subscribed(subscribers, address))
  }

  // ---------------------------------------------------------------------------
  // GetCurrentBlockNumber (parser/parser.go:95-119)

  /** The head height in a node's answer to `eth_blockNumber`: `result` must be a
      string; its first two characters are dropped, whatever they are, and the rest
      is read with `strconv.ParseInt(_, 16, 64)`. */
  function HeadHeight(response: Result<Response, string>): (r: Result<int, ParseError>)
    ensures response.Failure? ==> r == Failure(RpcFailure(response.error))
    ensures (response.Success? && !("result" in response.value && response.value["result"].JString?))
              ==> r == Failure(InvalidResponseFormat)
    ensures r.Success? ==> Hex.MinInt64 <= r.value <= Hex.MaxInt64
  {
    match response
    case Failure(reason) => Failure(RpcFailure(reason))
    case Success(body) =>
      if "result" !in body || !body["result"].JString? then Failure(InvalidResponseFormat)
      else
        var resultHex := body["result"].s;
        if |resultHex| < 2 then Failure(ResultTooShort)
        else match Hex.ParseInt16(resultHex[2..])
          case None => Failure(InvalidNumber)
          case Some(n) => Success(n)
  }

  /** A node that reports a height the way `parseBlock` writes one gives back that
      height, for every 64-bit height. */
  lemma HeadHeightOfEncoded(body: Response, n: int)
    requires Hex.MinInt64 <= n <= Hex.MaxInt64
    requires "result" in body && body["result"] == JString(Hex.EncodeBlockNumber(n))
    ensures HeadHeight(Success(body)) == Success(n)
  {
    Hex.FormatRoundTrip(n);
  }

  /** The response of parser/parser_test.go:48-52 reads as height 100. */
  lemma HeadHeightExample()
    ensures HeadHeight(Success(map["jsonrpc" := JString("2.0"), "id" := JNumber("1"),
                                   "result" := JString("0x64")])) == Success(100)
  {
    assert "0x64"[2..] == "64";
    Hex.ParseExample();
  }

  // ---------------------------------------------------------------------------
  // parseBlock (parser/parser.go:121-188)

  /** A string field of a transaction object, or "" when it is missing or not a string. */
  function StringField(fields: map<string, JsonValue>, key: string): (v: string)
    ensures key in fields && fields[key].JString? ==> v == fields[key].s
    ensures v != "" ==> key in fields && fields[key] == JString(v)
  {
    if key in fields && fields[key].JString? then fields[key].s else ""
  }

  /** The four fields `parseBlock` copies out of a transaction object. */
  function ExtractTransaction(fields: map<string, JsonValue>): Transaction
  {
    Transaction(StringField(fields, "hash"), StringField(fields, "from"),
                StringField(fields, "to"), StringField(fields, "value"))
  }

  /** Each field of the extracted transaction is the JSON string under its key, and a
      missing or non-string field reads as "". */
  lemma ExtractTransactionFields(fields: map<string, JsonValue>)
    ensures var tx := ExtractTransaction(fields);
            && (tx.hash != "" ==> "hash" in fields && fields["hash"] == JString(tx.hash))
            && (tx.from != "" ==> "from" in fields && fields["from"] == JString(tx.from))
            && (tx.to != "" ==> "to" in fields && fields["to"] == JString(tx.to))
            && (tx.value != "" ==> "value" in fields && fields["value"] == JString(tx.value))
    ensures var tx := ExtractTransaction(fields);
            && ("hash" in fields && fields["hash"].JString? ==> tx.hash == fields["hash"].s)
            && ("from" in fields && fields["from"].JString? ==> tx.from == fields["from"].s)
            && ("to" in fields && fields["to"].JString? ==> tx.to == fields["to"].s)
            && ("value" in fields && fields["value"].JString? ==> tx.value == fields["value"].s)
  {
  }

  /** The matches one entry of `transactions` produces: none for an entry that is not
      an object or whose `from` or `to` check fails; otherwise Outgoing when `from`
      is subscribed, then Incoming when `to` is. */
  function EntryMatches(entry: JsonValue, check: SubscriptionCheck): (r: seq<Match>)
    ensures |r| <= 2
    ensures entry.JObject? ==>
              var tx := ExtractTransaction(entry.fields);
              (check(tx.from).Failure? || check(tx.to).Failure?) ==> r == []
  {
    if !entry.JObject? then []
    else
      var tx := ExtractTransaction(entry.fields);
      match check(tx.from)
      case Failure(_) => []
      case Success(fromSubscribed) =>
        match check(tx.to)
        case Failure(_) => []
        case Success(toSubscribed) =>
          (if fromSubscribed then [Match(Outgoing, tx)] else [])
          + (if toSubscribed then [Match(Incoming, tx)] else [])
  }

  /** Every match of an entry is that entry's transaction, and the check said yes for
      the address it is recorded under. */
  lemma EntryMatchesSound(entry: JsonValue, check: SubscriptionCheck)
    ensures var r := EntryMatches(entry, check);
            forall i :: 0 <= i < |r| ==>
              entry.JObject? && r[i].tx == ExtractTransaction(entry.fields) && check(r[i].Address()) == Success(true)
  {
  }

  /** The matches of the first `n` entries of a `transactions` array, entry after entry. */
  function MatchesFirst(entries: seq<JsonValue>, n: nat, check: SubscriptionCheck): (r: seq<Match>)
    requires n <= |entries|
    ensures |r| <= 2 * n
  {
    if n == 0 then [] else MatchesFirst(entries, n - 1, check) + EntryMatches(entries[n - 1], check)
  }

  /** One more entry appends its matches. */
  lemma MatchesFirstNext(entries: seq<JsonValue>, k: nat, check: SubscriptionCheck)
    requires k < |entries|
    ensures MatchesFirst(entries, k + 1, check) == MatchesFirst(entries, k, check) + EntryMatches(entries[k], check)
  {
  }

  /** The matches of a whole `transactions` array. */
  function BlockMatches(entries: seq<JsonValue>, check: SubscriptionCheck): seq<Match>
  {
    MatchesFirst(entries, |entries|, check)
  }

  /** The `transactions` array of a block response: `result` must be an object and its
      `transactions` an array. */
  function BlockEntries(body: Response): (r: Result<seq<JsonValue>, ParseError>)
    ensures r.Success? <==>
              && "result" in body && body["result"].JObject?
              && "transactions" in body["result"].fields
              && body["result"].fields["transactions"].JArray?
    ensures r.Failure? ==> r.error == InvalidResponseFormat || r.error == InvalidTransactionsFormat
  {
    if "result" !in body || !body["result"].JObject? then Failure(InvalidResponseFormat)
    else
      var result := body["result"].fields;
      if "transactions" !in result || !result["transactions"].JArray? then Failure(InvalidTransactionsFormat)
      else Success(result["transactions"].elems)
  }

  /** What `parseBlock` makes of the node's answer: an error, or the matches to record
      and notify in order. */
  function BlockOutcome(response: Result<Response, string>, check: SubscriptionCheck): (r: Result<seq<Match>, ParseError>)
    ensures response.Failure? ==> r == Failure(RpcFailure(response.error))
    ensures response.Success? ==> (r.Success? <==> BlockEntries(response.value).Success?)
    ensures r.Success? ==> |r.value| <= 2 * |BlockEntries(response.value).value|
  {
    match response
    case Failure(reason) => Failure(RpcFailure(reason))
    case Success(body) =>
      match BlockEntries(body)
      case Failure(e) => Failure(e)
      case Success(entries) => Success(BlockMatches(entries, check))
  }

  /** The block at a height, as fetched from the node. */
  function FetchBlock(node: Node, check: SubscriptionCheck, blockNumber: int): (r: Result<seq<Match>, ParseError>)
    ensures r.Failure? ==> r.error.RpcFailure? || r.error == InvalidResponseFormat || r.error == InvalidTransactionsFormat
  {
    BlockOutcome(node(BlockByNumberRequest(blockNumber)), check)
  }

  // ---------------------------------------------------------------------------
  // The ledger as a function of the matches

  /** The ledger after recording the first `n` matches, each under its address, in order. */
  function ApplyFirst(ledger: Ledger, ms: seq<Match>, n: nat): Ledger
    requires n <= |ms|
  {
    if n == 0 then ledger else Record(ApplyFirst(ledger, ms, n - 1), ms[n - 1].Address(), ms[n - 1].tx)
  }

  /** The ledger after recording every match under its address, in order. */
  function Apply(ledger: Ledger, ms: seq<Match>): Ledger
  {
    ApplyFirst(ledger, ms, |ms|)
  }

  lemma ApplyNone(ledger: Ledger)
    ensures Apply(ledger, []) == ledger
  {
  }

  lemma ApplyOne(ledger: Ledger, m: Match)
    ensures Apply(ledger, [m]) == Record(ledger, m.Address(), m.tx)
  {
    assert ApplyFirst(ledger, [m], 0) == ledger;
  }

  /** The first `n` matches alone decide the ledger after them. */
  lemma {:induction false} ApplyFirstPrefix(ledger: Ledger, s: seq<Match>, t: seq<Match>, n: nat)
    requires n <= |s| && n <= |t|
    requires forall i :: 0 <= i < n ==> s[i] == t[i]
    ensures ApplyFirst(ledger, s, n) == ApplyFirst(ledger, t, n)
  {
    if n > 0 {
      ApplyFirstPrefix(ledger, s, t, n - 1);
      assert s[n - 1] == t[n - 1];
    }
  }

  lemma {:induction false} ApplyFirstConcat(ledger: Ledger, a: seq<Match>, b: seq<Match>, j: nat)
    requires j <= |b|
    ensures ApplyFirst(ledger, a + b, |a| + j) == ApplyFirst(Apply(ledger, a), b, j)
  {
    if j == 0 {
      ApplyFirstPrefix(ledger, a + b, a, |a|);
    } else {
      ApplyFirstConcat(ledger, a, b, j - 1);
      var m := b[j - 1];
      assert (a + b)[|a| + j - 1] == m;
      assert ApplyFirst(ledger, a + b, |a| + j) == Record(ApplyFirst(ledger, a + b, |a| + j - 1), m.Address(), m.tx);
    }
  }

  lemma ApplyConcat(ledger: Ledger, a: seq<Match>, b: seq<Match>)
    ensures Apply(ledger, a + b) == Apply(Apply(ledger, a), b)
  {
    ApplyFirstConcat(ledger, a, b, |b|);
  }

  lemma ConcatAssoc<T>(a: seq<T>, b: seq<T>, c: seq<T>)
    ensures a + (b + c) == (a + b) + c
  {
  }

  /** The transactions of the first `n` matches whose address folds to `key`, in order. */
  function TxsUnderFirst(ms: seq<Match>, n: nat, key: string): seq<Transaction>
    requires n <= |ms|
  {
    if n == 0 then []
    else TxsUnderFirst(ms, n - 1, key) + (if ToLower(ms[n - 1].Address()) == key then [ms[n - 1].tx] else [])
  }

  /** The transactions of the matches whose address folds to `key`, in order. */
  function TxsUnder(ms: seq<Match>, key: string): seq<Transaction>
  {
    TxsUnderFirst(ms, |ms|, key)
  }

  /** Recording matches only ever appends: the list under each key grows by exactly
      the transactions of the matches for that key, in match order. */
  lemma ApplyLookup(ledger: Ledger, ms: seq<Match>, key: string)
    ensures Lookup(Apply(ledger, ms), key) == Lookup(ledger, key) + TxsUnder(ms, key)
  {
    ApplyFirstLookup(ledger, ms, |ms|, key);
  }

  lemma {:induction false} ApplyFirstLookup(ledger: Ledger, ms: seq<Match>, n: nat, key: string)
    requires n <= |ms|
    ensures Lookup(ApplyFirst(ledger, ms, n), key) == Lookup(ledger, key) + TxsUnderFirst(ms, n, key)
  {
    if n > 0 {
      var m := ms[n - 1];
      var prev := ApplyFirst(ledger, ms, n - 1);
      var gained := if ToLower(m.Address()) == key then [m.tx] else [];
      ApplyFirstLookup(ledger, ms, n - 1, key);
      RecordLookupAt(prev, m.Address(), m.tx, key);
      assert ApplyFirst(ledger, ms, n) == Record(prev, m.Address(), m.tx);
      assert TxsUnderFirst(ms, n, key) == TxsUnderFirst(ms, n - 1, key) + gained;
      ConcatAssoc(Lookup(ledger, key), TxsUnderFirst(ms, n - 1, key), gained);
    }
  }

  /** Reference definition of what one entry owes the list under `key`, written without
      the store: for a transaction object, one copy when its `from` folds to `key` and
      one more when its `to` does. */
  function EntryTouching(e: JsonValue, key: string): seq<Transaction>
  {
    if e.JObject? then
      var tx := ExtractTransaction(e.fields);
      (if ToLower(tx.from) == key then [tx] else []) + (if ToLower(tx.to) == key then [tx] else [])
    else []
  }

  /** What the first `n` entries owe the list under `key`, in chain order. */
  function TouchingFirst(entries: seq<JsonValue>, n: nat, key: string): seq<Transaction>
    requires n <= |entries|
  {
    if n == 0 then [] else TouchingFirst(entries, n - 1, key) + EntryTouching(entries[n - 1], key)
  }

  /** What a block owes the list under `key`. */
  function Touching(entries: seq<JsonValue>, key: string): seq<Transaction>
  {
    TouchingFirst(entries, |entries|, key)
  }

  /** The first `n` matches alone decide what they put under a key. */
  lemma {:induction false} TxsUnderFirstPrefix(s: seq<Match>, t: seq<Match>, n: nat, key: string)
    requires n <= |s| && n <= |t|
    requires forall i :: 0 <= i < n ==> s[i] == t[i]
    ensures TxsUnderFirst(s, n, key) == TxsUnderFirst(t, n, key)
  {
    if n > 0 {
      TxsUnderFirstPrefix(s, t, n - 1, key);
      assert s[n - 1] == t[n - 1];
    }
  }

  lemma {:induction false} TxsUnderFirstConcat(a: seq<Match>, b: seq<Match>, j: nat, key: string)
    requires j <= |b|
    ensures TxsUnderFirst(a + b, |a| + j, key) == TxsUnder(a, key) + TxsUnderFirst(b, j, key)
  {
    if j == 0 {
      TxsUnderFirstPrefix(a + b, a, |a|, key);
    } else {
      TxsUnderFirstConcat(a, b, j - 1, key);
      var m := b[j - 1];
      var gained := if ToLower(m.Address()) == key then [m.tx] else [];
      assert (a + b)[|a| + j - 1] == m;
      assert TxsUnderFirst(a + b, |a| + j, key) == TxsUnderFirst(a + b, |a| + j - 1, key) + gained;
      assert TxsUnderFirst(b, j, key) == TxsUnderFirst(b, j - 1, key) + gained;
      ConcatAssoc(TxsUnder(a, key), TxsUnderFirst(b, j - 1, key), gained);
    }
  }

  /** What concatenated matches put under a key is what each part puts there. */
  lemma TxsUnderConcat(a: seq<Match>, b: seq<Match>, key: string)
    ensures TxsUnder(a + b, key) == TxsUnder(a, key) + TxsUnder(b, key)
  {
    TxsUnderFirstConcat(a, b, |b|, key);
  }

  lemma TxsUnderOne(m: Match, key: string)
    ensures TxsUnder([m], key) == if ToLower(m.Address()) == key then [m.tx] else []
  {
    assert TxsUnderFirst([m], 0, key) == [];
  }

  /** With the in-memory store, the matches of one entry put under each subscribed key
      exactly what the entry owes that key, and nothing under any other key. */
  lemma EntryTxs(e: JsonValue, subscribers: set<string>, key: string)
    ensures TxsUnder(EntryMatches(e, MemCheck(subscribers)), key)
            == if key in subscribers then EntryTouching(e, key) else []
  {
    if e.JObject? {
      var tx := ExtractTransaction(e.fields);
      var out := if Subscribed(subscribers, tx.from) then [Match(Outgoing, tx)] else [];
      var inc := if Subscribed(subscribers, tx.to) then [Match(Incoming, tx)] else [];
      assert EntryMatches(e, MemCheck(subscribers)) == out + inc;
      TxsUnderConcat(out, inc, key);
      TxsUnderOne(Match(Outgoing, tx), key);
      TxsUnderOne(Match(Incoming, tx), key);
    }
  }

  /** The same for the first `n` entries of a block. */
  lemma {:induction false} MatchesFirstTxs(entries: seq<JsonValue>, n: nat, subscribers: set<string>, key: string)
    requires n <= |entries|
    ensures TxsUnder(MatchesFirst(entries, n, MemCheck(subscribers)), key)
            == if key in subscribers then TouchingFirst(entries, n, key) else []
  {
    if n > 0 {
      var check := MemCheck(subscribers);
      var e := entries[n - 1];
      var done := MatchesFirst(entries, n - 1, check);
      var ms := EntryMatches(e, check);
      assert MatchesFirst(entries, n, check) == done + ms;
      MatchesFirstTxs(entries, n - 1, subscribers, key);
      EntryTxs(e, subscribers, key);
      TxsUnderConcat(done, ms, key);
      if key in subscribers {
        assert TouchingFirst(entries, n, key) == TouchingFirst(entries, n - 1, key) + EntryTouching(e, key);
      } else {
        assert TxsUnder(done, key) + TxsUnder(ms, key) == [];
      }
    }
  }

  /** With the in-memory store, one entry puts under each subscribed key exactly what it
      owes that key, and nothing under any other key. */
  lemma EntryLedger(ledger: Ledger, e: JsonValue, subscribers: set<string>, key: string)
    ensures Lookup(Apply(ledger, EntryMatches(e, MemCheck(subscribers))), key)
            == Lookup(ledger, key) + if key in subscribers then EntryTouching(e, key) else []
  {
    ApplyLookup(ledger, EntryMatches(e, MemCheck(subscribers)), key);
    EntryTxs(e, subscribers, key);
  }

  /** The ledger after one block, key by key: each subscribed key gains exactly the
      transactions touching it, once per side and in chain order; no other key gains
      anything. */
  lemma BlockLedger(ledger: Ledger, entries: seq<JsonValue>, subscribers: set<string>, key: string)
    ensures Lookup(Apply(ledger, BlockMatches(entries, MemCheck(subscribers))), key)
            == Lookup(ledger, key) + if key in subscribers then Touching(entries, key) else []
  {
    ApplyLookup(ledger, BlockMatches(entries, MemCheck(subscribers)), key);
    MatchesFirstTxs(entries, |entries|, subscribers, key);
  }

  /** A transaction whose two sides are both subscribed gives two matches, `from` first. */
  lemma BothSidesMatch(fields: map<string, JsonValue>, check: SubscriptionCheck)
    requires var tx := ExtractTransaction(fields);
             check(tx.from) == Success(true) && check(tx.to) == Success(true)
    ensures var tx := ExtractTransaction(fields);
            EntryMatches(JObject(fields), check) == [Match(Outgoing, tx), Match(Incoming, tx)]
  {
  }

  /** A transaction neither of whose sides is subscribed gives no match. */
  lemma NeitherSideMatches(fields: map<string, JsonValue>, check: SubscriptionCheck)
    requires var tx := ExtractTransaction(fields);
             check(tx.from) == Success(false) && check(tx.to) == Success(false)
    ensures EntryMatches(JObject(fields), check) == []
  {
  }

  /** A transaction object without `hash` is not skipped: it matches with an empty hash. */
  lemma MissingHashProcessed(fields: map<string, JsonValue>, subscribers: set<string>)
    requires "hash" !in fields
    requires "from" in fields && fields["from"].JString? && Subscribed(subscribers, fields["from"].s)
    ensures var ms := EntryMatches(JObject(fields), MemCheck(subscribers));
            |ms| >= 1 && ms[0].direction == Outgoing && ms[0].tx.hash == ""
  {
  }

  /** The block of parser/parser_test.go:77-90 with "0xabc" subscribed: one Outgoing
      match, and the list under "0xabc" is exactly that transaction. */
  lemma ParseBlockExample()
    ensures var entry := JObject(map["from" := JString("0xabc"), "to" := JString("0xdef"),
                                     "hash" := JString("0x123"), "value" := JString("0x1")]);
            var tx := Transaction("0x123", "0xabc", "0xdef", "0x1");
            var ms := BlockMatches([entry], MemCheck({"0xabc"}));
            && ms == [Match(Outgoing, tx)]
            && Lookup(Apply(map[], ms), "0xabc") == [tx]
  {
    var entry := JObject(map["from" := JString("0xabc"), "to" := JString("0xdef"),
                             "hash" := JString("0x123"), "value" := JString("0x1")]);
    var tx := Transaction("0x123", "0xabc", "0xdef", "0x1");
    assert ExtractTransaction(entry.fields) == tx;
    assert ToLower("0xabc") == "0xabc" by { ToLowerFixesLower("0xabc"); }
    assert ToLower("0xdef") == "0xdef" by { ToLowerFixesLower("0xdef"); }
    var check := MemCheck({"0xabc"});
    assert check(tx.from) == Success(true);
    assert check(tx.to) == Success(false);
    assert EntryMatches(entry, check) == [Match(Outgoing, tx)];
    var ms := BlockMatches([entry], check);
    assert ms == MatchesFirst([entry], 0, check) + EntryMatches(entry, check);
    ApplyOne(map[], Match(Outgoing, tx));
    RecordLookup(map[], "0xabc", tx);
  }

  // ---------------------------------------------------------------------------
  // One cycle of StartParsing (parser/parser.go:73-92)

  /** The result of processing heights after a cursor: where the cursor ends, the
      heights requested in order, the matches recorded, and the error that stopped
      the run, if any. */
  datatype CycleResult = CycleResult(cursor: int, lastRequested: int, matches: seq<Match>, err: Option<ParseError>)

  /** A source of blocks by height: the matches of a block, or the error reading it. */
  type Fetch = int -> Result<seq<Match>, ParseError>

  /** The node's blocks, as `parseBlock` reads them. */
  function Fetcher(node: Node, check: SubscriptionCheck): Fetch
  {
    h => FetchBlock(node, check, h)
  }

  /** `fetch` answers, at every height, what the node's block there reads as. */
  ghost predicate Reads(fetch: Fetch, node: Node, check: SubscriptionCheck)
  {
    forall h {:trigger FetchBlock(node, check, h)} :: fetch(h) == FetchBlock(node, check, h)
  }

  /** Heights `cursor+1 .. head`, one at a time and ascending; the cursor moves to a
      height only once its block succeeded, and the first error ends the run. Written
      as the state after height `head` has been tried. */
  function IngestBlocks(fetch: Fetch, cursor: int, head: int): (r: CycleResult)
    decreases head - cursor
    ensures cursor <= r.cursor
    ensures head <= cursor ==> r == CycleResult(cursor, cursor, [], None)
    ensures cursor < head && r.err.None? ==> r.cursor == head
    ensures r.err.Some? ==> r.cursor < head && fetch(r.cursor + 1) == Failure(r.err.value)
    ensures BlocksSucceed(fetch, cursor, r.cursor)
    ensures r.lastRequested == if r.err.Some? then r.cursor + 1 else r.cursor
  {
    if head <= cursor then CycleResult(cursor, cursor, [], None)
    else
      var p := IngestBlocks(fetch, cursor, head - 1);
      if p.err.Some? then p
      else
        var b := fetch(head);
        if b.Failure? then CycleResult(p.cursor, head, p.matches, Some(b.error))
        else CycleResult(head, head, p.matches + b.value, None)
  }

  /** While no error has occurred, trying the next height either stops the run at it,
      with the cursor left where it was, or moves the cursor to it and appends its
      matches. */
  lemma IngestBlocksNext(fetch: Fetch, cursor: int, below: int)
    requires cursor <= below && IngestBlocks(fetch, cursor, below).err.None?
    ensures var p := IngestBlocks(fetch, cursor, below);
            var b := fetch(below + 1);
            b.Failure? ==> IngestBlocks(fetch, cursor, below + 1) == CycleResult(p.cursor, below + 1, p.matches, Some(b.error))
    ensures var p := IngestBlocks(fetch, cursor, below);
            var b := fetch(below + 1);
            b.Success? ==> IngestBlocks(fetch, cursor, below + 1) == CycleResult(below + 1, below + 1, p.matches + b.value, None)
  {
  }

  /** After the first error, later heights are never tried. */
  lemma {:induction false} IngestBlocksStops(fetch: Fetch, cursor: int, head: int, later: int)
    requires head <= later && IngestBlocks(fetch, cursor, head).err.Some?
    decreases later - head
    ensures IngestBlocks(fetch, cursor, later) == IngestBlocks(fetch, cursor, head)
  {
    if later > head {
      IngestBlocksStops(fetch, cursor, head, later - 1);
    }
  }

  /** Every block in `lo+1 .. hi` was fetched and read without error. */
  ghost predicate BlocksSucceed(fetch: Fetch, lo: int, hi: int)
  {
    forall h :: lo < h <= hi ==> fetch(h).Success?
  }

  /** One cycle: fetch the head (an error there ends the cycle with nothing done),
      then ingest every height above the cursor. */
  function Cycle(node: Node, check: SubscriptionCheck, cursor: int): (r: CycleResult)
    ensures cursor <= r.cursor
    ensures r.err.None? ==> HeadHeight(node(BlockNumberRequest())).Success?
    ensures HeadHeight(node(BlockNumberRequest())).Failure? ==>
              r == CycleResult(cursor, cursor, [], Some(HeadHeight(node(BlockNumberRequest())).error))
    ensures HeadHeight(node(BlockNumberRequest())).Success? ==>
              r == IngestBlocks(Fetcher(node, check), cursor, HeadHeight(node(BlockNumberRequest())).value)
  {
    match HeadHeight(node(BlockNumberRequest()))
    case Failure(e) => CycleResult(cursor, cursor, [], Some(e))
    case Success(head) => IngestBlocks(Fetcher(node, check), cursor, head)
  }

  /** What the block at a height owes the list under `key`, or nothing if that block
      could not be read. */
  function BlockTouching(node: Node, blockNumber: int, key: string): seq<Transaction>
  {
    match node(BlockByNumberRequest(blockNumber))
    case Failure(_) => []
    case Success(body) =>
      match BlockEntries(body)
      case Failure(_) => []
      case Success(entries) => Touching(entries, key)
  }

  /** What blocks `lo+1 .. hi` owe the list under `key`, in height order. */
  function TouchingRange(node: Node, lo: int, hi: int, key: string): seq<Transaction>
    decreases hi - lo
  {
    if hi <= lo then [] else TouchingRange(node, lo, hi - 1, key) + BlockTouching(node, hi, key)
  }

  /** The block at a height whose fetch succeeded owes each key its `Touching` list. */
  lemma FetchedBlockTouching(node: Node, check: SubscriptionCheck, blockNumber: int, key: string)
    requires FetchBlock(node, check, blockNumber).Success?
    ensures var entries := BlockEntries(node(BlockByNumberRequest(blockNumber)).value).value;
            && FetchBlock(node, check, blockNumber).value == BlockMatches(entries, check)
            && BlockTouching(node, blockNumber, key) == Touching(entries, key)
  {
  }

  /** `Fetcher` reads the node's blocks. */
  lemma FetcherReads(node: Node, check: SubscriptionCheck)
    ensures Reads(Fetcher(node, check), node, check)
  {
  }

  /** What a run of heights puts under a key: for a subscribed key, what every height
      the cursor passed owes it, in height order; for any other key, nothing. */
  lemma {:induction false} IngestTxs(node: Node, subscribers: set<string>, fetch: Fetch, cursor: int, head: int, key: string)
    requires Reads(fetch, node, MemCheck(subscribers))
    decreases head - cursor
    ensures var r := IngestBlocks(fetch, cursor, head);
            TxsUnder(r.matches, key) == if key in subscribers then TouchingRange(node, cursor, r.cursor, key) else []
  {
    var check := MemCheck(subscribers);
    if head <= cursor {
      assert TxsUnderFirst([], 0, key) == [];
    } else {
      var p := IngestBlocks(fetch, cursor, head - 1);
      IngestTxs(node, subscribers, fetch, cursor, head - 1, key);
      if p.err.None? && fetch(head).Success? {
        assert fetch(head) == FetchBlock(node, check, head);
        FetchedBlockTouching(node, check, head, key);
        var ms := fetch(head).value;
        var entries := BlockEntries(node(BlockByNumberRequest(head)).value).value;
        MatchesFirstTxs(entries, |entries|, subscribers, key);
        TxsUnderConcat(p.matches, ms, key);
        assert TouchingRange(node, cursor, head, key) == TouchingRange(node, cursor, head - 1, key) + BlockTouching(node, head, key);
      }
    }
  }

  /** Completeness and order across a cycle: for every subscribed key the ledger gains
      exactly the transactions of every height the cursor passed, once per side, in
      chain order; no other key gains anything. */
  lemma {:induction false} IngestLedger(node: Node, subscribers: set<string>, fetch: Fetch, ledger: Ledger, cursor: int, head: int, key: string)
    requires Reads(fetch, node, MemCheck(subscribers))
    ensures var r := IngestBlocks(fetch, cursor, head);
            Lookup(Apply(ledger, r.matches), key)
            == Lookup(ledger, key) + if key in subscribers then TouchingRange(node, cursor, r.cursor, key) else []
  {
    ApplyLookup(ledger, IngestBlocks(fetch, cursor, head).matches, key);
    IngestTxs(node, subscribers, fetch, cursor, head, key);
  }

  /** Completeness and order for what one polling cycle computes: a failed head read
      adds nothing; otherwise every subscribed key gains exactly the transactions
      touching it in every height the cursor passed, in chain order, and no other key
      gains anything. */
  lemma CycleLedger(node: Node, subscribers: set<string>, ledger: Ledger, cursor: int, key: string)
    ensures var r := Cycle(node, MemCheck(subscribers), cursor);
            Lookup(Apply(ledger, r.matches), key)
            == Lookup(ledger, key) + if key in subscribers then TouchingRange(node, cursor, r.cursor, key) else []
  {
    var check := MemCheck(subscribers);
    match HeadHeight(node(BlockNumberRequest()))
    case Failure(_) =>
      ApplyNone(ledger);
      assert TouchingRange(node, cursor, cursor, key) == [];
    case Success(head) =>
      FetcherReads(node, check);
      IngestLedger(node, subscribers, Fetcher(node, check), ledger, cursor, head, key);
  }
}
