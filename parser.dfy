/** `ParserImpl` (parser/parser.go): the cursor, the store it writes to, and one
    polling cycle of `StartParsing`. The node is passed to each call as an oracle;
    what the logging notifier and the node would see is kept in two ghost logs. */
module Parser {
  import opened Results
  import opened Types
  import opened Ascii
  import opened Rpc
  import opened Storage
  import opened Ingestion

  class ParserImpl {
    /** The highest height whose block was fully processed. */
    var currentBlock: int
    const storage: MemoryStorage
    const rpcURL: string
    /** Every `Notify` call, in order: the direction and the four fields. */
    ghost var notifications: seq<Match>
    /** Every request sent to the node, in order. */
    ghost var requests: seq<RpcRequest>

    /** The cursor is never negative, and the store holds only folded keys
        (`StoredKeysReachable`). With the cursor at 0 or above, the next cycle never
        asks for height 0 (`NoGenesisFetch`). */
    ghost predicate Valid()
      reads this, storage
    {
      0 <= currentBlock && storage.Valid()
    }

    /** Height 0 is never fetched: the block requests of the cycle that starts from
        a valid parser cover only heights above 0. */
    lemma NoGenesisFetch(node: Node)
      requires Valid()
      ensures var r := Cycle(node, MemCheck(storage.subscribers), currentBlock);
              BlockByNumberRequest(0) !in BlockRequests(currentBlock, r.lastRequested)
    {
      NoGenesisRequest(currentBlock, Cycle(node, MemCheck(storage.subscribers), currentBlock).lastRequested);
    }

    /** The store and both logs are what a run that started from `ledger0`,
        `notified0` and `requested0` with the cursor at `start` and produced `r`
        leaves: every match applied and notified in order, and one block request per
        height asked for. */
    ghost predicate Tracks(ledger0: Ledger, notified0: seq<Match>, requested0: seq<RpcRequest>,
                           start: int, r: CycleResult)
      reads this, storage
    {
      && storage.transactions == Apply(ledger0, r.matches)
      && notifications == notified0 + r.matches
      && requests == requested0 + BlockRequests(start, r.lastRequested)
    }

    /** `NewParser`: the cursor starts at 0, so height 0 is never fetched. */
    constructor (rpcURL: string, storage: MemoryStorage)
      requires storage.Valid()
      ensures Valid()
      ensures currentBlock == 0 && this.storage == storage && this.rpcURL == rpcURL
      ensures notifications == [] && requests == []
    {
      currentBlock := 0;
      this.storage := storage;
      this.rpcURL := rpcURL;
      notifications := [];
      requests := [];
    }

    method GetCurrentBlock() returns (n: int)
      ensures n == currentBlock
    {
      n := currentBlock;
    }

    /** Subscribes through the store and reports whether it succeeded. */
    method Subscribe(address: string) returns (ok: bool)
      requires Valid()
      modifies storage`subscribers
      ensures Valid()
      ensures ok && storage.subscribers == old(storage.subscribers) + {ToLower(address)}
    {
      var err := storage.Subscribe(address);
      ok := err.None?;
    }

    /** The stored list for the address, or the empty list if the store fails. */
    method GetTransactions(address: string) returns (txs: seq<Transaction>)
      ensures txs == Lookup(storage.transactions, ToLower(address))
    {
      var r := storage.GetTransactions(address);
      if r.Failure? {
        return [];
      }
      txs := r.value;
    }

    /** Asks the node for the head height. */
    method GetCurrentBlockNumber(node: Node) returns (r: Result<int, ParseError>)
      modifies this`requests
      ensures requests == old(requests) + [BlockNumberRequest()]
      ensures r == HeadHeight(node(BlockNumberRequest()))
    {
      requests := requests + [BlockNumberRequest()];
      r := HeadHeight(node(BlockNumberRequest()));
    }

    /** Fetches one block and, entry by entry, records and notifies every match. On an
        error nothing is recorded and nothing is notified. */
    method ParseBlock(node: Node, blockNumber: int, ghost fetch: Fetch) returns (err: Option<ParseError>)
      requires Valid()
      requires Reads(fetch, node, MemCheck(storage.subscribers))
      modifies this`notifications, this`requests, storage`transactions
      ensures Valid()
      ensures requests == old(requests) + [BlockByNumberRequest(blockNumber)]
      ensures var b := fetch(blockNumber);
              && (b.Failure? ==>
                    && err == Some(b.error)
                    && storage.transactions == old(storage.transactions)
                    && notifications == old(notifications))
              && (b.Success? ==>
                    && err == None
                    && storage.transactions == Apply(old(storage.transactions), b.value)
                    && notifications == old(notifications) + b.value)
    {
      assert fetch(blockNumber) == FetchBlock(node, MemCheck(storage.subscribers), blockNumber);
      requests := requests + [BlockByNumberRequest(blockNumber)];
      var response := node(BlockByNumberRequest(blockNumber));
      if response.Failure? {
        return Some(RpcFailure(response.error));
      }
      var block := BlockEntries(response.value);
      if block.Failure? {
        return Some(block.error);
      }
      var entries := block.value;
      ProcessEntries(entries);
      err := None;
    }

    /** `parseBlock`'s loop over the `transactions` array, in array order. */
    method ProcessEntries(entries: seq<JsonValue>)
      requires storage.Valid()
      modifies this`notifications, storage`transactions
      ensures storage.Valid()
      ensures var ms := BlockMatches(entries, MemCheck(storage.subscribers));
              && storage.transactions == Apply(old(storage.transactions), ms)
              && notifications == old(notifications) + ms
    {
      ghost var check := MemCheck(storage.subscribers);
      for k := 0 to |entries|
        invariant storage.Valid()
        invariant storage.transactions == Apply(old(storage.transactions), MatchesFirst(entries, k, check))
        invariant notifications == old(notifications) + MatchesFirst(entries, k, check)
      {
        ghost var done := MatchesFirst(entries, k, check);
        ghost var ms := EntryMatches(entries[k], check);
        MatchesFirstNext(entries, k, check);
        ApplyConcat(old(storage.transactions), done, ms);
        ConcatAssoc(old(notifications), done, ms);
        ProcessEntry(entries[k]);
      }
    }

    /** The body of `parseBlock`'s loop for one entry of `transactions`: an entry that is
        not an object, or whose `from` or `to` check fails, is skipped; otherwise the
        transaction is recorded and notified under `from` (Outgoing), then under `to`
        (Incoming), for each side that is subscribed. */
    method ProcessEntry(entry: JsonValue)
      requires storage.Valid()
      modifies this`notifications, storage`transactions
      ensures storage.Valid()
      ensures var ms := EntryMatches(entry, MemCheck(storage.subscribers));
              && storage.transactions == Apply(old(storage.transactions), ms)
              && notifications == old(notifications) + ms
    {
      if !entry.JObject? {
        return;
      }
      var tx := ExtractTransaction(entry.fields);
      var fromSubscribed := storage.IsSubscribed(tx.from);
      if fromSubscribed.Failure? {
        return;
      }
      var toSubscribed := storage.IsSubscribed(tx.to);
      if toSubscribed.Failure? {
        return;
      }
      ghost var out := if fromSubscribed.value then [Match(Outgoing, tx)] else [];
      ghost var inc := if toSubscribed.value then [Match(Incoming, tx)] else [];
      ghost var before := storage.transactions;
      ghost var mid := Apply(before, out);
      assert EntryMatches(entry, MemCheck(storage.subscribers)) == out + inc;
      ApplyConcat(before, out, inc);
      ConcatAssoc(old(notifications), out, inc);
      if !fromSubscribed.value {
        ApplyNone(before);
      }
      if !toSubscribed.value {
        ApplyNone(mid);
      }
      if fromSubscribed.value || toSubscribed.value {
        if fromSubscribed.value {
          ApplyOne(before, Match(Outgoing, tx));
          var _ := storage.SaveTransaction(tx.from, tx);
          notifications := notifications + [Match(Outgoing, tx)];
        }
        if toSubscribed.value {
          ApplyOne(mid, Match(Incoming, tx));
          var _ := storage.SaveTransaction(tx.to, tx);
          notifications := notifications + [Match(Incoming, tx)];
        }
      }
    }

    /** The inner loop of `StartParsing`: heights `currentBlock+1 .. head` in order;
        the cursor moves to a height only after its block succeeded, and the first
        error is returned with the cursor left just below the failed height. */
    method ProcessUpTo(node: Node, head: int, ghost fetch: Fetch) returns (err: Option<ParseError>)
      requires Valid()
      requires Reads(fetch, node, MemCheck(storage.subscribers))
      modifies this`currentBlock, this`notifications, this`requests, storage`transactions
      ensures Valid()
      ensures var r := IngestBlocks(fetch, old(currentBlock), head);
              && err == r.err
              && currentBlock == r.cursor
              && Tracks(old(storage.transactions), old(notifications), old(requests), old(currentBlock), r)
    {
      ghost var start := currentBlock;
      var i := currentBlock + 1;
      while i <= head
        invariant Valid()
        invariant currentBlock == i - 1 && start <= currentBlock
        invariant currentBlock == start || currentBlock <= head
        invariant Reads(fetch, node, MemCheck(storage.subscribers))
        invariant var r := IngestBlocks(fetch, start, currentBlock);
                  && r.err.None? && r.cursor == currentBlock
                  && Tracks(old(storage.transactions), old(notifications), old(requests), start, r)
        decreases head - i
      {
        err := ProcessNext(node, i, fetch, start, old(storage.transactions), old(notifications), old(requests));
        if err.Some? {
          IngestBlocksStops(fetch, start, i, head);
          assert IngestBlocks(fetch, start, head) == IngestBlocks(fetch, start, i);
          return;
        }
        i := i + 1;
      }
      ghost var r := IngestBlocks(fetch, start, head);
      assert r == IngestBlocks(fetch, start, currentBlock);
      assert r.err == None && r.lastRequested == currentBlock;
      err := None;
    }

    /** One turn of `StartParsing`'s inner loop: the block just above the cursor, with
        the cursor advanced past it only if it succeeded. `fetch` is how the node's
        blocks read with the current registry; the other ghost parameters name the
        state at the start of the run this turn belongs to. */
    method ProcessNext(node: Node, height: int, ghost fetch: Fetch, ghost start: int, ghost ledger0: Ledger,
                       ghost notified0: seq<Match>, ghost requested0: seq<RpcRequest>)
        returns (err: Option<ParseError>)
      requires Valid() && height == currentBlock + 1
      requires Reads(fetch, node, MemCheck(storage.subscribers))
      requires var r := IngestBlocks(fetch, start, currentBlock);
               && r.err.None? && r.cursor == currentBlock
               && Tracks(ledger0, notified0, requested0, start, r)
      modifies this`currentBlock, this`notifications, this`requests, storage`transactions
      ensures Valid()
      ensures Reads(fetch, node, MemCheck(storage.subscribers))
      ensures var r := IngestBlocks(fetch, start, height);
              && err == r.err
              && currentBlock == r.cursor
              && Tracks(ledger0, notified0, requested0, start, r)
    {
      ghost var matched := IngestBlocks(fetch, start, currentBlock).matches;
      IngestBlocksNext(fetch, start, currentBlock);
      BlockRequestsNext(start, currentBlock);
      ConcatAssoc(requested0, BlockRequests(start, currentBlock), [BlockByNumberRequest(height)]);
      err := ParseBlock(node, height, fetch);
      if err.None? {
        ghost var ms := fetch(height).value;
        ApplyConcat(ledger0, matched, ms);
        ConcatAssoc(notified0, matched, ms);
        currentBlock := height;
      }
    }

    /** One polling cycle of `StartParsing`: read the head, then process every new
        height. A failed head read is returned at once with nothing else done. */
    method PollOnce(node: Node) returns (err: Option<ParseError>)
      requires Valid()
      modifies this`currentBlock, this`notifications, this`requests, storage`transactions
      ensures Valid()
      ensures var r := Cycle(node, MemCheck(storage.subscribers), old(currentBlock));
              && err == r.err
              && currentBlock == r.cursor
              && storage.transactions == Apply(old(storage.transactions), r.matches)
              && notifications == old(notifications) + r.matches
              && requests == old(requests) + [BlockNumberRequest()] + BlockRequests(old(currentBlock), r.lastRequested)
    {
      var head := GetCurrentBlockNumber(node);
      if head.Failure? {
        assert old(requests) + [BlockNumberRequest()] + [] == requests;
        return Some(head.error);
      }
      ghost var fetch := Fetcher(node, MemCheck(storage.subscribers));
      err := ProcessUpTo(node, head.value, fetch);
    }
  }
}
