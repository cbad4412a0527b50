# Ethereum transaction ingestion, modelled in Dafny

This project models the ingestion core of a small Ethereum watcher written in Go. The
watcher polls a JSON-RPC node for the chain head. It fetches every block above its
cursor in ascending order and walks each block's `transactions` array. A transaction
whose `from` or `to` address is subscribed is recorded under that address in an
in-memory store and announced to a notifier: Outgoing for `from`, Incoming for `to`.
Addresses are compared after ASCII lower-casing.

Modules, one per concern:

- `Results`: `Option` and `Result`, for Go's `(value, error)` pairs.
- `Types`: the four-string `Transaction` record (types/types.go).
- `Ascii`: the lower-casing every store key goes through.
- `Hex`: `strconv.ParseInt(_, 16, 64)` and `fmt.Sprintf("0x%x", _)` on block heights, with their round trip.
- `Rpc`: decoded JSON values, the two requests the parser sends, and the node as an oracle from request to decoded response.
- `Storage`: `MemoryStorage` as a class with a registry (`set<string>`) and a ledger (`map<string, seq<Transaction>>`), and the pure `Lookup`/`Record` view of the ledger.
- `Ingestion`: the meaning of the parser as functions.
  - `HeadHeight` reads the head.
  - `EntryMatches`/`BlockMatches` give the matches of one entry or one block.
  - `Apply` is the ledger after the matches.
  - `IngestBlocks`/`Cycle` are one polling cycle from a cursor.
  - `Touching`/`TouchingRange` are a store-free reference for what each address should gain.
  - The lemmas connect these.
- `Parser`: `ParserImpl` as a class with the cursor, the store, and two ghost logs: every notification, and every request sent to the node. Its loops are proved against the `Ingestion` functions.

The node is a parameter of type `Node = RpcRequest -> Result<Response, string>`, so one
call sees one fixed snapshot of the chain. Inside a cycle, the blocks are read through
the ghost function `fetch`. The predicate `Reads` ties `fetch` to the node: it is the
lambda `Fetcher(node, check)`, written in a form the loops can reason about.

## Model

| member | source | states |
|---|---|---|
| Hex.IsHexDigit | parser/parser.go:113 | definition, no contract: the base-16 digits `strconv.ParseInt` accepts, `0`-`9`, `a`-`f` and `A`-`F` |
| Hex.DigitValue | parser/parser.go:113 | the value of one hex digit, in either case, is below 16 |
| Hex.DigitsValue | parser/parser.go:113 | definition, no contract: the value of a digit string, most significant digit first |
| Hex.ParseInt16 | parser/parser.go:113-118 | a parsed value always fits in a signed 64-bit integer, and the string holds at least one hex digit |
| Hex.ParseInt16Exact | parser/parser.go:113 | both directions: a string parses exactly when, after one optional `+` or `-`, it is a non-empty run of hex digits of either case whose value is at most 2^63-1, or at most 2^63 after a `-`; the value is that of the digits, negated after a `-`; every other string is an error |
| Hex.ParseDigits | parser/parser.go:113 | an unsigned digit string within 63 bits reads as its value |
| Hex.ParseNegatedDigits | parser/parser.go:113 | a minus sign and a digit string within range read as minus its value |
| Hex.HexDigit | parser/parser.go:122 | the digit `%x` writes for a value below 16 is a lower-case hex digit that reads back as that value |
| Hex.FormatHex | parser/parser.go:122 | `%x` of a natural number is never empty |
| Hex.FormatInt16 | parser/parser.go:122 | `%x` of any integer is never empty and starts with `-` exactly when the integer is negative |
| Hex.EncodeBlockNumber | parser/parser.go:122 | a requested height is "0x" and at least one more character; the third character is `-` exactly for a negative height |
| Hex.DigitsValueFormat | parser/parser.go:122 | `%x` writes only lower-case hex digits with no leading zero, and they read back as the number |
| Hex.FormatRoundTrip | parser/parser.go:113-122 | reading back what `%x` wrote gives the number again, for every 64-bit integer, negative ones included |
| Hex.ParseExample | parser/parser_test.go:48-63 | "64" reads as 100; signs work; empty, sign-only and non-hex strings are errors |
| Ingestion.HeadHeight | parser/parser.go:103-118 | a transport failure or a `result` that is not a string is an error; a success is always a 64-bit value |
| Ingestion.HeadHeightOfEncoded | parser/parser.go:108-122 | a node reporting a height in the block-request encoding gives back that height, for every 64-bit height |
| Ingestion.HeadHeightExample | parser/parser_test.go:45-66 | the test's response with `result` "0x64" reads as height 100 |
| Ingestion.StringField | parser/parser.go:152-155 | a field holding a JSON string gives that string; a non-empty result is always the string the field holds, so a missing or non-string field gives "" |
| Ingestion.ExtractTransaction | parser/parser.go:152-155 | definition, no contract: the four fields `hash`, `from`, `to`, `value`, each by `StringField`; `ExtractTransactionFields` states their meaning |
| Ingestion.ExtractTransactionFields | parser/parser.go:152-155 | each of the four fields is the JSON string under its key when there is one, and a non-empty field always comes from the object |
| Ingestion.Match.Address | parser/parser.go:176-182 | definition, no contract: the address a match is saved and notified under, `from` for Outgoing and `to` for Incoming |
| Ingestion.MemCheck | storage/memory.go:30-35 | definition, no contract: `MemoryStorage.IsSubscribed` as the subscription check: the folded address is in the registry, and there is never an error |
| Ingestion.EntryMatches | parser/parser.go:146-183 | one entry gives at most two matches; a failing subscription check on `from` or `to` gives none |
| Ingestion.EntryMatchesSound | parser/parser.go:152-183 | every match of an entry carries exactly the four extracted fields, and the check said yes for the side it is recorded under |
| Ingestion.BothSidesMatch | parser/parser.go:168-183 | a transaction with both sides subscribed gives two matches, Outgoing (from) first, then Incoming (to) |
| Ingestion.NeitherSideMatches | parser/parser.go:168-183 | a transaction with neither side subscribed gives no match |
| Ingestion.MissingHashProcessed | parser/parser.go:152-155 | an object without `hash` is still processed, with an empty hash |
| Ingestion.MatchesFirst | parser/parser.go:146-185 | the first `n` entries of a block give at most two matches each |
| Ingestion.BlockMatches | parser/parser.go:146-185 | definition, no contract: the matches of the whole `transactions` loop, entry after entry; `BlockLedger` states what they leave in the store |
| Ingestion.BlockEntries | parser/parser.go:136-144 | succeeds exactly when `result` is an object whose `transactions` is an array; otherwise the error is one of the two format errors |
| Ingestion.BlockOutcome | parser/parser.go:131-144 | a transport failure becomes `RpcFailure` with its reason; a decoded response succeeds exactly when its `transactions` array is found; a success holds at most two matches per entry |
| Ingestion.FetchBlock | parser/parser.go:131-144 | a failed fetch is one of the three errors `parseBlock` returns: the transport's, the `result` format error, or the `transactions` format error |
| Ingestion.ApplyFirst | parser/parser.go:176-182 | definition, no contract: the ledger after the first `n` `SaveTransaction` calls, each under its match's address (storage/memory.go:40-41) |
| Ingestion.Apply | parser/parser.go:176-182 | definition, no contract: the ledger after every match is saved in order; `ApplyLookup` states its effect key by key |
| Ingestion.ApplyConcat | parser/parser.go:146-185 | recording two runs of matches one after the other is recording their concatenation |
| Ingestion.ApplyLookup | storage/memory.go:37-43 | recording matches only appends: each key's list grows by exactly the transactions of the matches for that key, in match order |
| Ingestion.TxsUnderConcat | parser/parser.go:146-185 | what concatenated matches put under a key is what each part puts there, in order |
| Ingestion.EntryTxs | parser/parser.go:147-183 | with the in-memory store, one entry puts under a subscribed key one copy per side whose address folds to it, `from` side first, and nothing under any other key |
| Ingestion.MatchesFirstTxs | parser/parser.go:146-185 | the same for the first `n` entries of a block, in array order |
| Ingestion.EntryLedger | parser/parser.go:147-183 | the ledger after one entry, key by key, against the store-free reference `EntryTouching` |
| Ingestion.BlockLedger | parser/parser.go:146-185 | the ledger after one block: each subscribed key gains exactly the block's transactions touching it, once per side, in array order; other keys gain nothing |
| Ingestion.ParseBlockExample | parser/parser_test.go:68-120 | the test's block with "0xabc" subscribed gives one Outgoing match, and the list under "0xabc" is exactly that transaction with hash "0x123" |
| Ingestion.IngestBlocks | parser/parser.go:81-89 | heights `cursor+1 .. head` in ascending order: the cursor never decreases; with `head <= cursor` nothing is requested or changed; without an error the cursor ends at `head`; on an error the cursor stays just below the failing height, that height's fetch failed with that error, it was the last one requested, and every height passed succeeded |
| Ingestion.IngestBlocksStops | parser/parser.go:83-86 | after the first error no later height is tried |
| Ingestion.Cycle | parser/parser.go:73-89 | a failed head read ends the cycle with no block fetched and nothing changed; otherwise the cycle is `IngestBlocks` up to the head |
| Ingestion.IngestTxs | parser/parser.go:81-89 | for blocks read as the node's (`Reads`; `Fetcher` is one such reading, by `FetcherReads`): what a run of heights puts under a subscribed key is what every height the cursor passed owes it, in height order; nothing for any other key |
| Ingestion.IngestLedger | parser/parser.go:81-89 | completeness and order across a cycle, for blocks read as the node's: the ledger under each subscribed key gains exactly the transactions touching it in every processed block, in chain order; other keys gain nothing |
| Ingestion.CycleLedger | parser/parser.go:73-89 | the same for the whole cycle `PollOnce` performs, head read included: a failed head read adds nothing; otherwise each subscribed key gains exactly the transactions touching it in every height the cursor passed, in chain order, and other keys gain nothing |
| Rpc.BlockNumberRequest | parser/parser.go:96-101 | the head request, `eth_blockNumber` with no parameters, differs from every block request |
| Rpc.BlockByNumberRequest | parser/parser.go:122-129 | definition, no contract: `eth_getBlockByNumber` with the encoded height and `true` for full transaction objects; `BlockRequestHeight` states what a node reads from it |
| Rpc.BlockRequestHeight | parser/parser.go:113-129 | for every 64-bit height the block request has that method and the two parameters, and the first one, after its "0x", parses back as the height |
| Rpc.NoGenesisRequest | parser/parser.go:81 | from a cursor at 0 or above, no block request is ever for height 0 |
| Rpc.BlockRequests | parser/parser.go:81-89 | definition, no contract: the block requests the cursor loop sends for heights `lo+1 .. hi`, in order; `BlockRequestsAt` states them one by one |
| Rpc.BlockRequestsAt | parser/parser.go:81-89 | the block requests of a run are one per height, ascending from `cursor+1` |
| Ascii.IsUpperChar | storage/memory.go:26 | definition, no contract: the ASCII capitals `A`..`Z`, the only letters the folding changes |
| Ascii.LowerChar | storage/memory.go:26 | definition, no contract: the per-character folding, a capital to its lower-case letter and every other character unchanged; `LowerCharSame` ties it to `SameCharIgnoringCase` |
| Ascii.SameCharIgnoringCase | storage/memory.go:33 | definition, no contract: equal characters, or an ASCII capital and its lower-case letter; `LowerCharSame` ties it to the folding |
| Ascii.IsLower | storage/memory.go:26 | definition, no contract: no ASCII capital anywhere, the shape of every stored key |
| Ascii.ToLower | storage/memory.go:26-48 | the folded form of an address holds no ASCII capital |
| Ascii.LowerCharSame | storage/memory.go:33 | two characters fold alike exactly when they are equal up to ASCII case |
| Ascii.ToLowerFixesLower | storage/memory.go:26 | a lower-case string is its own key |
| Ascii.ToLowerIdempotent | storage/memory.go:26-33 | folding twice is folding once, so stored keys are stable |
| Ascii.ToLowerEqual | storage/memory.go:26-33 | two addresses share a key exactly when they have the same length and agree character by character up to ASCII case |
| Storage.Lookup | storage/memory.go:48-52 | definition, no contract: the list under a key, or the empty list for an unknown key |
| Storage.Subscribed | storage/memory.go:33 | definition, no contract: the folded address is in the registry; `SubscribeThenQuery` states its behaviour |
| Storage.Record | storage/memory.go:40-41 | definition, no contract: the ledger with the transaction appended under the folded address; `RecordLookup` states its effect |
| Storage.RecordLookup | storage/memory.go:37-43 | saving appends the transaction at the end of the list under the folded address; every other list is unchanged; at most that one key is added |
| Storage.RecordLookupAt | storage/memory.go:37-43 | the same, read at one key |
| Storage.SubscribeThenQuery | storage/memory.go:23-35 | after subscribing `a`, `b` is subscribed exactly when it already was or spells `a` up to ASCII case |
| Storage.SaveThenRead | storage/memory.go:37-54 | reading back under any casing of the saving address gives a list ending with the saved transaction, after everything stored before |
| Storage.MemoryStorage.constructor | storage/memory.go:16-21 | an empty registry and an empty ledger |
| Storage.MemoryStorage.Subscribe | storage/memory.go:23-28 | the registry becomes the old one plus the folded address, so it only grows and a repeat changes nothing; the ledger is untouched; the error is nil |
| Storage.MemoryStorage.IsSubscribed | storage/memory.go:30-35 | changes nothing; true exactly when the folded address is in the registry; never an error |
| Storage.MemoryStorage.SaveTransaction | storage/memory.go:37-43 | the ledger becomes `Record` of the old one, with the registry untouched and a nil error |
| Storage.MemoryStorage.GetTransactions | storage/memory.go:45-54 | changes nothing; the list under the folded address in insertion order, empty for an unknown address; never an error |
| Storage.MemoryStorage.StoredKeysReachable | storage/memory.go:26-41 | with only folded keys stored: every registry entry reads as subscribed, every stored list reads back in full through its own key, and a key with a capital letter holds nothing |
| Storage.MemoryStorageRoundTrip | storage/memory_test.go:9-53 | on a fresh store: subscribe, see the address subscribed under any casing, save one transaction and read back exactly that one |
| Parser.ParserImpl.constructor | parser/parser.go:44-51 | the cursor starts at 0 with the given store; nothing notified or requested |
| Parser.ParserImpl.NoGenesisFetch | parser/parser.go:44-89 | the cursor starts at 0 (line 46) and each cycle asks from `currentBlock + 1` (line 81), so the cycle that starts from a valid parser never asks for height 0 |
| Parser.ParserImpl.GetCurrentBlock | parser/parser.go:53-57 | returns the cursor |
| Parser.ParserImpl.Subscribe | parser/parser.go:59-62 | subscribes through the store and reports success |
| Parser.ParserImpl.GetTransactions | parser/parser.go:64-71 | the store's list for the folded address |
| Parser.ParserImpl.GetCurrentBlockNumber | parser/parser.go:94-119 | sends exactly one `eth_blockNumber` request and returns `HeadHeight` of the answer |
| Parser.ParserImpl.ParseBlock | parser/parser.go:121-188 | sends exactly one `eth_getBlockByNumber` request for the height; on a failed fetch it returns that error with the ledger and notifications unchanged; otherwise it records and notifies the block's matches, in order |
| Parser.ParserImpl.ProcessEntries | parser/parser.go:146-185 | the ledger and notifications gain the block's matches, entry after entry, in array order |
| Parser.ParserImpl.ProcessEntry | parser/parser.go:147-184 | one entry: the ledger and notifications gain exactly `EntryMatches` of that entry, `from` side first |
| Parser.ParserImpl.ProcessUpTo | parser/parser.go:81-89 | the cursor, the error, the ledger, the notifications and the requests sent are those of `IngestBlocks` from the old cursor to the head |
| Parser.ParserImpl.ProcessNext | parser/parser.go:82-88 | one turn of the loop: the state at height `currentBlock+1` of the same run, with the cursor moved only on success |
| Parser.ParserImpl.PollOnce | parser/parser.go:73-89 | one polling cycle: the head request, then exactly the state `Cycle` describes |

## Left out

- The HTTP and JSON transport (`makeRPCRequest`, parser/parser.go:190-223) is not modelled. The node is an oracle from the request to the decoded response object, or a failure reason. Marshalling, status codes and body reading all fall under that failure.
- The requests keep only the method name and the parameters. `jsonrpc` and `id` are constants and are left out.
- JSON numbers keep their literal text (`JNumber`): the core never reads them. That leaves floating point out.
- `StartParsing`'s outer `for {}` and `time.Sleep` are not modelled. `PollOnce` is one cycle, and `Cycle` is what it computes.
- Mutexes and the goroutine that runs `StartParsing` are not modelled, because the model is sequential. The unsynchronised reads and writes of `currentBlock` in `StartParsing` are a data race in the Go code, and the model does not capture it.
- `Notify` and every `fmt.Printf` are logging. They are kept as the ghost `notifications` log (direction and transaction) or dropped.
- The store is fixed to `MemoryStorage`, behind the `Storage` interface (storage/storage.go:5-10). No other implementation is modelled. At the function level the store is a general `SubscriptionCheck` oracle, so the skip on a failing check (parser/parser.go:157-166) is stated for any store. The in-memory store never fails, and `SaveTransaction`'s error, which `parseBlock` ignores, is never produced.
- Ascii.ToLower: ASCII case folding only. Go's `strings.ToLower` also folds non-ASCII letters, but hex addresses never contain them.
- Strings are sequences of characters. Go slices `resultHex[2:]` by byte. The two differ only for multi-byte characters in the first two positions.
- Ingestion.HeadHeight: a `result` shorter than two characters makes Go panic. The model returns the error `ResultTooShort` in its place.
- Ingestion.HeadHeight: `strconv.ParseInt`'s syntax and range errors both map to one error, `InvalidNumber`.
- Ingestion.IngestBlocks: heights are unbounded integers, so the model does not capture Go's 64-bit wrap-around. With a head of 2^63-1, Go processes that height, `i++` wraps to -2^63, and `i <= head` still holds. Go then calls `parseBlock(-2^63)` and requests "0x-8000000000000000" (parser/parser.go:81). The model stops at the head without error. Go keeps going up from -2^63 until a fetch fails. After a wrap Go's cursor goes negative, so `0 <= currentBlock` in `ParserImpl.Valid` and `NoGenesisFetch` hold for the model's unbounded cursor only.
- `ParseBlock`, `ProcessUpTo` and `ProcessNext` take a ghost `fetch` function equal to the node's block reading (`Reads`). It is a proof device only; the methods call the node themselves.
- The HTTP API (api/api.go), main.go and config/config.go are not part of this model.
- The test doubles in parser/parser_test.go and storage/storage_test.go compare addresses case-sensitively. `ParseBlockExample` uses the in-memory store instead; the two agree on the addresses that test uses.
- A transaction entry missing `hash` gets "" as its hash and is processed like any other (parser/parser.go:154). The model does the same (`MissingHashProcessed`).
- Storage.MemoryStorage.GetTransactions: returns the list as a value. Go returns the stored slice itself (storage/memory.go:53), which shares its backing array with the store. Aliasing between the caller's slice and later appends is not modelled.
