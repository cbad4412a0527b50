/** The in-memory address registry and transaction ledger (storage/memory.go), behind
    the store contract of storage/storage.go. Every key is the ASCII lower-case form of
    the address it was given. */
module Storage {
  import opened Results
  import opened Types
  import opened Ascii

  /** The error a store may report. The in-memory store never reports one. */
  datatype StorageError = StorageError(reason: string)

  /** Per-address transaction lists, keyed by lower-cased address. */
  type Ledger = map<string, seq<Transaction>>

  /** The list stored under a key; an unknown key reads as the empty list. */
  function Lookup(ledger: Ledger, key: string): seq<Transaction>
  {
    if key in ledger then ledger[key] else []
  }

  /** Whether the registry holds the folded form of an address. */
  predicate Subscribed(subscribers: set<string>, address: string)
  {
    ToLower(address) in subscribers
  }

  /** The ledger after appending one transaction under an address: the list under its
      folded key grows by that transaction at the end, and no other list changes. */
  function Record(ledger: Ledger, address: string, tx: Transaction): Ledger
  {
    ledger[ToLower(address) := Lookup(ledger, ToLower(address)) + [tx]]
  }

  /** Saving appends to the list under the folded address, touches no other list,
      and adds at most that one key. */
  lemma RecordLookup(ledger: Ledger, address: string, tx: Transaction)
    ensures Lookup(Record(ledger, address, tx), ToLower(address)) == Lookup(ledger, ToLower(address)) + [tx]
    ensures forall key :: key != ToLower(address) ==> Lookup(Record(ledger, address, tx), key) == Lookup(ledger, key)
    ensures Record(ledger, address, tx).Keys == ledger.Keys + {ToLower(address)}
  {
  }

  /** `RecordLookup` for one key. */
  lemma RecordLookupAt(ledger: Ledger, address: string, tx: Transaction, key: string)
    ensures Lookup(Record(ledger, address, tx), key)
            == Lookup(ledger, key) + if ToLower(address) == key then [tx] else []
  {
  }

  /** After adding address `a` to the registry, `b` is subscribed exactly when it was
      already, or when it spells `a` up to ASCII case. */
  lemma SubscribeThenQuery(subscribers: set<string>, a: string, b: string)
    ensures Subscribed(subscribers + {ToLower(a)}, b) <==>
              || Subscribed(subscribers, b)
              || (|a| == |b| && forall i :: 0 <= i < |a| ==> SameCharIgnoringCase(a[i], b[i]))
  {
    ToLowerEqual(a, b);
  }

  /** Reading back under any casing of the address used for saving returns a list
      that ends with the saved transaction, after everything stored before. */
  lemma SaveThenRead(ledger: Ledger, a: string, b: string, tx: Transaction)
    requires |a| == |b| && forall i :: 0 <= i < |a| ==> SameCharIgnoringCase(a[i], b[i])
    ensures var txs := Lookup(Record(ledger, a, tx), ToLower(b));
              |txs| > 0 && txs[|txs| - 1] == tx && txs[..|txs| - 1] == Lookup(ledger, ToLower(b))
  {
    ToLowerEqual(a, b);
    RecordLookup(ledger, a, tx);
  }

  class MemoryStorage {
    var subscribers: set<string>
    var transactions: Ledger

    /** Only folded keys are ever stored, so nothing stored is out of reach of a
        lookup (`StoredKeysReachable`). */
    ghost predicate Valid()
      reads this
    {
      && (forall a :: a in subscribers ==> IsLower(a))
      && (forall a :: a in transactions ==> IsLower(a))
    }

    /** Nothing stored is out of reach: every registry entry reads as subscribed and
        every list reads back in full when its own key is used as the address, and a
        key that is not lower case holds nothing. */
    lemma StoredKeysReachable()
      requires Valid()
      ensures forall a :: a in subscribers ==> Subscribed(subscribers, a)
      ensures forall k :: k in transactions ==> Lookup(transactions, ToLower(k)) == transactions[k]
      ensures forall k :: !IsLower(k) ==> Lookup(transactions, k) == []
    {
      forall a | a in subscribers
        ensures Subscribed(subscribers, a)
      {
        ToLowerFixesLower(a);
      }
      forall k | k in transactions
        ensures Lookup(transactions, ToLower(k)) == transactions[k]
      {
        ToLowerFixesLower(k);
      }
    }

    /** `NewMemoryStorage`: an empty registry and an empty ledger. */
    constructor ()
      ensures Valid()
      ensures subscribers == {} && transactions == map[]
    {
      subscribers := {};
      transactions := map[];
    }

    /** Adds the folded address to the registry; the ledger is untouched. */
    method Subscribe(address: string) returns (err: Option<StorageError>)
      requires Valid()
      modifies this`subscribers
      ensures Valid()
      ensures subscribers == old(subscribers) + {ToLower(address)}
      ensures err == None
    {
      subscribers := subscribers + {ToLower(address)};
      err := None;
    }

    /** Looks up the folded address; never fails. */
    method IsSubscribed(address: string) returns (r: Result<bool, StorageError>)
      ensures r == Success(Subscribed(subscribers, address))
    {
      r := Success(ToLower(address) in subscribers);
    }

    /** Appends the transaction to the list under the folded address; the registry
        is untouched. */
    method SaveTransaction(address: string, tx: Transaction) returns (err: Option<StorageError>)
      requires Valid()
      modifies this`transactions
      ensures Valid()
      ensures transactions == Record(old(transactions), address, tx)
      ensures err == None
    {
      var key := ToLower(address);
      var txs := if key in transactions then transactions[key] else [];
      transactions := transactions[key := txs + [tx]];
      err := None;
    }

    /** The list under the folded address in insertion order, empty when unknown. */
    method GetTransactions(address: string) returns (r: Result<seq<Transaction>, StorageError>)
      ensures r == Success(Lookup(transactions, ToLower(address)))
    {
      var key := ToLower(address);
      if key !in transactions {
        return Success([]);
      }
      r := Success(transactions[key]);
    }
  }

  /** The round trip of storage/memory_test.go on a fresh store: subscribe an address,
      see it subscribed, save a transaction under it and read back exactly that one
      transaction under any casing of the address. */
  method MemoryStorageRoundTrip(address: string, probe: string, tx: Transaction)
    returns (subscribed: bool, txs: seq<Transaction>, probeSubscribed: bool)
    requires ToLower(probe) == ToLower(address)
    ensures subscribed && probeSubscribed
    ensures txs == [tx]
  {
    var store := new MemoryStorage();
    var _ := store.Subscribe(address);
    var check := store.IsSubscribed(address);
    subscribed := check.Success? && check.value;
    check := store.IsSubscribed(probe);
    probeSubscribed := check.Success? && check.value;
    var _ := store.SaveTransaction(address, tx);
    var read := store.GetTransactions(probe);
    txs := if read.Success? then read.value else [];
  }
}
