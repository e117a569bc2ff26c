/** The persistence adapter (`src/services/localStorage.js`): two lists
    kept as JSON text under fixed keys, each operation a read-modify-write
    of the whole list that turns any error into a sentinel. */
module Storage {
  import opened Wrappers
  import opened Seqs
  import opened Records

  /** What `localStorage` holds under one key: nothing (`getItem` gives
      `null`), text that `JSON.parse` rejects, or a serialised list. The
      serialisation itself is not modelled: a list read back is the list
      written. */
  datatype Slot<T> = Absent | Corrupt | Stored(items: seq<T>)

  /** The storage layer's state. `WriteFails`: `setItem` throws (the quota
      is exceeded), `getItem` and `removeItem` work. `Disabled`: every
      storage call throws. */
  datatype Fault = Healthy | WriteFails | Disabled

  /** The list a getter returns: the stored list, or `[]` when the key is
      absent, its content does not parse, or storage throws. */
  function Load<T>(slot: Slot<T>, fault: Fault): (r: seq<T>)
    ensures fault == Disabled ==> r == []
    ensures !slot.Stored? ==> r == []
    ensures fault != Disabled && slot.Stored? ==> r == slot.items
  {
    if fault == Disabled then []
    else match slot
      case Stored(items) => items
      case _ => []
  }

  /** `transactions.filter(t => t.id !== id)`. */
  function WithoutId(ts: seq<Transaction>, id: string): seq<Transaction> {
    Keep(ts, (t: Transaction) => t.id != id)
  }

  /** Deleting removes every record with the id, keeps every other record,
      and keeps their order. */
  lemma WithoutIdSpec(ts: seq<Transaction>, id: string)
    ensures forall t :: t in WithoutId(ts, id) <==> t in ts && t.id != id
    ensures SubsequenceOf(WithoutId(ts, id), ts)
    ensures forall t :: multiset(WithoutId(ts, id))[t] == if t.id != id then multiset(ts)[t] else 0
  {
    KeepIsSubsequence(ts, (t: Transaction) => t.id != id);
    KeepCounts(ts, (t: Transaction) => t.id != id);
  }

  /** Deleting an id that no record has leaves the list as it was. */
  lemma {:induction false} WithoutUnknownId(ts: seq<Transaction>, id: string)
    requires forall i :: 0 <= i < |ts| ==> ts[i].id != id
    ensures WithoutId(ts, id) == ts
  {
    if ts != [] {
      WithoutUnknownId(ts[..|ts| - 1], id);
      assert ts == ts[..|ts| - 1] + [ts[|ts| - 1]];
    }
  }

  /** `transactions.findIndex(t => t.id === id)`, `None` for `-1`. */
  function FindId(ts: seq<Transaction>, id: string): Option<nat> {
    FindIndex(ts, (t: Transaction) => t.id == id)
  }

  /** `categories.includes(name) ? categories : [...categories, name]`. */
  function WithCategory(cs: seq<string>, name: string): (r: seq<string>)
    ensures forall x :: x in r <==> x in cs || x == name
    ensures |r| == if name in cs then |cs| else |cs| + 1
    ensures r[..|cs|] == cs
    ensures Distinct(cs) ==> Distinct(r)
  {
    if name in cs then cs else cs + [name]
  }

  /** Saving a category twice stores it once. */
  lemma WithCategoryIdempotent(cs: seq<string>, name: string)
    ensures WithCategory(WithCategory(cs, name), name) == WithCategory(cs, name)
  {
  }

  predicate DistinctIds(ts: seq<Transaction>) {
    forall i, j :: 0 <= i < j < |ts| ==> ts[i].id != ts[j].id
  }

  /** `id` is the numeral of a clock reading before `now`. */
  ghost predicate IssuedEarlier(id: string, now: nat) {
    exists c: nat :: c < now && id == IdFor(c)
  }

  /** Every record's id was issued before `now`. */
  ghost predicate IssuedBefore(ts: seq<Transaction>, now: nat) {
    forall i :: 0 <= i < |ts| ==> IssuedEarlier(ts[i].id, now)
  }

  /** An id issued before `now` is not the id issued at `now`. */
  lemma EarlierIdDiffers(id: string, now: nat)
    requires IssuedEarlier(id, now)
    ensures id != IdFor(now)
  {
    var c: nat :| c < now && id == IdFor(c);
    Numbers.NatStrInjective(c, now);
  }

  /** Ids stay unique only because the clock moves on: a record saved at
      `now` after records saved at earlier readings gets a fresh id, and
      the next save must come at `now + 1` or later. */
  lemma SaveKeepsIdsDistinct(ts: seq<Transaction>, d: Draft, now: nat, timestamp: string)
    requires DistinctIds(ts) && IssuedBefore(ts, now)
    ensures DistinctIds(ts + [Stamped(d, now, timestamp)])
    ensures IssuedBefore(ts + [Stamped(d, now, timestamp)], now + 1)
  {
    var ts' := ts + [Stamped(d, now, timestamp)];
    forall i | 0 <= i < |ts| ensures ts'[i].id != IdFor(now) {
      EarlierIdDiffers(ts[i].id, now);
    }
    forall i | 0 <= i < |ts'| ensures IssuedEarlier(ts'[i].id, now + 1) {
      if i < |ts| {
        assert IssuedEarlier(ts[i].id, now);
        var c: nat :| c < now && ts[i].id == IdFor(c);
        assert c < now + 1 && ts'[i].id == IdFor(c);
      } else {
        assert now < now + 1 && ts'[i].id == IdFor(now);
      }
    }
  }

  /** Deleting the record just saved, by the id it was given, restores the
      list as it was before the save. */
  lemma SaveThenDelete(ts: seq<Transaction>, d: Draft, now: nat, timestamp: string)
    requires IssuedBefore(ts, now)
    ensures WithoutId(ts + [Stamped(d, now, timestamp)], IdFor(now)) == ts
  {
    forall i | 0 <= i < |ts| ensures ts[i].id != IdFor(now) {
      EarlierIdDiffers(ts[i].id, now);
    }
    KeepAppend(ts, [Stamped(d, now, timestamp)], (t: Transaction) => t.id != IdFor(now));
    WithoutUnknownId(ts, IdFor(now));
  }

  /** Two saves while the clock shows the same millisecond store two
      records with one id. */
  lemma SameMillisecondDuplicates(ts: seq<Transaction>, d1: Draft, d2: Draft, now: nat, t1: string, t2: string)
    ensures !DistinctIds(ts + [Stamped(d1, now, t1)] + [Stamped(d2, now, t2)])
  {
    var ts' := ts + [Stamped(d1, now, t1)] + [Stamped(d2, now, t2)];
    assert ts'[|ts|].id == ts'[|ts| + 1].id;
  }

  /** The transactions slot after `saveTransaction(d)`. */
  function Saved(slot: Slot<Transaction>, fault: Fault, d: Draft, now: nat, timestamp: string): Slot<Transaction> {
    if fault == Healthy then Stored(Load(slot, fault) + [Stamped(d, now, timestamp)]) else slot
  }

  /** The transactions slot after `updateTransaction(id, p)`. */
  function Updated(slot: Slot<Transaction>, fault: Fault, id: string, p: Patch): Slot<Transaction> {
    var ts := Load(slot, fault);
    match FindId(ts, id)
    case Some(i) => if fault == Healthy then Stored(ts[i := Merge(ts[i], p)]) else slot
    case None => slot
  }

  /** The transactions slot after `deleteTransaction(id)`. */
  function Deleted(slot: Slot<Transaction>, fault: Fault, id: string): Slot<Transaction> {
    if fault == Healthy then Stored(WithoutId(Load(slot, fault), id)) else slot
  }

  /** The custom-categories slot after `saveCustomCategory(name)`. */
  function CategorySaved(slot: Slot<string>, fault: Fault, name: string): Slot<string> {
    var cs := Load(slot, fault);
    if name in cs || fault != Healthy then slot else Stored(WithCategory(cs, name))
  }

  /** Saving a category twice has the effect of saving it once, and a
      successful save leaves the name listed. */
  lemma CategorySavedIdempotent(slot: Slot<string>, fault: Fault, name: string)
    ensures CategorySaved(CategorySaved(slot, fault, name), fault, name) == CategorySaved(slot, fault, name)
    ensures fault == Healthy ==> name in Load(CategorySaved(slot, fault, name), fault)
  {
  }

  /** The browser's `localStorage` as the adapter sees it. */
  class LocalStore {
    var transactions: Slot<Transaction>
    var customCategories: Slot<string>
    var fault: Fault

    constructor (transactions: Slot<Transaction>, customCategories: Slot<string>, fault: Fault)
      ensures this.transactions == transactions
      ensures this.customCategories == customCategories
      ensures this.fault == fault
    {
      this.transactions := transactions;
      this.customCategories := customCategories;
      this.fault := fault;
    }

    /** `localStorage.setItem(TRANSACTIONS_KEY, JSON.stringify(items))`;
        `ok` is false when it throws. */
    method SetTransactions(items: seq<Transaction>) returns (ok: bool)
      modifies this`transactions
      ensures ok == (fault == Healthy)
      ensures transactions == if ok then Stored(items) else old(transactions)
    {
      ok := fault == Healthy;
      if ok {
        transactions := Stored(items);
      }
    }

    /** `localStorage.setItem(CUSTOM_CATEGORIES_KEY, ...)`. */
    method SetCustomCategories(items: seq<string>) returns (ok: bool)
      modifies this`customCategories
      ensures ok == (fault == Healthy)
      ensures customCategories == if ok then Stored(items) else old(customCategories)
    {
      ok := fault == Healthy;
      if ok {
        customCategories := Stored(items);
      }
    }

    method GetTransactions() returns (r: seq<Transaction>)
      ensures r == Load(transactions, fault)
      ensures fault == Healthy && transactions.Stored? ==> r == transactions.items
    {
      if fault == Disabled {
        return [];
      }
      match transactions
      case Stored(items) => r := items;
      case Absent => r := [];
      case Corrupt => r := [];
    }

    /** Appends the draft stamped with id `IdFor(now)` and `timestamp`, and
        returns that record; `None` (`null`) when the write fails. */
    method SaveTransaction(d: Draft, now: nat, timestamp: string) returns (r: Option<Transaction>)
      modifies this`transactions
      ensures fault == Healthy ==>
                transactions == Stored(Load(old(transactions), fault) + [Stamped(d, now, timestamp)]) &&
                r == Some(Stamped(d, now, timestamp))
      ensures fault != Healthy ==> transactions == old(transactions) && r == None
      ensures transactions == Saved(old(transactions), fault, d, now, timestamp)
    {
      var ts := GetTransactions();
      var record := Stamped(d, now, timestamp);
      ts := ts + [record];
      var ok := SetTransactions(ts);
      r := if ok then Some(record) else None;
    }

    /** Writes back the list without the records whose id is `id`;
        `false` when the write fails. */
    method DeleteTransaction(id: string) returns (ok: bool)
      modifies this`transactions
      ensures ok == (fault == Healthy)
      ensures transactions == if ok then Stored(WithoutId(Load(old(transactions), fault), id))
                              else old(transactions)
      ensures transactions == Deleted(old(transactions), fault, id)
    {
      var ts := GetTransactions();
      var updated := WithoutId(ts, id);
      ok := SetTransactions(updated);
    }

    /** Merges `p` into the first record whose id is `id`, writes the list
        back and returns the merged record; `None` (`null`) when no record
        has the id (nothing is written) or the write fails. */
    method UpdateTransaction(id: string, p: Patch) returns (r: Option<Transaction>)
      modifies this`transactions
      ensures var ts := Load(old(transactions), fault);
              var found := FindId(ts, id);
              if found.Some? && fault == Healthy then
                transactions == Stored(ts[found.value := Merge(ts[found.value], p)]) &&
                r == Some(Merge(ts[found.value], p))
              else
                transactions == old(transactions) && r == None
      ensures transactions == Updated(old(transactions), fault, id, p)
    {
      var ts := GetTransactions();
      var found := FindId(ts, id);
      if found.None? {
        return None;
      }
      var i := found.value;
      ts := ts[i := Merge(ts[i], p)];
      var ok := SetTransactions(ts);
      r := if ok then Some(ts[i]) else None;
    }

    method GetCustomCategories() returns (r: seq<string>)
      ensures r == Load(customCategories, fault)
      ensures fault == Healthy && customCategories.Stored? ==> r == customCategories.items
    {
      if fault == Disabled {
        return [];
      }
      match customCategories
      case Stored(items) => r := items;
      case Absent => r := [];
      case Corrupt => r := [];
    }

    /** Appends `name` unless the list already holds it, and returns the
        list; `[]` when the write fails. A name already present causes no
        write. */
    method SaveCustomCategory(name: string) returns (r: seq<string>)
      modifies this`customCategories
      ensures var cs := Load(old(customCategories), fault);
              if name in cs then
                customCategories == old(customCategories) && r == cs
              else if fault == Healthy then
                customCategories == Stored(cs + [name]) && r == cs + [name]
              else
                customCategories == old(customCategories) && r == []
      ensures customCategories == CategorySaved(old(customCategories), fault, name)
    {
      var cs := GetCustomCategories();
      if name !in cs {
        cs := WithCategory(cs, name);
        var ok := SetCustomCategories(cs);
        if !ok {
          return [];
        }
      }
      r := cs;
    }

    /** Removes both keys; `false` when storage throws. */
    method ClearAllData() returns (ok: bool)
      modifies this`transactions, this`customCategories
      ensures ok == (fault != Disabled)
      ensures ok ==> transactions == Absent && customCategories == Absent
      ensures !ok ==> transactions == old(transactions) && customCategories == old(customCategories)
      ensures ok ==> Load(transactions, fault) == [] && Load(customCategories, fault) == []
    {
      if fault == Disabled {
        return false;
      }
      transactions := Absent;
      customCategories := Absent;
      ok := true;
    }
  }
}
