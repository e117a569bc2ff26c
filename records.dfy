/** The records the tracker stores and the objects it builds them from. */
module Records {
  import opened Wrappers
  import opened Numbers

  /** A stored expense. `description` may be missing from a record read back
      from storage; `id` and `timestamp` are set when it is saved. Amounts
      are in cents. */
  datatype Transaction = Transaction(
    id: string,
    date: string,
    category: string,
    amount: int,
    description: Option<string>,
    timestamp: string)

  /** What the journal form submits: `{...formData, amount}`. */
  datatype Draft = Draft(date: string, category: string, amount: int, description: string)

  /** The object given to `updateTransaction`: each field it carries
      overrides the stored one, each field it lacks leaves it alone. */
  datatype Patch = Patch(
    id: Option<string>,
    date: Option<string>,
    category: Option<string>,
    amount: Option<int>,
    description: Option<string>,
    timestamp: Option<string>)

  /** `Date.now().toString()`: the id given to a record saved when the clock
      reads `now` milliseconds. */
  function IdFor(now: nat): string {
    NatStr(now)
  }

  /** `{...draft, id: Date.now().toString(), timestamp}`. */
  function Stamped(d: Draft, now: nat, timestamp: string): (r: Transaction)
    ensures r.id != [] && AllDigits(r.id) && DigitsValue(r.id) == now
    ensures r.date == d.date && r.category == d.category && r.amount == d.amount
    ensures r.description == Some(d.description) && r.timestamp == timestamp
  {
    NatStrValue(now);
    Transaction(IdFor(now), d.date, d.category, d.amount, Some(d.description), timestamp)
  }

  /** `{...t, ...p}`. */
  function Merge(t: Transaction, p: Patch): (r: Transaction)
    ensures p == Patch(None, None, None, None, None, None) ==> r == t
    // a field the patch carries overrides the stored one
    ensures p.id.Some? ==> r.id == p.id.value
    ensures p.date.Some? ==> r.date == p.date.value
    ensures p.category.Some? ==> r.category == p.category.value
    ensures p.amount.Some? ==> r.amount == p.amount.value
    ensures p.description.Some? ==> r.description == p.description
    ensures p.timestamp.Some? ==> r.timestamp == p.timestamp.value
    // a field the patch lacks keeps its stored value
    ensures p.id.None? ==> r.id == t.id
    ensures p.date.None? ==> r.date == t.date
    ensures p.category.None? ==> r.category == t.category
    ensures p.amount.None? ==> r.amount == t.amount
    ensures p.description.None? ==> r.description == t.description
    ensures p.timestamp.None? ==> r.timestamp == t.timestamp
  {
    Transaction(
      if p.id.Some? then p.id.value else t.id,
      if p.date.Some? then p.date.value else t.date,
      if p.category.Some? then p.category.value else t.category,
      if p.amount.Some? then p.amount.value else t.amount,
      if p.description.Some? then p.description else t.description,
      if p.timestamp.Some? then p.timestamp.value else t.timestamp)
  }

  /** The patch the journal sends when it saves an edit: the four form
      fields, never an id or a timestamp. */
  function PatchOf(d: Draft): Patch {
    Patch(None, Some(d.date), Some(d.category), Some(d.amount), Some(d.description), None)
  }

  /** Applying the same patch twice is applying it once. */
  lemma MergeIdempotent(t: Transaction, p: Patch)
    ensures Merge(Merge(t, p), p) == Merge(t, p)
  {
  }

  /** An edit's patch keeps the record's id and timestamp and takes the
      draft's four fields. */
  lemma MergePatchOf(t: Transaction, d: Draft)
    ensures Merge(t, PatchOf(d)) == Transaction(t.id, d.date, d.category, d.amount, Some(d.description), t.timestamp)
  {
  }

  /** Clock readings that strictly increase give records distinct ids. */
  lemma StampedIdsDistinct(d1: Draft, d2: Draft, now1: nat, now2: nat, ts1: string, ts2: string)
    requires now1 < now2
    ensures Stamped(d1, now1, ts1).id != Stamped(d2, now2, ts2).id
  {
    NatStrInjective(now1, now2);
  }

  /** Two saves in the same millisecond give two records the same id. */
  lemma SameMillisecondSameId(d1: Draft, d2: Draft, now: nat, ts1: string, ts2: string)
    ensures Stamped(d1, now, ts1).id == Stamped(d2, now, ts2).id
  {
  }
}
