/** The expense journal page (`src/pages/Journal.js`): a form whose submit
    either saves a new record or updates the one being edited, the list of
    categories, and the history of records, newest first. */
module Journal {
  import opened Wrappers
  import opened Text
  import opened Numbers
  import opened Seqs
  import opened Sorting
  import opened Records
  import opened Storage

  /** `formData`: the four inputs, as the text they hold. */
  datatype Form = Form(date: string, category: string, amount: string, description: string)

  /** What `alert` reports when a submit is refused. */
  datatype Alert = MissingFields | InvalidAmount

  /** The form after a submit or a cancel: today's date, the rest empty. */
  function Blank(today: string): Form {
    Form(today, "", "", "")
  }

  /** The checks `handleSubmit` makes before it touches storage: date,
      category and amount must be non-empty, and the amount must parse to a
      number above zero. */
  function Validate(f: Form): (r: Result<Draft, Alert>)
    ensures r == Err(MissingFields) <==> f.date == [] || f.category == [] || f.amount == []
    ensures r == Err(InvalidAmount) <==>
              f.date != [] && f.category != [] && f.amount != [] &&
              (ParseAmount(f.amount).None? || ParseAmount(f.amount).value <= 0)
    ensures r.Ok? ==> r.value.amount > 0 && Some(r.value.amount) == ParseAmount(f.amount)
    ensures r.Ok? ==> r.value.date == f.date && r.value.category == f.category &&
                      r.value.description == f.description
  {
    if f.date == [] || f.category == [] || f.amount == [] then Err(MissingFields)
    else match ParseAmount(f.amount)
      case None => Err(InvalidAmount)
      case Some(a) => if a <= 0 then Err(InvalidAmount) else Ok(Draft(f.date, f.category, a, f.description))
  }

  /** `transaction.description || ''`. */
  function DescriptionText(t: Transaction): string {
    if t.description.Some? then t.description.value else ""
  }

  /** The form `handleEdit` fills in from a record. */
  function EditForm(t: Transaction): (r: Form)
    ensures r.date == t.date && r.category == t.category
    ensures ParseAmount(r.amount) == Some(t.amount)
    ensures r.amount != []
    ensures t.description.Some? ==> r.description == t.description.value
    ensures t.description.None? ==> r.description == ""
  {
    FormatThenParse(t.amount);
    Form(t.date, t.category, FormatCents(t.amount), DescriptionText(t))
  }

  /** Submitting the form of a valid record unchanged yields that record's
      data, and the patch it sends leaves a record with a description as it
      was. */
  lemma EditThenSubmit(t: Transaction)
    requires t.date != [] && t.category != [] && t.amount > 0
    ensures Validate(EditForm(t)) == Ok(Draft(t.date, t.category, t.amount, DescriptionText(t)))
    ensures t.description.Some? ==> Merge(t, PatchOf(Validate(EditForm(t)).value)) == t
  {
    FormatThenParse(t.amount);
  }

  /** The guard of `handleAddCategory`: the trimmed name, when it is
      non-empty and not already listed. */
  function CategoryToAdd(newCategory: string, categories: seq<string>): (r: Option<string>)
    ensures r.Some? <==> Trim(newCategory) != [] && Trim(newCategory) !in categories
    ensures r.Some? ==> r.value == Trim(newCategory)
    ensures r.None? <==> AllWhitespace(newCategory) || Trim(newCategory) in categories
  {
    TrimEmptyIffBlank(newCategory);
    var name := Trim(newCategory);
    if name != [] && name !in categories then Some(name) else None
  }

  /** Once a name is listed, the guard refuses it, with or without spaces
      around it. */
  lemma AddedCategoryRefused(newCategory: string, categories: seq<string>, padded: string)
    requires CategoryToAdd(newCategory, categories).Some?
    requires Trim(padded) == Trim(newCategory)
    ensures CategoryToAdd(padded, categories + [CategoryToAdd(newCategory, categories).value]).None?
  {
  }

  /** `(a, b) => new Date(b.date) - new Date(a.date)` on `YYYY-MM-DD`
      dates, where the string order is the calendar order: `a` may stand
      before `b` when it is not older. */
  predicate LaterDateFirst(a: Transaction, b: Transaction) {
    LexLe(b.date, a.date)
  }

  lemma LaterDateFirstSorts()
    ensures TotalPreorder(LaterDateFirst)
  {
    forall a: Transaction, b: Transaction ensures LaterDateFirst(a, b) || LaterDateFirst(b, a) {
      LexLeTotal(a.date, b.date);
    }
    forall a: Transaction, b: Transaction, c: Transaction | LaterDateFirst(a, b) && LaterDateFirst(b, c)
      ensures LaterDateFirst(a, c)
    {
      LexLeTransitive(c.date, b.date, a.date);
    }
  }

  /** The history order: newest date first, the same records, and records
      of one date in the order they were stored. */
  function NewestFirst(ts: seq<Transaction>): (r: seq<Transaction>)
    ensures forall i, j :: 0 <= i < j < |r| ==> LexLe(r[j].date, r[i].date)
    ensures multiset(r) == multiset(ts)
    ensures forall e :: Keep(r, RanksAlike(LaterDateFirst, e)) == Keep(ts, RanksAlike(LaterDateFirst, e))
  {
    LaterDateFirstSorts();
    forall e ensures Keep(SortBy(ts, LaterDateFirst), RanksAlike(LaterDateFirst, e)) ==
                     Keep(ts, RanksAlike(LaterDateFirst, e)) {
      SortByStable(ts, LaterDateFirst, e);
    }
    SortBy(ts, LaterDateFirst)
  }

  /** The journal component's state. `defaults` is the list read from the
      bundled default-categories file. */
  class JournalPage {
    const store: LocalStore
    const defaults: seq<string>
    var transactions: seq<Transaction>
    var categories: seq<string>
    var form: Form
    var newCategory: string
    var showAddCategory: bool
    var editing: Option<Transaction>

    /** The state before the first `loadData`. */
    constructor (store: LocalStore, defaults: seq<string>, today: string)
      ensures this.store == store && this.defaults == defaults
      ensures transactions == [] && categories == []
      ensures form == Blank(today) && newCategory == "" && !showAddCategory && editing == None
    {
      this.store := store;
      this.defaults := defaults;
      transactions := [];
      categories := [];
      form := Blank(today);
      newCategory := "";
      showAddCategory := false;
      editing := None;
    }

    /** The stored records, and the defaults followed by the custom
        categories, with no duplicates removed. */
    method LoadData()
      modifies this`transactions, this`categories
      ensures transactions == Load(store.transactions, store.fault)
      ensures categories == defaults + Load(store.customCategories, store.fault)
    {
      transactions := store.GetTransactions();
      var custom := store.GetCustomCategories();
      categories := defaults + custom;
    }

    /** `handleInputChange`: the named field takes the value. */
    method HandleInputChange(name: string, value: string)
      modifies this`form
      ensures name == "date" ==> form == old(form).(date := value)
      ensures name == "category" ==> form == old(form).(category := value)
      ensures name == "amount" ==> form == old(form).(amount := value)
      ensures name == "description" ==> form == old(form).(description := value)
      ensures name !in {"date", "category", "amount", "description"} ==> form == old(form)
    {
      if name == "date" {
        form := form.(date := value);
      } else if name == "category" {
        form := form.(category := value);
      } else if name == "amount" {
        form := form.(amount := value);
      } else if name == "description" {
        form := form.(description := value);
      }
    }

    /** `handleSubmit`. A refused form raises an alert and changes nothing.
        An accepted one makes one write: an update of the record being
        edited, or a save of a new record stamped with `now` and
        `timestamp`; then the form is reset, edit mode ends and the lists
        are reloaded. */
    method HandleSubmit(today: string, now: nat, timestamp: string) returns (alert: Option<Alert>)
      modifies this`transactions, this`categories, this`form, this`editing, store`transactions
      ensures Validate(old(form)).Err? ==>
                alert == Some(Validate(old(form)).error) &&
                unchanged(this) && unchanged(store)
      ensures Validate(old(form)).Ok? ==>
                var d := Validate(old(form)).value;
                alert == None &&
                (old(editing).Some? ==>
                   store.transactions == Updated(old(store.transactions), store.fault, old(editing).value.id, PatchOf(d))) &&
                (old(editing).None? ==>
                   store.transactions == Saved(old(store.transactions), store.fault, d, now, timestamp)) &&
                form == Blank(today) && editing == None &&
                transactions == Load(store.transactions, store.fault) &&
                categories == defaults + Load(store.customCategories, store.fault)
    {
      match Validate(form)
      case Err(a) =>
        return Some(a);
      case Ok(d) =>
        if editing.Some? {
          var _ := store.UpdateTransaction(editing.value.id, PatchOf(d));
          editing := None;
        } else {
          var _ := store.SaveTransaction(d, now, timestamp);
        }
        form := Blank(today);
        LoadData();
        alert := None;
    }

    /** `handleAddCategory`: saves the trimmed name when the guard admits
        it, then clears and closes the input and reloads; otherwise nothing
        changes. */
    method HandleAddCategory()
      modifies this`transactions, this`categories, this`newCategory, this`showAddCategory, store`customCategories
      ensures CategoryToAdd(old(newCategory), old(categories)).None? ==>
                unchanged(this) && unchanged(store)
      ensures CategoryToAdd(old(newCategory), old(categories)).Some? ==>
                var name := CategoryToAdd(old(newCategory), old(categories)).value;
                store.customCategories == CategorySaved(old(store.customCategories), store.fault, name) &&
                newCategory == "" && !showAddCategory &&
                transactions == Load(store.transactions, store.fault) &&
                categories == defaults + Load(store.customCategories, store.fault)
    {
      var name := CategoryToAdd(newCategory, categories);
      if name.Some? {
        var _ := store.SaveCustomCategory(name.value);
        newCategory := "";
        showAddCategory := false;
        LoadData();
      }
    }

    /** `handleEdit`: edit mode on `t`, its fields in the form. */
    method HandleEdit(t: Transaction)
      modifies this`editing, this`form
      ensures editing == Some(t) && form == EditForm(t)
    {
      editing := Some(t);
      form := EditForm(t);
    }

    /** `handleDelete`: when the user confirms, deletes by id and reloads;
        otherwise nothing changes. */
    method HandleDelete(id: string, confirmed: bool)
      modifies this`transactions, this`categories, store`transactions
      ensures !confirmed ==> unchanged(this) && unchanged(store)
      ensures confirmed ==>
                store.transactions == Deleted(old(store.transactions), store.fault, id) &&
                transactions == Load(store.transactions, store.fault) &&
                categories == defaults + Load(store.customCategories, store.fault)
    {
      if confirmed {
        var _ := store.DeleteTransaction(id);
        LoadData();
      }
    }

    /** `cancelEdit`: edit mode off, the form reset. */
    method CancelEdit(today: string)
      modifies this`editing, this`form
      ensures editing == None && form == Blank(today)
    {
      editing := None;
      form := Blank(today);
    }

    /** The history render sorts the `transactions` state in place. */
    method SortHistory()
      modifies this`transactions
      ensures transactions == NewestFirst(old(transactions))
    {
      transactions := NewestFirst(transactions);
    }
  }
}
