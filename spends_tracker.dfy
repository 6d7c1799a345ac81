/**
 The expense ledger behind the monthly spends tracker component: an ordered list
 of expense entries (`dataSource`) and a map of running totals per category
 (`expenseCategoriesTotal`), changed by adding an expense (the form's submit
 handler) and by deleting one (the table's delete handler), and projected onto a
 fixed five-slice pie chart.

 The pure functions below are the computations inside the two handlers (the
 spread copy, `filter`, `find`, the per-category update) and the chart
 projection; the class `Ledger` holds the component state and applies each
 handler as one atomic transition.
 */
module SpendsTracker {

  datatype Option<T> = None | Some(value: T)

  /** One row of the table. The key is computed as a number, so it is a `nat`. */
  datatype Entry = Entry(key: nat, expenseName: string, category: string, expenseAmount: real)

  /** Running totals, keyed by category string. A missing key reads as 0. */
  type Totals = map<string, real>

  /** The whole component state: the table rows and the totals. */
  datatype State = State(entries: seq<Entry>, totals: Totals)

  /** One chart slice. */
  datatype ChartItem = ChartItem(value: real, name: string)

  /** The map keys the chart reads, in chart order. */
  const ChartKeys: seq<string> := ["Food", "Transport", "Groceries", "RentAndAssets", "Miscallaneous"]

  /** The slice labels, in the same order. */
  const ChartNames: seq<string> := ["Food", "Transport", "Groceries", "Rent and Assets", "Miscallaneous"]

  /** The values the category select offers (and so the strings that end up as categories).
      One of them, "Rent and Assets", is not among the chart's keys. */
  const CategoryOptions: seq<string> := ["Transport", "Food", "Groceries", "Rent and Assets", "Miscallaneous"]

  // ---------------------------------------------------------------------------
  // Totals
  // ---------------------------------------------------------------------------

  /** `totals[c] ?? 0` */
  function Get(totals: Totals, c: string): real
  {
    if c in totals then totals[c] else 0.0
  }

  /** The five zeroed keys the component starts with. */
  function InitialTotals(): (r: Totals)
    ensures r.Keys == {"Food", "Transport", "Groceries", "RentAndAssets", "Miscallaneous"}
    ensures forall c :: Get(r, c) == 0.0
  {
    map["Food" := 0.0, "Transport" := 0.0, "Groceries" := 0.0, "RentAndAssets" := 0.0, "Miscallaneous" := 0.0]
  }

  /** The totals update of the submit handler: `c`'s total (missing read as 0) grows by `amount`. */
  function Credit(totals: Totals, c: string, amount: real): (r: Totals)
    ensures c in r && Get(r, c) == Get(totals, c) + amount
    ensures r.Keys == totals.Keys + {c}
    ensures r - {c} == totals - {c}
  {
    var r := totals[c := Get(totals, c) + amount];
    assert r - {c} == totals - {c};
    r
  }

  /** The totals update of the delete handler: the found entry's category total (missing read as 0) shrinks by its amount. */
  function Debit(totals: Totals, e: Entry): (r: Totals)
    ensures e.category in r && Get(r, e.category) == Get(totals, e.category) - e.expenseAmount
    ensures r.Keys == totals.Keys + {e.category}
    ensures r - {e.category} == totals - {e.category}
  {
    var r := totals[e.category := Get(totals, e.category) - e.expenseAmount];
    assert r - {e.category} == totals - {e.category};
    r
  }

  // ---------------------------------------------------------------------------
  // Entries
  // ---------------------------------------------------------------------------

  function KeySet(s: seq<Entry>): set<nat>
  {
    set e | e in s :: e.key
  }

  ghost predicate StrictlyIncreasing(s: seq<Entry>)
  {
    forall i, j :: 0 <= i < j < |s| ==> s[i].key < s[j].key
  }

  ghost predicate UniqueKeys(s: seq<Entry>)
  {
    forall i, j :: 0 <= i < |s| && 0 <= j < |s| && i != j ==> s[i].key != s[j].key
  }

  /** The key of a new entry: the last entry's key plus one, or 1 for an empty list. */
  function NextKey(s: seq<Entry>): (r: nat)
    ensures r >= 1
    ensures StrictlyIncreasing(s) ==> forall e :: e in s ==> e.key < r
  {
    (if s == [] then 0 else s[|s| - 1].key) + 1
  }

  /** `s.filter(item => item.key !== key)` */
  function Filtered(s: seq<Entry>, key: nat): (r: seq<Entry>)
    ensures forall e :: e in r <==> e in s && e.key != key
    ensures |r| <= |s|
  {
    if s == [] then []
    else if s[0].key == key then Filtered(s[1..], key)
    else [s[0]] + Filtered(s[1..], key)
  }

  /** `s.find(item => item.key === key)` */
  function Find(s: seq<Entry>, key: nat): (r: Option<Entry>)
    ensures r.None? <==> key !in KeySet(s)
    ensures r.Some? ==> r.value in s && r.value.key == key
  {
    if s == [] then None
    else if s[0].key == key then Some(s[0])
    else Find(s[1..], key)
  }

  /** Reference definition of a category total: the sum of the amounts of the entries in category `c`. */
  function CategorySum(s: seq<Entry>, c: string): real
  {
    if s == [] then 0.0
    else (if s[0].category == c then s[0].expenseAmount else 0.0) + CategorySum(s[1..], c)
  }

  // ---------------------------------------------------------------------------
  // The two transitions and the chart, as functions of the state
  // ---------------------------------------------------------------------------

  /** The submit handler: append an entry with the next key and credit its category. */
  function Added(st: State, expenseName: string, category: string, expenseAmount: real): (r: State)
    ensures |r.entries| == |st.entries| + 1
    ensures r.entries[..|st.entries|] == st.entries
    ensures r.entries[|st.entries|] == Entry(NextKey(st.entries), expenseName, category, expenseAmount)
    ensures category in r.totals && Get(r.totals, category) == Get(st.totals, category) + expenseAmount
    ensures r.totals - {category} == st.totals - {category}
  {
    State(st.entries + [Entry(NextKey(st.entries), expenseName, category, expenseAmount)],
          Credit(st.totals, category, expenseAmount))
  }

  /** The amount a found entry contributes to category `c`: its amount if it is filed under `c`, otherwise 0. */
  function Share(found: Option<Entry>, c: string): real
  {
    match found
    case None => 0.0
    case Some(e) => if e.category == c then e.expenseAmount else 0.0
  }

  /** The delete handler: drop every entry with the key; debit the first one found, unless its category is empty. */
  function Deleted(st: State, key: nat): (r: State)
    ensures r.entries == Filtered(st.entries, key)
    ensures Find(st.entries, key).None? ==> r.totals == st.totals
    ensures st.totals.Keys <= r.totals.Keys
    ensures forall c :: c != "" ==> Get(r.totals, c) == Get(st.totals, c) - Share(Find(st.entries, key), c)
  {
    var newData := Filtered(st.entries, key);
    match Find(st.entries, key)
    case None => State(newData, st.totals)
    case Some(e) => if e.category == "" then State(newData, st.totals) else State(newData, Debit(st.totals, e))
  }

  predicate ChartKeysPresent(totals: Totals)
  {
    "Food" in totals && "Transport" in totals && "Groceries" in totals
    && "RentAndAssets" in totals && "Miscallaneous" in totals
  }

  /** The pie chart series: five slices, each read from its fixed key. */
  function ChartDetails(totals: Totals): (r: seq<ChartItem>)
    requires ChartKeysPresent(totals)
    ensures |r| == |ChartKeys| == |ChartNames| == 5
    ensures forall i :: 0 <= i < |r| ==> r[i].name == ChartNames[i] && r[i].value == totals[ChartKeys[i]]
  {
    [ ChartItem(totals["Food"], "Food"),
      ChartItem(totals["Transport"], "Transport"),
      ChartItem(totals["Groceries"], "Groceries"),
      ChartItem(totals["RentAndAssets"], "Rent and Assets"),
      ChartItem(totals["Miscallaneous"], "Miscallaneous") ]
  }

  function Initial(): State
  {
    State([], InitialTotals())
  }

  /** Each total equals the sum of its category's amounts, for every category string. */
  ghost predicate Consistent(s: seq<Entry>, totals: Totals)
  {
    forall c :: Get(totals, c) == CategorySum(s, c)
  }

  ghost predicate CategoriesNamed(s: seq<Entry>)
  {
    forall e :: e in s ==> e.category != ""
  }

  /** What holds of every state reachable from the initial one. */
  ghost predicate LedgerInvariant(st: State)
  {
    && StrictlyIncreasing(st.entries)
    && CategoriesNamed(st.entries)
    && Consistent(st.entries, st.totals)
    && ChartKeysPresent(st.totals)
  }

  // ---------------------------------------------------------------------------
  // Lemmas about the entry list
  // ---------------------------------------------------------------------------

  lemma IncreasingKeysAreUnique(s: seq<Entry>)
    requires StrictlyIncreasing(s)
    ensures UniqueKeys(s)
  {
  }

  lemma {:induction false} FilteredAbsent(s: seq<Entry>, key: nat)
    requires key !in KeySet(s)
    ensures Filtered(s, key) == s
  {
    if s != [] {
      assert s[0] in s;
      assert KeySet(s[1..]) <= KeySet(s) by {
        forall e | e in s[1..] ensures e in s { }
      }
      FilteredAbsent(s[1..], key);
      assert s == [s[0]] + s[1..];
    }
  }

  /** Filtering distributes over concatenation: kept entries stay in their original order. */
  lemma {:induction false} FilteredAppend(a: seq<Entry>, b: seq<Entry>, key: nat)
    ensures Filtered(a + b, key) == Filtered(a, key) + Filtered(b, key)
  {
    if a == [] {
      assert a + b == b;
    } else {
      assert (a + b)[0] == a[0];
      assert (a + b)[1..] == a[1..] + b;
      FilteredAppend(a[1..], b, key);
    }
  }

  lemma IncreasingTail(s: seq<Entry>)
    requires StrictlyIncreasing(s) && s != []
    ensures StrictlyIncreasing(s[1..])
    ensures forall e :: e in s[1..] ==> s[0].key < e.key
  {
  }

  lemma IncreasingCons(x: Entry, t: seq<Entry>)
    requires StrictlyIncreasing(t)
    requires forall e :: e in t ==> x.key < e.key
    ensures StrictlyIncreasing([x] + t)
  {
  }

  lemma {:induction false} FilteredIncreasing(s: seq<Entry>, key: nat)
    requires StrictlyIncreasing(s)
    ensures StrictlyIncreasing(Filtered(s, key))
  {
    if s != [] {
      IncreasingTail(s);
      FilteredIncreasing(s[1..], key);
      if s[0].key != key {
        IncreasingCons(s[0], Filtered(s[1..], key));
      }
    }
  }

  /** With unique keys, no entry before or after the one holding a key holds it too. */
  lemma UniqueKeyAbsentAround(s: seq<Entry>, i: nat)
    requires UniqueKeys(s) && i < |s|
    ensures s[i].key !in KeySet(s[..i])
    ensures s[i].key !in KeySet(s[i + 1..])
  {
  }

  /** With unique keys, deleting a present key removes exactly the one entry that has it. */
  lemma FilteredRemovesOne(s: seq<Entry>, key: nat, i: nat)
    requires UniqueKeys(s)
    requires i < |s| && s[i].key == key
    ensures Filtered(s, key) == s[..i] + s[i + 1..]
  {
    assert s == s[..i] + ([s[i]] + s[i + 1..]);
    FilteredAppend(s[..i], [s[i]] + s[i + 1..], key);
    FilteredAppend([s[i]], s[i + 1..], key);
    assert Filtered([s[i]], key) == [] by {
      assert [s[i]][1..] == [];
    }
    UniqueKeyAbsentAround(s, i);
    FilteredAbsent(s[..i], key);
    FilteredAbsent(s[i + 1..], key);
  }

  /** `find` returns the first entry with the key. */
  lemma {:induction false} FindFirst(s: seq<Entry>, key: nat, i: nat)
    requires i < |s| && s[i].key == key
    requires forall j :: 0 <= j < i ==> s[j].key != key
    ensures Find(s, key) == Some(s[i])
  {
    if i > 0 {
      FindFirst(s[1..], key, i - 1);
    }
  }

  lemma {:induction false} CategorySumAppend(a: seq<Entry>, b: seq<Entry>, c: string)
    ensures CategorySum(a + b, c) == CategorySum(a, c) + CategorySum(b, c)
  {
    if a == [] {
      assert a + b == b;
    } else {
      assert (a + b)[0] == a[0];
      assert (a + b)[1..] == a[1..] + b;
      CategorySumAppend(a[1..], b, c);
    }
  }

  /** With unique keys, deleting a key takes exactly the found entry's amount out of its category's sum. */
  lemma {:induction false} CategorySumFiltered(s: seq<Entry>, key: nat, c: string)
    requires UniqueKeys(s)
    ensures CategorySum(Filtered(s, key), c) == CategorySum(s, c) - Share(Find(s, key), c)
  {
    if s != [] {
      assert UniqueKeys(s[1..]) by {
        forall i, j | 0 <= i < |s[1..]| && 0 <= j < |s[1..]| && i != j
          ensures s[1..][i].key != s[1..][j].key
        {
          assert s[1..][i] == s[i + 1] && s[1..][j] == s[j + 1];
        }
      }
      if s[0].key == key {
        assert key !in KeySet(s[1..]) by {
          forall e | e in s[1..] ensures e.key != key {
            var j :| 0 <= j < |s[1..]| && s[1..][j] == e;
            assert s[j + 1] == e;
          }
        }
        FilteredAbsent(s[1..], key);
      } else {
        CategorySumFiltered(s[1..], key, c);
        var t := Filtered(s[1..], key);
        assert ([s[0]] + t)[0] == s[0];
        assert ([s[0]] + t)[1..] == t;
      }
    }
  }

  // ---------------------------------------------------------------------------
  // Lemmas about the transitions
  // ---------------------------------------------------------------------------

  /** Adding keeps keys increasing and every total equal to its category's sum. */
  lemma AddPreservesInvariant(st: State, expenseName: string, category: string, expenseAmount: real)
    requires LedgerInvariant(st)
    requires category != ""
    ensures LedgerInvariant(Added(st, expenseName, category, expenseAmount))
  {
    var e := Entry(NextKey(st.entries), expenseName, category, expenseAmount);
    var s := st.entries + [e];
    forall i, j | 0 <= i < j < |s| ensures s[i].key < s[j].key {
      if j == |s| - 1 { assert s[i] in st.entries; }
    }
    forall c ensures Get(Credit(st.totals, category, expenseAmount), c) == CategorySum(s, c) {
      CategorySumAppend(st.entries, [e], c);
      assert [e][1..] == [];
    }
  }

  /** Deleting keeps keys increasing and every total equal to its category's sum. */
  lemma DeletePreservesInvariant(st: State, key: nat)
    requires LedgerInvariant(st)
    ensures LedgerInvariant(Deleted(st, key))
  {
    var s := st.entries;
    FilteredIncreasing(s, key);
    IncreasingKeysAreUnique(s);
    var after := Deleted(st, key);
    forall c ensures Get(after.totals, c) == CategorySum(after.entries, c) {
      CategorySumFiltered(s, key, c);
    }
  }

  /** Deleting a key no entry has changes nothing. */
  lemma DeleteAbsentIsNoop(st: State, key: nat)
    requires key !in KeySet(st.entries)
    ensures Deleted(st, key) == st
  {
    FilteredAbsent(st.entries, key);
  }

  /** Deleting the same key twice is the same as deleting it once. */
  lemma DeleteIdempotent(st: State, key: nat)
    ensures Deleted(Deleted(st, key), key) == Deleted(st, key)
  {
    DeleteAbsentIsNoop(Deleted(st, key), key);
  }

  /** Deleting a present key debits the first matching entry's category by its amount; no other total changes. */
  lemma DeletePresentDebitsFirstMatch(st: State, key: nat, i: nat)
    requires i < |st.entries| && st.entries[i].key == key && st.entries[i].category != ""
    requires forall j :: 0 <= j < i ==> st.entries[j].key != key
    ensures var c := st.entries[i].category;
      && Get(Deleted(st, key).totals, c) == Get(st.totals, c) - st.entries[i].expenseAmount
      && Deleted(st, key).totals - {c} == st.totals - {c}
  {
    FindFirst(st.entries, key, i);
  }

  /** An entry appended under a fresh key is the one `find` returns and the only one `filter` drops. */
  lemma AppendedFreshKey(s: seq<Entry>, e: Entry)
    requires e.key !in KeySet(s)
    ensures Filtered(s + [e], e.key) == s
    ensures Find(s + [e], e.key) == Some(e)
  {
    FilteredAppend(s, [e], e.key);
    FilteredAbsent(s, e.key);
    assert Filtered([e], e.key) == [] by { assert [e][1..] == []; }
    assert s + [] == s;
    forall j | 0 <= j < |s| ensures (s + [e])[j].key != e.key {
      assert (s + [e])[j] == s[j] && s[j] in s;
    }
    FindFirst(s + [e], e.key, |s|);
  }

  /** Debiting an entry right after crediting its amount leaves its category at the old total (missing read as 0). */
  lemma DebitUndoesCredit(totals: Totals, e: Entry)
    ensures Debit(Credit(totals, e.category, e.expenseAmount), e) == totals[e.category := Get(totals, e.category)]
  {
  }

  /** Adding an entry and then deleting its key gives back the list and every total (missing read as 0);
      the map itself comes back only if the category was already a key, and otherwise keeps that key at 0. */
  lemma AddThenDeleteRestores(st: State, expenseName: string, category: string, expenseAmount: real)
    requires StrictlyIncreasing(st.entries)
    requires category != ""
    ensures var back := Deleted(Added(st, expenseName, category, expenseAmount), NextKey(st.entries));
      && back.entries == st.entries
      && (forall c :: Get(back.totals, c) == Get(st.totals, c))
      && (category in st.totals ==> back.totals == st.totals)
      && (category !in st.totals ==> back.totals == st.totals[category := 0.0])
  {
    var e := Entry(NextKey(st.entries), expenseName, category, expenseAmount);
    AppendedFreshKey(st.entries, e);
    DebitUndoesCredit(st.totals, e);
    var back := Deleted(Added(st, expenseName, category, expenseAmount), e.key);
    assert back == State(st.entries, st.totals[category := Get(st.totals, category)]);
  }

  /** After deleting the last entry, the next add hands out one more than the key of the entry before it
      (or 1): never larger than the deleted key, and equal to it when the two keys were consecutive. */
  lemma DeleteLastReusesKey(s: seq<Entry>)
    requires StrictlyIncreasing(s) && s != []
    ensures Filtered(s, s[|s| - 1].key) == s[..|s| - 1]
    ensures |s| == 1 ==> NextKey(Filtered(s, s[0].key)) == 1
    ensures |s| > 1 ==> NextKey(Filtered(s, s[|s| - 1].key)) == s[|s| - 2].key + 1 <= s[|s| - 1].key
    ensures (|s| == 1 && s[0].key == 1) || (|s| > 1 && s[|s| - 1].key == s[|s| - 2].key + 1) ==>
      NextKey(Filtered(s, s[|s| - 1].key)) == s[|s| - 1].key
  {
    IncreasingKeysAreUnique(s);
    FilteredRemovesOne(s, s[|s| - 1].key, |s| - 1);
    assert s[|s|..] == [];
    assert s[..|s| - 1] + [] == s[..|s| - 1];
    if |s| > 1 {
      assert s[..|s| - 1][|s| - 2] == s[|s| - 2];
    }
  }

  // ---------------------------------------------------------------------------
  // Any sequence of user actions
  // ---------------------------------------------------------------------------

  /** A form submission or a confirmed delete. */
  datatype Action =
    | AddExpense(expenseName: string, category: string, expenseAmount: real)
    | DeleteExpense(key: nat)

  function Apply(st: State, a: Action): State
  {
    match a
    case AddExpense(n, c, amount) => Added(st, n, c, amount)
    case DeleteExpense(k) => Deleted(st, k)
  }

  function Replay(st: State, actions: seq<Action>): State
    decreases |actions|
  {
    if actions == [] then st else Replay(Apply(st, actions[0]), actions[1..])
  }

  ghost predicate AddsNamed(actions: seq<Action>)
  {
    forall a :: a in actions && a.AddExpense? ==> a.category != ""
  }

  lemma InitialSatisfiesInvariant()
    ensures LedgerInvariant(Initial())
  {
  }

  lemma {:induction false} ReplayPreservesInvariant(st: State, actions: seq<Action>)
    requires LedgerInvariant(st)
    requires AddsNamed(actions)
    ensures LedgerInvariant(Replay(st, actions))
    decreases |actions|
  {
    if actions != [] {
      match actions[0] {
        case AddExpense(n, c, amount) =>
          assert actions[0] in actions;
          AddPreservesInvariant(st, n, c, amount);
        case DeleteExpense(k) =>
          DeletePreservesInvariant(st, k);
      }
      assert AddsNamed(actions[1..]) by {
        forall a | a in actions[1..] ensures a in actions { }
      }
      ReplayPreservesInvariant(Apply(st, actions[0]), actions[1..]);
    }
  }

  /** From the start, after any sequence of adds and deletes, each total is its category's sum. */
  lemma ReplayFromInitialIsConsistent(actions: seq<Action>)
    requires AddsNamed(actions)
    ensures var st := Replay(Initial(), actions);
      forall c :: Get(st.totals, c) == CategorySum(st.entries, c)
  {
    InitialSatisfiesInvariant();
    ReplayPreservesInvariant(Initial(), actions);
  }

  // ---------------------------------------------------------------------------
  // The chart
  // ---------------------------------------------------------------------------

  /** Each chart slice shows the sum of the amounts filed under its fixed key. */
  lemma ChartReflectsEntries(st: State)
    requires LedgerInvariant(st)
    ensures forall i :: 0 <= i < 5 ==>
      ChartDetails(st.totals)[i].value == CategorySum(st.entries, ChartKeys[i])
  {
  }

  /** The select's "Rent and Assets" value is not a chart key: such an expense is totalled under
      its own map key and leaves every slice of the chart as it was. */
  lemma RentAndAssetsOptionNotCharted(st: State, expenseName: string, expenseAmount: real)
    requires ChartKeysPresent(st.totals)
    ensures var after := Added(st, expenseName, "Rent and Assets", expenseAmount);
      && Get(after.totals, "Rent and Assets") == Get(st.totals, "Rent and Assets") + expenseAmount
      && ChartDetails(after.totals) == ChartDetails(st.totals)
  {
  }

  // ---------------------------------------------------------------------------
  // The component state
  // ---------------------------------------------------------------------------

  class Ledger {
    var dataSource: seq<Entry>
    var expenseCategoriesTotal: Totals

    function Current(): State
      reads this
    {
      State(dataSource, expenseCategoriesTotal)
    }

    ghost predicate Valid()
      reads this
    {
      LedgerInvariant(Current())
    }

    /** An empty table and the five zeroed totals. */
    constructor ()
      ensures Current() == Initial()
      ensures Valid()
    {
      dataSource := [];
      expenseCategoriesTotal := InitialTotals();
    }

    /** The submit handler; returns the new entry's key. */
    method Add(expenseName: string, category: string, expenseAmount: real) returns (key: nat)
      modifies this
      ensures key == NextKey(old(dataSource))
      ensures dataSource == old(dataSource) + [Entry(key, expenseName, category, expenseAmount)]
      ensures expenseCategoriesTotal == Credit(old(expenseCategoriesTotal), category, expenseAmount)
      ensures Current() == Added(old(Current()), expenseName, category, expenseAmount)
      ensures old(Valid()) && category != "" ==> Valid()
    {
      ghost var before := Current();
      ghost var wasValid := Valid();
      key := NextKey(dataSource);
      var newEntry := Entry(key, expenseName, category, expenseAmount);
      dataSource := dataSource + [newEntry];
      expenseCategoriesTotal := Credit(expenseCategoriesTotal, category, expenseAmount);
      if wasValid && category != "" {
        AddPreservesInvariant(before, expenseName, category, expenseAmount);
      }
    }

    /** The delete handler. */
    method Delete(key: nat)
      modifies this
      ensures dataSource == Filtered(old(dataSource), key)
      ensures Current() == Deleted(old(Current()), key)
      ensures old(Valid()) ==> Valid()
    {
      ghost var before := Current();
      ghost var wasValid := Valid();
      var newData := Filtered(dataSource, key);
      var found := Find(dataSource, key);
      dataSource := newData;
      if wasValid {
        DeletePreservesInvariant(before, key);
      }
      if found.None? || found.value.category == "" {
        return;
      }
      expenseCategoriesTotal := Debit(expenseCategoriesTotal, found.value);
    }

    /** The chart series of the current totals, each slice the sum of its key's entries. */
    function GetChartDetails(): (r: seq<ChartItem>)
      reads this
      requires Valid()
      ensures |r| == 5
      ensures forall i :: 0 <= i < 5 ==>
        r[i].name == ChartNames[i] && r[i].value == CategorySum(dataSource, ChartKeys[i])
    {
      ChartReflectsEntries(Current());
      ChartDetails(expenseCategoriesTotal)
    }
  }

  /** The example sessions of the tracker, checked against the contracts above. */
  method Sessions()
  {
    var ledger := new Ledger();
    var k := ledger.Add("Coffee", "Food", 50.0);
    assert k == 1 && |ledger.dataSource| == 1;
    assert Get(ledger.expenseCategoriesTotal, "Food") == 50.0;

    ledger := new Ledger();
    k := ledger.Add("Bus", "Transport", 20.0);
    k := ledger.Add("Taxi", "Transport", 30.0);
    assert Get(ledger.expenseCategoriesTotal, "Transport") == 50.0;

    ledger := new Ledger();
    k := ledger.Add("Rent", "RentAndAssets", 1000.0);
    assert k == 1;
    ledger.Delete(1);
    assert Get(ledger.expenseCategoriesTotal, "RentAndAssets") == 0.0 && ledger.dataSource == [];

    // The key of a deleted last entry is handed out again.
    k := ledger.Add("Rent again", "RentAndAssets", 900.0);
    assert k == 1;

    ledger := new Ledger();
    ledger.Delete(999);
    assert ledger.Current() == Initial();
  }
}
