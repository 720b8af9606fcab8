/** The selection logic of the operations and clients filter drawers
    (packages/web/app/src/components/target/operations/Filters.tsx),
    without the React rendering: the state the drawers keep in `useState`
    is passed between plain functions. */
module OperationsFilters {
  import opened Seqs

  /** A row of the operations drawer; `operationHash` may be null. */
  datatype OperationStats = OperationStats(id: string, operationHash: Option<string>, name: string, count: int)

  /** A row of the clients drawer. */
  datatype ClientStats = ClientStats(name: string, count: int)

  /** The hash a row contributes, when it is truthy (present and non-empty). */
  function HashList(op: OperationStats): seq<string> {
    match op.operationHash
    case Some(h) => if h != "" then [h] else []
    case None => []
  }

  /** The hashes of `nodes` in node order, skipping absent or empty ones. */
  function HashesOf(nodes: seq<OperationStats>): (r: seq<string>)
    ensures |r| <= |nodes|
    ensures "" !in r
    ensures forall h :: h in r <==> exists i :: 0 <= i < |nodes| && nodes[i].operationHash == Some(h) && h != ""
  {
    if nodes == [] then []
    else
      var last := |nodes| - 1;
      var r := HashesOf(nodes[..last]) + HashList(nodes[last]);
      assert forall i :: 0 <= i < last ==> nodes[..last][i] == nodes[i];
      r
  }

  /** The hashes of a concatenation are the hashes of each part, in order. */
  lemma {:induction false} HashesOfAppend(a: seq<OperationStats>, b: seq<OperationStats>)
    ensures HashesOf(a + b) == HashesOf(a) + HashesOf(b)
  {
    if b != [] {
      var last := |b| - 1;
      assert (a + b)[..|a + b| - 1] == a + b[..last];
      HashesOfAppend(a, b[..last]);
    } else {
      assert a + b == a;
    }
  }

  /** getOperationHashes: walks the nodes and pushes every truthy hash. */
  method GetOperationHashes(nodes: seq<OperationStats>) returns (items: seq<string>)
    ensures items == HashesOf(nodes)
  {
    items := [];
    var i := 0;
    while i < |nodes|
      invariant 0 <= i <= |nodes|
      invariant items == HashesOf(nodes[..i])
    {
      assert nodes[..i + 1][..i] == nodes[..i];
      match nodes[i].operationHash {
        case Some(h) =>
          if h != "" {
            items := items + [h];
          }
        case None =>
      }
      i := i + 1;
    }
    assert nodes[..i] == nodes;
  }

  /** getClientNames: the client names in node order. */
  function GetClientNames(clients: seq<ClientStats>): (r: seq<string>)
    ensures |r| == |clients|
    ensures forall i :: 0 <= i < |clients| ==> r[i] == clients[i].name
  {
    seq(|clients|, i requires 0 <= i < |clients| => clients[i].name)
  }

  /** The initial selection: the given `selected` when it is non-empty,
      otherwise everything (`all` is the hash list or the client names). */
  function InitialSelection(selected: Option<seq<string>>, all: seq<string>): (r: seq<string>)
    ensures selected.Some? && selected.value != [] ==> r == selected.value
    ensures selected.None? || selected.value == [] ==> r == all
  {
    if selected.Some? && |selected.value| > 0 then selected.value else all
  }

  /** findIndex over the selection: the first position of `hash`, or -1. */
  function FindIndex(items: seq<string>, hash: string): (r: int)
    ensures -1 <= r < |items|
    ensures r == -1 <==> hash !in items
    ensures r >= 0 ==> items[r] == hash && forall j :: 0 <= j < r ==> items[j] != hash
  {
    if items == [] then -1
    else if items[0] == hash then 0
    else
      var k := FindIndex(items[1..], hash);
      if k == -1 then -1 else k + 1
  }

  /** The filter that drops `hash`. */
  function Other(hash: string): string -> bool {
    (x: string) => x != hash
  }

  /** onSelect: checking a hash appends it when absent; unchecking removes
      every occurrence when present; anything else leaves the selection. */
  function OnSelect(items: seq<string>, hash: string, selected: bool): (r: seq<string>)
    ensures hash in r <==> selected
    ensures forall x :: x != hash ==> (x in r <==> x in items)
    ensures selected ==> |items| <= |r| <= |items| + 1 && r[..|items|] == items
    ensures !selected ==> r == Filter(items, Other(hash))
    ensures (hash in items) == selected ==> r == items
  {
    var present := FindIndex(items, hash) > -1;
    if selected && !present then items + [hash]
    else if !selected && present then Filter(items, Other(hash))
    else if !selected then
      FilterKeepsAll(items, Other(hash));
      items
    else items
  }

  /** A duplicate-free selection stays duplicate-free under onSelect. */
  lemma OnSelectKeepsNoDup(items: seq<string>, hash: string, selected: bool)
    requires NoDup(items)
    ensures NoDup(OnSelect(items, hash, selected))
  {
    if !selected {
      FilterNoDup(items, Other(hash));
    }
  }

  /** Checking then unchecking a hash that was not selected restores the
      selection exactly. */
  lemma {:induction false} OnSelectRoundTrip(items: seq<string>, hash: string)
    requires hash !in items
    ensures OnSelect(OnSelect(items, hash, true), hash, false) == items
  {
    FilterAppend(items, [hash], Other(hash));
    FilterKeepsAll(items, Other(hash));
    assert Filter([hash], Other(hash)) == [];
  }

  /** The hash an operation row passes on: `operationHash || ''`. */
  function RowHash(op: OperationStats): string {
    match op.operationHash
    case Some(h) => h
    case None => ""
  }

  /** A row's `change`: toggles `!selected` only when the hash is non-empty. */
  function RowChange(items: seq<string>, hash: string, selected: bool): (r: seq<string>)
    ensures hash == "" ==> r == items
    ensures hash != "" ==> (hash in r <==> !selected)
    ensures forall x :: x != hash ==> (x in r <==> x in items)
    ensures hash != "" ==> r == OnSelect(items, hash, !selected)
  {
    if hash != "" then OnSelect(items, hash, !selected) else items
  }

  /** Clicking a rendered row (its checkbox shows `items.includes(hash)`)
      flips exactly that hash's membership. */
  lemma RowClickFlips(items: seq<string>, op: OperationStats)
    requires RowHash(op) != ""
    ensures var r := RowChange(items, RowHash(op), RowHash(op) in items);
            (RowHash(op) in r <==> RowHash(op) !in items)
            && forall x :: x != RowHash(op) ==> (x in r <==> x in items)
  {
  }

  /** `haystack.includes(needle)`. */
  predicate Contains(haystack: string, needle: string) {
    exists i :: 0 <= i <= |haystack| && needle <= haystack[i..]
  }

  /** The search predicate: the lowercased name contains the lowercased
      term. Lowercasing is a parameter: locale rules are not modelled. */
  function Matches<T>(name: T -> string, term: string, lower: string -> string): T -> bool {
    (x: T) => Contains(lower(name(x)), lower(term))
  }

  /** debouncedFilter: the visible rows for a search term. */
  function Search<T(!new)>(nodes: seq<T>, name: T -> string, term: string, lower: string -> string): (r: seq<T>)
    ensures |r| <= |nodes|
    ensures forall x :: x in r <==> x in nodes && Contains(lower(name(x)), lower(term))
  {
    Filter(nodes, Matches(name, term, lower))
  }

  /** Search keeps the original order: the rows found in a prefix come
      before the rows found in the rest. */
  lemma SearchKeepsOrder<T(!new)>(a: seq<T>, b: seq<T>, name: T -> string, term: string, lower: string -> string)
    ensures Search(a + b, name, term, lower) == Search(a, name, term, lower) + Search(b, name, term, lower)
  {
    FilterAppend(a, b, Matches(name, term, lower));
  }

  /** An empty search term shows every row. */
  lemma SearchEmptyTermKeepsAll<T(!new)>(nodes: seq<T>, name: T -> string, lower: string -> string)
    requires lower("") == ""
    ensures Search(nodes, name, "", lower) == nodes
  {
    forall x | x in nodes ensures Matches(name, "", lower)(x) {
      var s := lower(name(x));
      assert "" <= s[0..];
    }
    FilterKeepsAll(nodes, Matches(name, "", lower));
  }

  /** The container's `onFilter`: a selection as long as the whole list
      (`operations.total` or the number of clients) is saved as `[]`,
      meaning "no filter"; any other selection is saved as it is. */
  function SaveSelection(selection: seq<string>, allCount: int): (r: seq<string>)
    ensures |selection| == allCount ==> r == []
    ensures |selection| != allCount ==> r == selection
  {
    if |selection| == allCount then [] else selection
  }

  /** The Save button: disabled (nothing sent) for an empty selection,
      otherwise it sends the collapsed selection. */
  function Save(selection: seq<string>, allCount: int): (r: Option<seq<string>>)
    ensures r.None? <==> selection == []
    ensures r.Some? ==> r.value == SaveSelection(selection, allCount)
  {
    if |selection| == 0 then None else Some(SaveSelection(selection, allCount))
  }

  /** A save sends `[]` only when the selection was as long as the list. */
  lemma SaveEmptyMeansAll(selection: seq<string>, allCount: int)
    requires Save(selection, allCount) == Some([])
    ensures |selection| == allCount && selection != []
  {
  }

  /** For duplicate-free names, the save collapses to `[]` exactly when
      every name is selected. */
  lemma {:induction false} CollapseIffAllSelected(selection: seq<string>, all: seq<string>)
    requires NoDup(selection) && NoDup(all)
    requires forall x :: x in selection ==> x in all
    requires selection != []
    ensures SaveSelection(selection, |all|) == [] <==> forall x :: x in all ==> x in selection
  {
    var chosen := set x | x in selection;
    var every := set x | x in all;
    NoDupCard(selection);
    NoDupCard(all);
    assert chosen <= every;
    if forall x :: x in all ==> x in selection {
      assert chosen == every;
    } else {
      var missing :| missing in all && missing !in selection;
      assert chosen <= every - {missing};
      SubsetCard(chosen, every - {missing});
    }
  }

  /** "All" resets the selection to every hash; "None" to nothing, which
      disables Save. */
  function SelectAll(nodes: seq<OperationStats>): (r: seq<string>)
    ensures r == HashesOf(nodes)
    ensures forall h :: h in r <==> exists i :: 0 <= i < |nodes| && nodes[i].operationHash == Some(h) && h != ""
  {
    HashesOf(nodes)
  }

  function SelectNone(): (r: seq<string>)
    ensures forall allCount :: Save(r, allCount).None?
  {
    []
  }
}
