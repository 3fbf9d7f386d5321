/** The adapter registry: deterministic dispatch by capability and action. */
module Adapters {
  import opened KeyOrder
  import opened Records

  datatype Binding = Binding(capability: string, action: string)

  datatype Adapter = Adapter(adapterId: string, bindings: seq<Binding>)

  datatype AdapterState = AdapterState(table: map<Binding, Adapter>, ids: set<string>)

  datatype AdapterFault = IdRequired | DuplicateId | NoBindings | DuplicateBinding(binding: Binding)

  const NO_ADAPTERS := AdapterState(map[], {})

  /** `text.strip()` */
  function Strip(text: string): string {
    if text == "" then ""
    else if IsSpace(text[0]) then Strip(text[1..])
    else if IsSpace(text[|text| - 1]) then Strip(text[..|text| - 1])
    else text
  }

  ghost predicate Trimmed(text: string) {
    text != "" ==> !IsSpace(text[0]) && !IsSpace(text[|text| - 1])
  }

  /** Stripping takes white space off both ends, and nothing else. */
  lemma {:induction false} StripTrims(text: string) returns (before: string, after: string)
    ensures text == before + Strip(text) + after && Blank(before) && Blank(after) && Trimmed(Strip(text))
    decreases |text|
  {
    hide IsSpace;
    before, after := "", "";
    if text != "" && IsSpace(text[0]) {
      before, after := StripTrims(text[1..]);
      before := [text[0]] + before;
    } else if text != "" && IsSpace(text[|text| - 1]) {
      before, after := StripTrims(text[..|text| - 1]);
      after := after + [text[|text| - 1]];
    }
  }

  // ----- Registration ---------------------------------------------------------------------------

  predicate NoRepeats(bindings: seq<Binding>) {
    forall i, j :: 0 <= i < j < |bindings| ==> bindings[i] != bindings[j]
  }

  /** The registry takes the adapter. */
  ghost predicate Accepts(s: AdapterState, adapter: Adapter) {
    && Strip(adapter.adapterId) != "" && Strip(adapter.adapterId) !in s.ids
    && adapter.bindings != [] && NoRepeats(adapter.bindings)
    && forall b :: b in adapter.bindings ==> b !in s.table
  }

  /** The binding at `i` is taken already, by another adapter or by this one. */
  predicate Taken(table: map<Binding, Adapter>, bindings: seq<Binding>, i: int)
    requires 0 <= i < |bindings|
  {
    bindings[i] in table || bindings[i] in bindings[..i]
  }

  ghost predicate NoneTaken(table: map<Binding, Adapter>, bindings: seq<Binding>, n: int)
    requires 0 <= n <= |bindings|
  {
    forall i :: 0 <= i < n ==> !Taken(table, bindings, i)
  }

  lemma NoneTakenIff(table: map<Binding, Adapter>, bindings: seq<Binding>)
    ensures NoneTaken(table, bindings, |bindings|) <==>
      NoRepeats(bindings) && forall b :: b in bindings ==> b !in table
  {
    if NoneTaken(table, bindings, |bindings|) {
      forall i, j | 0 <= i < j < |bindings|
        ensures bindings[i] != bindings[j]
      {
        assert !Taken(table, bindings, j);
        assert bindings[..j][i] == bindings[i];
      }
      forall b | b in bindings
        ensures b !in table
      {
        var i :| 0 <= i < |bindings| && bindings[i] == b;
        assert !Taken(table, bindings, i);
      }
    }
  }

  function Bound(table: map<Binding, Adapter>, adapter: Adapter): map<Binding, Adapter> {
    map b | b in table.Keys + (set x | x in adapter.bindings) :: if b in adapter.bindings then adapter else table[b]
  }

  function With(s: AdapterState, adapter: Adapter): AdapterState {
    AdapterState(Bound(s.table, adapter), s.ids + {Strip(adapter.adapterId)})
  }

  class AdapterRegistry {
    var byBinding: map<Binding, Adapter>
    var ids: set<string>

    function State(): AdapterState
      reads this
    {
      AdapterState(byBinding, ids)
    }

    constructor ()
      ensures State() == NO_ADAPTERS
    {
      byBinding, ids := map[], {};
    }

    /** Registration is failure-atomic: it takes all the bindings, or changes nothing. */
    method Register(adapter: Adapter) returns (fault: Option<AdapterFault>)
      modifies this
      ensures fault.None? <==> Accepts(old(State()), adapter)
      ensures State() == if fault.None? then With(old(State()), adapter) else old(State())
      ensures fault == Some(IdRequired) <==> Strip(adapter.adapterId) == ""
      ensures fault == Some(DuplicateId) <==> Strip(adapter.adapterId) != "" && Strip(adapter.adapterId) in old(ids)
      ensures fault == Some(NoBindings) <==>
        Strip(adapter.adapterId) != "" && Strip(adapter.adapterId) !in old(ids) && adapter.bindings == []
      ensures fault.Some? && fault.value.DuplicateBinding? ==>
        exists i :: 0 <= i < |adapter.bindings| && NoneTaken(old(byBinding), adapter.bindings, i)
          && Taken(old(byBinding), adapter.bindings, i) && fault.value.binding == adapter.bindings[i]
    {
      var adapterId := Strip(adapter.adapterId);
      if adapterId == "" {
        return Some(IdRequired);
      }
      if adapterId in ids {
        return Some(DuplicateId);
      }
      if adapter.bindings == [] {
        return Some(NoBindings);
      }
      hide Strip, NoRepeats;
      NoneTakenIff(byBinding, adapter.bindings);
      var pending: seq<Binding> := [];
      for i := 0 to |adapter.bindings|
        invariant pending == adapter.bindings[..i]
        invariant NoneTaken(byBinding, adapter.bindings, i)
        invariant State() == old(State())
      {
        var key := adapter.bindings[i];
        if key in byBinding || key in pending {
          assert Taken(byBinding, adapter.bindings, i);
          return Some(DuplicateBinding(key));
        }
        pending := pending + [key];
      }
      ids := ids + {adapterId};
      ghost var before := byBinding;
      for i := 0 to |pending|
        invariant ids == old(ids) + {adapterId}
        invariant forall b :: b in byBinding <==> b in before || b in pending[..i]
        invariant forall b :: b in byBinding ==> byBinding[b] == if b in pending[..i] then adapter else before[b]
      {
        byBinding := byBinding[pending[i] := adapter];
      }
      return None;
    }

    /** The dictionary that `manifest` fills: the bindings of each adapter, in the order given. */
    method Grouped(order: seq<Binding>) returns (served: map<string, seq<Binding>>)
      requires forall b :: b in order ==> b in byBinding
      ensures forall id :: id in served <==> Served(byBinding, order, id) != []
      ensures forall id :: id in served ==> served[id] == Served(byBinding, order, id)
    {
      served := map[];
      assert forall id :: Served(byBinding, order[..0], id) == [];
      for i := 0 to |order|
        invariant forall id :: id in served <==> Served(byBinding, order[..i], id) != []
        invariant forall id :: id in served ==> served[id] == Served(byBinding, order[..i], id)
      {
        hide Served;
        var id := byBinding[order[i]].adapterId;
        ServedStep(byBinding, order, i);
        served := served[id := (if id in served then served[id] else []) + [order[i]]];
      }
      assert order[..|order|] == order;
    }

    /** `manifest`: the adapters by id, each with its bindings in order. */
    method Manifest() returns (result: seq<ManifestEntry>)
      ensures IsManifest(byBinding, result)
    {
      var keys := Listed(byBinding.Keys);
      var order := SortBindings(keys);
      SortedBindings(keys);
      var served := Grouped(order);
      var ids := Listed(served.Keys);
      SortedIds(ids);
      result := EntriesOf(SortBy(Itself, ids), served);
      ManifestIsRight(byBinding, order, served, SortBy(Itself, ids));
    }
  }

  /** The manifest has the adapter's id with the binding. */
  ghost predicate Lists(result: seq<ManifestEntry>, id: string, b: Binding) {
    exists e :: e in result && e.adapterId == id && b in e.bindings
  }

  /** One entry for each adapter, in the order of the ids; in it every binding that leads to the adapter, in order and
      once, and no other. */
  ghost predicate IsManifest(table: map<Binding, Adapter>, result: seq<ManifestEntry>) {
    && Sorted(EntryId, result) && DistinctKeys(EntryId, result)
    && (forall e :: e in result ==> e.bindings != [] && InOrder(e.bindings))
    && forall id, b :: Lists(result, id, b) <==> b in table && table[b].adapterId == id
  }

  datatype ManifestEntry = ManifestEntry(adapterId: string, bindings: seq<Binding>)

  function EntryId(entry: ManifestEntry): string {
    entry.adapterId
  }

  /** The elements of a set, each once. */
  method Listed<T(==)>(elements: set<T>) returns (list: seq<T>)
    ensures forall x :: x in list <==> x in elements
    ensures forall i, j :: 0 <= i < j < |list| ==> list[i] != list[j]
  {
    list := [];
    var left := elements;
    while left != {}
      invariant left <= elements && forall x :: x in list <==> x in elements - left
      invariant forall i, j :: 0 <= i < j < |list| ==> list[i] != list[j]
      decreases |left|
    {
      var x :| x in left;
      assert x !in list;
      list := list + [x];
      left := left - {x};
    }
  }

  // ----- The order of bindings ------------------------------------------------------------------

  /** `(capability, action) < (capability, action)` */
  predicate BindingBefore(a: Binding, b: Binding) {
    Before(a.capability, b.capability) || (a.capability == b.capability && Before(a.action, b.action))
  }

  lemma BindingsTotal(a: Binding, b: Binding)
    ensures BindingBefore(a, b) || BindingBefore(b, a) || a == b
    ensures !(BindingBefore(a, b) && BindingBefore(b, a)) && !BindingBefore(a, a)
  {
    BeforeTotal(a.capability, b.capability);
    BeforeTotal(a.action, b.action);
    BeforeTotal(a.capability, a.capability);
    BeforeTotal(a.action, a.action);
  }

  lemma BindingsTransitive(a: Binding, b: Binding, c: Binding)
    requires BindingBefore(a, b) && BindingBefore(b, c)
    ensures BindingBefore(a, c)
  {
    if Before(a.capability, b.capability) && Before(b.capability, c.capability) {
      BeforeTransitive(a.capability, b.capability, c.capability);
    }
    if Before(a.action, b.action) && Before(b.action, c.action) {
      BeforeTransitive(a.action, b.action, c.action);
    }
  }

  ghost predicate InOrder(bindings: seq<Binding>) {
    forall i, j :: 0 <= i < j < |bindings| ==> BindingBefore(bindings[i], bindings[j])
  }

  function InsertBinding(x: Binding, bindings: seq<Binding>): seq<Binding> {
    if |bindings| > 0 && BindingBefore(bindings[0], x) then [bindings[0]] + InsertBinding(x, bindings[1..])
    else [x] + bindings
  }

  function SortBindings(bindings: seq<Binding>): seq<Binding> {
    if |bindings| == 0 then [] else InsertBinding(bindings[0], SortBindings(bindings[1..]))
  }

  lemma OrderedAround(x: Binding, bindings: seq<Binding>)
    requires InOrder(bindings)
    ensures (forall b :: b in bindings ==> BindingBefore(x, b)) ==> InOrder([x] + bindings)
    ensures (forall b :: b in bindings ==> BindingBefore(b, x)) ==> InOrder(bindings + [x])
  {
  }

  lemma {:induction false} InsertedInOrder(x: Binding, bindings: seq<Binding>)
    requires InOrder(bindings) && x !in bindings
    ensures InOrder(InsertBinding(x, bindings))
    ensures forall b :: b in InsertBinding(x, bindings) <==> b == x || b in bindings
  {
    hide BindingBefore;
    if |bindings| > 0 {
      var first, rest := bindings[0], bindings[1..];
      assert bindings == [first] + rest;
      BindingsTotal(first, x);
      if BindingBefore(first, x) {
        InsertedInOrder(x, rest);
        OrderedAround(first, InsertBinding(x, rest));
      } else {
        forall b | b in rest
          ensures BindingBefore(x, b)
        {
          BindingsTransitive(x, first, b);
        }
        OrderedAround(x, bindings);
      }
    }
  }

  lemma {:induction false} SortedBindings(bindings: seq<Binding>)
    requires NoRepeats(bindings)
    ensures InOrder(SortBindings(bindings)) && forall b :: b in SortBindings(bindings) <==> b in bindings
  {
    if |bindings| > 0 {
      SortedBindings(bindings[1..]);
      assert bindings == [bindings[0]] + bindings[1..];
      InsertedInOrder(bindings[0], SortBindings(bindings[1..]));
    }
  }

  // ----- What each adapter serves ---------------------------------------------------------------

  /** The bindings, in order, that lead to the adapter of the id. */
  function Served(table: map<Binding, Adapter>, order: seq<Binding>, id: string): seq<Binding> {
    if |order| == 0 then []
    else
      var n := |order| - 1;
      Served(table, order[..n], id)
      + (if order[n] in table && table[order[n]].adapterId == id then [order[n]] else [])
  }

  lemma ServedStep(table: map<Binding, Adapter>, order: seq<Binding>, i: nat)
    requires i < |order|
    ensures forall id ::
      Served(table, order[..i + 1], id) == Served(table, order[..i], id)
        + (if order[i] in table && table[order[i]].adapterId == id then [order[i]] else [])
  {
    assert order[..i + 1][..i] == order[..i];
  }

  /** Every binding is listed once, under the adapter that it leads to, and in order. */
  lemma {:induction false} ServedPartitions(table: map<Binding, Adapter>, order: seq<Binding>, id: string)
    requires InOrder(order)
    ensures forall b :: b in Served(table, order, id) <==> b in order && b in table && table[b].adapterId == id
    ensures InOrder(Served(table, order, id))
  {
    hide BindingBefore;
    if order != [] {
      var n := |order| - 1;
      ServedPartitions(table, order[..n], id);
      assert order == order[..n] + [order[n]];
      OrderedAround(order[n], Served(table, order[..n], id));
    }
  }

  function EntriesOf(ids: seq<string>, served: map<string, seq<Binding>>): (r: seq<ManifestEntry>)
    requires forall id :: id in ids ==> id in served
    ensures |r| == |ids| && forall i :: 0 <= i < |r| ==> r[i] == ManifestEntry(ids[i], served[ids[i]])
  {
    if |ids| == 0 then [] else [ManifestEntry(ids[0], served[ids[0]])] + EntriesOf(ids[1..], served)
  }

  lemma SortedIds(ids: seq<string>)
    requires forall i, j :: 0 <= i < j < |ids| ==> ids[i] != ids[j]
    ensures var sorted := SortBy(Itself, ids);
      && Sorted(Itself, sorted) && DistinctKeys(Itself, sorted) && forall id :: id in sorted <==> id in ids
  {
    var sorted := SortBy(Itself, ids);
    SortBySorts(Itself, ids);
    SortedDistinct(Itself, sorted, ids);
    forall id
      ensures id in sorted <==> id in ids
    {
      assert id in sorted <==> id in multiset(sorted);
      assert id in ids <==> id in multiset(ids);
    }
  }

  lemma EntriesInOrder(ids: seq<string>, served: map<string, seq<Binding>>)
    requires Sorted(Itself, ids) && DistinctKeys(Itself, ids) && forall id :: id in ids ==> id in served
    ensures Sorted(EntryId, EntriesOf(ids, served)) && DistinctKeys(EntryId, EntriesOf(ids, served))
  {
    hide Before;
    var result := EntriesOf(ids, served);
    assert forall i :: 0 <= i < |result| ==> EntryId(result[i]) == Itself(ids[i]);
  }

  lemma ManifestIsRight(table: map<Binding, Adapter>, order: seq<Binding>, served: map<string, seq<Binding>>,
                        ids: seq<string>)
    requires InOrder(order) && forall b :: b in order <==> b in table
    requires forall id :: id in served <==> Served(table, order, id) != []
    requires forall id :: id in served ==> served[id] == Served(table, order, id)
    requires Sorted(Itself, ids) && DistinctKeys(Itself, ids) && forall id :: id in ids <==> id in served
    ensures IsManifest(table, EntriesOf(ids, served))
  {
    hide BindingBefore, Served, InOrder, Sorted, DistinctKeys;
    var result := EntriesOf(ids, served);
    EntriesInOrder(ids, served);
    forall e | e in result
      ensures e.bindings != [] && InOrder(e.bindings)
    {
      ServedPartitions(table, order, e.adapterId);
    }
    forall id, b
      ensures Lists(result, id, b) <==> b in table && table[b].adapterId == id
    {
      ServedPartitions(table, order, id);
      if b in table && table[b].adapterId == id {
        assert b in Served(table, order, id);
        var i :| 0 <= i < |ids| && ids[i] == id;
        assert result[i] in result && b in result[i].bindings;
      }
    }
  }

  // ----- Any order ------------------------------------------------------------------------------

  ghost function Add(s: Option<AdapterState>, adapter: Adapter): Option<AdapterState> {
    if s.Some? && Accepts(s.value, adapter) then Some(With(s.value, adapter)) else None
  }

  /** The state after all the adapters, or None when one of them is refused. */
  ghost function AddAll(s: Option<AdapterState>, adapters: seq<Adapter>): Option<AdapterState>
    decreases |adapters|
  {
    if |adapters| == 0 then s else AddAll(Add(s, adapters[0]), adapters[1..])
  }

  /** Registering two adapters in either order comes to the same, refusals included. */
  lemma AddsCommute(s: Option<AdapterState>, x: Adapter, y: Adapter)
    ensures Add(Add(s, x), y) == Add(Add(s, y), x)
  {
    if s.Some? {
      AcceptsAfter(s.value, x, y);
      AcceptsAfter(s.value, y, x);
      if Accepts(s.value, x) && Accepts(s.value, y) && Independent(x, y) {
        assert With(With(s.value, x), y).table == With(With(s.value, y), x).table;
        assert With(With(s.value, x), y).ids == With(With(s.value, y), x).ids;
      }
    }
  }

  ghost predicate Independent(x: Adapter, y: Adapter) {
    Strip(x.adapterId) != Strip(y.adapterId) && forall b :: b in x.bindings ==> b !in y.bindings
  }

  /** One adapter hinders another exactly when they share an id or a binding. */
  lemma AcceptsAfter(s: AdapterState, x: Adapter, y: Adapter)
    ensures Accepts(With(s, x), y) <==> Accepts(s, y) && Independent(x, y)
  {
    hide Strip, NoRepeats;
    var t := With(s, x).table;
    assert forall b :: b in t <==> b in s.table || b in x.bindings;
    if Accepts(s, y) && Independent(x, y) {
      assert forall b :: b in y.bindings ==> b !in t;
    }
  }

  lemma {:induction false} MoveToFront(s: Option<AdapterState>, before: seq<Adapter>, x: Adapter, after: seq<Adapter>)
    ensures AddAll(s, before + [x] + after) == AddAll(Add(s, x), before + after)
    decreases |before|
  {
    if before == [] {
      assert [] + [x] + after == [x] + after && [] + after == after;
      assert ([x] + after)[1..] == after;
    } else {
      var list, rest := before + [x] + after, before + after;
      assert list[1..] == before[1..] + [x] + after && rest[1..] == before[1..] + after;
      MoveToFront(Add(s, before[0]), before[1..], x, after);
      AddsCommute(s, before[0], x);
    }
  }

  lemma RemoveOne<T>(x: T, rest: seq<T>, before: seq<T>, after: seq<T>)
    requires multiset([x] + rest) == multiset(before + [x] + after)
    ensures multiset(rest) == multiset(before + after)
  {
    assert multiset([x] + rest) == multiset{x} + multiset(rest);
    assert multiset(before + [x] + after) == multiset{x} + multiset(before + after);
    assert multiset(rest) == multiset([x] + rest) - multiset{x};
  }

  /** The dispatch table does not depend on the order of registration, nor does whether all adapters are taken. */
  lemma {:induction false} AnyOrder(s: Option<AdapterState>, adapters: seq<Adapter>, adapters': seq<Adapter>)
    requires multiset(adapters) == multiset(adapters')
    ensures AddAll(s, adapters) == AddAll(s, adapters')
    decreases |adapters|
  {
    hide Add;
    if adapters == [] {
      assert |multiset(adapters')| == 0;
    } else {
      var x, rest := adapters[0], adapters[1..];
      assert adapters == [x] + rest;
      assert x in multiset(adapters');
      var k :| 0 <= k < |adapters'| && adapters'[k] == x;
      var before, after := adapters'[..k], adapters'[k + 1..];
      assert adapters' == before + [x] + after;
      RemoveOne(x, rest, before, after);
      MoveToFront(s, before, x, after);
      AnyOrder(Add(s, x), rest, before + after);
    }
  }

  // ----- Dispatch -------------------------------------------------------------------------------

  /** Every binding of the table belongs to the adapter it leads to, and adapters are told apart by their ids. */
  ghost predicate Orderly(s: AdapterState) {
    && (forall b :: b in s.table ==> b in s.table[b].bindings && Strip(s.table[b].adapterId) in s.ids)
    && (forall b, b' :: b in s.table && b' in s.table && s.table[b].adapterId == s.table[b'].adapterId ==>
          s.table[b] == s.table[b'])
  }

  lemma WithOrderly(s: AdapterState, adapter: Adapter)
    requires Orderly(s) && Accepts(s, adapter)
    ensures Orderly(With(s, adapter))
  {
    hide Strip, NoRepeats;
  }

  /** After any registrations that succeed, a binding leads to the adapter that declared it, and to no other. */
  lemma {:induction false} DispatchIsDeclared(adapters: seq<Adapter>, b: Binding)
    requires AddAll(Some(NO_ADAPTERS), adapters).Some?
    ensures var s := AddAll(Some(NO_ADAPTERS), adapters).value;
      && Orderly(s)
      && (b in s.table <==> exists i :: 0 <= i < |adapters| && b in adapters[i].bindings)
      && forall i :: 0 <= i < |adapters| && b in adapters[i].bindings ==> s.table[b] == adapters[i]
    decreases |adapters|
  {
    if adapters != [] {
      var n := |adapters| - 1;
      AddLast(Some(NO_ADAPTERS), adapters[..n], adapters[n]);
      assert adapters == adapters[..n] + [adapters[n]];
      DispatchIsDeclared(adapters[..n], b);
      var s := AddAll(Some(NO_ADAPTERS), adapters[..n]).value;
      WithOrderly(s, adapters[n]);
    }
  }

  lemma {:induction false} AddLast(s: Option<AdapterState>, adapters: seq<Adapter>, last: Adapter)
    ensures AddAll(s, adapters + [last]) == Add(AddAll(s, adapters), last)
    decreases |adapters|
  {
    if adapters == [] {
      assert ([] + [last])[1..] == [];
    } else {
      assert (adapters + [last])[1..] == adapters[1..] + [last];
      AddLast(Add(s, adapters[0]), adapters[1..], last);
    }
  }
}
