/** Canonical serialization of Python values: `_plain` and `json.dumps` with sorted keys. */
module CanonicalJson {
  import opened JsonText
  import opened JsonValues
  import opened KeyOrder

  /** The string-keyed values that payloads and results are made of, without floats. */
  datatype PyValue =
    | PyNone
    | PyBool(b: bool)
    | PyInt(n: int)
    | PyStr(s: string)
    | PyList(items: seq<PyValue>)
    | PyTuple(items: seq<PyValue>)
    | PyDict(entries: seq<Entry>)

  /** An entry of a dictionary; a dictionary lists its entries in the order of insertion. */
  datatype Entry = Entry(key: string, value: PyValue)

  function EntryKey(entry: Entry): string {
    entry.key
  }

  function MemberKey(member: Member): string {
    member.key
  }

  /** No dictionary in the value has a key twice. */
  ghost predicate WellFormed(value: PyValue) {
    match value
    case PyList(items) => forall i :: 0 <= i < |items| ==> WellFormed(items[i])
    case PyTuple(items) => forall i :: 0 <= i < |items| ==> WellFormed(items[i])
    case PyDict(entries) =>
      DistinctKeys(EntryKey, entries) && forall i :: 0 <= i < |entries| ==> WellFormed(entries[i].value)
    case _ => true
  }

  function Canonical(value: PyValue): Json
    decreases value, 0
  {
    match value
    case PyNone => Null
    case PyBool(b) => Bool(b)
    case PyInt(n) => Int(n)
    case PyStr(s) => Str(s)
    case PyList(items) => Arr(CanonicalItems(items))
    case PyTuple(items) => Arr(CanonicalItems(items))
    case PyDict(entries) => Obj(SortBy(MemberKey, CanonicalMembers(entries)))
  }

  function CanonicalItems(items: seq<PyValue>): (r: seq<Json>)
    ensures |r| == |items|
    ensures forall i :: 0 <= i < |items| ==> r[i] == Canonical(items[i])
    decreases items, 0
  {
    if |items| == 0 then [] else [Canonical(items[0])] + CanonicalItems(items[1..])
  }

  function CanonicalMembers(entries: seq<Entry>): (r: seq<Member>)
    ensures |r| == |entries|
    ensures forall i :: 0 <= i < |entries| ==> r[i] == Member(entries[i].key, Canonical(entries[i].value))
    decreases entries, 0
  {
    if |entries| == 0 then []
    else [Member(entries[0].key, Canonical(entries[0].value))] + CanonicalMembers(entries[1..])
  }

  /** `canonical_bytes`, before the characters are encoded. */
  function CanonicalText(value: PyValue): string {
    Print(Canonical(value))
  }

  /** Scalars stay what they are, tuples become lists, and a dictionary lists its entries in the order of their keys. */
  lemma CanonicalShape(value: PyValue)
    requires WellFormed(value)
    ensures var json := Canonical(value);
      match value
      case PyNone => json == Null
      case PyBool(b) => json == Bool(b)
      case PyInt(n) => json == Int(n)
      case PyStr(s) => json == Str(s)
      case PyList(items) =>
        json.Arr? && |json.items| == |items| && forall i :: 0 <= i < |items| ==> json.items[i] == Canonical(items[i])
      case PyTuple(items) =>
        json.Arr? && |json.items| == |items| && forall i :: 0 <= i < |items| ==> json.items[i] == Canonical(items[i])
      case PyDict(entries) =>
        && json.Obj? && |json.members| == |entries|
        && (forall i, j :: 0 <= i < j < |json.members| ==> Before(json.members[i].key, json.members[j].key))
        && forall i :: 0 <= i < |entries| ==> Member(entries[i].key, Canonical(entries[i].value)) in json.members
  {
    if value.PyDict? {
      var entries := value.entries;
      SortedMembers(entries);
      SortBySorts(MemberKey, CanonicalMembers(entries));
      var m := SortBy(MemberKey, CanonicalMembers(entries));
      assert |multiset(m)| == |m| && |multiset(CanonicalMembers(entries))| == |entries|;
      forall i, j | 0 <= i < j < |m|
        ensures Before(m[i].key, m[j].key)
      {
        BeforeTotal(MemberKey(m[i]), MemberKey(m[j]));
      }
      forall i | 0 <= i < |entries|
        ensures Member(entries[i].key, Canonical(entries[i].value)) in m
      {
        assert CanonicalMembers(entries)[i] in CanonicalMembers(entries);
      }
    }
  }

  // ----- Equal texts mean equal values ----------------------------------------------------------

  ghost function Keys(entries: seq<Entry>): set<string> {
    set i | 0 <= i < |entries| :: entries[i].key
  }

  /** Equality up to the order of keys and the difference between lists and tuples. */
  ghost predicate Equivalent(v: PyValue, w: PyValue)
    decreases v
  {
    match v
    case PyList(items) => (w.PyList? || w.PyTuple?) && |items| == |w.items| &&
      forall i :: 0 <= i < |items| ==> Equivalent(items[i], w.items[i])
    case PyTuple(items) => (w.PyList? || w.PyTuple?) && |items| == |w.items| &&
      forall i :: 0 <= i < |items| ==> Equivalent(items[i], w.items[i])
    case PyDict(entries) => w.PyDict? && Keys(entries) == Keys(w.entries) &&
      forall i, j :: 0 <= i < |entries| && 0 <= j < |w.entries| && entries[i].key == w.entries[j].key ==>
        Equivalent(entries[i].value, w.entries[j].value)
    case _ => v == w
  }

  lemma SortedMembers(entries: seq<Entry>)
    requires DistinctKeys(EntryKey, entries)
    ensures var s := SortBy(MemberKey, CanonicalMembers(entries));
      && Sorted(MemberKey, s) && DistinctKeys(MemberKey, s)
      && forall m :: m in s <==> m in CanonicalMembers(entries)
  {
    var members := CanonicalMembers(entries);
    var s := SortBy(MemberKey, members);
    SortBySorts(MemberKey, members);
    forall m
      ensures m in s <==> m in members
    {
      assert m in s <==> m in multiset(s);
      assert m in members <==> m in multiset(members);
    }
    forall i, j | 0 <= i < |members| && 0 <= j < |members| && i != j
      ensures MemberKey(members[i]) != MemberKey(members[j])
    {
      assert EntryKey(entries[i]) != EntryKey(entries[j]);
    }
    SortedDistinct(MemberKey, s, members);
  }

  lemma {:induction false} CanonicalIffEquivalent(v: PyValue, w: PyValue)
    requires WellFormed(v) && WellFormed(w)
    ensures Canonical(v) == Canonical(w) <==> Equivalent(v, w)
    decreases v
  {
    match v {
      case PyList(items) =>
        if (w.PyList? || w.PyTuple?) && |items| == |w.items| { ItemsIffEquivalent(items, w.items); }
      case PyTuple(items) =>
        if (w.PyList? || w.PyTuple?) && |items| == |w.items| { ItemsIffEquivalent(items, w.items); }
      case PyDict(entries) =>
        if w.PyDict? { EntriesIffEquivalent(entries, w.entries); }
      case _ =>
    }
  }

  lemma {:induction false} ItemsIffEquivalent(items: seq<PyValue>, items': seq<PyValue>)
    requires |items| == |items'|
    requires forall i :: 0 <= i < |items| ==> WellFormed(items[i]) && WellFormed(items'[i])
    ensures CanonicalItems(items) == CanonicalItems(items') <==>
      forall i :: 0 <= i < |items| ==> Equivalent(items[i], items'[i])
    decreases items
  {
    forall i | 0 <= i < |items|
      ensures Canonical(items[i]) == Canonical(items'[i]) <==> Equivalent(items[i], items'[i])
    {
      CanonicalIffEquivalent(items[i], items'[i]);
    }
  }

  lemma {:induction false} EntriesIffEquivalent(entries: seq<Entry>, entries': seq<Entry>)
    requires DistinctKeys(EntryKey, entries) && DistinctKeys(EntryKey, entries')
    requires forall i :: 0 <= i < |entries| ==> WellFormed(entries[i].value)
    requires forall i :: 0 <= i < |entries'| ==> WellFormed(entries'[i].value)
    ensures SortBy(MemberKey, CanonicalMembers(entries)) == SortBy(MemberKey, CanonicalMembers(entries')) <==>
      && Keys(entries) == Keys(entries')
      && forall i, j :: 0 <= i < |entries| && 0 <= j < |entries'| && entries[i].key == entries'[j].key ==>
           Equivalent(entries[i].value, entries'[j].value)
    decreases entries
  {
    forall i, j | 0 <= i < |entries| && 0 <= j < |entries'|
      ensures Canonical(entries[i].value) == Canonical(entries'[j].value) <==>
        Equivalent(entries[i].value, entries'[j].value)
    {
      CanonicalIffEquivalent(entries[i].value, entries'[j].value);
    }
    SortedMembers(entries);
    SortedMembers(entries');
    SameMembersIff(entries, entries');
    var s, s' := SortBy(MemberKey, CanonicalMembers(entries)), SortBy(MemberKey, CanonicalMembers(entries'));
    if Contained(entries, entries') && Contained(entries', entries) {
      SortedIsUnique(MemberKey, s, s');
    }
  }

  ghost predicate Contained(entries: seq<Entry>, entries': seq<Entry>) {
    forall m :: m in CanonicalMembers(entries) ==> m in CanonicalMembers(entries')
  }

  ghost predicate Agree(entries: seq<Entry>, entries': seq<Entry>) {
    forall i, j :: 0 <= i < |entries| && 0 <= j < |entries'| && entries[i].key == entries'[j].key ==>
      Canonical(entries[i].value) == Canonical(entries'[j].value)
  }

  /** Two dictionaries have the same canonical members when they agree key by key. */
  lemma SameMembersIff(entries: seq<Entry>, entries': seq<Entry>)
    requires DistinctKeys(EntryKey, entries) && DistinctKeys(EntryKey, entries')
    ensures Contained(entries, entries') && Contained(entries', entries) <==>
      Keys(entries) == Keys(entries') && Agree(entries, entries')
  {
    if Contained(entries, entries') && Contained(entries', entries) {
      SameMembersAgree(entries, entries');
      SameMembersAgree(entries', entries);
    }
    if Keys(entries) == Keys(entries') && Agree(entries, entries') {
      AgreeingMembers(entries, entries');
      AgreeingMembers(entries', entries);
    }
  }

  lemma SameMembersAgree(entries: seq<Entry>, entries': seq<Entry>)
    requires DistinctKeys(EntryKey, entries')
    requires Contained(entries, entries')
    ensures Keys(entries) <= Keys(entries') && Agree(entries, entries')
  {
    forall i | 0 <= i < |entries|
      ensures entries[i].key in Keys(entries')
      ensures forall j :: 0 <= j < |entries'| && entries[i].key == entries'[j].key ==>
        Canonical(entries[i].value) == Canonical(entries'[j].value)
    {
      assert CanonicalMembers(entries)[i] in CanonicalMembers(entries');
      var k :| 0 <= k < |entries'| && CanonicalMembers(entries')[k] == CanonicalMembers(entries)[i];
      assert entries'[k].key == entries[i].key;
      forall j | 0 <= j < |entries'| && entries[i].key == entries'[j].key
        ensures j == k
      {
        assert EntryKey(entries'[j]) == EntryKey(entries'[k]);
      }
    }
  }

  lemma AgreeingMembers(entries: seq<Entry>, entries': seq<Entry>)
    requires Keys(entries) <= Keys(entries') && Agree(entries, entries')
    ensures Contained(entries, entries')
  {
    forall i | 0 <= i < |entries|
      ensures CanonicalMembers(entries)[i] in CanonicalMembers(entries')
    {
      assert entries[i].key in Keys(entries');
      var j :| 0 <= j < |entries'| && entries'[j].key == entries[i].key;
      assert CanonicalMembers(entries')[j] == CanonicalMembers(entries)[i];
    }
  }

  /** The canonical text is unambiguous: equal texts come from equal values, up to key order and list or tuple. */
  lemma CanonicalTextUnambiguous(v: PyValue, w: PyValue)
    requires WellFormed(v) && WellFormed(w)
    ensures CanonicalText(v) == CanonicalText(w) <==> Equivalent(v, w)
  {
    hide Print, Canonical;
    CanonicalIffEquivalent(v, w);
    if CanonicalText(v) == CanonicalText(w) {
      PrintInjective(Canonical(v), Canonical(w));
    }
  }

  /** Reading the canonical text gives the canonical value back. */
  lemma CanonicalTextReadsBack(value: PyValue)
    ensures ReadValue(CanonicalText(value)) == Read(Canonical(value), "")
  {
    hide Print, Canonical, ReadValue;
    ReadPrinted(Canonical(value), "");
    assert Print(Canonical(value)) + "" == Print(Canonical(value));
  }

  // ----- Request digests ------------------------------------------------------------------------

  /** Dictionaries with the same keys in the same order are compared entry by entry. */
  lemma SameShapeEquivalent(entries: seq<Entry>, entries': seq<Entry>)
    requires |entries| == |entries'| && forall i :: 0 <= i < |entries| ==> entries[i].key == entries'[i].key
    requires DistinctKeys(EntryKey, entries)
    ensures Equivalent(PyDict(entries), PyDict(entries')) <==>
      forall i :: 0 <= i < |entries| ==> Equivalent(entries[i].value, entries'[i].value)
  {
    forall i, j | 0 <= i < |entries| && 0 <= j < |entries'| && entries[i].key == entries'[j].key
      ensures i == j
    {
      assert EntryKey(entries[i]) == EntryKey(entries[j]);
    }
    assert Keys(entries) == Keys(entries') by {
      assert forall i :: 0 <= i < |entries| ==> entries[i].key in Keys(entries') && entries'[i].key in Keys(entries);
    }
  }

  /** A request as its caller gives it. */
  datatype RawRequest = RawRequest(
    requestId: string, capability: string, action: string, resource: string, payload: seq<Entry>, actor: string)

  /** The dictionary that `request_digest` hashes. */
  function RequestView(request: RawRequest): PyValue {
    PyDict([
      Entry("request_id", PyStr(request.requestId)), Entry("capability", PyStr(request.capability)),
      Entry("action", PyStr(request.action)), Entry("resource", PyStr(request.resource)),
      Entry("payload", PyDict(request.payload)), Entry("actor", PyStr(request.actor))])
  }

  /** The six keys differ in length, but for two that differ in their first letter. */
  lemma RequestViewKeys(request: RawRequest)
    requires WellFormed(PyDict(request.payload))
    ensures WellFormed(RequestView(request))
  {
    var view := RequestView(request);
    var lengths := [10, 10, 6, 8, 7, 5];
    forall i | 0 <= i < 6
      ensures |EntryKey(view.entries[i])| == lengths[i]
    {
    }
    assert EntryKey(view.entries[0])[0] == 'r' && EntryKey(view.entries[1])[0] == 'c';
  }

  lemma RequestViewValues(r: RawRequest, r': RawRequest)
    ensures RequestView(r).PyDict? && RequestView(r').PyDict?
    ensures var e, e' := RequestView(r).entries, RequestView(r').entries;
      && |e| == |e'| == 6
      && (forall i :: 0 <= i < 6 ==> e[i].key == e'[i].key)
      && ((forall i :: 0 <= i < 6 ==> Equivalent(e[i].value, e'[i].value)) <==>
            && r.(payload := []) == r'.(payload := [])
            && Equivalent(PyDict(r.payload), PyDict(r'.payload)))
  {
    var e, e' := RequestView(r).entries, RequestView(r').entries;
    assert e[4].value == PyDict(r.payload) && e'[4].value == PyDict(r'.payload);
    assert forall i :: 0 <= i < 6 && i != 4 ==> e[i].value.PyStr? && e'[i].value.PyStr?;
    assert (e[0].value == e'[0].value <==> r.requestId == r'.requestId)
        && (e[1].value == e'[1].value <==> r.capability == r'.capability);
    assert (e[2].value == e'[2].value <==> r.action == r'.action)
        && (e[3].value == e'[3].value <==> r.resource == r'.resource);
    assert e[5].value == e'[5].value <==> r.actor == r'.actor;
  }

  /** Two requests hash the same text exactly when they agree in every field and their payloads are equivalent. */
  lemma RequestTextUnambiguous(r: RawRequest, r': RawRequest)
    requires WellFormed(PyDict(r.payload)) && WellFormed(PyDict(r'.payload))
    ensures CanonicalText(RequestView(r)) == CanonicalText(RequestView(r')) <==>
      r.(payload := []) == r'.(payload := []) && Equivalent(PyDict(r.payload), PyDict(r'.payload))
  {
    hide CanonicalText, RequestView, Equivalent;
    RequestViewKeys(r);
    RequestViewKeys(r');
    RequestViewValues(r, r');
    CanonicalTextUnambiguous(RequestView(r), RequestView(r'));
    SameShapeEquivalent(RequestView(r).entries, RequestView(r').entries);
  }
}
