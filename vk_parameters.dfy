/**
 * VkParameters: the request parameters of an API call, a string-to-string
 * dictionary that `Add` fills from typed values and `ToString` writes as a
 * `key=value&key=value` body.
 *
 * The dictionary is modelled as the generic Dictionary keeps its entries: an
 * array of slots, enumerated in slot order, plus a stack of the slots that
 * `Remove` has freed. A new key goes into the most recently freed slot, or is
 * appended when none is free; so, as long as nothing was removed, the entries
 * are enumerated in insertion order.
 */
module VkParameters {
  import opened Errors
  import opened Text
  import DateTimeEx

  // ---------------------------------------------------------------------------
  // Conversion of the values given to Add

  /** The argument of `Add<T>`, by its run-time type. */
  datatype ParamValue =
    | Null                         // a null reference, or a Nullable<T> without a value
    | Bool(b: bool)
    | Date(t: DateTimeEx.DateTime)
    | EnumMember(number: int)      // an enum member; `ToString("d")` writes its number
    | Number(n: int)               // an integer; `ToString()` writes it in decimal
    | Other(text: Option<string>)  // any other object, by what its `ToString()` returns

  /**
   * The text Add stores for a value, `None` when it stores nothing, or the
   * exception the conversion throws (a `DateTime` before the Unix epoch).
   */
  function Converted(v: ParamValue): (r: Result<Option<string>>)
    ensures r == Ok(None) <==> v == Null || v == Other(None) || v == Other(Some(""))
    ensures r.Ok? && r.value.Some? ==> r.value.value != ""
    ensures v.Bool? ==> r == Ok(Some(if v.b then "1" else "0"))
    ensures v.EnumMember? ==> r == Ok(Some(IntToDecimal(v.number)))
    ensures v.Other? && v.text.Some? && v.text.value != "" ==> r == Ok(Some(v.text.value))
    ensures v.Date? ==> (r.Err? <==> DateTimeEx.ToUnixTime(v.t).Err?)
    ensures v.Date? && r.Ok? ==>
              r.value.Some? && AllDigits(r.value.value) &&
              ParseDecimal(r.value.value) == DateTimeEx.ToUnixTime(v.t).value
  {
    match v
    case Null => Ok(None)
    case Bool(b) => Ok(Some(if b then "1" else "0"))
    case Date(t) =>
      (match DateTimeEx.ToUnixTime(t)
       case Err(e) => Err(e)
       case Ok(n) => ParseNatToDecimal(n); Ok(Some(IntToDecimal(n))))
    case EnumMember(n) => Ok(Some(IntToDecimal(n)))
    case Number(n) => Ok(Some(IntToDecimal(n)))
    case Other(text) => if text == None || text == Some("") then Ok(None) else Ok(text)
  }

  // ---------------------------------------------------------------------------
  // The dictionary's slots

  /** One slot: free, or holding a key and its value (`None` for a null value). */
  datatype Slot = Free | Full(key: string, value: Option<string>)

  predicate KeysDistinct(slots: seq<Slot>)
  {
    forall i, j :: 0 <= i < j < |slots| && slots[i].Full? && slots[j].Full? ==> slots[i].key != slots[j].key
  }

  /** The free-slot stack lists every free slot exactly once. */
  predicate FreeListed(slots: seq<Slot>, free: seq<nat>)
  {
    && (forall k :: 0 <= k < |free| ==> free[k] < |slots| && slots[free[k]].Free?)
    && (forall i :: 0 <= i < |slots| && slots[i].Free? ==> i in free)
    && (forall a, b :: 0 <= a < b < |free| ==> free[a] != free[b])
  }

  predicate Consistent(slots: seq<Slot>, free: seq<nat>)
  {
    KeysDistinct(slots) && FreeListed(slots, free)
  }

  /** The slot holding `key`, if any. */
  function Find(slots: seq<Slot>, key: string): (r: Option<nat>)
    ensures r.Some? ==> r.value < |slots| && slots[r.value].Full? && slots[r.value].key == key
    ensures r.None? ==> forall i :: 0 <= i < |slots| && slots[i].Full? ==> slots[i].key != key
  {
    if slots == [] then None
    else if slots[0].Full? && slots[0].key == key then Some(0)
    else match Find(slots[1..], key)
      case None => None
      case Some(i) => Some(i + 1)
  }

  /** With distinct keys, the slot holding a key is the one Find reports. */
  lemma FindUnique(slots: seq<Slot>, key: string, j: nat)
    requires KeysDistinct(slots) && j < |slots| && slots[j].Full? && slots[j].key == key
    ensures Find(slots, key) == Some(j)
  {
  }

  /** The value stored under `key`: `None` when the key is absent. */
  function Lookup(slots: seq<Slot>, key: string): Option<Option<string>>
  {
    match Find(slots, key)
    case None => None
    case Some(i) => Some(slots[i].value)
  }

  /** The entries in enumeration order: the full slots, in slot order. */
  function Entries(slots: seq<Slot>): (es: seq<Slot>)
    ensures |es| <= |slots|
    ensures forall e :: e in es ==> e.Full?
  {
    if slots == [] then []
    else
      var last := slots[|slots| - 1];
      Entries(slots[..|slots| - 1]) + (if last.Full? then [last] else [])
  }

  /** The `key=value` item of an entry; a null value writes nothing after `=`. */
  function Pair(e: Slot): (string, string)
    requires e.Full?
  {
    (e.key, if e.value.Some? then e.value.value else "")
  }

  function Pairs(es: seq<Slot>): (ps: seq<(string, string)>)
    requires forall e :: e in es ==> e.Full?
    ensures |ps| == |es|
    ensures forall i :: 0 <= i < |es| ==> ps[i] == Pair(es[i])
  {
    if es == [] then [] else [Pair(es[0])] + Pairs(es[1..])
  }

  /** Where the dictionary puts a new entry: the most recently freed slot, or a new one at the end. */
  function Store(slots: seq<Slot>, free: seq<nat>, e: Slot): (r: (seq<Slot>, seq<nat>))
    requires FreeListed(slots, free)
  {
    if free == [] then (slots + [e], []) else (slots[free[0] := e], free[1..])
  }

  // ---------------------------------------------------------------------------
  // What the three updates do to the lookups, the count and the invariant

  /** Storing a new key keeps the invariant, makes the key map to its value, and leaves other keys alone. */
  lemma StoreLookup(slots: seq<Slot>, free: seq<nat>, key: string, value: Option<string>)
    requires Consistent(slots, free) && Find(slots, key).None?
    ensures Consistent(Store(slots, free, Full(key, value)).0, Store(slots, free, Full(key, value)).1)
    ensures forall k :: Lookup(Store(slots, free, Full(key, value)).0, k) ==
                        if k == key then Some(value) else Lookup(slots, k)
  {
    var (s, f) := Store(slots, free, Full(key, value));
    var at := if free == [] then |slots| else free[0];
    assert s == (slots + [Full(key, value)])[at := Full(key, value)] || s == slots[at := Full(key, value)];
    assert forall i :: 0 <= i < |s| && i != at ==> s[i] == slots[i];
    assert s[at] == Full(key, value);
    if free != [] {
      forall i | 0 <= i < |s| && s[i].Free?
        ensures i in f
      {
        assert i in free && i != free[0];
        var k :| 0 <= k < |free| && free[k] == i;
        assert f[k - 1] == i;
      }
    }
    forall k
      ensures Lookup(s, k) == if k == key then Some(value) else Lookup(slots, k)
    {
      var r := Find(s, k);
      if k == key {
        assert r == Some(at);
      } else {
        match Find(slots, k)
        case None =>
        case Some(j) => assert r == Some(j);
      }
    }
  }

  /** With no free slot, a new entry is enumerated after all the others. */
  lemma StoreAppends(slots: seq<Slot>, e: Slot)
    requires FreeListed(slots, []) && e.Full?
    ensures Entries(Store(slots, [], e).0) == Entries(slots) + [e]
    ensures Store(slots, [], e).1 == []
  {
    assert (slots + [e])[..|slots|] == slots;
  }

  /** Storing into a free slot adds exactly one entry. */
  lemma {:induction false} FillCount(slots: seq<Slot>, i: nat, e: Slot)
    requires i < |slots| && slots[i].Free? && e.Full?
    ensures |Entries(slots[i := e])| == |Entries(slots)| + 1
  {
    var n := |slots| - 1;
    if i < n {
      assert slots[i := e][..n] == slots[..n][i := e];
      FillCount(slots[..n], i, e);
    } else {
      assert slots[i := e][..n] == slots[..n];
    }
  }

  /** Freeing a full slot removes exactly one entry. */
  lemma {:induction false} ClearCount(slots: seq<Slot>, i: nat)
    requires i < |slots| && slots[i].Full?
    ensures |Entries(slots[i := Free])| + 1 == |Entries(slots)|
  {
    var n := |slots| - 1;
    if i < n {
      assert slots[i := Free][..n] == slots[..n][i := Free];
      ClearCount(slots[..n], i);
    } else {
      assert slots[i := Free][..n] == slots[..n];
    }
  }

  /** Overwriting a full slot keeps the number of entries. */
  lemma {:induction false} OverwriteCount(slots: seq<Slot>, i: nat, e: Slot)
    requires i < |slots| && slots[i].Full? && e.Full?
    ensures |Entries(slots[i := e])| == |Entries(slots)|
  {
    var n := |slots| - 1;
    if i < n {
      assert slots[i := e][..n] == slots[..n][i := e];
      OverwriteCount(slots[..n], i, e);
    } else {
      assert slots[i := e][..n] == slots[..n];
    }
  }

  /** Overwriting the value of a present key keeps every key at its place in the enumeration. */
  lemma {:induction false} OverwriteKeepsOrder(slots: seq<Slot>, i: nat, value: Option<string>)
    requires i < |slots| && slots[i].Full?
    ensures |Entries(slots[i := Full(slots[i].key, value)])| == |Entries(slots)|
    ensures forall j :: 0 <= j < |Entries(slots)| ==>
              Entries(slots[i := Full(slots[i].key, value)])[j].key == Entries(slots)[j].key
  {
    var e := Full(slots[i].key, value);
    var n := |slots| - 1;
    if i < n {
      assert slots[i := e][..n] == slots[..n][i := e];
      assert slots[..n][i].key == slots[i].key;
      OverwriteKeepsOrder(slots[..n], i, value);
    } else {
      assert slots[i := e][..n] == slots[..n];
    }
  }

  /** Storing a new key adds exactly one entry. */
  lemma StoreCount(slots: seq<Slot>, free: seq<nat>, e: Slot)
    requires FreeListed(slots, free) && e.Full?
    ensures |Entries(Store(slots, free, e).0)| == |Entries(slots)| + 1
  {
    if free != [] {
      FillCount(slots, free[0], e);
    }
  }

  /** Overwriting the value of a present key keeps the invariant and leaves other keys alone. */
  lemma OverwriteLookup(slots: seq<Slot>, free: seq<nat>, i: nat, value: Option<string>)
    requires Consistent(slots, free) && i < |slots| && slots[i].Full?
    ensures Consistent(slots[i := Full(slots[i].key, value)], free)
    ensures Lookup(slots[i := Full(slots[i].key, value)], slots[i].key) == Some(value)
    ensures forall k :: Lookup(slots[i := Full(slots[i].key, value)], k) ==
                        if k == slots[i].key then Some(value) else Lookup(slots, k)
  {
    var key := slots[i].key;
    var s := slots[i := Full(key, value)];
    FindUnique(s, key, i);
    forall k
      ensures Lookup(s, k) == if k == key then Some(value) else Lookup(slots, k)
    {
      if k == key {
        FindUnique(s, key, i);
      } else {
        match Find(slots, k)
        case None =>
        case Some(j) => FindUnique(s, k, j);
      }
    }
  }

  /** Freeing the slot of a key keeps the invariant, drops the key, and leaves other keys alone. */
  lemma ClearLookup(slots: seq<Slot>, free: seq<nat>, i: nat)
    requires Consistent(slots, free) && i < |slots| && slots[i].Full?
    ensures Consistent(slots[i := Free], [i] + free)
    ensures forall k :: Lookup(slots[i := Free], k) ==
                        if k == slots[i].key then None else Lookup(slots, k)
  {
    var key := slots[i].key;
    var s := slots[i := Free];
    var f := [i] + free;
    forall a, b | 0 <= a < b < |f|
      ensures f[a] != f[b]
    {
      if a == 0 {
        assert slots[f[b]].Free?;
      } else {
        assert f[a] == free[a - 1] && f[b] == free[b - 1];
      }
    }
    forall j | 0 <= j < |s| && s[j].Free?
      ensures j in f
    {
      if j != i {
        assert slots[j].Free?;
      }
    }
    forall k
      ensures Lookup(s, k) == if k == key then None else Lookup(slots, k)
    {
      if k != key {
        match Find(slots, k)
        case None =>
        case Some(j) => FindUnique(s, k, j);
      }
    }
  }

  // ---------------------------------------------------------------------------
  // A dictionary filled by Add calls alone

  /** The slots after adding entries with distinct keys, in order, to a new dictionary. */
  function Built(es: seq<Slot>): (slots: seq<Slot>)
    requires forall i :: 0 <= i < |es| ==> es[i].Full?
    ensures forall i :: 0 <= i < |slots| ==> slots[i].Full?
  {
    if es == [] then [] else Store(Built(es[..|es| - 1]), [], es[|es| - 1]).0
  }

  /** With no removals, the entries are enumerated in insertion order. */
  lemma {:induction false} InsertionOrder(es: seq<Slot>)
    requires forall i :: 0 <= i < |es| ==> es[i].Full?
    ensures Entries(Built(es)) == es
  {
    if es != [] {
      var init, last := es[..|es| - 1], es[|es| - 1];
      assert es == init + [last];
      InsertionOrder(init);
      var b := Built(init);
      assert FreeListed(b, []);
      StoreAppends(b, last);
    }
  }

  /** The body written for entries with plain keys and values reads back as those entries. */
  lemma BodyReadsBack(es: seq<Slot>)
    requires forall i :: 0 <= i < |es| ==> es[i].Full?
    requires forall i :: 0 <= i < |es| ==> Plain(Pair(es[i]))
    ensures ParseQuery(Query(Pairs(Entries(Built(es))))) == Pairs(es)
  {
    InsertionOrder(es);
    ParseQueryOfQuery(Pairs(es));
  }

  // ---------------------------------------------------------------------------
  // The object

  class Parameters {
    var slots: seq<Slot>
    var free: seq<nat>

    ghost predicate Valid()
      reads this
    {
      Consistent(slots, free)
    }

    constructor ()
      ensures Valid() && slots == [] && free == []
    {
      slots := [];
      free := [];
    }

    /** `Count`: the number of entries. */
    function Count(): nat
      reads this
    {
      |Entries(slots)|
    }

    /** `ContainsKey(key)`; a null key throws. */
    function ContainsKey(key: Option<string>): (r: Result<bool>)
      reads this
      ensures key.None? ==> r == Err(ArgumentNull("key"))
      ensures key.Some? ==> r == Ok(Lookup(slots, key.value).Some?)
    {
      if key.None? then Err(ArgumentNull("key")) else Ok(Find(slots, key.value).Some?)
    }

    /** The indexer's getter: the value stored under `key`, or KeyNotFound. */
    function Get(key: Option<string>): (r: Result<Option<string>>)
      reads this
      ensures key.None? ==> r == Err(ArgumentNull("key"))
      ensures key.Some? ==> (r == Err(KeyNotFound) <==> Lookup(slots, key.value).None?)
      ensures key.Some? && r.Ok? ==> Lookup(slots, key.value) == Some(r.value)
    {
      if key.None? then Err(ArgumentNull("key"))
      else match Find(slots, key.value)
        case None => Err(KeyNotFound)
        case Some(i) => Ok(slots[i].value)
    }

    /** `ToString`: the entries as `key=value` items joined by `&`, in enumeration order. */
    function ToString(): string
      reads this
    {
      Query(Pairs(Entries(slots)))
    }

    /** Dictionary.Add: stores a new key, or throws ArgumentException (no parameter name) for a present one. */
    method Insert(key: string, value: Option<string>) returns (o: Outcome)
      requires Valid()
      modifies this
      ensures Valid()
      ensures Lookup(old(slots), key).Some? ==>
                o == Fail(Argument("")) && slots == old(slots) && free == old(free)
      ensures Lookup(old(slots), key).None? ==>
                o == Pass && (slots, free) == Store(old(slots), old(free), Full(key, value))
      ensures o.Pass? ==> forall k :: Lookup(slots, k) == if k == key then Some(value) else old(Lookup(slots, k))
      ensures Count() == if o.Pass? then old(Count()) + 1 else old(Count())
    {
      if Find(slots, key).Some? {
        return Fail(Argument(""));
      }
      StoreLookup(slots, free, key, value);
      StoreCount(slots, free, Full(key, value));
      if free == [] {
        slots := slots + [Full(key, value)];
      } else {
        slots := slots[free[0] := Full(key, value)];
        free := free[1..];
      }
      o := Pass;
    }

    /**
     * `Add(name, value)`: a null or empty name throws; a value that converts
     * to nothing is skipped, even under a present name; otherwise the text is
     * stored, and a present name throws and changes nothing.
     */
    method Add(name: Option<string>, value: ParamValue) returns (o: Outcome)
      requires Valid()
      modifies this
      ensures Valid()
      ensures name.None? ==> o == Fail(ArgumentNull("name"))
      ensures name == Some("") ==> o == Fail(Argument("name"))
      ensures name.Some? && name.value != "" && Converted(value).Err? ==> o == Fail(Converted(value).error)
      ensures name.Some? && name.value != "" && Converted(value) == Ok(None) ==> o == Pass
      ensures name.Some? && name.value != "" && Converted(value).Ok? && Converted(value).value.Some? ==>
                && (o.Pass? <==> Lookup(old(slots), name.value).None?)
                && (o.Fail? ==> o == Fail(Argument("")))
                && (o.Pass? ==> (slots, free) == Store(old(slots), old(free), Full(name.value, Converted(value).value)))
                && (o.Pass? ==> forall k :: Lookup(slots, k) ==
                                 if k == name.value then Some(Converted(value).value) else old(Lookup(slots, k)))
      ensures o.Fail? || Converted(value) == Ok(None) ==> slots == old(slots) && free == old(free)
      ensures Count() == if o.Pass? && Converted(value) != Ok(None) then old(Count()) + 1 else old(Count())
    {
      if name.None? {
        return Fail(ArgumentNull("name"));
      }
      if name.value == "" {
        return Fail(Argument("name"));
      }
      match Converted(value)
      case Err(e) =>
        return Fail(e);
      case Ok(text) =>
        if text.None? {
          return Pass;
        }
        o := Insert(name.value, text);
    }

    /** The indexer's setter: stores a new key or overwrites the value of a present one. */
    method Set(key: Option<string>, value: Option<string>) returns (o: Outcome)
      requires Valid()
      modifies this
      ensures Valid()
      ensures key.None? <==> o == Fail(ArgumentNull("key"))
      ensures key.None? ==> slots == old(slots) && free == old(free)
      ensures key.Some? ==> forall k :: Lookup(slots, k) ==
                                        if k == key.value then Some(value) else old(Lookup(slots, k))
      ensures key.Some? ==> Count() == if old(Lookup(slots, key.value)).Some? then old(Count()) else old(Count()) + 1
      ensures key.Some? && old(Lookup(slots, key.value)).Some? ==> free == old(free)
      ensures key.Some? && old(Find(slots, key.value)).Some? ==>
                slots == old(slots)[old(Find(slots, key.value)).value := Full(key.value, value)]
      ensures key.Some? && old(Lookup(slots, key.value)).None? ==>
                (slots, free) == Store(old(slots), old(free), Full(key.value, value))
    {
      if key.None? {
        return Fail(ArgumentNull("key"));
      }
      match Find(slots, key.value)
      case Some(i) =>
        assert slots[i].key == key.value;
        OverwriteLookup(slots, free, i, value);
        OverwriteCount(slots, i, Full(key.value, value));
        assert Lookup(slots[i := Full(slots[i].key, value)], key.value) == Some(value);
        slots := slots[i := Full(slots[i].key, value)];
        o := Pass;
      case None =>
        assert Lookup(slots, key.value).None?;
        o := Insert(key.value, value);
        assert o.Pass?;
    }

    /** `Remove(key)`: drops the key and nothing else; an absent key is no error. */
    method Remove(key: Option<string>) returns (o: Outcome)
      requires Valid()
      modifies this
      ensures Valid()
      ensures key.None? <==> o == Fail(ArgumentNull("key"))
      ensures key.None? || old(Lookup(slots, key.value)).None? ==> slots == old(slots) && free == old(free)
      ensures key.Some? ==> forall k :: Lookup(slots, k) == if k == key.value then None else old(Lookup(slots, k))
      ensures key.Some? ==> Count() == if old(Lookup(slots, key.value)).Some? then old(Count()) - 1 else old(Count())
      ensures key.Some? && old(Find(slots, key.value)).Some? ==>
                && slots == old(slots)[old(Find(slots, key.value)).value := Free]
                && free == [old(Find(slots, key.value)).value] + old(free)
    {
      if key.None? {
        return Fail(ArgumentNull("key"));
      }
      match Find(slots, key.value)
      case None =>
        o := Pass;
      case Some(i) =>
        ClearLookup(slots, free, i);
        ClearCount(slots, i);
        slots := slots[i := Free];
        free := [i] + free;
        o := Pass;
    }
  }
}
