/**
 * FilteredEnum<T>: a flag enum over a 64-bit `long`. Each registered member is
 * a single bit kept in an ExclusiveEnum table (so values and names are
 * unique); a filter value is any OR of registered bits, and renders as the
 * comma-joined names of its bits in registration order.
 */
module FilteredEnum {
  import opened Errors
  import opened Bits
  import opened Text
  import ExclusiveEnum

  type Table = seq<ExclusiveEnum.Member<bv64>>

  /**
   * A filter value. Equality of filters (`==`, `Equals`) is equality of
   * `Value`, which is datatype equality here; a fresh filter has value 0.
   */
  datatype Filter = Filter(value: bv64)

  const Empty: Filter := Filter(0)

  /** Every registered value is a single bit. */
  ghost predicate AllSingleBits(ms: Table)
  {
    forall i :: 0 <= i < |ms| ==> SingleBit(ms[i].value)
  }

  /** Some member of the table has value `b`. */
  ghost predicate Registered(ms: Table, b: bv64)
  {
    exists i :: 0 <= i < |ms| && ms[i].value == b
  }

  /** The OR of all registered values. */
  function Mask(ms: Table): bv64
  {
    if ms == [] then 0 else Mask(ms[..|ms| - 1]) | ms[|ms| - 1].value
  }

  /** The registered mask as FromValue computes it: the sum of the values, wrapping at 64 bits. */
  function Sum(ms: Table): bv64
  {
    if ms == [] then 0 else Sum(ms[..|ms| - 1]) + ms[|ms| - 1].value
  }

  /** A single bit is in the mask exactly when it is a registered value. */
  lemma {:induction false} MaskHasBit(ms: Table, b: bv64)
    requires AllSingleBits(ms) && SingleBit(b)
    ensures Has(Mask(ms), b) <==> Registered(ms, b)
  {
    if ms != [] {
      var init, last := ms[..|ms| - 1], ms[|ms| - 1];
      MaskHasBit(init, b);
      MaskStepHas(ms, b);
      DistinctBitsDisjoint(last.value, b);
      if Registered(init, b) {
        var i :| 0 <= i < |init| && init[i].value == b;
        assert ms[i].value == b;
      }
      if Registered(ms, b) && last.value != b {
        var i :| 0 <= i < |ms| && ms[i].value == b;
        assert init[i].value == b;
      }
    }
  }

  lemma MaskStepHas(ms: Table, b: bv64)
    requires ms != []
    ensures Has(Mask(ms), b) <==> Has(Mask(ms[..|ms| - 1]), b) || Has(ms[|ms| - 1].value, b)
  {
    var x, y := Mask(ms[..|ms| - 1]), ms[|ms| - 1].value;
    MaskStep(ms);
    OrHasBit(x, y, b);
    assert Has(x | y, b) <==> Has(x, b) || Has(y, b);
    assert Mask(ms) == x | y;
  }

  lemma MaskStep(ms: Table)
    requires ms != []
    ensures Mask(ms) == Mask(ms[..|ms| - 1]) | ms[|ms| - 1].value
  {
  }

  /** The mask of a prefix one longer. */
  lemma MaskPrefix(ms: Table, k: nat)
    requires 0 < k <= |ms|
    ensures Mask(ms[..k]) == Mask(ms[..k - 1]) | ms[k - 1].value
  {
    assert ms[..k][..k - 1] == ms[..k - 1];
  }

  /** Distinct single bits add without carries, so their sum is their OR. */
  lemma {:induction false} SumIsMask(ms: Table)
    requires AllSingleBits(ms) && ExclusiveEnum.ValuesDistinct(ms)
    ensures Sum(ms) == Mask(ms)
  {
    if ms != [] {
      var init, last := ms[..|ms| - 1], ms[|ms| - 1];
      SumIsMask(init);
      MaskHasBit(init, last.value);
      assert !Registered(init, last.value) by {
        forall i | 0 <= i < |init|
          ensures init[i].value != last.value
        {
          assert ms[i] == init[i];
        }
      }
      SumStep(ms);
    }
  }

  lemma SumStep(ms: Table)
    requires ms != []
    requires Sum(ms[..|ms| - 1]) == Mask(ms[..|ms| - 1])
    requires !Has(Mask(ms[..|ms| - 1]), ms[|ms| - 1].value)
    ensures Sum(ms) == Mask(ms)
  {
    AddDisjoint(Mask(ms[..|ms| - 1]), ms[|ms| - 1].value);
  }

  /** What FromValue accepts: a value with no bit outside the registered mask. */
  predicate Accepts(ms: Table, v: bv64)
  {
    v & !Mask(ms) == 0
  }

  lemma MaskBitsRegistered(ms: Table)
    requires AllSingleBits(ms)
    ensures forall b :: SingleBit(b) ==> (Has(Mask(ms), b) <==> Registered(ms, b))
  {
    forall b | SingleBit(b)
      ensures Has(Mask(ms), b) <==> Registered(ms, b)
    {
      MaskHasBit(ms, b);
    }
  }

  /** A value is accepted exactly when each of its set bits is a registered value. */
  lemma AcceptsIffBitsRegistered(ms: Table, v: bv64)
    requires AllSingleBits(ms)
    ensures Accepts(ms, v) <==> forall b :: SingleBit(b) && Has(v, b) ==> Registered(ms, b)
  {
    var m := Mask(ms);
    Within(v, m);
    assert Accepts(ms, v) <==> v & !m == 0;
    MaskBitsRegistered(ms);
    assert (forall b :: SingleBit(b) && Has(v, b) ==> Has(m, b)) <==>
           (forall b :: SingleBit(b) && Has(v, b) ==> Registered(ms, b));
  }

  /** FromValue's test against the summed mask is the acceptance test. */
  lemma SumAccepts(ms: Table, v: bv64)
    requires AllSingleBits(ms) && ExclusiveEnum.ValuesDistinct(ms)
    ensures Accepts(ms, v) <==> v & !Sum(ms) == 0
    ensures Accepts(ms, v) <==> forall b :: SingleBit(b) && Has(v, b) ==> Registered(ms, b)
  {
    SumIsMask(ms);
    AcceptsIffBitsRegistered(ms, v);
  }

  /**
   * The table RegisterPossibleValue leaves behind, or its exception: a null or
   * empty name, then a value that is 0 or has more than one bit set, then a
   * value or a name already registered.
   */
  function RegisterFilter(ms: Table, value: bv64, name: Option<string>): (r: Result<Table>)
    ensures r.Ok? <==>
              && name.Some? && name.value != "" && SingleBit(value)
              && (forall i :: 0 <= i < |ms| ==> ms[i].value != value && ms[i].name != name.value)
    ensures r.Ok? ==> r.value == ms + [ExclusiveEnum.Member(value, name.value)]
    ensures r.Ok? && AllSingleBits(ms) && ExclusiveEnum.WellFormed(ms) ==>
              AllSingleBits(r.value) && ExclusiveEnum.WellFormed(r.value)
    ensures name.None? ==> r == Err(ArgumentNull("name"))
    ensures name == Some("") ==> r == Err(Argument("name"))
    ensures name.Some? && name.value != "" && !SingleBit(value) ==> r == Err(Argument("value"))
    ensures name.Some? && name.value != "" && SingleBit(value) && (exists i :: 0 <= i < |ms| && ms[i].value == value) ==>
              r == Err(Argument("value"))
    ensures name.Some? && name.value != "" && SingleBit(value) && (forall i :: 0 <= i < |ms| ==> ms[i].value != value)
              && (exists i :: 0 <= i < |ms| && ms[i].name == name.value) ==>
              r == Err(Argument("name"))
  {
    if name.None? then Err(ArgumentNull("name"))
    else if name.value == "" then Err(Argument("name"))
    else if !SingleBit(value) then Err(Argument("value"))
    else ExclusiveEnum.Register(ms, value, name)
  }

  /** After a registration, FromValue accepts the registered bit. */
  lemma RegisteredIsAccepted(ms: Table, value: bv64, name: Option<string>)
    requires RegisterFilter(ms, value, name).Ok?
    ensures Accepts(RegisterFilter(ms, value, name).value, value)
  {
    var ms' := RegisterFilter(ms, value, name).value;
    var m := Mask(ms);
    MaskStep(ms');
    assert ms'[..|ms'| - 1] == ms;
    assert Mask(ms') == m | value;
    WithinOr(value, m);
  }

  /** `left | right`. */
  function Or(left: Filter, right: Filter): Filter
  {
    Filter(left.value | right.value)
  }

  lemma OrCommutes(a: Filter, b: Filter)
    ensures Or(a, b) == Or(b, a)
  {
  }

  lemma OrAssociates(a: Filter, b: Filter, c: Filter)
    ensures Or(Or(a, b), c) == Or(a, Or(b, c))
  {
  }

  lemma OrIdempotent(a: Filter)
    ensures Or(a, a) == a
  {
  }

  lemma OrEmpty(a: Filter)
    ensures Or(a, Empty) == a
  {
  }

  /** `|` is commutative, associative and idempotent, with the empty filter as unit. */
  lemma OrLaws(a: Filter, b: Filter, c: Filter)
    ensures Or(a, b) == Or(b, a)
    ensures Or(Or(a, b), c) == Or(a, Or(b, c))
    ensures Or(a, a) == a
    ensures Or(a, Empty) == a
  {
    OrCommutes(a, b);
    OrAssociates(a, b, c);
    OrIdempotent(a);
    OrEmpty(a);
  }

  /** A single bit is set in `a | b` exactly when it is set in `a` or in `b`. */
  lemma OrHasBits(a: Filter, b: Filter, bit: bv64)
    ensures Has(Or(a, b).value, bit) <==> Has(a.value, bit) || Has(b.value, bit)
  {
    OrHasBit(a.value, b.value, bit);
  }

  /** The names of the members whose bit is set in `v`, in registration order. */
  function Names(ms: Table, v: bv64): (names: seq<string>)
    ensures |names| <= |ms|
  {
    if ms == [] then []
    else
      var last := ms[|ms| - 1];
      Names(ms[..|ms| - 1], v) + (if Has(last.value, v) then [last.name] else [])
  }

  /** `ToString`: the names of the set bits joined by commas. */
  function ToString(ms: Table, f: Filter): string
  {
    Join(Names(ms, f.value), ',')
  }

  /** When no registered name holds a comma, splitting `ToString` at commas gives the names back. */
  lemma ToStringSplits(ms: Table, f: Filter)
    requires forall i :: 0 <= i < |ms| ==> ',' !in ms[i].name
    requires Names(ms, f.value) != []
    ensures Split(ToString(ms, f), ',') == Names(ms, f.value)
  {
    var names := Names(ms, f.value);
    forall p | p in names
      ensures ',' !in p
    {
      NamesListed(ms, f.value, p);
    }
    SplitJoin(names, ',');
  }

  /** A name is listed exactly when its member's bit is set. */
  lemma {:induction false} NamesListed(ms: Table, v: bv64, name: string)
    ensures name in Names(ms, v) <==> exists i :: 0 <= i < |ms| && ms[i].name == name && Has(ms[i].value, v)
  {
    if ms != [] {
      var init := ms[..|ms| - 1];
      NamesListed(init, v, name);
      if exists i :: 0 <= i < |init| && init[i].name == name && Has(init[i].value, v) {
        var i :| 0 <= i < |init| && init[i].name == name && Has(init[i].value, v);
        assert ms[i] == init[i];
      }
      if exists i :: 0 <= i < |ms| && ms[i].name == name && Has(ms[i].value, v) {
        var i :| 0 <= i < |ms| && ms[i].name == name && Has(ms[i].value, v);
        if i < |init| {
          assert init[i] == ms[i];
        }
      }
    }
  }

  /** A registered member on its own renders as just its name. */
  lemma {:induction false} NamesOfMember(ms: Table, k: nat)
    requires AllSingleBits(ms) && ExclusiveEnum.ValuesDistinct(ms) && k < |ms|
    ensures Names(ms, ms[k].value) == [ms[k].name]
  {
    var init, last := ms[..|ms| - 1], ms[|ms| - 1];
    if k == |ms| - 1 {
      NamesNone(init, last.value);
    } else {
      assert init[k] == ms[k];
      NamesOfMember(init, k);
      DistinctBitsDisjoint(last.value, ms[k].value);
    }
  }

  /** The names of all members, in registration order. */
  function AllNames(ms: Table): (names: seq<string>)
    ensures |names| == |ms|
    ensures forall i :: 0 <= i < |ms| ==> names[i] == ms[i].name
  {
    if ms == [] then [] else AllNames(ms[..|ms| - 1]) + [ms[|ms| - 1].name]
  }

  /** A value that has a bit in common with every member renders every name, in registration order. */
  lemma {:induction false} NamesCovering(ms: Table, v: bv64)
    requires forall i :: 0 <= i < |ms| ==> Has(ms[i].value, v)
    ensures Names(ms, v) == AllNames(ms)
  {
    if ms != [] {
      var init := ms[..|ms| - 1];
      assert forall i :: 0 <= i < |init| ==> init[i] == ms[i];
      NamesCovering(init, v);
    }
  }

  /** No member of a table is named for a bit none of its values has. */
  lemma {:induction false} NamesNone(ms: Table, b: bv64)
    requires AllSingleBits(ms) && SingleBit(b)
    requires forall i :: 0 <= i < |ms| ==> ms[i].value != b
    ensures Names(ms, b) == []
  {
    if ms != [] {
      NamesNone(ms[..|ms| - 1], b);
      DistinctBitsDisjoint(ms[|ms| - 1].value, b);
    }
  }

  /**
   * The loop of FromValue: walks the 64 bits with a shifting mask and stops at
   * the first set bit of `value` that `registeredMask` lacks.
   */
  method CheckBits(value: bv64, registeredMask: bv64) returns (ok: bool)
    ensures ok <==> value & !registeredMask == 0
  {
    var mask: bv64 := 1;
    ghost var n: bv7 := 0;
    BitFacts(0);
    while mask != 0
      invariant n <= 64 && mask == Bit(n)
      invariant CheckedBelow(value, registeredMask, mask)
      decreases 64 - n
    {
      BitFacts(n);
      if Has(value, mask) && !Has(registeredMask, mask) {
        Outside(value, registeredMask, mask);
        return false;
      }
      CheckStep(value, registeredMask, mask);
      mask := mask << 1;
      n := n + 1;
    }
    BitFacts(n);
    AllChecked(value, registeredMask, mask);
    return true;
  }

  /**
   * The registered members of one filter type: an ExclusiveEnum table whose
   * values are all single bits.
   */
  class Registry {
    const container: ExclusiveEnum.Registry<bv64>

    ghost predicate Valid()
      reads this, container
    {
      container.Valid() && AllSingleBits(container.members)
    }

    constructor ()
      ensures Valid() && fresh(container) && container.members == []
    {
      container := new ExclusiveEnum.Registry<bv64>();
    }

    /** RegisterPossibleValue: appends the bit, or throws leaving the table unchanged. */
    method RegisterPossibleValue(value: bv64, name: Option<string>) returns (r: Result<Filter>)
      requires Valid()
      modifies container
      ensures Valid()
      ensures RegisterFilter(old(container.members), value, name).Ok? ==>
                && container.members == RegisterFilter(old(container.members), value, name).value
                && r == Ok(Filter(value))
      ensures RegisterFilter(old(container.members), value, name).Err? ==>
                && container.members == old(container.members)
                && r == Err(RegisterFilter(old(container.members), value, name).error)
    {
      if name.None? {
        return Err(ArgumentNull("name"));
      }
      if name.value == "" {
        return Err(Argument("name"));
      }
      if !SingleBit(value) {
        return Err(Argument("value"));
      }
      var member := container.RegisterPossibleValue(value, name);
      match member
      case Ok(m) => r := Ok(Filter(m.value));
      case Err(e) => r := Err(e);
    }

    /**
     * FromValue: sums the registered values into a mask and accepts the value
     * when none of its bits falls outside that mask.
     */
    method FromValue(value: bv64) returns (r: Result<Filter>)
      requires Valid()
      ensures r.Ok? <==> Accepts(container.members, value)
      ensures r.Ok? <==> forall b :: SingleBit(b) && Has(value, b) ==> Registered(container.members, b)
      ensures r.Ok? ==> r.value == Filter(value)
      ensures r.Err? ==> r.error == Argument("value")
    {
      var registeredMask := Sum(container.members);
      var ok := CheckBits(value, registeredMask);
      SumAccepts(container.members, value);
      if !ok {
        return Err(Argument("value"));
      }
      return Ok(Filter(value));
    }
  }
}
