/**
 * ExclusiveEnum<T>: a per-type, append-only table of (value, name) members.
 * Each enum type owns one table (a static list in the library); here one
 * `Registry` object stands for that table. Registration rejects a value or a
 * name that is already present, so lookups by value and by name find at most
 * one member.
 */
module ExclusiveEnum {
  import opened Errors

  /** One registered member: the value and the name given at registration. */
  datatype Member<V> = Member(value: V, name: string)

  ghost predicate ValuesDistinct<V>(ms: seq<Member<V>>)
  {
    forall i, j :: 0 <= i < j < |ms| ==> ms[i].value != ms[j].value
  }

  ghost predicate NamesDistinct<V>(ms: seq<Member<V>>)
  {
    forall i, j :: 0 <= i < j < |ms| ==> ms[i].name != ms[j].name
  }

  /** The table invariant: unique values, unique non-empty names. */
  ghost predicate WellFormed<V>(ms: seq<Member<V>>)
  {
    && ValuesDistinct(ms)
    && NamesDistinct(ms)
    && (forall i :: 0 <= i < |ms| ==> ms[i].name != "")
  }

  /** The position of the member with value `value` (`member => member.Value == value`). */
  function FindValue<V(==)>(ms: seq<Member<V>>, value: V): (r: Option<nat>)
    ensures r.Some? ==> r.value < |ms| && ms[r.value].value == value
    ensures r.None? ==> forall i :: 0 <= i < |ms| ==> ms[i].value != value
  {
    if ms == [] then None
    else if ms[0].value == value then Some(0)
    else match FindValue(ms[1..], value)
      case None => None
      case Some(i) => Some(i + 1)
  }

  /** The position of the member named `name` (`member => member.Name == name`). */
  function FindName<V>(ms: seq<Member<V>>, name: string): (r: Option<nat>)
    ensures r.Some? ==> r.value < |ms| && ms[r.value].name == name
    ensures r.None? ==> forall i :: 0 <= i < |ms| ==> ms[i].name != name
  {
    if ms == [] then None
    else if ms[0].name == name then Some(0)
    else match FindName(ms[1..], name)
      case None => None
      case Some(i) => Some(i + 1)
  }

  /**
   * The table that RegisterPossibleValue leaves behind, or the exception it
   * throws: a null or empty name, then a value already present, then a name
   * already present, are rejected in that order; otherwise the member is
   * appended.
   */
  function Register<V(==)>(ms: seq<Member<V>>, value: V, name: Option<string>): (r: Result<seq<Member<V>>>)
    ensures r.Ok? <==>
              && name.Some? && name.value != ""
              && (forall i :: 0 <= i < |ms| ==> ms[i].value != value && ms[i].name != name.value)
    ensures r.Ok? ==> r.value == ms + [Member(value, name.value)]
    ensures r.Ok? && WellFormed(ms) ==> WellFormed(r.value)
    ensures name.None? ==> r == Err(ArgumentNull("name"))
    ensures name == Some("") ==> r == Err(Argument("name"))
    ensures name.Some? && name.value != "" && (exists i :: 0 <= i < |ms| && ms[i].value == value) ==>
              r == Err(Argument("value"))
    ensures name.Some? && name.value != "" && (forall i :: 0 <= i < |ms| ==> ms[i].value != value)
              && (exists i :: 0 <= i < |ms| && ms[i].name == name.value) ==>
              r == Err(Argument("name"))
    ensures r.Err? ==> r.error in {ArgumentNull("name"), Argument("name"), Argument("value")}
  {
    if name.None? then Err(ArgumentNull("name"))
    else if name.value == "" then Err(Argument("name"))
    else if FindValue(ms, value).Some? then Err(Argument("value"))
    else if FindName(ms, name.value).Some? then Err(Argument("name"))
    else Ok(ms + [Member(value, name.value)])
  }

  /** `==` on members: equal values. */
  predicate Equal<V(==)>(a: Member<V>, b: Member<V>)
  {
    a.value == b.value
  }

  /** In a well-formed table, two members are `==` exactly when they are the same member. */
  lemma EqualIsIdentity<V>(ms: seq<Member<V>>, a: Member<V>, b: Member<V>)
    requires ValuesDistinct(ms)
    requires a in ms && b in ms
    ensures a.value == b.value <==> a == b
  {
    var i :| 0 <= i < |ms| && ms[i] == a;
    var j :| 0 <= j < |ms| && ms[j] == b;
    if a.value == b.value && i != j {
      if i < j { assert ms[i].value != ms[j].value; } else { assert ms[j].value != ms[i].value; }
    }
  }

  /** In a table with distinct names, two members with the same name are the same member. */
  lemma SameNameIsIdentity<V>(ms: seq<Member<V>>, a: Member<V>, b: Member<V>)
    requires NamesDistinct(ms)
    requires a in ms && b in ms
    ensures a.name == b.name <==> a == b
  {
    var i :| 0 <= i < |ms| && ms[i] == a;
    var j :| 0 <= j < |ms| && ms[j] == b;
    if a.name == b.name && i != j {
      if i < j { assert ms[i].name != ms[j].name; } else { assert ms[j].name != ms[i].name; }
    }
  }

  /** The registered members of one enum type. */
  class Registry<V(==)> {
    var members: seq<Member<V>>

    ghost predicate Valid()
      reads this
    {
      WellFormed(members)
    }

    constructor ()
      ensures Valid() && members == []
    {
      members := [];
    }

    /**
     * RegisterPossibleValue: appends a member unless the name is null or
     * empty or the value or the name is already registered; returns the
     * member `FromValue(value)` then yields.
     */
    method RegisterPossibleValue(value: V, name: Option<string>) returns (r: Result<Member<V>>)
      requires Valid()
      modifies this
      ensures Valid()
      ensures Register(old(members), value, name).Ok? ==>
                && members == old(members) + [Member(value, name.value)]
                && r == Ok(Member(value, name.value))
                && r == FromValue(value)
      ensures Register(old(members), value, name).Err? ==>
                && members == old(members)
                && r == Err(Register(old(members), value, name).error)
    {
      if name.None? {
        return Err(ArgumentNull("name"));
      }
      if name.value == "" {
        return Err(Argument("name"));
      }
      if FindValue(members, value).Some? {
        return Err(Argument("value"));
      }
      if FindName(members, name.value).Some? {
        return Err(Argument("name"));
      }
      members := members + [Member(value, name.value)];
      assert members[|members| - 1] == Member(value, name.value);
      r := FromValue(value);
    }

    /** FromValue: the one member with this value, or ArgumentOutOfRange. */
    function FromValue(value: V): (r: Result<Member<V>>)
      reads this
      requires Valid()
      ensures r.Ok? <==> exists i :: 0 <= i < |members| && members[i].value == value
      ensures r.Ok? ==> r.value in members && r.value.value == value
      ensures r.Ok? ==> forall m :: m in members && m.value == value ==> m == r.value
      ensures r.Err? ==> r.error == ArgumentOutOfRange("value")
    {
      match FindValue(members, value)
      case None => Err(ArgumentOutOfRange("value"))
      case Some(i) =>
        assert forall m :: m in members && m.value == value ==> m == members[i] by {
          forall m | m in members && m.value == value
            ensures m == members[i]
          {
            EqualIsIdentity(members, m, members[i]);
          }
        }
        Ok(members[i])
    }

    /** FromName: the one member with this name; a null or empty name is rejected first. */
    function FromName(name: Option<string>): (r: Result<Member<V>>)
      reads this
      requires Valid()
      ensures name.None? ==> r == Err(ArgumentNull("name"))
      ensures name == Some("") ==> r == Err(Argument("name"))
      ensures name.Some? && name.value != "" ==>
                (r.Ok? <==> exists i :: 0 <= i < |members| && members[i].name == name.value)
      ensures r.Ok? ==> r.value in members && r.value.name == name.value
      ensures r.Ok? ==> forall m :: m in members && m.name == name.value ==> m == r.value
      ensures r.Err? && name.Some? && name.value != "" ==> r.error == ArgumentOutOfRange("name")
    {
      if name.None? then Err(ArgumentNull("name"))
      else if name.value == "" then Err(Argument("name"))
      else match FindName(members, name.value)
        case None => Err(ArgumentOutOfRange("name"))
        case Some(i) =>
          assert forall m :: m in members && m.name == name.value ==> m == members[i] by {
            forall m | m in members && m.name == name.value
              ensures m == members[i]
            {
              SameNameIsIdentity(members, m, members[i]);
            }
          }
          Ok(members[i])
    }
  }
}
