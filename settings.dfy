/**
 * Settings: the application access rights, a FilteredEnum whose seventeen
 * members are registered by static field initialisers in declaration order,
 * plus the two combinations `All` and `AllOffline`.
 */
module Settings {
  import opened Errors
  import opened Bits
  import opened FilteredEnum
  import ExclusiveEnum

  const Notify: bv64 := 1 << 0
  const Friends: bv64 := 1 << 1
  const Photos: bv64 := 1 << 2
  const Audio: bv64 := 1 << 3
  const Video: bv64 := 1 << 4
  const Pages: bv64 := 1 << 7
  const AddLinkToLeftMenu: bv64 := 1 << 8
  const Status: bv64 := 1 << 10
  const Notes: bv64 := 1 << 11
  const Messages: bv64 := 1 << 12
  const Wall: bv64 := 1 << 13
  const Ads: bv64 := 1 << 15
  const Documents: bv64 := 1 << 17
  const Groups: bv64 := 1 << 18
  const Notifications: bv64 := 1 << 19
  const Statistic: bv64 := 1 << 20
  const Offline: bv64 := 1 << 16

  /**
   * The table after type initialisation: the registrations in the order the
   * static initialisers run (`Offline`, bit 16, comes last).
   */
  const Members: Table := [
    ExclusiveEnum.Member(Notify, "notify"),
    ExclusiveEnum.Member(Friends, "friends"),
    ExclusiveEnum.Member(Photos, "photos"),
    ExclusiveEnum.Member(Audio, "audio"),
    ExclusiveEnum.Member(Video, "video"),
    ExclusiveEnum.Member(Pages, "pages"),
    ExclusiveEnum.Member(AddLinkToLeftMenu, "addLinkToLeftMenu"),
    ExclusiveEnum.Member(Status, "status"),
    ExclusiveEnum.Member(Notes, "notes"),
    ExclusiveEnum.Member(Messages, "messages"),
    ExclusiveEnum.Member(Wall, "wall"),
    ExclusiveEnum.Member(Ads, "ads"),
    ExclusiveEnum.Member(Documents, "docs"),
    ExclusiveEnum.Member(Groups, "groups"),
    ExclusiveEnum.Member(Notifications, "notifications"),
    ExclusiveEnum.Member(Statistic, "stats"),
    ExclusiveEnum.Member(Offline, "offline")
  ]

  /** Runs the registrations `ds` in order against table `ms`, stopping at the first that throws. */
  function RegisterAll(ms: Table, ds: Table): (r: Result<Table>)
    decreases |ds|
  {
    if ds == [] then Ok(ms)
    else
      match RegisterFilter(ms, ds[0].value, Some(ds[0].name))
      case Err(e) => Err(e)
      case Ok(ms') => RegisterAll(ms', ds[1..])
  }

  /** One registration of a member that is fresh for the table succeeds and appends it. */
  lemma RegisterFresh(ms: Table, m: ExclusiveEnum.Member<bv64>)
    requires ExclusiveEnum.WellFormed(ms + [m]) && SingleBit(m.value)
    ensures RegisterFilter(ms, m.value, Some(m.name)) == Ok(ms + [m])
  {
    var all := ms + [m];
    assert all[|ms|] == m;
    forall i | 0 <= i < |ms|
      ensures ms[i].value != m.value && ms[i].name != m.name
    {
      assert all[i] == ms[i];
    }
  }

  /**
   * Registrations of fresh single bits under fresh non-empty names all
   * succeed, and append their members in order.
   */
  lemma {:induction false} RegisterAllFresh(ms: Table, ds: Table)
    requires ExclusiveEnum.WellFormed(ms + ds) && AllSingleBits(ds)
    ensures RegisterAll(ms, ds) == Ok(ms + ds)
    decreases |ds|
  {
    if ds != [] {
      var ms' := ms + [ds[0]];
      assert ms' + ds[1..] == ms + ds;
      WellFormedPrefix(ms + ds, |ms'|);
      assert (ms + ds)[..|ms'|] == ms';
      assert SingleBit(ds[0].value);
      RegisterFresh(ms, ds[0]);
      assert AllSingleBits(ds[1..]) by {
        forall i | 0 <= i < |ds| - 1 ensures SingleBit(ds[1..][i].value) {
          assert ds[1..][i] == ds[i + 1];
        }
      }
      RegisterAllFresh(ms', ds[1..]);
      assert RegisterAll(ms, ds) == RegisterAll(ms', ds[1..]);
    } else {
      assert ms + ds == ms;
    }
  }

  /** A prefix of a well-formed table is well formed. */
  lemma WellFormedPrefix(ms: Table, k: nat)
    requires ExclusiveEnum.WellFormed(ms) && k <= |ms|
    ensures ExclusiveEnum.WellFormed(ms[..k])
  {
  }

  lemma MembersValuesDistinct()
    ensures ExclusiveEnum.ValuesDistinct(Members)
  {
  }

  lemma MembersNamesDistinct()
    ensures ExclusiveEnum.NamesDistinct(Members)
  {
  }

  lemma MembersSingleBits()
    ensures AllSingleBits(Members)
  {
  }

  /** Type initialisation succeeds: every registration in the table is accepted, in order. */
  lemma InitialisationSucceeds()
    ensures RegisterAll([], Members) == Ok(Members)
  {
    MembersValuesDistinct();
    MembersNamesDistinct();
    MembersSingleBits();
    assert [] + Members == Members;
    RegisterAllFresh([], Members);
  }

  /** `All`: the sixteen time-limited rights, combined with `|` in declaration order. */
  const All: Filter :=
    Or(Or(Or(Or(Or(Or(Or(Or(Or(Or(Or(Or(Or(Or(Or(
      Filter(Notify), Filter(Friends)), Filter(Photos)), Filter(Audio)), Filter(Video)),
      Filter(Documents)), Filter(Notes)), Filter(Pages)), Filter(Status)),
      Filter(AddLinkToLeftMenu)), Filter(Wall)), Filter(Groups)), Filter(Messages)),
      Filter(Notifications)), Filter(Statistic)), Filter(Ads))

  /** `AllOffline`: `All | Offline`. */
  const AllOffline: Filter := Or(All, Filter(Offline))

  /** One more registration adds its bit to the mask of the registrations before it. */
  lemma MaskAt(ms: Table, k: nat, before: bv64, after: bv64)
    requires 0 < k <= |ms|
    requires Mask(ms[..k - 1]) == before
    requires before | ms[k - 1].value == after
    ensures Mask(ms[..k]) == after
  {
    MaskPrefix(ms, k);
  }

  lemma MaskOfFirst16()
    ensures Mask(Members[..16]) == 0x1E_BD9F
  {
    assert Members[..0] == [];
    MaskAt(Members, 1, 0, 0x1);
    MaskAt(Members, 2, 0x1, 0x3);
    MaskAt(Members, 3, 0x3, 0x7);
    MaskAt(Members, 4, 0x7, 0xF);
    MaskAt(Members, 5, 0xF, 0x1F);
    MaskAt(Members, 6, 0x1F, 0x9F);
    MaskAt(Members, 7, 0x9F, 0x19F);
    MaskAt(Members, 8, 0x19F, 0x59F);
    MaskAt(Members, 9, 0x59F, 0xD9F);
    MaskAt(Members, 10, 0xD9F, 0x1D9F);
    MaskAt(Members, 11, 0x1D9F, 0x3D9F);
    MaskAt(Members, 12, 0x3D9F, 0xBD9F);
    MaskAt(Members, 13, 0xBD9F, 0x2_BD9F);
    MaskAt(Members, 14, 0x2_BD9F, 0x6_BD9F);
    MaskAt(Members, 15, 0x6_BD9F, 0xE_BD9F);
    MaskAt(Members, 16, 0xE_BD9F, 0x1E_BD9F);
  }

  /** The registered bits are those of `AllOffline`: bits 0-4, 7, 8, 10-13 and 15-20. */
  lemma MaskOfMembers()
    ensures Mask(Members) == 0x1F_BD9F
  {
    MaskOfFirst16();
    MaskPrefix(Members, 17);
    assert Members[..17] == Members;
  }

  /** `All` is the OR of every registered bit but the last, `Offline`. */
  lemma AllIsOthers()
    ensures All.value == Mask(Members[..16])
    ensures Members[16].value == Offline
  {
    MaskOfFirst16();
  }

  /** `All` does not grant `Offline`. */
  lemma AllLacksOffline()
    ensures !Has(All.value, Offline)
  {
  }

  /** `AllOffline` is `All` with `Offline` added: every registered bit, and only those. */
  lemma AllOfflineIsAllRegistered()
    ensures AllOffline == Or(All, Filter(Offline))
    ensures AllOffline.value == Mask(Members)
    ensures Accepts(Members, AllOffline.value)
  {
    MaskOfMembers();
  }

  /**
   * A raw value with any bit outside the registered ones (bits 5, 6, 9, 14 and
   * 21-63) is refused by FromValue, and one without such a bit is accepted.
   */
  lemma UnregisteredBitsRefused(v: bv64)
    ensures Accepts(Members, v) <==> v & !0x1F_BD9F == 0
  {
    MaskOfMembers();
  }

  /** Each of bits 5, 6, 9, 14 and 21-63 is unregistered, so a value holding it is refused. */
  lemma UnregisteredBit(n: bv7, v: bv64)
    requires n == 5 || n == 6 || n == 9 || n == 14 || 21 <= n < 64
    requires Has(v, Bit(n))
    ensures !Registered(Members, Bit(n))
    ensures !Accepts(Members, v)
  {
    BitFacts(n);
    MaskOfMembers();
    MembersSingleBits();
    MaskHasBit(Members, Bit(n));
    OutsideMask(n);
    Outside(v, Mask(Members), Bit(n));
  }

  lemma OutsideMask(n: bv7)
    requires n == 5 || n == 6 || n == 9 || n == 14 || 21 <= n < 64
    ensures !Has(0x1F_BD9F, Bit(n))
  {
  }

  /** Every registered member has its bit in `AllOffline`. */
  lemma AllOfflineCoversMembers()
    ensures forall i :: 0 <= i < |Members| ==> Has(Members[i].value, AllOffline.value)
  {
  }

  /**
   * `AllOffline.ToString()` names every right in registration order, so
   * "offline" (bit 16) comes after "stats" (bit 20).
   */
  lemma AllOfflineNames()
    ensures Names(Members, AllOffline.value) ==
              ["notify", "friends", "photos", "audio", "video", "pages", "addLinkToLeftMenu",
               "status", "notes", "messages", "wall", "ads", "docs", "groups",
               "notifications", "stats", "offline"]
  {
    AllOfflineCoversMembers();
    NamesCovering(Members, AllOffline.value);
  }
}
