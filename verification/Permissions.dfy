/**
 Channel permissions: a built-in base, the bits of the assigned roles, then the overrides of
 the channel, combined with the operations of 64-bit words. The computation is written once
 over any kind of word with a zero, an `or` and an `and not`; what it decides is proved from
 three laws about testing a word, and 64-bit words obey the laws at each of their bits.
 */
module Permissions {
  import opened Outcomes
  import T = Text

  datatype Permission =
    | ViewChannel | SendMessages | ManageMessages | ManageChannels | ManageRoles | InviteMembers
    | ManageSpace | ConnectVoice | Speak | ShareScreen | UseVideo

  function Bit(p: Permission): bv64 {
    match p
    case ViewChannel => 0x1
    case SendMessages => 0x2
    case ManageMessages => 0x4
    case ManageChannels => 0x8
    case ManageRoles => 0x10
    case InviteMembers => 0x20
    case ManageSpace => 0x40
    case ConnectVoice => 0x80
    case Speak => 0x100
    case ShareScreen => 0x200
    case UseVideo => 0x400
  }

  const ALL_MINIMAL_PERMISSIONS: bv64 := 0x7FF

  datatype TargetKind = RoleTarget | MemberTarget

  datatype Override<W> = Override(channelId: nat, kind: TargetKind, targetId: nat, allow: W, deny: W)

  datatype Role<W> = Role(id: nat, permissions: W)

  /** The role of a membership; any other name grants nothing. */
  datatype SpaceRole = Owner | Admin | Member | Guest | Unknown

  predicate IsAdmin(role: SpaceRole) {
    role == Owner || role == Admin
  }

  function BuiltinPermissions(role: SpaceRole): bv64 {
    match role
    case Owner => ALL_MINIMAL_PERMISSIONS
    case Admin => ALL_MINIMAL_PERMISSIONS
    case Member => 0x3
    case Guest => 0x1
    case Unknown => 0
  }

  // ---- the rule for one test ----

  predicate ForRole<W>(o: Override<W>, roleIds: seq<nat>) {
    o.kind.RoleTarget? && o.targetId in roleIds
  }

  predicate ForMember<W>(o: Override<W>, userId: nat) {
    o.kind.MemberTarget? && o.targetId == userId
  }

  ghost predicate RoleAllows<W>(has: W -> bool, roleIds: seq<nat>, overrides: seq<Override<W>>) {
    exists i :: 0 <= i < |overrides| &&
      overrides[i].kind.RoleTarget? && overrides[i].targetId in roleIds && has(overrides[i].allow)
  }

  ghost predicate RoleDenies<W>(has: W -> bool, roleIds: seq<nat>, overrides: seq<Override<W>>) {
    exists i :: 0 <= i < |overrides| &&
      overrides[i].kind.RoleTarget? && overrides[i].targetId in roleIds && has(overrides[i].deny)
  }

  ghost predicate MemberAllows<W>(has: W -> bool, userId: nat, overrides: seq<Override<W>>) {
    exists i :: 0 <= i < |overrides| &&
      overrides[i].kind.MemberTarget? && overrides[i].targetId == userId && has(overrides[i].allow)
  }

  ghost predicate MemberDenies<W>(has: W -> bool, userId: nat, overrides: seq<Override<W>>) {
    exists i :: 0 <= i < |overrides| &&
      overrides[i].kind.MemberTarget? && overrides[i].targetId == userId && has(overrides[i].deny)
  }

  /** Member deny, then member allow, then role deny, then role allow, then the base. */
  ghost predicate Granted<W>(has: W -> bool, base: bool, userId: nat, roleIds: seq<nat>, overrides: seq<Override<W>>)
  {
    if MemberDenies(has, userId, overrides) then false
    else if MemberAllows(has, userId, overrides) then true
    else if RoleDenies(has, roleIds, overrides) then false
    else if RoleAllows(has, roleIds, overrides) then true
    else base
  }

  // ---- the computation, over any kind of word ----

  datatype Ops<!W> = Ops(zero: W, or: (W, W) -> W, andNot: (W, W) -> W)

  /** The laws of a test that looks at one bit. */
  ghost predicate Laws<W(!new)>(ops: Ops<W>, has: W -> bool) {
    && !has(ops.zero)
    && (forall x, y :: has(ops.or(x, y)) <==> has(x) || has(y))
    && (forall x, y :: has(ops.andNot(x, y)) <==> has(x) && !has(y))
  }

  /** The four masks the loop over the overrides fills. */
  datatype Masks<W> = Masks(roleAllow: W, roleDeny: W, memberAllow: W, memberDeny: W)

  function AddOverride<W>(ops: Ops<W>, masks: Masks<W>, userId: nat, roleIds: seq<nat>, o: Override<W>): Masks<W> {
    if ForRole(o, roleIds) then
      masks.(roleAllow := ops.or(masks.roleAllow, o.allow), roleDeny := ops.or(masks.roleDeny, o.deny))
    else if ForMember(o, userId) then
      masks.(memberAllow := ops.or(masks.memberAllow, o.allow), memberDeny := ops.or(masks.memberDeny, o.deny))
    else masks
  }

  function MasksOf<W>(ops: Ops<W>, userId: nat, roleIds: seq<nat>, overrides: seq<Override<W>>): Masks<W> {
    if overrides == [] then Masks(ops.zero, ops.zero, ops.zero, ops.zero)
    else
      AddOverride(ops, MasksOf(ops, userId, roleIds, overrides[..|overrides| - 1]), userId, roleIds, overrides[|overrides| - 1])
  }

  /** Denied bits go, then allowed bits that are not denied come in. */
  function Masked<W>(ops: Ops<W>, x: W, allow: W, deny: W): W {
    ops.or(ops.andNot(x, deny), ops.andNot(allow, deny))
  }

  function Applied<W>(ops: Ops<W>, base: W, userId: nat, roleIds: seq<nat>, overrides: seq<Override<W>>): W {
    var masks := MasksOf(ops, userId, roleIds, overrides);
    Masked(ops, Masked(ops, base, masks.roleAllow, masks.roleDeny), masks.memberAllow, masks.memberDeny)
  }

  method ApplyOverrides<W>(ops: Ops<W>, base: W, userId: nat, roleIds: seq<nat>, overrides: seq<Override<W>>) returns (effective: W)
    ensures effective == Applied(ops, base, userId, roleIds, overrides)
  {
    var roleAllow, roleDeny, memberAllow, memberDeny := ops.zero, ops.zero, ops.zero, ops.zero;
    for i := 0 to |overrides|
      invariant Masks(roleAllow, roleDeny, memberAllow, memberDeny) == MasksOf(ops, userId, roleIds, overrides[..i])
    {
      var o := overrides[i];
      assert overrides[..i + 1][..i] == overrides[..i];
      if o.kind.RoleTarget? && o.targetId in roleIds {
        roleAllow := ops.or(roleAllow, o.allow);
        roleDeny := ops.or(roleDeny, o.deny);
      } else if o.kind.MemberTarget? && o.targetId == userId {
        memberAllow := ops.or(memberAllow, o.allow);
        memberDeny := ops.or(memberDeny, o.deny);
      }
    }
    assert overrides[..|overrides|] == overrides;
    effective := ops.andNot(base, roleDeny);
    effective := ops.or(effective, ops.andNot(roleAllow, roleDeny));
    effective := ops.andNot(effective, memberDeny);
    effective := ops.or(effective, ops.andNot(memberAllow, memberDeny));
  }

  /** One more override in front of any question about the list. */
  lemma LastOverride<W>(has: W -> bool, userId: nat, roleIds: seq<nat>, overrides: seq<Override<W>>)
    requires overrides != []
    ensures var init, o := overrides[..|overrides| - 1], overrides[|overrides| - 1];
            && (RoleAllows(has, roleIds, overrides) <==> RoleAllows(has, roleIds, init) || (ForRole(o, roleIds) && has(o.allow)))
            && (RoleDenies(has, roleIds, overrides) <==> RoleDenies(has, roleIds, init) || (ForRole(o, roleIds) && has(o.deny)))
            && (MemberAllows(has, userId, overrides) <==> MemberAllows(has, userId, init) || (ForMember(o, userId) && has(o.allow)))
            && (MemberDenies(has, userId, overrides) <==> MemberDenies(has, userId, init) || (ForMember(o, userId) && has(o.deny)))
  {
    var init := overrides[..|overrides| - 1];
    assert forall i :: 0 <= i < |init| ==> init[i] == overrides[i];
  }

  lemma {:induction false} MasksSay<W(!new)>(ops: Ops<W>, has: W -> bool, userId: nat, roleIds: seq<nat>, overrides: seq<Override<W>>)
    requires Laws(ops, has)
    ensures var masks := MasksOf(ops, userId, roleIds, overrides);
            && (has(masks.roleAllow) <==> RoleAllows(has, roleIds, overrides))
            && (has(masks.roleDeny) <==> RoleDenies(has, roleIds, overrides))
            && (has(masks.memberAllow) <==> MemberAllows(has, userId, overrides))
            && (has(masks.memberDeny) <==> MemberDenies(has, userId, overrides))
  {
    if overrides != [] {
      MasksSay(ops, has, userId, roleIds, overrides[..|overrides| - 1]);
      LastOverride(has, userId, roleIds, overrides);
    }
  }

  /** Collecting and applying the masks decides every test that obeys the laws by the rule. */
  lemma RuleRefined<W(!new)>(ops: Ops<W>, has: W -> bool, base: W, userId: nat, roleIds: seq<nat>, overrides: seq<Override<W>>)
    requires Laws(ops, has)
    ensures has(Applied(ops, base, userId, roleIds, overrides)) <==> Granted(has, has(base), userId, roleIds, overrides)
  {
    MasksSay(ops, has, userId, roleIds, overrides);
  }

  /** The same overrides for this user, in any order, any number of times, with any others between them. */
  ghost predicate SameForUser<W(!new)>(userId: nat, roleIds: seq<nat>, xs: seq<Override<W>>, ys: seq<Override<W>>) {
    forall o :: ForRole(o, roleIds) || ForMember(o, userId) ==> (o in xs <==> o in ys)
  }

  lemma RuleIgnoresOrder<W(!new)>(has: W -> bool, base: bool, userId: nat, roleIds: seq<nat>, xs: seq<Override<W>>, ys: seq<Override<W>>)
    requires SameForUser(userId, roleIds, xs, ys)
    ensures Granted(has, base, userId, roleIds, xs) <==> Granted(has, base, userId, roleIds, ys)
  {
    OneWay(has, userId, roleIds, xs, ys);
    OneWay(has, userId, roleIds, ys, xs);
  }

  lemma OneWay<W(!new)>(has: W -> bool, userId: nat, roleIds: seq<nat>, xs: seq<Override<W>>, ys: seq<Override<W>>)
    requires forall o :: (ForRole(o, roleIds) || ForMember(o, userId)) && o in xs ==> o in ys
    ensures RoleAllows(has, roleIds, xs) ==> RoleAllows(has, roleIds, ys)
    ensures RoleDenies(has, roleIds, xs) ==> RoleDenies(has, roleIds, ys)
    ensures MemberAllows(has, userId, xs) ==> MemberAllows(has, userId, ys)
    ensures MemberDenies(has, userId, xs) ==> MemberDenies(has, userId, ys)
  {
    forall i | 0 <= i < |xs| && (ForRole(xs[i], roleIds) || ForMember(xs[i], userId)) ensures xs[i] in ys { assert xs[i] in xs; }
  }

  // ---- 64-bit words ----

  /** A word with a single one-bit. */
  predicate IsBit(m: bv64) {
    m != 0 && m & (m - 1) == 0
  }

  predicate Has(word: bv64, m: bv64) {
    word & m != 0
  }

  function WordOps(): Ops<bv64> {
    Ops(0, (x: bv64, y: bv64) => x | y, (x: bv64, y: bv64) => x & !y)
  }

  /** The test for one bit. */
  function WordHas(m: bv64): bv64 -> bool {
    (word: bv64) => Has(word, m)
  }

  lemma OrDistributes(x: bv64, y: bv64, m: bv64)
    ensures (x | y) & m == (x & m) | (y & m)
  {
  }

  lemma OrIsZero(x: bv64, y: bv64)
    ensures x | y == 0 <==> x == 0 && y == 0
  {
  }

  lemma HasOr(x: bv64, y: bv64, m: bv64)
    ensures Has(x | y, m) <==> Has(x, m) || Has(y, m)
  {
    OrDistributes(x, y, m);
    OrIsZero(x & m, y & m);
  }

  lemma AllOrNothing(x: bv64, m: bv64)
    requires IsBit(m)
    ensures x & m == 0 || x & m == m
  {
  }

  lemma AndNotDistributes(x: bv64, y: bv64, m: bv64)
    ensures (x & !y) & m == (x & m) & !(y & m)
  {
  }

  lemma HasAndNot(x: bv64, y: bv64, m: bv64)
    requires IsBit(m)
    ensures Has(x & !y, m) <==> Has(x, m) && !Has(y, m)
  {
    AllOrNothing(x, m);
    AllOrNothing(y, m);
    AndNotDistributes(x, y, m);
  }

  lemma OrIs(x: bv64, y: bv64)
    ensures WordOps().or(x, y) == x | y
  {
  }

  lemma AndNotIs(x: bv64, y: bv64)
    ensures WordOps().andNot(x, y) == x & !y
  {
  }

  lemma TestIs(m: bv64, x: bv64)
    ensures WordHas(m)(x) == Has(x, m)
  {
  }

  lemma OrLaw(m: bv64, x: bv64, y: bv64)
    ensures WordHas(m)(WordOps().or(x, y)) <==> WordHas(m)(x) || WordHas(m)(y)
  {
    OrIs(x, y);
    TestIs(m, x | y);
    HasOr(x, y, m);
  }

  lemma AndNotTest(m: bv64, x: bv64, y: bv64)
    ensures WordHas(m)(WordOps().andNot(x, y)) == Has(x & !y, m)
  {
    AndNotIs(x, y);
    TestIs(m, x & !y);
  }

  lemma AndNotLaw(m: bv64, x: bv64, y: bv64)
    requires IsBit(m)
    ensures WordHas(m)(WordOps().andNot(x, y)) <==> WordHas(m)(x) && !WordHas(m)(y)
  {
    HasAndNot(x, y, m);
    TestIs(m, x);
    TestIs(m, y);
    AndNotTest(m, x, y);
  }

  lemma ZeroLaw(m: bv64)
    ensures !WordHas(m)(WordOps().zero)
  {
  }

  /** Words obey the laws at each of their 64 bits. */
  lemma WordLaws(m: bv64)
    requires IsBit(m)
    ensures Laws(WordOps(), WordHas(m))
  {
    ZeroLaw(m);
    forall x: bv64, y: bv64 { OrLaw(m, x, y); }
    forall x: bv64, y: bv64 { AndNotLaw(m, x, y); }
  }

  lemma PermissionIsBit(p: Permission)
    ensures IsBit(Bit(p))
  {
  }

  /** The rule for one bit of a word. */
  ghost predicate BitGranted(base: bv64, userId: nat, roleIds: seq<nat>, overrides: seq<Override<bv64>>, m: bv64) {
    Granted(WordHas(m), Has(base, m), userId, roleIds, overrides)
  }

  /** Every one of the 64 bits of the effective permissions follows the rule. */
  method ApplyChannelOverrides(base: bv64, userId: nat, roleIds: seq<nat>, overrides: seq<Override<bv64>>) returns (effective: bv64)
    ensures effective == Applied(WordOps(), base, userId, roleIds, overrides)
    ensures forall m :: IsBit(m) ==> (Has(effective, m) <==> BitGranted(base, userId, roleIds, overrides, m))
  {
    effective := ApplyOverrides(WordOps(), base, userId, roleIds, overrides);
    forall m | IsBit(m) ensures Has(effective, m) <==> BitGranted(base, userId, roleIds, overrides, m) {
      BitRefined(base, userId, roleIds, overrides, m);
    }
  }

  lemma BitRefined(base: bv64, userId: nat, roleIds: seq<nat>, overrides: seq<Override<bv64>>, m: bv64)
    requires IsBit(m)
    ensures Has(Applied(WordOps(), base, userId, roleIds, overrides), m) <==> BitGranted(base, userId, roleIds, overrides, m)
  {
    WordLaws(m);
    RuleRefined(WordOps(), WordHas(m), base, userId, roleIds, overrides);
    assert WordHas(m)(base) == Has(base, m);
  }

  /** A word is determined by its bits. */
  lemma SameBits(x: bv64, y: bv64)
    requires forall m :: IsBit(m) ==> (Has(x, m) <==> Has(y, m))
    ensures x == y
  {
    if x != y {
      XorIsZero(x, y);
      var m := Lowest(x ^ y);
      LowestIsBit(x ^ y);
      LowestIsIn(x ^ y);
      HasXor(x, y, m);
    }
  }

  /** The lowest one-bit of a word. */
  function Lowest(d: bv64): bv64 {
    d & (!d + 1)
  }

  lemma LowestIsBit(d: bv64)
    requires d != 0
    ensures IsBit(Lowest(d))
  {
  }

  lemma LowestIsIn(d: bv64)
    requires d != 0
    ensures Has(d, Lowest(d))
  {
  }

  lemma XorIsZero(x: bv64, y: bv64)
    ensures x ^ y == 0 <==> x == y
  {
  }

  lemma HasXor(x: bv64, y: bv64, m: bv64)
    requires IsBit(m)
    ensures Has(x ^ y, m) <==> Has(x, m) != Has(y, m)
  {
    AllOrNothing(x, m);
    AllOrNothing(y, m);
    XorDistributes(x, y, m);
  }

  lemma XorDistributes(x: bv64, y: bv64, m: bv64)
    ensures (x ^ y) & m == (x & m) ^ (y & m)
  {
  }

  /** Reordering, repeating or adding overrides for others gives the same word. */
  lemma OrderIrrelevant(base: bv64, userId: nat, roleIds: seq<nat>, xs: seq<Override<bv64>>, ys: seq<Override<bv64>>)
    requires SameForUser(userId, roleIds, xs, ys)
    ensures Applied(WordOps(), base, userId, roleIds, xs) == Applied(WordOps(), base, userId, roleIds, ys)
  {
    var x, y := Applied(WordOps(), base, userId, roleIds, xs), Applied(WordOps(), base, userId, roleIds, ys);
    forall m | IsBit(m) ensures Has(x, m) <==> Has(y, m) {
      BitRefined(base, userId, roleIds, xs, m);
      BitRefined(base, userId, roleIds, ys, m);
      RuleIgnoresOrder(WordHas(m), Has(base, m), userId, roleIds, xs, ys);
    }
    SameBits(x, y);
  }

  // ---- asking for one permission ----

  /** The bits of the assigned roles on top of a word. */
  function WithRoles<W>(ops: Ops<W>, builtin: W, roles: seq<Role<W>>): W {
    if roles == [] then builtin
    else ops.or(WithRoles(ops, builtin, roles[..|roles| - 1]), roles[|roles| - 1].permissions)
  }

  /** The test holds of the built-in permissions or of those of an assigned role. */
  ghost predicate InBase<W>(has: W -> bool, builtin: W, roles: seq<Role<W>>) {
    has(builtin) || exists i :: 0 <= i < |roles| && has(roles[i].permissions)
  }

  lemma {:induction false} WithRolesSays<W(!new)>(ops: Ops<W>, has: W -> bool, builtin: W, roles: seq<Role<W>>)
    requires Laws(ops, has)
    ensures has(WithRoles(ops, builtin, roles)) <==> InBase(has, builtin, roles)
  {
    if roles != [] {
      var init := roles[..|roles| - 1];
      WithRolesSays(ops, has, builtin, init);
      assert forall i :: 0 <= i < |init| ==> init[i] == roles[i];
    }
  }

  function RoleIds<W>(roles: seq<Role<W>>): seq<nat> {
    seq(|roles|, i requires 0 <= i < |roles| => roles[i].id)
  }

  method CollectRoles<W>(ops: Ops<W>, builtin: W, roles: seq<Role<W>>) returns (effective: W, roleIds: seq<nat>)
    ensures effective == WithRoles(ops, builtin, roles)
    ensures roleIds == RoleIds(roles)
  {
    effective, roleIds := builtin, [];
    for i := 0 to |roles|
      invariant effective == WithRoles(ops, builtin, roles[..i])
      invariant roleIds == RoleIds(roles[..i])
    {
      assert roles[..i + 1][..i] == roles[..i];
      effective := ops.or(effective, roles[i].permissions);
      roleIds := roleIds + [roles[i].id];
    }
    assert roles[..|roles|] == roles;
  }

  /** The base of the rule at one bit: the built-in permissions of the membership and the roles. */
  ghost predicate BitInBase(role: SpaceRole, roles: seq<Role<bv64>>, m: bv64) {
    InBase(WordHas(m), BuiltinPermissions(role), roles)
  }

  /** What a membership grants by itself: owners and admins everything, members seeing and sending, guests seeing. */
  ghost predicate ByMembership(role: SpaceRole, p: Permission) {
    || role.Owner? || role.Admin?
    || (role.Member? && (p.ViewChannel? || p.SendMessages?))
    || (role.Guest? && p.ViewChannel?)
  }

  /** Granted by the membership or by an assigned role. */
  ghost predicate ByRoles(role: SpaceRole, roles: seq<Role<bv64>>, p: Permission) {
    ByMembership(role, p) || exists i :: 0 <= i < |roles| && Has(roles[i].permissions, Bit(p))
  }

  lemma BuiltinGrants(role: SpaceRole, p: Permission)
    ensures Has(BuiltinPermissions(role), Bit(p)) <==> ByMembership(role, p)
  {
    match role
    case Owner => match p { case _ => }
    case Admin => match p { case _ => }
    case Member => match p { case _ => }
    case Guest => match p { case _ => }
    case Unknown => match p { case _ => }
  }

  lemma BaseIsGranted(role: SpaceRole, roles: seq<Role<bv64>>, p: Permission)
    ensures BitInBase(role, roles, Bit(p)) <==> ByRoles(role, roles, p)
  {
    BuiltinGrants(role, p);
    TestIs(Bit(p), BuiltinPermissions(role));
    forall i | 0 <= i < |roles| ensures WordHas(Bit(p))(roles[i].permissions) == Has(roles[i].permissions, Bit(p)) {
      TestIs(Bit(p), roles[i].permissions);
    }
  }

  method CanInSpace(role: SpaceRole, roles: seq<Role<bv64>>, p: Permission) returns (ok: bool)
    ensures ok <==> ByRoles(role, roles, p)
    ensures roles == [] ==> (ok <==> ByMembership(role, p))
  {
    if IsAdmin(role) {
      return true;
    }
    var effective, _ := CollectRoles(WordOps(), BuiltinPermissions(role), roles);
    ok := Has(effective, Bit(p));
    SpaceDecision(role, roles, p);
    BaseIsGranted(role, roles, p);
  }

  lemma SpaceDecision(role: SpaceRole, roles: seq<Role<bv64>>, p: Permission)
    ensures Has(WithRoles(WordOps(), BuiltinPermissions(role), roles), Bit(p)) <==> BitInBase(role, roles, Bit(p))
  {
    PermissionLaws(p);
    WithRolesSays(WordOps(), WordHas(Bit(p)), BuiltinPermissions(role), roles);
    TestIs(Bit(p), WithRoles(WordOps(), BuiltinPermissions(role), roles));
  }

  lemma PermissionLaws(p: Permission)
    ensures Laws(WordOps(), WordHas(Bit(p)))
  {
    PermissionIsBit(p);
    WordLaws(Bit(p));
  }

  ghost predicate Held<W>(overrides: map<(nat, TargetKind, nat), Override<W>>, o: Override<W>) {
    exists k :: k in overrides && overrides[k] == o
  }

  lemma HeldElsewhere<W(!new)>(overrides: map<(nat, TargetKind, nat), Override<W>>, k: (nat, TargetKind, nat))
    requires k in overrides
    ensures forall o :: Held(overrides, o) <==> o == overrides[k] || Held(overrides - {k}, o)
  {
    forall o | Held(overrides, o) && o != overrides[k] ensures Held(overrides - {k}, o) {
      var j :| j in overrides && overrides[j] == o;
      assert j in overrides - {k};
    }
  }

  /** The overrides of a channel among those of a store, each key of the store visited once. */
  ghost function OfChannel<W(!new)>(overrides: map<(nat, TargetKind, nat), Override<W>>, channelId: nat):
    (r: seq<Override<W>>)
    ensures forall o :: o in r <==> Held(overrides, o) && o.channelId == channelId
    decreases |overrides|
  {
    if overrides == map[] then []
    else
      var k :| k in overrides;
      HeldElsewhere(overrides, k);
      var rest := OfChannel(overrides - {k}, channelId);
      if overrides[k].channelId == channelId then rest + [overrides[k]] else rest
  }

  class MemoryPermissionStore<W(!new)> {
    var overridesByTarget: map<(nat, TargetKind, nat), Override<W>>

    ghost predicate Holds(o: Override<W>)
      reads this
    {
      Held(overridesByTarget, o)
    }

    constructor ()
      ensures overridesByTarget == map[]
    {
      overridesByTarget := map[];
    }

    /** One override for each channel and target: a later one replaces an earlier one. */
    method UpsertOverride(o: Override<W>)
      modifies this
      ensures overridesByTarget == old(overridesByTarget)[(o.channelId, o.kind, o.targetId) := o]
    {
      overridesByTarget := overridesByTarget[(o.channelId, o.kind, o.targetId) := o];
    }

    /** The overrides of a channel whose target is the user or a role id, in no particular order. */
    method ChannelOverridesForUser(channelId: nat, userId: nat, roleIds: seq<nat>) returns (r: seq<Override<W>>)
      ensures forall o :: o in r <==> Holds(o) && o.channelId == channelId && (o.targetId == userId || o.targetId in roleIds)
    {
      r := [];
      var rest := overridesByTarget.Keys;
      while rest != {}
        invariant rest <= overridesByTarget.Keys
        invariant forall o :: o in r ==> Holds(o) && o.channelId == channelId && (o.targetId == userId || o.targetId in roleIds)
        invariant forall k :: k in overridesByTarget && k !in rest ==>
                    var o := overridesByTarget[k];
                    o.channelId == channelId && (o.targetId == userId || o.targetId in roleIds) ==> o in r
        decreases |rest|
      {
        var k :| k in rest;
        var o := overridesByTarget[k];
        if o.channelId == channelId && (o.targetId == userId || o.targetId in roleIds) {
          r := r + [o];
        }
        rest := rest - {k};
      }
    }
  }

  /** What is decided about one test from the overrides listed for the user alone. */
  lemma ChannelDecision<W(!new)>(ops: Ops<W>, has: W -> bool, builtin: W, roles: seq<Role<W>>, userId: nat,
                                 roleIds: seq<nat>, listed: seq<Override<W>>, all: seq<Override<W>>)
    requires Laws(ops, has)
    requires forall o :: o in listed <==> o in all && (o.targetId == userId || o.targetId in roleIds)
    ensures has(Applied(ops, WithRoles(ops, builtin, roles), userId, roleIds, listed))
            <==> Granted(has, InBase(has, builtin, roles), userId, roleIds, all)
  {
    RuleRefined(ops, has, WithRoles(ops, builtin, roles), userId, roleIds, listed);
    WithRolesSays(ops, has, builtin, roles);
    RuleIgnoresOrder(has, InBase(has, builtin, roles), userId, roleIds, listed, all);
  }

  /** The same at the bit of a permission. */
  lemma BitDecision(role: SpaceRole, roles: seq<Role<bv64>>, userId: nat, roleIds: seq<nat>,
                    listed: seq<Override<bv64>>, all: seq<Override<bv64>>, p: Permission)
    requires forall o :: o in listed <==> o in all && (o.targetId == userId || o.targetId in roleIds)
    ensures Has(Applied(WordOps(), WithRoles(WordOps(), BuiltinPermissions(role), roles), userId, roleIds, listed), Bit(p))
            <==> Granted(WordHas(Bit(p)), BitInBase(role, roles, Bit(p)), userId, roleIds, all)
  {
    PermissionLaws(p);
    ChannelDecision(WordOps(), WordHas(Bit(p)), BuiltinPermissions(role), roles, userId, roleIds, listed, all);
    TestIs(Bit(p), Applied(WordOps(), WithRoles(WordOps(), BuiltinPermissions(role), roles), userId, roleIds, listed));
  }

  /** The membership is asked about a channel without any override, and without roles. */
  ghost predicate Plain(roles: seq<Role<bv64>>, all: seq<Override<bv64>>) {
    roles == [] && all == []
  }

  /** An override for the user denies the permission. */
  ghost predicate DeniedToUser(userId: nat, all: seq<Override<bv64>>, p: Permission) {
    exists o :: o in all && o.kind.MemberTarget? && o.targetId == userId && Has(o.deny, Bit(p))
  }

  lemma DenialDecides(base: bool, userId: nat, roleIds: seq<nat>, all: seq<Override<bv64>>, p: Permission)
    ensures DeniedToUser(userId, all, p) ==> !Granted(WordHas(Bit(p)), base, userId, roleIds, all)
    ensures all == [] ==> (Granted(WordHas(Bit(p)), base, userId, roleIds, all) <==> base)
  {
    if DeniedToUser(userId, all, p) {
      var o :| o in all && o.kind.MemberTarget? && o.targetId == userId && Has(o.deny, Bit(p));
      var i :| 0 <= i < |all| && all[i] == o;
      TestIs(Bit(p), o.deny);
      assert MemberDenies(WordHas(Bit(p)), userId, all);
    }
  }

  /**
   Owners and admins may do everything, whatever is denied to them. For anyone else the answer
   is the rule at the bit of the permission, applied to all overrides of the channel: leaving out
   those for other targets first changes nothing. Without overrides it is the base; nobody else
   may do what is denied to them as members.
   */
  method CanInChannel(store: MemoryPermissionStore<bv64>, role: SpaceRole, userId: nat, channelId: nat,
                      roles: seq<Role<bv64>>, p: Permission) returns (ok: bool)
    ensures role.Owner? || role.Admin? ==> ok
    ensures !role.Owner? && !role.Admin? ==>
              (ok <==> Granted(WordHas(Bit(p)), ByRoles(role, roles, p), userId, RoleIds(roles),
                               OfChannel(store.overridesByTarget, channelId)))
    ensures !role.Owner? && !role.Admin? && DeniedToUser(userId, OfChannel(store.overridesByTarget, channelId), p) ==> !ok
    ensures Plain(roles, OfChannel(store.overridesByTarget, channelId)) ==> (ok <==> ByMembership(role, p))
  {
    if IsAdmin(role) {
      return true;
    }
    var effective, roleIds := CollectRoles(WordOps(), BuiltinPermissions(role), roles);
    var overrides := store.ChannelOverridesForUser(channelId, userId, roleIds);
    effective := ApplyChannelOverrides(effective, userId, roleIds, overrides);
    ok := Has(effective, Bit(p));
    ghost var all := OfChannel(store.overridesByTarget, channelId);
    BitDecision(role, roles, userId, roleIds, overrides, all, p);
    BaseIsGranted(role, roles, p);
    DenialDecides(ByRoles(role, roles, p), userId, roleIds, all, p);
  }

  // ---- names ----

  function Name(p: Permission): string {
    match p
    case ViewChannel => "VIEW_CHANNEL"
    case SendMessages => "SEND_MESSAGES"
    case ManageMessages => "MANAGE_MESSAGES"
    case ManageChannels => "MANAGE_CHANNELS"
    case ManageRoles => "MANAGE_ROLES"
    case InviteMembers => "INVITE_MEMBERS"
    case ManageSpace => "MANAGE_SPACE"
    case ConnectVoice => "CONNECT_VOICE"
    case Speak => "SPEAK"
    case ShareScreen => "SHARE_SCREEN"
    case UseVideo => "USE_VIDEO"
  }

  const ALL_PERMISSIONS: seq<Permission> :=
    [ViewChannel, SendMessages, ManageMessages, ManageChannels, ManageRoles, InviteMembers,
     ManageSpace, ConnectVoice, Speak, ShareScreen, UseVideo]

  function UpperChar(c: char): char {
    if 'a' <= c <= 'z' then c - 'a' + 'A' else c
  }

  function Upper(s: string): (r: string)
    ensures |r| == |s| && forall i :: 0 <= i < |s| ==> r[i] == UpperChar(s[i])
  {
    seq(|s|, i requires 0 <= i < |s| => UpperChar(s[i]))
  }

  /** The first permission of a list with the given name. */
  function Named(ps: seq<Permission>, name: string): Option<Permission> {
    if ps == [] then None else if Name(ps[0]) == name then Some(ps[0]) else Named(ps[1..], name)
  }

  function Parse(value: string): Option<Permission> {
    Named(ALL_PERMISSIONS, Upper(T.Trim(value)))
  }

  /** The names of the kept permissions, in order. */
  function NamesIn(keep: Permission -> bool, ps: seq<Permission>): seq<string> {
    if ps == [] then []
    else
      var init, p := NamesIn(keep, ps[..|ps| - 1]), ps[|ps| - 1];
      if keep(p) then init + [Name(p)] else init
  }

  function KeptIn(bits: bv64): Permission -> bool {
    p => Has(bits, Bit(p))
  }

  function PermissionNames(bits: bv64): seq<string> {
    NamesIn(KeptIn(bits), ALL_PERMISSIONS)
  }

  /** The bits of the named permissions together; the first unknown name refuses the list. */
  function ParseNames<W>(ops: Ops<W>, bit: Permission -> W, names: seq<string>): Option<W> {
    if names == [] then Some(ops.zero)
    else
      var init, p := ParseNames(ops, bit, names[..|names| - 1]), Parse(names[|names| - 1]);
      if init.None? || p.None? then None else Some(ops.or(init.value, bit(p.value)))
  }

  function ParsePermissionList(names: seq<string>): Option<bv64> {
    ParseNames(WordOps(), Bit, names)
  }

  lemma NameShape(p: Permission)
    ensures Name(p) != "" && T.Printable(Name(p)[0]) && T.Printable(Name(p)[|Name(p)| - 1])
    ensures forall i :: 0 <= i < |Name(p)| ==> !('a' <= Name(p)[i] <= 'z')
  {
  }

  /** Names of the same length differ in these two characters. */
  lemma NamesDiffer(p: Permission, q: Permission)
    requires p != q
    ensures Name(p) != Name(q)
  {
    var a, b := Name(p), Name(q);
    assert |a| != |b| || a[0] != b[0] || a[7] != b[7];
  }

  lemma {:induction false} NamedFinds(ps: seq<Permission>, p: Permission)
    requires p in ps
    ensures Named(ps, Name(p)) == Some(p)
  {
    if ps[0] != p {
      NamesDiffer(ps[0], p);
      NamedFinds(ps[1..], p);
    }
  }

  /** The place of a permission in the list of all. */
  function Position(p: Permission): nat {
    match p
    case ViewChannel => 0
    case SendMessages => 1
    case ManageMessages => 2
    case ManageChannels => 3
    case ManageRoles => 4
    case InviteMembers => 5
    case ManageSpace => 6
    case ConnectVoice => 7
    case Speak => 8
    case ShareScreen => 9
    case UseVideo => 10
  }

  lemma EveryPermission(p: Permission)
    ensures p in ALL_PERMISSIONS
  {
    assert ALL_PERMISSIONS[Position(p)] == p;
  }

  /** A permission's own name is read back as that permission. */
  lemma ParseName(p: Permission)
    ensures Parse(Name(p)) == Some(p)
  {
    NameShape(p);
    T.PrintableEnds(Name(p));
    assert Upper(Name(p)) == Name(p);
    EveryPermission(p);
    NamedFinds(ALL_PERMISSIONS, p);
  }

  /** The same letters, each in upper or lower case. */
  predicate SameButCase(s: string, name: string) {
    |s| == |name| && forall i :: 0 <= i < |s| ==>
      s[i] == name[i] || ('A' <= name[i] <= 'Z' && s[i] == name[i] - 'A' + 'a')
  }

  lemma UpperIs(s: string, name: string)
    requires forall i :: 0 <= i < |name| ==> !('a' <= name[i] <= 'z')
    ensures Upper(s) == name <==> SameButCase(s, name)
  {
    if SameButCase(s, name) {
      assert forall i :: 0 <= i < |s| ==> UpperChar(s[i]) == name[i];
    } else if |s| == |name| {
      var i :| 0 <= i < |s| && !(s[i] == name[i] || ('A' <= name[i] <= 'Z' && s[i] == name[i] - 'A' + 'a'));
      assert Upper(s)[i] == UpperChar(s[i]) != name[i];
    }
  }

  lemma {:induction false} NamedIs(ps: seq<Permission>, name: string)
    ensures Named(ps, name).Some? ==> Name(Named(ps, name).value) == name
  {
    if ps != [] { NamedIs(ps[1..], name); }
  }

  /** A text is read as a permission exactly when it spells its name, in any case and with white space around it. */
  lemma ParseExact(value: string, p: Permission)
    ensures Parse(value) == Some(p) <==> SameButCase(T.Trim(value), Name(p))
  {
    NameShape(p);
    UpperIs(T.Trim(value), Name(p));
    NamedIs(ALL_PERMISSIONS, Upper(T.Trim(value)));
    EveryPermission(p);
    NamedFinds(ALL_PERMISSIONS, p);
    if Parse(value).Some? && Parse(value).value != p { NamesDiffer(Parse(value).value, p); }
  }

  lemma {:induction false} ParsedTogether<W(!new)>(ops: Ops<W>, bit: Permission -> W, has: W -> bool, names: seq<string>)
    requires Laws(ops, has)
    ensures ParseNames(ops, bit, names).Some? <==> forall i :: 0 <= i < |names| ==> Parse(names[i]).Some?
    ensures ParseNames(ops, bit, names).Some? ==>
              (has(ParseNames(ops, bit, names).value) <==>
               exists i :: 0 <= i < |names| && Parse(names[i]).Some? && has(bit(Parse(names[i]).value)))
  {
    if names != [] {
      var init := names[..|names| - 1];
      ParsedTogether(ops, bit, has, init);
      assert forall i :: 0 <= i < |init| ==> init[i] == names[i];
    }
  }

  lemma BitsApart(p: Permission, q: Permission)
    ensures Has(Bit(p), Bit(q)) <==> p == q
  {
    match p { case _ => match q { case _ => } }
  }

  /** A list of names is accepted if every one of them is read as a permission, and gives exactly their bits. */
  lemma ListExact(names: seq<string>, p: Permission)
    ensures ParsePermissionList(names).Some? <==> forall i :: 0 <= i < |names| ==> Parse(names[i]).Some?
    ensures ParsePermissionList(names).Some? ==>
              (Has(ParsePermissionList(names).value, Bit(p)) <==> exists i :: 0 <= i < |names| && Parse(names[i]) == Some(p))
  {
    PermissionLaws(p);
    ParsedTogether(WordOps(), Bit, WordHas(Bit(p)), names);
    if ParsePermissionList(names).Some? {
      TestIs(Bit(p), ParsePermissionList(names).value);
      forall i | 0 <= i < |names| && Parse(names[i]).Some?
        ensures WordHas(Bit(p))(Bit(Parse(names[i]).value)) <==> Parse(names[i]) == Some(p)
      {
        TestIs(Bit(p), Bit(Parse(names[i]).value));
        BitsApart(Parse(names[i]).value, p);
      }
    }
  }

  /** The names in the order of their bits. */
  const NAMES_BY_BIT: seq<string> :=
    ["VIEW_CHANNEL", "SEND_MESSAGES", "MANAGE_MESSAGES", "MANAGE_CHANNELS", "MANAGE_ROLES", "INVITE_MEMBERS",
     "MANAGE_SPACE", "CONNECT_VOICE", "SPEAK", "SHARE_SCREEN", "USE_VIDEO"]

  lemma {:induction false} OnlyOneKept(keep: Permission -> bool, ps: seq<Permission>, i: nat)
    requires i < |ps| && keep(ps[i]) && forall j :: 0 <= j < |ps| && j != i ==> !keep(ps[j])
    ensures NamesIn(keep, ps) == [Name(ps[i])]
  {
    var n := |ps| - 1;
    if i < n { OnlyOneKept(keep, ps[..n], i); } else { NoneKept(keep, ps[..n]); }
  }

  lemma {:induction false} NoneKept(keep: Permission -> bool, ps: seq<Permission>)
    requires forall j :: 0 <= j < |ps| ==> !keep(ps[j])
    ensures NamesIn(keep, ps) == []
  {
    if ps != [] { NoneKept(keep, ps[..|ps| - 1]); }
  }

  lemma BitAt(i: nat)
    requires i < 11
    ensures Bit(ALL_PERMISSIONS[i]) == (1 as bv64) << i
    ensures Name(ALL_PERMISSIONS[i]) == NAMES_BY_BIT[i]
  {
  }

  /** The word with only bit `i` set is printed as the `i`-th name. */
  lemma NameOfBit(i: nat)
    requires i < 11
    ensures PermissionNames((1 as bv64) << i) == [NAMES_BY_BIT[i]]
  {
    BitAt(i);
    var bits := (1 as bv64) << i;
    forall j | 0 <= j < 11 ensures KeptIn(bits)(ALL_PERMISSIONS[j]) <==> j == i {
      BitsApart(ALL_PERMISSIONS[i], ALL_PERMISSIONS[j]);
      PlaceOf(i);
      PlaceOf(j);
    }
    OnlyOneKept(KeptIn(bits), ALL_PERMISSIONS, i);
  }

  lemma PlaceOf(i: nat)
    requires i < 11
    ensures Position(ALL_PERMISSIONS[i]) == i
  {
  }

  /** The bits of some permissions together. */
  function MaskOf<W>(ops: Ops<W>, bit: Permission -> W, ps: seq<Permission>): W {
    if ps == [] then ops.zero else ops.or(MaskOf(ops, bit, ps[..|ps| - 1]), bit(ps[|ps| - 1]))
  }

  /** A restriction of words keeps the bits of the kept permissions and drops the others. */
  ghost predicate Restricts<W(!new)>(ops: Ops<W>, bit: Permission -> W, keep: Permission -> bool, restrict: W -> W) {
    && restrict(ops.zero) == ops.zero
    && (forall x, p :: restrict(ops.or(x, bit(p))) == if keep(p) then ops.or(restrict(x), bit(p)) else restrict(x))
  }

  lemma {:induction false} NamesReadBack<W(!new)>(ops: Ops<W>, bit: Permission -> W, keep: Permission -> bool,
                                                  restrict: W -> W, ps: seq<Permission>)
    requires Restricts(ops, bit, keep, restrict)
    ensures ParseNames(ops, bit, NamesIn(keep, ps)) == Some(restrict(MaskOf(ops, bit, ps)))
  {
    if ps != [] {
      var init, p := ps[..|ps| - 1], ps[|ps| - 1];
      NamesReadBack(ops, bit, keep, restrict, init);
      ParseName(p);
      var names := NamesIn(keep, init);
      assert (names + [Name(p)])[..|names|] == names;
    }
  }

  lemma AndOverOr(x: bv64, y: bv64, z: bv64)
    ensures x & (y | z) == (x & y) | (x & z)
  {
  }

  lemma OrZero(x: bv64)
    ensures x | 0 == x
  {
  }

  lemma AndZero(x: bv64)
    ensures x & 0 == 0
  {
  }

  lemma BitSet(bits: bv64, mask: bv64, m: bv64)
    requires IsBit(m) && Has(bits, m)
    ensures bits & (mask | m) == (bits & mask) | m
  {
    AllOrNothing(bits, m);
    AndOverOr(bits, mask, m);
  }

  lemma BitClear(bits: bv64, mask: bv64, m: bv64)
    requires !Has(bits, m)
    ensures bits & (mask | m) == bits & mask
  {
    AndOverOr(bits, mask, m);
    OrZero(bits & mask);
  }

  lemma RestrictedAt(bits: bv64, mask: bv64, m: bv64)
    requires IsBit(m)
    ensures bits & (mask | m) == if Has(bits, m) then (bits & mask) | m else bits & mask
  {
    if Has(bits, m) {
      BitSet(bits, mask, m);
    } else {
      BitClear(bits, mask, m);
    }
  }

  function Restrict(bits: bv64): bv64 -> bv64 {
    word => bits & word
  }

  lemma RestrictIs(bits: bv64, word: bv64)
    ensures Restrict(bits)(word) == bits & word
  {
  }

  lemma RestrictLaw(bits: bv64, mask: bv64, m: bv64)
    requires IsBit(m)
    ensures Restrict(bits)(WordOps().or(mask, m))
            == if Has(bits, m) then WordOps().or(Restrict(bits)(mask), m) else Restrict(bits)(mask)
  {
    OrIs(mask, m);
    RestrictIs(bits, mask | m);
    RestrictIs(bits, mask);
    OrIs(bits & mask, m);
    RestrictedAt(bits, mask, m);
  }

  /** `and` with a word restricts to the permissions of that word. */
  lemma AndRestricts(bits: bv64)
    ensures Restricts(WordOps(), Bit, KeptIn(bits), Restrict(bits))
  {
    AndZero(bits);
    forall mask: bv64, p: Permission
      ensures Restrict(bits)(WordOps().or(mask, Bit(p)))
              == if KeptIn(bits)(p) then WordOps().or(Restrict(bits)(mask), Bit(p)) else Restrict(bits)(mask)
    {
      PermissionIsBit(p);
      RestrictLaw(bits, mask, Bit(p));
    }
  }

  lemma MaskPush(i: nat, x: bv64, y: bv64)
    requires i < 11 && MaskOf(WordOps(), Bit, ALL_PERMISSIONS[..i]) == x && x | Bit(ALL_PERMISSIONS[i]) == y
    ensures MaskOf(WordOps(), Bit, ALL_PERMISSIONS[..i + 1]) == y
  {
    assert ALL_PERMISSIONS[..i + 1][..i] == ALL_PERMISSIONS[..i];
    OrIs(x, Bit(ALL_PERMISSIONS[i]));
  }

  lemma KnownBits()
    ensures MaskOf(WordOps(), Bit, ALL_PERMISSIONS) == ALL_MINIMAL_PERMISSIONS
  {
    MaskPush(0, 0, 0x1);
    MaskPush(1, 0x1, 0x3);
    MaskPush(2, 0x3, 0x7);
    MaskPush(3, 0x7, 0xF);
    MaskPush(4, 0xF, 0x1F);
    MaskPush(5, 0x1F, 0x3F);
    MaskPush(6, 0x3F, 0x7F);
    MaskPush(7, 0x7F, 0xFF);
    MaskPush(8, 0xFF, 0x1FF);
    MaskPush(9, 0x1FF, 0x3FF);
    MaskPush(10, 0x3FF, 0x7FF);
    assert ALL_PERMISSIONS[..11] == ALL_PERMISSIONS;
  }

  /** Parsing the printed names of any word gives it back, restricted to the known bits. */
  lemma PermissionNamesRoundTrip(bits: bv64)
    ensures ParsePermissionList(PermissionNames(bits)) == Some(bits & ALL_MINIMAL_PERMISSIONS)
  {
    AndRestricts(bits);
    NamesReadBack(WordOps(), Bit, KeptIn(bits), Restrict(bits), ALL_PERMISSIONS);
    KnownBits();
  }
}
