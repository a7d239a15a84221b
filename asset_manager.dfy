/**
 * The asset catalog (src/core/assets/AssetManager.ts): roles, outfits and loops keyed by id,
 * the project tempo, and the referential-integrity check run after loading. Fetching and
 * parsing the three JSON files is not modelled: `LoadAll` receives them already decoded.
 */
module Assets {
  import opened Wrappers
  import opened Types
  import opened JsArrays
  import opened JsMaps

  datatype RolesFile = RolesFile(version: int, roles: seq<RoleDef>)
  datatype OutfitsFile = OutfitsFile(version: int, outfits: seq<OutfitDef>)
  datatype LoopsFile = LoopsFile(version: int, projectBpm: Nullable<real>, loops: seq<LoopAssetDef>)

  /** The tempo used when the loops file gives none. */
  const DefaultProjectBpm: real := 140.0

  function RoleKey(r: RoleDef): Id { r.id }
  function OutfitKey(o: OutfitDef): Id { o.id }
  function LoopKey(l: LoopAssetDef): Id { l.id }

  /** The error `validate` throws for one role, if any: its default outfit must exist and be its own. */
  function RoleViolation(role: RoleDef, outfits: map<Id, OutfitDef>): (r: Option<string>)
    ensures r.None? <==> role.defaultOutfitId in outfits && outfits[role.defaultOutfitId].roleId == role.id
  {
    if role.defaultOutfitId !in outfits then
      Some("Role " + role.id + " defaultOutfitId not found: " + role.defaultOutfitId)
    else if outfits[role.defaultOutfitId].roleId != role.id then
      Some("Default outfit roleId mismatch for role " + role.id)
    else None
  }

  /**
   * The error `validate` throws for one outfit, if any: its role must exist and, when it has
   * a loop, the loop must exist and share the role's category.
   */
  function OutfitViolation(outfit: OutfitDef, roles: map<Id, RoleDef>, loops: map<Id, LoopAssetDef>): Option<string> {
    if outfit.roleId !in roles then
      Some("Outfit " + outfit.id + " references missing roleId: " + outfit.roleId)
    else
      match OrNull(outfit.loopAssetId)
      case None => None
      case Some(loopId) =>
        if loopId !in loops then
          Some("Outfit " + outfit.id + " references missing loopAssetId: " + loopId)
        else if loops[loopId].category != roles[outfit.roleId].category then
          Some("Outfit " + outfit.id + " loop category mismatch: role.category="
               + roles[outfit.roleId].category + ", loop.category=" + loops[loopId].category)
        else None
  }

  /** The first role violation in enumeration order. */
  function FirstRoleViolation(rs: seq<RoleDef>, outfits: map<Id, OutfitDef>): Option<string> {
    if |rs| == 0 then None
    else if RoleViolation(rs[0], outfits).Some? then RoleViolation(rs[0], outfits)
    else FirstRoleViolation(rs[1..], outfits)
  }

  /** The first outfit violation in enumeration order. */
  function FirstOutfitViolation(os: seq<OutfitDef>, roles: map<Id, RoleDef>, loops: map<Id, LoopAssetDef>): Option<string> {
    if |os| == 0 then None
    else if OutfitViolation(os[0], roles, loops).Some? then OutfitViolation(os[0], roles, loops)
    else FirstOutfitViolation(os[1..], roles, loops)
  }

  lemma {:induction false} FirstRoleViolationAt(rs: seq<RoleDef>, outfits: map<Id, OutfitDef>, i: nat)
    requires i <= |rs|
    requires forall j :: 0 <= j < i ==> RoleViolation(rs[j], outfits).None?
    ensures FirstRoleViolation(rs, outfits) == if i == |rs| then None else FirstRoleViolation(rs[i..], outfits)
  {
    if i > 0 {
      assert rs[1..][i - 1..] == rs[i..];
      FirstRoleViolationAt(rs[1..], outfits, i - 1);
    }
  }

  lemma {:induction false} FirstOutfitViolationAt(os: seq<OutfitDef>, roles: map<Id, RoleDef>, loops: map<Id, LoopAssetDef>, i: nat)
    requires i <= |os|
    requires forall j :: 0 <= j < i ==> OutfitViolation(os[j], roles, loops).None?
    ensures FirstOutfitViolation(os, roles, loops) == if i == |os| then None else FirstOutfitViolation(os[i..], roles, loops)
  {
    if i > 0 {
      assert os[1..][i - 1..] == os[i..];
      FirstOutfitViolationAt(os[1..], roles, loops, i - 1);
    }
  }

  /** What `validate` does: throw the first violation found, roles first, then outfits. */
  function ValidationOutcome(roles: JsMap<RoleDef>, outfits: JsMap<OutfitDef>, loops: JsMap<LoopAssetDef>): Outcome<string>
    requires roles.Valid() && outfits.Valid() && loops.Valid()
  {
    match FirstRoleViolation(roles.Values(), outfits.entries)
    case Some(msg) => Fail(msg)
    case None =>
      match FirstOutfitViolation(outfits.Values(), roles.entries, loops.entries)
      case Some(msg) => Fail(msg)
      case None => Pass
  }

  /** Every role's default outfit exists and belongs to that role. */
  ghost predicate RolesIntegrity(roles: map<Id, RoleDef>, outfits: map<Id, OutfitDef>) {
    forall rid :: rid in roles ==>
      && roles[rid].defaultOutfitId in outfits
      && outfits[roles[rid].defaultOutfitId].roleId == roles[rid].id
  }

  /** One outfit's role exists, and its loop, when it has one, exists and has the role's category. */
  ghost predicate OutfitSound(o: OutfitDef, roles: map<Id, RoleDef>, loops: map<Id, LoopAssetDef>) {
    && o.roleId in roles
    && (OrNull(o.loopAssetId).Some? ==>
          var loopId := OrNull(o.loopAssetId).value;
          loopId in loops && loops[loopId].category == roles[o.roleId].category)
  }

  /** Every outfit is sound. */
  ghost predicate OutfitsIntegrity(roles: map<Id, RoleDef>, outfits: map<Id, OutfitDef>, loops: map<Id, LoopAssetDef>) {
    forall oid :: oid in outfits ==> OutfitSound(outfits[oid], roles, loops)
  }

  lemma OutfitViolationIffUnsound(o: OutfitDef, roles: map<Id, RoleDef>, loops: map<Id, LoopAssetDef>)
    ensures OutfitViolation(o, roles, loops).None? <==> OutfitSound(o, roles, loops)
  {
  }

  /** The referential integrity the rest of the engine relies on. */
  ghost predicate CatalogIntegrity(roles: map<Id, RoleDef>, outfits: map<Id, OutfitDef>, loops: map<Id, LoopAssetDef>) {
    RolesIntegrity(roles, outfits) && OutfitsIntegrity(roles, outfits, loops)
  }

  lemma {:induction false} NoRoleViolation(rs: seq<RoleDef>, outfits: map<Id, OutfitDef>)
    ensures FirstRoleViolation(rs, outfits).None? <==> forall j :: 0 <= j < |rs| ==> RoleViolation(rs[j], outfits).None?
  {
    if |rs| > 0 {
      NoRoleViolation(rs[1..], outfits);
      assert forall j :: 1 <= j < |rs| ==> rs[j] == rs[1..][j - 1];
    }
  }

  lemma {:induction false} NoOutfitViolation(os: seq<OutfitDef>, roles: map<Id, RoleDef>, loops: map<Id, LoopAssetDef>)
    ensures FirstOutfitViolation(os, roles, loops).None? <==> forall j :: 0 <= j < |os| ==> OutfitViolation(os[j], roles, loops).None?
  {
    if |os| > 0 {
      NoOutfitViolation(os[1..], roles, loops);
      assert forall j :: 1 <= j < |os| ==> os[j] == os[1..][j - 1];
    }
  }

  lemma RolePassIffIntegrity(roles: JsMap<RoleDef>, outfits: map<Id, OutfitDef>)
    requires roles.Valid()
    ensures FirstRoleViolation(roles.Values(), outfits).None? <==> RolesIntegrity(roles.entries, outfits)
  {
    var rv := roles.Values();
    NoRoleViolation(rv, outfits);
    if FirstRoleViolation(rv, outfits).None? {
      forall rid | rid in roles.entries
        ensures roles.entries[rid].defaultOutfitId in outfits
        ensures outfits[roles.entries[rid].defaultOutfitId].roleId == roles.entries[rid].id
      {
        var j :| 0 <= j < |roles.keys| && roles.keys[j] == rid;
        assert rv[j] == roles.entries[rid];
        assert RoleViolation(rv[j], outfits).None?;
      }
    } else {
      var j :| 0 <= j < |rv| && RoleViolation(rv[j], outfits).Some?;
      assert rv[j] == roles.entries[roles.keys[j]];
    }
  }

  lemma OutfitPassIffIntegrity(outfits: JsMap<OutfitDef>, roles: map<Id, RoleDef>, loops: map<Id, LoopAssetDef>)
    requires outfits.Valid()
    ensures FirstOutfitViolation(outfits.Values(), roles, loops).None? <==> OutfitsIntegrity(roles, outfits.entries, loops)
  {
    var ov := outfits.Values();
    NoOutfitViolation(ov, roles, loops);
    if FirstOutfitViolation(ov, roles, loops).None? {
      forall oid | oid in outfits.entries
        ensures OutfitSound(outfits.entries[oid], roles, loops)
      {
        var j :| 0 <= j < |outfits.keys| && outfits.keys[j] == oid;
        assert ov[j] == outfits.entries[oid];
        OutfitViolationIffUnsound(ov[j], roles, loops);
      }
    } else {
      var j :| 0 <= j < |ov| && OutfitViolation(ov[j], roles, loops).Some?;
      assert ov[j] == outfits.entries[outfits.keys[j]];
      OutfitViolationIffUnsound(ov[j], roles, loops);
    }
  }

  /** `validate` succeeds exactly when the catalog has referential integrity. */
  lemma ValidateIffIntegrity(roles: JsMap<RoleDef>, outfits: JsMap<OutfitDef>, loops: JsMap<LoopAssetDef>)
    requires roles.Valid() && outfits.Valid() && loops.Valid()
    ensures ValidationOutcome(roles, outfits, loops).Pass? <==> CatalogIntegrity(roles.entries, outfits.entries, loops.entries)
  {
    RolePassIffIntegrity(roles, outfits.entries);
    OutfitPassIffIntegrity(outfits, roles.entries, loops.entries);
  }

  /** The filter of `listOutfitsForRole`. */
  function OfRole(roleId: Id): OutfitDef -> bool {
    (o: OutfitDef) => o.roleId == roleId
  }

  /**
   * `listOutfitsForRole` keeps exactly the outfits of that role, in catalog order: entry `i`
   * of the result is the outfit of the `i`-th key of that role, so each is listed once.
   */
  function OutfitsForRole(outfits: JsMap<OutfitDef>, roleId: Id): (r: seq<OutfitDef>)
    requires outfits.Valid()
    ensures forall j :: 0 <= j < |r| ==> r[j].roleId == roleId && r[j] in outfits.entries.Values
    ensures forall k :: k in outfits.entries && outfits.entries[k].roleId == roleId ==> outfits.entries[k] in r
    ensures var pos := KeptPositions(outfits.Values(), OfRole(roleId));
            && |r| == |pos|
            && forall i :: 0 <= i < |r| ==> pos[i] < |outfits.keys| && r[i] == outfits.entries[outfits.keys[pos[i]]]
  {
    var vs := outfits.Values();
    var r := Filter(vs, OfRole(roleId));
    FilterAtKeptPositions(vs, OfRole(roleId));
    forall j | 0 <= j < |r| ensures r[j] in outfits.entries.Values {
      ValuesExactly(outfits, r[j]);
    }
    forall k | k in outfits.entries && outfits.entries[k].roleId == roleId ensures outfits.entries[k] in r {
      ValuesExactly(outfits, outfits.entries[k]);
    }
    r
  }

  class AssetManager {
    var rolesById: JsMap<RoleDef>
    var outfitsById: JsMap<OutfitDef>
    var loopsById: JsMap<LoopAssetDef>
    var projectBpm: real

    ghost predicate Valid()
      reads this
    {
      rolesById.Valid() && outfitsById.Valid() && loopsById.Valid()
    }

    constructor ()
      ensures Valid()
      ensures rolesById == Empty() && outfitsById == Empty() && loopsById == Empty()
      ensures projectBpm == DefaultProjectBpm
    {
      rolesById, outfitsById, loopsById := Empty(), Empty(), Empty();
      projectBpm := DefaultProjectBpm;
    }

    /**
     * `loadAll` after the three files have been fetched and parsed: set the tempo, add every
     * definition under its id (a later duplicate overwrites an earlier one), then validate.
     * When validation fails the maps stay filled and the error is returned.
     */
    method LoadAll(roles: RolesFile, outfits: OutfitsFile, loops: LoopsFile) returns (r: Outcome<string>)
      requires Valid()
      modifies this
      ensures Valid()
      ensures projectBpm == OrNull(loops.projectBpm).GetOr(DefaultProjectBpm)
      ensures rolesById == SetAll(old(rolesById), roles.roles, RoleKey)
      ensures outfitsById == SetAll(old(outfitsById), outfits.outfits, OutfitKey)
      ensures loopsById == SetAll(old(loopsById), loops.loops, LoopKey)
      ensures r == ValidationOutcome(rolesById, outfitsById, loopsById)
    {
      projectBpm := OrNull(loops.projectBpm).GetOr(DefaultProjectBpm);
      rolesById := SetEach(rolesById, roles.roles, RoleKey);
      outfitsById := SetEach(outfitsById, outfits.outfits, OutfitKey);
      loopsById := SetEach(loopsById, loops.loops, LoopKey);
      r := Validate();
    }

    /** `getRole`: the catalogued role, or nothing for an unknown id. */
    function GetRole(roleId: Id): (r: Option<RoleDef>)
      reads this
      ensures r.Some? <==> roleId in rolesById.entries
      ensures r.Some? ==> r.value == rolesById.entries[roleId]
    {
      rolesById.Get(roleId)
    }

    /** `getOutfit`: the catalogued outfit, or nothing for an unknown id. */
    function GetOutfit(outfitId: Id): (r: Option<OutfitDef>)
      reads this
      ensures r.Some? <==> outfitId in outfitsById.entries
      ensures r.Some? ==> r.value == outfitsById.entries[outfitId]
    {
      outfitsById.Get(outfitId)
    }

    /** `getLoop`: the catalogued loop, or nothing for an unknown id. */
    function GetLoop(loopId: Id): (r: Option<LoopAssetDef>)
      reads this
      ensures r.Some? <==> loopId in loopsById.entries
      ensures r.Some? ==> r.value == loopsById.entries[loopId]
    {
      loopsById.Get(loopId)
    }

    /** `listRoles`: one role per catalogued id, in load order. */
    function ListRoles(): (r: seq<RoleDef>)
      reads this
      requires Valid()
      ensures |r| == |rolesById.keys|
      ensures forall i :: 0 <= i < |r| ==> r[i] == rolesById.entries[rolesById.keys[i]]
    {
      rolesById.Values()
    }

    /** `listOutfitsForRole`: the outfits of that role, as `OutfitsForRole` states. */
    function ListOutfitsForRole(roleId: Id): (r: seq<OutfitDef>)
      reads this
      requires Valid()
      ensures forall j :: 0 <= j < |r| ==> r[j].roleId == roleId && r[j] in outfitsById.entries.Values
      ensures forall k :: k in outfitsById.entries && outfitsById.entries[k].roleId == roleId ==> outfitsById.entries[k] in r
    {
      OutfitsForRole(outfitsById, roleId)
    }

    /** `validate`: walk the roles, then the outfits, and stop at the first violation. */
    method Validate() returns (r: Outcome<string>)
      requires Valid()
      ensures r == ValidationOutcome(rolesById, outfitsById, loopsById)
    {
      var roleError := ValidateRoles();
      if roleError.Some? {
        return Fail(roleError.value);
      }
      var outfitError := ValidateOutfits();
      if outfitError.Some? {
        return Fail(outfitError.value);
      }
      r := Pass;
    }

    /** The first loop of `validate`: each role's default outfit. */
    method ValidateRoles() returns (error: Option<string>)
      requires Valid()
      ensures error == FirstRoleViolation(rolesById.Values(), outfitsById.entries)
    {
      var roles := rolesById.Values();
      var i := 0;
      while i < |roles|
        invariant 0 <= i <= |roles|
        invariant forall j :: 0 <= j < i ==> RoleViolation(roles[j], outfitsById.entries).None?
      {
        var role := roles[i];
        var defOutfit := outfitsById.Get(role.defaultOutfitId);
        if defOutfit.None? {
          FirstRoleViolationAt(roles, outfitsById.entries, i);
          return Some("Role " + role.id + " defaultOutfitId not found: " + role.defaultOutfitId);
        }
        if defOutfit.value.roleId != role.id {
          FirstRoleViolationAt(roles, outfitsById.entries, i);
          return Some("Default outfit roleId mismatch for role " + role.id);
        }
        i := i + 1;
      }
      FirstRoleViolationAt(roles, outfitsById.entries, i);
      error := None;
    }

    /** The second loop of `validate`: each outfit's role and loop. */
    method ValidateOutfits() returns (error: Option<string>)
      requires Valid()
      ensures error == FirstOutfitViolation(outfitsById.Values(), rolesById.entries, loopsById.entries)
    {
      var outfits := outfitsById.Values();
      var i := 0;
      while i < |outfits|
        invariant 0 <= i <= |outfits|
        invariant forall j :: 0 <= j < i ==> OutfitViolation(outfits[j], rolesById.entries, loopsById.entries).None?
      {
        var outfit := outfits[i];
        var role := rolesById.Get(outfit.roleId);
        if role.None? {
          FirstOutfitViolationAt(outfits, rolesById.entries, loopsById.entries, i);
          return Some("Outfit " + outfit.id + " references missing roleId: " + outfit.roleId);
        }
        var loopAssetId := OrNull(outfit.loopAssetId);
        if loopAssetId.Some? {
          var loop := loopsById.Get(loopAssetId.value);
          if loop.None? {
            FirstOutfitViolationAt(outfits, rolesById.entries, loopsById.entries, i);
            return Some("Outfit " + outfit.id + " references missing loopAssetId: " + loopAssetId.value);
          }
          if loop.value.category != role.value.category {
            FirstOutfitViolationAt(outfits, rolesById.entries, loopsById.entries, i);
            return Some("Outfit " + outfit.id + " loop category mismatch: role.category="
                        + role.value.category + ", loop.category=" + loop.value.category);
          }
        }
        i := i + 1;
      }
      FirstOutfitViolationAt(outfits, rolesById.entries, loopsById.entries, i);
      error := None;
    }
  }
}
