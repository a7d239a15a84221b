/**
 * The performer swap state machine of the stage (src/stage/StageRenderer.ts): dropping an
 * outfit on a performer requests a swap at the next musical boundary, and a per-frame pass
 * commits every swap whose boundary has passed. Drawing, dragging and animation are not
 * modelled; `performance.now()`, the device clock, the fresh instance id and the stage size
 * are parameters.
 */
module Stage {
  import opened Wrappers
  import opened Types
  import opened JsArrays
  import opened TransportClock
  import opened Scene
  import opened Assets
  import opened Audio

  // ---------------------------------------------------------------------------------------
  // Geometry
  // ---------------------------------------------------------------------------------------

  function Min(a: real, b: real): real {
    if a <= b then a else b
  }

  /** Height of the stage area: the renderer height minus the tray (`floor(h * 0.18)`). */
  function StageHeight(rendererHeight: real): (r: real)
    ensures 0.82 * rendererHeight <= r < 0.82 * rendererHeight + 1.0
  {
    rendererHeight - (rendererHeight * 0.18).Floor as real
  }

  /** `clampToStage`: keep a performer 60 px from the sides and 90 px from the top and bottom. */
  function ClampToStage(pos: Position, width: real, height: real): (r: Position)
    ensures width >= 120.0 ==> 60.0 <= r.x <= width - 60.0
    ensures height >= 180.0 ==> 90.0 <= r.y <= height - 90.0
    ensures width < 120.0 ==> r.x == 60.0
    ensures height < 180.0 ==> r.y == 90.0
  {
    Position(Max(60.0, Min(width - 60.0, pos.x)), Max(90.0, Min(height - 90.0, pos.y)))
  }

  /** A point already inside the margins is left where it is, so clamping twice is clamping once. */
  lemma ClampKeepsInside(pos: Position, width: real, height: real)
    ensures 60.0 <= pos.x <= width - 60.0 && 90.0 <= pos.y <= height - 90.0 ==> ClampToStage(pos, width, height) == pos
    ensures ClampToStage(ClampToStage(pos, width, height), width, height) == ClampToStage(pos, width, height)
  {
  }

  function Dist2(a: Position, b: Position): real {
    (a.x - b.x) * (a.x - b.x) + (a.y - b.y) * (a.y - b.y)
  }

  /**
   * `findNearestInstance` over the sprite map's entries in insertion order. The result is
   * `null` exactly when no sprite lies within the radius; otherwise it names a sprite within
   * the radius that no sprite beats, and no later sprite is as close (`<=` lets ties go to the
   * later entry).
   */
  method FindNearestInstance(sprites: seq<(Id, Position)>, point: Position, radiusPx: real) returns (bestId: Option<Id>)
    ensures bestId.None? <==> forall j :: 0 <= j < |sprites| ==> Dist2(sprites[j].1, point) > radiusPx * radiusPx
    ensures bestId.Some? ==>
              exists i :: 0 <= i < |sprites| && sprites[i].0 == bestId.value
                && Dist2(sprites[i].1, point) <= radiusPx * radiusPx
                && (forall j :: 0 <= j < |sprites| ==> Dist2(sprites[i].1, point) <= Dist2(sprites[j].1, point))
                && (forall j :: i < j < |sprites| ==> Dist2(sprites[i].1, point) < Dist2(sprites[j].1, point))
  {
    bestId := None;
    var bestDist2 := radiusPx * radiusPx;
    ghost var best: int := -1;
    for k := 0 to |sprites|
      invariant -1 <= best < k
      invariant best == -1 <==> bestId.None?
      invariant best == -1 ==> bestDist2 == radiusPx * radiusPx
                               && forall j :: 0 <= j < k ==> Dist2(sprites[j].1, point) > radiusPx * radiusPx
      invariant best >= 0 ==> best < |sprites| && bestId == Some(sprites[best].0)
                              && bestDist2 == Dist2(sprites[best].1, point)
                              && bestDist2 <= radiusPx * radiusPx
                              && (forall j :: 0 <= j < k ==> bestDist2 <= Dist2(sprites[j].1, point))
                              && (forall j :: best < j < k ==> bestDist2 < Dist2(sprites[j].1, point))
    {
      var (id, c) := sprites[k];
      var dx := c.x - point.x;
      var dy := c.y - point.y;
      var d2 := dx * dx + dy * dy;
      assert d2 == Dist2(sprites[k].1, point);
      if d2 <= bestDist2 {
        bestDist2 := d2;
        bestId := Some(id);
        best := k;
      }
    }
  }

  // ---------------------------------------------------------------------------------------
  // The swap state machine on instance records
  // ---------------------------------------------------------------------------------------

  /** Bars of the loop of the instance's current outfit, or 1 when neutral or loopless (JS truthiness). */
  function CurrentBars(inst: RoleInstanceState, outfits: map<Id, OutfitDef>, loops: map<Id, LoopAssetDef>): (bars: int)
    ensures bars == 1 || bars == 2 || bars == 4 || bars == 8
  {
    var currentOutfit := if Truthy(inst.currentOutfitId) && inst.currentOutfitId.value in outfits
                         then Some(outfits[inst.currentOutfitId.value]) else None;
    var loopId := if currentOutfit.Some? then OrNull(currentOutfit.value.loopAssetId) else None;
    if Truthy(loopId) && loopId.value in loops then loops[loopId.value].bars else 1
  }

  /** The boundary a swap request waits for: the next bar, or the end of the current loop's cycle. */
  function SwapTimeMs(t: Transport, mode: SwapMode, inst: RoleInstanceState,
                      outfits: map<Id, OutfitDef>, loops: map<Id, LoopAssetDef>, nowMs: real): real
    reads t
    requires t.Valid()
  {
    if mode == Bar then t.NextBarTime(nowMs)
    else t.NextLoopBoundaryTime(CurrentBars(inst, outfits, loops), nowMs)
  }

  lemma SwapTimeDependsOnOutfitOnly(t: Transport, mode: SwapMode, a: RoleInstanceState, b: RoleInstanceState,
                                    outfits: map<Id, OutfitDef>, loops: map<Id, LoopAssetDef>, nowMs: real)
    requires t.Valid() && a.currentOutfitId == b.currentOutfitId
    ensures SwapTimeMs(t, mode, a, outfits, loops, nowMs) == SwapTimeMs(t, mode, b, outfits, loops, nowMs)
  {
    assert CurrentBars(a, outfits, loops) == CurrentBars(b, outfits, loops);
  }

  /** The instance once a swap to `outfitId` at `atMs` is requested. */
  function Requested(inst: RoleInstanceState, outfitId: Id, mode: SwapMode, atMs: real): RoleInstanceState {
    inst.(status := Transitioning, pendingSwap := Some(PendingSwap(outfitId, Some(atMs), mode)))
  }

  /** A swap is due once its boundary is known and `now` has reached it. */
  predicate IsDue(inst: RoleInstanceState, nowMs: real) {
    inst.pendingSwap.Some? && inst.pendingSwap.value.scheduledAtMs.Some? && nowMs >= inst.pendingSwap.value.scheduledAtMs.value
  }

  /** The commit of one instance: a due swap installs its outfit and the performer performs. */
  function CommitOne(inst: RoleInstanceState, nowMs: real): (r: RoleInstanceState)
    ensures r.instanceId == inst.instanceId && r.roleId == inst.roleId && r.position == inst.position && r.muted == inst.muted
    ensures !IsDue(r, nowMs)
    ensures IsDue(inst, nowMs) ==> r.currentOutfitId == Some(inst.pendingSwap.value.newOutfitId) && r.status == Performing
    ensures !IsDue(inst, nowMs) ==> r == inst
  {
    if IsDue(inst, nowMs) then
      inst.(currentOutfitId := Some(inst.pendingSwap.value.newOutfitId), pendingSwap := None, status := Performing)
    else inst
  }

  /** The instance list after one `processPendingSwaps` pass. */
  function CommitDue(s: seq<RoleInstanceState>, nowMs: real): (r: seq<RoleInstanceState>)
    ensures |r| == |s|
  {
    seq(|s|, j requires 0 <= j < |s| => CommitOne(s[j], nowMs))
  }

  /**
   * A pass commits every due swap (outfit installed, pending cleared, performing) and touches
   * nothing else: instances with no boundary yet or a later one are untouched, and every
   * instance keeps its id, role, position and mute flag.
   */
  lemma CommitDueEffect(s: seq<RoleInstanceState>, nowMs: real, j: nat)
    requires j < |s|
    ensures IsDue(s[j], nowMs) ==>
              && CommitDue(s, nowMs)[j].currentOutfitId == Some(s[j].pendingSwap.value.newOutfitId)
              && CommitDue(s, nowMs)[j].pendingSwap.None?
              && CommitDue(s, nowMs)[j].status == Performing
    ensures !IsDue(s[j], nowMs) ==> CommitDue(s, nowMs)[j] == s[j]
    ensures CommitDue(s, nowMs)[j].instanceId == s[j].instanceId && CommitDue(s, nowMs)[j].roleId == s[j].roleId
    ensures CommitDue(s, nowMs)[j].position == s[j].position && CommitDue(s, nowMs)[j].muted == s[j].muted
  {
  }

  /** After a pass nothing is due at that instant, so a second pass at the same `now` changes nothing. */
  lemma CommitDueIdempotent(s: seq<RoleInstanceState>, nowMs: real)
    ensures forall j :: 0 <= j < |s| ==> !IsDue(CommitDue(s, nowMs)[j], nowMs)
    ensures CommitDue(CommitDue(s, nowMs), nowMs) == CommitDue(s, nowMs)
  {
    var r := CommitDue(s, nowMs);
    assert forall j :: 0 <= j < |s| ==> CommitOne(r[j], nowMs) == r[j];
  }

  /** Passes at `t1` and then `t2 >= t1` commit exactly what one pass at `t2` commits: each swap commits once. */
  lemma CommitDueLater(s: seq<RoleInstanceState>, t1: real, t2: real)
    requires t1 <= t2
    ensures CommitDue(CommitDue(s, t1), t2) == CommitDue(s, t2)
  {
    var r1 := CommitDue(s, t1);
    assert forall j :: 0 <= j < |s| ==> CommitOne(r1[j], t2) == CommitOne(s[j], t2);
  }

  lemma CommitDueKeepsDistinct(s: seq<RoleInstanceState>, nowMs: real)
    requires DistinctIds(s)
    ensures DistinctIds(CommitDue(s, nowMs))
  {
  }

  /** A request is accepted when the instance exists and the outfit exists and belongs to its role. */
  predicate Accepts(s: SceneState, instanceId: Id, outfitId: Id, outfits: map<Id, OutfitDef>) {
    var k := IndexOfId(s.instances, instanceId);
    k >= 0 && outfitId in outfits && outfits[outfitId].roleId == s.instances[k].roleId
  }

  function MismatchMessage(outfitRoleId: Id, instanceRoleId: Id): string {
    "Outfit role mismatch. outfit.roleId=" + outfitRoleId + ", instance.roleId=" + instanceRoleId
  }

  /** The boundary of an accepted request, computed from the instance as it stood. */
  function DropSwapTime(s: SceneState, instanceId: Id, outfits: map<Id, OutfitDef>, loops: map<Id, LoopAssetDef>,
                        t: Transport, nowMs: real): real
    reads t
    requires t.Valid()
  {
    var k := IndexOfId(s.instances, instanceId);
    if k < 0 then nowMs else SwapTimeMs(t, s.swapMode, s.instances[k], outfits, loops, nowMs)
  }

  /** The scene after `handleDropOutfit(instanceId, outfitId)` at `nowMs`. */
  function Dropped(s: SceneState, instanceId: Id, outfitId: Id, outfits: map<Id, OutfitDef>, loops: map<Id, LoopAssetDef>,
                   t: Transport, nowMs: real): SceneState
    reads t
    requires t.Valid()
  {
    var k := IndexOfId(s.instances, instanceId);
    if k < 0 then s
    else if outfitId !in outfits then s.(lastError := Some("Unknown outfitId: " + outfitId))
    else if outfits[outfitId].roleId != s.instances[k].roleId then
      s.(lastError := Some(MismatchMessage(outfits[outfitId].roleId, s.instances[k].roleId)))
    else
      s.(instances := s.instances[k := Requested(s.instances[k], outfitId, s.swapMode,
                                                 DropSwapTime(s, instanceId, outfits, loops, t, nowMs))],
         lastError := None)
  }

  lemma DropUnknownInstance(s: SceneState, instanceId: Id, outfitId: Id, outfits: map<Id, OutfitDef>,
                            loops: map<Id, LoopAssetDef>, t: Transport, nowMs: real)
    requires t.Valid()
    requires forall j :: 0 <= j < |s.instances| ==> s.instances[j].instanceId != instanceId
    ensures Dropped(s, instanceId, outfitId, outfits, loops, t, nowMs) == s
  {
  }

  /** An unknown outfit records the error and leaves every instance and the mode unchanged. */
  lemma DropUnknownOutfit(s: SceneState, k: nat, outfitId: Id, outfits: map<Id, OutfitDef>,
                          loops: map<Id, LoopAssetDef>, t: Transport, nowMs: real)
    requires t.Valid() && k < |s.instances| && outfitId !in outfits
    ensures var r := Dropped(s, s.instances[k].instanceId, outfitId, outfits, loops, t, nowMs);
            r.instances == s.instances && r.swapMode == s.swapMode
            && r.lastError == Some("Unknown outfitId: " + outfitId)
  {
  }

  /** An outfit of another role records the mismatch and leaves every instance unchanged. */
  lemma DropRoleMismatch(s: SceneState, k: nat, outfitId: Id, outfits: map<Id, OutfitDef>,
                         loops: map<Id, LoopAssetDef>, t: Transport, nowMs: real)
    requires t.Valid() && DistinctIds(s.instances) && k < |s.instances|
    requires outfitId in outfits && outfits[outfitId].roleId != s.instances[k].roleId
    ensures var r := Dropped(s, s.instances[k].instanceId, outfitId, outfits, loops, t, nowMs);
            r.instances == s.instances && r.swapMode == s.swapMode
            && r.lastError == Some(MismatchMessage(outfits[outfitId].roleId, s.instances[k].roleId))
  {
    assert IndexOfId(s.instances, s.instances[k].instanceId) == k;
  }

  /**
   * An accepted request puts that performer, and only it, into transition towards the outfit
   * at the chosen boundary in the current mode, keeps its current outfit until the commit,
   * and clears the error.
   */
  lemma DropAccepted(s: SceneState, k: nat, outfitId: Id, outfits: map<Id, OutfitDef>,
                     loops: map<Id, LoopAssetDef>, t: Transport, nowMs: real)
    requires t.Valid() && DistinctIds(s.instances) && k < |s.instances|
    requires outfitId in outfits && outfits[outfitId].roleId == s.instances[k].roleId
    ensures var r := Dropped(s, s.instances[k].instanceId, outfitId, outfits, loops, t, nowMs);
            var at := SwapTimeMs(t, s.swapMode, s.instances[k], outfits, loops, nowMs);
            && |r.instances| == |s.instances|
            && r.instances[k].status == Transitioning
            && r.instances[k].pendingSwap == Some(PendingSwap(outfitId, Some(at), s.swapMode))
            && r.instances[k].currentOutfitId == s.instances[k].currentOutfitId
            && r.instances[k].instanceId == s.instances[k].instanceId
            && r.instances[k].roleId == s.instances[k].roleId
            && r.instances[k].position == s.instances[k].position
            && r.instances[k].muted == s.instances[k].muted
            && (forall j :: 0 <= j < |s.instances| && j != k ==> r.instances[j] == s.instances[j])
            && r.lastError.None? && r.swapMode == s.swapMode
            && at >= nowMs
  {
    assert IndexOfId(s.instances, s.instances[k].instanceId) == k;
    var inst := s.instances[k];
    if s.swapMode == Bar {
      NextBarTimeBounds(t, nowMs);
    } else {
      var bars := CurrentBars(inst, outfits, loops);
      NextBoundaryBounds(t.startMs, t.CycleMs(bars), nowMs);
    }
  }

  /**
   * The boundary choice: the next bar in bar mode; in loop mode the end of the current loop's
   * cycle. A performer without a playable loop (neutral, an uncatalogued outfit, an absent,
   * null or empty loop id, or an uncatalogued loop) waits one bar, which is the next bar.
   */
  lemma DropBoundary(t: Transport, inst: RoleInstanceState, outfits: map<Id, OutfitDef>,
                     loops: map<Id, LoopAssetDef>, nowMs: real)
    requires t.Valid()
    ensures SwapTimeMs(t, Bar, inst, outfits, loops, nowMs) == t.NextBarTime(nowMs)
    ensures SwapTimeMs(t, Loop, inst, outfits, loops, nowMs)
            == t.NextLoopBoundaryTime(CurrentBars(inst, outfits, loops), nowMs)
    ensures !Truthy(inst.currentOutfitId) ==> SwapTimeMs(t, Loop, inst, outfits, loops, nowMs) == t.NextBarTime(nowMs)
    ensures var o := inst.currentOutfitId;
            !(Truthy(o) && o.value in outfits && Truthy(OrNull(outfits[o.value].loopAssetId))
              && OrNull(outfits[o.value].loopAssetId).value in loops)
            ==> CurrentBars(inst, outfits, loops) == 1 && SwapTimeMs(t, Loop, inst, outfits, loops, nowMs) == t.NextBarTime(nowMs)
    ensures var o := inst.currentOutfitId;
            Truthy(o) && o.value in outfits && OrNull(outfits[o.value].loopAssetId).Some?
              && OrNull(outfits[o.value].loopAssetId).value in loops && OrNull(outfits[o.value].loopAssetId).value != ""
            ==> CurrentBars(inst, outfits, loops) == loops[OrNull(outfits[o.value].loopAssetId).value].bars
  {
    OneBarLoopIsBar(t, nowMs);
  }

  /**
   * The last request wins: a second accepted drop on the same performer before the commit
   * leaves no trace of the first.
   */
  lemma LastRequestWins(s: SceneState, k: nat, o1: Id, o2: Id, outfits: map<Id, OutfitDef>,
                        loops: map<Id, LoopAssetDef>, t: Transport, t1: real, t2: real)
    requires t.Valid() && DistinctIds(s.instances) && k < |s.instances|
    requires o1 in outfits && outfits[o1].roleId == s.instances[k].roleId
    requires o2 in outfits && outfits[o2].roleId == s.instances[k].roleId
    ensures var id := s.instances[k].instanceId;
            Dropped(Dropped(s, id, o1, outfits, loops, t, t1), id, o2, outfits, loops, t, t2)
            == Dropped(s, id, o2, outfits, loops, t, t2)
  {
    var id := s.instances[k].instanceId;
    var r1 := Dropped(s, id, o1, outfits, loops, t, t1);
    DropAccepted(s, k, o1, outfits, loops, t, t1);
    UpsertExisting(s.instances, r1.instances[k], k);
    assert DistinctIds(r1.instances) by {
      UpsertKeepsDistinct(s.instances, r1.instances[k]);
      assert r1.instances == Upserted(s.instances, r1.instances[k]);
    }
    assert IndexOfId(r1.instances, id) == k;
    assert IndexOfId(s.instances, id) == k;
    assert CurrentBars(r1.instances[k], outfits, loops) == CurrentBars(s.instances[k], outfits, loops);
    var r2 := Dropped(r1, id, o2, outfits, loops, t, t2);
    var r := Dropped(s, id, o2, outfits, loops, t, t2);
    assert r2.instances[k] == r.instances[k];
    assert r2.instances == r.instances;
  }

  /** An accepted request is committed by the first pass at or after its boundary, and not before. */
  lemma DropThenCommit(s: SceneState, k: nat, outfitId: Id, outfits: map<Id, OutfitDef>,
                       loops: map<Id, LoopAssetDef>, t: Transport, nowMs: real, tickMs: real)
    requires t.Valid() && DistinctIds(s.instances) && k < |s.instances|
    requires outfitId in outfits && outfits[outfitId].roleId == s.instances[k].roleId
    ensures var r := Dropped(s, s.instances[k].instanceId, outfitId, outfits, loops, t, nowMs);
            var at := SwapTimeMs(t, s.swapMode, s.instances[k], outfits, loops, nowMs);
            && (tickMs >= at ==> CommitDue(r.instances, tickMs)[k].currentOutfitId == Some(outfitId)
                                 && CommitDue(r.instances, tickMs)[k].status == Performing)
            && (tickMs < at ==> CommitDue(r.instances, tickMs)[k] == r.instances[k])
  {
    DropAccepted(s, k, outfitId, outfits, loops, t, nowMs);
  }

  /** The scene after `createOrMoveRoleInstance(roleId, pos)` with `freshId` as the new id. */
  function Placed(s: SceneState, roles: map<Id, RoleDef>, roleId: Id, pos: Position,
                  width: real, height: real, freshId: Id): SceneState
  {
    if roleId !in roles then s.(lastError := Some("Unknown roleId: " + roleId))
    else
      var k := FindIndex(s.instances, (i: RoleInstanceState) => i.roleId == roleId);
      if k >= 0 then s.(instances := Upserted(s.instances, s.instances[k].(position := ClampToStage(pos, width, height))))
      else s.(instances := Upserted(s.instances, NewInstance(freshId, roleId, ClampToStage(pos, width, height))))
  }

  /** A new performer: idle, neutral, unmuted, nothing pending. */
  function NewInstance(id: Id, roleId: Id, pos: Position): RoleInstanceState {
    RoleInstanceState(id, roleId, None, pos, false, Idle, None)
  }

  lemma PlaceUnknownRole(s: SceneState, roles: map<Id, RoleDef>, roleId: Id, pos: Position,
                         width: real, height: real, freshId: Id)
    requires roleId !in roles
    ensures var r := Placed(s, roles, roleId, pos, width, height, freshId);
            r.instances == s.instances && r.swapMode == s.swapMode && r.lastError == Some("Unknown roleId: " + roleId)
  {
  }

  /** A role already on stage has its first performer moved (clamped) and nothing else changed. */
  lemma PlaceExistingMoves(s: SceneState, roles: map<Id, RoleDef>, k: nat, pos: Position,
                           width: real, height: real, freshId: Id)
    requires DistinctIds(s.instances) && k < |s.instances| && s.instances[k].roleId in roles
    requires forall j :: 0 <= j < k ==> s.instances[j].roleId != s.instances[k].roleId
    ensures var r := Placed(s, roles, s.instances[k].roleId, pos, width, height, freshId);
            r.instances == s.instances[k := s.instances[k].(position := ClampToStage(pos, width, height))]
            && r.lastError == s.lastError && r.swapMode == s.swapMode
  {
    var inst := s.instances[k].(position := ClampToStage(pos, width, height));
    assert IndexOfId(s.instances, inst.instanceId) == k;
  }

  /** A role not yet on stage gets a new idle, neutral performer, appended when its id is fresh. */
  lemma PlaceNewAppends(s: SceneState, roles: map<Id, RoleDef>, roleId: Id, pos: Position,
                        width: real, height: real, freshId: Id)
    requires roleId in roles
    requires forall j :: 0 <= j < |s.instances| ==> s.instances[j].roleId != roleId
    requires forall j :: 0 <= j < |s.instances| ==> s.instances[j].instanceId != freshId
    ensures var r := Placed(s, roles, roleId, pos, width, height, freshId);
            && r.instances == s.instances + [RoleInstanceState(freshId, roleId, None, ClampToStage(pos, width, height), false, Idle, None)]
            && r.lastError == s.lastError && r.swapMode == s.swapMode
  {
  }

  /** The scene after the mute toggle of a performer. */
  function MuteToggled(s: SceneState, instanceId: Id): (r: SceneState)
    ensures r.swapMode == s.swapMode && r.lastError == s.lastError && |r.instances| == |s.instances|
    ensures forall j :: 0 <= j < |s.instances| ==>
      r.instances[j] == if s.instances[j].instanceId == instanceId && IndexOfId(s.instances, instanceId) == j
                        then s.instances[j].(muted := !s.instances[j].muted) else s.instances[j]
  {
    var k := IndexOfId(s.instances, instanceId);
    if k < 0 then s else s.(instances := s.instances[k := s.instances[k].(muted := !s.instances[k].muted)])
  }

  /**
   * Tapping twice restores the scene, and after a tap the performer's mute flag in the scene
   * and in the audio engine's track agree.
   */
  lemma ToggleMuteAgrees(s: SceneState, e: EngineState, k: nat, transportStartMs: real, boot: DeviceStart, deviceNow: real)
    requires DistinctIds(s.instances) && k < |s.instances| && WellFormed(e)
    ensures var id := s.instances[k].instanceId;
            var r := MuteToggled(s, id);
            && MuteToggled(r, id) == s
            && r.instances[k].muted == !s.instances[k].muted
            && SetMutedSpec(StartedSpec(e, transportStartMs, boot), id, r.instances[k].muted, deviceNow).tracks[id].muted
               == r.instances[k].muted
  {
    var id := s.instances[k].instanceId;
    StartedKeepsWellFormed(e, transportStartMs, boot);
    SetMutedEffect(StartedSpec(e, transportStartMs, boot), id, !s.instances[k].muted, deviceNow);
    assert IndexOfId(s.instances, id) == k;
    var r := MuteToggled(s, id);
    assert forall j :: 0 <= j < |s.instances| ==> r.instances[j].instanceId == s.instances[j].instanceId;
    assert IndexOfId(r.instances, id) == k;
    assert r.instances[k := r.instances[k].(muted := !r.instances[k].muted)] == s.instances;
  }

  // ---------------------------------------------------------------------------------------
  // The renderer's state-changing handlers
  // ---------------------------------------------------------------------------------------

  class StageRenderer {
    const store: SceneStore
    const assets: AssetManager
    const transport: Transport
    const audio: AudioEngine

    ghost predicate Valid()
      reads this, store, transport, audio
    {
      && store.Valid() && transport.Valid() && audio.Valid()
      && audio.assets == assets && audio.transport == transport
    }

    constructor (store: SceneStore, assets: AssetManager, transport: Transport, audio: AudioEngine)
      requires store.Valid() && transport.Valid() && audio.Valid()
      requires audio.assets == assets && audio.transport == transport
      ensures Valid()
      ensures this.store == store && this.assets == assets && this.transport == transport && this.audio == audio
    {
      this.store := store;
      this.assets := assets;
      this.transport := transport;
      this.audio := audio;
    }

    /**
     * `processPendingSwaps` at `nowMs`: walks a copy of the instances and upserts each one whose
     * swap is due, committed.
     */
    method ProcessPendingSwaps(nowMs: real)
      requires Valid()
      modifies store
      ensures Valid()
      ensures store.instances == CommitDue(old(store.instances), nowMs)
      ensures store.swapMode == old(store.swapMode) && store.lastError == old(store.lastError)
    {
      var now := nowMs;
      var s := store.GetState();
      for i := 0 to |s.instances|
        invariant store.Valid()
        invariant |store.instances| == |s.instances|
        invariant forall j :: 0 <= j < |s.instances| ==>
                    store.instances[j] == if j < i then CommitOne(s.instances[j], now) else s.instances[j]
        invariant store.swapMode == s.swapMode && store.lastError == s.lastError
      {
        var inst := s.instances[i];
        var ps := inst.pendingSwap;
        if ps.None? || ps.value.scheduledAtMs.None? {
          continue;
        }
        if now < ps.value.scheduledAtMs.value {
          continue;
        }
        inst := inst.(currentOutfitId := Some(ps.value.newOutfitId), pendingSwap := None, status := Performing);
        assert IndexOfId(store.instances, inst.instanceId) == i;
        store.UpsertInstance(inst);
      }
      assert store.instances == CommitDue(s.instances, now);
    }

    /**
     * `handleDropOutfit`: validate the request, put the performer in transition with the
     * boundary from the clock, then hand the audio change for that boundary to the engine.
     * `boot`, `deviceNow` and `fetch` are what the audio device and the network report.
     */
    method HandleDropOutfit(instanceId: Id, newOutfitId: Id, nowMs: real,
                            boot: DeviceStart, deviceNow: real, fetch: FetchResult)
      requires Valid()
      modifies store, audio
      ensures Valid()
      ensures store.GetState() == Dropped(old(store.GetState()), instanceId, newOutfitId,
                                          assets.outfitsById.entries, assets.loopsById.entries, transport, nowMs)
      ensures audio.State() ==
                if Accepts(old(store.GetState()), instanceId, newOutfitId, assets.outfitsById.entries)
                then OutfitChangeSpec(old(audio.State()), assets.outfitsById.entries, assets.loopsById.entries,
                                      transport.startMs, boot, instanceId, newOutfitId,
                                      DropSwapTime(old(store.GetState()), instanceId, assets.outfitsById.entries,
                                                   assets.loopsById.entries, transport, nowMs),
                                      deviceNow, fetch)
                else old(audio.State())
    {
      var s := store.GetState();
      var k := IndexOfId(s.instances, instanceId);
      if k < 0 {
        return;
      }
      var inst := s.instances[k];
      var newOutfit := assets.GetOutfit(newOutfitId);
      if newOutfit.None? {
        store.SetError(Some("Unknown outfitId: " + newOutfitId));
        return;
      }
      if newOutfit.value.roleId != inst.roleId {
        store.SetError(Some(MismatchMessage(newOutfit.value.roleId, inst.roleId)));
        return;
      }

      var swapTimeMs := RequestSwap(k, inst, newOutfitId, nowMs);
      audio.ScheduleOutfitChangeAt(instanceId, newOutfitId, swapTimeMs, boot, deviceNow, fetch);
    }

    /**
     * The accepted path of `handleDropOutfit` on the store: mark the performer as transitioning
     * with the boundary still unknown, clear the error, then fill in the boundary.
     */
    method RequestSwap(k: nat, inst: RoleInstanceState, newOutfitId: Id, nowMs: real) returns (swapTimeMs: real)
      requires Valid() && k < |store.instances| && store.instances[k] == inst
      modifies store
      ensures Valid()
      ensures swapTimeMs == SwapTimeMs(transport, old(store.swapMode), inst, assets.outfitsById.entries,
                                       assets.loopsById.entries, nowMs)
      ensures store.instances == old(store.instances)[k := Requested(inst, newOutfitId, old(store.swapMode), swapTimeMs)]
      ensures store.swapMode == old(store.swapMode) && store.lastError.None?
    {
      var s := store.GetState();
      assert IndexOfId(s.instances, inst.instanceId) == k;
      var pending := inst.(status := Transitioning, pendingSwap := Some(PendingSwap(newOutfitId, None, s.swapMode)));
      store.UpsertInstance(pending);
      UpsertExisting(s.instances, pending, k);
      store.SetError(None);

      swapTimeMs := ChooseSwapTime(pending, s.swapMode, nowMs);
      SwapTimeDependsOnOutfitOnly(transport, s.swapMode, pending, inst, assets.outfitsById.entries,
                                  assets.loopsById.entries, nowMs);
      var scheduled := pending.(pendingSwap := Some(pending.pendingSwap.value.(scheduledAtMs := Some(swapTimeMs))));
      assert IndexOfId(store.instances, inst.instanceId) == k;
      store.UpsertInstance(scheduled);
      UpsertExisting(s.instances[k := pending], scheduled, k);
    }

    /** The boundary computation of `handleDropOutfit` for the instance as it stands. */
    method ChooseSwapTime(inst: RoleInstanceState, mode: SwapMode, nowMs: real) returns (swapTimeMs: real)
      requires transport.Valid()
      ensures swapTimeMs == SwapTimeMs(transport, mode, inst, assets.outfitsById.entries, assets.loopsById.entries, nowMs)
    {
      var now := nowMs;
      if mode == Bar {
        swapTimeMs := transport.NextBarTime(now);
      } else {
        var currentOutfit := if Truthy(inst.currentOutfitId) then assets.GetOutfit(inst.currentOutfitId.value) else None;
        var currentLoopId := if currentOutfit.Some? then OrNull(currentOutfit.value.loopAssetId) else None;
        var currentLoop := if Truthy(currentLoopId) then assets.GetLoop(currentLoopId.value) else None;
        var currentBars := if currentLoop.Some? then currentLoop.value.bars as int else 1;
        assert currentBars == CurrentBars(inst, assets.outfitsById.entries, assets.loopsById.entries);
        swapTimeMs := transport.NextLoopBoundaryTime(currentBars, now);
      }
    }

    /**
     * `createOrMoveRoleInstance` on a stage of the given renderer size; `freshId` is the id
     * `uuid()` would produce.
     */
    method CreateOrMoveRoleInstance(roleId: Id, pos: Position, rendererWidth: real, rendererHeight: real, freshId: Id)
      requires Valid()
      modifies store
      ensures Valid()
      ensures store.GetState() == Placed(old(store.GetState()), assets.rolesById.entries, roleId, pos,
                                         rendererWidth, StageHeight(rendererHeight), freshId)
    {
      var role := assets.GetRole(roleId);
      if role.None? {
        store.SetError(Some("Unknown roleId: " + roleId));
        return;
      }
      var state := store.GetState();
      var k := FindIndex(state.instances, (i: RoleInstanceState) => i.roleId == roleId);
      if k >= 0 {
        var existing := state.instances[k].(position := ClampToStage(pos, rendererWidth, StageHeight(rendererHeight)));
        store.UpsertInstance(existing);
        return;
      }
      var instance := NewInstance(freshId, roleId, ClampToStage(pos, rendererWidth, StageHeight(rendererHeight)));
      store.UpsertInstance(instance);
    }

    /** The performer tap handler: flip the stored mute flag, then start audio and apply it to the track. */
    method ToggleMute(instanceId: Id, boot: DeviceStart, deviceNow: real)
      requires Valid()
      modifies store, audio
      ensures Valid()
      ensures store.GetState() == MuteToggled(old(store.GetState()), instanceId)
      ensures var k := IndexOfId(old(store.instances), instanceId);
              audio.State() ==
                if k < 0 then old(audio.State())
                else SetMutedSpec(StartedSpec(old(audio.State()), transport.startMs, boot), instanceId,
                                  !old(store.instances)[k].muted, deviceNow)
    {
      var s := store.GetState();
      var k := IndexOfId(s.instances, instanceId);
      if k < 0 {
        return;
      }
      var curr := s.instances[k];
      curr := curr.(muted := !curr.muted);
      store.UpsertInstance(curr);
      UpsertExisting(s.instances, curr, k);
      audio.EnsureStarted(boot);
      audio.SetMuted(curr.instanceId, curr.muted, deviceNow);
    }
  }
}
