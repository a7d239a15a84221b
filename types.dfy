/**
 * The scene's data model (src/core/state/types.ts): catalog definitions read from the
 * JSON files, the pending-swap record, per-performer state and the whole scene.
 */
module Types {
  import opened Wrappers

  type Id = string

  /** Quantization mode of a swap: at the next bar, or at the end of the current loop's cycle. */
  datatype SwapMode = Bar | Loop

  /** An optional JSON field that may be absent, present as `null`, or present with a value. */
  datatype Nullable<+T> = Undefined | Null | Present(value: T)

  /** The `x ?? null` idiom: absent and `null` both collapse to "nothing". */
  function OrNull<T>(n: Nullable<T>): (r: Option<T>)
    ensures r.None? <==> (n.Undefined? || n.Null?)
    ensures r.Some? ==> n == Present(r.value)
  {
    match n
    case Present(v) => Some(v)
    case _ => None
  }

  datatype RoleDef = RoleDef(
    id: Id,
    displayName: string,
    category: string,
    maxInstances: int,
    defaultOutfitId: Id)

  datatype Visual = Visual(sprite: string)

  datatype AnimationPreset = AnimationPreset(idle: string, performing: string, transition: string, accent: string)

  datatype OutfitDef = OutfitDef(
    id: Id,
    roleId: Id,
    loopAssetId: Nullable<Id>,   // visual-only outfits have no loop
    energy: real,
    visual: Visual,
    animationPreset: AnimationPreset)

  /** The number of bars a loop lasts: one of 1, 2, 4 or 8. */
  type Bars = b: int | b == 1 || b == 2 || b == 4 || b == 8 witness 1

  datatype LoopAssetDef = LoopAssetDef(
    id: Id,
    category: string,
    file: string,
    bars: Bars,
    gainDb: real,
    tags: Option<seq<string>>,
    sentenceHook: Option<bool>,
    text: Option<string>)

  /** A requested outfit change; `scheduledAtMs` is `None` until the boundary has been computed. */
  datatype PendingSwap = PendingSwap(newOutfitId: Id, scheduledAtMs: Option<real>, mode: SwapMode)

  datatype Status = Idle | Performing | Transitioning

  datatype Position = Position(x: real, y: real)

  /** One performer on stage; `currentOutfitId == None` is the neutral performer. */
  datatype RoleInstanceState = RoleInstanceState(
    instanceId: Id,
    roleId: Id,
    currentOutfitId: Option<Id>,
    position: Position,
    muted: bool,
    status: Status,
    pendingSwap: Option<PendingSwap>)

  datatype SceneState = SceneState(
    swapMode: SwapMode,
    instances: seq<RoleInstanceState>,
    lastError: Option<string>)

  /** JavaScript truthiness of a string-or-null value: `null` and `""` are falsy. */
  predicate Truthy(s: Option<string>) {
    s.Some? && s.value != ""
  }
}
