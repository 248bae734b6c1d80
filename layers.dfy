/** The collision-layer catalogue of the ray-trace wrapper: every primitive
    layer is one bit of an unsigned 64-bit mask, and the named masks are
    bitwise unions of primitive layers. */
module Layers {

  import opened Wrappers

  /** The primitive layers, in the order the catalogue declares them. */
  datatype Layer =
    | Solid | Hitboxes | Trigger | Sky | PlayerClip | NPCClip | BlockLOS
    | BlockLight | Ladder | Pickup | BlockSound | NoDraw | Window
    | PassBullets | WorldGeometry | Water | Slime | TouchAll | Player | NPC
    | Debris | PhysicsProp | NavIgnore | NavLocalIgnore
    | PostProcessingVolume | CarriedObject | PushAway | ServerEntityOnClient
    | CarriedWeapon | StaticLevel

  /** The value the catalogue assigns to each primitive layer. */
  function Flag(l: Layer): bv64
  {
    match l
    case Solid => 0x1
    case Hitboxes => 0x2
    case Trigger => 0x4
    case Sky => 0x8
    case PlayerClip => 0x10
    case NPCClip => 0x20
    case BlockLOS => 0x40
    case BlockLight => 0x80
    case Ladder => 0x100
    case Pickup => 0x200
    case BlockSound => 0x400
    case NoDraw => 0x800
    case Window => 0x1000
    case PassBullets => 0x2000
    case WorldGeometry => 0x4000
    case Water => 0x8000
    case Slime => 0x10000
    case TouchAll => 0x20000
    case Player => 0x40000
    case NPC => 0x80000
    case Debris => 0x100000
    case PhysicsProp => 0x200000
    case NavIgnore => 0x400000
    case NavLocalIgnore => 0x800000
    case PostProcessingVolume => 0x1000000
    case CarriedObject => 0x4000000
    case PushAway => 0x8000000
    case ServerEntityOnClient => 0x10000000
    case CarriedWeapon => 0x20000000
    case StaticLevel => 0x40000000
  }

  /** The bit position of each primitive layer (bit 25 is unused). */
  function BitIndex(l: Layer): (i: bv8)
    ensures i < 31 && i != 25
  {
    match l
    case Solid => 0
    case Hitboxes => 1
    case Trigger => 2
    case Sky => 3
    case PlayerClip => 4
    case NPCClip => 5
    case BlockLOS => 6
    case BlockLight => 7
    case Ladder => 8
    case Pickup => 9
    case BlockSound => 10
    case NoDraw => 11
    case Window => 12
    case PassBullets => 13
    case WorldGeometry => 14
    case Water => 15
    case Slime => 16
    case TouchAll => 17
    case Player => 18
    case NPC => 19
    case Debris => 20
    case PhysicsProp => 21
    case NavIgnore => 22
    case NavLocalIgnore => 23
    case PostProcessingVolume => 24
    case CarriedObject => 26
    case PushAway => 27
    case ServerEntityOnClient => 28
    case CarriedWeapon => 29
    case StaticLevel => 30
  }

  /** The layer that owns a bit position, if any. */
  function LayerAt(i: bv8): Option<Layer>
  {
    if i == 0 then Some(Solid)
    else if i == 1 then Some(Hitboxes)
    else if i == 2 then Some(Trigger)
    else if i == 3 then Some(Sky)
    else if i == 4 then Some(PlayerClip)
    else if i == 5 then Some(NPCClip)
    else if i == 6 then Some(BlockLOS)
    else if i == 7 then Some(BlockLight)
    else if i == 8 then Some(Ladder)
    else if i == 9 then Some(Pickup)
    else if i == 10 then Some(BlockSound)
    else if i == 11 then Some(NoDraw)
    else if i == 12 then Some(Window)
    else if i == 13 then Some(PassBullets)
    else if i == 14 then Some(WorldGeometry)
    else if i == 15 then Some(Water)
    else if i == 16 then Some(Slime)
    else if i == 17 then Some(TouchAll)
    else if i == 18 then Some(Player)
    else if i == 19 then Some(NPC)
    else if i == 20 then Some(Debris)
    else if i == 21 then Some(PhysicsProp)
    else if i == 22 then Some(NavIgnore)
    else if i == 23 then Some(NavLocalIgnore)
    else if i == 24 then Some(PostProcessingVolume)
    else if i == 26 then Some(CarriedObject)
    else if i == 27 then Some(PushAway)
    else if i == 28 then Some(ServerEntityOnClient)
    else if i == 29 then Some(CarriedWeapon)
    else if i == 30 then Some(StaticLevel)
    else None
  }

  /** Exactly one bit is set. */
  predicate IsSingleBit(b: bv64)
  {
    b != 0 && b & (b - 1) == 0
  }

  /** Two one-bit masks overlap exactly when they are the same bit. */
  lemma ShiftedBitsOverlap(i: bv8, j: bv8)
    requires i < 64 && j < 64
    ensures ((1 as bv64) << i) & ((1 as bv64) << j) != 0 <==> i == j
  {
  }

  /** Each primitive layer's value is the single bit at its position. */
  lemma FlagIsBitAt(l: Layer)
    ensures Flag(l) == (1 as bv64) << BitIndex(l)
  {
  }

  /** Every primitive layer is a power of two. */
  lemma FlagIsSingleBit(l: Layer)
    ensures IsSingleBit(Flag(l))
  {
    FlagIsBitAt(l);
    ShiftedBitIsSingle(BitIndex(l));
  }

  lemma ShiftedBitIsSingle(i: bv8)
    requires i < 64
    ensures IsSingleBit((1 as bv64) << i)
  {
  }

  /** No two primitive layers share a bit position. */
  lemma {:induction false} BitIndexInjective(l: Layer, m: Layer)
    ensures BitIndex(l) == BitIndex(m) <==> l == m
  {
    LayerAtInverts(l);
    LayerAtInverts(m);
  }

  /** Bit 25 is no layer: no layer sits there, and reading it back gives
      none. */
  lemma UnusedBit(l: Layer)
    ensures BitIndex(l) != 25 && LayerAt(25) == None
  {
  }

  /** Reading a layer's bit position back gives the layer. */
  lemma LayerAtInverts(l: Layer)
    ensures LayerAt(BitIndex(l)) == Some(l)
  {
    match l
    case Solid =>
    case Hitboxes =>
    case Trigger =>
    case Sky =>
    case PlayerClip =>
    case NPCClip =>
    case BlockLOS =>
    case BlockLight =>
    case Ladder =>
    case Pickup =>
    case BlockSound =>
    case NoDraw =>
    case Window =>
    case PassBullets =>
    case WorldGeometry =>
    case Water =>
    case Slime =>
    case TouchAll =>
    case Player =>
    case NPC =>
    case Debris =>
    case PhysicsProp =>
    case NavIgnore =>
    case NavLocalIgnore =>
    case PostProcessingVolume =>
    case CarriedObject =>
    case PushAway =>
    case ServerEntityOnClient =>
    case CarriedWeapon =>
    case StaticLevel =>
  }

  /** Distinct primitive layers are disjoint bits, so the named masks are
      exact unions. */
  lemma {:induction false} FlagsDisjoint(l: Layer, m: Layer)
    ensures Flag(l) & Flag(m) != 0 <==> l == m
  {
    FlagIsBitAt(l);
    FlagIsBitAt(m);
    ShiftedBitsOverlap(BitIndex(l), BitIndex(m));
    BitIndexInjective(l, m);
  }
}

/** The named masks of the catalogue: bitwise unions of primitive layers. */
module Masks {

  import opened Layers

  // The named masks, each written as the catalogue writes it.

  const MaskShotPhysics: bv64 :=
    Flag(Solid) | Flag(PlayerClip) | Flag(Window) | Flag(PassBullets)
    | Flag(Player) | Flag(NPC) | Flag(PhysicsProp)
  const MaskShotHitbox: bv64 := Flag(Hitboxes) | Flag(Player) | Flag(NPC)
  const MaskShotFull: bv64 := MaskShotPhysics | Flag(Hitboxes)
  const MaskWorldOnly: bv64 := Flag(Solid) | Flag(Window) | Flag(PassBullets)
  const MaskBrushOnly: bv64 := Flag(Solid) | Flag(Window)
  /** The wall check uses the shot-physics mask; players are filtered out
      afterwards by entity name, not by an exclusion mask. */
  const MaskWallCheck: bv64 := MaskShotPhysics

  /** The seven bullet-blocking layers the shot-physics mask lists. */
  predicate ShotPhysicsLayer(l: Layer)
  {
    l.Solid? || l.PlayerClip? || l.Window? || l.PassBullets? || l.Player? || l.NPC? || l.PhysicsProp?
  }

  /** The values the native module receives for the named masks. */
  lemma NamedMaskValues()
    ensures MaskShotPhysics == 0x2C_3011
    ensures MaskShotHitbox == 0xC_0002
    ensures MaskShotFull == 0x2C_3013
    ensures MaskWorldOnly == 0x3001
    ensures MaskBrushOnly == 0x1001
    ensures MaskWallCheck == MaskShotPhysics
  {
  }

  /** The shot-physics (and so the wall-check) mask holds exactly the seven
      bullet-blocking layers. */
  lemma ShotPhysicsExact(l: Layer)
    ensures MaskShotPhysics & Flag(l) != 0 <==> ShotPhysicsLayer(l)
  {
    NamedMaskValues();
  }

  /** The full shot mask adds hitboxes to the shot-physics layers and
      nothing more. */
  lemma ShotFullExact(l: Layer)
    ensures MaskShotFull & Flag(l) != 0 <==> ShotPhysicsLayer(l) || l.Hitboxes?
  {
    NamedMaskValues();
  }

  /** The hitbox mask holds exactly hitboxes, players and NPCs. */
  lemma ShotHitboxExact(l: Layer)
    ensures MaskShotHitbox & Flag(l) != 0 <==> l.Hitboxes? || l.Player? || l.NPC?
  {
    NamedMaskValues();
  }

  /** The world-only mask holds exactly solid, window and pass-bullets. */
  lemma WorldOnlyExact(l: Layer)
    ensures MaskWorldOnly & Flag(l) != 0 <==> l.Solid? || l.Window? || l.PassBullets?
  {
    NamedMaskValues();
  }

  /** The brush-only mask holds exactly solid and window. */
  lemma BrushOnlyExact(l: Layer)
    ensures MaskBrushOnly & Flag(l) != 0 <==> l.Solid? || l.Window?
  {
    NamedMaskValues();
  }
}
