/** The values exchanged with the native trace module: the options a trace
    is run with and the result it fills in. Byte layout is not modelled;
    32-bit floats are modelled as reals. */
module TraceTypes {

  import opened Masks

  /** A position, direction or angle triple. */
  datatype Vec = Vec(x: real, y: real, z: real)

  /** What a trace collides as, with, and what it excludes; drawBeam is a
      32-bit boolean-as-integer. */
  datatype TraceOptions = TraceOptions(
    interactsAs: bv64,
    interactsWith: bv64,
    interactsExclude: bv64,
    drawBeam: int)

  /** Wall check: collide with everything that blocks a bullet. */
  const WallCheck: TraceOptions := TraceOptions(0, MaskShotPhysics, 0, 0)

  /** Wall check that also asks the native side to draw a beam. */
  const WallCheckDebug: TraceOptions := TraceOptions(0, MaskShotPhysics, 0, 1)

  /** Full bullet trace, hitboxes included. */
  const ShotFull: TraceOptions := TraceOptions(0, MaskShotFull, 0, 0)

  /** The native trace output. hitEntity is an opaque entity address, 0 when
      the trace hit no entity; allSolid is a 32-bit boolean-as-integer. */
  datatype TraceResult = TraceResult(
    endPos: Vec,
    hitEntity: int,
    fraction: real,
    allSolid: int,
    normal: Vec)
  {
    /** The trace stopped before its end point. */
    predicate DidHit()
    {
      fraction < 1.0
    }

    /** The trace started inside solid geometry. */
    predicate IsAllSolid()
    {
      allSolid != 0
    }
  }

  /** The zero-initialised result handed back when no trace is made. */
  const DefaultResult: TraceResult :=
    TraceResult(Vec(0.0, 0.0, 0.0), 0, 0.0, 0, Vec(0.0, 0.0, 0.0))

  /** What a native trace call reports: its boolean return value and the
      result buffer it filled. */
  datatype TraceReply = TraceReply(success: bool, result: TraceResult)

  /** The wall-check presets collide with the shot-physics mask, exclude
      nothing, and differ from each other only in the beam flag. */
  lemma WallCheckPresets()
    ensures WallCheck.interactsWith == MaskWallCheck
    ensures WallCheck.interactsAs == 0 && WallCheck.interactsExclude == 0 && WallCheck.drawBeam == 0
    ensures WallCheckDebug == WallCheck.(drawBeam := 1)
    ensures ShotFull == WallCheck.(interactsWith := MaskShotFull)
  {
  }

  /** The zeroed result reports a hit at fraction 0 with no entity, so a
      caller must check the success flag before reading it. */
  lemma DefaultResultLooksLikeHit()
    ensures DefaultResult.DidHit() && !DefaultResult.IsAllSolid()
    ensures DefaultResult.hitEntity == 0
  {
  }
}
