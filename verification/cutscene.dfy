/**
 * The cutscene objective (type 6) and its composite `behaviour` field: the low
 * byte (`behaviour & 255`) is the camera mode, and bits 8 to 11 are four
 * independent effect flags: slow motion (256), camera shaking (512), skipping
 * the fade (1024) and skipping the widescreen bars (2048).
 */
module Cutscenes {
  import opened Wrappers
  import opened Bits

  // ---- Camera mode ------------------------------------------------------------

  /** The camera modes `CutsceneBehaviour` names: 0 (static) to 8. */
  predicate IsCameraMode(v: int) {
    0 <= v <= 8
  }

  datatype CameraMode =
      Static
    | Linear
    | Smooth
    | ActorFollow
    | ActorFirstPerson
    | ActorThirdPerson
    | PlayerFollow
    | PlayerFirstPerson
    | PlayerThirdPerson

  /** The integer value of member m of `CameraMode`. */
  function CameraModeCode(m: CameraMode): (r: int)
    ensures IsCameraMode(r)
  {
    match m
    case Static => 0
    case Linear => 1
    case Smooth => 2
    case ActorFollow => 3
    case ActorFirstPerson => 4
    case ActorThirdPerson => 5
    case PlayerFollow => 6
    case PlayerFirstPerson => 7
    case PlayerThirdPerson => 8
  }

  /** The member of `CameraMode` with value v, if there is one. */
  function CameraModeOf(v: int): (r: Option<CameraMode>)
    ensures r.Some? <==> IsCameraMode(v)
    ensures r.Some? ==> CameraModeCode(r.value) == v
  {
    match v
    case 0 => Some(Static)
    case 1 => Some(Linear)
    case 2 => Some(Smooth)
    case 3 => Some(ActorFollow)
    case 4 => Some(ActorFirstPerson)
    case 5 => Some(ActorThirdPerson)
    case 6 => Some(PlayerFollow)
    case 7 => Some(PlayerFirstPerson)
    case 8 => Some(PlayerThirdPerson)
    case _ => None
  }

  /** Distinct members have distinct values: each value names one member. */
  lemma CameraModeRoundTrip(m: CameraMode)
    ensures CameraModeOf(CameraModeCode(m)) == Some(m)
  {
  }

  // ---- The behaviour composite ------------------------------------------------

  const Mask: nat := 255
  const SlowMotionFlag: nat := 256
  const CameraShakingFlag: nat := 512
  const SkipFadingFlag: nat := 1024
  const SkipWidescreenFlag: nat := 2048

  /** The parts of a `behaviour` value. */
  datatype CutsceneParts = CutsceneParts(
    mode: nat,
    slowMotion: bool,
    cameraShaking: bool,
    skipFading: bool,
    skipWidescreen: bool)

  /** `v & 255` for the mode and `v & flag != 0` for each flag. */
  function DecodeCutscene(v: nat): (p: CutsceneParts)
    ensures p.mode == v % 256
    ensures p.slowMotion <==> (v / 256) % 2 == 1
    ensures p.cameraShaking <==> (v / 512) % 2 == 1
    ensures p.skipFading <==> (v / 1024) % 2 == 1
    ensures p.skipWidescreen <==> (v / 2048) % 2 == 1
  {
    AndLowMask(v, 8);
    AndSingleBit(v, 8);
    AndSingleBit(v, 9);
    AndSingleBit(v, 10);
    AndSingleBit(v, 11);
    BitIsDivMod(v, 8);
    BitIsDivMod(v, 9);
    BitIsDivMod(v, 10);
    BitIsDivMod(v, 11);
    CutsceneParts(
      And(v, Mask),
      And(v, SlowMotionFlag) != 0,
      And(v, CameraShakingFlag) != 0,
      And(v, SkipFadingFlag) != 0,
      And(v, SkipWidescreenFlag) != 0)
  }

  function FlagIf(b: bool, flag: nat): nat {
    if b then flag else 0
  }

  /** The mode plus the value of each flag that is on. */
  function EncodeCutscene(p: CutsceneParts): nat {
    p.mode + FlagIf(p.slowMotion, SlowMotionFlag) + FlagIf(p.cameraShaking, CameraShakingFlag)
      + FlagIf(p.skipFading, SkipFadingFlag) + FlagIf(p.skipWidescreen, SkipWidescreenFlag)
  }

  /** The mode mask is the eight low bits and the four flags are bits 8 to 11. */
  lemma FlagBitPositions()
    ensures Mask == Pow2(8) - 1 && SlowMotionFlag == Pow2(8) && CameraShakingFlag == Pow2(9)
    ensures SkipFadingFlag == Pow2(10) && SkipWidescreenFlag == Pow2(11)
  {
    assert Pow2(4) == 16;
    assert Pow2(8) == 256;
  }

  /** The four flags lie outside the mode mask 255. */
  lemma FlagsDisjointFromMask()
    ensures And(Mask, SlowMotionFlag) == 0 && And(Mask, CameraShakingFlag) == 0
    ensures And(Mask, SkipFadingFlag) == 0 && And(Mask, SkipWidescreenFlag) == 0
  {
    FlagBitPositions();
    AndOfMaskAndHigherBit(8, 8);
    AndOfMaskAndHigherBit(8, 9);
    AndOfMaskAndHigherBit(8, 10);
    AndOfMaskAndHigherBit(8, 11);
  }

  /** The four flags are single bits distinct from each other. */
  lemma FlagsPairwiseDisjoint()
    ensures And(SlowMotionFlag, CameraShakingFlag) == 0 && And(SlowMotionFlag, SkipFadingFlag) == 0
    ensures And(SlowMotionFlag, SkipWidescreenFlag) == 0 && And(CameraShakingFlag, SkipFadingFlag) == 0
    ensures And(CameraShakingFlag, SkipWidescreenFlag) == 0 && And(SkipFadingFlag, SkipWidescreenFlag) == 0
  {
    FlagBitPositions();
    AndOfDistinctBits(8, 9);
    AndOfDistinctBits(8, 10);
    AndOfDistinctBits(8, 11);
    AndOfDistinctBits(9, 10);
    AndOfDistinctBits(9, 11);
    AndOfDistinctBits(10, 11);
  }

  /** Encoding a mode below 256 with any flags and decoding gives the same mode and flags back. */
  lemma DecodeEncodeCutscene(p: CutsceneParts)
    requires p.mode < 256
    ensures DecodeCutscene(EncodeCutscene(p)) == p
  {
    var s := if p.slowMotion then 1 else 0;
    var k := if p.cameraShaking then 1 else 0;
    var f := if p.skipFading then 1 else 0;
    var w := if p.skipWidescreen then 1 else 0;
    var v := EncodeCutscene(p);
    assert v == p.mode + 256 * (s + 2 * k + 4 * f + 8 * w);
    DivModUnique(v, 256, s + 2 * k + 4 * f + 8 * w, p.mode);
    DivModUnique(v / 256, 2, k + 2 * f + 4 * w, s);
    DivModUnique(v, 512, k + 2 * f + 4 * w, p.mode + 256 * s);
    DivModUnique(v / 512, 2, f + 2 * w, k);
    DivModUnique(v, 1024, f + 2 * w, p.mode + 256 * s + 512 * k);
    DivModUnique(v / 1024, 2, w, f);
    DivModUnique(v, 2048, w, p.mode + 256 * s + 512 * k + 1024 * f);
  }

  /** Adding the next binary digit: `n % 2p` is `n % p` plus p times bit `log p` of n. */
  lemma ModDouble(n: nat, p: nat)
    requires p > 0
    ensures n % (2 * p) == n % p + p * ((n / p) % 2)
  {
    var q, r := n / p, n % p;
    assert q == 2 * (q / 2) + q % 2;
    assert n == (2 * p) * (q / 2) + (p * (q % 2) + r);
    DivModUnique(n, 2 * p, q / 2, p * (q % 2) + r);
  }

  /**
   * Decoding and re-encoding keeps bits 0 to 11 and drops the rest, so a value
   * is reproduced exactly when it is below 4096.
   */
  lemma EncodeDecodeCutscene(v: nat)
    ensures EncodeCutscene(DecodeCutscene(v)) == v % 4096
    ensures EncodeCutscene(DecodeCutscene(v)) == v <==> v < 4096
  {
    ModDouble(v, 256);
    ModDouble(v, 512);
    ModDouble(v, 1024);
    ModDouble(v, 2048);
    if v < 4096 {
      DivModUnique(v, 4096, 0, v);
    }
  }

  /** The camera mode of a stored value; it names a mode only when the low byte is 0..8. */
  function BehaviourCameraMode(v: nat): (m: Option<CameraMode>)
    ensures m.Some? <==> v % 256 <= 8
    ensures m.Some? ==> CameraModeCode(m.value) == v % 256
  {
    CameraModeOf(DecodeCutscene(v).mode)
  }

  /**
   * The field description's example reads "258 = Linear + slow motion
   * (1 + 256)". As written, 258 decodes to mode 2, which is Smooth, with slow
   * motion; Linear with slow motion is 1 + 256 = 257.
   */
  lemma BehaviourExample258AsWritten()
    ensures DecodeCutscene(258) == CutsceneParts(CameraModeCode(Smooth), true, false, false, false)
    ensures BehaviourCameraMode(258) == Some(Smooth)
    ensures EncodeCutscene(CutsceneParts(CameraModeCode(Linear), true, false, false, false)) != 258
  {
    DecodeEncodeCutscene(CutsceneParts(2, true, false, false, false));
  }

  /** The intended example: Linear with slow motion is 257, and 257 decodes back to it. */
  lemma LinearSlowMotionIs257()
    ensures EncodeCutscene(CutsceneParts(CameraModeCode(Linear), true, false, false, false)) == 257
    ensures DecodeCutscene(257) == CutsceneParts(CameraModeCode(Linear), true, false, false, false)
    ensures BehaviourCameraMode(257) == Some(Linear)
  {
    DecodeEncodeCutscene(CutsceneParts(1, true, false, false, false));
  }

  // ---- The cutscene objective -------------------------------------------------

  /**
   * The fields of a cutscene objective besides the shared base: the icon
   * height and the camera target are required, the rest have defaults.
   */
  datatype ObjectiveCutscene = ObjectiveCutscene(
    positionIconZ: real,
    targetPositionX: real,
    targetPositionY: real,
    targetPositionZ: real,
    duration: int,
    behaviour: int,
    actorIdx: int,
    text: string)
  {
    /**
     * The field constraints: duration and behaviour non-negative, actor index
     * 0..99. The camera mode inside `behaviour` is not checked.
     */
    predicate Valid() {
      && duration >= 0
      && behaviour >= 0
      && 0 <= actorIdx <= 99
    }
  }

  /**
   * A cutscene built from its required fields: three seconds, static camera
   * with no effect, following actor 0, no text. It is always valid.
   */
  function NewCutscene(iconZ: real, targetX: real, targetY: real, targetZ: real): (c: ObjectiveCutscene)
    ensures c.Valid()
    ensures c.positionIconZ == iconZ
    ensures c.targetPositionX == targetX && c.targetPositionY == targetY && c.targetPositionZ == targetZ
    ensures c.duration == 3000 && c.text == ""
    ensures DecodeCutscene(c.behaviour as nat) == CutsceneParts(CameraModeCode(Static), false, false, false, false)
  {
    ObjectiveCutscene(iconZ, targetX, targetY, targetZ, 3000, 0, 0, "")
  }

  /** A behaviour whose camera mode is no mode (9, say) still gives a valid cutscene. */
  lemma CameraModeNotChecked(c: ObjectiveCutscene)
    requires c.Valid()
    ensures c.(behaviour := 9).Valid() && BehaviourCameraMode(9) == None
  {
  }
}
