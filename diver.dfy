/** The per-player Diver component of Diver.cs. The host's Player is represented only by
    the fields the component reads and writes; every method changes exactly the Player
    fields its frame names and is proved against the value-level rules of DiveRules. */
module Diving {
  import opened Unity
  import opened DiveRules

  /** The host Player, reduced to what Diver reads and writes. Host queries
      (InWater, IsOnGround, IsSwimming, the velocity's magnitude) are fields the host keeps
      up to date; RaiseSkill(Swim) is counted in swimSkillRaises; SetMoveDir writes moveDir. */
  class Player {
    var swimDepth: real
    var swimSpeed: real
    var swimSkillImproveTimer: real
    var swimSkillRaises: nat
    var lookDir: Vec3
    var moveDir: Vec3
    var forward: Vec3      // transform.forward
    var inWater: bool
    var onGround: bool
    var swimming: bool
    var speed: real        // GetVelocity().magnitude
  }

  class Diver {
    const player: Player
    var baseSwimSpeed: real

    /** Awake: attach to the player, start at the surface depth and remember the host's
        swim speed. */
    constructor (p: Player)
      modifies p`swimDepth
      ensures player == p && p.swimDepth == DefaultSwimDepth
      ensures baseSwimSpeed == p.swimSpeed
      ensures !IsDiving()
    {
      player := p;
      baseSwimSpeed := p.swimSpeed;
      new;
      p.swimDepth := DefaultSwimDepth;
    }

    method ResetSwimDepthIfNotInWater()
      modifies player`swimDepth
      ensures player.inWater ==> player.swimDepth == old(player.swimDepth)
      ensures !player.inWater ==> player.swimDepth == DefaultSwimDepth && !IsDiving()
    {
      if !player.inWater {
        ResetSwimDepthToDefault();
      }
    }

    method ResetSwimDepthToDefault()
      modifies player`swimDepth
      ensures player.swimDepth == DefaultSwimDepth
      ensures !IsDiving()
    {
      player.swimDepth := DefaultSwimDepth;
    }

    /** In water and able to dive. */
    function CanDive(): (b: bool)
      reads player
      ensures b <==> player.inWater && !player.onGround && player.swimming
    {
      player.inWater && !player.onGround && player.swimming
    }

    /** Deep enough underwater to be diving. */
    function IsDiving(): (b: bool)
      reads player
      ensures b <==> player.swimDepth > DivingSwimDepth
      ensures b ==> player.swimDepth > DefaultSwimDepth
    {
      IsDivingDepth(player.swimDepth)
    }

    /** Swimming in water without diving or moving. */
    function IsRestingInWater(): (b: bool)
      reads player
      ensures b ==> !IsDiving() && player.swimming
      ensures b <==> player.swimDepth <= DivingSwimDepth && player.swimming && player.speed < 1.0
    {
      !IsDiving() && player.swimming && player.speed < 1.0
    }

    /** Accumulate swimming experience while diving: one skill raise for every stretch of
        more than a second. */
    method UpdateSwimSkill(dt: real)
      modifies player`swimSkillImproveTimer, player`swimSkillRaises
      ensures player.swimSkillImproveTimer == SkillStep(old(player.swimSkillImproveTimer), dt).timer
      ensures player.swimSkillRaises
        == old(player.swimSkillRaises) + if SkillStep(old(player.swimSkillImproveTimer), dt).raised then 1 else 0
      ensures player.swimSkillImproveTimer <= 1.0
    {
      player.swimSkillImproveTimer := player.swimSkillImproveTimer + dt;
      if player.swimSkillImproveTimer > 1.0 {
        player.swimSkillImproveTimer := 0.0;
        player.swimSkillRaises := player.swimSkillRaises + 1;
      }
    }

    /** Steer along the look direction while diving. */
    method UpdateDiveDirection()
      modifies player`moveDir
      ensures player.moveDir == if IsDiving() then player.lookDir else old(player.moveDir)
    {
      if IsDiving() {
        player.moveDir := player.lookDir;
      }
    }

    /** Move up at a fixed rate, facing forward. */
    method Ascend(dt: real)
      modifies player`moveDir, player`swimDepth
      ensures player.moveDir == player.forward
      ensures player.swimDepth == Ascended(old(player.swimDepth), dt)
      ensures player.swimDepth >= DefaultSwimDepth
    {
      player.moveDir := player.forward;
      var newDepth := player.swimDepth - SwimSpeedDelta * dt;
      player.swimDepth := Max(newDepth, DefaultSwimDepth);
    }

    /** Change the depth by the look direction; once diving, also steer along it. */
    method UpdateDivingDepth(dt: real)
      modifies player`swimDepth, player`moveDir
      ensures player.swimDepth == LookDepth(old(player.swimDepth), player.lookDir.y, dt)
      ensures player.moveDir
        == if GetDiveDirection() != Neutral && IsDiving() then player.lookDir else old(player.moveDir)
      ensures GetDiveDirection() == Neutral ==> player.swimDepth == old(player.swimDepth)
      ensures GetDiveDirection() == Down && dt >= 0.0 ==> player.swimDepth >= old(player.swimDepth)
    {
      var diveDir := GetDiveDirection();
      if diveDir == Neutral {
        return;
      }

      var multiplier := player.lookDir.y * player.lookDir.y * SwimSpeedDelta * dt;
      if diveDir == Down {
        player.swimDepth := player.swimDepth + multiplier;
      } else if diveDir == Up {
        var newDepth := player.swimDepth - multiplier;
        player.swimDepth := Max(newDepth, DefaultSwimDepth);
      }

      if IsDiving() {
        UpdateDiveDirection();
      }
    }

    /** DOWN when looking further down than -0.25, UP when looking further up than 0.15,
        NEUTRAL in between. */
    function GetDiveDirection(): (d: DiveDirection)
      reads player
      ensures d == Down <==> player.lookDir.y < DownThreshold
      ensures d == Up <==> player.lookDir.y > UpThreshold
      ensures d == Neutral <==> DownThreshold <= player.lookDir.y <= UpThreshold
    {
      Classify(player.lookDir.y)
    }
  }
}
