/** The value logic of Patches/WaterCameraPatches.cs: the cache that lets the camera see
    under water (save the camera's minimum water distance once, force it to -5000, restore
    it later), the darkening of the fog colour with depth, and the clamped fog density. */
module WaterCameraPatches {
  import opened Unity

  datatype Option<T> = None | Some(value: T)

  /** The camera's minimum water distance while the player is under water. */
  const UnderWaterCameraMinWaterDistance: real := -5000.0

  /** The host GameCamera, reduced to the one field the patch writes. */
  class GameCamera {
    var minWaterDistance: real
  }

  // ----- The cache on values -----

  /** The static cache together with the camera field it saves and restores. */
  datatype CacheState = CacheState(cached: Option<real>, distance: real)

  /** SetMinWaterDistanceUnderWater on values: the first save wins, the field is forced. */
  function SetUnderWater(s: CacheState): (t: CacheState)
    ensures t.distance == UnderWaterCameraMinWaterDistance && t.cached.Some?
    ensures s.cached.Some? ==> t.cached == s.cached
    ensures s.cached.None? ==> t.cached == Some(s.distance)
  {
    var cached := if s.cached.None? then Some(s.distance) else s.cached;
    CacheState(cached, UnderWaterCameraMinWaterDistance)
  }

  /** ResetMinWaterDistance on values: put the saved value back and forget it. */
  function Restore(s: CacheState): (t: CacheState)
    ensures t.cached.None?
    ensures s.cached.None? ==> t == s
    ensures s.cached.Some? ==> t.distance == s.cached.value
  {
    if s.cached.Some? then CacheState(None, s.cached.value) else s
  }

  /** Setting again does not overwrite the saved value. */
  lemma SetKeepsFirstSave(s: CacheState)
    ensures SetUnderWater(SetUnderWater(s)) == SetUnderWater(s)
    ensures SetUnderWater(SetUnderWater(s)).cached == Some(if s.cached.Some? then s.cached.value else s.distance)
  {
  }

  /** Set followed by reset gives back the camera's original field and an empty cache. */
  lemma SetThenRestoreIsIdentity(s: CacheState)
    requires s.cached.None?
    ensures Restore(SetUnderWater(s)) == s
  {
  }

  /** Resetting twice is resetting once. */
  lemma RestoreIdempotent(s: CacheState)
    ensures Restore(Restore(s)) == Restore(s)
  {
  }

  /** What the camera hook does in a frame: one of the two. */
  datatype CameraOp = SetOp | RestoreOp

  function Apply(s: CacheState, op: CameraOp): CacheState
  {
    match op
    case SetOp => SetUnderWater(s)
    case RestoreOp => Restore(s)
  }

  function Run(s: CacheState, ops: seq<CameraOp>): CacheState
    decreases ops
  {
    if ops == [] then s else Run(Apply(s, ops[0]), ops[1..])
  }

  /** The cache remembers the camera's own value `original`: either nothing is saved and
      the field holds it, or it is saved and the field is forced under water. */
  predicate Tracks(s: CacheState, original: real)
  {
    || (s.cached == None && s.distance == original)
    || (s.cached == Some(original) && s.distance == UnderWaterCameraMinWaterDistance)
  }

  /** Any interleaving of sets and resets keeps track of the camera's own value. */
  lemma {:induction false} RunTracksOriginal(s: CacheState, original: real, ops: seq<CameraOp>)
    requires Tracks(s, original)
    ensures Tracks(Run(s, ops), original)
    decreases ops
  {
    if ops != [] {
      RunTracksOriginal(Apply(s, ops[0]), original, ops[1..]);
    }
  }

  /** However many frames forced the camera under water, one reset restores the field
      the camera had before the first of them. */
  lemma RestoreAfterAnyRun(s: CacheState, ops: seq<CameraOp>)
    requires s.cached.None?
    ensures Restore(Run(s, ops)) == s
  {
    RunTracksOriginal(s, s.distance, ops);
  }

  // ----- The static state and the camera, updated in place -----

  /** The static field CachedMinWaterDistance of WaterCameraPatches, kept in one object. */
  class CameraCache {
    var cachedMinWaterDistance: Option<real>

    function State(cam: GameCamera): CacheState
      reads this, cam
    {
      CacheState(cachedMinWaterDistance, cam.minWaterDistance)
    }

    /** The static initialiser: nothing is saved. */
    constructor ()
      ensures cachedMinWaterDistance == None
    {
      cachedMinWaterDistance := None;
    }

    /** Force the camera's minimum water distance to -5000, saving the previous value
        unless one is saved already. */
    method SetMinWaterDistanceUnderWater(cam: GameCamera)
      modifies this`cachedMinWaterDistance, cam`minWaterDistance
      ensures State(cam) == SetUnderWater(old(State(cam)))
      ensures cam.minWaterDistance == UnderWaterCameraMinWaterDistance
      ensures cachedMinWaterDistance.Some?
      ensures old(cachedMinWaterDistance).Some? ==> cachedMinWaterDistance == old(cachedMinWaterDistance)
    {
      if !cachedMinWaterDistance.Some? {
        cachedMinWaterDistance := Some(cam.minWaterDistance);
      }
      cam.minWaterDistance := UnderWaterCameraMinWaterDistance;
    }

    /** Put the saved value back on the camera, if there is one, and forget it. */
    method ResetMinWaterDistance(cam: GameCamera)
      modifies this`cachedMinWaterDistance, cam`minWaterDistance
      ensures State(cam) == Restore(old(State(cam)))
      ensures old(cachedMinWaterDistance).None? ==> unchanged(this, cam)
      ensures cachedMinWaterDistance.None?
    {
      if cachedMinWaterDistance.Some? {
        cam.minWaterDistance := cachedMinWaterDistance.value;
        cachedMinWaterDistance := None;
      }
    }
  }

  /** Frames that force the camera under water followed by frames that do not give the
      camera back its field. */
  method RepeatedSetAndReset(cache: CameraCache, cam: GameCamera)
    requires cache.cachedMinWaterDistance.None?
    modifies cache, cam
    ensures cam.minWaterDistance == old(cam.minWaterDistance)
    ensures cache.cachedMinWaterDistance.None?
  {
    cache.SetMinWaterDistanceUnderWater(cam);
    cache.SetMinWaterDistanceUnderWater(cam);
    cache.ResetMinWaterDistance(cam);
    cache.ResetMinWaterDistance(cam);
  }

  // ----- Fog colour and density -----

  /** One channel darkened by `amount` (a non-negative fraction), never below zero. */
  function Darken(channel: real, amount: real): real
  {
    var c := channel - channel * amount;
    if c < 0.0 then 0.0 else c
  }

  /** A non-negative correction factor leaves the colour as it is; a negative one scales
      each of red, green and blue down by its magnitude, clamping at zero, and keeps alpha. */
  function ChangeColorBrightness(color: Color, correctionFactor: real): (r: Color)
    ensures r.a == color.a
    ensures correctionFactor >= 0.0 ==> r == color
    ensures correctionFactor < 0.0 ==> r.r >= 0.0 && r.g >= 0.0 && r.b >= 0.0
    ensures correctionFactor < 0.0 ==>
      r.r == Max(color.r + color.r * correctionFactor, 0.0)
      && r.g == Max(color.g + color.g * correctionFactor, 0.0)
      && r.b == Max(color.b + color.b * correctionFactor, 0.0)
  {
    if !(correctionFactor < 0.0) then Color(color.r, color.g, color.b, color.a)
    else
      var amount := correctionFactor * -1.0;
      Color(Darken(color.r, amount), Darken(color.g, amount), Darken(color.b, amount), color.a)
  }

  predicate NonNegativeChannels(c: Color)
  {
    c.r >= 0.0 && c.g >= 0.0 && c.b >= 0.0
  }

  lemma DarkenWithin(channel: real, amount: real)
    requires channel >= 0.0 && amount >= 0.0
    ensures 0.0 <= Darken(channel, amount) <= channel
    ensures amount <= 1.0 ==> Darken(channel, amount) == channel * (1.0 - amount)
    ensures amount >= 1.0 ==> Darken(channel, amount) == 0.0
  {
    assert channel * amount >= 0.0;
    if amount >= 1.0 {
      assert channel * amount >= channel;
    } else {
      assert channel * amount <= channel;
    }
  }

  /** Darkening never brightens, never goes negative and, up to full darkness, scales each
      channel by 1 + factor. */
  lemma DarkeningStaysInChannel(color: Color, correctionFactor: real)
    requires NonNegativeChannels(color)
    ensures var r := ChangeColorBrightness(color, correctionFactor);
      && 0.0 <= r.r <= color.r && 0.0 <= r.g <= color.g && 0.0 <= r.b <= color.b
    ensures -1.0 <= correctionFactor <= 0.0 ==>
      var r := ChangeColorBrightness(color, correctionFactor);
      && r.r == color.r * (1.0 + correctionFactor)
      && r.g == color.g * (1.0 + correctionFactor)
      && r.b == color.b * (1.0 + correctionFactor)
    ensures correctionFactor <= -1.0 ==>
      ChangeColorBrightness(color, correctionFactor) == Color(0.0, 0.0, 0.0, color.a)
  {
    if correctionFactor < 0.0 {
      var amount := correctionFactor * -1.0;
      DarkenWithin(color.r, amount);
      DarkenWithin(color.g, amount);
      DarkenWithin(color.b, amount);
    }
  }

  lemma DarkenMonotone(channel: real, amount1: real, amount2: real)
    requires channel >= 0.0 && 0.0 <= amount1 <= amount2
    ensures Darken(channel, amount2) <= Darken(channel, amount1)
  {
    assert channel * amount1 <= channel * amount2;
  }

  /** A more negative correction factor never gives a brighter channel. */
  lemma DarkeningMonotone(color: Color, factor1: real, factor2: real)
    requires NonNegativeChannels(color)
    requires factor1 <= factor2
    ensures ChangeColorBrightness(color, factor1).r <= ChangeColorBrightness(color, factor2).r
    ensures ChangeColorBrightness(color, factor1).g <= ChangeColorBrightness(color, factor2).g
    ensures ChangeColorBrightness(color, factor1).b <= ChangeColorBrightness(color, factor2).b
  {
    if factor2 < 0.0 {
      DarkenMonotone(color.r, -factor2, -factor1);
      DarkenMonotone(color.g, -factor2, -factor1);
      DarkenMonotone(color.b, -factor2, -factor1);
    } else {
      DarkeningStaysInChannel(color, factor1);
    }
  }

  /** The fog colour under water: the environment's day or night fog colour made opaque
      and darkened by the swim depth times the configured darkness factor. */
  function UnderwaterFogColor(envFogColor: Color, swimDepth: real, colorDarknessFactor: real): (c: Color)
    ensures c.a == 1.0
  {
    var waterColor := envFogColor.(a := 1.0);
    ChangeColorBrightness(waterColor, swimDepth * -colorDarknessFactor)
  }

  /** Diving deeper never makes the fog colour brighter, and it stays within the
      environment's colour. */
  lemma DeeperIsDarker(envFogColor: Color, depth1: real, depth2: real, colorDarknessFactor: real)
    requires NonNegativeChannels(envFogColor)
    requires 0.0 <= colorDarknessFactor
    requires depth1 <= depth2
    ensures var c1 := UnderwaterFogColor(envFogColor, depth1, colorDarknessFactor);
      var c2 := UnderwaterFogColor(envFogColor, depth2, colorDarknessFactor);
      c2.r <= c1.r && c2.g <= c1.g && c2.b <= c1.b
    ensures var c := UnderwaterFogColor(envFogColor, depth2, colorDarknessFactor);
      && 0.0 <= c.r <= envFogColor.r && 0.0 <= c.g <= envFogColor.g && 0.0 <= c.b <= envFogColor.b
  {
    var opaqueColor := envFogColor.(a := 1.0);
    assert depth2 * colorDarknessFactor >= depth1 * colorDarknessFactor;
    DarkeningMonotone(opaqueColor, depth2 * -colorDarknessFactor, depth1 * -colorDarknessFactor);
    DarkeningStaysInChannel(opaqueColor, depth2 * -colorDarknessFactor);
  }

  /** The fog density under water: the current density thickened by depth times the
      configured factor, clamped to the configured minimum and maximum. */
  function UnderwaterFogDensity(fogDensity: real, swimDepth: real, fogDensityFactor: real,
                                minFogDensity: real, maxFogDensity: real): (d: real)
    ensures minFogDensity <= maxFogDensity ==> minFogDensity <= d <= maxFogDensity
    ensures minFogDensity <= fogDensity + swimDepth * fogDensityFactor <= maxFogDensity ==>
      d == fogDensity + swimDepth * fogDensityFactor
    ensures fogDensity + swimDepth * fogDensityFactor < minFogDensity ==> d == minFogDensity
    ensures (minFogDensity <= fogDensity + swimDepth * fogDensityFactor
             && fogDensity + swimDepth * fogDensityFactor > maxFogDensity) ==> d == maxFogDensity
  {
    var density := fogDensity + swimDepth * fogDensityFactor;
    Clamp(density, minFogDensity, maxFogDensity)
  }

  /** The configuration's accepted ranges for the minimum and maximum fog density. */
  predicate FogDensityConfigured(minFogDensity: real, maxFogDensity: real)
  {
    && 0.05 <= minFogDensity <= 1.0
    && 1.0 <= maxFogDensity <= 5.0
  }

  /** With the configured ranges the minimum never exceeds the maximum, so the density
      written is always within them. */
  lemma ConfiguredFogWithinBounds(fogDensity: real, swimDepth: real, fogDensityFactor: real,
                                  minFogDensity: real, maxFogDensity: real)
    requires FogDensityConfigured(minFogDensity, maxFogDensity)
    ensures minFogDensity <= maxFogDensity
    ensures minFogDensity
      <= UnderwaterFogDensity(fogDensity, swimDepth, fogDensityFactor, minFogDensity, maxFogDensity)
      <= maxFogDensity
  {
  }

  /** With a non-negative density factor, deeper water is never less foggy. */
  lemma DeeperIsFoggier(fogDensity: real, depth1: real, depth2: real, fogDensityFactor: real,
                        minFogDensity: real, maxFogDensity: real)
    requires fogDensityFactor >= 0.0 && depth1 <= depth2
    requires minFogDensity <= maxFogDensity
    ensures UnderwaterFogDensity(fogDensity, depth1, fogDensityFactor, minFogDensity, maxFogDensity)
      <= UnderwaterFogDensity(fogDensity, depth2, fogDensityFactor, minFogDensity, maxFogDensity)
  {
    assert depth1 * fogDensityFactor <= depth2 * fogDensityFactor;
    ClampMonotone(fogDensity + depth1 * fogDensityFactor, fogDensity + depth2 * fogDensityFactor,
                  minFogDensity, maxFogDensity);
  }
}
