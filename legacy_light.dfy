/**
 * The older light model, `src/light.rs`: colour-temperature bounds are
 * required fields, and `change_color_temperature` always clamps.
 */
module LegacyLight {
  import opened Wrappers
  import opened Ints
  import opened LightStates

  /** Declared next to the mutators; no mutator ever produces it. */
  datatype LightStateError = ImpossibleDelta(from: int, to: int, delta: int)

  class Light {
    var colorCapabilities: U64
    var ctMax: U64
    var ctMin: U64
    var lastAnnounced: Option<string>
    var lastSeen: string
    var etag: string
    var hasColor: bool
    var manufacturerName: string
    var name: string
    var modelId: string
    var powerUp: Option<U8>
    var swVersion: string
    var kind: string            // the `type` field
    var state: LightState
    var uniqueId: string

    /** `change_brightness`: the sum is formed in `i16`, which must not overflow. */
    method ChangeBrightness(delta: I16) returns (self: Light)
      requires InI16(state.bri.UnwrapOr(0) + delta)
      modifies this`state
      ensures self == this
      ensures state == WithBrightnessDelta(old(state), delta)
    {
      var newBri: I16 := state.bri.UnwrapOr(0) + delta;
      state := state.(bri := Some(Min(Max(newBri, 0), U8Max)));
      self := this;
    }

    /** `change_hue`: the sum is formed in `i64`, which must not overflow. */
    method ChangeHue(delta: I64) returns (self: Light)
      requires InI64(state.hue.UnwrapOr(0) + delta)
      modifies this`state
      ensures self == this
      ensures state == WithHueDelta(old(state), delta)
    {
      var newHue: I64 := state.hue.UnwrapOr(0) + delta;
      state := state.(hue := Some(Min(Max(newHue, 0), U32Max)));
      self := this;
    }

    /** `change_color_temperature`: the sum is formed in `i128` and clamped to `[ctMin, ctMax]`. */
    method ChangeColorTemperature(delta: I128) returns (self: Light)
      requires InI128(state.ct.UnwrapOr(0) + delta)
      modifies this`state
      ensures self == this
      ensures state == WithColorTemperatureDelta(old(state), ctMin, ctMax, delta)
    {
      var newCt: I128 := state.ct.UnwrapOr(0) + delta;
      state := state.(ct := Some(Min(Max(newCt, ctMin), ctMax)));
      self := this;
    }

    /** `on`: overwrites the power flag. */
    method On(on: bool) returns (self: Light)
      modifies this`state
      ensures self == this
      ensures state == WithPower(old(state), on)
    {
      state := state.(on := Some(on));
      self := this;
    }
  }

  /**
   * The mutation sequence of the gateway test in `src/light.rs`, with the
   * network pushes and sleeps left out: dim fully and switch on, set ct to
   * `ctMin`, then 254 rounds of `change_brightness(1).change_color_temperature(1)`.
   */
  method DimThenRamp(light: Light)
    modifies light`state
    ensures light.state.on == Some(true)
    ensures light.state.bri == Some(if old(light.state.bri) == Some(U8Max) then U8Max else U8Max - 1)
    ensures light.state.ct == Some(Min(light.ctMin + 254, light.ctMax))
    ensures light.state.(on := old(light.state.on), bri := old(light.state.bri), ct := old(light.state.ct))
         == old(light.state)
  {
    ghost var s0 := light.state;
    var l := light.ChangeBrightness(-254);
    l := l.On(true);
    light.state := light.state.(on := Some(true));
    light.state := light.state.(ct := Some(light.ctMin));
    ghost var dimmed := if old(light.state.bri) == Some(U8Max) then 1 else 0;
    var round := 0;
    while round < 254
      invariant 0 <= round <= 254
      invariant light.state.on == Some(true)
      invariant light.state.bri == Some(Min(dimmed + round, U8Max))
      invariant light.state.ct == Some(if round == 0 then light.ctMin else Min(light.ctMin + round, light.ctMax))
      invariant light.state.(on := s0.on, bri := s0.bri, ct := s0.ct) == s0
    {
      l := light.ChangeBrightness(1);
      l := l.ChangeColorTemperature(1);
      round := round + 1;
    }
  }
}
