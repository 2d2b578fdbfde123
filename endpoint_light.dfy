/**
 * The light model the connection uses, `src/endpoints/light.rs`: the
 * colour-temperature bounds are optional, and `change_color_temperature`
 * is guarded by a test on them.
 */
module EndpointLight {
  import opened Wrappers
  import opened Ints
  import opened LightStates

  /**
   * What `change_color_temperature` does to the state, as written: it
   * returns early unless `ctMax` is present and `ctMin` absent, and in that
   * remaining case it forms the `i128` sum and then unwraps the absent
   * `ctMin`, which panics. It never reaches the store.
   */
  function ColorTemperatureAsWritten(s: LightState, ctMin: Option<U64>, ctMax: Option<U64>, delta: I128)
    : (r: Result<LightState, Panic>)
    ensures r.Err? <==> ctMax.Some? && ctMin.None?
    ensures r.Ok? ==> r.value == s
    ensures r.Err? ==> (r.error == AddOverflow <==> !InI128(s.ct.UnwrapOr(0) + delta))
    ensures r.Err? ==> r.error == AddOverflow || r.error == UnwrapOnNone
  {
    if ctMax.None? || ctMin.Some? then Ok(s)
    else if !InI128(s.ct.UnwrapOr(0) + delta) then Err(AddOverflow)
    else Err(UnwrapOnNone)
  }

  /**
   * The evidently intended behaviour: clamp into `[ctMin, ctMax]` when both
   * bounds are present, and leave the state alone otherwise.
   */
  function ColorTemperatureIntended(s: LightState, ctMin: Option<U64>, ctMax: Option<U64>, delta: int)
    : (r: LightState)
    ensures ctMin.None? || ctMax.None? ==> r == s
    ensures ctMin.Some? && ctMax.Some? ==> r.ct.Some? && r.ct.value <= ctMax.value
    ensures ctMin.Some? && ctMax.Some? && ctMin.value <= ctMax.value ==> ctMin.value <= r.ct.value
    ensures ctMin.Some? && ctMax.Some? && ctMin.value <= s.ct.UnwrapOr(0) + delta <= ctMax.value
      ==> r.ct == Some(s.ct.UnwrapOr(0) + delta)
    ensures ctMin.Some? && ctMax.Some? && s.ct.UnwrapOr(0) + delta < ctMin.value <= ctMax.value
      ==> r.ct == Some(ctMin.value)
    ensures ctMin.Some? && ctMax.Some? && ctMax.value < s.ct.UnwrapOr(0) + delta ==> r.ct == Some(ctMax.value)
    ensures ctMin.Some? && ctMax.Some? && ctMax.value < ctMin.value ==> r.ct == Some(ctMax.value)
    ensures r.(ct := s.ct) == s
  {
    if ctMin.Some? && ctMax.Some? then WithColorTemperatureDelta(s, ctMin.value, ctMax.value, delta) else s
  }

  /**
   * A light with a proper window `[153, 500]` and a current ct of 600 keeps
   * ct 600 under the code as written, outside its own window, where the
   * intended clamp would bring it back to 500.
   */
  lemma InvertedGuardSkipsClamp()
    ensures var s := Blank.(ct := Some(600));
      ColorTemperatureAsWritten(s, Some(153), Some(500), 0) == Ok(s) &&
      ColorTemperatureIntended(s, Some(153), Some(500), 0).ct == Some(500)
  {
  }

  /** Under the code as written no normal return ever changes the state, for any bounds. */
  lemma AsWrittenNeverChanges(s: LightState, ctMin: Option<U64>, ctMax: Option<U64>, delta: I128)
    ensures ColorTemperatureAsWritten(s, ctMin, ctMax, delta) == Ok(s)
         || ColorTemperatureAsWritten(s, ctMin, ctMax, delta).Err?
  {
  }

  class Light {
    var colorCapabilities: Option<U64>
    var ctMax: Option<U64>
    var ctMin: Option<U64>
    var lastAnnounced: Option<string>
    var lastSeen: Option<string>
    var etag: string
    var hasColor: bool
    var manufacturerName: string
    var name: string
    var modelId: string
    var powerUp: Option<U8>
    var swVersion: string
    var kind: string            // the `type` field
    var state: LightState
    var uniqueId: string

    /** `change_brightness`: the sum is formed in `i16`, which must not overflow. */
    method ChangeBrightness(delta: I16) returns (self: Light)
      requires InI16(state.bri.UnwrapOr(0) + delta)
      modifies this`state
      ensures self == this
      ensures state == WithBrightnessDelta(old(state), delta)
    {
      var newBri: I16 := state.bri.UnwrapOr(0) + delta;
      state := state.(bri := Some(Min(Max(newBri, 0), U8Max)));
      self := this;
    }

    /** `change_hue`: the sum is formed in `i64`, which must not overflow. */
    method ChangeHue(delta: I64) returns (self: Light)
      requires InI64(state.hue.UnwrapOr(0) + delta)
      modifies this`state
      ensures self == this
      ensures state == WithHueDelta(old(state), delta)
    {
      var newHue: I64 := state.hue.UnwrapOr(0) + delta;
      state := state.(hue := Some(Min(Max(newHue, 0), U32Max)));
      self := this;
    }

    /**
     * `change_color_temperature` as written. It writes nothing, so it needs
     * no `modifies` clause: the whole light is unchanged on every path. It
     * returns the light itself, or the panic it stops with.
     */
    method ChangeColorTemperature(delta: I128) returns (r: Result<Light, Panic>)
      ensures r.Err? <==> ctMax.Some? && ctMin.None?
      ensures r.Ok? ==> r.value == this
      ensures r == (match ColorTemperatureAsWritten(state, ctMin, ctMax, delta)
                    case Ok(_) => Ok(this)
                    case Err(p) => Err(p))
    {
      if ctMax.None? || ctMin.Some? {
        return Ok(this);
      }
      var newCt := state.ct.UnwrapOr(0) + delta;
      if !InI128(newCt) {
        return Err(AddOverflow);
      }
      // `self.ct_min.unwrap()`: the guard let through only an absent `ctMin`.
      r := Err(UnwrapOnNone);
    }

    /** The evidently intended `change_color_temperature`: clamp only when both bounds are present. */
    method ChangeColorTemperatureIntended(delta: I128) returns (self: Light)
      requires InI128(state.ct.UnwrapOr(0) + delta)
      modifies this`state
      ensures self == this
      ensures state == ColorTemperatureIntended(old(state), ctMin, ctMax, delta)
    {
      self := this;
      if ctMax.None? || ctMin.None? {
        return;
      }
      var newCt: I128 := state.ct.UnwrapOr(0) + delta;
      state := state.(ct := Some(Min(Max(newCt, ctMin.value), ctMax.value)));
    }

    /** `on`: overwrites the power flag. */
    method On(on: bool) returns (self: Light)
      modifies this`state
      ensures self == this
      ensures state == WithPower(old(state), on)
    {
      state := state.(on := Some(on));
      self := this;
    }
  }
}
