/**
 * The runtime state of a light and the value-level effect of each state
 * mutator. `src/light.rs` and `src/endpoints/light.rs` declare the same
 * `LightState` record and the same enumerations field for field; both light
 * modules share this one.
 */
module LightStates {
  import opened Wrappers
  import opened Ints

  datatype AlertMode = NoAlert | Select | LSelect
  datatype ColorMode = NoColorMode | Hs | Xy | Ct

  /** The `[f64; 2]` chromaticity pair; carried along, never computed on. */
  datatype XyPoint = XyPoint(x: real, y: real)

  /** Every field is optional: absent means "unknown" when read and "leave as is" when sent. */
  datatype LightState = LightState(
    alert: Option<AlertMode>,
    bri: Option<U8>,
    effect: Option<ColorMode>,   // the source types `effect` with ColorMode
    colorLoopSpeed: Option<U8>,
    ct: Option<U64>,
    hue: Option<U32>,
    on: Option<bool>,
    sat: Option<U8>,
    transitionTime: Option<U64>,
    xy: Option<XyPoint>)

  /** `LightState::default()`. */
  const Blank := LightState(None, None, None, None, None, None, None, None, None, None)

  /** State after `change_brightness(delta)`: missing brightness reads as 0, the sum is clamped to 0..=255. */
  function WithBrightnessDelta(s: LightState, delta: int): (r: LightState)
    ensures r.bri.Some?
    ensures var sum := s.bri.UnwrapOr(0) + delta;
      (0 <= sum <= U8Max ==> r.bri.value == sum) &&
      (sum < 0 ==> r.bri.value == 0) &&
      (U8Max < sum ==> r.bri.value == U8Max)
    ensures r.(bri := s.bri) == s
  {
    s.(bri := Some(Clamp(s.bri.UnwrapOr(0) + delta, 0, U8Max)))
  }

  /** State after `change_hue(delta)`: missing hue reads as 0, the sum is clamped to 0..=u32::MAX. */
  function WithHueDelta(s: LightState, delta: int): (r: LightState)
    ensures r.hue.Some?
    ensures var sum := s.hue.UnwrapOr(0) + delta;
      (0 <= sum <= U32Max ==> r.hue.value == sum) &&
      (sum < 0 ==> r.hue.value == 0) &&
      (U32Max < sum ==> r.hue.value == U32Max)
    ensures r.(hue := s.hue) == s
  {
    s.(hue := Some(Clamp(s.hue.UnwrapOr(0) + delta, 0, U32Max)))
  }

  /**
   * State after a colour-temperature change clamped to `[ctMin, ctMax]`:
   * missing ct reads as 0; the lower bound is applied first and the upper
   * bound last, so with `ctMin > ctMax` the result is `ctMax`.
   */
  function WithColorTemperatureDelta(s: LightState, ctMin: U64, ctMax: U64, delta: int): (r: LightState)
    ensures r.ct.Some?
    ensures r.ct.value <= ctMax
    ensures ctMin <= ctMax ==> ctMin <= r.ct.value
    ensures ctMax < ctMin ==> r.ct.value == ctMax
    ensures var sum := s.ct.UnwrapOr(0) + delta;
      (ctMin <= sum <= ctMax ==> r.ct.value == sum) &&
      (sum < ctMin && ctMin <= ctMax ==> r.ct.value == ctMin) &&
      (ctMax < sum ==> r.ct.value == ctMax)
    ensures r.(ct := s.ct) == s
  {
    s.(ct := Some(Clamp(s.ct.UnwrapOr(0) + delta, ctMin, ctMax)))
  }

  /** State after `on(b)`. */
  function WithPower(s: LightState, b: bool): (r: LightState)
    ensures r.on == Some(b)
    ensures r.(on := s.on) == s
  {
    s.(on := Some(b))
  }

  /** Switching the power to the same value twice is the same as once. */
  lemma PowerIdempotent(s: LightState, b: bool)
    ensures WithPower(WithPower(s, b), b) == WithPower(s, b)
  {
  }

  /** Of two power switches only the last one is visible. */
  lemma PowerLastWins(s: LightState, b1: bool, b2: bool)
    ensures WithPower(WithPower(s, b1), b2) == WithPower(s, b2)
  {
  }

  /** Each mutator touches its own field only, so mutators on different fields commute. */
  lemma MutatorsCommute(s: LightState, db: int, dh: int, lo: U64, hi: U64, dc: int, b: bool)
    ensures WithHueDelta(WithBrightnessDelta(s, db), dh) == WithBrightnessDelta(WithHueDelta(s, dh), db)
    ensures WithColorTemperatureDelta(WithBrightnessDelta(s, db), lo, hi, dc)
         == WithBrightnessDelta(WithColorTemperatureDelta(s, lo, hi, dc), db)
    ensures WithPower(WithBrightnessDelta(s, db), b) == WithBrightnessDelta(WithPower(s, b), db)
    ensures WithPower(WithColorTemperatureDelta(s, lo, hi, dc), b)
         == WithColorTemperatureDelta(WithPower(s, b), lo, hi, dc)
    ensures WithColorTemperatureDelta(WithHueDelta(s, dh), lo, hi, dc)
         == WithHueDelta(WithColorTemperatureDelta(s, lo, hi, dc), dh)
    ensures WithPower(WithHueDelta(s, dh), b) == WithHueDelta(WithPower(s, b), dh)
  {
  }

  /** Dimming by 254 from an unknown brightness gives the minimum brightness. */
  lemma DimFromUnknown(s: LightState)
    requires s.bri.None?
    ensures WithBrightnessDelta(s, -254).bri == Some(0)
  {
  }

  /** Dimming by 254 leaves 0, except from full brightness, which leaves 1. */
  lemma DimBy254(s: LightState)
    ensures WithBrightnessDelta(s, -254).bri == Some(if s.bri == Some(U8Max) then 1 else 0)
  {
  }

  /** `n` successive `change_brightness(1)` steps. */
  function BrightenedBySteps(s: LightState, n: nat): LightState
  {
    if n == 0 then s else WithBrightnessDelta(BrightenedBySteps(s, n - 1), 1)
  }

  /** Unit steps add up until they stop at 255; they never go past it, and leave the rest alone. */
  lemma {:induction false} StepsSaturate(s: LightState, n: nat)
    requires 0 < n
    ensures BrightenedBySteps(s, n).bri == Some(Min(s.bri.UnwrapOr(0) + n, U8Max))
    ensures BrightenedBySteps(s, n).(bri := s.bri) == s
  {
    if n > 1 {
      StepsSaturate(s, n - 1);
    }
  }

  /** `n` successive `+1` colour-temperature steps within `[ctMin, ctMax]`. */
  function WarmedBySteps(s: LightState, ctMin: U64, ctMax: U64, n: nat): LightState
  {
    if n == 0 then s else WithColorTemperatureDelta(WarmedBySteps(s, ctMin, ctMax, n - 1), ctMin, ctMax, 1)
  }

  /**
   * Starting from `ctMin`, unit steps climb to `ctMax` and stay there; with an
   * inverted window the first step already lands on `ctMax`.
   */
  lemma {:induction false} WarmingSaturates(s: LightState, ctMin: U64, ctMax: U64, n: nat)
    requires s.ct == Some(ctMin) && 0 < n
    ensures WarmedBySteps(s, ctMin, ctMax, n).ct == Some(Min(ctMin + n, ctMax))
    ensures WarmedBySteps(s, ctMin, ctMax, n).(ct := s.ct) == s
  {
    if n > 1 {
      WarmingSaturates(s, ctMin, ctMax, n - 1);
    }
  }
}
