/**
 * The tone-sweep state machine of buzzer.c: the static `period`/`rate`
 * pair, the four game-event entry points that update it, and
 * `buzzer_set_period`, which derives the timer's CCR0/CCR1 compare values.
 * All quantities are 16-bit on the target, so their wrap-around is explicit.
 */
module Sound {

  import opened Words

  const MinPeriod: u16 := 1000
  const MaxPeriod: u16 := 4000
  const InitialPeriod: u16 := 1000
  const InitialRate: i16 := 200
  /** The constant both XORed into the period and subtracted for CCR0. */
  const Shaping: u16 := 1000

  /** The two timer compare registers. */
  datatype Regs = Regs(ccr0: u16, ccr1: u16)

  /**
   * `buzzer_set_period(cycles)`: CCR0 gets `cycles - 1000` and CCR1 gets
   * `cycles >> 1` (an arithmetic shift), each stored into 16 bits.
   */
  function SetPeriod(cycles: i16): (r: Regs)
    ensures Wrap16(r.ccr0 + Shaping) == Wrap16(cycles)
    ensures 2 * ToShort(r.ccr1) <= cycles <= 2 * ToShort(r.ccr1) + 1
  {
    Regs(Wrap16(cycles - Shaping), Wrap16(cycles / 2))
  }

  /** The whole state of the buzzer module: its two statics and the two registers it writes. */
  datatype Tone = Tone(period: u16, rate: i16, ccr0: u16, ccr1: u16)

  /** Power-on state: the statics' initialisers and cleared registers. */
  const Initial: Tone := Tone(InitialPeriod, InitialRate, 0, 0)

  /** The reversal guard shared by all four event functions. */
  predicate Reverses(t: Tone)
  {
    (t.rate > 0 && t.period > MaxPeriod) || (t.rate < 0 && t.period < MinPeriod)
  }

  /**
   * The effect of any one of `upBuzz`, `downBuzz`, `hitBuzz`, `loseBuzz`:
   * on reversal `rate` is negated and `period` moves by twice the new rate
   * (unsigned wrap-around); then the registers are set from `period ^ 1000`
   * read as a `short`.
   */
  function Event(t: Tone): Tone
  {
    var rate := if Reverses(t) then Negate16(t.rate) else t.rate;
    var period := if Reverses(t) then Wrap16(t.period + 2 * rate) else t.period;
    var regs := SetPeriod(ToShort(Xor16(period, Shaping)));
    Tone(period, rate, regs.ccr0, regs.ccr1)
  }

  /** `n` events in a row. */
  function EventN(t: Tone, n: nat): Tone
  {
    if n == 0 then t else Event(EventN(t, n - 1))
  }

  /** The reachable rates: the initial rate, possibly negated. */
  predicate RateReachable(rate: int)
  {
    rate == InitialRate || rate == -InitialRate
  }

  /**
   * An event changes `period`/`rate` exactly when the guard holds; then the
   * rate is negated and the period moves by twice the new rate.  The
   * registers always come from the resulting period.
   */
  lemma EventSpec(t: Tone)
    requires t.rate != -0x8000
    ensures Reverses(t) ==> Event(t).rate == -t.rate && Event(t).period == Wrap16(t.period - 2 * t.rate)
    ensures !Reverses(t) ==> Event(t).rate == t.rate && Event(t).period == t.period
    ensures (Event(t).period, Event(t).rate) != (t.period, t.rate) <==> Reverses(t)
    ensures Regs(Event(t).ccr0, Event(t).ccr1) == SetPeriod(ToShort(Xor16(Event(t).period, Shaping)))
  {
    if Reverses(t) {
      assert Event(t).rate == -t.rate != t.rate;
    }
  }

  /** Rate is only ever negated, so its magnitude is kept. */
  lemma EventKeepsRateMagnitude(t: Tone)
    requires t.rate != -0x8000
    ensures Event(t).rate == t.rate || Event(t).rate == -t.rate
    ensures RateReachable(t.rate) ==> RateReachable(Event(t).rate)
  {
  }

  /** A period within [MinPeriod, MaxPeriod] never triggers a reversal, so it is kept. */
  lemma InRangePeriodIsKept(t: Tone)
    requires MinPeriod <= t.period <= MaxPeriod
    ensures !Reverses(t)
    ensures Event(t).period == t.period && Event(t).rate == t.rate
  {
  }

  /**
   * The state after any event from power-on: period and rate unchanged and
   * the registers derived from `1000 ^ 1000 == 0`, that is CCR0 = -1000
   * stored unsigned and CCR1 = 0.
   */
  const Settled: Tone := Tone(InitialPeriod, InitialRate, 0x1_0000 - 1000, 0)

  /** The states reachable from power-on: the initial state, or the settled one. */
  predicate Reachable(t: Tone)
  {
    t == Initial || t == Settled
  }

  /** At the power-on period and rate an event keeps both and sets the registers from `1000 ^ 1000 == 0`. */
  lemma EventAtInitial(t: Tone)
    requires t.period == InitialPeriod && t.rate == InitialRate
    ensures Event(t) == Settled
  {
    assert !Reverses(t);
    assert Xor16(InitialPeriod, Shaping) == 0 by {
      XorSelf(InitialPeriod, 16);
    }
  }

  /**
   * From a reachable state the reversal guard is never true: `n` events
   * lead to the settled state (or nowhere, when `n` is 0).
   */
  lemma {:induction false} EventsFromReachable(t: Tone, n: nat)
    requires Reachable(t)
    ensures Reachable(EventN(t, n))
    ensures EventN(t, n) == if n == 0 then t else Settled
  {
    if n > 0 {
      EventsFromReachable(t, n - 1);
      EventAtInitial(EventN(t, n - 1));
    }
  }

  /** The buzzer module's state: its statics and the CCR0/CCR1 registers. */
  class Buzzer {
    var period: u16
    var rate: i16
    var ccr0: u16
    var ccr1: u16

    /** The statics and registers hold a state reachable from power-on. */
    ghost predicate Valid()
      reads this
    {
      Reachable(State())
    }

    function State(): Tone
      reads this
    {
      Tone(period, rate, ccr0, ccr1)
    }

    constructor ()
      ensures Valid() && State() == Initial
    {
      period, rate := InitialPeriod, InitialRate;
      ccr0, ccr1 := 0, 0;
    }

    method BuzzerSetPeriod(cycles: i16)
      modifies this`ccr0, this`ccr1
      ensures Regs(ccr0, ccr1) == SetPeriod(cycles)
    {
      ccr0 := Wrap16(cycles - Shaping);
      ccr1 := Wrap16(cycles / 2);
    }

    method UpBuzz()
      modifies this
      ensures State() == Event(old(State()))
    {
      if (rate > 0 && period > MaxPeriod) || (rate < 0 && period < MinPeriod) {
        rate := Negate16(rate);
        period := Wrap16(period + 2 * rate);
      }
      BuzzerSetPeriod(ToShort(Xor16(period, Shaping)));
    }

    method DownBuzz()
      modifies this
      ensures State() == Event(old(State()))
    {
      if (rate > 0 && period > MaxPeriod) || (rate < 0 && period < MinPeriod) {
        rate := Negate16(rate);
        period := Wrap16(period + 2 * rate);
      }
      BuzzerSetPeriod(ToShort(Xor16(period, Shaping)));
    }

    method HitBuzz()
      modifies this
      ensures State() == Event(old(State()))
    {
      if (rate > 0 && period > MaxPeriod) || (rate < 0 && period < MinPeriod) {
        rate := Negate16(rate);
        period := Wrap16(period + 2 * rate);
      }
      BuzzerSetPeriod(ToShort(Xor16(period, Shaping)));
    }

    method LoseBuzz()
      modifies this
      ensures State() == Event(old(State()))
    {
      if (rate > 0 && period > MaxPeriod) || (rate < 0 && period < MinPeriod) {
        rate := Negate16(rate);
        period := Wrap16(period + 2 * rate);
      }
      BuzzerSetPeriod(ToShort(Xor16(period, Shaping)));
    }
  }
}
