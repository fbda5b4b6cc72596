/**
 * The capacitive touch buttons.
 *
 * Each of the ten touch pads has a threshold percentage, an activation
 * flag, the latest filtered reading, a threshold and a callback. The
 * application configures a pad with a percentage and a callback; calibration
 * turns a reading of each activated pad into its threshold; the filter
 * callback of the touch driver stores the filtered readings; and every
 * dispatch cycle runs the callback of each activated pad whose reading is
 * below its threshold. Running a callback is recorded as the action it
 * stands for, which the application then carries out.
 *
 * Nothing in this code ever sets an activation flag, so no pad calibrates
 * or fires (see NoPadEverFires).
 */
module Touch {
  import opened Common

  const TOUCH_PAD_MAX: int := 10
  /** Threshold of a pad that has not been calibrated. */
  const THRESHOLD_INACTIVE: u16 := 0
  /** Period of the dispatch timer, in milliseconds. */
  const DISPATCH_CYCLE_TIME_MS: int := 100

  /** A pad's callback: an empty std::function or one standing for an action. */
  datatype Callback<A> = Empty | Bound(action: A)

  /** The five per-pad tables, as values. */
  datatype Pads<A> = Pads(
    percent: seq<u8>,
    activated: seq<bool>,
    filtered: seq<u16>,
    threshold: seq<u16>,
    callback: seq<Callback<A>>)

  predicate WellSized<A>(p: Pads<A>)
  {
    |p.percent| == TOUCH_PAD_MAX && |p.activated| == TOUCH_PAD_MAX && |p.filtered| == TOUCH_PAD_MAX
    && |p.threshold| == TOUCH_PAD_MAX && |p.callback| == TOUCH_PAD_MAX
  }

  /** The tables after construction: percentages and readings are zero-initialised, the rest reset. */
  function Initial<A>(): (p: Pads<A>)
    ensures WellSized(p)
  {
    Pads(seq(TOUCH_PAD_MAX, _ => 0), seq(TOUCH_PAD_MAX, _ => false), seq(TOUCH_PAD_MAX, _ => 0),
         seq(TOUCH_PAD_MAX, _ => THRESHOLD_INACTIVE), seq(TOUCH_PAD_MAX, _ => Empty))
  }

  /**
   * Threshold from a reading and a percentage: the product is formed in 32
   * bits (it cannot overflow there), divided by 100, and stored into the
   * 16-bit threshold, which keeps the low 16 bits.
   */
  function CalibratedThreshold(reading: u16, percent: u8): (t: u16)
    ensures t <= reading * percent / 100
    ensures reading * percent / 100 < U16_LIMIT ==> t == reading * percent / 100
  {
    (reading * percent / 100) % U16_LIMIT
  }

  /** Up to 100 percent the threshold is the truncated fraction of the reading, so it is at most the reading. */
  lemma CalibrationBelowReading(reading: u16, percent: u8)
    requires percent <= 100
    ensures CalibratedThreshold(reading, percent) == reading * percent / 100
    ensures CalibratedThreshold(reading, percent) <= reading
    ensures percent == 100 ==> CalibratedThreshold(reading, percent) == reading
  {
    var product := reading * percent;
    ProductBound(reading, percent);
    QuotientBound(product, reading);
  }

  lemma ProductBound(reading: u16, percent: u8)
    requires percent <= 100
    ensures 0 <= reading * percent <= reading * 100
    ensures percent == 100 ==> reading * percent == reading * 100
  {
  }

  lemma QuotientBound(product: int, reading: u16)
    requires 0 <= product <= reading * 100
    ensures product / 100 <= reading < U16_LIMIT
    ensures product == reading * 100 ==> product / 100 == reading
  {
  }

  /**
   * Above full scale the 16-bit store wraps: once the quotient reaches 2^16
   * the stored threshold is smaller than the quotient and differs from it by
   * a multiple of 2^16 (at most two wraps, since 65535 * 255 / 100 < 3 * 2^16).
   * For instance, 200 percent of 40000 stores 14464, below the reading.
   */
  lemma CalibrationWrapsAboveFullScale(reading: u16, percent: u8)
    requires reading * percent / 100 >= U16_LIMIT
    ensures CalibratedThreshold(reading, percent) < reading * percent / 100
    ensures CalibratedThreshold(reading, percent) == reading * percent / 100 - U16_LIMIT
         || CalibratedThreshold(reading, percent) == reading * percent / 100 - 2 * U16_LIMIT
    ensures CalibratedThreshold(40000, 200) == 14464
  {
    var q := reading * percent / 100;
    ProductBelow(reading, percent);
    assert q < 3 * U16_LIMIT;
  }

  lemma ProductBelow(reading: u16, percent: u8)
    ensures reading * percent <= 65535 * 255
  {
    MulMono(reading, 65535, percent);
    MulMono(percent, 255, 65535);
  }

  lemma MulMono(a: int, b: int, c: int)
    requires 0 <= a <= b && c >= 0
    ensures a * c <= b * c
  {
    assert b * c - a * c == (b - a) * c;
  }

  function Configure<A>(p: Pads<A>, i: int, percent: u8, cb: Callback<A>): (q: Pads<A>)
    requires WellSized(p) && 0 <= i < TOUCH_PAD_MAX
    ensures WellSized(q) && q.percent[i] == percent && q.callback[i] == cb
  {
    p.(percent := p.percent[i := percent], callback := p.callback[i := cb])
  }

  function Calibrate<A>(p: Pads<A>, readings: seq<u16>): (q: Pads<A>)
    requires WellSized(p) && |readings| == TOUCH_PAD_MAX
    ensures WellSized(q) && q.activated == p.activated && q.callback == p.callback
    ensures forall i :: 0 <= i < TOUCH_PAD_MAX && !p.activated[i] ==> q.threshold[i] == p.threshold[i]
  {
    p.(threshold := seq(TOUCH_PAD_MAX, i requires 0 <= i < TOUCH_PAD_MAX =>
         if p.activated[i] then CalibratedThreshold(readings[i], p.percent[i]) else p.threshold[i]))
  }

  function FilterRead<A>(p: Pads<A>, values: seq<u16>): (q: Pads<A>)
    requires WellSized(p) && |values| == TOUCH_PAD_MAX
    ensures WellSized(q) && q.threshold == p.threshold && q.activated == p.activated
  {
    p.(filtered := values)
  }

  /** The filter callback stores every filtered reading and changes no other table. */
  lemma FilterReadSpec<A>(p: Pads<A>, values: seq<u16>)
    requires WellSized(p) && |values| == TOUCH_PAD_MAX
    ensures var q := FilterRead(p, values);
      && WellSized(q)
      && (forall i :: 0 <= i < TOUCH_PAD_MAX ==> q.filtered[i] == values[i])
      && q.percent == p.percent && q.activated == p.activated
      && q.threshold == p.threshold && q.callback == p.callback
  {
  }

  /** Pad i fires: activated, reading below threshold, and a non-empty callback. */
  predicate Fires<A>(p: Pads<A>, i: int)
    requires WellSized(p) && 0 <= i < TOUCH_PAD_MAX
  {
    p.activated[i] && p.filtered[i] < p.threshold[i] && p.callback[i].Bound?
  }

  /** The actions run by one dispatch over pads 0 .. n-1, in pad order. */
  function FiredUpTo<A>(p: Pads<A>, n: nat): (r: seq<A>)
    requires WellSized(p) && n <= TOUCH_PAD_MAX
    ensures |r| <= n
  {
    if n == 0 then []
    else FiredUpTo(p, n - 1) + (if Fires(p, n - 1) then [p.callback[n - 1].action] else [])
  }

  function Fired<A>(p: Pads<A>): seq<A>
    requires WellSized(p)
  {
    FiredUpTo(p, TOUCH_PAD_MAX)
  }

  // ---------------------------------------------------------------- properties

  /** Extending a dispatch by pad n - 1 appends that pad's action exactly when it fires. */
  lemma FiredStep<A>(p: Pads<A>, n: nat)
    requires WellSized(p) && 0 < n <= TOUCH_PAD_MAX
    ensures Fires(p, n - 1) ==> FiredUpTo(p, n) == FiredUpTo(p, n - 1) + [p.callback[n - 1].action]
    ensures !Fires(p, n - 1) ==> FiredUpTo(p, n) == FiredUpTo(p, n - 1)
  {
  }

  /** The pads among 0 .. n-1 that fire. */
  function FiringPads<A>(p: Pads<A>, n: nat): set<int>
    requires WellSized(p) && n <= TOUCH_PAD_MAX
  {
    set i | 0 <= i < n && Fires(p, i)
  }

  lemma FiringPadsStep<A>(p: Pads<A>, n: nat)
    requires WellSized(p) && 0 < n <= TOUCH_PAD_MAX
    ensures n - 1 !in FiringPads(p, n - 1)
    ensures FiringPads(p, n) == FiringPads(p, n - 1) + (if Fires(p, n - 1) then {n - 1} else {})
  {
  }

  /** One dispatch over pads 0 .. n-1 runs one action per firing pad. */
  lemma {:induction false} FiredCount<A>(p: Pads<A>, n: nat)
    requires WellSized(p) && n <= TOUCH_PAD_MAX
    ensures |FiredUpTo(p, n)| == |FiringPads(p, n)|
  {
    if n > 0 {
      FiredCount(p, n - 1);
      FiredStep(p, n);
      FiringPadsStep(p, n);
    }
  }

  /**
   * The actions of one dispatch over pads 0 .. n-1 are exactly the
   * callbacks of the firing pads: every firing pad's action is among them,
   * and each of them comes from a firing pad.
   */
  lemma {:induction false} FiredExactly<A>(p: Pads<A>, n: nat)
    requires WellSized(p) && n <= TOUCH_PAD_MAX
    ensures forall i :: 0 <= i < n && Fires(p, i) ==> p.callback[i].action in FiredUpTo(p, n)
    ensures forall a :: a in FiredUpTo(p, n) ==> exists i :: 0 <= i < n && Fires(p, i) && p.callback[i].action == a
  {
    if n > 0 {
      FiredExactly(p, n - 1);
      FiredStep(p, n);
    }
  }

  /** A pad whose threshold is still 0 never fires: no unsigned reading is below 0. */
  lemma ZeroThresholdNeverFires<A>(p: Pads<A>, i: int)
    requires WellSized(p) && 0 <= i < TOUCH_PAD_MAX && p.threshold[i] == THRESHOLD_INACTIVE
    ensures !Fires(p, i)
  {
  }

  predicate NoneActivated<A>(p: Pads<A>)
    requires WellSized(p)
  {
    forall i :: 0 <= i < TOUCH_PAD_MAX ==> !p.activated[i]
  }

  /** With no pad activated, a dispatch runs nothing. */
  lemma {:induction false} NothingFiresWhenNoneActivated<A>(p: Pads<A>, n: nat)
    requires WellSized(p) && NoneActivated(p) && n <= TOUCH_PAD_MAX
    ensures FiredUpTo(p, n) == []
  {
    if n > 0 {
      NothingFiresWhenNoneActivated(p, n - 1);
    }
  }

  /** Configuring touches only that pad's percentage and callback. */
  lemma ConfigureIsLocal<A>(p: Pads<A>, i: int, percent: u8, cb: Callback<A>)
    requires WellSized(p) && 0 <= i < TOUCH_PAD_MAX
    ensures var q := Configure(p, i, percent, cb);
      && WellSized(q) && q.activated == p.activated && q.threshold == p.threshold && q.filtered == p.filtered
      && q.percent[i] == percent && q.callback[i] == cb
      && forall j :: 0 <= j < TOUCH_PAD_MAX && j != i ==> q.percent[j] == p.percent[j] && q.callback[j] == p.callback[j]
  {
  }

  /** Calibration sets the threshold of each activated pad from its reading and keeps the others. */
  lemma CalibrateSpec<A>(p: Pads<A>, readings: seq<u16>, i: int)
    requires WellSized(p) && |readings| == TOUCH_PAD_MAX && 0 <= i < TOUCH_PAD_MAX
    ensures var q := Calibrate(p, readings);
      && WellSized(q) && q.activated == p.activated && q.percent == p.percent
      && q.filtered == p.filtered && q.callback == p.callback
      && (p.activated[i] ==> q.threshold[i] == CalibratedThreshold(readings[i], p.percent[i]))
      && (!p.activated[i] ==> q.threshold[i] == p.threshold[i])
  {
  }

  /** One operation on the pads, as the application and the drivers issue them. */
  datatype Op<A> =
    | ConfigureOp(pad: int, percent: u8, cb: Callback<A>)
    | CalibrateOp(readings: seq<u16>)
    | FilterOp(values: seq<u16>)
    | DispatchOp

  predicate OpOk<A>(op: Op<A>)
  {
    match op
    case ConfigureOp(i, _, _) => 0 <= i < TOUCH_PAD_MAX
    case CalibrateOp(r) => |r| == TOUCH_PAD_MAX
    case FilterOp(v) => |v| == TOUCH_PAD_MAX
    case DispatchOp => true
  }

  function Apply<A>(p: Pads<A>, op: Op<A>): (q: Pads<A>)
    requires WellSized(p) && OpOk(op)
    ensures WellSized(q)
  {
    match op
    case ConfigureOp(i, pct, cb) => Configure(p, i, pct, cb)
    case CalibrateOp(r) => Calibrate(p, r)
    case FilterOp(v) => FilterRead(p, v)
    case DispatchOp => p
  }

  function Run<A>(p: Pads<A>, ops: seq<Op<A>>): (q: Pads<A>)
    requires WellSized(p) && forall k :: 0 <= k < |ops| ==> OpOk(ops[k])
    ensures WellSized(q)
    decreases |ops|
  {
    if ops == [] then p else Run(Apply(p, ops[0]), ops[1..])
  }

  /**
   * No operation sets an activation flag, so after construction and any
   * sequence of configurations, calibrations, readings and dispatches,
   * every threshold is still 0 and no dispatch runs a callback.
   */
  lemma {:induction false} NoPadEverFires<A>(ops: seq<Op<A>>)
    requires forall k :: 0 <= k < |ops| ==> OpOk(ops[k])
    ensures NoneActivated(Run(Initial<A>(), ops))
    ensures forall i :: 0 <= i < TOUCH_PAD_MAX ==> Run(Initial<A>(), ops).threshold[i] == THRESHOLD_INACTIVE
    ensures Fired(Run(Initial<A>(), ops)) == []
  {
    StaysInactive(Initial<A>(), ops);
    NothingFiresWhenNoneActivated(Run(Initial<A>(), ops), TOUCH_PAD_MAX);
  }

  lemma {:induction false} StaysInactive<A>(p: Pads<A>, ops: seq<Op<A>>)
    requires WellSized(p) && forall k :: 0 <= k < |ops| ==> OpOk(ops[k])
    requires NoneActivated(p) && forall i :: 0 <= i < TOUCH_PAD_MAX ==> p.threshold[i] == THRESHOLD_INACTIVE
    ensures NoneActivated(Run(p, ops))
    ensures forall i :: 0 <= i < TOUCH_PAD_MAX ==> Run(p, ops).threshold[i] == THRESHOLD_INACTIVE
    decreases |ops|
  {
    if ops != [] {
      var q := Apply(p, ops[0]);
      if ops[0].CalibrateOp? {
        forall i | 0 <= i < TOUCH_PAD_MAX
          ensures q.threshold[i] == THRESHOLD_INACTIVE
        {
          CalibrateSpec(p, ops[0].readings, i);
        }
      }
      StaysInactive(q, ops[1..]);
    }
  }

  // ---------------------------------------------------------------- the object

  class ReactiveTouch<A> {
    const thresholdPercent: array<u8>
    const activated: array<bool>
    const filteredValue: array<u16>
    const threshold: array<u16>
    const callback: array<Callback<A>>

    predicate Valid()
      reads this
    {
      thresholdPercent.Length == TOUCH_PAD_MAX && activated.Length == TOUCH_PAD_MAX
      && filteredValue.Length == TOUCH_PAD_MAX && threshold.Length == TOUCH_PAD_MAX
      && callback.Length == TOUCH_PAD_MAX && filteredValue != threshold
    }

    function Abstract(): (p: Pads<A>)
      requires Valid()
      reads this, thresholdPercent, activated, filteredValue, threshold, callback
      ensures WellSized(p)
    {
      Pads(thresholdPercent[..], activated[..], filteredValue[..], threshold[..], callback[..])
    }

    constructor ()
      ensures Valid() && Abstract() == Initial<A>()
    {
      var act := new bool[TOUCH_PAD_MAX];
      var thr := new u16[TOUCH_PAD_MAX](_ => 0);
      var cbs := new Callback<A>[TOUCH_PAD_MAX](_ => Empty);
      for i := 0 to TOUCH_PAD_MAX
        invariant forall j :: 0 <= j < i ==> !act[j] && thr[j] == THRESHOLD_INACTIVE && cbs[j] == Empty
      {
        act[i] := false;
        thr[i] := THRESHOLD_INACTIVE;
        cbs[i] := Empty;
      }
      var pct := new u8[TOUCH_PAD_MAX](_ => 0);
      var flt := new u16[TOUCH_PAD_MAX](_ => 0);
      assert pct[..] == seq(TOUCH_PAD_MAX, _ => 0);
      assert act[..] == seq(TOUCH_PAD_MAX, _ => false);
      assert flt[..] == seq(TOUCH_PAD_MAX, _ => 0);
      assert thr[..] == seq(TOUCH_PAD_MAX, _ => THRESHOLD_INACTIVE);
      assert cbs[..] == seq(TOUCH_PAD_MAX, _ => Empty);
      thresholdPercent := pct;
      activated := act;
      filteredValue := flt;
      threshold := thr;
      callback := cbs;
    }

    method ConfigureInput(inputNumber: int, percent: u8, cb: Callback<A>)
      requires Valid() && 0 <= inputNumber < TOUCH_PAD_MAX
      modifies thresholdPercent, callback
      ensures Valid() && Abstract() == Configure(old(Abstract()), inputNumber, percent, cb)
    {
      thresholdPercent[inputNumber] := percent;
      callback[inputNumber] := cb;
    }

    /** Calibrates every activated pad; `readings[i]` is what the driver reports for pad i. */
    method CalibrateThresholds(readings: seq<u16>)
      requires Valid() && |readings| == TOUCH_PAD_MAX
      modifies threshold
      ensures Valid() && Abstract() == Calibrate(old(Abstract()), readings)
    {
      for i := 0 to TOUCH_PAD_MAX
        invariant forall j :: 0 <= j < i ==>
          threshold[j] == if activated[j] then CalibratedThreshold(readings[j], thresholdPercent[j]) else old(threshold[j])
        invariant forall j :: i <= j < TOUCH_PAD_MAX ==> threshold[j] == old(threshold[j])
      {
        if activated[i] {
          threshold[i] := CalibratedThreshold(readings[i], thresholdPercent[i]);
        }
      }
    }

    /** Stores the filtered readings the touch driver hands over; the raw readings are not used. */
    method FilterReadCb(rawValue: seq<u16>, filteredValues: seq<u16>)
      requires Valid() && |filteredValues| == TOUCH_PAD_MAX
      modifies filteredValue
      ensures Valid() && Abstract() == FilterRead(old(Abstract()), filteredValues)
    {
      for i := 0 to TOUCH_PAD_MAX
        invariant filteredValue[..i] == filteredValues[..i]
      {
        filteredValue[i] := filteredValues[i];
      }
    }

    /** One dispatch cycle: the actions of the callbacks it runs, in pad order. Nothing changes. */
    method DispatchCallbacks() returns (fired: seq<A>)
      requires Valid()
      ensures fired == Fired(Abstract())
    {
      fired := [];
      for i := 0 to TOUCH_PAD_MAX
        invariant fired == FiredUpTo(Abstract(), i)
      {
        if activated[i] && filteredValue[i] < threshold[i] {
          var cb := callback[i];
          if cb.Bound? {
            fired := fired + [cb.action];
          }
        }
      }
    }
  }
}
