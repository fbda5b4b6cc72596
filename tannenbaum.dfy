/**
 * The tree's operating-mode state machine.
 *
 * A `Tannenbaum` owns the current operating mode, the on/off state of the
 * all-on mode, the pattern interval and the positions of the two animated
 * patterns. Each mode binds the twelve LED pins to PWM channels its own way;
 * a periodic tick renders the current mode's pattern into the PWM duty
 * registers. Remote commands reach it through the HTTP server's command
 * map, and the on/off command mirrors the LED state into a page template.
 *
 * Hardware effects are recorded: `pins` is the pin -> PWM channel binding
 * and `duty` the duty register of each PWM channel.
 */
module Tannenbaum {
  import opened Common
  import opened Patterns
  import opened Http

  datatype Mode = Larson | Spinning | AllOnOff

  /** The actions the tree registers with the command router. */
  datatype Command = LarsonCmd | SpinCmd | OnOffCmd | PlusCmd | MinusCmd

  /** PWM channels of the LED controller. */
  const CHANNELS: int := 16
  /** The pattern interval a new tree starts with, in milliseconds. */
  const INITIAL_INTERVAL: int := 100
  /** The template placeholder that styles the on/off button. */
  const ON_OFF_BTN_STATE: string := "ON_OFF_BTN_STATE"

  /** The twelve LED pins. */
  const LED_PINS: set<int> := {32, 21, 33, 19, 25, 18, 26, 17, 27, 16, 4, 14}

  // ---------------------------------------------------------------- pin bindings

  /** Larson: left/right pin pairs share channels 0-4, then pin 4 on 5 and pin 14 on 6. */
  function LarsonPins(): map<int, int>
  {
    map[32 := 0, 21 := 0, 33 := 1, 19 := 1, 25 := 2, 18 := 2, 26 := 3, 17 := 3,
        27 := 4, 16 := 4, 4 := 5, 14 := 6]
  }

  /** Spinning: one channel per pin, going up the left side and down the right. */
  function SpinPins(): map<int, int>
  {
    map[32 := 0, 33 := 1, 25 := 2, 26 := 3, 27 := 4, 4 := 5, 14 := 6,
        16 := 7, 17 := 8, 18 := 9, 19 := 10, 21 := 11]
  }

  /** All on/off: every pin on channel 0. */
  function AllOnOffPins(): map<int, int>
  {
    map[32 := 0, 21 := 0, 33 := 0, 19 := 0, 25 := 0, 18 := 0, 26 := 0, 17 := 0,
        27 := 0, 16 := 0, 4 := 0, 14 := 0]
  }

  function PinsOf(m: Mode): map<int, int>
  {
    match m
    case Larson => LarsonPins()
    case Spinning => SpinPins()
    case AllOnOff => AllOnOffPins()
  }

  /** The binding after a mode's twelve attach calls, in the order the firmware makes them. */
  function Rebind(pins: map<int, int>, m: Mode): map<int, int>
  {
    match m
    case Larson =>
      pins[32 := 0][21 := 0][33 := 1][19 := 1][25 := 2][18 := 2][26 := 3][17 := 3][27 := 4][16 := 4][4 := 5][14 := 6]
    case Spinning =>
      pins[32 := 0][33 := 1][25 := 2][26 := 3][27 := 4][4 := 5][14 := 6][16 := 7][17 := 8][18 := 9][19 := 10][21 := 11]
    case AllOnOff =>
      pins[32 := 0][21 := 0][33 := 0][19 := 0][25 := 0][18 := 0][26 := 0][17 := 0][27 := 0][16 := 0][4 := 0][14 := 0]
  }

  /** The attach calls of a mode overlay exactly that mode's table on the previous binding. */
  lemma RebindOverlays(pins: map<int, int>, m: Mode)
    ensures Rebind(pins, m) == pins + PinsOf(m)
  {
    match m
    case Larson => LarsonRebindOverlays(pins);
    case Spinning => SpinRebindOverlays(pins);
    case AllOnOff => AllOnOffRebindOverlays(pins);
  }

  lemma LarsonRebindOverlays(pins: map<int, int>)
    ensures Rebind(pins, Larson) == pins + LarsonPins()
  {
  }

  lemma SpinRebindOverlays(pins: map<int, int>)
    ensures Rebind(pins, Spinning) == pins + SpinPins()
  {
  }

  lemma AllOnOffRebindOverlays(pins: map<int, int>)
    ensures Rebind(pins, AllOnOff) == pins + AllOnOffPins()
  {
  }

  /** Every mode's table binds exactly the twelve LED pins. */
  lemma ModeTablesCoverLedPins(m: Mode)
    ensures PinsOf(m).Keys == LED_PINS
  {
  }

  /** Larson drives channels 0-6. */
  lemma LarsonTableChannels()
    ensures LarsonPins().Values == {0, 1, 2, 3, 4, 5, 6}
  {
    var lp := LarsonPins();
    assert lp[32] == 0 && lp[33] == 1 && lp[25] == 2 && lp[26] == 3 && lp[27] == 4 && lp[4] == 5 && lp[14] == 6;
  }

  /** Spinning gives each pin its own channel among 0-11. */
  lemma SpinTableChannels()
    ensures SpinPins().Values == {0, 1, 2, 3, 4, 5, 6, 7, 8, 9, 10, 11}
    ensures forall p, q :: p in SpinPins() && q in SpinPins() && p != q ==> SpinPins()[p] != SpinPins()[q]
  {
    var sp := SpinPins();
    assert sp[32] == 0 && sp[33] == 1 && sp[25] == 2 && sp[26] == 3 && sp[27] == 4 && sp[4] == 5;
    assert sp[14] == 6 && sp[16] == 7 && sp[17] == 8 && sp[18] == 9 && sp[19] == 10 && sp[21] == 11;
  }

  /** All on/off drives every LED from channel 0. */
  lemma AllOnOffTableChannel()
    ensures AllOnOffPins().Values == {0}
  {
    assert AllOnOffPins()[32] == 0;
  }

  /** Once only LED pins have been bound, a mode switch leaves exactly that mode's table. */
  lemma RebindFromLedPins(pins: map<int, int>, m: Mode)
    requires pins.Keys <= LED_PINS
    ensures Rebind(pins, m) == PinsOf(m)
  {
    RebindOverlays(pins, m);
    ModeTablesCoverLedPins(m);
  }

  // ---------------------------------------------------------------- interval ladder

  /** One "faster" step: halve (rounding down) while the interval is at least 2. */
  function Faster(interval: int): int
  {
    if interval >= 2 then interval / 2 else interval
  }

  /** One "slower" step: double while the interval is below 4096. */
  function Slower(interval: int): int
  {
    if interval < 4096 then interval * 2 else interval
  }

  function FasterTimes(interval: int, k: nat): int
  {
    if k == 0 then interval else Faster(FasterTimes(interval, k - 1))
  }

  function SlowerTimes(interval: int, k: nat): int
  {
    if k == 0 then interval else Slower(SlowerTimes(interval, k - 1))
  }

  lemma DivUnique(x: int, b: int, q: int, r: int)
    requires b > 0 && x == q * b + r && 0 <= r < b
    ensures x / b == q
  {
    var q', r' := x / b, x % b;
    assert (q - q') * b == r' - r;
    if q > q' {
      MulAtLeast(q - q', b);
    } else if q < q' {
      MulAtLeast(q' - q, b);
    }
  }

  lemma MulAtLeast(a: int, b: int)
    requires a >= 1 && b > 0
    ensures a * b >= b
  {
    assert a * b == (a - 1) * b + b;
  }

  lemma DivDiv2(x: nat, d: nat)
    requires d >= 1
    ensures x / d / 2 == x / (d * 2)
  {
    var q, r := x / d, x % d;
    var q2, r2 := q / 2, q % 2;
    assert x == (2 * q2 + r2) * d + r;
    assert x == q2 * (d * 2) + (r2 * d + r);
    DivUnique(x, d * 2, q2, r2 * d + r);
  }

  /** k "faster" steps from a positive interval give max(1, interval / 2^k): never 0. */
  lemma {:induction false} FasterTimesExact(interval: int, k: nat)
    requires interval >= 1
    ensures FasterTimes(interval, k) == if interval / Pow2(k) >= 1 then interval / Pow2(k) else 1
  {
    if k > 0 {
      FasterTimesExact(interval, k - 1);
      DivDiv2(interval, Pow2(k - 1));
    }
  }

  lemma DoubleFactor(x: int, y: int)
    ensures x * (2 * y) == 2 * (x * y)
  {
  }

  /**
   * k "slower" steps from an interval in [1, 8191] stay below 8192: they
   * double k times when that stays below 8192, and otherwise stop at a
   * value in [4096, 8191].
   */
  lemma {:induction false} SlowerTimesBound(interval: int, k: nat)
    requires 1 <= interval < 8192
    ensures SlowerTimes(interval, k) < 8192
    ensures interval * Pow2(k) < 8192 ==> SlowerTimes(interval, k) == interval * Pow2(k)
    ensures interval * Pow2(k) >= 8192 ==> SlowerTimes(interval, k) >= 4096
  {
    if k > 0 {
      SlowerTimesBound(interval, k - 1);
      DoubleFactor(interval, Pow2(k - 1));
    }
  }

  // ---------------------------------------------------------------- wrap-around clock

  /** Milliseconds since `stamp`, as the unsigned 32-bit subtraction computes it. */
  function Elapsed(now: u32, stamp: u32): (d: u32)
  {
    (now - stamp) % U32_LIMIT
  }

  /** The elapsed time is measured correctly across a wrap of the millisecond clock. */
  lemma ElapsedAcrossWrap(stamp: u32, d: u32)
    ensures Elapsed(((stamp + d) % U32_LIMIT) as u32, stamp) == d
  {
    var now := (stamp + d) % U32_LIMIT;
    if stamp + d < U32_LIMIT {
      assert now - stamp == d;
    } else {
      assert now - stamp == d - U32_LIMIT;
    }
  }

  // ---------------------------------------------------------------- abstract state

  /** Everything the tree's operations read or change, as one value. */
  datatype Tree = Tree(
    mode: Mode,
    ledOn: bool,
    interval: u32,
    larsonShift: int,
    shiftingRight: bool,
    spinShift: int,
    stamp: Option<u32>,
    pins: map<int, int>,
    duty: seq<int>,
    templates: map<string, string>)

  /** What every reachable tree satisfies. */
  predicate Inv(t: Tree)
  {
    && |t.duty| == CHANNELS
    && LarsonInRange(t.larsonShift)
    && SpinInRange(t.spinShift)
    && 1 <= t.interval < 8192
  }

  /** The on/off button's style names the LED state: "" while on, "btn_off" while off. */
  predicate ButtonConsistent(t: Tree)
  {
    && ON_OFF_BTN_STATE in t.templates
    && t.templates[ON_OFF_BTN_STATE] == (if t.ledOn then "" else "btn_off")
  }

  /** A mode switch: the mode's twelve attach calls leave its table overlaid on the binding. */
  function SetMode(t: Tree, m: Mode): (r: Tree)
    ensures r.mode == m && r.pins == t.pins + PinsOf(m)
  {
    RebindOverlays(t.pins, m);
    t.(mode := m, pins := Rebind(t.pins, m))
  }

  /** After a mode switch every LED pin is bound as that mode's table says, whatever the binding was before. */
  lemma SetModeBindsLedPins(t: Tree, m: Mode)
    ensures forall pin :: pin in LED_PINS ==> pin in SetMode(t, m).pins && SetMode(t, m).pins[pin] == PinsOf(m)[pin]
  {
    ModeTablesCoverLedPins(m);
  }

  /** One Larson render: the frame of the current shift on channels 0-6, then one bounce step. */
  function LarsonRender(t: Tree): (r: Tree)
    requires |t.duty| == CHANNELS
    ensures |r.duty| == CHANNELS && r.duty[LARSON_LEDS..] == t.duty[LARSON_LEDS..]
    ensures forall i :: 0 <= i < LARSON_LEDS ==> r.duty[i] == LarsonDuty(t.larsonShift, i)
    ensures LarsonInRange(t.larsonShift) ==> LarsonInRange(r.larsonShift)
  {
    var next := LarsonStep(t.larsonShift, t.shiftingRight);
    t.(duty := LarsonFrame(t.larsonShift) + t.duty[LARSON_LEDS..],
       larsonShift := next.0, shiftingRight := next.1)
  }

  /** One spinner render: the frame of the current shift on channels 0-11, then one step round the ring. */
  function SpinRender(t: Tree): (r: Tree)
    requires |t.duty| == CHANNELS
    ensures |r.duty| == CHANNELS && r.duty[SPIN_LEDS..] == t.duty[SPIN_LEDS..]
    ensures forall i :: 0 <= i < SPIN_LEDS ==> r.duty[i] == SpinDuty(t.spinShift, i)
    ensures SpinInRange(t.spinShift) ==> SpinInRange(r.spinShift) && r.spinShift != 0
  {
    t.(duty := SpinFrame(t.spinShift) + t.duty[SPIN_LEDS..], spinShift := SpinStep(t.spinShift))
  }

  /** An all on/off render: channel 0 shows the LED state. */
  function AllOnOffRender(t: Tree): (r: Tree)
    requires |t.duty| == CHANNELS
    ensures |r.duty| == CHANNELS && r.duty[1..] == t.duty[1..]
    ensures r.duty[0] == ON <==> t.ledOn
  {
    t.(duty := t.duty[0 := if t.ledOn then ON else OFF])
  }

  /** The render of the current mode. */
  function Render(t: Tree): (r: Tree)
    requires |t.duty| == CHANNELS
    ensures |r.duty| == CHANNELS && r.mode == t.mode && r.pins == t.pins && r.ledOn == t.ledOn
  {
    match t.mode
    case Larson => LarsonRender(t)
    case Spinning => SpinRender(t)
    case AllOnOff => AllOnOffRender(t)
  }

  /** The toggle: switch to all-on/off, flip the LED state, render it; the result is the new state. */
  function Toggle(t: Tree): (r: (Tree, bool))
    requires |t.duty| == CHANNELS
    ensures r.1 == !t.ledOn && r.0.ledOn == r.1 && r.0.mode == AllOnOff
    ensures |r.0.duty| == CHANNELS && (r.0.duty[0] == ON <==> r.1)
  {
    var t' := AllOnOffRender(SetMode(t, AllOnOff).(ledOn := !t.ledOn));
    (t', t'.ledOn)
  }

  /** One speed-up: the interval halves, but never below 1. */
  function SpeedUp(t: Tree): (r: Tree)
    ensures r.interval <= t.interval && (t.interval >= 1 ==> r.interval >= 1)
    ensures t.interval >= 2 ==> 2 * r.interval <= t.interval
  {
    t.(interval := Faster(t.interval))
  }

  /** One slow-down: the interval doubles, but only from below 4096. */
  function SlowDown(t: Tree): (r: Tree)
    ensures r.interval >= t.interval && (t.interval < 8192 ==> r.interval < 8192)
    ensures t.interval < 4096 ==> r.interval == 2 * t.interval
  {
    t.(interval := Slower(t.interval))
  }

  /**
   * A timer call at `now`. The first call stamps the clock reading `clock`;
   * a render happens when strictly more than the interval has elapsed since
   * the stamp, and then moves the stamp to `now`.
   */
  function TimerCall(t: Tree, now: u32, clock: u32): (r: Tree)
    requires |t.duty| == CHANNELS
    ensures r.stamp.Some? && r.mode == t.mode && r.interval == t.interval && r.ledOn == t.ledOn
    ensures r.stamp != Some(now) ==> r.duty == t.duty
  {
    var stamp := if t.stamp.Some? then t.stamp.value else clock;
    if Elapsed(now, stamp) > t.interval then Render(t.(stamp := Some(now)))
    else t.(stamp := Some(stamp))
  }

  /** What a registered command does to the tree. */
  function ExecCommand(t: Tree, c: Command): (r: Tree)
    requires |t.duty| == CHANNELS
    ensures r.larsonShift == t.larsonShift && r.shiftingRight == t.shiftingRight && r.spinShift == t.spinShift
    ensures r.stamp == t.stamp && |r.duty| == CHANNELS && r.duty[1..] == t.duty[1..]
  {
    match c
    case LarsonCmd => SetMode(t, Larson)
    case SpinCmd => SetMode(t, Spinning)
    case OnOffCmd =>
      var (t', on) := Toggle(t);
      t'.(templates := t'.templates[ON_OFF_BTN_STATE := if on then "" else "btn_off"])
    case PlusCmd => SpeedUp(t)
    case MinusCmd => SlowDown(t)
  }

  /** Carrying out the calls of a command request in order. */
  function RunCalls(t: Tree, calls: seq<Invocation<Command>>): (r: Tree)
    requires Inv(t)
    ensures Inv(r)
  {
    if calls == [] then t else
      var before := RunCalls(t, calls[..|calls| - 1]);
      ExecPreservesInv(before, calls[|calls| - 1].action);
      ExecCommand(before, calls[|calls| - 1].action)
  }

  /** The command map after the tree's five registrations, in the order it makes them. */
  function RegisterCommands(cmds: map<string, Handler<Command>>): (r: map<string, Handler<Command>>)
    ensures r.Keys == cmds.Keys + {"larson", "spin", "on_off", "plus", "minus"}
    ensures forall name :: name in cmds && name !in {"larson", "spin", "on_off", "plus", "minus"} ==> r[name] == cmds[name]
  {
    cmds["larson" := VoidHandler(LarsonCmd)]["spin" := VoidHandler(SpinCmd)]
        ["on_off" := VoidHandler(OnOffCmd)]["plus" := VoidHandler(PlusCmd)]["minus" := VoidHandler(MinusCmd)]
  }

  /** The command table the tree registers. */
  function CommandTable(): map<string, Handler<Command>>
  {
    RegisterCommands(map[])
  }

  /** A tree as constructed for a requested start mode, given the server's template map before. */
  function Initial(m: Mode, templates: map<string, string>): (r: Tree)
    ensures r.templates == templates[ON_OFF_BTN_STATE := "btn_off"] && !r.ledOn
    ensures r.interval == INITIAL_INTERVAL && r.stamp == None
    ensures r.larsonShift == LARSON_SHIFT_START && r.shiftingRight && r.spinShift == SPIN_SHIFT_START
  {
    var t0 := Tree(Larson, false, INITIAL_INTERVAL, LARSON_SHIFT_START, true, SPIN_SHIFT_START,
                   None, map[], seq(CHANNELS, _ => 0), templates);
    var t1 := match m
      case Larson => SetMode(t0, Larson)
      case Spinning => SetMode(t0, Spinning)
      case AllOnOff => AllOnOffRender(SetMode(t0, AllOnOff));
    t1.(templates := t1.templates[ON_OFF_BTN_STATE := "btn_off"])
  }

  // ---------------------------------------------------------------- properties

  /** A new tree satisfies the invariant, its button style matches its LED state, and its pins are bound for its mode. */
  lemma InitialGood(m: Mode, templates: map<string, string>)
    ensures Inv(Initial(m, templates)) && ButtonConsistent(Initial(m, templates))
    ensures Initial(m, templates).mode == m && Initial(m, templates).pins == PinsOf(m)
  {
  }

  /** A mode switch changes only the mode and the pin binding; pattern positions carry over. */
  lemma SetModeFrame(t: Tree, m: Mode)
    ensures SetMode(t, m) == t.(mode := m, pins := t.pins + PinsOf(m))
    ensures SetMode(t, m).larsonShift == t.larsonShift && SetMode(t, m).shiftingRight == t.shiftingRight
    ensures SetMode(t, m).spinShift == t.spinShift && SetMode(t, m).ledOn == t.ledOn
    ensures SetMode(t, m).interval == t.interval && SetMode(t, m).duty == t.duty
  {
    RebindOverlays(t.pins, m);
  }

  /** A render writes only the channels of the current mode and moves only that mode's shift. */
  lemma RenderFrame(t: Tree)
    requires Inv(t)
    ensures Inv(Render(t))
    ensures Render(t).mode == t.mode && Render(t).pins == t.pins && Render(t).ledOn == t.ledOn
    ensures Render(t).interval == t.interval && Render(t).templates == t.templates && Render(t).stamp == t.stamp
    ensures t.mode == Larson ==>
      Render(t).duty[..LARSON_LEDS] == LarsonFrame(t.larsonShift) && Render(t).duty[LARSON_LEDS..] == t.duty[LARSON_LEDS..]
      && Render(t).spinShift == t.spinShift
    ensures t.mode == Spinning ==>
      Render(t).duty[..SPIN_LEDS] == SpinFrame(t.spinShift) && Render(t).duty[SPIN_LEDS..] == t.duty[SPIN_LEDS..]
      && Render(t).larsonShift == t.larsonShift && Render(t).shiftingRight == t.shiftingRight
    ensures t.mode == AllOnOff ==>
      Render(t).duty[0] == (if t.ledOn then ON else OFF) && Render(t).duty[1..] == t.duty[1..]
      && Render(t).larsonShift == t.larsonShift && Render(t).shiftingRight == t.shiftingRight
      && Render(t).spinShift == t.spinShift
  {
    match t.mode
    case Larson =>
      LarsonStepInRange(t.larsonShift, t.shiftingRight);
      assert Render(t).duty[..LARSON_LEDS] == LarsonFrame(t.larsonShift);
    case Spinning =>
      SpinStepInRange(t.spinShift);
      assert Render(t).duty[..SPIN_LEDS] == SpinFrame(t.spinShift);
    case AllOnOff =>
  }

  /** The toggle forces all-on/off, flips the state, shows it on channel 0 and returns it; twice restores it. */
  lemma ToggleSpec(t: Tree)
    requires Inv(t)
    ensures var (t', on) := Toggle(t);
      && Inv(t') && on == !t.ledOn && t'.ledOn == on && t'.mode == AllOnOff
      && t'.duty[0] == (if on then ON else OFF) && t'.duty[1..] == t.duty[1..]
      && t'.interval == t.interval && t'.larsonShift == t.larsonShift && t'.spinShift == t.spinShift
    ensures var t2 := Toggle(Toggle(t).0).0;
      t2.ledOn == t.ledOn && t2.duty[0] == (if t.ledOn then ON else OFF)
  {
  }

  /** Every command keeps the invariant. */
  lemma ExecPreservesInv(t: Tree, c: Command)
    requires Inv(t)
    ensures Inv(ExecCommand(t, c))
  {
  }

  /** Every command keeps the button style in step with the LED state. */
  lemma ExecKeepsButtonConsistent(t: Tree, c: Command)
    requires Inv(t) && ButtonConsistent(t)
    ensures ButtonConsistent(ExecCommand(t, c))
  {
  }

  /** Two on/off commands restore the LED state and the button style. */
  lemma OnOffTwiceRestores(t: Tree)
    requires Inv(t) && ButtonConsistent(t)
    ensures var t1 := ExecCommand(t, OnOffCmd);
      var t2 := ExecCommand(t1, OnOffCmd);
      t2.ledOn == t.ledOn && t2.templates == t.templates && t1.ledOn != t.ledOn
  {
    var t1 := ExecCommand(t, OnOffCmd);
    ExecPreservesInv(t, OnOffCmd);
    var t2 := ExecCommand(t1, OnOffCmd);
    assert t2.templates == t.templates[ON_OFF_BTN_STATE := t.templates[ON_OFF_BTN_STATE]];
  }

  /** A whole command request keeps the button style in step with the LED state. */
  lemma {:induction false} RunCallsKeepsButtonConsistent(t: Tree, calls: seq<Invocation<Command>>)
    requires Inv(t) && ButtonConsistent(t)
    ensures ButtonConsistent(RunCalls(t, calls))
  {
    if calls != [] {
      RunCallsKeepsButtonConsistent(t, calls[..|calls| - 1]);
      ExecKeepsButtonConsistent(RunCalls(t, calls[..|calls| - 1]), calls[|calls| - 1].action);
    }
  }

  /** A request whose parameter names are none of the registered commands changes nothing. */
  lemma UnknownCommandsChangeNothing(t: Tree, cmds: map<string, Handler<Command>>, ps: seq<Param>)
    requires Inv(t)
    requires forall i :: 0 <= i < |ps| ==> ps[i].name !in cmds
    ensures RunCalls(t, Dispatch(cmds, ps)) == t
  {
    DispatchNothingRegistered(cmds, ps);
  }

  /** The registrations overlay the five commands on whatever was registered before, replacing same-named entries. */
  lemma RegisterCommandsOverlays(cmds: map<string, Handler<Command>>)
    ensures RegisterCommands(cmds) == cmds + CommandTable()
    ensures CommandTable().Keys == {"larson", "spin", "on_off", "plus", "minus"}
    ensures forall name :: name in CommandTable() ==> CommandTable()[name].VoidHandler?
  {
  }

  /** The page's direction links name commands the tree never registers. */
  lemma PageLinksNotRegistered()
    ensures forall name :: name in {"arrow_up", "arrow_down", "spin_right", "spin_left"} ==> name !in CommandTable()
  {
  }

  /** Within the interval after a render, timer calls change nothing. */
  lemma TimerQuietWithinInterval(t: Tree, now: u32, stamp: u32, clock: u32)
    requires Inv(t) && t.stamp == Some(stamp) && Elapsed(now, stamp) <= t.interval
    ensures TimerCall(t, now, clock) == t
  {
  }

  /** Once more than the interval has elapsed, a timer call renders and restamps. */
  lemma TimerRendersWhenDue(t: Tree, now: u32, stamp: u32, clock: u32)
    requires Inv(t) && t.stamp == Some(stamp) && Elapsed(now, stamp) > t.interval
    ensures TimerCall(t, now, clock) == Render(t.(stamp := Some(now)))
    ensures TimerCall(t, now, clock).stamp == Some(now)
  {
  }

  /**
   * The first timer call, on a tree without a time stamp, takes the clock as
   * the stamp and then behaves as a call on a stamped tree: it renders at
   * once when more than the interval lies between the clock and `now`.
   */
  lemma TimerFirstCall(t: Tree, now: u32, clock: u32)
    requires Inv(t) && t.stamp.None?
    ensures TimerCall(t, now, clock) == TimerCall(t.(stamp := Some(clock)), now, clock)
    ensures Elapsed(now, clock) <= t.interval ==> TimerCall(t, now, clock) == t.(stamp := Some(clock))
    ensures Elapsed(now, clock) > t.interval ==> TimerCall(t, now, clock) == Render(t.(stamp := Some(now)))
  {
  }

  /** The timer keeps the invariant. */
  lemma TimerPreservesInv(t: Tree, now: u32, clock: u32)
    requires Inv(t)
    ensures Inv(TimerCall(t, now, clock))
  {
    var stamp := if t.stamp.Some? then t.stamp.value else clock;
    if Elapsed(now, stamp) > t.interval {
      RenderFrame(t.(stamp := Some(now)));
    }
  }

  /**
   * Leaving and re-entering Larson mode does not restart the scanner: after
   * three renders, a switch to spinning and back, the next render draws the
   * template at shift 2, not at the start shift -1.
   */
  lemma LarsonResumesAfterModeSwitch(templates: map<string, string>)
    ensures var t0 := Initial(Larson, templates);
      var t3 := Render(Render(Render(t0)));
      var back := SetMode(SetMode(t3, Spinning), Larson);
      back.larsonShift == 2 && Render(back).duty[..LARSON_LEDS] == LarsonFrame(2)
      && LarsonFrame(2) != LarsonFrame(LARSON_SHIFT_START)
  {
    var t0 := Initial(Larson, templates);
    InitialGood(Larson, templates);
    RenderFrame(t0);
    var t1 := Render(t0);
    RenderFrame(t1);
    var t2 := Render(t1);
    RenderFrame(t2);
    var t3 := Render(t2);
    var back := SetMode(SetMode(t3, Spinning), Larson);
    RenderFrame(back);
    assert LarsonFrame(2)[3] == ON && LarsonFrame(LARSON_SHIFT_START)[3] == OFF;
  }

  // ---------------------------------------------------------------- the object

  class Tannenbaum {
    /** The server whose command map and templates the tree uses. */
    const server: HttpServer<Command>
    /** Duty register of each PWM channel (inverted: 0 is fully on). */
    const duty: array<int>

    var opMode: Mode
    var ledStateAllOn: bool
    var patternInterval: u32
    /** Larson scanner position and direction (kept across mode switches). */
    var larsonShift: int
    var isShiftingRight: bool
    /** Spinner position (kept across mode switches). */
    var spinShift: int
    /** Time of the last render; set from the clock on the first timer call. */
    var patternTimestamp: Option<u32>
    /** GPIO pin -> PWM channel binding. */
    var pins: map<int, int>

    /** The object invariant: the duty registers, both shifts and the interval are in range (Inv of the abstract state). */
    ghost predicate Valid()
      reads this
    {
      && duty.Length == CHANNELS
      && LarsonInRange(larsonShift)
      && SpinInRange(spinShift)
      && 1 <= patternInterval < 8192
    }

    function Abstract(): Tree
      reads this, duty, server
    {
      Tree(opMode, ledStateAllOn, patternInterval, larsonShift, isShiftingRight, spinShift,
           patternTimestamp, pins, duty[..], server.templateMap)
    }

    /** Builds the tree in the requested mode and registers its commands and button template. */
    constructor (server: HttpServer<Command>, mode: Mode)
      modifies server
      ensures Valid() && this.server == server && fresh(duty)
      ensures Abstract() == Initial(mode, old(server.templateMap))
      ensures server.cmdMap == RegisterCommands(old(server.cmdMap))
    {
      this.server := server;
      duty := new int[CHANNELS](_ => 0);
      opMode := Larson;
      ledStateAllOn := false;
      patternInterval := INITIAL_INTERVAL;
      larsonShift := LARSON_SHIFT_START;
      isShiftingRight := true;
      spinShift := SPIN_SHIFT_START;
      patternTimestamp := None;
      pins := map[];
      new;
      assert duty[..] == seq(CHANNELS, _ => 0);
      match mode {
        case Larson => SetModeLarson();
        case Spinning => SetModeSpinning();
        case AllOnOff =>
          SetModeAllOnOff();
          UpdateAllOnOff();
      }
      SetupHttpInterface();
    }

    method AttachPin(pin: int, channel: int)
      modifies this`pins
      ensures pins == old(pins)[pin := channel]
    {
      pins := pins[pin := channel];
    }

    method SetModeLarson()
      requires Valid()
      modifies this`opMode, this`pins
      ensures Valid()
      ensures Abstract() == SetMode(old(Abstract()), Larson)
    {
      opMode := Larson;
      AttachPin(32, 0);
      AttachPin(21, 0);
      AttachPin(33, 1);
      AttachPin(19, 1);
      AttachPin(25, 2);
      AttachPin(18, 2);
      AttachPin(26, 3);
      AttachPin(17, 3);
      AttachPin(27, 4);
      AttachPin(16, 4);
      AttachPin(4, 5);
      AttachPin(14, 6);
    }

    method SetModeSpinning()
      requires Valid()
      modifies this`opMode, this`pins
      ensures Valid()
      ensures Abstract() == SetMode(old(Abstract()), Spinning)
    {
      opMode := Spinning;
      AttachPin(32, 0);
      AttachPin(33, 1);
      AttachPin(25, 2);
      AttachPin(26, 3);
      AttachPin(27, 4);
      AttachPin(4, 5);
      AttachPin(14, 6);
      AttachPin(16, 7);
      AttachPin(17, 8);
      AttachPin(18, 9);
      AttachPin(19, 10);
      AttachPin(21, 11);
    }

    method SetModeAllOnOff()
      requires Valid()
      modifies this`opMode, this`pins
      ensures Valid()
      ensures Abstract() == SetMode(old(Abstract()), AllOnOff)
    {
      opMode := AllOnOff;
      AttachPin(32, 0);
      AttachPin(21, 0);
      AttachPin(33, 0);
      AttachPin(19, 0);
      AttachPin(25, 0);
      AttachPin(18, 0);
      AttachPin(26, 0);
      AttachPin(17, 0);
      AttachPin(27, 0);
      AttachPin(16, 0);
      AttachPin(4, 0);
      AttachPin(14, 0);
    }

    method ToggleOnOffState() returns (on: bool)
      requires Valid()
      modifies this`opMode, this`pins, this`ledStateAllOn, duty
      ensures Valid()
      ensures (Abstract(), on) == Toggle(old(Abstract()))
    {
      SetModeAllOnOff();
      ledStateAllOn := !ledStateAllOn;
      UpdateAllOnOff();
      on := ledStateAllOn;
    }

    method IncreaseSpeed()
      requires Valid()
      modifies this`patternInterval
      ensures Valid()
      ensures Abstract() == SpeedUp(old(Abstract()))
    {
      if patternInterval >= 2 {
        patternInterval := patternInterval / 2;
      }
    }

    method DecreaseSpeed()
      requires Valid()
      modifies this`patternInterval
      ensures Valid()
      ensures Abstract() == SlowDown(old(Abstract()))
    {
      if patternInterval < 4096 {
        patternInterval := patternInterval * 2;
      }
    }

    /** The periodic call from the main loop with the current time. */
    method UpdateTimer(now: u32, clock: u32)
      requires Valid()
      modifies this`patternTimestamp, this`larsonShift, this`isShiftingRight, this`spinShift, duty
      ensures Valid()
      ensures Abstract() == TimerCall(old(Abstract()), now, clock)
    {
      if patternTimestamp.None? {
        patternTimestamp := Some(clock);
      }
      if Elapsed(now, patternTimestamp.value) > patternInterval {
        patternTimestamp := Some(now);
        match opMode
        case Larson => UpdateLarson();
        case Spinning => UpdateSpinning();
        case AllOnOff => UpdateAllOnOff();
      }
    }

    /** Registers the five commands and sets the initial button style. */
    method SetupHttpInterface()
      requires Valid()
      modifies server
      ensures Valid()
      ensures server.cmdMap == RegisterCommands(old(server.cmdMap))
      ensures server.templateMap == old(server.templateMap)[ON_OFF_BTN_STATE := "btn_off"]
    {
      server.RegisterVoidCb("larson", LarsonCmd);
      server.RegisterVoidCb("spin", SpinCmd);
      server.RegisterVoidCb("on_off", OnOffCmd);
      server.RegisterVoidCb("plus", PlusCmd);
      server.RegisterVoidCb("minus", MinusCmd);
      server.SetTemplate(ON_OFF_BTN_STATE, "btn_off");
    }

    /** Writes the Larson frame for the current shift, then moves the shift one step. */
    method UpdateLarson()
      requires Valid()
      modifies this`larsonShift, this`isShiftingRight, duty
      ensures Valid()
      ensures Abstract() == LarsonRender(old(Abstract()))
    {
      for i := 0 to LARSON_LEDS
        invariant larsonShift == old(larsonShift) && isShiftingRight == old(isShiftingRight)
        invariant forall j :: 0 <= j < i ==> duty[j] == LarsonDuty(larsonShift, j)
        invariant forall j :: i <= j < CHANNELS ==> duty[j] == old(duty[j])
      {
        var k := i - larsonShift;
        if k < 0 || k >= PATTERN_WIDTH {
          duty[i] := OFF;
        } else {
          duty[i] := LarsonTemplate()[k];
        }
      }
      assert duty[..] == LarsonFrame(larsonShift) + old(duty[..])[LARSON_LEDS..];
      LarsonStepInRange(larsonShift, isShiftingRight);
      if isShiftingRight {
        if larsonShift < LARSON_SHIFT_MAX {
          larsonShift := larsonShift + 1;
        } else {
          isShiftingRight := false;
          larsonShift := larsonShift - 1;
        }
      } else {
        if larsonShift > LARSON_SHIFT_START {
          larsonShift := larsonShift - 1;
        } else {
          isShiftingRight := true;
          larsonShift := larsonShift + 1;
        }
      }
    }

    /** Writes the spinner frame for the current shift, then advances the shift. */
    method UpdateSpinning()
      requires Valid()
      modifies this`spinShift, duty
      ensures Valid()
      ensures Abstract() == SpinRender(old(Abstract()))
    {
      for i := 0 to SPIN_LEDS
        invariant spinShift == old(spinShift)
        invariant forall j :: 0 <= j < i ==> duty[j] == SpinDuty(spinShift, j)
        invariant forall j :: i <= j < CHANNELS ==> duty[j] == old(duty[j])
      {
        var k := i - spinShift;
        if k < 0 {
          k := k + SPIN_LEDS;
        }
        if k < 0 || k >= PATTERN_WIDTH {
          duty[i] := OFF;
        } else {
          duty[i] := SpinTemplate()[k];
        }
      }
      assert duty[..] == SpinFrame(spinShift) + old(duty[..])[SPIN_LEDS..];
      SpinStepInRange(spinShift);
      if spinShift < SPIN_SHIFT_MAX {
        spinShift := spinShift + 1;
      } else {
        spinShift := 1;
      }
    }

    /** Writes the all-on/off state to channel 0. */
    method UpdateAllOnOff()
      requires Valid()
      modifies duty
      ensures Valid()
      ensures Abstract() == AllOnOffRender(old(Abstract()))
    {
      duty[0] := if ledStateAllOn then ON else OFF;
    }

    /** Carries out one call made by the command router. */
    method Execute(c: Command)
      requires Valid()
      modifies this`opMode, this`pins, this`ledStateAllOn, this`patternInterval, duty, server`templateMap
      ensures Valid()
      ensures Abstract() == ExecCommand(old(Abstract()), c)
    {
      match c
      case LarsonCmd => SetModeLarson();
      case SpinCmd => SetModeSpinning();
      case OnOffCmd =>
        var on := ToggleOnOffState();
        if on {
          server.SetTemplate(ON_OFF_BTN_STATE, "");
        } else {
          server.SetTemplate(ON_OFF_BTN_STATE, "btn_off");
        }
      case PlusCmd => IncreaseSpeed();
      case MinusCmd => DecreaseSpeed();
    }

    /**
     * A request on the command endpoint: the router picks the calls, and the
     * tree carries them out in order. The command map does not change.
     */
    method ServeCommandRequest(params: seq<Param>)
      requires Valid()
      modifies this`opMode, this`pins, this`ledStateAllOn, this`patternInterval, duty, server`templateMap
      ensures Valid() && Inv(Abstract())
      ensures server.cmdMap == old(server.cmdMap)
      ensures Abstract() == RunCalls(old(Abstract()), Dispatch(old(server.cmdMap), params))
    {
      var calls := server.OnCmdRequest(params);
      ghost var start := Abstract();
      for i := 0 to |calls|
        invariant Valid()
        invariant Abstract() == RunCalls(start, calls[..i])
      {
        assert calls[..i + 1][..i] == calls[..i];
        ExecPreservesInv(Abstract(), calls[i].action);
        Execute(calls[i].action);
      }
      assert calls[..|calls|] == calls;
    }
  }
}
