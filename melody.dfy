/**
 * The melody sequencer on the buzzer.
 *
 * A melody is a queue of tokens: twelve pitches, a pause, two octave shifts
 * and five duration prefixes. Each tone-timer tick either keeps the current
 * note sounding (while the hold counter is non-zero) or reads the queue
 * from the front: it consumes any run of control tokens (octave shifts and
 * duration prefixes) and then exactly one pitch or pause, which it plays.
 * When the queue runs out the player stops the tone and goes idle.
 *
 * The tone output is recorded as a log of effects: each `Sound` is a tone
 * (re)started at a note and octave, each `Silence` the output switched off.
 * The tone timer is recorded as the period it was last armed with.
 */
module Melody {
  import opened Common

  datatype Token =
    | C | Cs | D | Ds | E | F | Fs | G | Gs | A | As | B  // pitches
    | P                                                   // pause
    | OUp | ODown                                         // octave shifts
    | L1 | L2 | L4 | L8 | L16                             // duration prefixes

  /** The note names of the buzzer driver. */
  datatype Note = NoteC | NoteCs | NoteD | NoteEb | NoteE | NoteF | NoteFs | NoteG | NoteGs | NoteA | NoteBb | NoteB

  datatype ToneEffect = Silence | Sound(note: Note, octave: u8)

  datatype Ticker = Detached | Every(ms: u32)

  /** Octave a new player starts at. */
  const START_OCTAVE: u8 := 4
  /** Hold loaded before each read: without a prefix a note lasts two ticks. */
  const DEFAULT_HOLD: u8 := 1

  predicate IsControl(t: Token)
  {
    t == OUp || t == ODown || IsDuration(t)
  }

  predicate IsDuration(t: Token)
  {
    t == L1 || t == L2 || t == L4 || t == L8 || t == L16
  }

  predicate IsPitch(t: Token)
  {
    !IsControl(t) && t != P
  }

  /** Extra ticks a duration prefix holds the following note for. */
  function HoldOf(t: Token): u8
    requires IsDuration(t)
  {
    match t
    case L1 => 15
    case L2 => 7
    case L4 => 3
    case L8 => 1
    case L16 => 0
  }

  /** How many ticks a note lasts after a duration prefix: the read tick plus the hold. */
  function NoteTicks(t: Token): (n: nat)
    requires IsDuration(t)
  {
    HoldOf(t) as nat + 1
  }

  /** Whole, half, quarter, eighth and sixteenth notes last 16, 8, 4, 2 and 1 ticks. */
  lemma DurationLadder()
    ensures NoteTicks(L1) == 16 && NoteTicks(L2) == 8 && NoteTicks(L4) == 4 && NoteTicks(L8) == 2 && NoteTicks(L16) == 1
    ensures NoteTicks(L1) == 2 * NoteTicks(L2) && NoteTicks(L2) == 2 * NoteTicks(L4)
    ensures NoteTicks(L4) == 2 * NoteTicks(L8) && NoteTicks(L8) == 2 * NoteTicks(L16)
    ensures DEFAULT_HOLD as nat + 1 == NoteTicks(L8)
  {
  }

  /** The driver note a pitch token plays; the sharps of D and A are spelled as flats. */
  function NoteOf(t: Token): (n: Note)
    requires IsPitch(t)
    ensures t == Ds ==> n == NoteEb
    ensures t == As ==> n == NoteBb
  {
    match t
    case C => NoteC
    case Cs => NoteCs
    case D => NoteD
    case Ds => NoteEb
    case E => NoteE
    case F => NoteF
    case Fs => NoteFs
    case G => NoteG
    case Gs => NoteGs
    case A => NoteA
    case As => NoteBb
    case B => NoteB
  }

  /** Distinct pitch tokens play distinct notes. */
  lemma NoteOfInjective(s: Token, t: Token)
    requires IsPitch(s) && IsPitch(t)
    ensures NoteOf(s) == NoteOf(t) ==> s == t
  {
  }

  /** The octave register after an octave shift (an unsigned byte: it wraps). */
  function ShiftOctave(octave: u8, t: Token): (o: u8)
    requires t == OUp || t == ODown
    ensures t == OUp ==> o == (octave + 1) % U8_LIMIT
    ensures t == ODown ==> o == (octave - 1) % U8_LIMIT
  {
    if t == OUp then (octave + 1) % U8_LIMIT else (octave + U8_LIMIT - 1) % U8_LIMIT
  }

  /** Outcome of reading the queue: it ran out, or a pitch or pause was found. */
  datatype Read =
    | Exhausted(octave: u8, hold: u8)
    | Found(token: Token, rest: seq<Token>, octave: u8, hold: u8)

  /** Reads from the front of the queue: control tokens update octave and hold, up to the first pitch or pause. */
  function ReadTokens(q: seq<Token>, octave: u8, hold: u8): (r: Read)
    ensures r.Found? ==> !IsControl(r.token) && |r.rest| < |q|
    decreases |q|
  {
    if q == [] then Exhausted(octave, hold)
    else if q[0] == OUp || q[0] == ODown then ReadTokens(q[1..], ShiftOctave(octave, q[0]), hold)
    else if IsDuration(q[0]) then ReadTokens(q[1..], octave, HoldOf(q[0]))
    else Found(q[0], q[1..], octave, hold)
  }

  /** A read that finds a token leaves, in order, exactly what follows that token in the queue. */
  lemma {:induction false} ReadLeavesSuffix(q: seq<Token>, octave: u8, hold: u8)
    ensures var r := ReadTokens(q, octave, hold);
      r.Found? ==> q[|q| - |r.rest| - 1] == r.token && r.rest == q[|q| - |r.rest|..]
    decreases |q|
  {
    if q != [] {
      if q[0] == OUp || q[0] == ODown {
        ReadLeavesSuffix(q[1..], ShiftOctave(octave, q[0]), hold);
      } else if IsDuration(q[0]) {
        ReadLeavesSuffix(q[1..], octave, HoldOf(q[0]));
      }
    }
  }

  /**
   * A read pops only control tokens before the token it finds; a read that
   * runs out saw only control tokens.
   */
  lemma {:induction false} ReadSkipsOnlyControls(q: seq<Token>, octave: u8, hold: u8)
    ensures var r := ReadTokens(q, octave, hold);
      r.Found? ==> forall i :: 0 <= i < |q| - |r.rest| - 1 ==> IsControl(q[i])
    ensures ReadTokens(q, octave, hold).Exhausted? ==> forall i :: 0 <= i < |q| ==> IsControl(q[i])
    decreases |q|
  {
    if q != [] && IsControl(q[0]) {
      var o := if IsDuration(q[0]) then octave else ShiftOctave(octave, q[0]);
      var h := if IsDuration(q[0]) then HoldOf(q[0]) else hold;
      assert ReadTokens(q, octave, hold) == ReadTokens(q[1..], o, h);
      ReadSkipsOnlyControls(q[1..], o, h);
      assert forall i :: 1 <= i < |q| ==> q[i] == q[1..][i - 1];
    }
  }

  /** Octave and hold after a run of control tokens. */
  function ApplyControls(cs: seq<Token>, octave: u8, hold: u8): (u8, u8)
    requires forall i :: 0 <= i < |cs| ==> IsControl(cs[i])
    decreases |cs|
  {
    if cs == [] then (octave, hold)
    else if cs[0] == OUp || cs[0] == ODown then ApplyControls(cs[1..], ShiftOctave(octave, cs[0]), hold)
    else
      assert IsControl(cs[0]);
      ApplyControls(cs[1..], octave, HoldOf(cs[0]))
  }

  /**
   * A read consumes the maximal run of control tokens and then exactly one
   * pitch or pause: the queue left is what follows that token.
   */
  lemma {:induction false} ReadSplits(cs: seq<Token>, s: Token, rest: seq<Token>, octave: u8, hold: u8)
    requires forall i :: 0 <= i < |cs| ==> IsControl(cs[i])
    requires !IsControl(s)
    ensures var (o, h) := ApplyControls(cs, octave, hold);
      ReadTokens(cs + [s] + rest, octave, hold) == Found(s, rest, o, h)
    decreases |cs|
  {
    if cs != [] {
      assert (cs + [s] + rest)[1..] == cs[1..] + [s] + rest;
      if cs[0] == OUp || cs[0] == ODown {
        ReadSplits(cs[1..], s, rest, ShiftOctave(octave, cs[0]), hold);
      } else {
        ReadSplits(cs[1..], s, rest, octave, HoldOf(cs[0]));
      }
    } else {
      assert cs + [s] + rest == [s] + rest;
    }
  }

  /** A queue of control tokens only is read to the end, leaving the octave and hold those tokens set. */
  lemma {:induction false} ReadExhaustsControls(cs: seq<Token>, octave: u8, hold: u8)
    requires forall i :: 0 <= i < |cs| ==> IsControl(cs[i])
    ensures ReadTokens(cs, octave, hold)
         == Exhausted(ApplyControls(cs, octave, hold).0, ApplyControls(cs, octave, hold).1)
    decreases |cs|
  {
    if cs != [] {
      if cs[0] == OUp || cs[0] == ODown {
        ReadExhaustsControls(cs[1..], ShiftOctave(octave, cs[0]), hold);
      } else {
        ReadExhaustsControls(cs[1..], octave, HoldOf(cs[0]));
      }
    }
  }

  /** Octave shifts alone leave the hold as it was. */
  lemma {:induction false} ShiftsKeepHold(shifts: seq<Token>, octave: u8, hold: u8)
    requires forall i :: 0 <= i < |shifts| ==> shifts[i] == OUp || shifts[i] == ODown
    ensures ApplyControls(shifts, octave, hold).1 == hold
    decreases |shifts|
  {
    if shifts != [] {
      ShiftsKeepHold(shifts[1..], ShiftOctave(octave, shifts[0]), hold);
    }
  }

  /** In a run of control tokens, the last duration prefix decides the hold; octave shifts after it do not. */
  lemma {:induction false} LastTrailingPrefixHolds(cs: seq<Token>, d: Token, shifts: seq<Token>, octave: u8, hold: u8)
    requires forall i :: 0 <= i < |cs| ==> IsControl(cs[i])
    requires IsDuration(d)
    requires forall i :: 0 <= i < |shifts| ==> shifts[i] == OUp || shifts[i] == ODown
    ensures forall i :: 0 <= i < |cs + [d] + shifts| ==> IsControl((cs + [d] + shifts)[i])
    ensures ApplyControls(cs + [d] + shifts, octave, hold).1 == HoldOf(d)
    decreases |cs|
  {
    var q := cs + [d] + shifts;
    assert forall i :: 0 <= i < |q| ==> IsControl(q[i]) by {
      forall i | 0 <= i < |q|
        ensures IsControl(q[i])
      {
        if i < |cs| { assert q[i] == cs[i]; }
        else if i > |cs| { assert q[i] == shifts[i - |cs| - 1]; }
      }
    }
    if cs != [] {
      assert q[1..] == cs[1..] + [d] + shifts;
      if cs[0] == OUp || cs[0] == ODown {
        LastTrailingPrefixHolds(cs[1..], d, shifts, ShiftOctave(octave, cs[0]), hold);
      } else {
        LastTrailingPrefixHolds(cs[1..], d, shifts, octave, HoldOf(cs[0]));
      }
    } else {
      assert q[1..] == shifts;
      ShiftsKeepHold(shifts, octave, HoldOf(d));
    }
  }

  /** Reading past one control token at the front of the queue. */
  lemma ReadPastControl(t: Token, q: seq<Token>, octave: u8, hold: u8)
    requires IsControl(t)
    ensures ReadTokens([t] + q, octave, hold) ==
      if IsDuration(t) then ReadTokens(q, octave, HoldOf(t)) else ReadTokens(q, ShiftOctave(octave, t), hold)
  {
    assert ([t] + q)[1..] == q;
  }

  /** The last duration prefix before a note decides its hold; an octave shift does not touch it. */
  lemma LastPrefixWins(d1: Token, d2: Token, s: Token, rest: seq<Token>, octave: u8)
    requires IsDuration(d1) && IsDuration(d2) && !IsControl(s)
    ensures ReadTokens([d1, OUp, d2, s] + rest, octave, DEFAULT_HOLD)
         == Found(s, rest, ShiftOctave(octave, OUp), HoldOf(d2))
  {
    var o := ShiftOctave(octave, OUp);
    assert [d1, OUp, d2, s] + rest == [d1] + ([OUp] + ([d2] + ([s] + rest)));
    ReadPastControl(d1, [OUp] + ([d2] + ([s] + rest)), octave, DEFAULT_HOLD);
    ReadPastControl(OUp, [d2] + ([s] + rest), octave, HoldOf(d1));
    ReadPastControl(d2, [s] + rest, o, HoldOf(d1));
    assert ([s] + rest)[1..] == rest;
  }

  // ---------------------------------------------------------------- abstract state

  /** Everything the player's operations read or change, as one value. */
  datatype Player = Player(
    queue: seq<Token>,
    currentNote: Note,
    idle: bool,
    baseTempo: u32,
    octave: u8,
    customTempo: bool,
    hold: u8,
    outputOff: bool,
    timer: Ticker,
    effects: seq<ToneEffect>)

  /** A new player with the given base tempo. */
  function Fresh(baseTempo: u32): Player
  {
    Player([], NoteC, true, baseTempo, START_OCTAVE, false, DEFAULT_HOLD, true, Detached, [])
  }

  /** Starting a melody: the queue is replaced; a non-zero tempo plays it at that tempo. */
  function Started(p: Player, melody: seq<Token>, tempo: u32): (r: Player)
    ensures r.queue == melody && !r.idle && r.hold == p.hold && r.baseTempo == p.baseTempo
  {
    p.(customTempo := if tempo > 0 then true else p.customTempo,
       queue := melody, idle := false,
       timer := Every(if tempo > 0 then tempo else p.baseTempo))
  }

  function FasterTempo(base: u32): u32
  {
    if base >= 64 then base / 2 else base
  }

  function SlowerTempo(base: u32): u32
  {
    if base < 2048 then base * 2 else base
  }

  /** Faster: the base tempo halves while it is at least 64, and the timer is re-armed at it. */
  function TempoUp(p: Player): (r: Player)
    ensures r.baseTempo <= p.baseTempo && r.timer == Every(r.baseTempo) && r.queue == p.queue
  {
    var b := FasterTempo(p.baseTempo);
    p.(baseTempo := b, timer := Every(b))
  }

  /** Slower: the base tempo doubles while it is below 2048, and the timer is re-armed at it. */
  function TempoDown(p: Player): (r: Player)
    ensures r.baseTempo >= p.baseTempo && r.timer == Every(r.baseTempo) && r.queue == p.queue
  {
    var b := SlowerTempo(p.baseTempo);
    p.(baseTempo := b, timer := Every(b))
  }

  function TempoSet(p: Player, tempo: u32): (r: Player)
    ensures r.baseTempo == tempo && r.timer == Every(tempo) && r.queue == p.queue
  {
    p.(baseTempo := tempo, timer := Every(tempo))
  }

  /** One tone-timer tick. */
  function Tick(p: Player): (r: Player)
    ensures p.idle ==> r == p
    ensures r.baseTempo == p.baseTempo && |r.queue| <= |p.queue|
  {
    if p.idle then p
    else if p.hold > 0 then p.(hold := p.hold - 1)
    else match ReadTokens(p.queue, p.octave, DEFAULT_HOLD)
      case Exhausted(o, h) =>
        p.(queue := [], octave := o, hold := h, outputOff := true, idle := true,
           customTempo := false, timer := if p.customTempo then Every(p.baseTempo) else p.timer,
           effects := p.effects + [Silence])
      case Found(t, rest, o, h) =>
        if t == P then
          p.(queue := rest, octave := o, hold := h, outputOff := true, effects := p.effects + [Silence])
        else
          p.(queue := rest, octave := o, hold := h, outputOff := false, currentNote := NoteOf(t),
             effects := p.effects + [Sound(NoteOf(t), o)])
  }

  function TickTimes(p: Player, n: nat): Player
    decreases n
  {
    if n == 0 then p else TickTimes(Tick(p), n - 1)
  }

  // ---------------------------------------------------------------- properties

  /** Playing replaces the queue wholesale and wakes the player; a zero tempo keeps the custom flag and uses the base tempo. */
  lemma PlaySpec(p: Player, melody: seq<Token>, tempo: u32)
    ensures Started(p, melody, tempo).queue == melody && !Started(p, melody, tempo).idle
    ensures tempo > 0 ==> Started(p, melody, tempo).customTempo && Started(p, melody, tempo).timer == Every(tempo)
    ensures tempo == 0 ==> Started(p, melody, tempo).customTempo == p.customTempo && Started(p, melody, tempo).timer == Every(p.baseTempo)
    ensures Started(p, melody, tempo).hold == p.hold && Started(p, melody, tempo).octave == p.octave
  {
  }

  /** Tempo changes keep a base tempo in [32, 4095] there, and re-arm the timer at the new base. */
  lemma TempoStaysInRange(p: Player)
    requires 32 <= p.baseTempo <= 4095
    ensures 32 <= TempoUp(p).baseTempo <= 4095 && TempoUp(p).timer == Every(TempoUp(p).baseTempo)
    ensures 32 <= TempoDown(p).baseTempo <= 4095 && TempoDown(p).timer == Every(TempoDown(p).baseTempo)
    ensures TempoUp(p).baseTempo <= p.baseTempo <= TempoDown(p).baseTempo
  {
  }

  /**
   * Setting the tempo stores the argument exactly, without the clamping of
   * the tempo steps, re-arms the timer at it and changes nothing else.
   */
  lemma TempoSetStoresExactly(p: Player, tempo: u32)
    ensures TempoSet(p, tempo).baseTempo == tempo && TempoSet(p, tempo).timer == Every(tempo)
    ensures TempoSet(p, tempo).(baseTempo := p.baseTempo, timer := p.timer) == p
    ensures tempo > 4095 ==> TempoDown(TempoSet(p, tempo)).baseTempo == tempo
  {
  }

  /**
   * The hold is reloaded before every read, so the read that finds the queue
   * empty leaves it at the default; the next play therefore again starts
   * with a tick that only counts the hold down. This is the case of a melody
   * whose last token is a pitch or a pause; `ReplayAfterTrailingControls`
   * covers a melody that ends in control tokens.
   */
  lemma ReplayStartsWithHold(p: Player, melody: seq<Token>, tempo: u32)
    requires !p.idle && p.hold == 0 && p.queue == []
    ensures Tick(p).idle && Tick(p).hold == DEFAULT_HOLD
    ensures var q := Started(Tick(p), melody, tempo);
      Tick(q) == q.(hold := 0)
  {
  }

  /**
   * When the queue holds only control tokens, the read runs out and the hold
   * left for the next play is the one those trailing tokens set: the default
   * when there is no duration prefix among them, else the last prefix's. The
   * next play counts that hold down before its first read, and reads at once
   * when it is 0.
   */
  lemma ReplayAfterTrailingControls(p: Player, melody: seq<Token>, tempo: u32)
    requires !p.idle && p.hold == 0
    requires forall i :: 0 <= i < |p.queue| ==> IsControl(p.queue[i])
    ensures Tick(p).idle && Tick(p).queue == []
    ensures Tick(p).hold == ApplyControls(p.queue, p.octave, DEFAULT_HOLD).1
    ensures var q := Started(Tick(p), melody, tempo);
      q.hold > 0 ==> Tick(q) == q.(hold := q.hold - 1)
    ensures var q := Started(Tick(p), melody, tempo);
      q.hold == 0 && melody != [] ==> |Tick(q).queue| < |melody|
  {
    ReadExhaustsControls(p.queue, p.octave, DEFAULT_HOLD);
    var q := Started(Tick(p), melody, tempo);
    if q.hold == 0 {
      ReadingTickConsumes(q);
    }
  }

  /** A melody ending in a sixteenth prefix leaves no hold; one ending in a whole-note prefix leaves fifteen ticks. */
  lemma TrailingPrefixExamples(p: Player)
    requires !p.idle && p.hold == 0
    ensures p.queue == [L16] ==> Tick(p).idle && Tick(p).hold == 0
    ensures p.queue == [L1] ==> Tick(p).idle && Tick(p).hold == 15
    ensures p.queue == [L1, OUp] ==> Tick(p).idle && Tick(p).hold == 15
    ensures p.queue == [OUp] ==> Tick(p).idle && Tick(p).hold == DEFAULT_HOLD
  {
    if p.queue == [L16] || p.queue == [L1] {
      LastTrailingPrefixHolds([], p.queue[0], [], p.octave, DEFAULT_HOLD);
      assert [] + [p.queue[0]] + [] == p.queue;
      ReadExhaustsControls(p.queue, p.octave, DEFAULT_HOLD);
    } else if p.queue == [L1, OUp] {
      LastTrailingPrefixHolds([], L1, [OUp], p.octave, DEFAULT_HOLD);
      assert [] + [L1] + [OUp] == p.queue;
      ReadExhaustsControls(p.queue, p.octave, DEFAULT_HOLD);
    } else if p.queue == [OUp] {
      ShiftsKeepHold(p.queue, p.octave, DEFAULT_HOLD);
      ReadExhaustsControls(p.queue, p.octave, DEFAULT_HOLD);
    }
  }

  /** A tick while idle changes nothing, not even the hold counter. */
  lemma IdleTickIsNoop(p: Player)
    requires p.idle
    ensures Tick(p) == p
  {
  }

  /** A tick while holding only counts the hold down. */
  lemma HoldTickOnlyCounts(p: Player)
    requires !p.idle && p.hold > 0
    ensures Tick(p) == p.(hold := p.hold - 1)
  {
  }

  /** A reading tick emits exactly one effect and shortens a non-empty queue; on an empty queue it goes idle. */
  lemma ReadingTickConsumes(p: Player)
    requires !p.idle && p.hold == 0
    ensures |Tick(p).effects| == |p.effects| + 1 && Tick(p).effects[..|p.effects|] == p.effects
    ensures p.queue != [] ==> |Tick(p).queue| < |p.queue|
    ensures p.queue == [] ==> Tick(p).idle && Tick(p).effects[|p.effects|] == Silence
    ensures Tick(p).idle ==> Tick(p).queue == [] && !Tick(p).customTempo
    ensures Tick(p).idle && p.customTempo ==> Tick(p).timer == Every(p.baseTempo)
    ensures Tick(p).idle && !p.customTempo ==> Tick(p).timer == p.timer
  {
  }

  /** Without a new play, the queue never grows. */
  lemma TickNeverGrowsQueue(p: Player)
    ensures |Tick(p).queue| <= |p.queue|
  {
  }

  /** Holding ticks: h ticks with hold h only count it down to zero. */
  lemma {:induction false} HoldLasts(p: Player, k: nat)
    requires !p.idle && k <= p.hold
    ensures TickTimes(p, k) == p.(hold := p.hold - k)
    decreases k
  {
    if k > 0 {
      HoldTickOnlyCounts(p);
      HoldLasts(Tick(p), k - 1);
    }
  }

  /** A reading tick at a pitch plays it with the default hold and moves on. */
  lemma PitchTick(p: Player, s: Token, rest: seq<Token>)
    requires !p.idle && p.hold == 0 && p.queue == [s] + rest
    requires IsPitch(s)
    ensures Tick(p) == p.(queue := rest, hold := DEFAULT_HOLD, outputOff := false, currentNote := NoteOf(s),
                          effects := p.effects + [Sound(NoteOf(s), p.octave)])
  {
    assert p.queue[1..] == rest;
  }

  /** A reading tick at a pause switches the output off and keeps the current note. */
  lemma PauseTick(p: Player, rest: seq<Token>)
    requires !p.idle && p.hold == 0 && p.queue == [P] + rest
    ensures Tick(p) == p.(queue := rest, hold := DEFAULT_HOLD, outputOff := true,
                          effects := p.effects + [Silence])
  {
    assert p.queue[1..] == rest;
  }

  /**
   * A reading tick at a duration prefix followed by a pitch plays the pitch
   * and holds it for the prefix's extra ticks. Together with HeldThenNext:
   * the prefix sets the length of that one note, and the next note read
   * gets the default hold again.
   */
  lemma PrefixedPitchTick(p: Player, d: Token, s: Token, rest: seq<Token>)
    requires !p.idle && p.hold == 0 && p.queue == [d, s] + rest
    requires IsDuration(d) && IsPitch(s)
    ensures Tick(p) == p.(queue := rest, hold := HoldOf(d), outputOff := false, currentNote := NoteOf(s),
                          effects := p.effects + [Sound(NoteOf(s), p.octave)])
  {
    var q1 := [s] + rest;
    assert p.queue[1..] == q1 && q1[1..] == rest;
    assert ReadTokens(p.queue, p.octave, DEFAULT_HOLD) == ReadTokens(q1, p.octave, HoldOf(d));
  }

  /**
   * A note held for h more ticks gives way to the next pitch on tick h + 1,
   * and that pitch starts with the default hold whatever held the one before.
   */
  lemma HeldThenNext(p: Player, s: Token, rest: seq<Token>)
    requires !p.idle && p.queue == [s] + rest && IsPitch(s)
    ensures TickTimes(p, p.hold as nat + 1)
         == p.(queue := rest, hold := DEFAULT_HOLD, outputOff := false, currentNote := NoteOf(s),
               effects := p.effects + [Sound(NoteOf(s), p.octave)])
  {
    var k := p.hold as nat;
    HoldLasts(p, k);
    var held := p.(hold := 0);
    PitchTick(held, s, rest);
    TickTimesSplit(p, k, 1);
  }

  lemma {:induction false} TickTimesSplit(p: Player, a: nat, b: nat)
    ensures TickTimes(p, a + b) == TickTimes(TickTimes(p, a), b)
    decreases a
  {
    if a > 0 {
      TickTimesSplit(Tick(p), a - 1, b);
    }
  }

  /** Octave shifts wrap around as an unsigned byte. */
  lemma OctaveWraps(s: Token, rest: seq<Token>)
    requires !IsControl(s)
    ensures ReadTokens([ODown, s] + rest, 0, DEFAULT_HOLD) == Found(s, rest, 255, DEFAULT_HOLD)
    ensures ReadTokens([OUp, s] + rest, 255, DEFAULT_HOLD) == Found(s, rest, 0, DEFAULT_HOLD)
  {
    var q := [s] + rest;
    assert ([ODown, s] + rest)[1..] == q && ([OUp, s] + rest)[1..] == q && q[1..] == rest;
  }

  /** The sounds a run of plain pitches makes at one octave. */
  function Sounds(q: seq<Token>, octave: u8): (r: seq<ToneEffect>)
    requires forall i :: 0 <= i < |q| ==> IsPitch(q[i])
    ensures |r| == |q|
  {
    if q == [] then []
    else
      assert IsPitch(q[0]);
      [Sound(NoteOf(q[0]), octave)] + Sounds(q[1..], octave)
  }

  /** With the default hold pending, a pitch sounds on the second tick and is held for one more. */
  lemma TwoTicksPerPitch(p: Player, s: Token, rest: seq<Token>)
    requires !p.idle && p.hold == DEFAULT_HOLD && p.queue == [s] + rest && IsPitch(s)
    ensures TickTimes(p, 2) == p.(queue := rest, outputOff := false, currentNote := NoteOf(s),
                                   effects := p.effects + [Sound(NoteOf(s), p.octave)])
  {
    var held := p.(hold := 0);
    HoldTickOnlyCounts(p);
    PitchTick(held, s, rest);
    TickTimesSplit(p, 1, 1);
  }

  lemma SoundsCons(q: seq<Token>, octave: u8)
    requires q != [] && forall i :: 0 <= i < |q| ==> IsPitch(q[i])
    ensures Sounds(q, octave) == [Sound(NoteOf(q[0]), octave)] + Sounds(q[1..], octave)
  {
  }

  lemma AppendAfter<T>(a: seq<T>, e: T, b: seq<T>)
    ensures (a + [e]) + b == a + ([e] + b)
  {
  }

  /** Without prefixes or pauses every note lasts two ticks. */
  lemma {:induction false} PlainMelody(p: Player, q: seq<Token>)
    requires !p.idle && p.hold == DEFAULT_HOLD && p.queue == q
    requires forall i :: 0 <= i < |q| ==> IsPitch(q[i])
    ensures var r := TickTimes(p, 2 * |q|);
      && r.queue == [] && !r.idle && r.hold == DEFAULT_HOLD && r.octave == p.octave
      && r.baseTempo == p.baseTempo && r.customTempo == p.customTempo && r.timer == p.timer
      && r.effects == p.effects + Sounds(q, p.octave)
    decreases |q|
  {
    if q != [] {
      var tail := q[1..];
      assert q == [q[0]] + tail;
      TwoTicksPerPitch(p, q[0], tail);
      var p2 := TickTimes(p, 2);
      var e := Sound(NoteOf(q[0]), p.octave);
      assert p2.effects == p.effects + [e] && p2.octave == p.octave && p2.queue == tail;
      PlainMelody(p2, tail);
      var r := TickTimes(p2, 2 * |tail|);
      TickTimesSplit(p, 2, 2 * |tail|);
      assert TickTimes(p, 2 * |q|) == r;
      SoundsCons(q, p.octave);
      AppendAfter(p.effects, e, Sounds(tail, p.octave));
      assert r.queue == [] && !r.idle && r.hold == DEFAULT_HOLD && r.octave == p.octave;
      assert r.baseTempo == p.baseTempo && r.customTempo == p.customTempo && r.timer == p.timer;
    }
  }

  /** Once the queue is empty, two ticks silence the player and leave it idle. */
  lemma TwoTicksToIdle(p: Player)
    requires !p.idle && p.hold == DEFAULT_HOLD && p.queue == [] && !p.customTempo
    ensures TickTimes(p, 2) == p.(hold := DEFAULT_HOLD, outputOff := true, idle := true,
                                   effects := p.effects + [Silence])
  {
    HoldTickOnlyCounts(p);
    TickTimesSplit(p, 1, 1);
  }

  /**
   * A fresh player given [C, D, E] at the base tempo: the first tick only
   * holds, and each note then lasts two ticks, so the notes start on ticks
   * 2, 4 and 6, the player goes idle on tick 8, and later ticks do nothing.
   */
  lemma ThreeNoteMelody(base: u32)
    ensures var p := Started(Fresh(base), [C, D, E], 0);
      && TickTimes(p, 8).idle
      && TickTimes(p, 8).effects == [Sound(NoteC, 4), Sound(NoteD, 4), Sound(NoteE, 4), Silence]
      && TickTimes(p, 9) == TickTimes(p, 8)
  {
    var p := Started(Fresh(base), [C, D, E], 0);
    PlainMelody(p, [C, D, E]);
    var p6 := TickTimes(p, 6);
    assert Sounds([C, D, E], 4) == [Sound(NoteC, 4), Sound(NoteD, 4), Sound(NoteE, 4)];
    TwoTicksToIdle(p6);
    TickTimesSplit(p, 6, 2);
    var p8 := TickTimes(p, 8);
    IdleTickIsNoop(p8);
    TickTimesSplit(p, 8, 1);
  }

  // ---------------------------------------------------------------- the object

  class MelodyPlayer {
    const gpioPin: u8
    const pwmChannel: u8

    var melodyQueue: seq<Token>
    var currentNote: Note
    var isIdle: bool
    /** Duration of one tick, in milliseconds. */
    var baseTempoMs: u32
    var octave: u8
    var playingAtCustomTempo: bool
    /** Ticks the current note is still held for (kept across plays). */
    var repeatNote: u8
    var outputOff: bool
    var toneTimer: Ticker
    /** Tone output so far. */
    var effects: seq<ToneEffect>

    function Abstract(): Player
      reads this
    {
      Player(melodyQueue, currentNote, isIdle, baseTempoMs, octave, playingAtCustomTempo,
             repeatNote, outputOff, toneTimer, effects)
    }

    constructor (gpioPin: u8, pwmChannel: u8, baseTempo: u32)
      ensures this.gpioPin == gpioPin && this.pwmChannel == pwmChannel
      ensures Abstract() == Fresh(baseTempo)
    {
      this.gpioPin := gpioPin;
      this.pwmChannel := pwmChannel;
      melodyQueue := [];
      currentNote := NoteC;
      isIdle := true;
      baseTempoMs := baseTempo;
      octave := START_OCTAVE;
      playingAtCustomTempo := false;
      repeatNote := DEFAULT_HOLD;
      outputOff := true;
      toneTimer := Detached;
      effects := [];
    }

    method Play(melody: seq<Token>, tempoMs: u32)
      modifies this
      ensures Abstract() == Started(old(Abstract()), melody, tempoMs)
    {
      var tempo := tempoMs;
      if tempo > 0 {
        playingAtCustomTempo := true;
      } else {
        tempo := baseTempoMs;
      }
      melodyQueue := melody;
      isIdle := false;
      toneTimer := Every(tempo);
    }

    method IncreaseTempo()
      modifies this
      ensures Abstract() == TempoUp(old(Abstract()))
    {
      if baseTempoMs >= 64 {
        baseTempoMs := baseTempoMs / 2;
      }
      toneTimer := Every(baseTempoMs);
    }

    method DecreaseTempo()
      modifies this
      ensures Abstract() == TempoDown(old(Abstract()))
    {
      if baseTempoMs < 2048 {
        baseTempoMs := baseTempoMs * 2;
      }
      toneTimer := Every(baseTempoMs);
    }

    method SetTempo(tempoMs: u32)
      modifies this
      ensures Abstract() == TempoSet(old(Abstract()), tempoMs)
    {
      baseTempoMs := tempoMs;
      toneTimer := Every(tempoMs);
    }

    /** One tone-timer tick. */
    method OnToneTimer()
      modifies this
      ensures Abstract() == Tick(old(Abstract()))
    {
      if isIdle {
        return;
      }
      if repeatNote > 0 {
        repeatNote := repeatNote - 1;
        return;
      } else {
        repeatNote := DEFAULT_HOLD;
      }
      var apiNote := NoteC;
      var note: Token := P;
      var isControlSymbol := true;
      var isPause := false;
      ghost var goal := ReadTokens(melodyQueue, octave, repeatNote);
      while isControlSymbol
        invariant isControlSymbol ==> ReadTokens(melodyQueue, octave, repeatNote) == goal
        invariant !isControlSymbol ==> goal == Found(note, melodyQueue, octave, repeatNote)
        invariant !isControlSymbol ==> isPause == (note == P) && (!isPause ==> apiNote == NoteOf(note))
        invariant !isIdle && currentNote == old(currentNote) && baseTempoMs == old(baseTempoMs)
        invariant playingAtCustomTempo == old(playingAtCustomTempo) && outputOff == old(outputOff)
        invariant toneTimer == old(toneTimer) && effects == old(effects)
        decreases |melodyQueue| + (if isControlSymbol then 1 else 0)
      {
        if |melodyQueue| == 0 {
          effects := effects + [Silence];
          outputOff := true;
          isIdle := true;
          if playingAtCustomTempo {
            playingAtCustomTempo := false;
            toneTimer := Every(baseTempoMs);
          }
          return;
        }
        note := melodyQueue[0];
        melodyQueue := melodyQueue[1..];
        isControlSymbol := false;
        isPause := false;
        if note == ODown || note == OUp {
          octave := ShiftOctave(octave, note);
          isControlSymbol := true;
        } else if IsDuration(note) {
          repeatNote := HoldOf(note);
          isControlSymbol := true;
        } else if note == P {
          isPause := true;
        } else {
          apiNote := NoteOf(note);
        }
      }
      if isPause {
        effects := effects + [Silence];
        outputOff := true;
      } else {
        outputOff := false;
        currentNote := apiNote;
        effects := effects + [Sound(apiNote, octave)];
      }
    }
  }
}
