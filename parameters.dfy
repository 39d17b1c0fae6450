/**
 * The static configuration of the wellbeing centre (parameters.py): the
 * three exercises (anxiety, anger and stress), the timings they share and
 * the colours of the main page. Every table of the source is a constant
 * here, and the lemmas state what its comments promise about it: colours
 * are bytes, ramps have a start and an end stop, timings are positive, the
 * stress waves calm down, and sampling any ramp at any progress gives a
 * colour.
 */
module Parameters {
  import opened Wrappers
  import opened Utils

  /** A value that goes from `initial` at the start to `final` at the end. */
  datatype Decay = Decay(initial: real, final: real)

  /** The wave settings of the stress exercise. */
  datatype Waves = Waves(waveCount: int, chaos: Decay, speed: Decay, amplitude: Decay)

  /**
   * One exercise table. `timings` holds the `*_time` and `duration`
   * entries (seconds), `colors` the named RGB ramps and `messages` the
   * named texts, each keyed as in the source; `cycles` is absent for the
   * stress exercise and `waves` present only for it.
   */
  datatype Exercise = Exercise(
    timings: map<string, real>,
    cycles: Option<int>,
    waves: Option<Waves>,
    colors: map<string, seq<Rgb>>,
    messages: map<string, string>)

  /** The timings shared by every page, in seconds. */
  datatype General = General(fadeDuration: real, messageDisplayTime: real, welcomeDuration: real)

  datatype Theme = Theme(bgPrimary: string, bgSecondary: string, accent: string)

  /** The colours of one emotion card on the main page. */
  datatype Palette = Palette(primary: string, secondary: string, icon: string, labelColor: string)

  /**
   * A background orb: position and radius relative to the canvas, an
   * `[R, G, B]` colour and the speed of its sinusoidal drift.
   */
  datatype Orb = Orb(x: real, y: real, r: real, color: seq<int>, speed: real)

  datatype UiColors = UiColors(theme: Theme, ansiedad: Palette, ira: Palette, estres: Palette, orbs: seq<Orb>)

  // ---------------------------------------------------------------------
  // The tables
  // ---------------------------------------------------------------------

  // The colour ramps, one stop per entry, named after their keys.

  const AnsiedadInhale: seq<Rgb> :=
    [Rgb(14, 165, 233), Rgb(56, 189, 248), Rgb(125, 211, 252),
     Rgb(6, 182, 212), Rgb(34, 211, 238), Rgb(103, 232, 249)]
  const AnsiedadExhale: seq<Rgb> :=
    [Rgb(103, 232, 249), Rgb(45, 212, 191), Rgb(20, 184, 166),
     Rgb(13, 148, 136), Rgb(16, 185, 129), Rgb(52, 211, 153)]
  const IraRed: seq<Rgb> :=
    [Rgb(127, 29, 29), Rgb(153, 27, 27), Rgb(185, 28, 28),
     Rgb(220, 38, 38), Rgb(239, 68, 68), Rgb(248, 113, 113)]
  const IraRedToYellow: seq<Rgb> :=
    [Rgb(239, 68, 68), Rgb(234, 88, 12), Rgb(249, 115, 22),
     Rgb(251, 146, 60), Rgb(253, 186, 116), Rgb(251, 191, 36),
     Rgb(252, 211, 77), Rgb(250, 204, 21), Rgb(253, 224, 71)]
  const IraYellowToViolet: seq<Rgb> :=
    [Rgb(253, 224, 71), Rgb(163, 230, 53), Rgb(74, 222, 128),
     Rgb(45, 212, 191), Rgb(34, 211, 238), Rgb(56, 189, 248),
     Rgb(96, 165, 250), Rgb(59, 130, 246), Rgb(99, 102, 241),
     Rgb(139, 92, 246), Rgb(167, 139, 250)]
  const EstresChaos: seq<Rgb> :=
    [Rgb(194, 65, 12), Rgb(234, 88, 12), Rgb(249, 115, 22), Rgb(251, 146, 60)]
  const EstresCalm: seq<Rgb> :=
    [Rgb(45, 212, 191), Rgb(94, 234, 212), Rgb(167, 139, 250), Rgb(196, 181, 253)]

  /** The 4-4 breathing exercise for anxiety. */
  const Ansiedad: Exercise := Exercise(
    map["inhale_time" := 4.0, "exhale_time" := 4.0, "pause_time" := 0.5],
    Some(5),
    None,
    map["inhale" := AnsiedadInhale, "exhale" := AnsiedadExhale],
    map[
      "inhale" := "Inhala",
      "exhale" := "Exhala",
      "question" := "¿Te sientes mucho mejor?",
      "success" := "Ahora estas en control."])

  /** The 4-7-8 breathing exercise for anger. */
  const Ira: Exercise := Exercise(
    map["inhale_time" := 4.0, "hold_time" := 7.0, "exhale_time" := 8.0],
    Some(2),
    None,
    map["red" := IraRed, "red_to_yellow" := IraRedToYellow, "yellow_to_violet" := IraYellowToViolet],
    map[
      "inhale" := "Inhala",
      "hold" := "Manten",
      "exhale" := "Exhala",
      "question" := "¿Te sientes mucho mejor?",
      "success" := "Ahora estas en control."])

  /** The wave-watching exercise for stress. */
  const Estres: Exercise := Exercise(
    map["duration" := 30.0],
    None,
    Some(Waves(5, Decay(1.0, 0.05), Decay(3.0, 0.5), Decay(80.0, 30.0))),
    map["chaos" := EstresChaos, "calm" := EstresCalm],
    map[
      "start" := "Observa las ondas...",
      "middle" := "Siente como se calman...",
      "end" := "Claridad mental",
      "question" := "¿Te sientes mucho mejor?",
      "success" := "Tu mente esta en calma."])

  const GeneralTimings: General := General(1.0, 2.0, 3.0)

  const Ui: UiColors := UiColors(
    Theme("#0a0a0f", "#12121a", "#a78bfa"),
    Palette("#0ea5e9", "#14b8a6", "#22d3ee", "#22d3ee"),
    Palette("#ef4444", "#ec4899", "#f87171", "#f87171"),
    Palette("#f97316", "#a78bfa", "#fb923c", "#fb923c"),
    [Orb(0.2, 0.3, 0.4, [167, 139, 250], 0.0003),
     Orb(0.8, 0.2, 0.35, [236, 72, 153], 0.0004),
     Orb(0.5, 0.7, 0.45, [14, 165, 233], 0.00035),
     Orb(0.7, 0.8, 0.3, [249, 115, 34], 0.00045)])

  // ---------------------------------------------------------------------
  // Well-formedness
  // ---------------------------------------------------------------------

  /** A ramp usable for animation: a distinct start and end stop, all bytes. */
  predicate ValidRamp(ramp: seq<Rgb>) {
    |ramp| >= 2 && AllValid(ramp)
  }

  /** Every ramp of the exercise is usable. */
  predicate RampsValid(e: Exercise) {
    forall k | k in e.colors :: ValidRamp(e.colors[k])
  }

  /** Every timing is positive, and so is the number of cycles where there is one. */
  predicate TimingsPositive(e: Exercise) {
    (forall k | k in e.timings :: e.timings[k] > 0.0) &&
    (e.cycles.Some? ==> e.cycles.value > 0)
  }

  /** Every exercise ends by asking how the user feels and confirming success. */
  predicate HasClosingMessages(e: Exercise) {
    "question" in e.messages && "success" in e.messages
  }

  predicate Decreasing(d: Decay) { d.initial > d.final }

  predicate WellFormed(e: Exercise) {
    RampsValid(e) && TimingsPositive(e) && HasClosingMessages(e)
  }

  /** The three exercise tables. */
  predicate IsExercise(e: Exercise) {
    e == Ansiedad || e == Ira || e == Estres
  }

  /** Every ramp of every exercise has bytes for channels and at least two stops. */
  lemma RampsAreValid()
    ensures ValidRamp(AnsiedadInhale) && ValidRamp(AnsiedadExhale)
    ensures ValidRamp(IraRed) && ValidRamp(IraRedToYellow) && ValidRamp(IraYellowToViolet)
    ensures ValidRamp(EstresChaos) && ValidRamp(EstresCalm)
  {
  }

  lemma ExercisesWellFormed(e: Exercise)
    requires IsExercise(e)
    ensures WellFormed(e)
  {
    RampsAreValid();
  }

  /** Sampling any ramp of any exercise at any progress in [0, 1] gives a valid colour. */
  lemma SampleExerciseRamp(e: Exercise, key: string, progress: real)
    requires IsExercise(e) && key in e.colors && 0.0 <= progress <= 1.0
    ensures ColorFromArray(e.colors[key], progress).Some?
    ensures ValidRgb(ColorFromArray(e.colors[key], progress).value)
  {
    ExercisesWellFormed(e);
    ColorFromArrayDefined(e.colors[key], progress);
  }

  /** Anxiety: the exhale ramp starts on the colour the inhale ramp ends on. */
  lemma AnsiedadPhasesJoin()
    ensures ColorFromArray(AnsiedadInhale, 1.0) == ColorFromArray(AnsiedadExhale, 0.0)
  {
  }

  /** Anger: the exhale ramp starts on the colour the hold ramp ends on. */
  lemma IraHoldJoinsExhale()
    ensures ColorFromArray(IraRedToYellow, 1.0) == ColorFromArray(IraYellowToViolet, 0.0)
  {
  }

  /**
   * Anger: the hold ramp starts on red-500, which the inhale ramp passes at
   * four fifths of its way, not on red-400, where the inhale ramp ends. The
   * two ramps do not join.
   */
  lemma IraInhaleToHoldJump()
    ensures ColorFromArray(IraRed, 0.8) == ColorFromArray(IraRedToYellow, 0.0)
    ensures ColorFromArray(IraRed, 1.0) != ColorFromArray(IraRedToYellow, 0.0)
  {
    ColorFromArrayAtStop(IraRed, 4);
  }

  /**
   * The start of a new cycle is not a join: anxiety's exhale ramp ends on
   * emerald-400 but its inhale ramp starts on sky-500, and anger's exhale
   * ramp ends on violet-400 but its inhale ramp starts on red-900.
   */
  lemma CycleRestartJumps()
    ensures ColorFromArray(AnsiedadExhale, 1.0) != ColorFromArray(AnsiedadInhale, 0.0)
    ensures ColorFromArray(IraYellowToViolet, 1.0) != ColorFromArray(IraRed, 0.0)
  {
  }

  /** Stress: chaos, speed and amplitude all fall, and chaos stays a fraction. */
  lemma EstresCalmsDown()
    ensures Estres.waves.Some?
    ensures Decreasing(Estres.waves.value.chaos)
    ensures Decreasing(Estres.waves.value.speed)
    ensures Decreasing(Estres.waves.value.amplitude)
    ensures 0.0 <= Estres.waves.value.chaos.final && Estres.waves.value.chaos.initial <= 1.0
    ensures Estres.waves.value.waveCount > 0
  {
  }

  /** The shared timings are positive too. */
  lemma GeneralPositive()
    ensures GeneralTimings.fadeDuration > 0.0
    ensures GeneralTimings.messageDisplayTime > 0.0
    ensures GeneralTimings.welcomeDuration > 0.0
  {
  }

  /** Only the anger exercise has a hold phase, with its own message and timing. */
  lemma OnlyIraHolds(e: Exercise)
    requires IsExercise(e)
    ensures "hold" in e.messages <==> e == Ira
    ensures "hold_time" in e.timings <==> e == Ira
  {
  }

  // ---------------------------------------------------------------------
  // The main page
  // ---------------------------------------------------------------------

  /** An orb lies on the canvas, has a radius, a byte colour and moves. */
  predicate OrbWellFormed(o: Orb) {
    0.0 <= o.x <= 1.0 && 0.0 <= o.y <= 1.0 && 0.0 < o.r <= 1.0 &&
    |o.color| == 3 && (forall i | 0 <= i < 3 :: IsByte(o.color[i])) &&
    o.speed > 0.0
  }

  lemma OrbsWellFormed()
    ensures |Ui.orbs| == 4
    ensures forall i | 0 <= i < |Ui.orbs| :: OrbWellFormed(Ui.orbs[i])
  {
  }

  /** A lower-case hexadecimal digit, as the tables write them. */
  predicate IsHexDigit(d: char) {
    '0' <= d <= '9' || 'a' <= d <= 'f'
  }

  /** The value of a hexadecimal digit, if it is one. */
  function DigitValue(d: char): (v: Option<int>)
    ensures v.Some? <==> IsHexDigit(d)
    ensures v.Some? ==> 0 <= v.value < 16
  {
    if '0' <= d <= '9' then Some(d as int - '0' as int)
    else if 'a' <= d <= 'f' then Some(d as int - 'a' as int + 10)
    else None
  }

  /** The digit that has value `k`. */
  function Digit(k: int): (d: char)
    requires 0 <= k < 16
    ensures IsHexDigit(d)
    ensures DigitValue(d) == Some(k)
  {
    if k < 10 then ('0' as int + k) as char else ('a' as int + k - 10) as char
  }

  /** The byte written by two hexadecimal digits, if both are digits. */
  function HexByte(hi: char, lo: char): (v: Option<int>)
    ensures v.Some? <==> IsHexDigit(hi) && IsHexDigit(lo)
    ensures v.Some? ==> IsByte(v.value)
  {
    match (DigitValue(hi), DigitValue(lo))
    case (Some(h), Some(l)) => Some(16 * h + l)
    case _ => None
  }

  /** A CSS colour `#rrggbb`. */
  predicate IsHexColor(s: string) {
    |s| == 7 && s[0] == '#' &&
    IsHexDigit(s[1]) && IsHexDigit(s[2]) && IsHexDigit(s[3]) &&
    IsHexDigit(s[4]) && IsHexDigit(s[5]) && IsHexDigit(s[6])
  }

  /** The colour a `#rrggbb` string names, if it is one. */
  function HexToRgb(s: string): (c: Option<Rgb>)
    ensures c.Some? <==> IsHexColor(s)
    ensures c.Some? ==> ValidRgb(c.value)
  {
    if |s| == 7 && s[0] == '#' then
      match (HexByte(s[1], s[2]), HexByte(s[3], s[4]), HexByte(s[5], s[6]))
      case (Some(r), Some(g), Some(b)) => Some(Rgb(r, g, b))
      case _ => None
    else
      None
  }

  /** The `#rrggbb` spelling of a colour. */
  function RgbToHex(c: Rgb): (s: string)
    requires ValidRgb(c)
    ensures IsHexColor(s)
  {
    ['#', Digit(c.r / 16), Digit(c.r % 16),
          Digit(c.g / 16), Digit(c.g % 16),
          Digit(c.b / 16), Digit(c.b % 16)]
  }

  /** Reading back the spelling of a colour gives the colour. */
  lemma HexRoundTrip(c: Rgb)
    requires ValidRgb(c)
    ensures HexToRgb(RgbToHex(c)) == Some(c)
  {
  }

  /** Every colour of the main page is a well-formed `#rrggbb` string. */
  lemma UiHexWellFormed()
    ensures IsHexColor(Ui.theme.bgPrimary) && IsHexColor(Ui.theme.bgSecondary) && IsHexColor(Ui.theme.accent)
    ensures forall p | p in {Ui.ansiedad, Ui.ira, Ui.estres} ::
      IsHexColor(p.primary) && IsHexColor(p.secondary) && IsHexColor(p.icon) && IsHexColor(p.labelColor)
  {
  }

  /**
   * The cards of the main page name the ramp stops their comments name:
   * sky-500 for anxiety, red-500 for anger and orange-500 for stress; the
   * accent is the violet-400 the anger exercise ends on.
   */
  lemma UiMatchesExercises()
    ensures HexToRgb(Ui.ansiedad.primary) == Some(AnsiedadInhale[0])
    ensures HexToRgb(Ui.ira.primary) == Some(IraRedToYellow[0])
    ensures HexToRgb(Ui.estres.primary) == Some(EstresChaos[2])
    ensures HexToRgb(Ui.theme.accent) == Some(IraYellowToViolet[10])
  {
  }

  /**
   * The fourth orb, commented as orange-500, differs from the orange-500 of
   * the ramps by 12 in blue.
   */
  lemma FourthOrbIsNotOrange500()
    ensures Ui.orbs[3].color == [EstresChaos[2].r, EstresChaos[2].g, EstresChaos[2].b + 12]
  {
  }
}
