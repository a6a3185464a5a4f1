/** The alert tiers of the counter screen and the tables that every tier picks:
    the status label, the three colour tables (screen background, indicator card,
    counter digits) and the indicator's text colour.  Each table is its own
    `when` chain in the app, written most-severe-first over the signed counter;
    each is modelled here as its own function with the same chain. */
module AlertLevels {

  /** Magnitude of the counter. */
  function Abs(c: int): nat
  {
    if c < 0 then -c else c
  }

  /** The condition that opens every chain: the counter is in the maximum tier. */
  predicate AtMaximum(c: int)
  {
    c >= 100 || c <= -100
  }

  /** The six severity tiers, least to most severe. */
  datatype Tier = Normal | Attention | Light | Serious | VerySerious | Maximum

  /** Tier t is the band of magnitudes holding n (thresholds are inclusive lower bounds). */
  predicate Covers(t: Tier, n: nat)
  {
    match t
    case Normal => n < 10
    case Attention => 10 <= n < 20
    case Light => 20 <= n < 30
    case Serious => 30 <= n < 50
    case VerySerious => 50 <= n < 100
    case Maximum => 100 <= n
  }

  /** The tier of a counter value, checked most-severe-first as every chain does. */
  function Classify(c: int): (t: Tier)
    ensures Covers(t, Abs(c))
    ensures t == Maximum <==> AtMaximum(c)
  {
    if c >= 100 || c <= -100 then Maximum
    else if c >= 50 || c <= -50 then VerySerious
    else if c >= 30 || c <= -30 then Serious
    else if c >= 20 || c <= -20 then Light
    else if c >= 10 || c <= -10 then Attention
    else Normal
  }

  /** The bands partition the magnitudes: n lies in tier t exactly when t is what
      the most-severe-first chain picks. */
  lemma TiersPartition(n: nat, t: Tier)
    ensures Covers(t, n) <==> t == Classify(n)
  {
  }

  /** A colour as a Compose `Color(0xAARRGGBB)` literal. */
  newtype Argb = x: int | 0 <= x < 0x1_0000_0000

  const DarkRed: Argb := 0xFF8B0000
  const Crimson: Argb := 0xFFDC143C
  const OrangeRed: Argb := 0xFFFF4500
  const Tomato: Argb := 0xFFFF6347
  const LightSalmon: Argb := 0xFFFFA07A
  const DarkOrange: Argb := 0xFFFF8C00
  const Transparent: Argb := 0x00000000
  const White: Argb := 0xFFFFFFFF
  const Black: Argb := 0xFF000000

  /** The blink animation's current value, supplied by an animation driver outside
      the model; it is only ever passed through as an alpha, never computed on. */
  type BlinkPhase = real

  /** What the background is painted with: a fixed colour, or a colour whose alpha
      is replaced by the blink phase (`Color(argb).copy(alpha = phase)`). */
  datatype Paint = Solid(argb: Argb) | Pulsing(argb: Argb, alpha: BlinkPhase)

  /** The status label of the indicator card. */
  function Label(c: int): (s: string)
    ensures s == "Normal" <==> Abs(c) < 10
    ensures s == "Atenção" <==> 10 <= Abs(c) < 20
    ensures s == "Leve" <==> 20 <= Abs(c) < 30
    ensures s == "Mais Grave" <==> 30 <= Abs(c) < 50
    ensures s == "Muito Grave" <==> 50 <= Abs(c) < 100
    ensures s == "ALERTA MÁXIMO!" <==> 100 <= Abs(c)
  {
    if c >= 100 || c <= -100 then "ALERTA MÁXIMO!"
    else if c >= 50 || c <= -50 then "Muito Grave"
    else if c >= 30 || c <= -30 then "Mais Grave"
    else if c >= 20 || c <= -20 then "Leve"
    else if c >= 10 || c <= -10 then "Atenção"
    else "Normal"
  }

  /** The screen background; only the maximum tier depends on the blink phase. */
  function BackgroundColor(c: int, phase: BlinkPhase): (p: Paint)
    ensures p.Pulsing? <==> 100 <= Abs(c)
    ensures p.Pulsing? ==> p == Pulsing(DarkRed, phase)
    ensures p == Solid(Crimson) <==> 50 <= Abs(c) < 100
    ensures p == Solid(OrangeRed) <==> 30 <= Abs(c) < 50
    ensures p == Solid(Tomato) <==> 20 <= Abs(c) < 30
    ensures p == Solid(LightSalmon) <==> 10 <= Abs(c) < 20
    ensures p == Solid(Transparent) <==> Abs(c) < 10
  {
    if c >= 100 || c <= -100 then Pulsing(DarkRed, phase)
    else if c >= 50 || c <= -50 then Solid(Crimson)
    else if c >= 30 || c <= -30 then Solid(OrangeRed)
    else if c >= 20 || c <= -20 then Solid(Tomato)
    else if c >= 10 || c <= -10 then Solid(LightSalmon)
    else Solid(Transparent)
  }

  /** The colour of the counter digits. */
  function CounterTextColor(c: int): (r: Argb)
    ensures r == DarkRed <==> 100 <= Abs(c)
    ensures r == Crimson <==> 50 <= Abs(c) < 100
    ensures r == OrangeRed <==> 30 <= Abs(c) < 50
    ensures r == Tomato <==> 20 <= Abs(c) < 30
    ensures r == DarkOrange <==> 10 <= Abs(c) < 20
    ensures r == Black <==> Abs(c) < 10
  {
    if c >= 100 || c <= -100 then DarkRed
    else if c >= 50 || c <= -50 then Crimson
    else if c >= 30 || c <= -30 then OrangeRed
    else if c >= 20 || c <= -20 then Tomato
    else if c >= 10 || c <= -10 then DarkOrange
    else Black
  }

  /** The container colour of the alert-level indicator card. */
  function IndicatorColor(c: int): (r: Argb)
    ensures r == DarkRed <==> 100 <= Abs(c)
    ensures r == Crimson <==> 50 <= Abs(c) < 100
    ensures r == OrangeRed <==> 30 <= Abs(c) < 50
    ensures r == Tomato <==> 20 <= Abs(c) < 30
    ensures r == LightSalmon <==> 10 <= Abs(c) < 20
    ensures r == White <==> Abs(c) < 10
  {
    if c >= 100 || c <= -100 then DarkRed
    else if c >= 50 || c <= -50 then Crimson
    else if c >= 30 || c <= -30 then OrangeRed
    else if c >= 20 || c <= -20 then Tomato
    else if c >= 10 || c <= -10 then LightSalmon
    else White
  }

  /** The colour of the indicator card's label text. */
  function IndicatorTextColor(c: int): (r: Argb)
    ensures r == White <==> 10 <= Abs(c)
    ensures r == Black <==> Abs(c) < 10
  {
    if c >= 10 || c <= -10 then White
    else Black
  }

  /** Every table depends on the counter only through its tier. */
  lemma PickedByTier(c: int, d: int, phase: BlinkPhase)
    requires Classify(c) == Classify(d)
    ensures Label(c) == Label(d)
    ensures BackgroundColor(c, phase) == BackgroundColor(d, phase)
    ensures CounterTextColor(c) == CounterTextColor(d)
    ensures IndicatorColor(c) == IndicatorColor(d)
    ensures IndicatorTextColor(c) == IndicatorTextColor(d)
  {
  }

  /** Every table is blind to the counter's sign. */
  lemma SignSymmetric(c: int, phase: BlinkPhase)
    ensures Classify(-c) == Classify(c)
    ensures Label(-c) == Label(c)
    ensures BackgroundColor(-c, phase) == BackgroundColor(c, phase)
    ensures CounterTextColor(-c) == CounterTextColor(c)
    ensures IndicatorColor(-c) == IndicatorColor(c)
    ensures IndicatorTextColor(-c) == IndicatorTextColor(c)
  {
  }

  /** The three colour tables are distinct: the indicator card and the digits agree
      from the Light tier up and differ in the two lowest tiers, while the background
      agrees with the indicator card everywhere except the base tier and the
      pulsing maximum tier. */
  lemma ColourTablesDiffer(c: int, phase: BlinkPhase)
    ensures IndicatorColor(c) == CounterTextColor(c) <==> 20 <= Abs(c)
    ensures BackgroundColor(c, phase) == Solid(IndicatorColor(c)) <==> 10 <= Abs(c) < 100
  {
  }
}
