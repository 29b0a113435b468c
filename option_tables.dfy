/**
 * The constant option tables a caller offers for selection: five time
 * brackets, three complexity levels and three definition levels.
 */
module OptionTables {

  /** The value of the time option that asks for a custom number of days. */
  const CustomTimeSentinel: real := -1.0

  /** A time bracket; `requiresCustomInput` is false where the source leaves the field out. */
  datatype TimeOption = TimeOption(displayLabel: string, value: real, description: string, requiresCustomInput: bool)

  /** The traffic-light colour shown beside a level. */
  datatype Color = Green | Yellow | Red

  /** A complexity or definition level: its ordinal, its multiplier and its colour. */
  datatype LevelOption = LevelOption(displayLabel: string, value: real, multiplier: real, color: Color)

  type ComplexityOption = LevelOption
  type DefinitionOption = LevelOption

  const TimeOptions: seq<TimeOption> := [
    TimeOption("< 0.5 días", 0.5, "Menos de medio día", false),
    TimeOption("0.5 – 1 días", 1.0, "Entre medio día y un día", false),
    TimeOption("1 – 2 días", 2.0, "Entre uno y dos días", false),
    TimeOption("2 – 3 días", 3.0, "Entre dos y tres días", false),
    TimeOption("> 3 días", CustomTimeSentinel, "Más de tres días", true)
  ]

  const ComplexityOptions: seq<ComplexityOption> := [
    LevelOption("Baja", 1.0, 1.0, Green),
    LevelOption("Media", 2.0, 1.5, Yellow),
    LevelOption("Alta", 3.0, 2.0, Red)
  ]

  const DefinitionOptions: seq<DefinitionOption> := [
    LevelOption("Clara", 1.0, 1.0, Green),
    LevelOption("Ambigua", 2.0, 1.25, Yellow),
    LevelOption("Incierta", 3.0, 1.5, Red)
  ]

  /** The position of a colour on the escalation green, yellow, red. */
  function Severity(c: Color): nat
  {
    match c
    case Green => 0
    case Yellow => 1
    case Red => 2
  }

  function Multipliers(levels: seq<LevelOption>): seq<real>
  {
    seq(|levels|, i requires 0 <= i < |levels| => levels[i].multiplier)
  }

  function Colors(levels: seq<LevelOption>): seq<Color>
  {
    seq(|levels|, i requires 0 <= i < |levels| => levels[i].color)
  }

  /**
   * The shape shared by both level tables: ordinals 1, 2, 3 in order, every
   * multiplier at least 1, and multiplier and colour both escalating with the ordinal.
   */
  ghost predicate WellFormedLevels(levels: seq<LevelOption>)
  {
    |levels| == 3 &&
    (forall i :: 0 <= i < |levels| ==> levels[i].value == (i + 1) as real && levels[i].multiplier >= 1.0) &&
    (forall i, j :: 0 <= i <= j < |levels| ==> levels[i].multiplier <= levels[j].multiplier) &&
    (forall i, j :: 0 <= i <= j < |levels| ==> Severity(levels[i].color) <= Severity(levels[j].color))
  }

  /** The time table: five brackets, and only the last asks for custom input, with the sentinel value. */
  lemma TimeOptionsShape()
    ensures |TimeOptions| == 5
    ensures TimeOptions[0].value == 0.5
    ensures forall i :: 0 <= i < |TimeOptions| ==> (TimeOptions[i].requiresCustomInput <==> i == 4)
    ensures TimeOptions[4].value == CustomTimeSentinel == -1.0
    ensures forall i :: 0 <= i < 4 ==> 0.0 < TimeOptions[i].value <= 3.0
  {
  }

  /** The complexity table: multipliers 1.0, 1.5, 2.0 and colours green, yellow, red. */
  lemma ComplexityOptionsShape()
    ensures WellFormedLevels(ComplexityOptions)
    ensures Multipliers(ComplexityOptions) == [1.0, 1.5, 2.0]
    ensures Colors(ComplexityOptions) == [Green, Yellow, Red]
  {
  }

  /** The definition table: multipliers 1.0, 1.25, 1.5 and colours green, yellow, red. */
  lemma DefinitionOptionsShape()
    ensures WellFormedLevels(DefinitionOptions)
    ensures Multipliers(DefinitionOptions) == [1.0, 1.25, 1.5]
    ensures Colors(DefinitionOptions) == [Green, Yellow, Red]
  {
  }
}
