/** The two output mappers: state index to LED pin levels (set_led) and
    state index to the colour name drawn on the display (set_screen). */
module Outputs {
  import opened Bytes

  /** Levels of the red, green and blue LED pins; `true` is a high, lit pin. */
  datatype Rgb = Rgb(red: bool, green: bool, blue: bool)

  /** All three pins low: the LED is dark. */
  const Dark := Rgb(false, false, false)

  /** The pin levels set_led writes for `n`; every value outside 1..6 darkens the LED. */
  function Led(n: Byte): (c: Rgb)
    ensures c == Dark <==> !(1 <= n <= 6)
  {
    match n
    case 1 => Rgb(true, false, false)
    case 2 => Rgb(true, true, false)
    case 3 => Rgb(true, true, true)
    case 4 => Rgb(false, true, true)
    case 5 => Rgb(true, false, true)
    case 6 => Rgb(false, false, true)
    case _ => Dark
  }

  /** The colour name set_screen draws for `n`; every value outside 1..6 reads "black". */
  function Label(n: Byte): (name: string)
    ensures name == "black" <==> !(1 <= n <= 6)
    ensures 3 <= |name| <= 6
  {
    match n
    case 1 => "red"
    case 2 => "yellow"
    case 3 => "white"
    case 4 => "aqua"
    case 5 => "purple"
    case 6 => "blue"
    case _ => "black"
  }

  /** Reference definition: the name of the colour that additive mixing of the
      lit channels produces. */
  function MixtureName(c: Rgb): string
  {
    match c
    case Rgb(false, false, false) => "black"
    case Rgb(true, false, false) => "red"
    case Rgb(false, true, false) => "green"
    case Rgb(false, false, true) => "blue"
    case Rgb(true, true, false) => "yellow"
    case Rgb(false, true, true) => "aqua"
    case Rgb(true, false, true) => "purple"
    case Rgb(true, true, true) => "white"
  }

  /** Which state lit the LED this way; the one channel mix no state uses (green
      alone) reads as the rest state. */
  function LedState(c: Rgb): (n: Byte)
    ensures n <= 6
    ensures n == 0 ==> c == Dark || c == Rgb(false, true, false)
  {
    match c
    case Rgb(true, false, false) => 1
    case Rgb(true, true, false) => 2
    case Rgb(true, true, true) => 3
    case Rgb(false, true, true) => 4
    case Rgb(true, false, true) => 5
    case Rgb(false, false, true) => 6
    case Rgb(false, false, false) => 0
    case Rgb(false, true, false) => 0
  }

  /** Which state the display names `name`; any other text reads as the rest state. */
  function LabelState(name: string): (n: Byte)
    ensures n <= 6
  {
    if name == "red" then 1
    else if name == "yellow" then 2
    else if name == "white" then 3
    else if name == "aqua" then 4
    else if name == "purple" then 5
    else if name == "blue" then 6
    else 0
  }

  /** set_led's full table, state by state. */
  lemma LedTable()
    ensures Led(0) == Dark
    ensures Led(1) == Rgb(true, false, false)
    ensures Led(2) == Rgb(true, true, false)
    ensures Led(3) == Rgb(true, true, true)
    ensures Led(4) == Rgb(false, true, true)
    ensures Led(5) == Rgb(true, false, true)
    ensures Led(6) == Rgb(false, false, true)
    ensures forall n: Byte :: n >= 7 ==> Led(n) == Dark
  {
  }

  /** set_screen's full table, state by state. */
  lemma LabelTable()
    ensures Label(0) == "black"
    ensures Label(1) == "red"
    ensures Label(2) == "yellow"
    ensures Label(3) == "white"
    ensures Label(4) == "aqua"
    ensures Label(5) == "purple"
    ensures Label(6) == "blue"
    ensures forall n: Byte :: n >= 7 ==> Label(n) == "black"
  {
  }

  /** The display always names the colour the LED shows, for every byte. */
  lemma LabelNamesLedColour(n: Byte)
    ensures Label(n) == MixtureName(Led(n))
  {
  }

  /** Reading the state back from the LED recovers it: no two states share a colour. */
  lemma LedStateInvertsLed(n: Byte)
    requires n <= 6
    ensures LedState(Led(n)) == n
  {
  }

  /** Reading the state back from the display recovers it: no two states share a name. */
  lemma LabelStateInvertsLabel(n: Byte)
    requires n <= 6
    ensures LabelState(Label(n)) == n
  {
  }

  /** And the other way round: each of the seven names is the label of the state it reads as. */
  lemma LabelInvertsLabelState(name: string)
    requires name in {"black", "red", "yellow", "white", "aqua", "purple", "blue"}
    ensures Label(LabelState(name)) == name
  {
  }

  /** Over 0..6 the LED mapping is injective. */
  lemma LedInjective(m: Byte, n: Byte)
    requires m <= 6 && n <= 6
    requires Led(m) == Led(n)
    ensures m == n
  {
    LedStateInvertsLed(m);
    LedStateInvertsLed(n);
  }

  /** Over 0..6 the label mapping is injective. */
  lemma LabelInjective(m: Byte, n: Byte)
    requires m <= 6 && n <= 6
    requires Label(m) == Label(n)
    ensures m == n
  {
    LabelStateInvertsLabel(m);
    LabelStateInvertsLabel(n);
  }
}
