/**
 * The Tuya command list that `controlar_foco_real` derives from the stored
 * light state: either colour mode (`work_mode` then `colour_data_v2` with an
 * HSV triple) or white mode (`bright_value_v2`), followed by `switch_led`
 * when a power value is supplied.
 */
module Tuya {
  import opened Wrappers
  import opened PyStr

  /** Hue in degrees for each colour name the language model may return. */
  const COLOR_MAP: map<string, int> := map[
    "rojo" := 0,
    "verde" := 120,
    "azul" := 240,
    "amarillo" := 60,
    "rosado" := 330,
    "violeta" := 270
  ]

  const WORK_MODE := "work_mode"
  const COLOUR_DATA := "colour_data_v2"
  const BRIGHT_VALUE := "bright_value_v2"
  const SWITCH_LED := "switch_led"

  /** Saturation sent in colour mode (Tuya's scale is 0..1000). */
  const SATURATION := 1000

  /** The JSON value of a command. */
  datatype Value =
    | Text(text: string)
    | Number(number: int)
    | Flag(flag: bool)
    | Hsv(h: int, s: int, v: int)

  /** One `{"code": ..., "value": ...}` entry of the `commands` payload. */
  datatype Command = Command(code: string, value: Value)

  /** `COLOR_MAP.get(color, 0)`: a hue in degrees, 0 (red) for an unknown colour. */
  function Hue(color: string): (h: int)
    ensures 0 <= h < 360
    ensures color !in COLOR_MAP ==> h == 0
  {
    if color in COLOR_MAP then COLOR_MAP[color] else 0
  }

  /**
   * The stored percentage on Tuya's 10..1000 brightness scale. The source
   * computes `int((i / 100) * 1000)` in floating point; this model uses the
   * exact integer product.
   */
  function Brightness(intensidad: int): (v: int)
    ensures v / 10 == intensidad && v % 10 == 0
    ensures 1 <= intensidad <= 100 ==> 10 <= v <= 1000
  {
    intensidad * 10
  }

  /** The mode part of the list: colour mode when a colour is stored, white mode otherwise. */
  function ModeCommands(color: Option<string>, intensidad: int): (cmds: seq<Command>)
    ensures |cmds| == if Truthy(color) then 2 else 1
    ensures cmds[|cmds| - 1].value.Hsv? <==> Truthy(color)
    ensures forall i :: 0 <= i < |cmds| ==> cmds[i].code != SWITCH_LED
  {
    if Truthy(color) then
      [Command(WORK_MODE, Text("colour")),
       Command(COLOUR_DATA, Hsv(Hue(color.value), SATURATION, Brightness(intensidad)))]
    else
      [Command(BRIGHT_VALUE, Number(Brightness(intensidad)))]
  }

  /** The full list sent to the device for a stored state and an optional power value. */
  function Commands(color: Option<string>, intensidad: int, encender: Option<bool>): (cmds: seq<Command>)
    ensures 1 <= |cmds| <= 3
  {
    ModeCommands(color, intensidad)
    + (if encender.Some? then [Command(SWITCH_LED, Flag(encender.value))] else [])
  }

  /** Some command in `cmds` carries `code`. */
  predicate Has(cmds: seq<Command>, code: string) {
    exists i :: 0 <= i < |cmds| && cmds[i].code == code
  }

  /**
   * Colour mode and white mode exclude each other: `work_mode` and
   * `colour_data_v2` are sent exactly when a colour is stored, and
   * `bright_value_v2` exactly when none is.
   */
  lemma ModeExclusive(color: Option<string>, intensidad: int, encender: Option<bool>)
    ensures var cmds := Commands(color, intensidad, encender);
      && (Has(cmds, WORK_MODE) <==> Truthy(color))
      && (Has(cmds, COLOUR_DATA) <==> Truthy(color))
      && (Has(cmds, BRIGHT_VALUE) <==> !Truthy(color))
      && !(Has(cmds, BRIGHT_VALUE) && Has(cmds, COLOUR_DATA))
  {
    var cmds := Commands(color, intensidad, encender);
    if Truthy(color) {
      assert cmds[0].code == WORK_MODE && cmds[1].code == COLOUR_DATA;
    } else {
      assert cmds[0].code == BRIGHT_VALUE;
    }
  }

  /**
   * In colour mode the list opens with `work_mode = "colour"`, then the HSV
   * triple with the colour's hue (0 when unknown), full saturation and the
   * scaled brightness.
   */
  lemma ColourModeLayout(color: string, intensidad: int, encender: Option<bool>)
    requires color != ""
    ensures var cmds := Commands(Some(color), intensidad, encender);
      && cmds[0] == Command(WORK_MODE, Text("colour"))
      && cmds[1].code == COLOUR_DATA
      && cmds[1].value.Hsv?
      && cmds[1].value.h == (if color in COLOR_MAP then COLOR_MAP[color] else 0)
      && cmds[1].value.s == 1000
      && cmds[1].value.v == 10 * intensidad
  {
  }

  /** In white mode the list opens with the single scaled brightness. */
  lemma WhiteModeLayout(color: Option<string>, intensidad: int, encender: Option<bool>)
    requires !Truthy(color)
    ensures var cmds := Commands(color, intensidad, encender);
      cmds[0] == Command(BRIGHT_VALUE, Number(10 * intensidad))
  {
  }

  /**
   * `switch_led` is in the list exactly when a power value is supplied; it is
   * then the last entry, carries that value, and appears nowhere else.
   */
  lemma PowerCommandLast(color: Option<string>, intensidad: int, encender: Option<bool>)
    ensures var cmds := Commands(color, intensidad, encender);
      && (Has(cmds, SWITCH_LED) <==> encender.Some?)
      && (encender.Some? ==> cmds[|cmds| - 1] == Command(SWITCH_LED, Flag(encender.value)))
      && (forall i :: 0 <= i < |cmds| - 1 ==> cmds[i].code != SWITCH_LED)
      && |cmds| == |ModeCommands(color, intensidad)| + (if encender.Some? then 1 else 0)
  {
    var cmds := Commands(color, intensidad, encender);
    if encender.Some? {
      assert cmds[|cmds| - 1].code == SWITCH_LED;
    }
  }
}
