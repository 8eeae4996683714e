/**
 * The in-memory mirror of the light (`estado_foco`) and the operations that
 * update it in place: `controlar_foco_real`, the power branch of the
 * `/dialogflow` handler, and the force on / force off handlers.
 */
module Foco {
  import opened Wrappers
  import opened PyStr
  import opened Tuya
  import opened Intents

  /** `max(1, min(100, n))`: a percentage in 1..100. */
  function Clamp(n: int): (r: int)
    ensures 1 <= r <= 100
    ensures 1 <= n <= 100 ==> r == n
    ensures n < 1 ==> r == 1
    ensures n > 100 ==> r == 100
  {
    var capped := if n < 100 then n else 100;
    if 1 < capped then capped else 1
  }

  /**
   * The stored colour after a request: a truthy colour replaces it, anything
   * else leaves it as it was. No request clears a stored colour.
   */
  function MergeColor(stored: Option<string>, color: Option<string>): (r: Option<string>)
    ensures r == stored || r == color
    ensures Truthy(color) ==> r == color
    ensures stored.Some? ==> r.Some?
    ensures (stored.Some? ==> stored.value != "") ==> (r.Some? ==> r.value != "")
  {
    if Truthy(color) then color else stored
  }

  /**
   * The stored intensity after a request: a numeric argument is stored
   * clamped to 1..100; a missing or non-numeric one leaves it unchanged.
   */
  function MergeIntensity(stored: int, intensidad: IntensityArg): (r: int)
    ensures intensidad.Numeric? ==> r == Clamp(intensidad.value) && 1 <= r <= 100
    ensures intensidad.Numeric? && 1 <= intensidad.value <= 100 ==> r == intensidad.value
    ensures !intensidad.Numeric? ==> r == stored
    ensures 1 <= stored <= 100 ==> 1 <= r <= 100
  {
    match intensidad
    case Numeric(n) => Clamp(n)
    case _ => stored
  }

  /** The power flag after a request that carries `encender`. */
  function MergePower(stored: bool, encender: Option<bool>): (r: bool)
    ensures encender.Some? ==> r == encender.value
    ensures encender.None? ==> r == stored
  {
    encender.GetOr(stored)
  }

  /**
   * An action outside both lists changes neither the power flag nor the
   * command list's power part: no `switch_led` is sent.
   */
  lemma UnknownActionKeepsPower(accion: Option<string>, encendido: bool,
                                color: Option<string>, intensidad: int)
    requires accion.None? || accion.value !in TURN_ON_ACTIONS + TURN_OFF_ACTIONS
    ensures MergePower(encendido, PowerFor(accion)) == encendido
    ensures !Has(Commands(color, intensidad, PowerFor(accion)), SWITCH_LED)
  {
    PowerCommandLast(color, intensidad, PowerFor(accion));
  }

  /**
   * Every recognised action other than turning off leaves the light on, even
   * one that only changes colour or intensity; turning off leaves it off.
   */
  lemma RecognisedActionSetsPower(accion: string, encendido: bool)
    ensures accion in TURN_ON_ACTIONS ==> MergePower(encendido, PowerFor(Some(accion)))
    ensures accion in TURN_OFF_ACTIONS ==> !MergePower(encendido, PowerFor(Some(accion)))
  {
  }

  /**
   * A reply that does not decode gives the fallback intent: the light is
   * switched on, its colour and intensity are kept, and `switch_led = true`
   * closes the command list.
   */
  lemma UndecodableReplyTurnsOn(content: string, loads: string -> Option<Loaded>,
                                color: Option<string>, intensidad: int)
    requires loads(CleanReply(content)).None?
    ensures var r := ProcesarConOpenai(Completed(content), loads);
      && r.JsonObject?
      && PowerFor(r.intent.accion) == Some(true)
      && MergeColor(color, r.intent.color) == color
      && MergeIntensity(intensidad, r.intent.intensidad) == intensidad
      && var cmds := Commands(color, intensidad, PowerFor(r.intent.accion));
         cmds[|cmds| - 1] == Command(SWITCH_LED, Flag(true))
  {
  }

  /**
   * "ponla roja al 80%": the intent `modificar_completo`, `rojo`, 80 stores
   * red at 80% with the light on and sends colour mode with hue 0 and
   * brightness 800, then `switch_led = true`.
   */
  lemma RedAtEightyScenario(color: Option<string>, intensidad: int)
    ensures var c := MergeColor(color, Some("rojo"));
      var i := MergeIntensity(intensidad, Numeric(80));
      var p := PowerFor(Some("modificar_completo"));
      && c == Some("rojo") && i == 80 && p == Some(true)
      && Commands(c, i, p) ==
         [Command(WORK_MODE, Text("colour")),
          Command(COLOUR_DATA, Hsv(0, 1000, 800)),
          Command(SWITCH_LED, Flag(true))]
  {
  }

  /**
   * "apaga la luz": the intent `apagar` with no colour or intensity turns the
   * light off and sends the current mode's commands followed by
   * `switch_led = false`.
   */
  lemma TurnOffScenario(encendido: bool, color: Option<string>, intensidad: int)
    ensures var p := PowerFor(Some("apagar"));
      && !MergePower(encendido, p)
      && MergeColor(color, None) == color
      && MergeIntensity(intensidad, Missing) == intensidad
      && Commands(color, intensidad, p) ==
         ModeCommands(color, intensidad) + [Command(SWITCH_LED, Flag(false))]
  {
  }

  /** The body of a `/dialogflow` response. */
  datatype Response =
    | Answer(respuesta: Option<string>, accion: Option<string>, estado: bool)  // 200
    | BadRequest                                                               // 400
    | ServerError                                                              // 500

  /** The body of a force on / force off response. */
  datatype Toggled = Toggled(mensaje: string, encendido: bool)

  /** The single, process-wide record of the light's last desired state. */
  class EstadoFoco {
    var encendido: bool
    var color: Option<string>
    var intensidad: int

    /** The intensity is a percentage, and only truthy colours are ever stored. */
    ghost predicate Valid()
      reads this
    {
      1 <= intensidad <= 100 && (color.Some? ==> color.value != "")
    }

    /** The state at process start: off, no colour, full intensity. */
    constructor ()
      ensures Valid()
      ensures !encendido && color == None && intensidad == 100
    {
      encendido := false;
      color := None;
      intensidad := 100;
    }

    /**
     * `controlar_foco_real`: merge the optional colour, intensity and power
     * into the state, derive the command list from the merged state and post
     * it. `gatewayOk` is what the vendor call reports (false on a transport
     * error); `comandos` is the posted payload.
     */
    method ControlarFocoReal(encender: Option<bool>, color: Option<string>,
                             intensidad: IntensityArg, gatewayOk: bool)
      returns (ok: bool, comandos: seq<Command>)
      requires Valid()
      modifies this
      ensures Valid()
      ensures this.color == MergeColor(old(this.color), color)
      ensures this.intensidad == MergeIntensity(old(this.intensidad), intensidad)
      ensures this.encendido == MergePower(old(this.encendido), encender)
      ensures comandos == Commands(this.color, this.intensidad, encender)
      ensures ok == gatewayOk
    {
      comandos := [];

      if Truthy(color) {
        this.color := color;
      }

      match intensidad {
        case Numeric(n) =>
          var clamped := Clamp(n);
          this.intensidad := clamped;
        case NonNumeric =>
          // int() raised: the value is ignored
        case Missing =>
      }

      if Truthy(this.color) {
        comandos := comandos + [Command(WORK_MODE, Text("colour"))];
        var hue := Hue(this.color.value);
        var brillo := Brightness(this.intensidad);
        comandos := comandos + [Command(COLOUR_DATA, Hsv(hue, SATURATION, brillo))];
      } else {
        var brillo := Brightness(this.intensidad);
        comandos := comandos + [Command(BRIGHT_VALUE, Number(brillo))];
      }

      if encender.Some? {
        comandos := comandos + [Command(SWITCH_LED, Flag(encender.value))];
        this.encendido := encender.value;
      }

      if |comandos| == 0 {
        ok := false;
      } else {
        ok := gatewayOk;
      }
    }

    /**
     * `procesar_texto` (POST /dialogflow). `mensaje` is the request's text
     * (`None` when absent or null), `reply` what the completion service
     * answered for it, `loads` stands for `json.loads`. An empty message is
     * rejected untouched; a reply that decodes to something other than an
     * object fails with 500 untouched; otherwise the action's power value and
     * the intent's colour and intensity are merged and the commands posted.
     */
    method ProcesarTexto(mensaje: Option<string>, reply: Completion,
                         loads: string -> Option<Loaded>, gatewayOk: bool)
      returns (resp: Response, comandos: seq<Command>)
      requires Valid()
      modifies this
      ensures Valid()
      ensures !Truthy(mensaje) ==> resp == BadRequest && comandos == [] && unchanged(this)
      ensures Truthy(mensaje) && ProcesarConOpenai(reply, loads).JsonOther? ==>
        resp == ServerError && comandos == [] && unchanged(this)
      ensures Truthy(mensaje) && ProcesarConOpenai(reply, loads).JsonObject? ==>
        var it := ProcesarConOpenai(reply, loads).intent;
        var power := PowerFor(it.accion);
        && color == MergeColor(old(color), it.color)
        && intensidad == MergeIntensity(old(intensidad), it.intensidad)
        && encendido == MergePower(old(encendido), power)
        && comandos == Commands(color, intensidad, power)
        && resp == Answer(it.respuesta, it.accion, encendido)
    {
      if !Truthy(mensaje) {
        return BadRequest, [];
      }
      var resultado := ProcesarConOpenai(reply, loads);
      if resultado.JsonOther? {
        // `.get` on a non-dict raises; the handler answers 500
        return ServerError, [];
      }
      var it := resultado.intent;
      var encender := PowerFor(it.accion);
      if encender.Some? {
        encendido := encender.value;
      }
      var _, sent := ControlarFocoReal(encender, it.color, it.intensidad, gatewayOk);
      comandos := sent;
      resp := Answer(it.respuesta, it.accion, encendido);
    }

    /** `estado` (GET /foco/estado): the power flag; nothing changes. */
    method Estado() returns (on: bool)
      ensures on == encendido
    {
      on := encendido;
    }

    /** `encender` (POST /foco/encender): power on; colour and intensity untouched. */
    method Encender(gatewayOk: bool) returns (resp: Toggled, comandos: seq<Command>)
      requires Valid()
      modifies this
      ensures Valid()
      ensures encendido && color == old(color) && intensidad == old(intensidad)
      ensures comandos == ModeCommands(color, intensidad) + [Command(SWITCH_LED, Flag(true))]
      ensures resp == Toggled("Foco encendido", true)
    {
      encendido := true;
      var _, sent := ControlarFocoReal(Some(true), None, Missing, gatewayOk);
      comandos := sent;
      resp := Toggled("Foco encendido", true);
    }

    /** `apagar` (POST /foco/apagar): power off; colour and intensity untouched. */
    method Apagar(gatewayOk: bool) returns (resp: Toggled, comandos: seq<Command>)
      requires Valid()
      modifies this
      ensures Valid()
      ensures !encendido && color == old(color) && intensidad == old(intensidad)
      ensures comandos == ModeCommands(color, intensidad) + [Command(SWITCH_LED, Flag(false))]
      ensures resp == Toggled("Foco apagado", false)
    {
      encendido := false;
      var _, sent := ControlarFocoReal(Some(false), None, Missing, gatewayOk);
      comandos := sent;
      resp := Toggled("Foco apagado", false);
    }
  }

  /** Force on then force off leaves the light off with its colour and intensity intact. */
  method EncenderThenApagar(foco: EstadoFoco, gatewayOk: bool)
    requires foco.Valid()
    modifies foco
    ensures foco.Valid()
    ensures !foco.encendido
    ensures foco.color == old(foco.color) && foco.intensidad == old(foco.intensidad)
  {
    var _, _ := foco.Encender(gatewayOk);
    var _, _ := foco.Apagar(gatewayOk);
  }
}
