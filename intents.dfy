/**
 * The intent the language model extracts from a voice command, how an
 * action maps to a power change, how the model's reply is cleaned of code
 * fences, and the fallback intent used when the reply cannot be had or
 * parsed.
 */
module Intents {
  import opened Wrappers
  import opened PyStr

  /**
   * The `intensidad` field as `controlar_foco_real` sees it: absent (`None`),
   * a value that `int()` accepts (giving `value`), or one on which `int()`
   * raises.
   */
  datatype IntensityArg = Missing | Numeric(value: int) | NonNumeric

  /** The JSON object the language model is asked for (`None` = null or absent key). */
  datatype Intent = Intent(
    accion: Option<string>,
    color: Option<string>,
    intensidad: IntensityArg,
    respuesta: Option<string>)

  /** Actions that turn the light on, and those that turn it off. */
  const TURN_ON_ACTIONS: set<string> :=
    {"encender", "luces.encender", "modificar_intensidad", "modificar_color", "modificar_completo"}
  const TURN_OFF_ACTIONS: set<string> := {"apagar", "luces.apagar"}

  /**
   * The power value the `/dialogflow` handler derives from an action:
   * `Some(true)`, `Some(false)`, or `None` for "no power change".
   */
  function PowerFor(accion: Option<string>): (power: Option<bool>)
    ensures power == Some(true) <==> accion.Some? && accion.value in TURN_ON_ACTIONS
    ensures power == Some(false) <==> accion.Some? && accion.value in TURN_OFF_ACTIONS
    ensures power.None? <==> accion.None? || accion.value !in TURN_ON_ACTIONS + TURN_OFF_ACTIONS
  {
    if accion.Some? && accion.value in ["encender", "luces.encender"] then Some(true)
    else if accion.Some? && accion.value in ["apagar", "luces.apagar"] then Some(false)
    else if accion == Some("modificar_intensidad") then Some(true)
    else if accion == Some("modificar_color") then Some(true)
    else if accion == Some("modificar_completo") then Some(true)
    else None
  }

  const JSON_FENCE := "```json"
  const FENCE := "```"

  /**
   * The fence-stripping step applied to the model's reply: the body of a
   * "```json" block, else the body of a plain "```" block, else the reply
   * unchanged. Whenever a fence was present, what remains has no fence and
   * no surrounding whitespace.
   */
  function StripFences(texto: string): (r: string)
    ensures !Contains(texto, FENCE) ==> r == texto
    ensures Contains(texto, FENCE) ==>
      !Contains(r, FENCE) && (r == [] || (!IsSpace(r[0]) && !IsSpace(r[|r| - 1])))
  {
    if Contains(texto, JSON_FENCE) then
      JsonFenceIsFence(texto, Find(texto, JSON_FENCE).value);
      var body := Split(Split(texto, JSON_FENCE)[1], FENCE)[0];
      StripLacks(body, FENCE);
      Strip(body)
    else if Contains(texto, FENCE) then
      var body := Split(texto, FENCE)[1];
      StripLacks(body, FENCE);
      Strip(body)
    else
      texto
  }

  /** Every "```json" marker also begins a "```" marker. */
  lemma JsonFenceIsFence(s: string, k: int)
    requires OccursAt(s, JSON_FENCE, k)
    ensures OccursAt(s, FENCE, k)
  {
    assert s[k..k + 3] == s[k..k + 7][..3];
  }

  /**
   * The closing fence after a "```json" marker is not followed by another
   * backtick (so no second "```json" can start inside it).
   */
  predicate ClosedCleanly(rest: string) {
    match Find(rest, FENCE)
    case None => true
    case Some(j) => j + |FENCE| == |rest| || rest[j + |FENCE|] != '`'
  }

  /** A "```json" starting one or two characters after a fence at `j` puts a backtick right after it. */
  lemma BacktickAfterFence(rest: string, j: int, k: int)
    requires OccursAt(rest, JSON_FENCE, k)
    ensures j < k < j + 3 ==> j + 3 < |rest| && rest[j + 3] == '`'
  {
    if j < k < j + 3 {
      assert rest[j + 3] == rest[k..k + 7][j + 3 - k];
    }
  }

  /**
   * Cutting at the next "```json" and then at the first "```" is the same as
   * cutting at the first "```", when that fence is closed cleanly.
   */
  lemma CutAtFence(rest: string)
    requires ClosedCleanly(rest)
    ensures UpTo(UpTo(rest, JSON_FENCE), FENCE) == UpTo(rest, FENCE)
  {
    match Find(rest, JSON_FENCE)
    case None =>
    case Some(k) =>
      JsonFenceIsFence(rest, k);
      var j := Find(rest, FENCE).value;
      assert j <= k;
      BacktickAfterFence(rest, j, k);
      FindInPrefix(rest, FENCE, k);
      if j + 3 <= k {
        assert rest[..k][..j] == rest[..j];
      }
  }

  /**
   * With a "```json" marker at `i`, the cleaned reply is the text between that
   * marker and the next "```", stripped, provided that closing fence is not
   * followed by another backtick.
   */
  lemma JsonFenceBody(texto: string, i: nat)
    requires Find(texto, JSON_FENCE) == Some(i)
    requires ClosedCleanly(texto[i + |JSON_FENCE|..])
    ensures StripFences(texto) == Strip(UpTo(texto[i + |JSON_FENCE|..], FENCE))
  {
    var rest := texto[i + |JSON_FENCE|..];
    SplitSecond(texto, JSON_FENCE, i);
    CutAtFence(rest);
  }

  /** Without "```json", the cleaned reply is the text between the first two fences, stripped. */
  lemma PlainFenceBody(texto: string, i: nat)
    requires !Contains(texto, JSON_FENCE) && Find(texto, FENCE) == Some(i)
    ensures StripFences(texto) == Strip(UpTo(texto[i + |FENCE|..], FENCE))
  {
    SplitSecond(texto, FENCE, i);
  }

  /** The reply of the completion service: its text, or a failure of the call. */
  datatype Completion = Completed(content: string) | ServiceFailure

  /** What `json.loads` returns: an object with the intent's keys, or some other JSON value. */
  datatype Loaded = JsonObject(intent: Intent) | JsonOther

  const PARSE_FALLBACK := "No pude entender el comando, pero encenderé la luz"
  const SERVICE_FALLBACK := "Hubo un error, pero encenderé la luz"

  /** The hardcoded intent returned on any failure: turn the light on, nothing else. */
  function Fallback(respuesta: string): (it: Intent)
    ensures PowerFor(it.accion) == Some(true)
    ensures it.color == None && it.intensidad == Missing && it.respuesta == Some(respuesta)
  {
    Intent(Some("encender"), None, Missing, Some(respuesta))
  }

  /** The reply text after `.strip()` and fence removal, as handed to `json.loads`. */
  function CleanReply(content: string): (r: string)
    ensures !Contains(Strip(content), FENCE) ==> r == Strip(content)
    ensures !Contains(r, FENCE)
    ensures r == [] || (!IsSpace(r[0]) && !IsSpace(r[|r| - 1]))
  {
    StripFences(Strip(content))
  }

  /**
   * The parsing half of `procesar_con_openai`. `loads` stands for
   * `json.loads`, `None` meaning it raised a decode error. A failed call or
   * an undecodable reply yields the fallback intent (with its own reply
   * text); a decodable reply is returned as decoded.
   */
  function ProcesarConOpenai(reply: Completion, loads: string -> Option<Loaded>): (r: Loaded)
    ensures (reply.ServiceFailure? || loads(CleanReply(reply.content)).None?) ==>
      && r.JsonObject? && r.intent.accion == Some("encender")
      && r.intent.color == None && r.intent.intensidad == Missing
    ensures reply.ServiceFailure? ==> r == JsonObject(Fallback(SERVICE_FALLBACK))
    ensures reply.Completed? && loads(CleanReply(reply.content)).None? ==>
      r == JsonObject(Fallback(PARSE_FALLBACK))
    ensures reply.Completed? && loads(CleanReply(reply.content)).Some? ==>
      r == loads(CleanReply(reply.content)).value
  {
    match reply
    case ServiceFailure => JsonObject(Fallback(SERVICE_FALLBACK))
    case Completed(content) =>
      match loads(CleanReply(content))
      case None => JsonObject(Fallback(PARSE_FALLBACK))
      case Some(v) => v
  }

  /** Whatever the failure, the fallback intent turns the light on and changes nothing else. */
  lemma FallbackTurnsOn(respuesta: string)
    ensures PowerFor(Fallback(respuesta).accion) == Some(true)
    ensures !Truthy(Fallback(respuesta).color) && Fallback(respuesta).intensidad == Missing
  {
  }
}
