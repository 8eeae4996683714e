# Luminar light bridge — Dafny model

Luminar is a small Flask service that turns a spoken command into a smart-light
command. A language model extracts an intent (`accion`, `color`, `intensidad`,
`respuesta`) from the text. The service merges that intent into a single
in-memory record of the light, `estado_foco` (`encendido`, `color`,
`intensidad`). From the merged record it derives a Tuya command list and posts
it to the vendor cloud.

This project models that translation core:

- `wrappers.dfy` — `Option`.
- `pystr.dfy` (module `PyStr`) — the Python string operations the core uses:
  truthiness of an optional string, `str.strip()` with Python's Unicode
  whitespace, `in`/`str.find` and `str.split(sep)`. The code never calls
  `join`; `Join` is defined here only as the inverse of `Split`, for the
  round-trip lemma `JoinSplit`.
- `tuya.dfy` (module `Tuya`) — `COLOR_MAP`, the command codes and the command
  list derived from a stored state. It has lemmas for mode exclusivity, the
  layout of each mode, and the position of the power command.
- `intents.dfy` (module `Intents`) — the intent record, the action-to-power
  mapping, the code-fence stripping of the model's reply, and the fallback
  intent used when the reply is missing or undecodable.
- `foco.dfy` (module `Foco`) — the class `EstadoFoco`, whose fields are updated
  in place by `ControlarFocoReal` (`controlar_foco_real`), `ProcesarTexto` (the
  `/dialogflow` handler), `Encender` and `Apagar` (the force on/off handlers).
  It also holds the pure merge functions that specify those methods.

External collaborators are parameters. The vendor call's outcome is a boolean
`gatewayOk`. The completion service's answer is a `Completion`. `json.loads` is
a function `loads: string -> Option<Loaded>`, where `None` stands for a decode
error.

Points of the code's behaviour that the model makes explicit:

- The prompt offers five actions and six colours (app.py:111-112). An action
  outside the two lists at app.py:192-210 leaves `encendido` alone and sends no
  `switch_led`; see `Foco.UnknownActionKeepsPower`. Only the listed actions
  switch the light on or off.
- Any truthy colour string is stored (app.py:53-54), and a name missing from
  `COLOR_MAP` gets hue 0 (app.py:67).
- The split expression at app.py:146 cuts at the next ```` ```json ```` before
  it cuts at ```` ``` ````. When the closing fence is followed by more
  backticks, a ```` ```json ```` can start inside that run of four or five
  backticks. The segment then ends there and keeps one or two backticks. In
  every other case the result is the stripped text between the first
  ```` ```json ```` and the next ```` ``` ````; `Intents.JsonFenceBody` states
  this with the "not followed by a backtick" hypothesis.

## Model

| member | source | states |
|---|---|---|
| `PyStr.TextStart` | app.py:140 | the left scan of `strip()`: every character skipped is whitespace, and the scan stops at a non-whitespace character or at the end |
| `PyStr.TextEnd` | app.py:140 | the right scan of `strip()`: every character skipped is whitespace, and the scan stops after a non-whitespace character or at the left limit |
| `PyStr.Strip` | app.py:140 | `strip()` leaves no whitespace at either end and never lengthens the text |
| `PyStr.StripSlice` | app.py:146-149 | the stripped text is a contiguous slice of the input, with only whitespace outside it |
| `PyStr.StripLacks` | app.py:146-149 | stripping cannot introduce an occurrence of a pattern |
| `PyStr.StripIdempotent` | app.py:146-149 | stripping twice is the same as stripping once |
| `PyStr.FindFrom` | app.py:144 | the result is an occurrence at or after the start index, and no earlier occurrence exists; `None` means there is none |
| `PyStr.Find` | app.py:144 | the first occurrence of the pattern, or `None` when the pattern does not occur at all (Python's `in`) |
| `PyStr.FindInPrefix` | app.py:146 | in a prefix, the first occurrence is the whole string's first occurrence if it fits, otherwise there is none |
| `PyStr.UpTo` | app.py:146 | with no separator, the whole text; otherwise exactly the text before the first separator |
| `PyStr.Split` | app.py:146-149 | `split(sep)` gives at least one piece; it gives two or more exactly when the separator occurs; the first piece is the text before it; no piece contains the separator |
| `PyStr.SplitSecond` | app.py:149 | when the separator occurs at `i`, `[1]` exists and is the text after it up to the next separator |
| `PyStr.JoinSplit` | app.py:146-149 | joining the split pieces with the separator gives back the original text |
| `Tuya.Hue` | app.py:67 | `COLOR_MAP.get(color, 0)` is a hue in 0..359, 0 for an unknown colour |
| `Tuya.Brightness` | app.py:68 | the percentage on Tuya's scale is a multiple of 10 that divides back to the percentage, within 10..1000 for 1..100 |
| `Tuya.ModeCommands` | app.py:64-75 | the mode part has two entries in colour mode and one in white mode, ends with the HSV triple exactly in colour mode, and never holds `switch_led` |
| `Tuya.Commands` | app.py:64-80 | the derived list always has 1 to 3 entries, so it is never empty |
| `Tuya.ModeExclusive` | app.py:64-75 | `work_mode` and `colour_data_v2` are sent exactly when a colour is stored, `bright_value_v2` exactly when none is, never together |
| `Tuya.ColourModeLayout` | app.py:65-71 | colour mode opens with `work_mode="colour"`, then HSV with `h` from `COLOR_MAP` (0 if unknown), `s=1000`, `v=10*intensidad` |
| `Tuya.WhiteModeLayout` | app.py:72-75 | white mode opens with `bright_value_v2 = 10*intensidad` |
| `Tuya.PowerCommandLast` | app.py:77-80 | `switch_led` is present iff a power value is supplied, is then last with that value, and occurs nowhere else |
| `Intents.PowerFor` | app.py:190-210 | the on-actions give `true`, `apagar`/`luces.apagar` give `false`, any other or missing action gives no power change |
| `Intents.StripFences` | app.py:143-149 | with no fence the reply is unchanged; with a fence the result has no fence and no surrounding whitespace |
| `Intents.JsonFenceIsFence` | app.py:144-149 | every ```` ```json ```` marker is also a ```` ``` ```` marker, so the `elif` is reached only without one |
| `Intents.CutAtFence` | app.py:146 | cutting at the next ```` ```json ```` and then at ```` ``` ```` equals cutting at ```` ``` ```` when the fence is closed cleanly |
| `Intents.JsonFenceBody` | app.py:144-147 | with ```` ```json ```` at `i`, the result is the stripped text between it and the next ```` ``` ```` (fence not followed by a backtick) |
| `Intents.PlainFenceBody` | app.py:148-149 | without ```` ```json ````, the result is the stripped text between the first and second ```` ``` ```` |
| `Intents.Fallback` | app.py:155-168 | the fallback intent turns the light on, has no colour or intensity, and carries the given reply text |
| `Intents.CleanReply` | app.py:140-149 | the text handed to `json.loads` holds no fence and no surrounding whitespace, and equals the stripped reply when that holds no fence |
| `Intents.ProcesarConOpenai` | app.py:140-168 | any failure (of the call or of decoding) gives an intent with `accion="encender"` and no colour or intensity; a failed call gives the service fallback, an undecodable reply the parse fallback, a decoded reply is passed through |
| `Intents.FallbackTurnsOn` | app.py:153-168 | the fallback intent turns the light on and carries no colour or intensity |
| `Foco.Clamp` | app.py:59 | the result is in 1..100, equal to the input inside that range, 1 below it, 100 above it |
| `Foco.MergeColor` | app.py:53-54 | a truthy colour replaces the stored one, anything else keeps it; a stored colour is never cleared; only truthy colours get stored |
| `Foco.MergeIntensity` | app.py:56-62 | a numeric intensity is stored as `Clamp` of it (1 below the range, 100 above it, itself inside); a missing or non-numeric one leaves the stored value unchanged |
| `Foco.MergePower` | app.py:78-80 | a supplied power value becomes `encendido`; without one, `encendido` is kept |
| `Foco.UnknownActionKeepsPower` | app.py:190-215 | an unrecognised action keeps `encendido` and sends no `switch_led` |
| `Foco.RecognisedActionSetsPower` | app.py:192-210 | every on-action leaves the light on, even a colour- or intensity-only change; the off-actions leave it off |
| `Foco.UndecodableReplyTurnsOn` | app.py:151-160 | an undecodable reply switches the light on, keeps colour and intensity, and ends the commands with `switch_led=true` |
| `Foco.RedAtEightyScenario` | app.py:121 | "ponla roja al 80%" stores red at 80 with the light on and sends colour mode with hue 0 and v=800, then `switch_led=true` |
| `Foco.TurnOffScenario` | app.py:196-198 | `apagar` turns the light off, keeps colour and intensity, and sends the current mode's commands then `switch_led=false` |
| `Foco.EstadoFoco.constructor` | app.py:30-34 | the light starts off, with no colour and intensity 100 |
| `Foco.EstadoFoco.ControlarFocoReal` | app.py:49-96 | the new state is the merge of the old one with the arguments; the posted list is the one derived from the new state; the result is the gateway's answer, because the empty-list exit is never taken |
| `Foco.EstadoFoco.ProcesarTexto` | app.py:172-227 | empty text gives 400 and a non-object reply gives 500, both with nothing changed; otherwise the intent is merged with the action's power value, the derived commands are posted, and the reply echoes the new power state |
| `Foco.EstadoFoco.Estado` | app.py:230-232 | reports the power flag and changes nothing |
| `Foco.EstadoFoco.Encender` | app.py:235-239 | the light is on, colour and intensity are unchanged, and the current mode's commands are sent with `switch_led=true` |
| `Foco.EstadoFoco.Apagar` | app.py:242-246 | the light is off, colour and intensity are unchanged, and the current mode's commands are sent with `switch_led=false` |
| `Foco.EncenderThenApagar` | app.py:235-246 | force on then force off leaves the light off with colour and intensity unchanged |

## Left out

- The Tuya client (`TuyaOpenAPI`, `connect`, `openapi.post`, app.py:36-37 and 88-96) is an authenticated HTTP client. Its outcome is the boolean `gatewayOk`. A `False` or a transport error are the same to the model.
- The completion request and its prompt (app.py:103-138) call an external generative service. The answer is the `Completion` parameter, and `ServiceFailure` covers every exception, including a `None` message content.
- `json.loads` is a library parser. It is the parameter `loads`: `None` is a decode error, `JsonOther` a decoded value that is not an object.
- Fields of the decoded object are modelled as strings or absent. A non-string action never matches, as in the code. A non-string truthy colour is not modelled; an unhashable one would make `COLOR_MAP.get` raise after the state was updated.
- `int(intensidad)` is abstracted by `IntensityArg`: `Numeric(n)` when `int()` returns `n`, `NonNumeric` when it raises.
- Tuya.Brightness: uses the exact product `10 * intensidad`, not the floating-point `int((i / 100) * 1000)`. Any rounding of the float expression is not modelled.
- The Flask layer (routing, `request.get_json`, `jsonify`, app.py:171-246) is kept only as its effect on the state and as the `Response`/`Toggled` bodies. A body that is not JSON is not modelled.
- The environment and `.env` configuration (app.py:15-28, 249-254) are not modelled.
- Logging (`print`) is not modelled.
- Concurrent requests racing on `estado_foco` are not modelled; the model is sequential.
