# llamador-turnos: ticket pool, service windows and their handlers

This project models the core of the llamador-turnos backend, a ticket-calling
system for a waiting room. Each day has one ticket pool (`Cola`) holding the
numbers 1..100 still to hand out and the history of the ones already called.
Each service window (`Ventanilla`) has a number, a colour, the ticket it is
showing, its most recent calls and a free-text announcement. An operator's
"call next" takes the smallest available number from today's pool. It shows
the number zero-padded to three digits on the window and broadcasts it to the
public display. When ticket 100 is handed out, the pool starts over at 1.

The model has four modules:

- `Format` (`format.dfy`): `String(n).padStart(3, '0')` and reading the digits back.
- `ColaModel` (`cola.dfy`): the pool document, its operations as functions on
  documents, the reachable-state invariant, and a `Cola` class whose methods
  change a loaded document in place, as the Mongoose instance methods do.
- `VentanillaModel` (`ventanilla.dfy`): the window document, the schema's
  defaults and validators, and a `Ventanilla` class with the three instance
  methods.
- `Controlador` (`controlador.dfy`): the HTTP handlers as methods of a
  `Backend` class and the read-only queries as functions. The class holds the
  two collections and the log of emitted events.

Stored documents are values. A handler loads a document into a fresh object,
changes its fields, then saves by writing the object's document back into the
collection. The socket broadcast `io.emit` appends to `eventos`. The current
day and the current instant are parameters (`Dia`, `Instante`).

The main properties proved:

- Every ticket from 0 to 999 is shown as exactly three digits. Those digits read
  back as the ticket, so distinct tickets never share a display.
- In every reachable pool, the first `k` tickets were called in order and
  `k+1..100` are still waiting. Any run of calls hands out `k+1, k+2, …, 100,
  1, 2, …`. No call from a reachable pool fails, so the 400 answer of
  "call next" cannot happen from a reachable state.
- The pool's numbers stay partitioned between "available" and "called", and
  their union is always 1..100.
- A reset yields the initial pool from any state, keeps the date, and is
  idempotent.
- The recent-call list keeps the new ticket at its head and respects its bound
  (10 in the model method, 5 in the handler). After the head it keeps a prefix
  of the old list.
- Every handler is specified case by case, with its status code, its
  response, the new state of each collection and the events it emits. Each
  handler keeps ids and window numbers unique.

## Model

| member | source | states |
|---|---|---|
| Format.Decimal | llamador-turnos-Backend/src/models/Cola.js:76 | `String(n)` of a non-negative integer is a non-empty digit string with no leading zero |
| Format.JsString | llamador-turnos-Backend/src/models/Cola.js:76 | `String(n)` of an integer: never empty, and all digits exactly when `n` is not negative |
| Format.PadStart | llamador-turnos-Backend/src/models/Cola.js:76 | `padStart(3, '0')`: length is the larger of the width and the input's length, the input is the suffix, and everything before it is the pad character |
| Format.FormatearTurno | llamador-turnos-Backend/src/models/Cola.js:76 | `String(turno).padStart(3, '0')`: at least three characters, ending in `String(turno)`, and all digits for a non-negative ticket; `FormatoDeTurno`, `FormatoInyectivo` and `FormatoSinRelleno` say exactly what it shows |
| Format.ValorDeDecimal | llamador-turnos-Backend/src/models/Cola.js:76 | reading back the digits of `String(n)` gives `n` |
| Format.LongitudDecimal | llamador-turnos-Backend/src/models/Cola.js:76 | a number has 1, 2 or 3 digits below 10, 100 or 1000, and more than 3 from 1000 on |
| Format.CerosALaIzquierda | llamador-turnos-Backend/src/models/Cola.js:76 | leading zeros keep a digit string numeric and do not change its value |
| Format.FormatoDeTurno | llamador-turnos-Backend/src/models/Cola.js:76 | each ticket 0..999 is displayed as exactly three digits that read back as the ticket |
| Format.FormatoInyectivo | llamador-turnos-Backend/src/models/Cola.js:76 | distinct tickets below 1000 never share a displayed string |
| Format.FormatoSinRelleno | llamador-turnos-Backend/src/models/Cola.js:76 | from 1000 on, `padStart` adds nothing |
| ColaModel.Rango | llamador-turnos-Backend/src/models/Cola.js:47 | `Array.from({length: n}, (_, i) => i + lo)`: its length, and element `i` is `lo + i` |
| ColaModel.TurnosIniciales | llamador-turnos-Backend/src/models/Cola.js:47 | `Array.from({length: 100}, (_, i) => i + 1)` holds 100 numbers and element `i` is `i + 1` |
| ColaModel.Nueva | llamador-turnos-Backend/src/models/Cola.js:43-49 | the pool `obtenerColaHoy` creates is initial, dated today and stamped with its creation time; `NuevaEsInicial` adds that its next ticket is 1 |
| ColaModel.Siguiente | llamador-turnos-Backend/src/models/Cola.js:60-66 | `obtenerSiguiente` only returns an available number; `SiguienteEsCabeza` says it is null exactly on an empty list and otherwise the head |
| ColaModel.TrasResetear | llamador-turnos-Backend/src/models/Cola.js:105-110 | the fields `resetear` writes leave the pool initial, with its own date and `resetAt` set to the reset's instant; `ResetearDaInicial` and `ResetearPreservaParticion` give idempotence and the invariant |
| ColaModel.TrasAsignar | llamador-turnos-Backend/src/models/Cola.js:69-102 | `asignarTurno` keeps `fecha`, succeeds exactly when the head exists and is not 0, and then returns that head; `AsignarCasos`, `AsignarPreservaParticion` and `AsignarDesdeCanonica` give every case and the invariants |
| ColaModel.NuevaEsInicial | llamador-turnos-Backend/src/models/Cola.js:43-49 | a pool created for a day is initial: it keeps that date, holds 100 strictly ascending numbers, and its next ticket is 1 |
| ColaModel.InicialEsCanonica | llamador-turnos-Backend/src/models/Cola.js:43-49 | the initial pool is in the reachable shape |
| ColaModel.ResetearDaInicial | llamador-turnos-Backend/src/models/Cola.js:105-111 | `resetear` gives the initial pool from any state, keeps `fecha`, stamps `resetAt`, and is idempotent: only the last reset's instant matters |
| ColaModel.SiguienteEsCabeza | llamador-turnos-Backend/src/models/Cola.js:60-66 | `obtenerSiguiente` is null exactly when the list is empty, otherwise its head |
| ColaModel.AsignarCasos | llamador-turnos-Backend/src/models/Cola.js:69-102 | `asignarTurno` by case. Empty list: throws, nothing changes. Head 0 (falsy): throws, but the shift is kept. Any other head: returned padded, removed, recorded once and made current, with `resetAt` kept. Head 100: leaves an initial pool stamped with the call's instant |
| ColaModel.TrasElUltimoVieneElUno | llamador-turnos-Backend/src/models/Cola.js:87-101 | `esUltimo` is set exactly for ticket 100, and the call after it returns `"001"` |
| ColaModel.AsignarDesdeCanonica | llamador-turnos-Backend/src/models/Cola.js:69-102 | from a reachable pool with `k` calls, `asignarTurno` hands out `k+1` (padded), the pool stays reachable, and it then holds `k+1` calls, or none after ticket 100 |
| ColaModel.CanonicaTieneSiguiente | llamador-turnos-Backend/src/models/Cola.js:60-66 | in a reachable pool the next ticket always exists and is `k+1`, never 0 |
| ColaModel.CanonicaImplicaParticion | llamador-turnos-Backend/src/models/Cola.js:15-26 | a reachable pool satisfies the partition invariant: available numbers are strictly ascending, disjoint from the called ones, and together they are 1..100 |
| ColaModel.ResetearPreservaParticion | llamador-turnos-Backend/src/models/Cola.js:105-111 | the partition invariant holds after any reset |
| ColaModel.AsignarPreservaParticion | llamador-turnos-Backend/src/models/Cola.js:69-95 | `asignarTurno` keeps the partition invariant, and succeeds exactly when the list is non-empty |
| ColaModel.SecuenciaDesdeCanonica | llamador-turnos-Backend/src/models/Cola.js:69-102 | from a reachable pool with `k` calls, the i-th of any run of calls hands out `(k+i) % 100 + 1`: no call fails, numbers ascend, and 100 is followed by 1 |
| ColaModel.KesimoTurnoTrasReset | llamador-turnos-Backend/src/models/Cola.js:87-95 | after a reset, the k-th call hands out `(k-1) % 100 + 1`, so the first 100 calls hand out 1..100 in order |
| ColaModel.Cola.constructor | llamador-turnos-Backend/src/models/Cola.js:41-54 | a loaded pool object holds exactly the stored document |
| ColaModel.Cola.ObtenerSiguiente | llamador-turnos-Backend/src/models/Cola.js:60-66 | null exactly when no number is left, otherwise the head; changes nothing |
| ColaModel.Cola.AsignarTurno | llamador-turnos-Backend/src/models/Cola.js:69-102 | the in-place shift, push and wrap leave the object holding exactly `TrasAsignar`'s pool, return exactly its result, and keep `fecha`; `AsignarCasos` and the invariant lemmas say what that pool and result are |
| ColaModel.Cola.Resetear | llamador-turnos-Backend/src/models/Cola.js:105-111 | the object ends in the initial pool for its own date |
| VentanillaModel.ColorDe | llamador-turnos-Backend/src/models/Ventanilla.js:9-13 | the `enum` validator accepts a string only as the name of the colour it returns |
| VentanillaModel.ColorIdaYVuelta | llamador-turnos-Backend/src/models/Ventanilla.js:9-13 | every colour's name is accepted as that colour, and exactly the four names are accepted |
| VentanillaModel.Primeros | llamador-turnos-Backend/src/models/Ventanilla.js:44-45 | `slice(0, n)` keeps the first `n` entries, or all of them when there are fewer |
| VentanillaModel.Recientes | llamador-turnos-Backend/src/models/Ventanilla.js:43-46 | `unshift` then `slice(0, bound)` gives a prefix of `[t, ...old]` within the bound that starts with `t`; `RecientesAcotada` gives its exact length |
| VentanillaModel.RecientesAcotada | llamador-turnos-Backend/src/models/Ventanilla.js:43-46 | after `unshift` and `slice(0, bound)`: length is `min(old + 1, bound)`, the new ticket is first, and the rest is a prefix of the old list |
| VentanillaModel.RecientesConserva | llamador-turnos-Backend/src/models/Ventanilla.js:43-46 | when below the bound, nothing is dropped: the new list is the ticket followed by the whole old list |
| VentanillaModel.Construir | llamador-turnos-Backend/src/models/Ventanilla.js:3-34 | `new Ventanilla(body)` then `save()`: a saved window passes the validators and has the given id and number; a rejected body fails with the validation error. `ConstruirValida` and `ConstruirPorDefecto` say exactly when it is accepted and what defaults it takes |
| VentanillaModel.ConstruirValida | llamador-turnos-Backend/src/models/Ventanilla.js:3-34 | `new Ventanilla(body).save()` validates exactly when `numero` is present, a given colour is one of the four names, and a given `anuncio` is at most 200 characters. The saved document has the given id and number and passes the validators |
| VentanillaModel.ConstruirPorDefecto | llamador-turnos-Backend/src/models/Ventanilla.js:3-34 | a body holding only a number yields the defaults: green, `"000"`, no history, no announcement, active, no operator |
| VentanillaModel.Limpia | llamador-turnos-Backend/src/models/Ventanilla.js:56-61 | a cleared window passes the validators and keeps its id and number; `LimpiaPropiedades` gives every field |
| VentanillaModel.LimpiaPropiedades | llamador-turnos-Backend/src/models/Ventanilla.js:56-61 | clearing sets `"000"`, no history and no announcement; it changes nothing else, always validates and is idempotent |
| VentanillaModel.Ventanilla.constructor | llamador-turnos-Backend/src/models/Ventanilla.js:3-34 | a loaded window object holds exactly the stored document |
| VentanillaModel.Ventanilla.AsignarTurno | llamador-turnos-Backend/src/models/Ventanilla.js:39-49 | the window shows the ticket, which heads its history of at most 10; nothing else changes; the save succeeds exactly when the announcement is within 200 characters |
| VentanillaModel.Ventanilla.ActualizarAnuncio | llamador-turnos-Backend/src/models/Ventanilla.js:51-54 | only the announcement changes; the save fails exactly when the text is over 200 characters |
| VentanillaModel.Ventanilla.Limpiar | llamador-turnos-Backend/src/models/Ventanilla.js:56-61 | the object holds the cleared document and the save always succeeds |
| Controlador.Buscar | llamador-turnos-Backend/src/controllers/ventanillaController.js:28 | `findById` returns a position holding that id, or nothing exactly when no window has it |
| Controlador.ExisteNumero | llamador-turnos-Backend/src/models/Ventanilla.js:4-8 | the unique-index check holds exactly when some stored window already has that number |
| Controlador.Activas | llamador-turnos-Backend/src/controllers/ventanillaController.js:18 | `find({activa: true})` keeps exactly the active windows, with their multiplicities |
| Controlador.OrdenarPorNumero | llamador-turnos-Backend/src/controllers/ventanillaController.js:8 | `.sort({numero: 1})` is ascending by number and a permutation of its input |
| Controlador.LimpiarTodas | llamador-turnos-Backend/src/controllers/ventanillaController.js:136 | `updateMany` clears every window in place and keeps their count and order |
| Controlador.TextoAnuncio | llamador-turnos-Backend/src/controllers/ventanillaController.js:89 | the fallback to `''` for a missing `anuncio`: the given announcement, or the empty string when none is given |
| Controlador.Llamada | llamador-turnos-Backend/src/controllers/ventanillaController.js:51-53 | the window after the call keeps its id, number, colour and announcement, shows the ticket, and holds at most 5 recent calls headed by it |
| Controlador.HayTurno | llamador-turnos-Backend/src/controllers/ventanillaController.js:43-45 | the test `!siguiente` passes exactly when `obtenerSiguiente` returns a number other than 0 |
| Controlador.ColaHoy | llamador-turnos-Backend/src/models/Cola.js:37-55 | `obtenerColaHoy` returns the pool stored for today, or a new initial pool dated today |
| Controlador.ConColaHoy | llamador-turnos-Backend/src/models/Cola.js:41-49 | after `obtenerColaHoy` the collection holds today's pool and keeps every pool it had |
| Controlador.TrasLlamarSiguiente | llamador-turnos-Backend/src/controllers/ventanillaController.js:37-67 | `llamarSiguiente` keeps the number of windows and emits at most one event; `LlamarSiguienteCasos`, `LlamarSiguienteEntrega`, `LlamarSiguienteConservaValid` and `LlamarSiguienteDesdeAlcanzable` give its outcomes and invariants |
| Controlador.MostrarLlamado | llamador-turnos-Backend/src/controllers/ventanillaController.js:51-53 | after the three field updates, the window shows the ticket at the head of its 5 most recent calls |
| Controlador.LlamarSiguienteEntrega | llamador-turnos-Backend/src/controllers/ventanillaController.js:47-63 | once a ticket is handed out, the pool is saved in both outcomes. If the window validates, it is saved, the call is broadcast, and the window is returned. Otherwise only a 500 follows |
| Controlador.LlamarSiguienteCasos | llamador-turnos-Backend/src/controllers/ventanillaController.js:37-67 | outcomes of `llamarSiguiente`: 404 exactly for an unknown window, 400 exactly when there is no usable next ticket, otherwise 200 or 500. Only a 200 changes a window or emits anything, and a 404 or 400 leaves the pool collection as it was. On 200 the window shows the pool's ticket, at the head of at most 5 recent calls, and exactly one `turno:llamado` is emitted |
| Controlador.LlamarSiguienteConservaValid | llamador-turnos-Backend/src/controllers/ventanillaController.js:37-67 | `llamarSiguiente` keeps ids and numbers unique, and every pool stored under its own date |
| Controlador.LlamarSiguienteDesdeAlcanzable | llamador-turnos-Backend/src/controllers/ventanillaController.js:42-47 | from reachable pools, `llamarSiguiente` never answers 400, and it hands out the ticket after today's last call (`"001"` on a new day). Every pool stays reachable, and today's then holds `k+1` calls, or none after ticket 100 |
| Controlador.Backend.constructor | llamador-turnos-Backend/src/models/Ventanilla.js:63 | the backend starts with both collections and the event log empty, in a reachable state |
| Controlador.Backend.ObtenerColaHoy | llamador-turnos-Backend/src/models/Cola.js:37-55 | `obtenerColaHoy` returns the stored pool for today, or creates and stores the initial one; it keeps the dates and reachability |
| Controlador.Backend.ObtenerTodas | llamador-turnos-Backend/src/controllers/ventanillaController.js:6-13 | answers 200 with every window, sorted by number, as a permutation of the collection |
| Controlador.Backend.ObtenerActivas | llamador-turnos-Backend/src/controllers/ventanillaController.js:16-23 | answers 200 with exactly the active windows, sorted by number, with their multiplicities |
| Controlador.Backend.ObtenerPorId | llamador-turnos-Backend/src/controllers/ventanillaController.js:26-34 | answers 200 with the window of that id exactly when one exists, and otherwise 404 `No encontrada` |
| Controlador.Backend.EstadoCola | llamador-turnos-Backend/src/controllers/ventanillaController.js:122-129 | answers with today's pool, which it creates if missing |
| Controlador.Backend.LlamarSiguiente | llamador-turnos-Backend/src/controllers/ventanillaController.js:37-67 | the in-place handler leaves both collections, the emitted events and the reply exactly as `TrasLlamarSiguiente` says; the lemmas above state what that means |
| Controlador.Backend.ReLlamar | llamador-turnos-Backend/src/controllers/ventanillaController.js:70-81 | changes no document. For a known window, it emits `turno:rellamado` with the window's number and current ticket and answers 200. For an unknown id, it answers 500 and emits nothing |
| Controlador.Backend.ActualizarAnuncio | llamador-turnos-Backend/src/controllers/ventanillaController.js:84-105 | for an unknown id, 404 and nothing changes. Otherwise it stores the given announcement, or the empty string when none is given, with no length check, emits `anuncio:actualizado`, and returns the updated window |
| Controlador.Backend.Limpiar | llamador-turnos-Backend/src/controllers/ventanillaController.js:108-119 | clears that one window and returns it; an unknown id answers 200 with `data: null` |
| Controlador.Backend.ResetearCola | llamador-turnos-Backend/src/controllers/ventanillaController.js:132-142 | today's pool becomes the initial one, whose next ticket is 1. Every window is cleared. It emits `cola:reseteada` with `Cola reiniciada` and answers 200 `Reiniciado` |
| Controlador.Backend.Crear | llamador-turnos-Backend/src/controllers/ventanillaController.js:145-153 | a body failing validation, or a number already taken, answers 500 and stores nothing. Otherwise the built window is appended and returned with 201. The id counter advances exactly on a 201 |
| Controlador.PrimerLlamado | llamador-turnos-Backend/src/controllers/ventanillaController.js:37-63 | on a fresh database, creating window 1 and calling next gives a green window showing `"001"` that is its only recent call |

## Left out

- String lengths are counted in characters, not in UTF-16 code units. JavaScript's `.length`, which Mongoose's `maxlength: 200` checks, counts a character outside the Basic Multilingual Plane as two. So an announcement of 101 to 200 such characters is accepted by `Guardable` but rejected by the source. This affects `crear`, both instance-method saves and the 500 branch of `llamarSiguiente`.
- Numbers are integers. JavaScript's `Number` is a double: `String(n)` of a fraction, or of a value from 1e21 on, is not a digit string. Ticket numbers in the source are small integers.
- Persistence: MongoDB is replaced by in-memory collections. A document id is a
  natural number taken from a counter, so the 500 a malformed id causes is not
  modelled. Database failures behind the `catch` blocks are not modelled
  either. The `timestamps` fields `createdAt` and `updatedAt` are not modelled.
- HTTP: only status, `success`, `message` and `data` are kept. A reply without
  a `message` has the empty string. The texts of the errors Mongoose or the
  runtime raise (validation, duplicate key, reading a field of `null`) are
  fixed labels of this model.
- Request bodies are typed: Mongoose's casting of strings to numbers and
  booleans, and extra fields such as `_id`, are not modelled.
- The socket layer (`SocketManager.js`, rooms, connections): `io.emit` is an
  append to the event log, and delivery is not modelled.
- Concurrency: each handler runs atomically. The interleavings the backend
  permits between two concurrent calls are not modelled.
- Time: `new Date()` truncated to midnight is the parameter `hoy`, and
  `Date.now` or `new Date()` is the parameter `ahora`. Both are opaque values.
- `console.log` output, `server.js` wiring, the routes file, the seed script
  and the React frontend are not part of this model.
- Controlador.Backend.LlamarSiguiente: its own contract does not repeat
  `Valid()` or reachability. Those are proved about `TrasLlamarSiguiente` by
  `LlamarSiguienteConservaValid` and `LlamarSiguienteDesdeAlcanzable`, which
  keeps the method's proof small.
- Behaviour of the code worth noting:
  - `crear` accepts any number, including 0 and negatives; there is no
    "invalid number" check.
  - `actualizarAnuncio` goes through `findByIdAndUpdate`, which runs no
    validators, so an announcement over 200 characters is stored.
  - Windows keep two different history bounds: 10 in the instance method and 5
    in `llamarSiguiente`.
  - `asignarTurno` throws on a head of 0 as well as on an empty list, because
    it tests a falsy value.
  - `reLlamar` on an unknown id answers 500, not 404.
  - `limpiar` on an unknown id answers 200 with `data: null`.
  - Toggling a window's `activa` flag and deleting a window have no handler in
    the code.
- In `llamarSiguiente` the pool is saved before the window. If the window then
  fails validation, the answer is 500, but the ticket stays consumed. The model
  states this behaviour (`LlamarSiguienteEntrega`) rather than treating it as
  an error.
