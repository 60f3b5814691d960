# Movements view of the container-port manager, in Dafny

This project models the movements screen (`MovimientosView`) of a port container management system.
The screen lists movement records (Entrada, Salida, Carga, Descarga, Transferencia, Inspección) tied to
shipping containers. It filters them by type and shows a coloured badge per type. It creates, edits and
deletes them through a modal form backed by a REST API.

The model has three modules:

- `Movimientos` (`movimientos.dfy`) holds the backend and view record shapes and the mappers from one to the
  other. It models the JavaScript `x || ""` default exactly: absent and empty text are both falsy. It also
  holds the type filter and the badge table. `Outcomes` in the same file gives `Option`, `Result` and
  `ApiOutcome`, the shapes of awaited calls.
- `Timestamp` (`timestamp.dfy`) is the text step of the create path's date conversion:
  `toISOString().slice(0, 19).replace("T", " ")`.
- `MovimientosView` (`view.dfy`) holds the view state (`ViewState`, the nine `useState` fields). Each handler
  is a step function on that state: `Load`, `OpenModal`, `CloseModal`, `EditForm`, `SubmitStep`,
  `DeleteStep`. The class `View` keeps the same nine fields, and its methods update them in the handlers'
  own order. Each method's contract ties the new state to the step function. `Run` folds user events
  over the state, and `ReachableSettled` proves an invariant of every state reachable after the view mounts.

The outcomes of the network calls are inputs: a `LoadOutcome` for the combined fetch, an `ApiOutcome` for a
create, update or delete, and a boolean for the user's confirmation. The instant arithmetic of the create
path (`new Date`, `getTimezoneOffset`, `toISOString`) is the function parameter `shiftedIso`. The handlers
return the request they would send (`Create`, `Update`, `Delete`), or `None` when they send nothing.

Points of the code that the model keeps as written:

- The view record's timestamp is copied from `FECHA_MOVIMIENTO` unchanged, with no `|| ""` default
  (sgcp/src/views/MovimientosView.jsx:60), so a missing timestamp stays absent.
- On the create path the converted timestamp is written into the form state itself before the request
  is sent (:144), so a failed create does not leave the input as the user entered it. See Findings.
- The update path is chosen by the truthiness of the edit id (:132), so a record whose id is 0 is
  submitted as a create (`EditOfIdZeroCreates`).
- The create path subtracts the host's `getTimezoneOffset()` before `toISOString()` (:139-142), so the
  text sent is the local wall-clock time entered, not UTC (`OracleTimestampExample`).
- The date field's hint (:373) says an empty date stands for the current time, but the create path
  converts the empty text like any other and the conversion throws. See Findings.

## Model

`Movimientos.Truthy` (the JavaScript truthiness of nullable text, :58-61), `MovimientosView.IsEditing`
(`if (editingId)`, :132), `MovimientosView.FormFrom` (the edit form seeded from a record, :95-100) and
`MovimientosView.Converted` (the create body, :139-144) are definitions without contracts of their own.
What they mean is stated by the members that use them: `OrEmpty` and `ToMovimiento`, `EditOfIdZeroCreates`,
`OpenModal`, and `SubmitStep` with `SubmitWithCopyAgrees`.

| member | source | states |
|---|---|---|
| `Movimientos.OrEmpty` | sgcp/src/views/MovimientosView.jsx:58-61 | the `or ""` default on nullable text: the text when it is truthy (present and non-empty), `""` otherwise |
| `Movimientos.ToMovimiento` | sgcp/src/views/MovimientosView.jsx:55-62 | id, container id and timestamp are copied unchanged; container code, type and notes are the source text when truthy and `""` when absent or empty |
| `Movimientos.MapMovimientos` | sgcp/src/views/MovimientosView.jsx:55-62 | the mapped list has the input's length, and position i holds the mapping of input position i (order kept) |
| `Movimientos.ToContenedor` | sgcp/src/views/MovimientosView.jsx:65-69 | a selector entry keeps the container's id and code; the client name defaults to `""` when falsy |
| `Movimientos.MapContenedores` | sgcp/src/views/MovimientosView.jsx:65-69 | the container list keeps its length and order, entry by entry |
| `Movimientos.MapExample` | sgcp/src/views/MovimientosView.jsx:55-62 | the backend row (7, 3, "MSKU1", "Entrada", "2024-01-01 10:00:00", null) maps to a record with empty notes and the other fields unchanged |
| `Movimientos.FilterTipo` | sgcp/src/views/MovimientosView.jsx:41 | the result is no longer than the input, every kept record has type f, and every input record of type f is kept |
| `Movimientos.VisibleMovimientos` | sgcp/src/views/MovimientosView.jsx:39-41 | under "Todos" the rendered list is the whole list; under any other filter it is an in-order subsequence of the list whose every record has that type |
| `Movimientos.VisibleTodos` | sgcp/src/views/MovimientosView.jsx:39-40 | under "Todos" the visible list is the movement list unchanged |
| `Movimientos.FilterIsSubsequence` | sgcp/src/views/MovimientosView.jsx:41 | the filtered list is an in-order subsequence of the input |
| `Movimientos.FilterMultiset` | sgcp/src/views/MovimientosView.jsx:41 | each record occurs in the result as often as in the input when its type is f, and never otherwise |
| `Movimientos.VisibleOther` | sgcp/src/views/MovimientosView.jsx:39-41 | for any filter other than "Todos" the visible list is exactly the records of that type, in their original order |
| `Movimientos.TipoMovimientoBadge` | sgcp/src/views/MovimientosView.jsx:81-91 | each of the six types in the type list gets its table entry; the grey class is returned exactly for the types outside the list |
| `Movimientos.BadgeTable` | sgcp/src/views/MovimientosView.jsx:82-90 | the six listed classes, type by type, and grey for `""` |
| `Movimientos.ColorsLookup` | sgcp/src/views/MovimientosView.jsx:82-90 | property read `colors[tipo]` on the object literal: an own entry exactly for the six listed types, with the listed class; an inherited member exactly for the names `Object.prototype` provides; `undefined` otherwise |
| `Movimientos.BadgeAsWritten` | sgcp/src/views/MovimientosView.jsx:90 | the lookup as written never yields `undefined`: a missing key falls back to grey |
| `Movimientos.BadgeAsWrittenInherits` | sgcp/src/views/MovimientosView.jsx:90 | as written, a type named like an inherited `Object.prototype` member (such as "toString") yields that member, not grey; every other type gives the own-key badge |
| `Timestamp.Prefix` | sgcp/src/views/MovimientosView.jsx:140 | `slice(0, n)` is a prefix of the string, of length n or the whole string when shorter |
| `Timestamp.FirstIndex` | sgcp/src/views/MovimientosView.jsx:142 | the position holds the character, and no earlier position does |
| `Timestamp.ReplaceFirst` | sgcp/src/views/MovimientosView.jsx:142 | `replace` with a one-character pattern changes only the first occurrence, and nothing when there is none |
| `Timestamp.OracleTimestamp` | sgcp/src/views/MovimientosView.jsx:140-142 | the text sent has the length of the ISO string cut to 19; with no `T` among the first 19 characters it is that prefix; otherwise it is that prefix with its first `T`, and only that one, turned into a space |
| `Timestamp.OracleTimestampSplit` | sgcp/src/views/MovimientosView.jsx:140-142 | with the separator at position 10 and no earlier `T`, the text sent is the date, one space, and the eight time characters |
| `Timestamp.OracleTimestampOfIso` | sgcp/src/views/MovimientosView.jsx:140-142 | for any `YYYY-MM-DDTHH:mm:ss.sssZ` string the text sent is `YYYY-MM-DD HH:mm:ss`, 19 characters |
| `Timestamp.OracleTimestampOfParts` | sgcp/src/views/MovimientosView.jsx:140-142 | date + "T" + time + anything is sent as date + " " + time |
| `Timestamp.OracleTimestampExample` | sgcp/src/views/MovimientosView.jsx:138-142 | 09:30 entered at UTC-5: after subtracting the offset of +300 minutes the ISO string is 2024-06-01T09:30:00.000Z, so "2024-06-01 09:30:00", the local time, is sent |
| `MovimientosView.Load` | sgcp/src/views/MovimientosView.jsx:43-79 | loading ends false; a failure keeps both lists and sets "Error al cargar los datos: " + message; a success clears the error and replaces both lists with the mapped records; no other field changes |
| `MovimientosView.LoadReplacesWholesale` | sgcp/src/views/MovimientosView.jsx:71-72 | after a successful load the lists do not depend on what was loaded before |
| `MovimientosView.LoadIdempotent` | sgcp/src/views/MovimientosView.jsx:43-79 | loading twice with the same outcome is loading once |
| `MovimientosView.OpenModal` | sgcp/src/views/MovimientosView.jsx:93-112 | the modal opens; for a record the form holds its four fields and the edit id is its id; without one the form is reset and the edit id is null; nothing else changes |
| `MovimientosView.CloseModal` | sgcp/src/views/MovimientosView.jsx:114-123 | the modal is closed, the edit id null and the form reset; nothing else changes |
| `MovimientosView.CloseIdempotent` | sgcp/src/views/MovimientosView.jsx:114-123 | closing twice is closing once |
| `MovimientosView.CloseUndoesOpen` | sgcp/src/views/MovimientosView.jsx:93-123 | closing after opening, for a record or not, leaves the state that closing alone leaves |
| `MovimientosView.EditForm` | sgcp/src/views/MovimientosView.jsx:336-379 | an edit replaces exactly one form field with the entered text and keeps the other three |
| `MovimientosView.AfterSave` | sgcp/src/views/MovimientosView.jsx:148-154 | after a settled save: on success, reload then close; on failure, only the error changes, to "Error al guardar el movimiento: " + message |
| `MovimientosView.SubmitStep` | sgcp/src/views/MovimientosView.jsx:125-158 | submitting ends false and the filter is kept; a truthy edit id sends an update of the form unchanged; otherwise a create of the form with its converted timestamp, or no request and the save error when conversion throws; after a sent request, success is the reload (:148) followed by closing the modal (:149), with the error cleared first; failure changes only the error, to "Error al guardar el movimiento: " + message, and, on the create path, the form, which keeps the converted body that was sent |
| `MovimientosView.SubmitWithCopy` | sgcp/src/views/MovimientosView.jsx:138-145 | the corrected submit: when the save fails or nothing is sent, the form is left exactly as the user entered it |
| `MovimientosView.SubmitWithCopyAgrees` | sgcp/src/views/MovimientosView.jsx:144 | building the create body as a copy sends the same request as the written code, and reaches the same state except the form's timestamp after a failed create |
| `MovimientosView.FailedCreateKeepsSentText` | sgcp/src/views/MovimientosView.jsx:138-154 | as written, for any conversion that turns 09:30 entered into the UTC-5 ISO string, a failed create sends "2024-06-01 09:30:00" and leaves exactly that body in the form, with the save error set and nothing else changed |
| `MovimientosView.ResubmitAfterFailedCreate` | sgcp/src/views/MovimientosView.jsx:138-145 | as written, a failed create of 09:30 at UTC-5 leaves "2024-06-01 09:30:00" in the form in place of "2024-06-01T09:30"; an engine that reads that text as local time resubmits the same request; one that rejects it resubmits nothing and shows the save error with the engine's invalid-date message; the copy resubmits the original request on either |
| `MovimientosView.EmptyDateCreateFails` | sgcp/src/views/MovimientosView.jsx:138-145 | as written, submitting the create form as it opens, date left empty, sends nothing and shows the save error, since `new Date("")` is invalid and `toISOString` throws |
| `MovimientosView.DateOrNow` | sgcp/src/views/MovimientosView.jsx:373 | the corrected conversion: an empty date converts as the current instant; every other date converts as before |
| `MovimientosView.EmptyDateCreatesNow` | sgcp/src/views/MovimientosView.jsx:373 | with the corrected conversion, the create form submitted as it opens sends a create stamped with the current time, to the second |
| `MovimientosView.DeleteStep` | sgcp/src/views/MovimientosView.jsx:160-173 | declined: no request and no state change; confirmed: a delete of the id, then a reload on success or "Error al eliminar el movimiento: " + message on failure |
| `MovimientosView.ApplySettled` | sgcp/src/views/MovimientosView.jsx:43-173 | every handler keeps the view settled: nothing in flight, an edit id only while the modal is open, every error prefixed by what failed |
| `MovimientosView.RunSettled` | sgcp/src/views/MovimientosView.jsx:43-173 | any sequence of handlers keeps a settled view settled |
| `MovimientosView.ReachableSettled` | sgcp/src/views/MovimientosView.jsx:34-36 | every state reached from the load on mount, by any sequence of user events, is settled |
| `MovimientosView.EditOfIdZeroCreates` | sgcp/src/views/MovimientosView.jsx:132 | editing a record whose id is 0 submits a create (or nothing), never an update, because 0 is falsy |
| `MovimientosView.View.constructor` | sgcp/src/views/MovimientosView.jsx:18-31 | the initial state: empty lists, loading, no error, modal closed, no edit id, filter "Todos", default form |
| `MovimientosView.View.CargarDatos` | sgcp/src/views/MovimientosView.jsx:43-79 | the fields change as `Load` says; a failed load keeps both lists |
| `MovimientosView.View.SetFiltroTipo` | sgcp/src/views/MovimientosView.jsx:215-228 | only the filter changes |
| `MovimientosView.View.HandleOpenModal` | sgcp/src/views/MovimientosView.jsx:93-112 | the fields change as `OpenModal` says |
| `MovimientosView.View.HandleCloseModal` | sgcp/src/views/MovimientosView.jsx:114-123 | closed, no edit id, default form, as `CloseModal` says |
| `MovimientosView.View.SetFormData` | sgcp/src/views/MovimientosView.jsx:336-379 | only the form changes, as `EditForm` says |
| `MovimientosView.View.FinishSave` | sgcp/src/views/MovimientosView.jsx:148-154 | the fields change as `AfterSave` says |
| `MovimientosView.View.HandleSubmit` | sgcp/src/views/MovimientosView.jsx:125-158 | the fields and the request sent are those of `SubmitStep`, including the in-place write of the converted timestamp; submitting ends false |
| `MovimientosView.View.HandleDelete` | sgcp/src/views/MovimientosView.jsx:160-173 | the fields and the request are those of `DeleteStep`; a declined confirmation sends nothing and changes nothing |

## Findings

| source | as written | input that shows it | evidently intended | confidence | as-written member | corrected member |
|---|---|---|---|---|---|---|
| sgcp/src/views/MovimientosView.jsx:90 | `colors[tipo]`, or grey when that is falsy, also reads members that every object literal inherits from `Object.prototype` | `tipo = "toString"` returns the function `Object.prototype.toString`, not a class string | only the six own keys give classes; every other type gets the grey fallback | not executed; low impact, because the backend keeps the type column to six values | `Movimientos.BadgeAsWrittenInherits` | `Movimientos.TipoMovimientoBadge` |
| sgcp/src/views/MovimientosView.jsx:144 | the create path writes the converted timestamp into the form state before the request; when the request fails, the form holds "YYYY-MM-DD HH:mm:ss" instead of the `datetime-local` text the user entered, and a second submit parses that text again | enter 2024-06-01T09:30, the create fails, submit again on an engine that does not parse the space-separated form: no request, and the save error with the engine's invalid-date message | build the request body as a copy and leave the form as entered | not executed; low on V8, which parses the space-separated text as local time and so resubmits the same request; ECMAScript leaves that parse to the implementation | `MovimientosView.ResubmitAfterFailedCreate` | `MovimientosView.SubmitWithCopy` |
| sgcp/src/views/MovimientosView.jsx:138-142 | the create path converts the date text however it was entered; the hint at :373 says an empty date stands for the current time | open the create form, leave the date empty, submit: `new Date("")` is an invalid date, `toISOString` throws "Invalid time value", and no request is sent | an empty date is replaced by the current instant before conversion | not executed; high, the form's own default date is empty and the input is not `required` | `MovimientosView.EmptyDateCreateFails` | `MovimientosView.DateOrNow` |

The class method `View.HandleSubmit` models the handler as written, so it can be read against the source.
`SubmitWithCopyAgrees` proves the corrected step differs from it only in the form left after a failed create.
`EmptyDateCreatesNow` proves the submit with the corrected conversion `DateOrNow` sends the create the hint describes.

## Left out

- JSX markup, Tailwind classes and FontAwesome icons (:8-15, :175-409) are presentation; only the badge table is modelled.
- The API client `movimientosAPI` / `contenedoresAPI` is a foreign module. Only the outcome of each call is modelled, as an input, plus the request each handler would send.
- `Promise.all` and async interleaving: the combined load is one atomic step. The in-flight state (`loading` or `submitting` true, the spinner) is never visible between events. Overlapping handlers, such as a second submit before the first settles, are not modelled.
- The instant arithmetic of the create path (`new Date`, `getTimezoneOffset`, `toISOString`) depends on the host time zone and Date parsing. It is the opaque parameter `shiftedIso`. Only the `slice(0, 19).replace("T", " ")` formatting is modelled.
- `console.error` logging is not modelled. The text of the `window.confirm` prompt (:161) is not modelled; the user's answer is the boolean `confirmed`. HTML `required` validation is not modelled either.
- React's `useEffect` mount timing (:34-36) is framework lifecycle. The first load is the `Load` from `InitialState` in `ReachableSettled`.
- JavaScript `null` and `undefined` are both `None`. Backend identifiers are integers. `err.message` is a string input, so an error with no message (which the view would show as "undefined") is not told apart.
- `View.MovimientosFiltrados` is the rendered list (:39-41). Its properties are proved about `VisibleMovimientos` (`VisibleTodos`, `VisibleOther`).
