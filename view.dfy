/** The movements view: its state, the handlers that change it, and what they keep invariant.
    Each handler is a step function on `ViewState`; the class `View` holds the same state in fields
    and its methods perform the steps in the handlers' own order. */
module MovimientosView {
  import opened Outcomes
  import opened Movimientos
  import opened Timestamp

  /** The container chosen in the form: a number when seeded from a record, the selector's text once
      the user picks one. */
  datatype ContainerKey = KeyNumber(n: int) | KeyText(s: string)

  /** The four fields of the create/edit form, which are also the body of a create or update request. */
  datatype FormData = FormData(
    idContenedor: ContainerKey,
    tipoMovimiento: string,
    fechaMovimiento: Option<string>,
    observaciones: string)

  /** The form as the view first shows it and as every reset leaves it. */
  const DefaultForm: FormData := FormData(KeyText(""), "Entrada", Some(""), "")

  /** Every piece of state the view holds. */
  datatype ViewState = ViewState(
    movimientos: seq<Movimiento>,
    contenedores: seq<Contenedor>,
    loading: bool,
    error: Option<string>,
    isModalOpen: bool,
    editingId: Option<int>,
    submitting: bool,
    filtroTipo: string,
    formData: FormData)

  /** The state before the first load. */
  const InitialState: ViewState := ViewState([], [], true, None, false, None, false, Todos, DefaultForm)

  /** The combined outcome of fetching all movements and all containers. */
  datatype LoadOutcome =
    | Loaded(backendMovimientos: seq<BackendMovimiento>, backendContenedores: seq<BackendContenedor>)
    | LoadFailed(message: string)

  /** A mutating request the view sends. */
  datatype Request = Create(body: FormData) | Update(id: int, body: FormData) | Delete(id: int)

  /** The state after a handler, and the request it sent, if any. */
  datatype Step = Step(state: ViewState, request: Option<Request>)

  const LoadErrorPrefix: string := "Error al cargar los datos: "
  const SaveErrorPrefix: string := "Error al guardar el movimiento: "
  const DeleteErrorPrefix: string := "Error al eliminar el movimiento: "

  /** `if (editingId)`: a missing id and the id 0 are both falsy. */
  predicate IsEditing(editingId: Option<int>) {
    editingId.Some? && editingId.value != 0
  }

  // ---------------------------------------------------------------------------------------------
  // Loading
  // ---------------------------------------------------------------------------------------------

  /** Loading: both lists replaced on success; on failure the lists stay and the error is reported.
      Loading ends false either way, and nothing outside these four fields changes. */
  function Load(s: ViewState, outcome: LoadOutcome): (t: ViewState)
    ensures !t.loading
    ensures t.(movimientos := s.movimientos, contenedores := s.contenedores, loading := s.loading, error := s.error) == s
    ensures outcome.LoadFailed? ==>
      t.movimientos == s.movimientos && t.contenedores == s.contenedores &&
      t.error == Some(LoadErrorPrefix + outcome.message)
    ensures outcome.Loaded? ==>
      t.error == None &&
      t.movimientos == MapMovimientos(outcome.backendMovimientos) &&
      t.contenedores == MapContenedores(outcome.backendContenedores)
  {
    var s1 := s.(loading := true, error := None);
    var s2 := match outcome
      case Loaded(bm, bc) => s1.(movimientos := MapMovimientos(bm), contenedores := MapContenedores(bc))
      case LoadFailed(msg) => s1.(error := Some(LoadErrorPrefix + msg));
    s2.(loading := false)
  }

  /** A successful load replaces the lists wholesale: what was there before does not matter. */
  lemma LoadReplacesWholesale(s: ViewState, s': ViewState, bm: seq<BackendMovimiento>, bc: seq<BackendContenedor>)
    ensures Load(s, Loaded(bm, bc)).movimientos == Load(s', Loaded(bm, bc)).movimientos
    ensures Load(s, Loaded(bm, bc)).contenedores == Load(s', Loaded(bm, bc)).contenedores
  {
  }

  /** Loading again with the same outcome changes nothing more. */
  lemma LoadIdempotent(s: ViewState, outcome: LoadOutcome)
    ensures Load(Load(s, outcome), outcome) == Load(s, outcome)
  {
  }

  // ---------------------------------------------------------------------------------------------
  // The modal form
  // ---------------------------------------------------------------------------------------------

  /** The form seeded from a record's four fields. */
  function FormFrom(m: Movimiento): FormData {
    FormData(KeyNumber(m.idContenedor), m.tipoMovimiento, m.fechaMovimiento, m.observaciones)
  }

  /** Opening the modal, for a record (edit) or without one (create). */
  function OpenModal(s: ViewState, rec: Option<Movimiento>): (t: ViewState)
    ensures t.isModalOpen
    ensures rec.Some? ==>
      t.editingId == Some(rec.value.id) &&
      t.formData.idContenedor == KeyNumber(rec.value.idContenedor) &&
      t.formData.tipoMovimiento == rec.value.tipoMovimiento &&
      t.formData.fechaMovimiento == rec.value.fechaMovimiento &&
      t.formData.observaciones == rec.value.observaciones
    ensures rec.None? ==> t.editingId == None && t.formData == DefaultForm
    ensures t.(isModalOpen := s.isModalOpen, editingId := s.editingId, formData := s.formData) == s
  {
    match rec
    case Some(m) => s.(formData := FormFrom(m), editingId := Some(m.id), isModalOpen := true)
    case None => s.(formData := DefaultForm, editingId := None, isModalOpen := true)
  }

  /** Closing the modal: closed, not editing, form reset; nothing else changes. */
  function CloseModal(s: ViewState): (t: ViewState)
    ensures !t.isModalOpen && t.editingId == None && t.formData == DefaultForm
    ensures t.(isModalOpen := s.isModalOpen, editingId := s.editingId, formData := s.formData) == s
  {
    s.(isModalOpen := false, editingId := None, formData := DefaultForm)
  }

  /** Closing twice is closing once. */
  lemma CloseIdempotent(s: ViewState)
    ensures CloseModal(CloseModal(s)) == CloseModal(s)
  {
  }

  /** Closing after opening, for any record, leaves what closing alone leaves. */
  lemma CloseUndoesOpen(s: ViewState, rec: Option<Movimiento>)
    ensures CloseModal(OpenModal(s, rec)) == CloseModal(s)
  {
  }

  /** An edit the user makes to one form field. The selector, the date input and the text area all
      report their value as text. */
  datatype FormEdit =
    | SetContenedor(value: string)
    | SetTipo(value: string)
    | SetFecha(value: string)
    | SetObservaciones(value: string)

  /** The form with one field replaced and the other three kept. */
  function EditForm(f: FormData, e: FormEdit): (g: FormData)
    ensures e.SetContenedor? ==> g == f.(idContenedor := KeyText(e.value))
    ensures e.SetTipo? ==> g == f.(tipoMovimiento := e.value)
    ensures e.SetFecha? ==> g == f.(fechaMovimiento := Some(e.value))
    ensures e.SetObservaciones? ==> g == f.(observaciones := e.value)
  {
    match e
    case SetContenedor(v) => f.(idContenedor := KeyText(v))
    case SetTipo(v) => f.(tipoMovimiento := v)
    case SetFecha(v) => f.(fechaMovimiento := Some(v))
    case SetObservaciones(v) => f.(observaciones := v)
  }

  // ---------------------------------------------------------------------------------------------
  // Submitting the form
  // ---------------------------------------------------------------------------------------------

  /** What follows an awaited create or update: reload then close on success, report on failure. */
  function AfterSave(s: ViewState, api: ApiOutcome, reload: LoadOutcome): (t: ViewState)
    ensures api.Success? ==> t == CloseModal(Load(s, reload))
    ensures api.Failure? ==> t == s.(error := Some(SaveErrorPrefix + api.message))
  {
    match api
    case Success => CloseModal(Load(s, reload))
    case Failure(msg) => s.(error := Some(SaveErrorPrefix + msg))
  }

  /** The create body: the form with its timestamp replaced by the text sent to the backend. */
  function Converted(f: FormData, iso: string): FormData {
    f.(fechaMovimiento := Some(OracleTimestamp(iso)))
  }

  /** Submitting the form as the view does it. `shiftedIso` is the opaque instant arithmetic: the ISO
      string of the entered local time shifted by the host's offset, or the error `toISOString` throws.
      On the create path the converted timestamp is written into the form itself before the request. */
  function SubmitStep(s: ViewState, api: ApiOutcome, reload: LoadOutcome, shiftedIso: Option<string> -> Result<string>): (r: Step)
    ensures !r.state.submitting
    ensures r.state.filtroTipo == s.filtroTipo
    ensures IsEditing(s.editingId) ==> r.request == Some(Update(s.editingId.value, s.formData))
    ensures !IsEditing(s.editingId) ==>
      match shiftedIso(s.formData.fechaMovimiento)
      case Ok(iso) => r.request == Some(Create(Converted(s.formData, iso)))
      case Err(msg) => r.request == None && r.state == s.(submitting := false, error := Some(SaveErrorPrefix + msg))
    ensures r.request.Some? && api.Success? ==>
      r.state == CloseModal(Load(s.(submitting := false, error := None), reload))
    ensures r.request.Some? && api.Success? ==>
      !r.state.isModalOpen && r.state.editingId == None && r.state.formData == DefaultForm && !r.state.loading
    ensures r.request.Some? && api.Failure? ==>
      r.state.isModalOpen == s.isModalOpen && r.state.editingId == s.editingId &&
      r.state.movimientos == s.movimientos && r.state.error == Some(SaveErrorPrefix + api.message)
    ensures r.request.Some? && api.Failure? ==>
      r.state == s.(submitting := false, error := Some(SaveErrorPrefix + api.message),
                    formData := if IsEditing(s.editingId) then s.formData else r.request.value.body)
  {
    var s1 := s.(submitting := true, error := None);
    var r :=
      if IsEditing(s1.editingId) then
        Step(AfterSave(s1, api, reload), Some(Update(s1.editingId.value, s1.formData)))
      else
        match shiftedIso(s1.formData.fechaMovimiento)
        case Err(msg) => Step(s1.(error := Some(SaveErrorPrefix + msg)), None)
        case Ok(iso) =>
          var s2 := s1.(formData := Converted(s1.formData, iso));
          Step(AfterSave(s2, api, reload), Some(Create(s2.formData)));
    r.(state := r.state.(submitting := false))
  }

  /** Submitting with the create body built as a copy, leaving the form as the user entered it. */
  function SubmitWithCopy(s: ViewState, api: ApiOutcome, reload: LoadOutcome, shiftedIso: Option<string> -> Result<string>): (r: Step)
    ensures !r.state.submitting
    ensures api.Failure? || r.request.None? ==> r.state.formData == s.formData
  {
    var s1 := s.(submitting := true, error := None);
    var r :=
      if IsEditing(s1.editingId) then
        Step(AfterSave(s1, api, reload), Some(Update(s1.editingId.value, s1.formData)))
      else
        match shiftedIso(s1.formData.fechaMovimiento)
        case Err(msg) => Step(s1.(error := Some(SaveErrorPrefix + msg)), None)
        case Ok(iso) => Step(AfterSave(s1, api, reload), Some(Create(Converted(s1.formData, iso))));
    r.(state := r.state.(submitting := false))
  }

  /** Building a copy sends the same request and reaches the same state, except that after a failed
      create the form keeps the entered timestamp instead of the converted one. */
  lemma SubmitWithCopyAgrees(s: ViewState, api: ApiOutcome, reload: LoadOutcome, shiftedIso: Option<string> -> Result<string>)
    ensures SubmitWithCopy(s, api, reload, shiftedIso).request == SubmitStep(s, api, reload, shiftedIso).request
    ensures var written, copied := SubmitStep(s, api, reload, shiftedIso).state, SubmitWithCopy(s, api, reload, shiftedIso).state;
      if !IsEditing(s.editingId) && shiftedIso(s.formData.fechaMovimiento).Ok? && api.Failure? then
        written == copied.(formData := Converted(s.formData, shiftedIso(s.formData.fechaMovimiento).value))
      else written == copied
  {
  }

  /** A local time a user enters, and the text the view sends for it on a host at UTC-5. */
  const EnteredLocal: string := "2024-06-01T09:30"
  const SentText: string := "2024-06-01" + " " + "09:30:00"

  /** The ISO string of the shifted instant for both texts, on a host at UTC-5 whose engine reads the
      space-separated text as local time as well. */
  function LocalReadAtUtcMinus5(d: Option<string>): Result<string> {
    if d == Some(EnteredLocal) || d == Some(SentText) then Ok("2024-06-01" + "T" + "09:30:00" + ".000Z")
    else Err("Invalid time value")
  }

  /** The message of the `RangeError` that `toISOString` throws on an invalid date. Its text is
      engine-specific; this constant stands for whatever the engine reports. */
  const RejectedDate: string := "invalid date"

  /** The same host with an engine that reads only the `datetime-local` form: ECMAScript leaves the
      parsing of the space-separated text to the implementation, and an engine may return an invalid
      date for it. */
  function IsoOnlyAtUtcMinus5(d: Option<string>): Result<string> {
    if d == Some(EnteredLocal) then Ok("2024-06-01" + "T" + "09:30:00" + ".000Z")
    else Err(RejectedDate)
  }

  /** The create form on a host at UTC-5, with the example's local time entered. */
  const EnteredForm: FormData := DefaultForm.(fechaMovimiento := Some(EnteredLocal))
  const CreateStart: ViewState := InitialState.(loading := false, isModalOpen := true, formData := EnteredForm)

  /** The create body sent for that form. */
  const SentForm: FormData := DefaultForm.(fechaMovimiento := Some(SentText))

  /** On any engine that converts the entered text as a UTC-5 host does, a create that fails sends
      the converted body and leaves that body in the form, still on the create path. */
  lemma FailedCreateKeepsSentText(shiftedIso: Option<string> -> Result<string>)
    requires shiftedIso(Some(EnteredLocal)) == Ok("2024-06-01" + "T" + "09:30:00" + ".000Z")
    ensures var first := SubmitStep(CreateStart, Failure("Network Error"), LoadFailed(""), shiftedIso);
      first.request == Some(Create(SentForm)) &&
      first.state == CreateStart.(formData := SentForm, error := Some(SaveErrorPrefix + "Network Error"))
  {
    OracleTimestampExample();
  }

  /** A create that fails leaves the sent text in the form, in place of what the user entered. Where the
      engine reads that text back as local time, submitting again sends the same request; where it does
      not, submitting again sends nothing and reports the engine's invalid-date error. Built as a copy,
      the second submission sends the original request on either engine. */
  lemma ResubmitAfterFailedCreate()
    ensures var first := SubmitStep(CreateStart, Failure("Network Error"), LoadFailed(""), LocalReadAtUtcMinus5);
      var second := SubmitStep(first.state, Success, Loaded([], []), LocalReadAtUtcMinus5);
      var firstIso := SubmitStep(CreateStart, Failure("Network Error"), LoadFailed(""), IsoOnlyAtUtcMinus5);
      var secondIso := SubmitStep(firstIso.state, Success, Loaded([], []), IsoOnlyAtUtcMinus5);
      var firstCopy := SubmitWithCopy(CreateStart, Failure("Network Error"), LoadFailed(""), IsoOnlyAtUtcMinus5);
      var secondCopy := SubmitWithCopy(firstCopy.state, Success, Loaded([], []), IsoOnlyAtUtcMinus5);
      first.request == Some(Create(SentForm)) &&
      first.state.formData.fechaMovimiento == Some(SentText) && SentText != EnteredLocal &&
      second.request == Some(Create(SentForm)) &&
      secondIso.request == None && secondIso.state.error == Some(SaveErrorPrefix + RejectedDate) &&
      secondCopy.request == Some(Create(SentForm))
  {
    assert |SentText| == 19 && |EnteredLocal| == 16;
    FailedCreateKeepsSentText(LocalReadAtUtcMinus5);
    FailedCreateKeepsSentText(IsoOnlyAtUtcMinus5);
    OracleTimestampExample();
    var firstCopy := SubmitWithCopy(CreateStart, Failure("Network Error"), LoadFailed(""), IsoOnlyAtUtcMinus5);
    assert firstCopy.state.formData == EnteredForm;
  }

  /** As written, a create whose date was left empty fails: `new Date("")` is an invalid date and
      `toISOString` throws on it, so no request is sent and the save error is shown, although the form
      says an empty date stands for the current time. This holds for the create form as it opens. */
  lemma EmptyDateCreateFails(s: ViewState, api: ApiOutcome, reload: LoadOutcome, shiftedIso: Option<string> -> Result<string>)
    requires shiftedIso(Some("")) == Err("Invalid time value")
    ensures var r := SubmitStep(OpenModal(s, None), api, reload, shiftedIso);
      r.request == None && r.state.isModalOpen &&
      r.state.error == Some(SaveErrorPrefix + "Invalid time value")
  {
  }

  /** The conversion the form's hint describes: an empty date stands for the current instant, whose
      shifted ISO string is `nowIso`; every other date converts as before. */
  function DateOrNow(shiftedIso: Option<string> -> Result<string>, nowIso: string): (r: Option<string> -> Result<string>)
    ensures r(Some("")) == Ok(nowIso)
    ensures forall d :: d != Some("") ==> r(d) == shiftedIso(d)
  {
    d => if d == Some("") then Ok(nowIso) else shiftedIso(d)
  }

  /** With the empty date read as now, submitting the create form as it opens sends a create stamped
      with the current time, to the second. */
  lemma EmptyDateCreatesNow(s: ViewState, api: ApiOutcome, reload: LoadOutcome, shiftedIso: Option<string> -> Result<string>, nowIso: string)
    requires IsIsoInstant(nowIso)
    ensures var r := SubmitStep(OpenModal(s, None), api, reload, DateOrNow(shiftedIso, nowIso));
      r.request == Some(Create(DefaultForm.(fechaMovimiento := Some(nowIso[..10] + " " + nowIso[11..19]))))
  {
    OracleTimestampOfIso(nowIso);
  }

  // ---------------------------------------------------------------------------------------------
  // Deleting
  // ---------------------------------------------------------------------------------------------

  /** Deleting a record after the confirmation prompt: declined, nothing happens; confirmed, the delete
      request is sent and then the list reloaded, or the failure reported. */
  function DeleteStep(s: ViewState, id: int, confirmed: bool, api: ApiOutcome, reload: LoadOutcome): (r: Step)
    ensures !confirmed ==> r == Step(s, None)
    ensures confirmed ==> r.request == Some(Delete(id))
    ensures confirmed && api.Success? ==> r.state == Load(s, reload)
    ensures confirmed && api.Failure? ==> r.state == s.(error := Some(DeleteErrorPrefix + api.message))
  {
    if !confirmed then Step(s, None)
    else
      var s1 := s.(error := None);
      match api
      case Success => Step(Load(s1, reload), Some(Delete(id)))
      case Failure(msg) => Step(s1.(error := Some(DeleteErrorPrefix + msg)), Some(Delete(id)))
  }

  // ---------------------------------------------------------------------------------------------
  // Runs of events
  // ---------------------------------------------------------------------------------------------

  /** What the user can do, each with the outcomes of the calls it makes. */
  datatype Event =
    | Reload(outcome: LoadOutcome)
    | SelectFilter(filtro: string)
    | Open(rec: Option<Movimiento>)
    | Close
    | Edit(edit: FormEdit)
    | Submit(api: ApiOutcome, reload: LoadOutcome)
    | Remove(id: int, confirmed: bool, api: ApiOutcome, reload: LoadOutcome)

  function Apply(s: ViewState, e: Event, shiftedIso: Option<string> -> Result<string>): ViewState {
    match e
    case Reload(o) => Load(s, o)
    case SelectFilter(f) => s.(filtroTipo := f)
    case Open(rec) => OpenModal(s, rec)
    case Close => CloseModal(s)
    case Edit(edit) => s.(formData := EditForm(s.formData, edit))
    case Submit(api, reload) => SubmitStep(s, api, reload, shiftedIso).state
    case Remove(id, confirmed, api, reload) => DeleteStep(s, id, confirmed, api, reload).state
  }

  function Run(s: ViewState, es: seq<Event>, shiftedIso: Option<string> -> Result<string>): ViewState
    decreases |es|
  {
    if es == [] then s else Run(Apply(s, es[0], shiftedIso), es[1..], shiftedIso)
  }

  /** An error shown in the banner names what failed. */
  predicate HasContext(message: string) {
    LoadErrorPrefix <= message || SaveErrorPrefix <= message || DeleteErrorPrefix <= message
  }

  /** Between two events: no load or save is in flight, an edit id is held only while the modal is open,
      and any error names what failed. */
  predicate Settled(s: ViewState) {
    !s.loading && !s.submitting &&
    (!s.isModalOpen ==> s.editingId == None) &&
    (s.error.Some? ==> HasContext(s.error.value))
  }

  /** Every event keeps the view settled. */
  lemma ApplySettled(s: ViewState, e: Event, shiftedIso: Option<string> -> Result<string>)
    requires Settled(s)
    ensures Settled(Apply(s, e, shiftedIso))
  {
  }

  /** However many events follow, the view stays settled. */
  lemma {:induction false} RunSettled(s: ViewState, es: seq<Event>, shiftedIso: Option<string> -> Result<string>)
    requires Settled(s)
    ensures Settled(Run(s, es, shiftedIso))
    decreases |es|
  {
    if es != [] {
      ApplySettled(s, es[0], shiftedIso);
      RunSettled(Apply(s, es[0], shiftedIso), es[1..], shiftedIso);
    }
  }

  /** From the first load on mount, every reachable state is settled. */
  lemma ReachableSettled(mount: LoadOutcome, es: seq<Event>, shiftedIso: Option<string> -> Result<string>)
    ensures Settled(Run(Load(InitialState, mount), es, shiftedIso))
  {
    assert mount.LoadFailed? ==> LoadErrorPrefix <= Load(InitialState, mount).error.value;
    RunSettled(Load(InitialState, mount), es, shiftedIso);
  }

  /** Editing a record whose id is 0 submits a create, because 0 is falsy. */
  lemma EditOfIdZeroCreates(s: ViewState, m: Movimiento, api: ApiOutcome, reload: LoadOutcome, shiftedIso: Option<string> -> Result<string>)
    requires m.id == 0
    ensures var r := SubmitStep(OpenModal(s, Some(m)), api, reload, shiftedIso);
      r.request.None? || r.request.value.Create?
  {
  }

  // ---------------------------------------------------------------------------------------------
  // The view object
  // ---------------------------------------------------------------------------------------------

  /** The mounted view, holding its state in fields that the handlers update step by step. */
  class View {
    var movimientos: seq<Movimiento>
    var contenedores: seq<Contenedor>
    var loading: bool
    var error: Option<string>
    var isModalOpen: bool
    var editingId: Option<int>
    var submitting: bool
    var filtroTipo: string
    var formData: FormData

    /** The fields as one value. */
    function State(): ViewState
      reads this
    {
      ViewState(movimientos, contenedores, loading, error, isModalOpen, editingId, submitting, filtroTipo, formData)
    }

    /** The rows the table shows. */
    function MovimientosFiltrados(): seq<Movimiento>
      reads this
    {
      VisibleMovimientos(movimientos, filtroTipo)
    }

    constructor ()
      ensures State() == InitialState
    {
      movimientos, contenedores := [], [];
      loading, error := true, None;
      isModalOpen, editingId, submitting := false, None, false;
      filtroTipo := Todos;
      formData := DefaultForm;
    }

    method CargarDatos(outcome: LoadOutcome)
      modifies this
      ensures State() == Load(old(State()), outcome)
      ensures outcome.LoadFailed? ==> movimientos == old(movimientos) && contenedores == old(contenedores)
    {
      loading := true;
      error := None;
      match outcome {
        case Loaded(bm, bc) =>
          movimientos := MapMovimientos(bm);
          contenedores := MapContenedores(bc);
        case LoadFailed(msg) =>
          error := Some(LoadErrorPrefix + msg);
      }
      loading := false;
    }

    method SetFiltroTipo(f: string)
      modifies this
      ensures State() == old(State()).(filtroTipo := f)
    {
      filtroTipo := f;
    }

    method HandleOpenModal(rec: Option<Movimiento>)
      modifies this
      ensures State() == OpenModal(old(State()), rec)
    {
      match rec {
        case Some(m) =>
          formData := FormFrom(m);
          editingId := Some(m.id);
        case None =>
          formData := DefaultForm;
          editingId := None;
      }
      isModalOpen := true;
    }

    method HandleCloseModal()
      modifies this
      ensures State() == CloseModal(old(State()))
      ensures !isModalOpen && editingId == None && formData == DefaultForm
    {
      isModalOpen := false;
      editingId := None;
      formData := DefaultForm;
    }

    method SetFormData(edit: FormEdit)
      modifies this
      ensures State() == old(State()).(formData := EditForm(old(formData), edit))
    {
      formData := EditForm(formData, edit);
    }

    /** The rest of a create or update once its request has settled. */
    method FinishSave(api: ApiOutcome, reload: LoadOutcome)
      modifies this
      ensures State() == AfterSave(old(State()), api, reload)
    {
      match api {
        case Success =>
          CargarDatos(reload);
          HandleCloseModal();
        case Failure(msg) =>
          error := Some(SaveErrorPrefix + msg);
      }
    }

    method HandleSubmit(api: ApiOutcome, reload: LoadOutcome, shiftedIso: Option<string> -> Result<string>)
      returns (request: Option<Request>)
      modifies this
      ensures Step(State(), request) == SubmitStep(old(State()), api, reload, shiftedIso)
      ensures !submitting
    {
      submitting := true;
      error := None;
      if IsEditing(editingId) {
        request := Some(Update(editingId.value, formData));
        FinishSave(api, reload);
      } else {
        match shiftedIso(formData.fechaMovimiento) {
          case Err(msg) =>
            request := None;
            error := Some(SaveErrorPrefix + msg);
          case Ok(iso) =>
            formData := formData.(fechaMovimiento := Some(OracleTimestamp(iso)));
            request := Some(Create(formData));
            FinishSave(api, reload);
        }
      }
      submitting := false;
    }

    method HandleDelete(id: int, confirmed: bool, api: ApiOutcome, reload: LoadOutcome)
      returns (request: Option<Request>)
      modifies this
      ensures Step(State(), request) == DeleteStep(old(State()), id, confirmed, api, reload)
      ensures !confirmed ==> request == None && State() == old(State())
    {
      if !confirmed {
        return None;
      }
      error := None;
      request := Some(Delete(id));
      match api {
        case Success =>
          CargarDatos(reload);
        case Failure(msg) =>
          error := Some(DeleteErrorPrefix + msg);
      }
    }
  }
}
