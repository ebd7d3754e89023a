/**
 * The administrator's screen (`DashboardLayout` in the application shell):
 * the lists it keeps in state, how `addDelivery` persists a new delivery or
 * keeps it locally, the delete handlers, the employee and building form
 * submits and the building webhook editor. The backend calls are inputs.
 */
module Dashboard {
  import opened Wrappers
  import opened Text
  import opened Seqs
  import opened Entities
  import opened Adapters
  import AppHelpers

  // ------------------------------------------------------------ list removal

  /** `list.filter(x => !ids.has(key(x)))`: the entries whose key is not among `ids`, in order. */
  function WithoutKeys<T>(s: seq<T>, key: T -> nat, ids: set<nat>): (r: seq<T>)
    ensures forall k :: 0 <= k < |r| ==> r[k] in s && key(r[k]) !in ids
    ensures forall k :: 0 <= k < |s| && key(s[k]) !in ids ==> s[k] in r
    ensures IsSubsequence(r, s)
  {
    var keep := (x: T) => key(x) !in ids;
    FilterIsSubsequence(s, keep);
    Filter(s, keep)
  }

  /** Removing ids no entry carries keeps the list as it is. */
  lemma WithoutAbsentKeys<T>(s: seq<T>, key: T -> nat, ids: set<nat>)
    requires forall k :: 0 <= k < |s| ==> key(s[k]) !in ids
    ensures WithoutKeys(s, key, ids) == s
  {
    FilterAll(s, (x: T) => key(x) !in ids);
  }

  /** Removing the same ids a second time removes nothing more. */
  lemma WithoutKeysIdempotent<T>(s: seq<T>, key: T -> nat, ids: set<nat>)
    ensures WithoutKeys(WithoutKeys(s, key, ids), key, ids) == WithoutKeys(s, key, ids)
  {
    var r := WithoutKeys(s, key, ids);
    assert forall k :: 0 <= k < |r| ==> r[k] in r;
    WithoutAbsentKeys(r, key, ids);
  }

  function DeliveryId(d: Delivery): nat { d.id }
  function ResidentId(r: Resident): nat { r.id }
  function EmployeeId(e: Employee): nat { e.id }
  function CondoId(c: Condo): nat { c.id }

  // ------------------------------------------------------------ addDelivery

  /** The backend ids `addDelivery` looks up: the resident's, the employee's and the resident's building's. */
  datatype Resolved = Resolved(morador: Option<string>, funcionario: Option<string>, condominio: Option<string>)

  /**
   * The building is the first one named as the resident's building (none when
   * the resident is not listed), and every id comes from the cache.
   */
  function ResolveIds(input: DeliveryInput, residents: seq<Resident>, condos: seq<Condo>, cache: CacheState): (r: Resolved)
    ensures r.morador == LookupUuid(cache, input.residentId)
    ensures r.funcionario == LookupUuid(cache, input.employeeId)
    ensures (forall j :: 0 <= j < |residents| ==> residents[j].id != input.residentId) ==> r.condominio.None?
  {
    var resident := Find(residents, (x: Resident) => x.id == input.residentId);
    var condo := match resident
                 case None => None
                 case Some(x) => Find(condos, (c: Condo) => c.name == x.condo);
    var c := match condo
             case None => None
             case Some(b) => LookupUuid(cache, b.id);
    Resolved(LookupUuid(cache, input.residentId), LookupUuid(cache, input.employeeId), c)
  }

  /** The resident's building: listed under the name the resident's record gives. */
  predicate BuildingOf(residents: seq<Resident>, condos: seq<Condo>, residentId: nat, cache: CacheState, uuid: string)
  {
    exists k, j :: 0 <= k < |condos| && 0 <= j < |residents| && residents[j].id == residentId
                   && residents[j].condo == condos[k].name && LookupUuid(cache, condos[k].id) == Some(uuid)
  }

  /** A resolved building id is the cached id of a building named as a listed resident with that id's building. */
  lemma ResolvedBuilding(input: DeliveryInput, residents: seq<Resident>, condos: seq<Condo>, cache: CacheState)
    requires ResolveIds(input, residents, condos, cache).condominio.Some?
    ensures BuildingOf(residents, condos, input.residentId, cache, ResolveIds(input, residents, condos, cache).condominio.value)
  {
    var resident := Find(residents, (x: Resident) => x.id == input.residentId);
    var condo := Find(condos, (c: Condo) => c.name == resident.value.condo);
    var k :| 0 <= k < |condos| && condos[k] == condo.value;
    var j :| 0 <= j < |residents| && residents[j] == resident.value;
  }

  predicate AllResolved(r: Resolved)
  {
    r.morador.Some? && r.funcionario.Some? && r.condominio.Some?
  }

  /** The row `addDelivery` creates: pending, empty photo and note sent as null, no message flag. */
  function DeliveryRow(input: DeliveryInput, r: Resolved): (e: EntregaInsert)
    requires AllResolved(r)
    ensures e.codigoRetirada == input.code && e.status == "pendente" && e.mensagemEnviada.None?
    ensures Some(e.moradorId) == r.morador && Some(e.funcionarioId) == r.funcionario && Some(e.condominioId) == r.condominio
    ensures e.fotoUrl == NonEmpty(input.photoUrl) && e.observacoes == NonEmpty(input.observation)
  {
    EntregaInsert(input.code, r.morador.value, r.funcionario.value, r.condominio.value,
                  NonEmpty(input.photoUrl), NonEmpty(input.observation), "pendente", None)
  }

  /** How `createDelivery` ended: it returned the saved row's id, returned nothing, or threw. */
  datatype CreateOutcome = Created(uuid: string) | NothingReturned | CreateThrew

  /** The delivery `addDelivery` prepends, if any, and the row it sends, if any. */
  datatype AddResult = AddResult(prepended: Option<Delivery>, sent: Option<EntregaInsert>)

  /**
   * `addDelivery`: with an id unresolved, the delivery is kept locally and
   * nothing is sent; otherwise the row is sent, and the delivery is prepended
   * with the saved row's id, or locally when the create threw, or not at all
   * when the create returned nothing.
   */
  function AddOutcome(input: DeliveryInput, r: Resolved, now: nat, isoNow: string, created: CreateOutcome): (a: AddResult)
    ensures a.sent.Some? <==> AllResolved(r)
    ensures a.sent.Some? ==> a.sent.value == DeliveryRow(input, r)
    ensures a.prepended.None? <==> AllResolved(r) && created == NothingReturned
    ensures a.prepended.Some? ==>
              a.prepended.value.id == now && a.prepended.value.status == Pending && a.prepended.value.receivedDate == isoNow
              && a.prepended.value.code == input.code && a.prepended.value.residentId == input.residentId
              && a.prepended.value.employeeId == input.employeeId && a.prepended.value.photoUrl == input.photoUrl
              && a.prepended.value.observation == input.observation
    ensures a.prepended.Some? && a.prepended.value.uuid.Some? <==> AllResolved(r) && created.Created?
    ensures AllResolved(r) && created.Created? ==> a.prepended.Some? && a.prepended.value.uuid == Some(created.uuid)
  {
    if !AllResolved(r) then AddResult(Some(NewLocalDelivery(now, None, input, isoNow)), None)
    else
      var row := DeliveryRow(input, r);
      match created
      case Created(u) => AddResult(Some(NewLocalDelivery(now, Some(u), input, isoNow)), Some(row))
      case NothingReturned => AddResult(None, Some(row))
      case CreateThrew => AddResult(Some(NewLocalDelivery(now, None, input, isoNow)), Some(row))
  }

  /** `[d, ...list]` when a delivery is prepended. */
  function Prepend(d: Option<Delivery>, list: seq<Delivery>): (r: seq<Delivery>)
    ensures d.None? ==> r == list
    ensures d.Some? ==> |r| == |list| + 1 && r[0] == d.value && r[1..] == list
  {
    match d
    case None => list
    case Some(x) => [x] + list
  }

  /**
   * The registration screen's "no active employee" id `0` is never issued by
   * the cache, so such a delivery is always kept locally and never sent.
   */
  lemma SentinelEmployeeStaysLocal(input: DeliveryInput, residents: seq<Resident>, condos: seq<Condo>,
                                   cache: CacheState, now: nat, isoNow: string, created: CreateOutcome)
    requires CacheInv(cache) && input.employeeId == 0
    ensures AddOutcome(input, ResolveIds(input, residents, condos, cache), now, isoNow, created)
            == AddResult(Some(NewLocalDelivery(now, None, input, isoNow)), None)
  {
    NeverIssued(cache, 0);
  }

  /**
   * A delivery that is saved carries the saved row's id, and the row it was
   * saved from points at the backend ids the cache holds for its resident
   * and employee.
   */
  lemma SavedDeliveryLinks(input: DeliveryInput, residents: seq<Resident>, condos: seq<Condo>,
                           cache: CacheState, now: nat, isoNow: string, u: string)
    requires AllResolved(ResolveIds(input, residents, condos, cache))
    ensures var a := AddOutcome(input, ResolveIds(input, residents, condos, cache), now, isoNow, Created(u));
            && a.prepended.Some? && a.prepended.value.uuid == Some(u) && a.prepended.value.status == Pending
            && a.sent.Some?
            && LookupUuid(cache, input.residentId) == Some(a.sent.value.moradorId)
            && LookupUuid(cache, input.employeeId) == Some(a.sent.value.funcionarioId)
  {
  }

  // ------------------------------------------------------------ forms

  /** The employee form when it opens for a new employee. */
  const InitialEmployeeForm := Employee(0, "", "", Some(""), "Porteiro", "", true)

  /** `{ ...emp, ...form }` for an edited employee: the form's fields, the stored password when the form has none. */
  function MergeEmployee(emp: Employee, form: Employee): (r: Employee)
    ensures r.id == form.id && r.name == form.name && r.cpf == form.cpf && r.role == form.role
    ensures r.condo == form.condo && r.active == form.active
    ensures r.password == if form.password.Some? then form.password else emp.password
  {
    form.(password := if form.password.Some? then form.password else emp.password)
  }

  /** Opening an employee for editing and saving without a change gives the employee back. */
  lemma MergeUnchanged(emp: Employee)
    ensures MergeEmployee(emp, emp) == emp
  {
  }

  /** `{ ...initialNewEmployeeState, ...form, id: Date.now() }`. */
  function NewEmployee(form: Employee, now: nat): (r: Employee)
    ensures r.id == now && r.name == form.name && r.cpf == form.cpf && r.role == form.role
    ensures r.condo == form.condo && r.active == form.active
    ensures r.password == if form.password.Some? then form.password else InitialEmployeeForm.password
  {
    form.(id := now, password := if form.password.Some? then form.password else InitialEmployeeForm.password)
  }

  /** `list.map(x => key(x) === id ? f(x) : x)` for employees. */
  function ReplaceEmployees(list: seq<Employee>, id: nat, form: Employee): (r: seq<Employee>)
    ensures |r| == |list|
    ensures forall k :: 0 <= k < |list| ==>
              r[k] == if list[k].id == id then MergeEmployee(list[k], form) else list[k]
  {
    Map(list, (e: Employee) => if e.id == id then MergeEmployee(e, form) else e)
  }

  /**
   * `handleEmployeeFormSubmit`: ignored without a name or a CPF; otherwise the
   * edited employee is merged with the form, or a new one appended.
   */
  function SubmitEmployee(list: seq<Employee>, editing: Option<Employee>, form: Employee, now: nat): (r: Option<seq<Employee>>)
    ensures r.None? <==> form.name == "" || form.cpf == ""
    ensures r.Some? && editing.Some? ==> r.value == ReplaceEmployees(list, editing.value.id, form)
    ensures r.Some? && editing.None? ==> r.value == list + [NewEmployee(form, now)]
  {
    if form.name == "" || form.cpf == "" then None
    else if editing.Some? then Some(ReplaceEmployees(list, editing.value.id, form))
    else Some(list + [NewEmployee(form, now)])
  }

  /** Saving an edit leaves every other employee as it was, and drops no one. */
  lemma EditKeepsOthers(list: seq<Employee>, e: Employee, form: Employee, now: nat, k: nat)
    requires form.name != "" && form.cpf != "" && k < |list| && list[k].id != e.id
    ensures |SubmitEmployee(list, Some(e), form, now).value| == |list|
    ensures SubmitEmployee(list, Some(e), form, now).value[k] == list[k]
  {
  }

  /** The building form when it opens for a new building. */
  const InitialCondoForm := Condo(0, "", Address("", "", "", "", ""), None)

  /** `list.map(c => c.id === id ? { ...c, ...form } : c)`: the form has every building field, so it replaces the entry. */
  function ReplaceCondos(list: seq<Condo>, id: nat, form: Condo): (r: seq<Condo>)
    ensures |r| == |list|
    ensures forall k :: 0 <= k < |list| ==> r[k] == if list[k].id == id then form else list[k]
  {
    Map(list, (c: Condo) => if c.id == id then form else c)
  }

  /** `handleCondoFormSubmit`: ignored without a name; otherwise the edited building replaced, or a new one appended. */
  function SubmitCondo(list: seq<Condo>, editing: Option<Condo>, form: Condo, now: nat): (r: Option<seq<Condo>>)
    ensures r.None? <==> form.name == ""
    ensures r.Some? && editing.Some? ==> r.value == ReplaceCondos(list, editing.value.id, form)
    ensures r.Some? && editing.None? ==> r.value == list + [form.(id := now)]
  {
    if form.name == "" then None
    else if editing.Some? then Some(ReplaceCondos(list, editing.value.id, form))
    else Some(list + [form.(id := now)])
  }

  // ------------------------------------------------------------ webhooks

  /** The building whose webhook is being edited: `{ id, name, webhookUrl }`. */
  datatype WebhookDraft = WebhookDraft(id: nat, name: string, webhookUrl: Option<string>)

  /** `url.trim() === '' ? null : url.trim()`. */
  function WebhookValue(url: string): (r: Option<string>)
    ensures r.None? <==> AllSpace(url)
    ensures r.Some? ==> r.value == Trim(url) && r.value != "" && Trimmed(r.value)
  {
    if Trim(url) == "" then None else Some(Trim(url))
  }

  /** Saving a saved value again stores the same value. */
  lemma WebhookValueStable(url: string)
    ensures WebhookValue(url).Some? ==> WebhookValue(WebhookValue(url).value) == WebhookValue(url)
  {
    TrimIdempotent(url);
  }

  /** The buildings with `id`'s webhook set to `v`; every other building unchanged. */
  function SetWebhook(list: seq<Condo>, id: nat, v: Option<string>): (r: seq<Condo>)
    ensures |r| == |list|
    ensures forall k :: 0 <= k < |list| ==>
              r[k] == if list[k].id == id then list[k].(webhookUrl := v) else list[k]
  {
    Map(list, (c: Condo) => if c.id == id then c.(webhookUrl := v) else c)
  }

  /** How `handleSaveCondoWebhook` ends. */
  datatype WebhookSave =
    | NotEditing
    | UnknownCondo
    | SaveFailed(uuid: string, value: Option<string>)
    | WebhookSaved(uuid: string, value: Option<string>)

  /** Everything the screen keeps in state that the handlers below change. */
  datatype DashboardState = DashboardState(
    employees: seq<Employee>,
    condos: seq<Condo>,
    residents: seq<Resident>,
    deliveries: seq<Delivery>,
    selectedDeliveryIds: set<nat>,
    selectedPickedUpIds: set<nat>,
    editingEmployee: Option<Employee>,
    employeeForm: Employee,
    editingCondo: Option<Condo>,
    condoForm: Condo,
    editingWebhook: Option<WebhookDraft>,
    tempWebhookUrl: string)

  class DashboardLayout {
    var employees: seq<Employee>
    var condos: seq<Condo>
    var residents: seq<Resident>
    var deliveries: seq<Delivery>
    var selectedDeliveryIds: set<nat>
    var selectedPickedUpIds: set<nat>
    var editingEmployee: Option<Employee>
    var employeeForm: Employee
    var editingCondo: Option<Condo>
    var condoForm: Condo
    var editingWebhook: Option<WebhookDraft>
    var tempWebhookUrl: string

    function State(): DashboardState
      reads this
    {
      DashboardState(employees, condos, residents, deliveries, selectedDeliveryIds, selectedPickedUpIds,
                     editingEmployee, employeeForm, editingCondo, condoForm, editingWebhook, tempWebhookUrl)
    }

    /** The screen once the backend lists have been converted: nothing selected, no form open. */
    constructor (employees: seq<Employee>, condos: seq<Condo>, residents: seq<Resident>, deliveries: seq<Delivery>)
      ensures State() == DashboardState(employees, condos, residents, deliveries, {}, {},
                                        None, InitialEmployeeForm, None, InitialCondoForm, None, "")
    {
      this.employees := employees;
      this.condos := condos;
      this.residents := residents;
      this.deliveries := deliveries;
      selectedDeliveryIds := {};
      selectedPickedUpIds := {};
      editingEmployee := None;
      employeeForm := InitialEmployeeForm;
      editingCondo := None;
      condoForm := InitialCondoForm;
      editingWebhook := None;
      tempWebhookUrl := "";
    }

    /**
     * `addDelivery`, with the cache as it is and `created` the way
     * `createDelivery` ends; `now` is `Date.now()` and `isoNow` the ISO date.
     * Only the delivery list changes.
     */
    method AddDelivery(input: DeliveryInput, cache: IdCache, now: nat, isoNow: string, created: CreateOutcome)
      returns (sent: Option<EntregaInsert>)
      modifies this
      ensures var a := AddOutcome(input, ResolveIds(input, old(residents), old(condos), cache.State()), now, isoNow, created);
              sent == a.sent && State() == old(State()).(deliveries := Prepend(a.prepended, old(deliveries)))
    {
      var resident := Find(residents, (x: Resident) => x.id == input.residentId);
      var condo: Option<Condo> := None;
      if resident.Some? {
        condo := Find(condos, (c: Condo) => c.name == resident.value.condo);
      }
      var moradorUuid := cache.NumberToUuid(input.residentId);
      var funcionarioUuid := cache.NumberToUuid(input.employeeId);
      var condominioUuid: Option<string> := None;
      if condo.Some? {
        condominioUuid := cache.NumberToUuid(condo.value.id);
      }
      var r := Resolved(moradorUuid, funcionarioUuid, condominioUuid);
      assert r == ResolveIds(input, residents, condos, cache.State());
      if moradorUuid.None? || funcionarioUuid.None? || condominioUuid.None? {
        deliveries := [NewLocalDelivery(now, None, input, isoNow)] + deliveries;
        return None;
      }
      sent := Some(DeliveryRow(input, r));
      match created {
        case Created(u) =>
          deliveries := [NewLocalDelivery(now, Some(u), input, isoNow)] + deliveries;
        case NothingReturned =>
        case CreateThrew =>
          deliveries := [NewLocalDelivery(now, None, input, isoNow)] + deliveries;
      }
    }

    /** The confirmed `handleDeleteDelivery` / `handleDeletePickedUpDelivery`: that delivery removed. */
    method DeleteDelivery(id: nat)
      modifies this
      ensures State() == old(State()).(deliveries := WithoutKeys(old(deliveries), DeliveryId, {id}))
    {
      deliveries := WithoutKeys(deliveries, DeliveryId, {id});
    }

    /** The confirmed `handleDeleteSelectedDeliveries`: nothing without a selection, else the selected removed and the selection cleared. */
    method DeleteSelectedDeliveries()
      modifies this
      ensures old(selectedDeliveryIds) == {} ==> State() == old(State())
      ensures old(selectedDeliveryIds) != {} ==>
                State() == old(State()).(deliveries := WithoutKeys(old(deliveries), DeliveryId, old(selectedDeliveryIds)),
                                         selectedDeliveryIds := {})
    {
      if selectedDeliveryIds != {} {
        deliveries := WithoutKeys(deliveries, DeliveryId, selectedDeliveryIds);
        selectedDeliveryIds := {};
      }
    }

    /** The confirmed `handleDeleteSelectedPickedUpDeliveries`, over the history's selection. */
    method DeleteSelectedPickedUp()
      modifies this
      ensures old(selectedPickedUpIds) == {} ==> State() == old(State())
      ensures old(selectedPickedUpIds) != {} ==>
                State() == old(State()).(deliveries := WithoutKeys(old(deliveries), DeliveryId, old(selectedPickedUpIds)),
                                         selectedPickedUpIds := {})
    {
      if selectedPickedUpIds != {} {
        deliveries := WithoutKeys(deliveries, DeliveryId, selectedPickedUpIds);
        selectedPickedUpIds := {};
      }
    }

    /** `handleDeleteEmployee`. */
    method DeleteEmployee(id: nat)
      modifies this
      ensures State() == old(State()).(employees := WithoutKeys(old(employees), EmployeeId, {id}))
    {
      employees := WithoutKeys(employees, EmployeeId, {id});
    }

    /** `handleDeleteCondo`. */
    method DeleteCondo(id: nat)
      modifies this
      ensures State() == old(State()).(condos := WithoutKeys(old(condos), CondoId, {id}))
    {
      condos := WithoutKeys(condos, CondoId, {id});
    }

    /**
     * `handleDeleteResident`: the resident is removed only when its backend id
     * is known and `deactivateResident` (`deactivated`) completes.
     */
    method DeleteResident(id: nat, cache: IdCache, deactivated: Call) returns (target: Option<string>)
      modifies this
      ensures target == cache.NumberToUuid(id)
      ensures target.Some? && deactivated == Completed ==>
                State() == old(State()).(residents := WithoutKeys(old(residents), ResidentId, {id}))
      ensures target.None? || deactivated == Raised ==> State() == old(State())
    {
      target := cache.NumberToUuid(id);
      if target.Some? && deactivated == Completed {
        residents := WithoutKeys(residents, ResidentId, {id});
      }
    }

    /**
     * `handleCSVUpload` once the text is read, with the crash on a text of
     * blank lines corrected: the residents read from it are appended.
     */
    method UploadResidentsCsv(text: string, now: nat) returns (added: seq<Resident>)
      modifies this
      ensures added == AppHelpers.ImportedResidents(text, now)
      ensures State() == old(State()).(residents := old(residents) + added)
    {
      added := AppHelpers.ImportCsv(text, now);
      AppendResidents(added);
    }

    /** The imported residents go after the listed ones. */
    method AppendResidents(added: seq<Resident>)
      modifies this
      ensures State() == old(State()).(residents := old(residents) + added)
    {
      residents := residents + added;
    }

    /** `openAddEmployeeModal`. */
    method OpenAddEmployee()
      modifies this
      ensures State() == old(State()).(editingEmployee := None, employeeForm := InitialEmployeeForm)
    {
      editingEmployee := None;
      employeeForm := InitialEmployeeForm;
    }

    /** `handleEditEmployee`: the form starts as the employee. */
    method EditEmployee(e: Employee)
      modifies this
      ensures State() == old(State()).(editingEmployee := Some(e), employeeForm := e)
    {
      editingEmployee := Some(e);
      employeeForm := e;
    }

    /** Typing in the employee form. */
    method SetEmployeeForm(form: Employee)
      modifies this
      ensures State() == old(State()).(employeeForm := form)
    {
      employeeForm := form;
    }

    /** `handleEmployeeFormSubmit`, then `closeEmployeeModal` when it saves. */
    method SubmitEmployeeForm(now: nat) returns (saved: bool)
      modifies this
      ensures var r := SubmitEmployee(old(employees), old(editingEmployee), old(employeeForm), now);
              saved == r.Some?
              && (r.None? ==> State() == old(State()))
              && (r.Some? ==> State() == old(State()).(employees := r.value, editingEmployee := None,
                                                       employeeForm := InitialEmployeeForm))
    {
      var r := SubmitEmployee(employees, editingEmployee, employeeForm, now);
      saved := r.Some?;
      if saved {
        employees := r.value;
        editingEmployee := None;
        employeeForm := InitialEmployeeForm;
      }
    }

    /** `openCondoModal`. */
    method OpenAddCondo()
      modifies this
      ensures State() == old(State()).(editingCondo := None, condoForm := InitialCondoForm)
    {
      editingCondo := None;
      condoForm := InitialCondoForm;
    }

    /** `handleEditCondo`. */
    method EditCondo(c: Condo)
      modifies this
      ensures State() == old(State()).(editingCondo := Some(c), condoForm := c)
    {
      editingCondo := Some(c);
      condoForm := c;
    }

    /** Typing in the building form. */
    method SetCondoForm(form: Condo)
      modifies this
      ensures State() == old(State()).(condoForm := form)
    {
      condoForm := form;
    }

    /** `handleCondoFormSubmit`, then `closeCondoModal` when it saves. */
    method SubmitCondoForm(now: nat) returns (saved: bool)
      modifies this
      ensures var r := SubmitCondo(old(condos), old(editingCondo), old(condoForm), now);
              saved == r.Some?
              && (r.None? ==> State() == old(State()))
              && (r.Some? ==> State() == old(State()).(condos := r.value, editingCondo := None, condoForm := InitialCondoForm))
    {
      var r := SubmitCondo(condos, editingCondo, condoForm, now);
      saved := r.Some?;
      if saved {
        condos := r.value;
        editingCondo := None;
        condoForm := InitialCondoForm;
      }
    }

    /** `handleEditCondoWebhook`: the draft, and the text box holding the stored URL or nothing. */
    method EditCondoWebhook(c: Condo)
      modifies this
      ensures State() == old(State()).(editingWebhook := Some(WebhookDraft(c.id, c.name, NonEmpty(c.webhookUrl))),
                                       tempWebhookUrl := c.webhookUrl.GetOr(""))
    {
      editingWebhook := Some(WebhookDraft(c.id, c.name, NonEmpty(c.webhookUrl)));
      tempWebhookUrl := c.webhookUrl.GetOr("");
    }

    /** Typing in the webhook text box. */
    method SetTempWebhookUrl(url: string)
      modifies this
      ensures State() == old(State()).(tempWebhookUrl := url)
    {
      tempWebhookUrl := url;
    }

    /** `handleCancelEditWebhook`. */
    method CancelEditWebhook()
      modifies this
      ensures State() == old(State()).(editingWebhook := None, tempWebhookUrl := "")
    {
      editingWebhook := None;
      tempWebhookUrl := "";
    }

    /**
     * `handleSaveCondoWebhook`, with `updated` how `updateCondominiumWebhook`
     * ended: nothing happens without a draft or a known backend id, or when the
     * update throws; otherwise the trimmed URL, or nothing for a blank one, is
     * stored on that building alone and the editor closes.
     */
    method SaveCondoWebhook(cache: IdCache, updated: Call) returns (outcome: WebhookSave)
      modifies this
      ensures old(editingWebhook).None? ==> outcome == NotEditing
      ensures old(editingWebhook).Some? && cache.NumberToUuid(old(editingWebhook).value.id).None? ==> outcome == UnknownCondo
      ensures old(editingWebhook).Some? && cache.NumberToUuid(old(editingWebhook).value.id).Some? ==>
                var u := cache.NumberToUuid(old(editingWebhook).value.id).value;
                outcome == (if updated == Completed then WebhookSaved(u, WebhookValue(old(tempWebhookUrl)))
                            else SaveFailed(u, WebhookValue(old(tempWebhookUrl))))
      ensures outcome.WebhookSaved? ==>
                State() == old(State()).(condos := SetWebhook(old(condos), old(editingWebhook).value.id, outcome.value),
                                         editingWebhook := None, tempWebhookUrl := "")
      ensures !outcome.WebhookSaved? ==> State() == old(State())
    {
      if editingWebhook.None? {
        return NotEditing;
      }
      var draft := editingWebhook.value;
      var uuid := cache.NumberToUuid(draft.id);
      if uuid.None? {
        return UnknownCondo;
      }
      var value := WebhookValue(tempWebhookUrl);
      if updated == Raised {
        return SaveFailed(uuid.value, value);
      }
      StoreWebhook(draft.id, value);
      outcome := WebhookSaved(uuid.value, value);
    }

    /** The saved URL goes on building `id` and the editor closes. */
    method StoreWebhook(id: nat, value: Option<string>)
      modifies this
      ensures State() == old(State()).(condos := SetWebhook(old(condos), id, value),
                                       editingWebhook := None, tempWebhookUrl := "")
    {
      condos := SetWebhook(condos, id, value);
      editingWebhook := None;
      tempWebhookUrl := "";
    }
  }
}
