/**
 * The employee's dashboard: the building's lists and its own `addDelivery`,
 * which takes the building from the logged-in user and always keeps the new
 * delivery on screen.
 */
module FuncionarioDashboard {
  import opened Wrappers
  import opened Entities
  import opened Adapters
  import opened ScopedViews
  import Auth
  import Dashboard

  /**
   * The ids the employee screen sends: resident and employee from the cache,
   * the building straight from the user (`!condominioUuid` rejects a
   * missing or empty one).
   */
  function EmployeeResolve(input: DeliveryInput, user: Auth.AuthUser, cache: CacheState): (r: Dashboard.Resolved)
    ensures r.morador == LookupUuid(cache, input.residentId)
    ensures r.funcionario == LookupUuid(cache, input.employeeId)
    ensures r.condominio.Some? <==> user.condominioId.Some? && user.condominioId.value != ""
    ensures r.condominio.Some? ==> r.condominio == user.condominioId
  {
    Dashboard.Resolved(LookupUuid(cache, input.residentId), LookupUuid(cache, input.employeeId), NonEmpty(user.condominioId))
  }

  /** The employee screen's row is the main screen's row marked as already notified. */
  function EmployeeRow(input: DeliveryInput, r: Dashboard.Resolved): (e: EntregaInsert)
    requires Dashboard.AllResolved(r)
    ensures e == Dashboard.DeliveryRow(input, r).(mensagemEnviada := Some(true))
    ensures e.status == "pendente" && e.mensagemEnviada == Some(true)
  {
    EntregaInsert(input.code, r.morador.value, r.funcionario.value, r.condominio.value,
                  NonEmpty(input.photoUrl), NonEmpty(input.observation), "pendente", Some(true))
  }

  /** The delivery the employee screen prepends and the row it sends, if any. */
  datatype EmployeeAdd = EmployeeAdd(prepended: Delivery, sent: Option<EntregaInsert>)

  /**
   * The employee `addDelivery`: an unresolved id keeps the delivery locally
   * and sends nothing; otherwise the row is sent and the delivery carries the
   * saved id, or none when the create threw or returned no row (reading
   * `savedDelivery.id` then throws into the same `catch`).
   */
  function EmployeeAddOutcome(input: DeliveryInput, r: Dashboard.Resolved, now: nat, isoNow: string,
                              created: Dashboard.CreateOutcome): (a: EmployeeAdd)
    ensures a.sent.Some? <==> Dashboard.AllResolved(r)
    ensures a.sent.Some? ==> a.sent.value == EmployeeRow(input, r)
    ensures a.prepended.uuid.Some? <==> Dashboard.AllResolved(r) && created.Created?
    ensures a.prepended == NewLocalDelivery(now, a.prepended.uuid, input, isoNow)
    ensures a.prepended.uuid.Some? ==> a.prepended.uuid == Some(created.uuid)
  {
    if !Dashboard.AllResolved(r) then EmployeeAdd(NewLocalDelivery(now, None, input, isoNow), None)
    else
      var row := EmployeeRow(input, r);
      match created
      case Created(u) => EmployeeAdd(NewLocalDelivery(now, Some(u), input, isoNow), Some(row))
      case NothingReturned => EmployeeAdd(NewLocalDelivery(now, None, input, isoNow), Some(row))
      case CreateThrew => EmployeeAdd(NewLocalDelivery(now, None, input, isoNow), Some(row))
  }

  /**
   * Against the main screen's `addDelivery` with the same ids: the same row
   * apart from the notified flag, and the same prepended delivery, except
   * that the employee screen keeps one where the main screen drops it.
   */
  lemma AgreesWithMainScreen(input: DeliveryInput, r: Dashboard.Resolved, now: nat, isoNow: string,
                             created: Dashboard.CreateOutcome)
    ensures var e := EmployeeAddOutcome(input, r, now, isoNow, created);
            var m := Dashboard.AddOutcome(input, r, now, isoNow, created);
            && (e.sent.Some? <==> m.sent.Some?)
            && (m.sent.Some? ==> e.sent.value == m.sent.value.(mensagemEnviada := Some(true)))
            && (m.prepended.Some? ==> e.prepended == m.prepended.value)
            && (m.prepended.None? ==> e.prepended == NewLocalDelivery(now, None, input, isoNow))
  {
    var m := Dashboard.AddOutcome(input, r, now, isoNow, created);
    if m.prepended.Some? {
      assert m.prepended.value == NewLocalDelivery(now, m.prepended.value.uuid, input, isoNow);
    }
  }

  /** A user without a building never sends a row, whatever the cache resolves. */
  lemma NoBuildingStaysLocal(input: DeliveryInput, user: Auth.AuthUser, cache: CacheState, now: nat, isoNow: string,
                             created: Dashboard.CreateOutcome)
    requires user.condominioId.None?
    ensures EmployeeAddOutcome(input, EmployeeResolve(input, user, cache), now, isoNow, created)
            == EmployeeAdd(NewLocalDelivery(now, None, input, isoNow), None)
  {
  }

  /** The screen's `deliveries` state. */
  class EmployeeScreen {
    var deliveries: seq<Delivery>

    constructor ()
      ensures deliveries == []
    {
      deliveries := [];
    }

    /**
     * The memo that replaces `deliveries` with the building's converted rows
     * whenever the fetched rows change.
     */
    method Refresh(cache: IdCache, entregas: seq<DbEntrega>, user: Auth.AuthUser)
      requires cache.Valid()
      modifies this, cache
      ensures cache.Valid()
      ensures (cache.State(), deliveries) == DeliveriesView(old(cache.State()), entregas, user.condominioId)
    {
      var v := DeliveriesView(cache.State(), entregas, user.condominioId);
      cache.Load(v.0);
      deliveries := v.1;
    }

    /** `addDelivery(newDeliveryData)`: the delivery is always prepended; the row sent, if any, is returned. */
    method AddDelivery(input: DeliveryInput, cache: IdCache, user: Auth.AuthUser, now: nat, isoNow: string,
                       created: Dashboard.CreateOutcome)
      returns (sent: Option<EntregaInsert>)
      modifies this
      ensures var a := EmployeeAddOutcome(input, EmployeeResolve(input, user, cache.State()), now, isoNow, created);
              sent == a.sent && deliveries == [a.prepended] + old(deliveries)
    {
      var moradorUuid := cache.NumberToUuid(input.residentId);
      var funcionarioUuid := cache.NumberToUuid(input.employeeId);
      var condominioUuid := NonEmpty(user.condominioId);
      if moradorUuid.None? || funcionarioUuid.None? || condominioUuid.None? {
        deliveries := [NewLocalDelivery(now, None, input, isoNow)] + deliveries;
        sent := None;
        return;
      }
      var row := EntregaInsert(input.code, moradorUuid.value, funcionarioUuid.value, condominioUuid.value,
                               NonEmpty(input.photoUrl), NonEmpty(input.observation), "pendente", Some(true));
      sent := Some(row);
      var uuid: Option<string> := None;
      if created.Created? {
        uuid := Some(created.uuid);
      }
      deliveries := [NewLocalDelivery(now, uuid, input, isoNow)] + deliveries;
    }
  }
}
