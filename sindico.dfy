/**
 * The síndico's dashboard: the building's lists and the counts on its
 * overview page.
 */
module SindicoDashboard {
  import opened Wrappers
  import opened Seqs
  import opened Entities
  import opened Adapters
  import opened ScopedViews
  import Auth
  import Text

  /** The lists the dashboard hands to its pages. */
  datatype SindicoLists = SindicoLists(
    condos: seq<Condo>,
    residents: seq<Resident>,
    employees: seq<Employee>,
    deliveries: seq<Delivery>)

  /**
   * The four memos in hook order, each converting through the cache the
   * previous one left. The buildings list is the corrected one, which
   * compares UUIDs and interns only the user's building (see `CondosView`);
   * `ListsAsWritten` is the screen as written.
   */
  function Lists(c: CacheState, condos: seq<DbCondominio>, moradores: seq<DbMorador>,
                 funcionarios: seq<DbFuncionario>, entregas: seq<DbEntrega>, user: Auth.AuthUser)
    : (r: (CacheState, SindicoLists))
    requires CacheInv(c)
    ensures CacheInv(r.0)
    ensures |r.1.residents| == |Scoped(moradores, MoradorCondo, user.condominioId)|
    ensures |r.1.employees| == |Scoped(funcionarios, FuncionarioCondo, user.condominioId)|
    ensures |r.1.deliveries| == |Scoped(entregas, EntregaCondo, user.condominioId)|
    ensures forall i :: 0 <= i < |r.1.residents| ==>
              r.1.residents[i].active == Scoped(moradores, MoradorCondo, user.condominioId)[i].ativo
    ensures forall i :: 0 <= i < |r.1.employees| ==>
              r.1.employees[i].active == Scoped(funcionarios, FuncionarioCondo, user.condominioId)[i].ativo
    ensures forall i :: 0 <= i < |r.1.deliveries| ==>
              r.1.deliveries[i] == EntregaAt(Scoped(entregas, EntregaCondo, user.condominioId)[i], r.0)
  {
    var (c1, cs) := CondosView(c, condos, user.condominioId);
    var (c2, rs) := ResidentsView(c1, moradores, condos, user.condominioId);
    var (c3, es) := EmployeesView(c2, funcionarios, condos, user.condominioId);
    var (c4, ds) := DeliveriesView(c3, entregas, user.condominioId);
    (c4, SindicoLists(cs, rs, es, ds))
  }

  /**
   * The four memos as written: the buildings memo converts every building,
   * interning each UUID before the residents', employees' and deliveries'
   * (so their local numbers come after all the buildings'), and keeps those
   * whose local number's numeral equals the user's building id, which for a
   * UUID keeps none.
   */
  function ListsAsWritten(c: CacheState, condos: seq<DbCondominio>, moradores: seq<DbMorador>,
                          funcionarios: seq<DbFuncionario>, entregas: seq<DbEntrega>, user: Auth.AuthUser)
    : (r: (CacheState, SindicoLists))
    requires CacheInv(c)
    ensures CacheInv(r.0)
    ensures forall i :: 0 <= i < |r.1.condos| ==> user.condominioId == Some(Text.NatToString(r.1.condos[i].id))
    ensures |r.1.residents| == |Scoped(moradores, MoradorCondo, user.condominioId)|
    ensures |r.1.employees| == |Scoped(funcionarios, FuncionarioCondo, user.condominioId)|
    ensures |r.1.deliveries| == |Scoped(entregas, EntregaCondo, user.condominioId)|
    ensures forall i :: 0 <= i < |r.1.residents| ==>
              r.1.residents[i].active == Scoped(moradores, MoradorCondo, user.condominioId)[i].ativo
    ensures forall i :: 0 <= i < |r.1.employees| ==>
              r.1.employees[i].active == Scoped(funcionarios, FuncionarioCondo, user.condominioId)[i].ativo
    ensures forall i :: 0 <= i < |r.1.deliveries| ==>
              r.1.deliveries[i] == EntregaAt(Scoped(entregas, EntregaCondo, user.condominioId)[i], r.0)
  {
    var (c1, cs) := CondosViewAsWritten(c, condos, user.condominioId);
    var (c2, rs) := ResidentsView(c1, moradores, condos, user.condominioId);
    var (c3, es) := EmployeesView(c2, funcionarios, condos, user.condominioId);
    var (c4, ds) := DeliveriesView(c3, entregas, user.condominioId);
    (c4, SindicoLists(cs, rs, es, ds))
  }

  /** A síndico whose building id is a UUID (it has a non-digit) sees no building as written. */
  lemma AsWrittenListsNoBuilding(c: CacheState, condos: seq<DbCondominio>, moradores: seq<DbMorador>,
                                 funcionarios: seq<DbFuncionario>, entregas: seq<DbEntrega>, user: Auth.AuthUser, k: nat)
    requires CacheInv(c)
    requires user.condominioId.Some? && k < |user.condominioId.value| && !Text.IsDigit(user.condominioId.value[k])
    ensures ListsAsWritten(c, condos, moradores, funcionarios, entregas, user).1.condos == []
  {
    UuidListsNoCondo(c, condos, user.condominioId.value, k);
  }

  /** The overview counters. */
  datatype Stats = Stats(
    totalResidents: nat,
    totalEmployees: nat,
    deliveriesToday: nat,
    pendingDeliveries: nat,
    pickedUpToday: nat)

  predicate ActiveResident(r: Resident) { r.active }
  predicate ActiveEmployee(e: Employee) { e.active }
  predicate IsPending(d: Delivery) { d.status == Pending }
  predicate IsPickedUp(d: Delivery) { d.status == PickedUp }

  /**
   * `isSameDay(new Date(s), today)` depends on the clock and the time zone,
   * so it is the parameter `isToday`.
   */
  function ReceivedOn(isToday: string -> bool): Delivery -> bool
  {
    (d: Delivery) => isToday(d.receivedDate)
  }

  /** `d.pickupDate && isSameDay(new Date(d.pickupDate), today)`. */
  function PickedUpOn(isToday: string -> bool): Delivery -> bool
  {
    (d: Delivery) => d.pickupDate.Some? && isToday(d.pickupDate.value)
  }

  /** The `stats` memo: active records only, and every delivery either pending or picked up. */
  function ComputeStats(residents: seq<Resident>, employees: seq<Employee>, deliveries: seq<Delivery>,
                        isToday: string -> bool): (s: Stats)
    ensures s.totalResidents <= |residents| && s.totalEmployees <= |employees|
    ensures s.pendingDeliveries + |Filter(deliveries, IsPickedUp)| == |deliveries|
    ensures s.deliveriesToday <= |deliveries| && s.pickedUpToday <= |deliveries|
  {
    FilterComplement(deliveries, IsPending, IsPickedUp);
    Stats(|Filter(residents, ActiveResident)|,
          |Filter(employees, ActiveEmployee)|,
          |Filter(deliveries, ReceivedOn(isToday))|,
          |Filter(deliveries, IsPending)|,
          |Filter(deliveries, PickedUpOn(isToday))|)
  }

  predicate MoradorActive(m: DbMorador) { m.ativo }
  predicate FuncionarioActive(f: DbFuncionario) { f.ativo }

  /** A row shows as pending unless its status is `retirada`: a cancelled delivery counts as pending. */
  predicate NotRetirada(e: DbEntrega) { e.status != "retirada" }

  function EntregaReceivedOn(isToday: string -> bool): DbEntrega -> bool
  {
    (e: DbEntrega) => isToday(e.dataEntrega)
  }

  function EntregaPickedUpOn(isToday: string -> bool): DbEntrega -> bool
  {
    (e: DbEntrega) => e.dataRetirada.Some? && e.dataRetirada.value != "" && isToday(e.dataRetirada.value)
  }

  /**
   * The counters read off the backend rows: the building's active residents
   * and employees, its rows not yet `retirada`, received today, and with a
   * pickup date today.
   */
  lemma StatsFromRows(c: CacheState, condos: seq<DbCondominio>, moradores: seq<DbMorador>,
                      funcionarios: seq<DbFuncionario>, entregas: seq<DbEntrega>, user: Auth.AuthUser,
                      isToday: string -> bool)
    requires CacheInv(c)
    ensures
      var l := Lists(c, condos, moradores, funcionarios, entregas, user).1;
      var s := ComputeStats(l.residents, l.employees, l.deliveries, isToday);
      && s.totalResidents == |Filter(Scoped(moradores, MoradorCondo, user.condominioId), MoradorActive)|
      && s.totalEmployees == |Filter(Scoped(funcionarios, FuncionarioCondo, user.condominioId), FuncionarioActive)|
      && s.pendingDeliveries == |Filter(Scoped(entregas, EntregaCondo, user.condominioId), NotRetirada)|
      && s.deliveriesToday == |Filter(Scoped(entregas, EntregaCondo, user.condominioId), EntregaReceivedOn(isToday))|
      && s.pickedUpToday == |Filter(Scoped(entregas, EntregaCondo, user.condominioId), EntregaPickedUpOn(isToday))|
  {
    var l := Lists(c, condos, moradores, funcionarios, entregas, user).1;
    var se := Scoped(entregas, EntregaCondo, user.condominioId);
    CountAlong(l.residents, Scoped(moradores, MoradorCondo, user.condominioId), ActiveResident, MoradorActive);
    CountAlong(l.employees, Scoped(funcionarios, FuncionarioCondo, user.condominioId), ActiveEmployee, FuncionarioActive);
    CountAlong(l.deliveries, se, IsPending, NotRetirada);
    CountAlong(l.deliveries, se, ReceivedOn(isToday), EntregaReceivedOn(isToday));
    CountAlong(l.deliveries, se, PickedUpOn(isToday), EntregaPickedUpOn(isToday));
  }

  /** Nothing of another building is counted: with no building on the user every counter is zero. */
  lemma NoBuildingNoCounts(c: CacheState, condos: seq<DbCondominio>, moradores: seq<DbMorador>,
                           funcionarios: seq<DbFuncionario>, entregas: seq<DbEntrega>, user: Auth.AuthUser,
                           isToday: string -> bool)
    requires CacheInv(c) && user.condominioId.None?
    ensures
      var l := Lists(c, condos, moradores, funcionarios, entregas, user).1;
      ComputeStats(l.residents, l.employees, l.deliveries, isToday) == Stats(0, 0, 0, 0, 0)
  {
    StatsFromRows(c, condos, moradores, funcionarios, entregas, user, isToday);
  }
}
