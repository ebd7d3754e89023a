/**
 * The translation layer between backend rows and the application's records:
 * the identity cache that gives every backend UUID a small local number, the
 * row-to-record shapers and the record-to-insert builders.
 */
module Adapters {
  import opened Wrappers
  import opened Seqs
  import opened Entities

  // ------------------------------------------------------------ backend rows

  datatype DbCondominio = DbCondominio(
    id: string,
    nome: string,
    endereco: string,
    cidade: string,
    estado: Option<string>,
    ativo: Option<bool>,
    webhookUrl: Option<string>,
    sindicoId: Option<string>,
    sindicoNome: Option<string>,
    sindicoSenha: Option<string>,
    sindicoCpf: Option<string>)

  datatype DbMorador = DbMorador(
    id: string,
    nome: string,
    apartamento: string,
    bloco: Option<string>,
    telefone: string,
    condominioId: string,
    ativo: bool)

  datatype DbFuncionario = DbFuncionario(
    id: string,
    cpf: string,
    nome: string,
    senha: string,
    cargo: string,
    condominioId: string,
    ativo: bool)

  datatype DbEntrega = DbEntrega(
    id: string,
    funcionarioId: string,
    moradorId: string,
    codigoRetirada: string,
    fotoUrl: Option<string>,
    status: string,
    dataEntrega: string,
    dataRetirada: Option<string>,
    observacoes: Option<string>,
    descricaoRetirada: Option<string>,
    condominioId: Option<string>)

  datatype MoradorInsert = MoradorInsert(
    nome: string, apartamento: string, bloco: Option<string>, telefone: string, condominioId: string, ativo: bool)

  datatype FuncionarioInsert = FuncionarioInsert(
    cpf: string, nome: string, senha: string, cargo: string, condominioId: string, ativo: bool)

  datatype CondominioInsert = CondominioInsert(
    nome: string, endereco: string, cidade: string, cep: string, estado: string, ativo: bool)

  // ---------------------------------------------------------- identity cache

  /** The two module-level maps and the counter, as one value. */
  datatype CacheState = CacheState(toNumber: map<string, nat>, toUuid: map<nat, string>, nextId: nat)

  /**
   * The two maps are inverse to each other, and the numbers in use are
   * exactly `1 .. nextId - 1`.
   */
  ghost predicate CacheInv(c: CacheState)
  {
    && c.nextId >= 1
    && (forall u :: u in c.toNumber ==> c.toNumber[u] in c.toUuid && c.toUuid[c.toNumber[u]] == u)
    && (forall n :: n in c.toUuid ==> c.toUuid[n] in c.toNumber && c.toNumber[c.toUuid[n]] == n)
    && (forall n: nat :: n in c.toUuid <==> 1 <= n < c.nextId)
  }

  /** The cache when the application starts: empty, next number 1. */
  function EmptyCache(): (c: CacheState)
    ensures CacheInv(c)
    ensures c.toNumber == map[] && c.nextId == 1
  {
    CacheState(map[], map[], 1)
  }

  /**
   * `uuidToNumber`: the number already given to `uuid`, or the next one, which
   * is then recorded in both maps.
   */
  function Intern(c: CacheState, uuid: string): (r: (CacheState, nat))
    requires CacheInv(c)
    ensures CacheInv(r.0)
    ensures uuid in r.0.toNumber && r.0.toNumber[uuid] == r.1
    ensures forall u :: u in c.toNumber ==> u in r.0.toNumber && r.0.toNumber[u] == c.toNumber[u]
    ensures uuid in c.toNumber ==> r.0 == c
    ensures uuid !in c.toNumber ==> r.1 == c.nextId && r.0.nextId == c.nextId + 1
  {
    if uuid in c.toNumber then (c, c.toNumber[uuid])
    else
      var n := c.nextId;
      var r := CacheState(c.toNumber[uuid := n], c.toUuid[n := uuid], n + 1);
      assert forall m: nat :: m in r.toUuid <==> 1 <= m < r.nextId by {
        forall m: nat ensures m in r.toUuid <==> 1 <= m < r.nextId {
          if m != n {
            assert m in r.toUuid <==> m in c.toUuid;
          }
        }
      }
      (r, n)
  }

  /** `numberToUuid`: `get(n) || null`, so an empty UUID reads back as absent. */
  function LookupUuid(c: CacheState, n: nat): (r: Option<string>)
    ensures r.Some? <==> n in c.toUuid && c.toUuid[n] != ""
    ensures r.Some? ==> r.value == c.toUuid[n]
  {
    if n in c.toUuid && c.toUuid[n] != "" then Some(c.toUuid[n]) else None
  }

  /** A second call with the same UUID returns the same number and changes nothing. */
  lemma InternIdempotent(c: CacheState, uuid: string)
    requires CacheInv(c)
    ensures Intern(Intern(c, uuid).0, uuid) == Intern(c, uuid)
  {
  }

  /** Different UUIDs never share a number. */
  lemma CacheInjective(c: CacheState, u: string, v: string)
    requires CacheInv(c) && u in c.toNumber && v in c.toNumber && u != v
    ensures c.toNumber[u] != c.toNumber[v]
  {
    assert c.toUuid[c.toNumber[u]] == u;
    assert c.toUuid[c.toNumber[v]] == v;
  }

  /** Every number handed out for a non-empty UUID reads back as that UUID. */
  lemma InternRoundTrip(c: CacheState, uuid: string)
    requires CacheInv(c) && uuid != ""
    ensures LookupUuid(Intern(c, uuid).0, Intern(c, uuid).1) == Some(uuid)
  {
  }

  /** The empty UUID gets a number, but that number reads back as absent. */
  lemma EmptyUuidNotRecoverable(c: CacheState)
    requires CacheInv(c)
    ensures LookupUuid(Intern(c, "").0, Intern(c, "").1) == None
  {
  }

  /** Zero and every number at or past the counter (a timestamp id, say) were never issued. */
  lemma NeverIssued(c: CacheState, n: nat)
    requires CacheInv(c) && (n == 0 || n >= c.nextId)
    ensures LookupUuid(c, n) == None
  {
    assert n !in c.toUuid;
  }

  /** `uuids.map(uuidToNumber)`, threading the cache through. */
  function InternAll(c: CacheState, uuids: seq<string>): (r: (CacheState, seq<nat>))
    requires CacheInv(c)
    ensures CacheInv(r.0) && |r.1| == |uuids|
    ensures forall i :: 0 <= i < |uuids| ==> uuids[i] in r.0.toNumber && r.0.toNumber[uuids[i]] == r.1[i]
    ensures forall u :: u in c.toNumber ==> u in r.0.toNumber && r.0.toNumber[u] == c.toNumber[u]
    decreases |uuids|
  {
    if uuids == [] then (c, [])
    else
      var (c1, n) := Intern(c, uuids[0]);
      var (c2, ns) := InternAll(c1, uuids[1..]);
      (c2, [n] + ns)
  }

  /** Fresh, distinct UUIDs are numbered consecutively from the counter, in the order first seen. */
  lemma {:induction false} FirstSeenOrder(c: CacheState, uuids: seq<string>)
    requires CacheInv(c)
    requires forall i :: 0 <= i < |uuids| ==> uuids[i] !in c.toNumber
    requires Distinct(uuids)
    ensures forall i :: 0 <= i < |uuids| ==> InternAll(c, uuids).1[i] == c.nextId + i
    decreases |uuids|
  {
    if uuids != [] {
      var (c1, n) := Intern(c, uuids[0]);
      assert forall i :: 0 <= i < |uuids[1..]| ==> uuids[1..][i] !in c1.toNumber by {
        forall i | 0 <= i < |uuids[1..]| ensures uuids[1..][i] !in c1.toNumber {
          assert uuids[1..][i] == uuids[i + 1] != uuids[0];
        }
      }
      FirstSeenOrder(c1, uuids[1..]);
    }
  }

  /** The cache as the module holds it: two maps and a counter, updated in place. */
  class IdCache {
    var toNumber: map<string, nat>
    var toUuid: map<nat, string>
    var nextId: nat

    function State(): CacheState
      reads this
    {
      CacheState(toNumber, toUuid, nextId)
    }

    ghost predicate Valid()
      reads this
    {
      CacheInv(State())
    }

    constructor ()
      ensures Valid() && State() == EmptyCache()
    {
      toNumber := map[];
      toUuid := map[];
      nextId := 1;
    }

    /** Takes over the numbering `s`, as a whole. */
    method Load(s: CacheState)
      requires CacheInv(s)
      modifies this
      ensures Valid() && State() == s
    {
      toNumber, toUuid, nextId := s.toNumber, s.toUuid, s.nextId;
    }

    method UuidToNumber(uuid: string) returns (id: nat)
      requires Valid()
      modifies this
      ensures Valid()
      ensures (State(), id) == Intern(old(State()), uuid)
    {
      if uuid !in toNumber {
        id := nextId;
        nextId := nextId + 1;
        toNumber := toNumber[uuid := id];
        toUuid := toUuid[id := uuid];
      }
      id := toNumber[uuid];
    }

    /** `numberToUuid` / `getUuidFromCache`. */
    function NumberToUuid(n: nat): Option<string>
      reads this
    {
      LookupUuid(State(), n)
    }

    method CondominioToApp(db: DbCondominio) returns (c: Condo)
      requires Valid()
      modifies this
      ensures Valid()
      ensures (State(), c.id) == Intern(old(State()), db.id)
      ensures c == CondoShape(db, c.id)
    {
      var id := UuidToNumber(db.id);
      c := CondoShape(db, id);
    }

    method MoradorToApp(db: DbMorador, condos: seq<DbCondominio>) returns (r: Resident)
      requires Valid()
      modifies this
      ensures Valid()
      ensures (State(), r.id) == Intern(old(State()), db.id)
      ensures r == MoradorShape(db, condos, r.id)
    {
      var id := UuidToNumber(db.id);
      r := MoradorShape(db, condos, id);
    }

    method FuncionarioToApp(db: DbFuncionario, condos: seq<DbCondominio>) returns (e: Employee)
      requires Valid()
      modifies this
      ensures Valid()
      ensures (State(), e.id) == Intern(old(State()), db.id)
      ensures e == FuncionarioShape(db, condos, e.id)
    {
      var id := UuidToNumber(db.id);
      e := FuncionarioShape(db, condos, id);
    }

    /**
     * `entregaToApp`: numbers the delivery, its resident and its employee (in
     * that order), and keeps the delivery's own UUID beside its number.
     */
    method EntregaToApp(db: DbEntrega) returns (d: Delivery)
      requires Valid()
      modifies this
      ensures Valid()
      ensures var r1 := Intern(old(State()), db.id);
              var r2 := Intern(r1.0, db.moradorId);
              var r3 := Intern(r2.0, db.funcionarioId);
              State() == r3.0 && d == EntregaShape(db, r1.1, r2.1, r3.1)
      ensures db.id != "" ==> NumberToUuid(d.id) == d.uuid
    {
      var id := UuidToNumber(db.id);
      var residentId := UuidToNumber(db.moradorId);
      var employeeId := UuidToNumber(db.funcionarioId);
      d := EntregaShape(db, id, residentId, employeeId);
    }
  }

  // ----------------------------------------------------------------- shapers

  /** `condominios.find(c => c.id === id)?.nome || ''`: the name of the first building with that id. */
  function CondoNameOf(condos: seq<DbCondominio>, condoId: string): (name: string)
    ensures (forall k :: 0 <= k < |condos| ==> condos[k].id != condoId) ==> name == ""
    ensures forall k :: (0 <= k < |condos| && condos[k].id == condoId
                         && forall j :: 0 <= j < k ==> condos[j].id != condoId) ==> name == condos[k].nome
  {
    match FindFirst(condos, (c: DbCondominio) => c.id == condoId)
    case None => ""
    case Some(k) => condos[k].nome
  }

  function CondoShape(db: DbCondominio, id: nat): (c: Condo)
    ensures c.id == id && c.name == db.nome
    ensures c.address == Address(db.endereco, "", "", db.cidade, db.estado.GetOr(""))
    ensures c.webhookUrl.Some? <==> db.webhookUrl.Some? && db.webhookUrl.value != ""
    ensures c.webhookUrl.Some? ==> c.webhookUrl == db.webhookUrl
  {
    Condo(id, db.nome, Address(db.endereco, "", "", db.cidade, db.estado.GetOr("")), NonEmpty(db.webhookUrl))
  }

  function MoradorShape(db: DbMorador, condos: seq<DbCondominio>, id: nat): (r: Resident)
    ensures r.id == id && r.name == db.nome && r.apt == db.apartamento && r.phone == db.telefone && r.active == db.ativo
    ensures r.block == "" <==> db.bloco.None? || db.bloco.value == ""
    ensures db.bloco.Some? ==> r.block == db.bloco.value
    ensures r.condo == CondoNameOf(condos, db.condominioId)
  {
    Resident(id, db.nome, db.apartamento, db.bloco.GetOr(""), db.telefone, CondoNameOf(condos, db.condominioId), db.ativo)
  }

  function FuncionarioShape(db: DbFuncionario, condos: seq<DbCondominio>, id: nat): (e: Employee)
    ensures e.id == id && e.name == db.nome && e.cpf == db.cpf && e.role == db.cargo && e.active == db.ativo
    ensures e.password.None?
    ensures e.condo == CondoNameOf(condos, db.condominioId)
  {
    Employee(id, db.nome, db.cpf, None, db.cargo, CondoNameOf(condos, db.condominioId), db.ativo)
  }

  /** The `statusMap` lookup with its `|| 'pending'` fallback. */
  function StatusOf(s: string): (st: Status)
    ensures st == PickedUp <==> s == "retirada"
  {
    match s
    case "pendente" => Pending
    case "retirada" => PickedUp
    case "cancelada" => Pending
    case _ => Pending
  }

  /** A cancelled delivery shows as pending, like an unknown status. */
  lemma StatusTable()
    ensures StatusOf("pendente") == Pending && StatusOf("retirada") == PickedUp
    ensures StatusOf("cancelada") == Pending && StatusOf("") == Pending
  {
  }

  function EntregaShape(db: DbEntrega, id: nat, residentId: nat, employeeId: nat): (d: Delivery)
    ensures d.id == id && d.uuid == Some(db.id) && d.code == db.codigoRetirada
    ensures d.residentId == residentId && d.employeeId == employeeId
    ensures d.status == StatusOf(db.status) && d.receivedDate == db.dataEntrega
    ensures d.pickupDate == NonEmpty(db.dataRetirada)
    ensures d.photoUrl == NonEmpty(db.fotoUrl)
    ensures d.pickupPerson == NonEmpty(db.descricaoRetirada)
    ensures d.observation.None?
  {
    Delivery(id, Some(db.id), db.codigoRetirada, residentId, employeeId, StatusOf(db.status), db.dataEntrega,
             NonEmpty(db.dataRetirada), NonEmpty(db.fotoUrl), NonEmpty(db.descricaoRetirada), None)
  }

  // ---------------------------------------------------------------- builders

  /** `appToMorador`: an empty block is sent as null. */
  function AppToMorador(app: Resident, condominioId: string): (m: MoradorInsert)
    ensures m.nome == app.name && m.apartamento == app.apt && m.telefone == app.phone
    ensures m.condominioId == condominioId && m.ativo == app.active
    ensures m.bloco.None? <==> app.block == ""
    ensures m.bloco.Some? ==> m.bloco.value == app.block
  {
    MoradorInsert(app.name, app.apt, OrNull(app.block), app.phone, condominioId, app.active)
  }

  /** `s || null` on a string. */
  function OrNull(s: string): (r: Option<string>)
    ensures r == OrUndefined(s)
  {
    if s == "" then None else Some(s)
  }

  /** `appToFuncionario`: a missing or empty password becomes the default `123456`. */
  function AppToFuncionario(app: Employee, condominioId: string): (f: FuncionarioInsert)
    ensures f.cpf == app.cpf && f.nome == app.name && f.cargo == app.role
    ensures f.condominioId == condominioId && f.ativo == app.active
    ensures app.password.Some? && app.password.value != "" ==> f.senha == app.password.value
    ensures app.password.None? || app.password.value == "" ==> f.senha == DefaultPassword
    ensures f.senha != ""
  {
    FuncionarioInsert(app.cpf, app.name, NonEmpty(app.password).GetOr(DefaultPassword), app.role, condominioId, app.active)
  }

  const DefaultPassword: string := "123456"

  /** `appToCondominio`: a placeholder postcode and an active building. */
  function AppToCondominio(app: Condo): (c: CondominioInsert)
    ensures c.nome == app.name && c.endereco == app.address.street && c.cidade == app.address.city
    ensures c.estado == app.address.state
    ensures c.cep == "00000-000" && c.ativo
  {
    CondominioInsert(app.name, app.address.street, app.address.city, "00000-000", app.address.state, true)
  }

  /** `appToEntrega`: a pending row; an empty photo URL is sent as null. */
  function AppToEntrega(app: DeliveryInput, moradorId: string, funcionarioId: string, condominioId: string): (e: EntregaInsert)
    ensures e.codigoRetirada == app.code && e.moradorId == moradorId && e.funcionarioId == funcionarioId
    ensures e.condominioId == condominioId && e.status == "pendente"
    ensures e.fotoUrl == NonEmpty(app.photoUrl)
    ensures e.observacoes.None? && e.mensagemEnviada.None?
  {
    EntregaInsert(app.code, moradorId, funcionarioId, condominioId, NonEmpty(app.photoUrl), None, "pendente", None)
  }

  /**
   * A resident sent with `appToMorador` and read back with `moradorToApp`
   * keeps its name, apartment, block, phone and active flag, and gets the
   * name of the building it was filed under.
   */
  lemma MoradorRoundTrip(app: Resident, k: nat, condos: seq<DbCondominio>, rowId: string, id: nat)
    requires k < |condos| && forall j :: 0 <= j < k ==> condos[j].id != condos[k].id
    ensures var m := AppToMorador(app, condos[k].id);
            var back := MoradorShape(DbMorador(rowId, m.nome, m.apartamento, m.bloco, m.telefone, m.condominioId, m.ativo), condos, id);
            back == app.(id := id, condo := condos[k].nome)
  {
  }
}
