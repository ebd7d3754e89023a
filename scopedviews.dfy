/**
 * The lists the síndico and employee dashboards show: the backend rows of
 * the logged-in user's building, converted to application records through
 * the identity cache.
 */
module ScopedViews {
  import opened Wrappers
  import opened Text
  import opened Seqs
  import opened Entities
  import opened Adapters

  /**
   * `row.condominio_id === user.condominioId`: strict equality, so a null
   * building id on the row, or a user without a building, matches nothing.
   */
  predicate SameCondo(row: Option<string>, user: Option<string>)
  {
    row.Some? && row == user
  }

  /** `rows.filter(r => r.condominio_id === user.condominioId)`. */
  function Scoped<T(==)>(rows: seq<T>, condoOf: T -> Option<string>, condoId: Option<string>): (r: seq<T>)
    ensures IsSubsequence(r, rows)
    ensures forall i :: 0 <= i < |r| ==> r[i] in rows && SameCondo(condoOf(r[i]), condoId)
    ensures forall i :: 0 <= i < |rows| && SameCondo(condoOf(rows[i]), condoId) ==> rows[i] in r
    ensures condoId.None? ==> r == []
  {
    FilterIsSubsequence(rows, x => SameCondo(condoOf(x), condoId));
    Filter(rows, x => SameCondo(condoOf(x), condoId))
  }

  function MoradorCondo(m: DbMorador): Option<string> { Some(m.condominioId) }
  function FuncionarioCondo(f: DbFuncionario): Option<string> { Some(f.condominioId) }
  function EntregaCondo(e: DbEntrega): Option<string> { e.condominioId }
  function CondominioId(c: DbCondominio): Option<string> { Some(c.id) }

  // -------------------------------------------------------------- conversion

  /** The UUIDs converting `rows` numbers, in the order the conversion numbers them. */
  function KeysOf<T>(rows: seq<T>, keys: T -> seq<string>): (r: seq<string>)
    ensures forall i, k :: 0 <= i < |rows| && 0 <= k < |keys(rows[i])| ==> keys(rows[i])[k] in r
  {
    if rows == [] then []
    else
      var rest := KeysOf(rows[1..], keys);
      assert forall i, k :: 1 <= i < |rows| && 0 <= k < |keys(rows[i])| ==> keys(rows[i])[k] in rest by {
        forall i, k | 1 <= i < |rows| && 0 <= k < |keys(rows[i])|
          ensures keys(rows[i])[k] in rest
        {
          assert rows[i] == rows[1..][i - 1];
        }
      }
      keys(rows[0]) + rest
  }

  /** The number the cache holds for `uuid` (zero, never issued, when it holds none). */
  function NumberIn(c: CacheState, uuid: string): nat
  {
    if uuid in c.toNumber then c.toNumber[uuid] else 0
  }

  /**
   * `rows.map(toApp)`: every row's UUIDs are interned in order, and each
   * record is shaped with the numbers the cache then holds, which are the
   * numbers `uuidToNumber` returned for it.
   */
  function Converted<T, U>(c: CacheState, rows: seq<T>, keys: T -> seq<string>, shape: (T, CacheState) -> U)
    : (v: (CacheState, seq<U>))
    requires CacheInv(c)
    ensures CacheInv(v.0)
    ensures v.0 == InternAll(c, KeysOf(rows, keys)).0
    ensures |v.1| == |rows|
    ensures forall i :: 0 <= i < |rows| ==> v.1[i] == shape(rows[i], v.0)
    ensures forall i, k :: 0 <= i < |rows| && 0 <= k < |keys(rows[i])| ==> keys(rows[i])[k] in v.0.toNumber
    ensures forall u :: u in c.toNumber ==> u in v.0.toNumber && v.0.toNumber[u] == c.toNumber[u]
  {
    var uuids := KeysOf(rows, keys);
    var c2 := InternAll(c, uuids).0;
    assert forall u :: u in uuids ==> u in c2.toNumber;
    (c2, Map(rows, (x: T) => shape(x, c2)))
  }

  function RowKey(id: string): seq<string> { [id] }
  function MoradorKeys(m: DbMorador): seq<string> { RowKey(m.id) }
  function FuncionarioKeys(f: DbFuncionario): seq<string> { RowKey(f.id) }
  function CondominioKeys(c: DbCondominio): seq<string> { RowKey(c.id) }

  /** `entregaToApp` numbers the delivery, then its resident, then its employee. */
  function EntregaKeys(e: DbEntrega): seq<string> { [e.id, e.moradorId, e.funcionarioId] }

  function ResidentsView(c: CacheState, rows: seq<DbMorador>, condos: seq<DbCondominio>, condoId: Option<string>)
    : (v: (CacheState, seq<Resident>))
    requires CacheInv(c)
    ensures CacheInv(v.0)
    ensures |v.1| == |Scoped(rows, MoradorCondo, condoId)|
    ensures forall i :: 0 <= i < |v.1| ==>
              Scoped(rows, MoradorCondo, condoId)[i].id in v.0.toNumber &&
              v.1[i] == MoradorShape(Scoped(rows, MoradorCondo, condoId)[i], condos,
                                     NumberIn(v.0, Scoped(rows, MoradorCondo, condoId)[i].id))
  {
    var s := Scoped(rows, MoradorCondo, condoId);
    var v := Converted(c, s, MoradorKeys, (m: DbMorador, c2: CacheState) => MoradorShape(m, condos, NumberIn(c2, m.id)));
    assert forall i :: 0 <= i < |s| ==> MoradorKeys(s[i])[0] in v.0.toNumber;
    v
  }

  function EmployeesView(c: CacheState, rows: seq<DbFuncionario>, condos: seq<DbCondominio>, condoId: Option<string>)
    : (v: (CacheState, seq<Employee>))
    requires CacheInv(c)
    ensures CacheInv(v.0)
    ensures |v.1| == |Scoped(rows, FuncionarioCondo, condoId)|
    ensures forall i :: 0 <= i < |v.1| ==>
              Scoped(rows, FuncionarioCondo, condoId)[i].id in v.0.toNumber &&
              v.1[i] == FuncionarioShape(Scoped(rows, FuncionarioCondo, condoId)[i], condos,
                                         NumberIn(v.0, Scoped(rows, FuncionarioCondo, condoId)[i].id))
  {
    var s := Scoped(rows, FuncionarioCondo, condoId);
    var v := Converted(c, s, FuncionarioKeys, (f: DbFuncionario, c2: CacheState) => FuncionarioShape(f, condos, NumberIn(c2, f.id)));
    assert forall i :: 0 <= i < |s| ==> FuncionarioKeys(s[i])[0] in v.0.toNumber;
    v
  }

  function EntregaAt(e: DbEntrega, c: CacheState): Delivery
  {
    EntregaShape(e, NumberIn(c, e.id), NumberIn(c, e.moradorId), NumberIn(c, e.funcionarioId))
  }

  function DeliveriesView(c: CacheState, rows: seq<DbEntrega>, condoId: Option<string>): (v: (CacheState, seq<Delivery>))
    requires CacheInv(c)
    ensures CacheInv(v.0)
    ensures |v.1| == |Scoped(rows, EntregaCondo, condoId)|
    ensures forall i :: 0 <= i < |v.1| ==>
              Scoped(rows, EntregaCondo, condoId)[i].id in v.0.toNumber &&
              Scoped(rows, EntregaCondo, condoId)[i].moradorId in v.0.toNumber &&
              Scoped(rows, EntregaCondo, condoId)[i].funcionarioId in v.0.toNumber &&
              v.1[i] == EntregaAt(Scoped(rows, EntregaCondo, condoId)[i], v.0)
  {
    var s := Scoped(rows, EntregaCondo, condoId);
    var v := Converted(c, s, EntregaKeys, EntregaAt);
    assert forall i :: 0 <= i < |s| ==>
             EntregaKeys(s[i])[0] in v.0.toNumber && EntregaKeys(s[i])[1] in v.0.toNumber && EntregaKeys(s[i])[2] in v.0.toNumber;
    v
  }

  // ------------------------------------------------------------- buildings

  function CondoAt(b: DbCondominio, c: CacheState): Condo
  {
    CondoShape(b, NumberIn(c, b.id))
  }

  /** `c.id.toString() === user.condominioId`: the local number's numeral against the user's building UUID. */
  predicate NumeralIs(b: Condo, condoId: Option<string>)
  {
    condoId == Some(NatToString(b.id))
  }

  /**
   * The buildings list as written: every building is converted (and so
   * numbered), then kept only when its local number's numeral equals the
   * user's building id.
   */
  function CondosViewAsWritten(c: CacheState, rows: seq<DbCondominio>, condoId: Option<string>): (v: (CacheState, seq<Condo>))
    requires CacheInv(c)
    ensures CacheInv(v.0)
    ensures forall i :: 0 <= i < |v.1| ==> condoId == Some(NatToString(v.1[i].id))
    ensures forall i :: 0 <= i < |rows| ==> rows[i].id in v.0.toNumber
  {
    var all := Converted(c, rows, CondominioKeys, CondoAt);
    assert forall i :: 0 <= i < |rows| ==> CondominioKeys(rows[i])[0] in all.0.toNumber;
    (all.0, Filter(all.1, (b: Condo) => NumeralIs(b, condoId)))
  }

  /**
   * A building id that is not a decimal numeral (every UUID has dashes)
   * matches no local number, so the list is always empty.
   */
  lemma UuidListsNoCondo(c: CacheState, rows: seq<DbCondominio>, u: string, k: nat)
    requires CacheInv(c)
    requires k < |u| && !IsDigit(u[k])
    ensures CondosViewAsWritten(c, rows, Some(u)).1 == []
  {
    var v := CondosViewAsWritten(c, rows, Some(u)).1;
    assert |v| > 0 ==> u == NatToString(v[0].id);
  }

  /** The evidently intended list: the buildings whose UUID is the user's building id. */
  function CondosView(c: CacheState, rows: seq<DbCondominio>, condoId: Option<string>): (v: (CacheState, seq<Condo>))
    requires CacheInv(c)
    ensures CacheInv(v.0)
    ensures |v.1| == |Scoped(rows, CondominioId, condoId)|
    ensures forall i :: 0 <= i < |v.1| ==>
              Scoped(rows, CondominioId, condoId)[i].id in v.0.toNumber &&
              v.1[i] == CondoShape(Scoped(rows, CondominioId, condoId)[i],
                                   NumberIn(v.0, Scoped(rows, CondominioId, condoId)[i].id))
  {
    var s := Scoped(rows, CondominioId, condoId);
    var v := Converted(c, s, CondominioKeys, CondoAt);
    assert forall i :: 0 <= i < |s| ==> CondominioKeys(s[i])[0] in v.0.toNumber;
    v
  }

  /** With the UUID comparison the user's own building is listed. */
  lemma OwnCondoListed(c: CacheState, rows: seq<DbCondominio>, k: nat)
    requires CacheInv(c) && k < |rows|
    ensures exists i :: 0 <= i < |CondosView(c, rows, Some(rows[k].id)).1| &&
              CondosView(c, rows, Some(rows[k].id)).1[i].name == rows[k].nome
  {
    var s := Scoped(rows, CondominioId, Some(rows[k].id));
    assert rows[k] in s;
    var i :| 0 <= i < |s| && s[i] == rows[k];
    assert CondosView(c, rows, Some(rows[k].id)).1[i].name == rows[k].nome;
  }

  // ---------------------------------------------------------------- counting

  /** Two lists read element by element agree on how many elements pass. */
  lemma {:induction false} CountAlong<T, U>(t: seq<U>, s: seq<T>, p: U -> bool, q: T -> bool)
    requires |t| == |s|
    requires forall i :: 0 <= i < |s| ==> p(t[i]) == q(s[i])
    ensures |Filter(t, p)| == |Filter(s, q)|
  {
    if s != [] {
      CountAlong(t[1..], s[1..], p, q);
    }
  }
}
