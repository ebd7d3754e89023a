/**
 * The authentication context: the login dispatcher that tries the
 * super-administrator, employee and building-manager (síndico) tables in
 * turn, logout, and the restore of the user saved in local storage.
 *
 * Each table query (`.eq('cpf', cpf).eq('ativo', true).single()`) is an
 * input: its row when exactly one active record matched, `NotFound` when the
 * query returned no row or an error, `Threw` when the awaited call raised.
 */
module Auth {
  import opened Wrappers

  datatype UserType = SuperAdmin | Funcionario | Sindico

  /** `AuthUser`: who is logged in, with the building for employees and síndicos. */
  datatype AuthUser = AuthUser(
    id: string,
    cpf: string,
    nome: string,
    tipo: UserType,
    condominioId: Option<string>,
    condominioNome: Option<string>)

  /** A `super_administradores` row. */
  datatype AdminRow = AdminRow(id: string, cpf: string, nome: string, senha: string)

  /** A `funcionarios` row joined with its building's name. */
  datatype EmployeeRow = EmployeeRow(
    id: string, cpf: string, nome: string, senha: string,
    condominioId: string, condominioNome: Option<string>)

  /**
   * A `condominios` row matched on `sindico_cpf`; the manager's id, name and
   * password columns are nullable.
   */
  datatype CondoRow = CondoRow(
    id: string, nome: string,
    sindicoId: Option<string>, sindicoCpf: string,
    sindicoNome: Option<string>, sindicoSenha: Option<string>)

  /** The outcome of one awaited table query. */
  datatype Lookup<T> = Found(row: T) | NotFound | Threw

  /** A found record reduced to what the dispatcher needs: its stored password and the user it logs in. */
  datatype Candidate = Candidate(password: Option<string>, user: AuthUser)

  datatype LoginFailure = WrongPassword | NotRegistered | LoginError

  datatype LoginResult = LoggedIn(user: AuthUser) | Failed(failure: LoginFailure)

  /** The `error` text `login` returns for each failure. */
  function FailureMessage(f: LoginFailure): string
  {
    match f
    case WrongPassword => "Senha incorreta"
    case NotRegistered => "CPF n\U{E3}o encontrado ou inativo"
    case LoginError => "Erro ao tentar fazer login"
  }

  lemma FailureMessagesDistinct(f: LoginFailure, g: LoginFailure)
    ensures FailureMessage(f) == FailureMessage(g) <==> f == g
  {
    assert FailureMessage(WrongPassword)[0] == 'S';
    assert FailureMessage(NotRegistered)[0] == 'C';
    assert FailureMessage(LoginError)[0] == 'E';
  }

  function AdminUser(a: AdminRow): (u: AuthUser)
    ensures u.tipo == SuperAdmin && u.condominioId.None?
    ensures u.id == a.id && u.cpf == a.cpf && u.nome == a.nome
  {
    AuthUser(a.id, a.cpf, a.nome, SuperAdmin, None, None)
  }

  function EmployeeUser(f: EmployeeRow): (u: AuthUser)
    ensures u.tipo == Funcionario && u.condominioId == Some(f.condominioId)
    ensures u.id == f.id && u.cpf == f.cpf && u.nome == f.nome && u.condominioNome == f.condominioNome
  {
    AuthUser(f.id, f.cpf, f.nome, Funcionario, Some(f.condominioId), f.condominioNome)
  }

  const DefaultSindicoName := "S\U{ED}ndico"

  /** The síndico's user: `sindico_id || id` and `sindico_nome || 'Síndico'`. */
  function SindicoUser(c: CondoRow): (u: AuthUser)
    ensures u.tipo == Sindico && u.condominioId == Some(c.id) && u.condominioNome == Some(c.nome)
    ensures u.id == if c.sindicoId.Some? && c.sindicoId.value != "" then c.sindicoId.value else c.id
    ensures u.nome == if c.sindicoNome.Some? && c.sindicoNome.value != "" then c.sindicoNome.value else DefaultSindicoName
    ensures u.cpf == c.sindicoCpf
  {
    AuthUser(NonEmpty(c.sindicoId).GetOr(c.id), c.sindicoCpf, NonEmpty(c.sindicoNome).GetOr(DefaultSindicoName),
             Sindico, Some(c.id), Some(c.nome))
  }

  function AsCandidate<T>(l: Lookup<T>, password: T -> Option<string>, user: T -> AuthUser): (r: Lookup<Candidate>)
    ensures r.NotFound? <==> l.NotFound?
    ensures r.Threw? <==> l.Threw?
    ensures r.Found? ==> r.row == Candidate(password(l.row), user(l.row))
  {
    match l
    case Found(row) => Found(Candidate(password(row), user(row)))
    case NotFound => NotFound
    case Threw => Threw
  }

  /** The stage that decides a login: the first whose query did not come back empty. */
  function Deciding(stages: seq<Lookup<Candidate>>): (k: nat)
    ensures k <= |stages|
    ensures forall i :: 0 <= i < k ==> stages[i].NotFound?
    ensures k < |stages| ==> !stages[k].NotFound?
  {
    if stages == [] || !stages[0].NotFound? then 0 else 1 + Deciding(stages[1..])
  }

  /**
   * The stages in order, each a `return` once its query finds a record; an
   * exception anywhere aborts the whole login.
   */
  function Decide(senha: string, stages: seq<Lookup<Candidate>>): (r: LoginResult)
    ensures r.LoggedIn? <==>
              Deciding(stages) < |stages| && stages[Deciding(stages)].Found? &&
              stages[Deciding(stages)].row.password == Some(senha)
    ensures r.LoggedIn? ==> r.user == stages[Deciding(stages)].row.user
    ensures r == Failed(WrongPassword) <==>
              Deciding(stages) < |stages| && stages[Deciding(stages)].Found? &&
              stages[Deciding(stages)].row.password != Some(senha)
    ensures r == Failed(LoginError) <==> Deciding(stages) < |stages| && stages[Deciding(stages)].Threw?
    ensures r == Failed(NotRegistered) <==> Deciding(stages) == |stages|
  {
    if stages == [] then Failed(NotRegistered)
    else match stages[0]
      case Found(c) => if c.password == Some(senha) then LoggedIn(c.user) else Failed(WrongPassword)
      case Threw => Failed(LoginError)
      case NotFound => Decide(senha, stages[1..])
  }

  function AdminPassword(a: AdminRow): Option<string> { Some(a.senha) }
  function EmployeePassword(f: EmployeeRow): Option<string> { Some(f.senha) }
  function SindicoPassword(c: CondoRow): Option<string> { c.sindicoSenha }

  /** `login`'s three stages: super-administrator, then employee, then síndico. */
  function Stages(admin: Lookup<AdminRow>, employee: Lookup<EmployeeRow>, condo: Lookup<CondoRow>): (s: seq<Lookup<Candidate>>)
    ensures |s| == 3
    ensures s[0] == AsCandidate(admin, AdminPassword, AdminUser)
    ensures s[1] == AsCandidate(employee, EmployeePassword, EmployeeUser)
    ensures s[2] == AsCandidate(condo, SindicoPassword, SindicoUser)
  {
    [AsCandidate(admin, AdminPassword, AdminUser),
     AsCandidate(employee, EmployeePassword, EmployeeUser),
     AsCandidate(condo, SindicoPassword, SindicoUser)]
  }

  function Login(senha: string, admin: Lookup<AdminRow>, employee: Lookup<EmployeeRow>, condo: Lookup<CondoRow>): LoginResult
  {
    Decide(senha, Stages(admin, employee, condo))
  }

  /** A super-administrator record decides the login alone: the later tables are never consulted. */
  lemma AdminDecides(senha: string, a: AdminRow, employee: Lookup<EmployeeRow>, condo: Lookup<CondoRow>)
    ensures Login(senha, Found(a), employee, condo) ==
              if a.senha == senha then LoggedIn(AdminUser(a)) else Failed(WrongPassword)
  {
    assert Deciding(Stages(Found(a), employee, condo)) == 0;
  }

  /** With no super-administrator, an employee record decides the login and the síndico table is never consulted. */
  lemma EmployeeDecides(senha: string, f: EmployeeRow, condo: Lookup<CondoRow>)
    ensures Login(senha, NotFound, Found(f), condo) ==
              if f.senha == senha then LoggedIn(EmployeeUser(f)) else Failed(WrongPassword)
  {
    var s := Stages(NotFound, Found(f), condo);
    assert s[1..][0] == s[1];
    assert Deciding(s[1..]) == 0;
  }

  /**
   * Only the last stage is left: a síndico logs in when the building's
   * manager password is set and equal; a null password never matches.
   */
  lemma SindicoDecides(senha: string, c: CondoRow)
    ensures Login(senha, NotFound, NotFound, Found(c)) ==
              if c.sindicoSenha == Some(senha) then LoggedIn(SindicoUser(c)) else Failed(WrongPassword)
  {
    var s2 := Stages(NotFound, NotFound, Found(c))[1..][1..];
    assert s2[0] == Found(Candidate(c.sindicoSenha, SindicoUser(c)));
    assert Deciding(s2) == 0;
  }

  /** `CPF não encontrado ou inativo` exactly when none of the three tables has an active record. */
  lemma NotRegisteredIffAllEmpty(senha: string, admin: Lookup<AdminRow>, employee: Lookup<EmployeeRow>, condo: Lookup<CondoRow>)
    ensures Login(senha, admin, employee, condo) == Failed(NotRegistered) <==>
              admin.NotFound? && employee.NotFound? && condo.NotFound?
  {
    var s := Stages(admin, employee, condo);
    if admin.NotFound? && employee.NotFound? && condo.NotFound? {
      assert s[1..][1..][1..] == [];
    } else if admin.NotFound? && employee.NotFound? {
      assert s[1..][1..][0] == s[2];
    } else if admin.NotFound? {
      assert s[1..][0] == s[1];
    }
  }

  /** An exception in any query reached aborts the login with `Erro ao tentar fazer login`. */
  lemma ThrewAborts(senha: string, admin: Lookup<AdminRow>, employee: Lookup<EmployeeRow>, condo: Lookup<CondoRow>)
    ensures Login(senha, admin, employee, condo) == Failed(LoginError) <==>
              admin.Threw? || (admin.NotFound? && employee.Threw?) ||
              (admin.NotFound? && employee.NotFound? && condo.Threw?)
  {
    var s := Stages(admin, employee, condo);
    if admin.NotFound? {
      assert s[1..][0] == s[1];
      if employee.NotFound? {
        assert s[1..][1..][0] == s[2];
        if condo.NotFound? {
          assert s[1..][1..][1..] == [];
        }
      }
    }
  }

  /** The logged-in role is the role of the first table holding the CPF. */
  lemma RoleOfFirstTable(senha: string, admin: Lookup<AdminRow>, employee: Lookup<EmployeeRow>, condo: Lookup<CondoRow>)
    ensures Login(senha, admin, employee, condo).LoggedIn? ==>
              (Login(senha, admin, employee, condo).user.tipo == SuperAdmin <==> admin.Found?) &&
              (Login(senha, admin, employee, condo).user.tipo == Funcionario <==> admin.NotFound? && employee.Found?) &&
              (Login(senha, admin, employee, condo).user.tipo == Sindico <==> admin.NotFound? && employee.NotFound? && condo.Found?)
  {
    if admin.Found? {
      AdminDecides(senha, admin.row, employee, condo);
    } else if admin.NotFound? && employee.Found? {
      EmployeeDecides(senha, employee.row, condo);
    } else if admin.NotFound? && employee.NotFound? && condo.Found? {
      SindicoDecides(senha, condo.row);
    } else if admin.NotFound? && employee.NotFound? && condo.NotFound? {
      NotRegisteredIffAllEmpty(senha, admin, employee, condo);
    } else {
      ThrewAborts(senha, admin, employee, condo);
    }
  }

  /** What local storage holds under `entregas_zap_user`. */
  datatype SavedEntry = Absent | Stored(user: AuthUser) | Unreadable

  /** The provider's state: `user`, `loading`, and the saved entry. */
  datatype AuthState = AuthState(user: Option<AuthUser>, loading: bool, saved: SavedEntry)

  /** A page load: nothing in memory, the saved entry untouched. */
  function PageLoad(saved: SavedEntry): (st: AuthState)
    ensures st.user.None? && st.loading && st.saved == saved
  {
    AuthState(None, true, saved)
  }

  /** The mount effect: a readable entry is restored, an unreadable one removed. */
  function Restored(st: AuthState): (r: AuthState)
    ensures !r.loading
    ensures st.saved.Stored? ==> r.user == Some(st.saved.user) && r.saved == st.saved
    ensures st.saved.Unreadable? ==> r.user == st.user && r.saved == Absent
    ensures st.saved.Absent? ==> r.user == st.user && r.saved == Absent
  {
    match st.saved
    case Absent => st.(loading := false)
    case Stored(u) => st.(user := Some(u), loading := false)
    case Unreadable => st.(loading := false, saved := Absent)
  }

  /** A successful login sets the user and saves it; a failed one changes nothing. */
  function AfterLogin(st: AuthState, r: LoginResult): (s: AuthState)
    ensures r.LoggedIn? ==> s == st.(user := Some(r.user), saved := Stored(r.user))
    ensures r.Failed? ==> s == st
  {
    if r.LoggedIn? then st.(user := Some(r.user), saved := Stored(r.user)) else st
  }

  function AfterLogout(st: AuthState): (s: AuthState)
    ensures s == st.(user := None, saved := Absent)
  {
    st.(user := None, saved := Absent)
  }

  /** A login survives a reload: the next page load restores the same user. */
  lemma LoginSurvivesReload(st: AuthState, r: LoginResult)
    requires r.LoggedIn?
    ensures Restored(PageLoad(AfterLogin(st, r).saved)).user == Some(r.user)
  {
  }

  /** After logout a reload restores nobody. */
  lemma LogoutSurvivesReload(st: AuthState)
    ensures Restored(PageLoad(AfterLogout(st).saved)).user.None?
  {
  }

  /** Restoring twice is restoring once: the second run finds the entry already removed or already loaded. */
  lemma RestoreIdempotent(st: AuthState)
    ensures Restored(Restored(st)) == Restored(st)
  {
  }

  /** `AuthProvider`: the context's state and its operations. */
  class AuthProvider {
    var user: Option<AuthUser>
    var loading: bool
    var saved: SavedEntry

    function State(): AuthState
      reads this
    {
      AuthState(user, loading, saved)
    }

    /** A page load with `saved` in local storage. */
    constructor(saved0: SavedEntry)
      ensures State() == PageLoad(saved0)
    {
      user := None;
      loading := true;
      saved := saved0;
    }

    /** The mount effect. */
    method Restore()
      modifies this
      ensures State() == Restored(old(State()))
    {
      match saved {
        case Absent =>
        case Stored(u) => user := Some(u);
        case Unreadable => saved := Absent;
      }
      loading := false;
    }

    /**
     * `login(cpf, senha)` given the three queries' outcomes: the returned
     * `success` and `error`, and the user set and saved on success.
     */
    method LogIn(senha: string, admin: Lookup<AdminRow>, employee: Lookup<EmployeeRow>, condo: Lookup<CondoRow>)
      returns (success: bool, error: Option<string>)
      modifies this
      ensures success <==> Login(senha, admin, employee, condo).LoggedIn?
      ensures !success ==> error == Some(FailureMessage(Login(senha, admin, employee, condo).failure))
      ensures success ==> error.None?
      ensures State() == AfterLogin(old(State()), Login(senha, admin, employee, condo))
    {
      var r := Login(senha, admin, employee, condo);
      if r.LoggedIn? {
        user := Some(r.user);
        saved := Stored(r.user);
        success, error := true, None;
      } else {
        success, error := false, Some(FailureMessage(r.failure));
      }
    }

    method LogOut()
      modifies this
      ensures State() == AfterLogout(old(State()))
    {
      user := None;
      saved := Absent;
    }
  }
}
