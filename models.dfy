/**
 * The records of the helpdesk (STIWEBSERVICE/models.py): the user row with its
 * company rule and the post_save receiver that fills the company from the
 * e-mail domain, and the ticket with its state and priority choices and its
 * defaults.
 */
module Models {
  import opened Wrappers
  import opened Text

  type UserId = nat

  /** A row of the user table: the CustomUser fields the core reads or writes. */
  datatype User = User(
    username: string,
    email: string,
    nombreEmpresa: Option<string>,
    cargo: Option<string>,
    isStaff: bool,
    isSuperuser: bool,
    isActive: bool)

  /** Python falsiness of a nullable text field: None and "" are both blank. */
  predicate Blank(s: Option<string>) {
    s.None? || s.value == ""
  }

  datatype ValidationError = ValidationError(message: string)

  const EmpresaObligatoria := "El nombre de la empresa es obligatorio."

  /** CustomUser.clean: a user without a company does not validate. */
  function Clean(u: User): (r: Outcome<ValidationError>)
    ensures r == Pass <==> !Blank(u.nombreEmpresa)
    ensures r.Fail? ==> r.error.message == EmpresaObligatoria
  {
    if Blank(u.nombreEmpresa) then Fail(ValidationError(EmpresaObligatoria)) else Pass
  }

  /** `email.split('@')[1]` on an address without '@'. */
  datatype HookError = IndexError

  /**
   * The company the post_save receiver derives from an e-mail address: the
   * second '@'-separated part, cut at its first '.', upper-cased.
   */
  function DeriveCompany(email: string): (r: Result<string, HookError>)
    ensures r.Err? <==> '@' !in email
    ensures r.Ok? ==> '@' !in r.value && '.' !in r.value && NoLowerAscii(r.value)
  {
    var partes := Split(email, '@');
    if |partes| < 2 then Err(IndexError)
    else
      var dominio := Split(partes[1], '.')[0];
      UpperShape(dominio, '@');
      UpperShape(dominio, '.');
      Ok(Upper(dominio))
  }

  /**
   * The domain label, read off the address by position: the text after the
   * first '@', up to the next '@' or the end, and then up to its first '.'.
   */
  function DomainLabel(email: string): string
    requires '@' in email
  {
    var resto := email[Find(email, '@') + 1..];
    var host := resto[..Find(resto, '@')];
    host[..Find(host, '.')]
  }

  /** The split-based derivation agrees with the positional reading. */
  lemma DeriveCompanyIsDomainLabel(email: string)
    requires '@' in email
    ensures DeriveCompany(email) == Ok(Upper(DomainLabel(email)))
  {
    var resto := email[Find(email, '@') + 1..];
    SplitAtFirst(email, '@');
    SplitAtFirst(resto, '@');
    var host := Split(email, '@')[1];
    assert host == Split(resto, '@')[0];
    SplitAtFirst(host, '.');
  }

  /** For `local@domain.tld` the company is `DOMAIN`, whatever follows the first dot. */
  lemma {:induction false} DeriveCompanyPlainAddress(local: string, domain: string, tld: string)
    requires '@' !in local && '@' !in domain && '@' !in tld && '.' !in domain
    ensures DeriveCompany(local + ['@'] + domain + ['.'] + tld) == Ok(Upper(domain))
  {
    var host := domain + ['.'] + tld;
    assert local + ['@'] + domain + ['.'] + tld == local + ['@'] + host;
    SplitAfterPrefix(local, host, '@');
    SplitWithoutSep(host, '@');
    SplitAfterPrefix(domain, tld, '.');
  }

  /** An address without '@' makes the receiver raise. */
  lemma DeriveCompanyNoAt(email: string)
    requires '@' !in email
    ensures DeriveCompany(email) == Err(IndexError)
  {
  }

  /**
   * The derived company is empty exactly when nothing but '.' or '@' (or the
   * end of the address) follows the first '@'; such a user still fails Clean.
   */
  lemma DerivedCompanyEmpty(email: string)
    requires '@' in email
    ensures DeriveCompany(email) == Ok("") <==>
      var k := Find(email, '@');
      k + 1 == |email| || email[k + 1] == '.' || email[k + 1] == '@'
  {
    DeriveCompanyIsDomainLabel(email);
    var k := Find(email, '@');
    var resto := email[k + 1..];
    var host := resto[..Find(resto, '@')];
    if resto != [] && resto[0] != '@' {
      assert host[0] == resto[0];
    }
  }

  /**
   * asignar_empresa_automatica applied to the row `u` that has just been
   * saved: when the row was created with a blank company the company becomes
   * the derived one; otherwise the row is left as it is. No other field moves.
   */
  function CompanyHook(u: User, created: bool): (r: Result<User, HookError>)
    ensures r.Err? <==> created && Blank(u.nombreEmpresa) && '@' !in u.email
    ensures r.Ok? ==> r.value == u.(nombreEmpresa := r.value.nombreEmpresa)
    ensures !created || !Blank(u.nombreEmpresa) ==> r == Ok(u)
    ensures created && Blank(u.nombreEmpresa) && r.Ok? ==>
      r.value.nombreEmpresa == Some(DeriveCompany(u.email).value)
  {
    if created && Blank(u.nombreEmpresa) then
      match DeriveCompany(u.email)
      case Err(e) => Err(e)
      case Ok(empresa) => Ok(u.(nombreEmpresa := Some(empresa)))
    else Ok(u)
  }

  /** The receiver's own save re-fires it with created false, which changes nothing. */
  lemma HookSaveDoesNotRetrigger(u: User, v: User)
    requires CompanyHook(u, true) == Ok(v)
    ensures CompanyHook(v, false) == Ok(v)
    ensures v.email == u.email && v.nombreEmpresa.Some?
    ensures Blank(u.nombreEmpresa) ==> '@' !in v.nombreEmpresa.value && '.' !in v.nombreEmpresa.value
  {
  }

  /** The user table, the only state the receiver touches. */
  class UserTable {
    var rows: map<UserId, User>

    constructor ()
      ensures rows == map[]
    {
      rows := map[];
    }

    /**
     * The post_save receiver for the row `id` that has just been saved. It
     * rewrites only that row's company, then saves it, which fires the
     * receiver once more with `created` false.
     */
    method OnCreate(id: UserId, created: bool) returns (r: Outcome<HookError>)
      requires id in rows
      modifies this
      decreases if created then 1 else 0
      ensures CompanyHook(old(rows[id]), created).Err? ==>
        r == Fail(IndexError) && rows == old(rows)
      ensures CompanyHook(old(rows[id]), created).Ok? ==>
        r == Pass && rows == old(rows)[id := CompanyHook(old(rows[id]), created).value]
    {
      var instance := rows[id];
      if created && Blank(instance.nombreEmpresa) {
        var dominio := DeriveCompany(instance.email);
        if dominio.Err? {
          return Fail(dominio.error);
        }
        rows := rows[id := instance.(nombreEmpresa := Some(dominio.value))];
        r := OnCreate(id, false);
      } else {
        r := Pass;
      }
    }
  }

  datatype Estado = Pendiente | EnProgreso | Resuelto {
    /** The stored text of the state, as listed in ESTADO_CHOICES. */
    function Label(): string {
      match this
      case Pendiente => "Pendiente"
      case EnProgreso => "En Progreso"
      case Resuelto => "Resuelto"
    }
  }

  /** The state a stored text names, if it is one of ESTADO_CHOICES. */
  function ParseEstado(s: string): (r: Option<Estado>)
    ensures r.Some? ==> r.value.Label() == s
    ensures r.None? ==> s !in ["Pendiente", "En Progreso", "Resuelto"]
  {
    if s == "Pendiente" then Some(Pendiente)
    else if s == "En Progreso" then Some(EnProgreso)
    else if s == "Resuelto" then Some(Resuelto)
    else None
  }

  lemma EstadoRoundTrip(e: Estado)
    ensures ParseEstado(e.Label()) == Some(e)
  {
  }

  datatype Prioridad = Alta | Media | Baja {
    /** The stored text of the priority, as listed in PRIORIDAD_CHOICES. */
    function Label(): string {
      match this
      case Alta => "Alta"
      case Media => "Media"
      case Baja => "Baja"
    }
  }

  /** The priority a stored text names, if it is one of PRIORIDAD_CHOICES. */
  function ParsePrioridad(s: string): (r: Option<Prioridad>)
    ensures r.Some? ==> r.value.Label() == s
    ensures r.None? ==> s !in ["Alta", "Media", "Baja"]
  {
    if s == "Alta" then Some(Alta)
    else if s == "Media" then Some(Media)
    else if s == "Baja" then Some(Baja)
    else None
  }

  lemma PrioridadRoundTrip(p: Prioridad)
    ensures ParsePrioridad(p.Label()) == Some(p)
  {
  }

  /** The column widths of `titulo` and `prioridad` (their `max_length`). */
  const TituloMaxLength := 200
  const PrioridadMaxLength := 20

  /** The department is an identifier only; its record is not part of this model. */
  type DepartamentoId = string

  /**
   * A ticket row. Timestamps are abstract clock readings. The priority is
   * kept as the stored text because creation stores whatever text it is given.
   */
  datatype Ticket = Ticket(
    titulo: string,
    descripcion: string,
    usuario: UserId,
    departamento: DepartamentoId,
    estado: Estado,
    prioridad: Option<string>,
    fechaCreacion: nat,
    fechaActualizacion: nat,
    tecnicoAsignado: Option<UserId>,
    visitaTerreno: bool,
    solucion: Option<string>)

  /** The priority field holds one of PRIORIDAD_CHOICES or nothing. */
  predicate PrioridadInChoices(t: Ticket) {
    t.prioridad.None? || ParsePrioridad(t.prioridad.value).Some?
  }

  /**
   * A ticket created at clock reading `ahora` with only the fields that have
   * no default given: the model defaults fill the rest.
   */
  function NewTicket(titulo: string, descripcion: string, usuario: UserId,
                     departamento: DepartamentoId, ahora: nat): (t: Ticket)
    ensures t.titulo == titulo && t.descripcion == descripcion
    ensures t.usuario == usuario && t.departamento == departamento
    ensures t.estado == Pendiente && t.prioridad == Some(Media.Label())
    ensures !t.visitaTerreno && t.tecnicoAsignado.None? && t.solucion.None?
    ensures t.fechaCreacion == ahora && t.fechaActualizacion == ahora
    ensures PrioridadInChoices(t)
  {
    Ticket(titulo, descripcion, usuario, departamento, Pendiente, Some("Media"),
           ahora, ahora, None, false, None)
  }
}
