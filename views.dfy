/**
 * The two views of STIWEBSERVICE/views.py that carry logic: ticket_vista,
 * which validates a submitted form and appends one ticket, and
 * dashboard_vista, which counts tickets by state and lists the five most
 * recent ones.
 */
module Views {
  import opened Wrappers
  import opened Models

  /** The parts of an HTTP request the views read; `user` is None for an anonymous visitor. */
  datatype Request = Request(verb: string, user: Option<UserId>, post: map<string, string>)

  /** All four fields the ticket form requires are present and not empty. */
  predicate Complete(post: map<string, string>) {
    !Blank(Get(post, "titulo")) && !Blank(Get(post, "descripcion")) &&
    !Blank(Get(post, "departamento")) && !Blank(Get(post, "prioridad"))
  }

  /**
   * How a varchar(`width`) column stores `v`: as it is when it fits; cut to
   * the width when every character beyond it is a space; refused otherwise.
   */
  function FitColumn(v: string, width: nat): (r: Option<string>)
    ensures r.Some? <==> |v| <= width || forall i :: width <= i < |v| ==> v[i] == ' '
    ensures r.Some? ==> |r.value| <= width && r.value <= v
    ensures r.Some? ==> v == r.value + seq(|v| - |r.value|, _ => ' ')
    ensures |v| <= width ==> r == Some(v)
  {
    if |v| <= width then Some(v)
    else if forall i :: width <= i < |v| ==> v[i] == ' ' then
      assert v == v[..width] + seq(|v| - width, _ => ' ');
      Some(v[..width])
    else None
  }

  /** A value exactly the column's width followed by spaces is stored as that value. */
  lemma TrailingSpacesCut(v: string, n: nat, width: nat)
    requires |v| == width
    ensures FitColumn(v + seq(n, _ => ' '), width) == Some(v)
  {
    var padded := v + seq(n, _ => ' ');
    assert padded[..width] == v;
  }

  /**
   * No text bound into the INSERT holds a NUL character, which the database
   * driver refuses to send.
   */
  predicate NulFree(post: map<string, string>)
    requires Complete(post)
  {
    '\0' !in post["titulo"] && '\0' !in post["descripcion"] && '\0' !in post["prioridad"]
  }

  /**
   * The posted title and priority can be stored in their varchar columns.
   * Creation runs no field validation, so only the database enforces this.
   */
  predicate FitsColumns(post: map<string, string>)
    requires Complete(post)
  {
    FitColumn(post["titulo"], TituloMaxLength).Some? &&
    FitColumn(post["prioridad"], PrioridadMaxLength).Some?
  }

  const CamposObligatorios := "Todos los campos son obligatorios."
  const TicketCreado := "El ticket fue creado exitosamente."

  datatype ViewError =
    | DepartamentoDoesNotExist   // Departamento.objects.get finds no row
    | AnonymousCreator           // the ticket's usuario must be a CustomUser
    | NulCharacter               // the driver refuses a text holding NUL
    | ValueTooLong               // the INSERT exceeds a varchar column's width

  datatype TicketResponse =
    | ShowForm(error: Option<string>)     // render ticket1.html, with the error message if any
    | RedirectDashboard(notice: string)   // redirect("dashboard") with a success message
    | Raised(exception: ViewError)

  /**
   * The ticket row a complete form submission stores for `usuario` at
   * `ahora`: the posted texts, the title and priority as their columns keep
   * them, and the model defaults.
   */
  function TicketFromPost(post: map<string, string>, usuario: UserId, ahora: nat): (t: Ticket)
    requires Complete(post) && FitsColumns(post)
    ensures t.titulo <= post["titulo"] && |t.titulo| <= TituloMaxLength
    ensures |post["titulo"]| <= TituloMaxLength ==> t.titulo == post["titulo"]
    ensures t.descripcion == post["descripcion"] && t.departamento == post["departamento"]
    ensures t.prioridad.Some? && t.prioridad.value <= post["prioridad"]
    ensures |t.prioridad.value| <= PrioridadMaxLength
    ensures |post["prioridad"]| <= PrioridadMaxLength ==> t.prioridad == Some(post["prioridad"])
    ensures t.usuario == usuario && t.estado == Pendiente
    ensures t.tecnicoAsignado.None? && !t.visitaTerreno && t.solucion.None?
    ensures t.fechaCreacion == ahora && t.fechaActualizacion == ahora
  {
    var titulo := FitColumn(post["titulo"], TituloMaxLength).value;
    var prioridad := FitColumn(post["prioridad"], PrioridadMaxLength).value;
    NewTicket(titulo, post["descripcion"], usuario, post["departamento"], ahora)
      .(prioridad := Some(prioridad))
  }

  /**
   * The submitted priority is stored without a check against the choices,
   * so a ticket can leave PRIORIDAD_CHOICES.
   */
  lemma PostedPriorityNotChecked(post: map<string, string>, usuario: UserId, ahora: nat)
    requires Complete(post) && FitsColumns(post) && ParsePrioridad(post["prioridad"]).None?
    ensures !PrioridadInChoices(TicketFromPost(post, usuario, ahora))
  {
    var stored := TicketFromPost(post, usuario, ahora).prioridad.value;
    if |post["prioridad"]| > PrioridadMaxLength {
      assert |stored| == PrioridadMaxLength;
    }
  }

  /** The tickets of `ts` in state `e`, in their order: `filter(estado=e)`. */
  function WithEstado(ts: seq<Ticket>, e: Estado): (r: seq<Ticket>)
    ensures |r| <= |ts|
    ensures forall i :: 0 <= i < |r| ==> r[i].estado == e
  {
    if ts == [] then []
    else
      assert ts == [ts[0]] + ts[1..];
      (if ts[0].estado == e then [ts[0]] else []) + WithEstado(ts[1..], e)
  }

  /** Every ticket in state `e` is kept as often as it occurs, and no other ticket is. */
  lemma {:induction false} WithEstadoSelects(ts: seq<Ticket>, e: Estado, t: Ticket)
    ensures multiset(WithEstado(ts, e))[t] == if t.estado == e then multiset(ts)[t] else 0
  {
    if ts != [] {
      WithEstadoSelects(ts[1..], e, t);
      assert ts == [ts[0]] + ts[1..];
    }
  }

  /** The count of each state partitions the tickets. */
  lemma {:induction false} EstadoCountsPartition(ts: seq<Ticket>)
    ensures |WithEstado(ts, Pendiente)| + |WithEstado(ts, EnProgreso)| +
            |WithEstado(ts, Resuelto)| == |ts|
  {
    if ts != [] {
      EstadoCountsPartition(ts[1..]);
    }
  }

  /** Pending and resolved tickets together never exceed the total. */
  lemma PendientesMasResueltos(ts: seq<Ticket>)
    ensures |WithEstado(ts, Pendiente)| + |WithEstado(ts, Resuelto)| <= |ts|
  {
    EstadoCountsPartition(ts);
  }

  /** Appending one ticket adds it to the count of its own state only. */
  lemma {:induction false} WithEstadoAppend(ts: seq<Ticket>, t: Ticket, e: Estado)
    ensures WithEstado(ts + [t], e) == WithEstado(ts, e) + (if t.estado == e then [t] else [])
  {
    var last := if t.estado == e then [t] else [];
    if ts == [] {
      assert ts + [t] == [t];
      assert [t][1..] == [];
    } else {
      var first := if ts[0].estado == e then [ts[0]] else [];
      assert (ts + [t])[0] == ts[0];
      assert (ts + [t])[1..] == ts[1..] + [t];
      WithEstadoAppend(ts[1..], t, e);
      calc {
        WithEstado(ts + [t], e);
        first + WithEstado(ts[1..] + [t], e);
        first + (WithEstado(ts[1..], e) + last);
        (first + WithEstado(ts[1..], e)) + last;
        WithEstado(ts, e) + last;
      }
    }
  }

  /** A newly created ticket raises the pending count by one and leaves the other counts alone. */
  lemma NewTicketCountsAsPending(ts: seq<Ticket>, t: Ticket)
    requires t.estado == Pendiente
    ensures |WithEstado(ts + [t], Pendiente)| == |WithEstado(ts, Pendiente)| + 1
    ensures |WithEstado(ts + [t], EnProgreso)| == |WithEstado(ts, EnProgreso)|
    ensures |WithEstado(ts + [t], Resuelto)| == |WithEstado(ts, Resuelto)|
  {
    WithEstadoAppend(ts, t, Pendiente);
    WithEstadoAppend(ts, t, EnProgreso);
    WithEstadoAppend(ts, t, Resuelto);
  }

  /** How many tickets `dashboard_vista` lists as recent. */
  const RecentLimit := 5

  /** Creation times never increase along `s`. */
  predicate NewestFirst(s: seq<Ticket>) {
    forall i, j :: 0 <= i < j < |s| ==> s[j].fechaCreacion <= s[i].fechaCreacion
  }

  /** Inserts `t` into a newest-first list before the first ticket not newer than it. */
  function Insert(t: Ticket, s: seq<Ticket>): (r: seq<Ticket>)
    requires NewestFirst(s)
    ensures |r| == |s| + 1
    ensures forall k :: 0 <= k < |r| ==> r[k] == t || r[k] in s
    ensures NewestFirst(r)
    ensures multiset(r) == multiset(s) + multiset{t}
  {
    if s == [] || s[0].fechaCreacion <= t.fechaCreacion then [t] + s
    else
      var rest := Insert(t, s[1..]);
      assert s == [s[0]] + s[1..];
      assert forall k :: 0 <= k < |rest| ==> rest[k].fechaCreacion <= s[0].fechaCreacion;
      [s[0]] + rest
  }

  /** `order_by("-fecha_creacion")`: the tickets, newest first. */
  function SortNewestFirst(ts: seq<Ticket>): (r: seq<Ticket>)
    ensures NewestFirst(r)
    ensures multiset(r) == multiset(ts)
    ensures |r| == |ts|
  {
    if ts == [] then []
    else
      assert ts == [ts[0]] + ts[1..];
      Insert(ts[0], SortNewestFirst(ts[1..]))
  }

  function Min(a: int, b: int): int {
    if a <= b then a else b
  }

  /**
   * `order_by("-fecha_creacion")[:5]`: at most five tickets of the store,
   * newest first.
   */
  function Recent(ts: seq<Ticket>): (r: seq<Ticket>)
    ensures |r| == Min(RecentLimit, |ts|)
    ensures multiset(r) <= multiset(ts)
    ensures NewestFirst(r)
  {
    var sorted := SortNewestFirst(ts);
    var n := Min(RecentLimit, |sorted|);
    assert sorted == sorted[..n] + sorted[n..];
    sorted[..n]
  }

  /** No ticket left out of the recent list is newer than a ticket in it. */
  lemma RecentAreNewest(ts: seq<Ticket>, t: Ticket, u: Ticket)
    requires t in multiset(ts) - multiset(Recent(ts))
    requires u in Recent(ts)
    ensures t.fechaCreacion <= u.fechaCreacion
  {
    var sorted := SortNewestFirst(ts);
    var n := Min(RecentLimit, |sorted|);
    var head, tail := sorted[..n], sorted[n..];
    assert Recent(ts) == head;
    assert sorted == head + tail;
    assert multiset(sorted) == multiset(head) + multiset(tail);
    assert t in multiset(tail);
    assert t in tail;
    var j :| 0 <= j < |tail| && tail[j] == t;
    var i :| 0 <= i < n && head[i] == u;
    assert sorted[i] == u && sorted[n + j] == t;
  }

  /**
   * A ticket created after every ticket already in the store is among the
   * recent ones once it is appended.
   */
  lemma NewTicketIsRecent(ts: seq<Ticket>, t: Ticket)
    requires forall u :: u in ts ==> u.fechaCreacion < t.fechaCreacion
    ensures t in Recent(ts + [t])
  {
    var all := ts + [t];
    var r := Recent(all);
    assert t in multiset(all);
    assert |r| > 0;
    var u := r[0];
    assert u in multiset(all);
    if t !in r {
      RecentAreNewest(all, t, u);
    }
  }

  datatype DashboardResponse =
    | RedirectToLogin
    | Dashboard(ticketsTotal: nat, ticketsPendientes: nat, ticketsResueltos: nat,
                ticketsRecientes: seq<Ticket>)

  /** The ticket table together with the department identifiers that exist. */
  class TicketStore {
    var tickets: seq<Ticket>
    var departamentos: set<DepartamentoId>

    constructor (departamentos: set<DepartamentoId>)
      ensures this.tickets == [] && this.departamentos == departamentos
    {
      this.tickets := [];
      this.departamentos := departamentos;
    }

    /**
     * ticket_vista. A GET shows the form. A POST missing any of the four
     * fields shows the form with an error. A complete POST looks up the
     * department, builds the ticket for the requesting user (an anonymous
     * visitor cannot own one), inserts it (the database refuses a text with
     * NUL and a title or priority too wide for its column, and cuts trailing
     * spaces beyond the width) and redirects to the dashboard. Only a
     * successful creation changes the store.
     */
    method TicketVista(request: Request, ahora: nat) returns (response: TicketResponse)
      modifies this`tickets
      ensures request.verb != "POST" ==>
        response == ShowForm(None) && tickets == old(tickets)
      ensures request.verb == "POST" && !Complete(request.post) ==>
        response == ShowForm(Some(CamposObligatorios)) && tickets == old(tickets)
      ensures request.verb == "POST" && Complete(request.post) &&
              request.post["departamento"] !in departamentos ==>
        response == Raised(DepartamentoDoesNotExist) && tickets == old(tickets)
      ensures request.verb == "POST" && Complete(request.post) &&
              request.post["departamento"] in departamentos && request.user.None? ==>
        response == Raised(AnonymousCreator) && tickets == old(tickets)
      ensures request.verb == "POST" && Complete(request.post) &&
              request.post["departamento"] in departamentos && request.user.Some? &&
              !NulFree(request.post) ==>
        response == Raised(NulCharacter) && tickets == old(tickets)
      ensures request.verb == "POST" && Complete(request.post) &&
              request.post["departamento"] in departamentos && request.user.Some? &&
              NulFree(request.post) && !FitsColumns(request.post) ==>
        response == Raised(ValueTooLong) && tickets == old(tickets)
      ensures request.verb == "POST" && Complete(request.post) &&
              request.post["departamento"] in departamentos && request.user.Some? &&
              NulFree(request.post) && FitsColumns(request.post) ==>
        response == RedirectDashboard(TicketCreado) &&
        tickets == old(tickets) + [TicketFromPost(request.post, request.user.value, ahora)]
      ensures response.RedirectDashboard? && (forall u :: u in old(tickets) ==> u.fechaCreacion < ahora) ==>
        tickets[|tickets| - 1] in Recent(tickets)
    {
      if request.verb == "POST" {
        var titulo := Get(request.post, "titulo");
        var descripcion := Get(request.post, "descripcion");
        var departamentoId := Get(request.post, "departamento");
        var prioridad := Get(request.post, "prioridad");
        if Blank(titulo) || Blank(descripcion) || Blank(departamentoId) || Blank(prioridad) {
          return ShowForm(Some(CamposObligatorios));
        }
        if departamentoId.value !in departamentos {
          return Raised(DepartamentoDoesNotExist);
        }
        if request.user.None? {
          return Raised(AnonymousCreator);
        }
        if '\0' in titulo.value || '\0' in descripcion.value || '\0' in prioridad.value {
          return Raised(NulCharacter);
        }
        if FitColumn(titulo.value, TituloMaxLength).None? ||
           FitColumn(prioridad.value, PrioridadMaxLength).None? {
          return Raised(ValueTooLong);
        }
        var ticket := TicketFromPost(request.post, request.user.value, ahora);
        if forall u :: u in tickets ==> u.fechaCreacion < ahora {
          NewTicketIsRecent(tickets, ticket);
        }
        tickets := tickets + [ticket];
        return RedirectDashboard(TicketCreado);
      }
      response := ShowForm(None);
    }

    /**
     * dashboard_vista, behind its login gate. It only reads the store: the
     * totals it reports are the store size and the counts by state, and the
     * recent list is the five newest tickets.
     */
    method DashboardVista(user: Option<UserId>) returns (response: DashboardResponse)
      ensures user.None? <==> response == RedirectToLogin
      ensures response.Dashboard? ==>
        && response.ticketsTotal == |tickets|
        && response.ticketsPendientes == |WithEstado(tickets, Pendiente)|
        && response.ticketsResueltos == |WithEstado(tickets, Resuelto)|
        && response.ticketsPendientes + response.ticketsResueltos <= response.ticketsTotal
        && response.ticketsRecientes == Recent(tickets)
    {
      if user.None? {
        return RedirectToLogin;
      }
      PendientesMasResueltos(tickets);
      response := Dashboard(|tickets|, |WithEstado(tickets, Pendiente)|,
                            |WithEstado(tickets, Resuelto)|, Recent(tickets));
    }
  }
}
