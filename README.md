# STIWebService helpdesk core in Dafny

A model of the logic in the STIWEBSERVICE Django application: users who
submit support tickets, and the dashboard that counts them. What the
application does beyond framework configuration, routing and rendering is:

- **Company derivation** (`models.py`). When a user row is first saved with
  a blank `nombre_empresa`, the `post_save` receiver `asignar_empresa_automatica`
  fills it with `email.split('@')[1].split('.')[0].upper()` and saves again.
  `CustomUser.clean` rejects a blank company.
- **Ticket records** (`models.py`). A ticket has a state (Pendiente, En Progreso,
  Resuelto) and a priority (Alta, Media, Baja), with defaults Pendiente and Media.
- **Ticket submission and dashboard** (`views.py`). `ticket_vista` checks four
  required POST fields and creates one ticket. `dashboard_vista` reports the
  total, the pending and resolved counts and the five newest tickets.
- **Staff-flag guard** (`admin.py`). In the admin, only a superuser may change
  `is_staff`.
- **Registration password check** (`forms.py`). The password and its
  confirmation must be equal.

Layout, one module per file:

- `wrappers.dfy` (`Wrappers`): `Option`, `Result`, `Outcome` and `dict.get`.
- `text.dfy` (`Text`): Python's `str.find`, `str.split` and `str.upper` for a
  one-character separator and ASCII letters, with `Join` as the inverse of `Split`.
- `models.dfy` (`Models`): the `User` row, `Clean`, `DeriveCompany`, the receiver
  as the pure `CompanyHook` and as the in-place `UserTable.OnCreate`, and
  `Estado`, `Prioridad`, `Ticket` and `NewTicket`.
- `views.dfy` (`Views`): the class `TicketStore`, which holds the ticket table,
  and its two views. Also the counting (`WithEstado`) and ordering
  (`SortNewestFirst`, `Recent`) functions the dashboard reports.
- `admin.dfy` (`Admin`): `StaffGuard` and `SaveModel` over a `UserTable`.
- `forms.dfy` (`Forms`): `RegistroClean`.

Behaviours of the source worth knowing, all modelled:

- An address without '@' makes the receiver raise IndexError
  (`DeriveCompany` returns `Err(IndexError)`); nothing guards against it.
- `ticket_vista` requires four fields (title, description, department,
  priority) and stores the posted priority text as given, without checking it
  against PRIORIDAD_CHOICES. `Ticket.objects.create` runs no field
  validation, so only the PostgreSQL column types judge the lengths. A title
  over 200 or a priority over 20 characters is refused by the INSERT (a
  DataError) unless every character beyond the width is a space; then the
  value is stored cut to the width. A NUL character in any posted text is
  refused by the database driver before the INSERT. Either refusal creates no
  ticket.
- `ticket_vista` has no login gate. A complete POST from an anonymous visitor
  fails when the `Ticket` instance is built, because assigning a non-user to
  its `usuario` foreign key raises ValueError.

`views.py` imports `Departamento` and `PerfilUsuario`, but `models.py` does not
define them. It also passes a `departamento` field that `models.py`'s
`Ticket` lacks. The model follows `views.py`: a ticket carries its department
as an opaque identifier, and the store knows which identifiers exist.

## Model

| member | source | states |
|---|---|---|
| `Models.Clean` | STIWEBSERVICE/models.py:15-17 | validation fails, with the company-required message, exactly when `nombre_empresa` is None or empty |
| `Models.DeriveCompany` | STIWEBSERVICE/models.py:25-27 | raises IndexError exactly when the e-mail has no '@'; otherwise the company has no '@', no '.' and no lower-case ASCII letter |
| `Models.DeriveCompanyIsDomainLabel` | STIWEBSERVICE/models.py:26-27 | the company is the upper-cased text after the first '@', up to the next '@' or the end, cut at its first '.' |
| `Models.DeriveCompanyPlainAddress` | STIWEBSERVICE/models.py:26-27 | for `local@domain.tld` the company is `DOMAIN`, whatever follows the first dot |
| `Models.DeriveCompanyNoAt` | STIWEBSERVICE/models.py:26 | every address without '@' makes the derivation raise IndexError |
| `Models.DerivedCompanyEmpty` | STIWEBSERVICE/models.py:26-27 | the derived company is empty (so `clean` would still reject it) exactly when the first '@' ends the address or is followed by '.' or '@' |
| `Models.CompanyHook` | STIWEBSERVICE/models.py:22-28 | on a created row with a blank company, the company becomes the derived one or the receiver raises; in every other case the row is unchanged; no field but `nombre_empresa` ever changes |
| `Models.HookSaveDoesNotRetrigger` | STIWEBSERVICE/models.py:24-28 | the receiver's own `save()` fires it again with `created` false, which leaves the row as it is |
| `Models.UserTable.OnCreate` | STIWEBSERVICE/models.py:22-28 | the receiver in place: rewrites only the saved row's company as `CompanyHook` says, re-enters itself for its own save, and on IndexError leaves the table unchanged |
| `Models.ParseEstado` | STIWEBSERVICE/models.py:34-38 | a stored state text is recognised only if it is one of the three ESTADO_CHOICES labels |
| `Models.EstadoRoundTrip` | STIWEBSERVICE/models.py:34-38 | every state's label reads back as that state |
| `Models.ParsePrioridad` | STIWEBSERVICE/models.py:39-43 | a stored priority text is recognised only if it is one of the three PRIORIDAD_CHOICES labels |
| `Models.PrioridadRoundTrip` | STIWEBSERVICE/models.py:39-43 | every priority's label reads back as that priority |
| `Models.NewTicket` | STIWEBSERVICE/models.py:45-58 | a new ticket is Pendiente with priority Media, no technician, no solution, no site visit, both timestamps at creation time, the priority within its choices |
| `Text.Split` | STIWEBSERVICE/models.py:26 | `split` gives at least one part, exactly one when the separator is absent; no part holds the separator; parts use only characters of the input |
| `Text.JoinSplit` | STIWEBSERVICE/models.py:26 | joining the parts of a split with the separator gives back the input |
| `Text.SplitJoin` | STIWEBSERVICE/models.py:26 | splitting the join of separator-free parts gives back the parts |
| `Text.SplitAtFirst` | STIWEBSERVICE/models.py:26 | part 0 is the text before the first separator, and the later parts are the split of the text after it |
| `Text.Upper` | STIWEBSERVICE/models.py:27 | upper-casing keeps the length and upper-cases each ASCII letter in place |
| `Text.UpperShape` | STIWEBSERVICE/models.py:27 | an upper-cased string has no lower-case ASCII letter and holds no non-letter that was not in the input |
| `Views.FitColumn` | STIWEBSERVICE/models.py:45-52 | a varchar(n) column accepts a text exactly when it fits or everything beyond the width is spaces; what it keeps is a prefix of the text at most n long, the text minus only trailing spaces, and the text itself when it fits |
| `Views.TrailingSpacesCut` | STIWEBSERVICE/models.py:45 | a text exactly the column's width followed by any number of spaces is stored as that text |
| `Views.TicketFromPost` | STIWEBSERVICE/views.py:72-78 | the created ticket carries the posted description and department, and the posted title and priority as their columns keep them (a prefix within the width, the posted text itself when it fits), is owned by the requesting user, and has the model defaults otherwise (Pendiente, no technician, no solution, no site visit, both timestamps at creation time) |
| `Views.PostedPriorityNotChecked` | STIWEBSERVICE/views.py:64-76 | any posted priority outside PRIORIDAD_CHOICES is kept in the created ticket (cut to 20 characters when only spaces follow), so the ticket leaves the choices |
| `Views.TicketStore.TicketVista` | STIWEBSERVICE/views.py:59-83 | a non-POST request only shows the form. A POST missing any of the four fields shows the error and creates nothing. An unknown department, an anonymous creator, a NUL character in a posted text, or a title or priority that its column refuses raises and creates nothing. Otherwise exactly one ticket, `TicketFromPost`, is appended and the view redirects to the dashboard; when the clock is past every stored creation time, that ticket is in the recent list |
| `Views.WithEstado` | STIWEBSERVICE/views.py:133-134 | the filtered tickets all have the given state and are no more than the store holds |
| `Views.WithEstadoSelects` | STIWEBSERVICE/views.py:133-134 | each ticket with the state is kept as many times as it occurs, and no other ticket is kept |
| `Views.EstadoCountsPartition` | STIWEBSERVICE/views.py:132-134 | the three state counts add up to the total |
| `Views.PendientesMasResueltos` | STIWEBSERVICE/views.py:132-134 | pending plus resolved never exceeds the total |
| `Views.WithEstadoAppend` | STIWEBSERVICE/views.py:133-134 | appending a ticket extends the filter of its own state by that ticket and leaves the other filters as they were |
| `Views.NewTicketCountsAsPending` | STIWEBSERVICE/views.py:72-78 | a newly created ticket raises the pending count by one and no other count |
| `Views.Insert` | STIWEBSERVICE/views.py:138 | inserting into a newest-first list keeps it newest first and adds exactly that ticket |
| `Views.SortNewestFirst` | STIWEBSERVICE/views.py:138 | ordering by `-fecha_creacion` gives a newest-first permutation of the tickets |
| `Views.Recent` | STIWEBSERVICE/views.py:138 | the recent list holds min(5, total) tickets, drawn from the store, newest first |
| `Views.RecentAreNewest` | STIWEBSERVICE/views.py:138 | no ticket left out of the recent list is newer than any ticket in it |
| `Views.NewTicketIsRecent` | STIWEBSERVICE/views.py:138 | a ticket created after all others is in the recent list once appended |
| `Views.TicketStore.DashboardVista` | STIWEBSERVICE/views.py:130-147 | an anonymous visitor is sent to login. Otherwise the view reports the store size, the pending and resolved counts (never summing past the total) and the recent list, and changes nothing |
| `Admin.StaffGuard` | STIWEBSERVICE/admin.py:30-31 | PermissionDenied with its message exactly when a non-superuser's changed data includes `is_staff` |
| `Admin.OnlyStaffFieldGuarded` | STIWEBSERVICE/admin.py:30 | any changed field other than `is_staff`, such as `is_superuser` or `is_active`, has no effect on the verdict |
| `Admin.ChangedData` | STIWEBSERVICE/admin.py:30 | `is_staff` is reported as changed exactly when the submitted flag differs from the form's initial one; nothing is reported when nothing differs |
| `Admin.StaffFlagKeptForNonSuperusers` | STIWEBSERVICE/admin.py:28-32 | a save goes through exactly when the requester is a superuser or the staff flag keeps its initial value |
| `Admin.SaveModel` | STIWEBSERVICE/admin.py:28-32 | with `changed_data` computed from the form's initial values (for an edit, the stored row, which must exist; for an add, a fresh non-staff user under an unused id): when the guard passes, the submitted user is written to its row, and when it fails the table is unchanged; adding and editing are treated alike; a non-superuser's save never changes a row's staff flag and never adds a staff user |
| `Forms.RegistroClean` | STIWEBSERVICE/forms.py:27-33 | the mismatch error is raised exactly when `password` and `confirm_password` differ; otherwise the cleaned data comes back unchanged |
| `Forms.AnyRepeatedPasswordAccepted` | STIWEBSERVICE/forms.py:27-33 | any password, the empty one included, passes when repeated: no length or content rule |
| `Forms.AbsentPasswordsAccepted` | STIWEBSERVICE/forms.py:29-31 | two absent entries compare equal and pass |
| `Forms.VerdictSymmetric` | STIWEBSERVICE/forms.py:31 | swapping the two entries does not change the verdict |

## Left out

- Text.Upper: maps only the ASCII letters a-z. Python's `str.upper` covers all of Unicode (and can lengthen a string, as with 'ß'), and this model does not.
- Models.DeriveCompany: its "no lower-case letter" promise covers ASCII letters only, for the same reason.
- Authentication, sessions, password hashing and the login, logout, profile and index views are left out. They are framework calls with no logic of their own.
- `registrarse_vista` is left out. It depends on `PerfilUsuario`, which `models.py` does not define, and on database integrity errors.
- The stub views that only render a template (views.py:150-179), the routing table and the settings are left out.
- Templates and messages are left out. A view's response is a tag holding its message text.
- `tickets_sin_asignar` is left out, because it filters on a field, `asignacion`, that `Ticket` does not have. With `models.py` as it stands, that query (views.py:135-136) raises FieldError before the dashboard renders, and the module's imports fail with ImportError: first `PerfilUsuarioForm` (views.py:7), which `forms.py` does not define, then `Departamento` and `PerfilUsuario` (views.py:8-12), which `models.py` does not define. `DashboardVista` and `TicketVista` describe the views without those failures.
- Clocks are left out. `fecha_creacion` is a natural-number clock reading passed in by the caller. `fecha_actualizacion` is set at creation, and nothing in this core updates a ticket.
- The tie order of `order_by("-fecha_creacion")` is up to the database. `SortNewestFirst` fixes one tie order, and the contracts of `Recent` and `RecentAreNewest` do not depend on it.
- The department lookup is left out beyond membership: the identifier is opaque, so a non-numeric identifier (a ValueError in the source) is not distinguished from an unknown one.
- Admin.SaveModel: the `post_save` receiver that `obj.save()` fires is not chained here (it is `UserTable.OnCreate`). The admin's own transaction, its login and the staff requirement of the admin site are also left out.
- Admin.ChangedData: covers only the user fields this model keeps. Django computes `changed_data` over the fields of the form in use.
- The ModelForm validation chain (which also runs `CustomUser.clean` during registration) is not modelled. Each check is a separate function.
- `Comentario`, `Encuesta` and `RegistroErrores` have no behaviour in the source; their schema is not modelled. Ticket update, assignment, deletion and surveys do not appear in the source.
- No concurrency: each operation is one atomic step on the state it names.
