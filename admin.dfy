/**
 * CustomUserAdmin.save_model (STIWEBSERVICE/admin.py): in the admin, only a
 * superuser may change a user's staff flag; every other save goes through.
 */
module Admin {
  import opened Wrappers
  import opened Models

  datatype PermissionDenied = PermissionDenied(message: string)

  const SoloSuperusuarios := "Solo los superusuarios pueden modificar el estado de 'is_staff'."

  /** The check save_model makes before saving: a non-superuser may not touch is_staff. */
  function StaffGuard(requester: User, changedData: set<string>): (r: Outcome<PermissionDenied>)
    ensures r.Fail? <==> !requester.isSuperuser && "is_staff" in changedData
    ensures r.Fail? ==> r.error == PermissionDenied(SoloSuperusuarios)
  {
    if !requester.isSuperuser && "is_staff" in changedData then
      Fail(PermissionDenied(SoloSuperusuarios))
    else Pass
  }

  /** Only is_staff is guarded: adding or dropping any other changed field changes nothing. */
  lemma OnlyStaffFieldGuarded(requester: User, changedData: set<string>, field: string)
    requires field != "is_staff"
    ensures StaffGuard(requester, changedData + {field}) == StaffGuard(requester, changedData)
    ensures StaffGuard(requester, changedData - {field}) == StaffGuard(requester, changedData)
  {
  }

  /**
   * The fields an admin form reports as changed: those whose submitted value
   * differs from the form's initial one.
   */
  function ChangedData(initial: User, submitted: User): (c: set<string>)
    ensures "is_staff" in c <==> initial.isStaff != submitted.isStaff
    ensures c == {} <==> initial == submitted
  {
    (if initial.username != submitted.username then {"username"} else {}) +
    (if initial.email != submitted.email then {"email"} else {}) +
    (if initial.nombreEmpresa != submitted.nombreEmpresa then {"nombre_empresa"} else {}) +
    (if initial.cargo != submitted.cargo then {"cargo"} else {}) +
    (if initial.isStaff != submitted.isStaff then {"is_staff"} else {}) +
    (if initial.isSuperuser != submitted.isSuperuser then {"is_superuser"} else {}) +
    (if initial.isActive != submitted.isActive then {"is_active"} else {})
  }

  /**
   * Whatever a non-superuser saves through the admin, the staff flag keeps
   * the value the form started from; a superuser may set it either way.
   */
  lemma StaffFlagKeptForNonSuperusers(requester: User, initial: User, submitted: User)
    ensures StaffGuard(requester, ChangedData(initial, submitted)).Pass? <==>
      requester.isSuperuser || submitted.isStaff == initial.isStaff
  {
  }

  /**
   * save_model: when the guard passes, the submitted user is written to row
   * `id`; when it fails, PermissionDenied is raised and the table is left as
   * it was. Adding (`change` false) and editing are treated alike. The form's
   * `changed_data` compares the submitted user with the form's initial values:
   * for an edit the stored row, for an add a new row with the default flags
   * (not staff). An edit always targets a stored row, since the change view
   * loads the object before saving it. So a non-superuser never moves a staff
   * flag and never creates a staff user.
   */
  method SaveModel(table: UserTable, requester: User, id: UserId, initial: User, obj: User,
                   changedData: set<string>, change: bool)
    returns (r: Outcome<PermissionDenied>)
    requires changedData == ChangedData(initial, obj)
    requires change ==> id in table.rows && initial == table.rows[id]
    requires !change ==> id !in table.rows && !initial.isStaff
    modifies table
    ensures r == StaffGuard(requester, changedData)
    ensures r.Pass? ==> table.rows == old(table.rows)[id := obj]
    ensures r.Fail? ==> table.rows == old(table.rows)
    ensures r.Pass? && !requester.isSuperuser ==> table.rows[id].isStaff == initial.isStaff
    ensures !change && r.Pass? && !requester.isSuperuser ==> !table.rows[id].isStaff
    ensures change && !requester.isSuperuser ==>
      id in table.rows && table.rows[id].isStaff == old(table.rows)[id].isStaff
  {
    if !requester.isSuperuser && "is_staff" in changedData {
      return Fail(PermissionDenied(SoloSuperusuarios));
    }
    table.rows := table.rows[id := obj];
    r := Pass;
  }
}
