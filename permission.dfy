/** The permission helpers of permission.helper.js as decisions over the store's relations. */
module Permission {
  import opened Tables

  /** `Business.findOne({ id: businessId, owner_id: userId })` finds a row. */
  predicate IsOwner(t: Tables, userId: Id, businessId: Id)
  {
    businessId in t.businesses && t.businesses[businessId].ownerId == userId
  }

  /** The user's membership row at the business carries a role whose name is listed. */
  predicate HoldsListedRole(t: Tables, userId: Id, businessId: Id, roleNames: seq<string>)
  {
    (businessId, userId) in t.members &&
    var roleId := t.members[(businessId, userId)];
    roleId in t.roles && t.roles[roleId] in roleNames
  }

  /**
   * `checkBusinessPermission(userId, businessId, roles = [])`. An owner always
   * passes; otherwise an empty list, or one naming "owner", refuses; otherwise
   * the membership row decides.
   */
  function CheckBusinessPermission(t: Tables, userId: Id, businessId: Id, roleNames: seq<string>): (r: bool)
    ensures IsOwner(t, userId, businessId) ==> r
    ensures !IsOwner(t, userId, businessId) && (roleNames == [] || "owner" in roleNames) ==> !r
    ensures !IsOwner(t, userId, businessId) && roleNames != [] && "owner" !in roleNames ==>
      (r <==> HoldsListedRole(t, userId, businessId, roleNames))
  {
    if IsOwner(t, userId, businessId) then true
    else if |roleNames| == 0 || "owner" in roleNames then false
    else
      var roleIds := set id | id in t.roles && t.roles[id] in roleNames;
      (businessId, userId) in t.members && t.members[(businessId, userId)] in roleIds
  }

  /** The list ["owner", "manager"] used by the staff handlers lets owners in and nobody else. */
  lemma OwnerManagerMeansOwnerOnly(t: Tables, userId: Id, businessId: Id)
    ensures CheckBusinessPermission(t, userId, businessId, ["owner", "manager"]) == IsOwner(t, userId, businessId)
  {
    assert "owner" in ["owner", "manager"];
  }

  /** Listing one more role (other than "owner") never takes a permission away. */
  lemma MoreRolesNeverRevoke(t: Tables, userId: Id, businessId: Id, roleNames: seq<string>, extra: string)
    requires extra != "owner" && roleNames != []
    requires CheckBusinessPermission(t, userId, businessId, roleNames)
    ensures CheckBusinessPermission(t, userId, businessId, roleNames + [extra])
  {
    if !IsOwner(t, userId, businessId) {
      assert "owner" !in roleNames;
      assert forall n :: n in roleNames ==> n in roleNames + [extra];
      assert "owner" !in roleNames + [extra];
    }
  }

  /**
   * `checkAdminRole(userId)`: `Admin.findOne({ user_id: userId })` finds a row.
   * The lookup is the set of Admin rows for the user, tested for being non-empty.
   */
  function CheckAdminRole(t: Tables, userId: Id): (r: bool)
    ensures r <==> exists adminId :: adminId in t.admins && t.admins[adminId] == userId
  {
    var rows := set adminId | adminId in t.admins && t.admins[adminId] == userId;
    assert forall adminId :: adminId in t.admins && t.admins[adminId] == userId ==> adminId in rows;
    |rows| > 0
  }

  /** The role argument of `checkUserRole`: one name or an array of names. */
  datatype RoleArg = OneRole(name: string) | RoleList(names: seq<string>)

  function RoleNames(arg: RoleArg): seq<string>
  {
    match arg
    case OneRole(n) => [n]
    case RoleList(ns) => ns
  }

  /** `checkUserRole(userId, roleName)`: the count of named roles the user holds is positive. */
  function CheckUserRole(t: Tables, userId: Id, arg: RoleArg): (r: bool)
    ensures r <==> exists roleId :: roleId in t.roles && t.roles[roleId] in RoleNames(arg) && (userId, roleId) in t.userRoles
  {
    var held := set roleId | roleId in t.roles && t.roles[roleId] in RoleNames(arg) && (userId, roleId) in t.userRoles;
    assert forall roleId :: roleId in t.roles && t.roles[roleId] in RoleNames(arg) && (userId, roleId) in t.userRoles ==> roleId in held;
    |held| > 0
  }

  /** A single name behaves as the one-element list. */
  lemma SingleNameIsList(t: Tables, userId: Id, name: string)
    ensures CheckUserRole(t, userId, OneRole(name)) == CheckUserRole(t, userId, RoleList([name]))
  {
  }
}
