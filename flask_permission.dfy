/** The Flask back-end's permission vocabulary (app.models.permission). */
module FlaskPermission {

  /** Permission.PERMISSIONS */
  const Permissions := [
    "create_website", "read_website", "update_website", "delete_website",
    "manage_users", "manage_roles", "manage_permissions"
  ]

  /** Permission.get_all_permissions: the list itself, seven distinct names. */
  function GetAllPermissions(): (r: seq<string>)
    ensures |r| == 7
    ensures forall i, j :: 0 <= i < j < |r| ==> r[i] != r[j]
    ensures forall p :: p in r <==> IsValidPermission(p)
  {
    Permissions
  }

  /** Permission.is_valid_permission */
  predicate IsValidPermission(p: string) {
    p in Permissions
  }

  /** The valid permissions are exactly the seven names of the vocabulary. */
  lemma ValidPermissions(p: string)
    ensures IsValidPermission(p) <==>
      || p == "create_website" || p == "read_website" || p == "update_website" || p == "delete_website"
      || p == "manage_users" || p == "manage_roles" || p == "manage_permissions"
  {
  }
}
