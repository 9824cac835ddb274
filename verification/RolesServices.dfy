/** RolesService over the database of the seed script. */
module RolesServices {
  import opened Collections
  import opened Permissions
  import opened Accounts
  import opened SeedScript
  import opened Access

  class RolesService {
    const database: Database

    constructor (database: Database)
      ensures this.database == database
    {
      this.database := database;
    }

    /** create: None if the database refuses the row, for an unknown tenant or a name the tenant
        already has. id is the generated uuid. */
    method Create(id: Id, tenantId: Id, name: string, permissions: List) returns (role: Option<Role>)
      requires Constraints(database.View()) && id !in database.roles && id != ""
      modifies database`roles
      ensures Constraints(database.View())
      ensures role.Some? <==>
                && tenantId in database.tenants
                && forall k :: k in old(database.roles) ==> old(database.roles)[k].tenantId != tenantId || old(database.roles)[k].name != name
      ensures role.Some? ==>
                && role.value.tenantId == tenantId && role.value.name == name
                && database.roles == old(database.roles)[id := role.value]
      ensures role.Some? ==> Possible(old(database.View()), RoleCreated(id, tenantId, name, permissions))
      ensures role.Some? ==> database.View() == Changed(old(database.View()), RoleCreated(id, tenantId, name, permissions))
      ensures role.None? ==> database.View() == old(database.View())
      ensures role.Some? ==> (Storable(permissions) <==> forall p :: HasPermission(role.value, p) <==> p in permissions)
    {
      hide Storable, Split, Join, Constraints, UserNamed;
      if tenantId !in database.tenants
         || exists k :: k in database.roles && database.roles[k].tenantId == tenantId && database.roles[k].name == name {
        return None;
      }
      assert RoleNamed(database.roles, tenantId, name).None?;
      EventKeeps(database.View(), RoleCreated(id, tenantId, name, permissions));
      StoredMembership(permissions);
      role := Some(Role(tenantId, name, Join(permissions)));
      database.roles := database.roles[id := role.value];
    }
  }
}
