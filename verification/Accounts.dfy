/** Tenants, roles and users as the primary stores them, with the constraints the migrations
    put on them. Ids are uuids, so never the empty string. */
module Accounts {
  import opened Collections
  import opened Text

  type Id = string

  datatype Tenant = Tenant(name: string)

  // permissions is the text of the simple-array column.
  datatype Role = Role(tenantId: Id, name: string, permissions: Text)

  datatype User = User(username: string, passwordHash: string, tenantId: Id, roleId: Option<Id>)

  datatype Db = Db(tenants: map<Id, Tenant>, roles: map<Id, Role>, users: map<Id, User>)

  ghost predicate NamesUnique(tenants: map<Id, Tenant>) {
    forall a, b :: a in tenants && b in tenants && tenants[a].name == tenants[b].name ==> a == b
  }

  ghost predicate RolesUnique(roles: map<Id, Role>) {
    forall a, b :: a in roles && b in roles && roles[a].tenantId == roles[b].tenantId && roles[a].name == roles[b].name
      ==> a == b
  }

  ghost predicate UsernamesUnique(users: map<Id, User>) {
    forall a, b :: a in users && b in users && users[a].username == users[b].username ==> a == b
  }

  ghost predicate RoleReferences(roles: map<Id, Role>, tenants: map<Id, Tenant>) {
    forall r :: r in roles ==> roles[r].tenantId in tenants
  }

  ghost predicate UserReferences(users: map<Id, User>, tenants: map<Id, Tenant>, roles: map<Id, Role>) {
    && (forall u :: u in users ==> users[u].tenantId in tenants)
    && (forall u :: u in users && users[u].roleId.Some? ==> users[u].roleId.value in roles)
  }

  ghost predicate IdsNotEmpty(db: Db) {
    "" !in db.tenants && "" !in db.roles && "" !in db.users
  }

  ghost predicate Constraints(db: Db) {
    && NamesUnique(db.tenants) && RolesUnique(db.roles) && UsernamesUnique(db.users)
    && RoleReferences(db.roles, db.tenants) && UserReferences(db.users, db.tenants, db.roles)
    && IdsNotEmpty(db)
  }

  // findOne on a unique column; None when there is no such row.
  ghost function TenantNamed(tenants: map<Id, Tenant>, name: string): (r: Option<Id>)
    ensures r.Some? ==> r.value in tenants && tenants[r.value].name == name
    ensures r.None? ==> forall t :: t in tenants ==> tenants[t].name != name
  {
    if t :| t in tenants && tenants[t].name == name then Some(t) else None
  }

  ghost function RoleNamed(roles: map<Id, Role>, tenantId: Id, name: string): (r: Option<Id>)
    ensures r.Some? ==> r.value in roles && roles[r.value].tenantId == tenantId && roles[r.value].name == name
    ensures r.None? ==> forall k :: k in roles && roles[k].tenantId == tenantId ==> roles[k].name != name
  {
    if k :| k in roles && roles[k].tenantId == tenantId && roles[k].name == name then Some(k) else None
  }

  ghost function UserNamed(users: map<Id, User>, username: string): (r: Option<Id>)
    ensures r.Some? ==> r.value in users && users[r.value].username == username
    ensures r.None? ==> forall u :: u in users ==> users[u].username != username
  {
    if u :| u in users && users[u].username == username then Some(u) else None
  }
}
