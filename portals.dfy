/** The portal catalogue routes (app/routers/portals.py). */
module Portals {
  import opened Base
  import opened Models
  import opened Database
  import opened Security

  const PortalNotFound := "Portal not found"

  /** POST /portals/: a name or id already in use makes the commit fail. */
  method CreatePortal(db: Session, user: CurrentUser, name: string, loginUrl: string, newId: Uuid) returns (r: Response<Portal>)
    requires db.Valid()
    modifies db
    ensures db.Valid()
    ensures CheckRole(user, WriteRoles).Fail? ==> r == Err(StatusForbidden, PermissionDenied)
    ensures r.Err? ==> db.Snapshot() == old(db.Snapshot())
    ensures r.Ok? <==> && CheckRole(user, WriteRoles).Pass?
                       && name !in PortalNames(old(db.portals)) && newId !in PortalIds(old(db.portals))
    ensures r.Ok? ==> && r == Ok(StatusCreated, Portal(newId, name, loginUrl))
                      && db.Snapshot() == old(db.Snapshot()).(portals := old(db.portals) + {r.value})
  {
    if CheckRole(user, WriteRoles).Fail? {
      return Err(StatusForbidden, PermissionDenied);
    }
    if name in PortalNames(db.portals) || newId in PortalIds(db.portals) {
      return Err(StatusInternalError, DatabaseError);
    }
    var row := Portal(newId, name, loginUrl);
    db.portals := db.portals + {row};
    r := Ok(StatusCreated, row);
  }

  /** GET /portals/: the whole catalogue. */
  method ListPortals(db: Session, user: CurrentUser) returns (r: Response<set<Portal>>)
    ensures CheckRole(user, ReadRoles).Fail? <==> r == Err(StatusForbidden, PermissionDenied)
    ensures r.Ok? ==> r == Ok(StatusOk, db.portals)
  {
    if CheckRole(user, ReadRoles).Fail? {
      return Err(StatusForbidden, PermissionDenied);
    }
    r := Ok(StatusOk, db.portals);
  }

  /** Some stored credential set refers to the portal. */
  predicate PortalInUse(ps: set<ClientPortal>, id: Uuid) {
    exists p :: p in ps && p.portalId == id
  }

  /** DELETE /portals/{portal_id}: exactly that row goes. The foreign key
      from `client_portals` has no cascade, so deleting a portal that a
      credential set still refers to fails with 500. */
  method DeletePortal(db: Session, user: CurrentUser, id: Uuid) returns (r: Response<()>)
    requires db.Valid()
    modifies db
    ensures db.Valid()
    ensures CheckRole(user, WriteRoles).Fail? ==> r == Err(StatusForbidden, PermissionDenied)
    ensures CheckRole(user, WriteRoles).Pass? ==> (id !in PortalIds(old(db.portals)) <==> r == Err(StatusNotFound, PortalNotFound))
    ensures r.Err? ==> db.Snapshot() == old(db.Snapshot())
    ensures r.Ok? <==> && CheckRole(user, WriteRoles).Pass?
                       && id in PortalIds(old(db.portals)) && !PortalInUse(old(db.clientPortals), id)
    ensures r.Ok? ==> r.status == StatusNoContent
    ensures r.Ok? ==> exists p :: && p in old(db.portals) && p.id == id
                                  && db.Snapshot() == old(db.Snapshot()).(portals := old(db.portals) - {p})
  {
    if CheckRole(user, WriteRoles).Fail? {
      return Err(StatusForbidden, PermissionDenied);
    }
    if id !in PortalIds(db.portals) {
      return Err(StatusNotFound, PortalNotFound);
    }
    var p :| p in db.portals && p.id == id;
    if PortalInUse(db.clientPortals, id) {
      return Err(StatusInternalError, DatabaseError);
    }
    PortalIdsRemove(db.portals, p);
    db.portals := db.portals - {p};
    r := Ok(StatusNoContent, ());
  }
}
