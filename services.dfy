/** The service-link routes (app/routers/services.py): add service ids to a
    client, list them, and remove them. A link is the pair (client id,
    service id); its own row id is never read and is not modelled. The
    proxy to the external service catalogue is not modelled. */
module Services {
  import opened Base
  import opened Models
  import opened Database
  import opened Security

  /** The service ids linked to a client. */
  function LinkedServices(ls: set<ClientService>, clientId: Uuid): (ids: set<Uuid>)
    ensures forall s :: s in ids <==> ClientService(clientId, s) in ls
  {
    set l | l in ls && l.clientId == clientId :: l.serviceId
  }

  /** The ids the add loop inserts: the requested ids not in `existing`, in
      request order. `existing` is computed once before the loop, so an id
      repeated in the request is kept twice. */
  function NewServiceIds(requested: seq<Uuid>, existing: set<Uuid>): (added: seq<Uuid>)
    ensures |added| <= |requested|
    ensures forall s :: s in added <==> s in requested && s !in existing
  {
    if requested == [] then []
    else
      var init := NewServiceIds(requested[..|requested| - 1], existing);
      var last := requested[|requested| - 1];
      if last in existing then init else init + [last]
  }

  /** The filter keeps every occurrence of an id not yet linked and drops
      every occurrence of a linked one. */
  lemma {:induction false} NewServiceIdsCount(requested: seq<Uuid>, existing: set<Uuid>, s: Uuid)
    ensures multiset(NewServiceIds(requested, existing))[s] == if s in existing then 0 else multiset(requested)[s]
    decreases |requested|
  {
    if requested != [] {
      var init := requested[..|requested| - 1];
      var last := requested[|requested| - 1];
      NewServiceIdsCount(init, existing, s);
      assert requested == init + [last];
    }
  }

  /** The filter keeps request order: filtering a request made of two parts
      is filtering each part and putting the results side by side. */
  lemma {:induction false} NewServiceIdsConcat(a: seq<Uuid>, b: seq<Uuid>, existing: set<Uuid>)
    ensures NewServiceIds(a + b, existing) == NewServiceIds(a, existing) + NewServiceIds(b, existing)
    decreases |b|
  {
    if b == [] {
      assert a + b == a;
    } else {
      var init := b[..|b| - 1];
      var last := b[|b| - 1];
      NewServiceIdsConcat(a, init, existing);
      assert (a + b)[..|a + b| - 1] == a + init;
      assert (a + b)[|a + b| - 1] == last;
    }
  }

  /** Two occurrences of an id that is not yet linked both survive the
      filter, so the ids to insert repeat it. */
  lemma {:induction false} NewServiceIdsKeepRepeats(requested: seq<Uuid>, existing: set<Uuid>, i: nat, j: nat)
    requires i < j < |requested| && requested[i] == requested[j] && requested[i] !in existing
    ensures !Distinct(NewServiceIds(requested, existing))
    decreases |requested|
  {
    var init := requested[..|requested| - 1];
    var added := NewServiceIds(requested, existing);
    if j == |requested| - 1 {
      var a := NewServiceIds(init, existing);
      assert requested[i] == init[i];
      assert requested[i] in a;
      var k :| 0 <= k < |a| && a[k] == requested[i];
      assert added == a + [requested[j]];
      assert added[k] == added[|a|];
    } else {
      NewServiceIdsKeepRepeats(init, existing, i, j);
      var a := NewServiceIds(init, existing);
      var p, q :| 0 <= p < q < |a| && a[p] == a[q];
      assert added[..|a|] == a;
      assert added[p] == added[q];
    }
  }

  /** Nothing is left to insert exactly when every requested id is linked. */
  lemma NewServiceIdsEmpty(requested: seq<Uuid>, existing: set<Uuid>)
    ensures NewServiceIds(requested, existing) == [] <==> forall s :: s in requested ==> s in existing
  {
    var added := NewServiceIds(requested, existing);
    if added != [] {
      assert added[0] in added;
    }
  }

  /** The rows a list of new service ids becomes. */
  function Links(clientId: Uuid, ids: seq<Uuid>): (ls: set<ClientService>)
    ensures forall l :: l in ls <==> l.clientId == clientId && l.serviceId in ids
  {
    set s | s in ids :: ClientService(clientId, s)
  }

  /** What `add_service_to_client` does: the role check, then the filter
      loop; with nothing new there is no commit and the answer is an empty
      list; otherwise the commit fails (unique link or client foreign key)
      and is rolled back with 500, or adds the new links and returns them. */
  function AddServicesSpec(t: Tables, user: CurrentUser, clientId: Uuid, requested: seq<Uuid>): (res: (Response<seq<Uuid>>, Tables))
    ensures res.0.Err? ==> res.1 == t
    ensures res.0.Ok? ==> res.0.status == StatusCreated
    ensures t.clientServices <= res.1.clientServices
    ensures res.1 == t.(clientServices := res.1.clientServices)
  {
    var existing := LinkedServices(t.clientServices, clientId);
    var added := NewServiceIds(requested, existing);
    if CheckRole(user, WriteRoles).Fail? then (Err(StatusForbidden, PermissionDenied), t)
    else if added == [] then (Ok(StatusCreated, []), t)
    else if !Distinct(added) || clientId !in ClientIds(t.clients) then (Err(StatusInternalError, DatabaseError), t)
    else (Ok(StatusCreated, added), t.(clientServices := t.clientServices + Links(clientId, added)))
  }

  /** A successful add returns only ids that were requested and not yet
      linked, and afterwards every requested id is linked. */
  lemma AddLinksEveryRequestedId(t: Tables, user: CurrentUser, clientId: Uuid, requested: seq<Uuid>)
    requires AddServicesSpec(t, user, clientId, requested).0.Ok?
    ensures var (r, t') := AddServicesSpec(t, user, clientId, requested);
            && (forall s :: s in r.value ==> s in requested && ClientService(clientId, s) !in t.clientServices)
            && (forall s :: s in requested ==> ClientService(clientId, s) in t'.clientServices)
  {
  }

  /** When every requested id is already linked, an authorised add changes
      nothing and answers with an empty list. */
  lemma AddAllLinkedIsNoop(t: Tables, user: CurrentUser, clientId: Uuid, requested: seq<Uuid>)
    requires CheckRole(user, WriteRoles).Pass?
    requires forall s :: s in requested ==> ClientService(clientId, s) in t.clientServices
    ensures AddServicesSpec(t, user, clientId, requested) == (Ok(StatusCreated, []), t)
  {
    NewServiceIdsEmpty(requested, LinkedServices(t.clientServices, clientId));
  }

  /** An id that is not yet linked and appears twice in one request makes
      the whole add fail with 500 and insert nothing. */
  lemma AddRepeatedIdFails(t: Tables, user: CurrentUser, clientId: Uuid, requested: seq<Uuid>, i: nat, j: nat)
    requires CheckRole(user, WriteRoles).Pass?
    requires i < j < |requested| && requested[i] == requested[j]
    requires ClientService(clientId, requested[i]) !in t.clientServices
    ensures AddServicesSpec(t, user, clientId, requested) == (Err(StatusInternalError, DatabaseError), t)
  {
    var existing := LinkedServices(t.clientServices, clientId);
    NewServiceIdsKeepRepeats(requested, existing, i, j);
    NewServiceIdsEmpty(requested, existing);
  }

  /** Repeating a successful add changes nothing the second time. */
  lemma AddIdempotent(t: Tables, user: CurrentUser, clientId: Uuid, requested: seq<Uuid>)
    requires AddServicesSpec(t, user, clientId, requested).0.Ok?
    ensures var t' := AddServicesSpec(t, user, clientId, requested).1;
            AddServicesSpec(t', user, clientId, requested) == (Ok(StatusCreated, []), t')
  {
    AddLinksEveryRequestedId(t, user, clientId, requested);
    var t' := AddServicesSpec(t, user, clientId, requested).1;
    AddAllLinkedIsNoop(t', user, clientId, requested);
  }

  /** An add keeps every constraint of the schema. */
  lemma AddPreservesValid(t: Tables, user: CurrentUser, clientId: Uuid, requested: seq<Uuid>)
    requires TablesValid(t)
    ensures TablesValid(AddServicesSpec(t, user, clientId, requested).1)
  {
  }

  /** POST /clients/{client_id}/services. */
  method AddServiceToClient(db: Session, user: CurrentUser, clientId: Uuid, requested: seq<Uuid>)
      returns (r: Response<seq<Uuid>>)
    requires db.Valid()
    modifies db
    ensures db.Valid()
    ensures (r, db.Snapshot()) == AddServicesSpec(old(db.Snapshot()), user, clientId, requested)
  {
    if CheckRole(user, WriteRoles).Fail? {
      return Err(StatusForbidden, PermissionDenied);
    }
    var existing := set l | l in db.clientServices && l.clientId == clientId :: l.serviceId;
    assert existing == LinkedServices(db.clientServices, clientId);
    var added: seq<Uuid> := [];
    var i := 0;
    while i < |requested|
      invariant 0 <= i <= |requested|
      invariant added == NewServiceIds(requested[..i], existing)
    {
      assert requested[..i + 1][..i] == requested[..i];
      if requested[i] !in existing {
        added := added + [requested[i]];
      }
      i := i + 1;
    }
    assert requested[..i] == requested;
    if added == [] {
      return Ok(StatusCreated, []);
    }
    if !Distinct(added) || clientId !in ClientIds(db.clients) {
      return Err(StatusInternalError, DatabaseError);
    }
    AddPreservesValid(db.Snapshot(), user, clientId, requested);
    db.clientServices := db.clientServices + set s | s in added :: ClientService(clientId, s);
    r := Ok(StatusCreated, added);
  }

  /** GET /clients/{client_id}/services: the ids linked to the client, an
      empty answer for a client that does not exist. */
  method GetClientServices(db: Session, user: CurrentUser, clientId: Uuid) returns (r: Response<set<Uuid>>)
    ensures CheckRole(user, ReadRoles).Fail? <==> r == Err(StatusForbidden, PermissionDenied)
    ensures r.Ok? ==> r.status == StatusOk && forall s :: s in r.value <==> ClientService(clientId, s) in db.clientServices
  {
    if CheckRole(user, ReadRoles).Fail? {
      return Err(StatusForbidden, PermissionDenied);
    }
    r := Ok(StatusOk, set l | l in db.clientServices && l.clientId == clientId :: l.serviceId);
  }

  /** What `remove_services_from_client` does: the links of this client
      whose service id is listed go; nothing else changes. */
  function RemoveServicesSpec(t: Tables, user: CurrentUser, clientId: Uuid, ids: seq<Uuid>): (res: (Response<()>, Tables))
    ensures res.0.Err? <==> CheckRole(user, WriteRoles).Fail?
    ensures res.0.Err? ==> res == (Err(StatusForbidden, PermissionDenied), t)
    ensures res.0.Ok? ==> res.0.status == StatusNoContent
    ensures res.1 == t.(clientServices := res.1.clientServices)
    ensures res.0.Ok? ==> forall l :: l in res.1.clientServices <==>
                            l in t.clientServices && !(l.clientId == clientId && l.serviceId in ids)
  {
    if CheckRole(user, WriteRoles).Fail? then (Err(StatusForbidden, PermissionDenied), t)
    else (Ok(StatusNoContent, ()), t.(clientServices := set l | l in t.clientServices && !(l.clientId == clientId && l.serviceId in ids)))
  }

  /** Removing what was just added restores the links: the links the add
      inserted are exactly the ones the remove deletes, plus any requested
      id that was linked before. */
  lemma AddThenRemove(t: Tables, user: CurrentUser, clientId: Uuid, requested: seq<Uuid>)
    requires AddServicesSpec(t, user, clientId, requested).0.Ok?
    ensures var t' := AddServicesSpec(t, user, clientId, requested).1;
            RemoveServicesSpec(t', user, clientId, requested).1
            == RemoveServicesSpec(t, user, clientId, requested).1
  {
    var t' := AddServicesSpec(t, user, clientId, requested).1;
    var a := RemoveServicesSpec(t', user, clientId, requested).1;
    var b := RemoveServicesSpec(t, user, clientId, requested).1;
    assert a.clientServices == b.clientServices;
  }

  /** DELETE /clients/{client_id}/services. */
  method RemoveServicesFromClient(db: Session, user: CurrentUser, clientId: Uuid, ids: seq<Uuid>) returns (r: Response<()>)
    requires db.Valid()
    modifies db
    ensures db.Valid()
    ensures (r, db.Snapshot()) == RemoveServicesSpec(old(db.Snapshot()), user, clientId, ids)
  {
    if CheckRole(user, WriteRoles).Fail? {
      return Err(StatusForbidden, PermissionDenied);
    }
    db.clientServices := set l | l in db.clientServices && !(l.clientId == clientId && l.serviceId in ids);
    r := Ok(StatusNoContent, ());
  }
}
