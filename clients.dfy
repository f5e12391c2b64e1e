/** The client routes (app/routers/clients.py): client create, list, update
    and delete, the client-portal credential routes, and the dashboard and
    ledger lookups. The caller's user record and the agency header are
    inputs; the photo upload and the invite placeholder are not modelled. */
module Clients {
  import opened Base
  import opened Models
  import opened Schemas
  import Security
  import opened Database

  const ClientNotFound := "Client not found"
  const ClientPortalNotFound := "Client portal not found"
  const DuplicateName := "Client with this name already exists."
  const UsersNotFound := "One or more users not found"
  const TagsNotFound := "One or more tags not found"
  /** Detail of a 500 answer whose body fails its response model. */
  const ResponseInvalid := "response validation error"

  // ---------------------------------------------------------------------
  // Customer ids

  predicate IsLowerHex(ch: char) { '0' <= ch <= '9' || 'a' <= ch <= 'f' }
  predicate IsUpperHex(ch: char) { '0' <= ch <= '9' || 'A' <= ch <= 'F' }

  /** `uuid4().hex`: 32 lower-case hexadecimal digits. */
  type HexToken = s: string | |s| == 32 && forall i | 0 <= i < |s| :: IsLowerHex(s[i])
    witness "00000000000000000000000000000000"

  function UpperChar(ch: char): char {
    if 'a' <= ch <= 'z' then (ch as int - 32) as char else ch
  }

  /** `str.upper()` on ASCII text. */
  function Upper(s: string): (r: string)
    ensures |r| == |s|
    ensures forall i :: 0 <= i < |s| ==> r[i] == UpperChar(s[i])
  {
    if s == [] then [] else [UpperChar(s[0])] + Upper(s[1..])
  }

  /** The generated customer id: "CUST-" and the first six digits of the
      token in upper case, so exactly six upper-case hexadecimal digits. */
  function CustomerId(token: HexToken): (id: string)
    ensures |id| == 11 && id[..5] == "CUST-"
    ensures forall i :: 5 <= i < 11 ==> IsUpperHex(id[i])
    ensures Upper(token[..6]) == id[5..]
  {
    "CUST-" + Upper(token[..6])
  }

  // ---------------------------------------------------------------------
  // Client type normalisation

  function LowerChar(ch: char): char {
    if 'A' <= ch <= 'Z' then (ch as int + 32) as char else ch
  }

  /** `str.lower()` on ASCII text. */
  function Lower(s: string): (r: string)
    ensures |r| == |s|
    ensures forall i :: 0 <= i < |s| ==> r[i] == LowerChar(s[i])
  {
    if s == [] then [] else [LowerChar(s[0])] + Lower(s[1..])
  }

  /** Lower-casing twice is lower-casing once. */
  lemma LowerIdempotent(s: string)
    ensures Lower(Lower(s)) == Lower(s)
  {
  }

  /** Text without upper-case letters, such as every client type label,
      passes through lower-casing unchanged. */
  lemma LowerKeepsLowerCase(s: string)
    requires forall i :: 0 <= i < |s| ==> !('A' <= s[i] <= 'Z')
    ensures Lower(s) == s
  {
  }

  // ---------------------------------------------------------------------
  // create_client

  /** Some client, of any agency, has this name. */
  predicate NameTaken(cs: set<Client>, name: string) {
    exists c :: c in cs && c.name == name
  }

  /** The duplicate-name guard: the general-setting row the database returns
      first forbids duplicates and the name is taken. */
  predicate DuplicateBlocked(first: Option<GeneralSetting>, cs: set<Client>, name: string) {
    first.Some? && !first.value.allowDuplicates && NameTaken(cs, name)
  }

  /** The count check on `user_ids` or `tag_ids`: an empty list passes;
      otherwise the number of distinct matching rows must equal the length
      of the list. */
  predicate IdsResolve(ids: seq<Uuid>, table: set<Uuid>) {
    ids == [] || |Elements(ids) * table| == |ids|
  }

  /** The count check passes exactly when the list repeats no id and every
      id names a row. */
  lemma IdsResolveExactly(ids: seq<Uuid>, table: set<Uuid>)
    ensures IdsResolve(ids, table) <==> Distinct(ids) && Elements(ids) <= table
  {
    AllFoundExactly(ids, table);
    if Distinct(ids) && Elements(ids) <= table {
      assert forall i :: 0 <= i < |ids| ==> ids[i] in Elements(ids);
    }
  }

  /** The new row: the validated fields, the caller's agency and user, the
      generated customer id, and the column defaults for the rest. */
  function NewClient(id: Uuid, agencyId: Uuid, createdBy: Uuid, customerId: string, c: ClientCreate): (row: Client)
    ensures row.id == id && row.agencyId == agencyId && row.createdBy == createdBy && row.customerId == customerId
    ensures row.name == c.name && row.clientType == c.clientType && row.organizationId == c.organizationId
    ensures row.isActive == c.isActive && row.openingBalanceType == c.openingBalanceType
    ensures row.canLogin == DefaultCanLogin && row.notifyClient == DefaultNotifyClient
    ensures row.gstAutofillEnabled == DefaultGstAutofill && row.dob.None? && row.contactPersonPhone.None?
  {
    Client(id, agencyId, c.organizationId, customerId, c.name, c.clientType, c.pan, c.gstin, None,
           c.assignedCaUserId, c.mobile, c.secondaryPhone, c.email, c.addressLine1, c.addressLine2,
           c.city, c.state, c.postalCode, c.openingBalanceAmount, c.openingBalanceType, c.openingBalanceDate,
           DefaultGstAutofill, createdBy, c.isActive, DefaultCanLogin, DefaultNotifyClient,
           c.contactPersonName, None, c.dateOfBirth)
  }

  /** The association rows `db_client.users` / `db_client.tags` produce. */
  function UserLinks(clientId: Uuid, ids: seq<Uuid>): set<ClientUser> {
    set u | u in ids :: ClientUser(clientId, u)
  }
  function TagLinks(clientId: Uuid, ids: seq<Uuid>): set<ClientTag> {
    set g | g in ids :: ClientTag(clientId, g)
  }

  /** The commit of a new client fails: its id is taken, its customer id is
      taken within its agency, or its client type is not an enum label. */
  predicate ClientInsertRefused(cs: set<Client>, row: Client) {
    || row.id in ClientIds(cs)
    || (exists c :: c in cs && c.agencyId == row.agencyId && c.customerId == row.customerId)
    || row.clientType !in ClientTypeEnum
  }

  /** What `create_client` does, given the general-setting row the database
      returns first (`None` when the table is empty): the checks in source
      order (duplicate name, schema validation, users, tags), then the
      commit. Every failure leaves the tables as they were. */
  function CreateClientSpec(t: Tables, first: Option<GeneralSetting>, user: Security.CurrentUser, agencyId: Uuid,
                            form: ClientCreate, token: HexToken, newId: Uuid): (res: (Response<Client>, Tables))
    ensures res.0.Err? ==> res.1 == t
    ensures res.0.Ok? ==> && res.0.status == StatusCreated
                          && res.0.value.agencyId == agencyId && res.0.value.createdBy == user.id
                          && res.0.value.customerId == CustomerId(token)
                          && res.0.value.clientType == Lower(form.clientType)
                          && res.0.value.clientType in ClientTypeEnum
                          && res.0.value !in t.clients
                          && res.1 == t.(clients := t.clients + {res.0.value},
                                         clientUsers := t.clientUsers + UserLinks(newId, form.userIds),
                                         clientTags := t.clientTags + TagLinks(newId, form.tagIds))
  {
    var data := form.(clientType := Lower(form.clientType));
    var error := ClientCreateError(data);
    var row := NewClient(newId, agencyId, user.id, CustomerId(token), data);
    if DuplicateBlocked(first, t.clients, form.name) then (Err(StatusBadRequest, DuplicateName), t)
    else if error.Some? then (Err(StatusInternalError, error.value), t)
    else if !IdsResolve(data.userIds, UserIds(t.users)) then (Err(StatusNotFound, UsersNotFound), t)
    else if !IdsResolve(data.tagIds, TagIds(t.tags)) then (Err(StatusNotFound, TagsNotFound), t)
    else if ClientInsertRefused(t.clients, row) then (Err(StatusInternalError, DatabaseError), t)
    else
      (Ok(StatusCreated, row),
       t.(clients := t.clients + {row},
          clientUsers := t.clientUsers + UserLinks(newId, data.userIds),
          clientTags := t.clientTags + TagLinks(newId, data.tagIds)))
  }

  /** When the first general-setting row forbids duplicates, a name that
      any client already has is refused with 400 and nothing is inserted. */
  lemma CreateRefusesDuplicateName(t: Tables, first: Option<GeneralSetting>, user: Security.CurrentUser, agencyId: Uuid,
                                   form: ClientCreate, token: HexToken, newId: Uuid)
    requires first.Some? && !first.value.allowDuplicates
    requires exists c :: c in t.clients && c.name == form.name
    ensures CreateClientSpec(t, first, user, agencyId, form, token, newId) == (Err(StatusBadRequest, DuplicateName), t)
  {
  }

  /** With no general-setting row, or a first row that allows duplicates,
      the name never stops a create: a request that passes the other checks
      succeeds whatever names exist. */
  lemma CreateAllowsDuplicateName(t: Tables, first: Option<GeneralSetting>, user: Security.CurrentUser, agencyId: Uuid,
                                  form: ClientCreate, token: HexToken, newId: Uuid)
    requires first.None? || first.value.allowDuplicates
    requires ClientCreateError(form.(clientType := Lower(form.clientType))).None?
    requires Distinct(form.userIds) && Elements(form.userIds) <= UserIds(t.users)
    requires Distinct(form.tagIds) && Elements(form.tagIds) <= TagIds(t.tags)
    requires !ClientInsertRefused(t.clients, NewClient(newId, agencyId, user.id, CustomerId(token), form.(clientType := Lower(form.clientType))))
    ensures CreateClientSpec(t, first, user, agencyId, form, token, newId).0.Ok?
  {
    IdsResolveExactly(form.userIds, UserIds(t.users));
    IdsResolveExactly(form.tagIds, TagIds(t.tags));
  }

  /** A list of user or tag ids that repeats an id is refused (404 when the
      earlier checks pass), even when every id names a row. */
  lemma CreateRefusesRepeatedIds(t: Tables, first: Option<GeneralSetting>, user: Security.CurrentUser, agencyId: Uuid,
                                 form: ClientCreate, token: HexToken, newId: Uuid)
    requires !Distinct(form.userIds) || !Distinct(form.tagIds)
    ensures CreateClientSpec(t, first, user, agencyId, form, token, newId).0.Err?
    ensures !DuplicateBlocked(first, t.clients, form.name)
            && ClientCreateError(form.(clientType := Lower(form.clientType))).None?
            ==> CreateClientSpec(t, first, user, agencyId, form, token, newId).0.status == StatusNotFound
  {
    IdsResolveExactly(form.userIds, UserIds(t.users));
    IdsResolveExactly(form.tagIds, TagIds(t.tags));
  }

  /** A non-individual client type (after lower-casing) without an
      organization fails schema validation unless the name check fired first. */
  lemma CreateRequiresOrganization(t: Tables, first: Option<GeneralSetting>, user: Security.CurrentUser, agencyId: Uuid,
                                   form: ClientCreate, token: HexToken, newId: Uuid)
    requires Lower(form.clientType) != "individual" && form.organizationId.None?
    requires !DuplicateBlocked(first, t.clients, form.name)
    ensures CreateClientSpec(t, first, user, agencyId, form, token, newId) == (Err(StatusInternalError, OrganizationRequired), t)
  {
  }

  /** Inserting a client row the commit accepts, with associations to
      existing users and tags, keeps every constraint of the schema. */
  lemma InsertClientPreservesValid(t: Tables, row: Client, userIds: seq<Uuid>, tagIds: seq<Uuid>)
    requires TablesValid(t) && !ClientInsertRefused(t.clients, row)
    requires row.openingBalanceType.None? || row.openingBalanceType.value in BalanceTypeEnum
    requires Elements(userIds) <= UserIds(t.users) && Elements(tagIds) <= TagIds(t.tags)
    ensures TablesValid(t.(clients := t.clients + {row},
                           clientUsers := t.clientUsers + UserLinks(row.id, userIds),
                           clientTags := t.clientTags + TagLinks(row.id, tagIds)))
  {
    var t' := t.(clients := t.clients + {row},
                 clientUsers := t.clientUsers + UserLinks(row.id, userIds),
                 clientTags := t.clientTags + TagLinks(row.id, tagIds));
    assert ClientIds(t'.clients) == ClientIds(t.clients) + {row.id};
    assert ClientsValid(t'.clients);
    forall a | a in t'.clientUsers ensures a.clientId in ClientIds(t'.clients) && a.userId in UserIds(t.users) {
      if a !in t.clientUsers {
        assert a.userId in Elements(userIds);
      }
    }
    forall a | a in t'.clientTags ensures a.clientId in ClientIds(t'.clients) && a.tagId in TagIds(t.tags) {
      if a !in t.clientTags {
        assert a.tagId in Elements(tagIds);
      }
    }
  }

  /** A create keeps every constraint of the schema. */
  lemma CreatePreservesValid(t: Tables, first: Option<GeneralSetting>, user: Security.CurrentUser, agencyId: Uuid,
                             form: ClientCreate, token: HexToken, newId: Uuid)
    requires TablesValid(t)
    ensures TablesValid(CreateClientSpec(t, first, user, agencyId, form, token, newId).1)
  {
    var res := CreateClientSpec(t, first, user, agencyId, form, token, newId);
    if res.0.Ok? {
      var data := form.(clientType := Lower(form.clientType));
      IdsResolveExactly(data.userIds, UserIds(t.users));
      IdsResolveExactly(data.tagIds, TagIds(t.tags));
      InsertClientPreservesValid(t, res.0.value, data.userIds, data.tagIds);
    }
  }

  /** Under a first general-setting row that forbids duplicates, creating
      the same name twice succeeds at most once: the second create is
      refused with 400. */
  lemma SameNameTwiceRefused(t: Tables, first: Option<GeneralSetting>, user: Security.CurrentUser, agencyId: Uuid,
                             form: ClientCreate, token: HexToken, newId: Uuid,
                             form2: ClientCreate, token2: HexToken, newId2: Uuid)
    requires first.Some? && !first.value.allowDuplicates
    requires CreateClientSpec(t, first, user, agencyId, form, token, newId).0.Ok?
    requires form2.name == form.name
    ensures var t' := CreateClientSpec(t, first, user, agencyId, form, token, newId).1;
            CreateClientSpec(t', first, user, agencyId, form2, token2, newId2) == (Err(StatusBadRequest, DuplicateName), t')
  {
    var res := CreateClientSpec(t, first, user, agencyId, form, token, newId);
    assert res.0.value in res.1.clients && res.0.value.name == form.name;
  }

  /** POST /clients/. The general-setting row the database returns first is
      reported as a ghost result; the whole effect is `CreateClientSpec`. */
  method CreateClient(db: Session, user: Security.CurrentUser, agencyId: Uuid, form: ClientCreate, token: HexToken, newId: Uuid)
      returns (r: Response<Client>, ghost first: Option<GeneralSetting>)
    requires db.Valid()
    modifies db
    ensures db.Valid()
    ensures first.None? <==> old(db.generalSettings) == {}
    ensures first.Some? ==> first.value in old(db.generalSettings)
    ensures (r, db.Snapshot()) == CreateClientSpec(old(db.Snapshot()), first, user, agencyId, form, token, newId)
  {
    ghost var t := db.Snapshot();
    var customerId := CustomerId(token);
    first := None;
    if db.generalSettings != {} {
      var g :| g in db.generalSettings;
      first := Some(g);
      if !g.allowDuplicates && exists c :: c in db.clients && c.name == form.name {
        assert CreateClientSpec(t, first, user, agencyId, form, token, newId) == (Err(StatusBadRequest, DuplicateName), t);
        return Err(StatusBadRequest, DuplicateName), first;
      }
    }
    assert !DuplicateBlocked(first, t.clients, form.name);
    var data := form.(clientType := Lower(form.clientType));
    var error := ClientCreateError(data);
    if error.Some? {
      assert CreateClientSpec(t, first, user, agencyId, form, token, newId) == (Err(StatusInternalError, error.value), t);
      return Err(StatusInternalError, error.value), first;
    }
    if data.userIds != [] && |Elements(data.userIds) * UserIds(db.users)| != |data.userIds| {
      assert CreateClientSpec(t, first, user, agencyId, form, token, newId) == (Err(StatusNotFound, UsersNotFound), t);
      return Err(StatusNotFound, UsersNotFound), first;
    }
    assert IdsResolve(data.userIds, UserIds(t.users));
    if data.tagIds != [] && |Elements(data.tagIds) * TagIds(db.tags)| != |data.tagIds| {
      assert CreateClientSpec(t, first, user, agencyId, form, token, newId) == (Err(StatusNotFound, TagsNotFound), t);
      return Err(StatusNotFound, TagsNotFound), first;
    }
    assert IdsResolve(data.tagIds, TagIds(t.tags));
    var row := NewClient(newId, agencyId, user.id, customerId, data);
    if ClientInsertRefused(db.clients, row) {
      assert CreateClientSpec(t, first, user, agencyId, form, token, newId) == (Err(StatusInternalError, DatabaseError), t);
      return Err(StatusInternalError, DatabaseError), first;
    }
    ghost var t' := t.(clients := t.clients + {row},
                       clientUsers := t.clientUsers + UserLinks(newId, data.userIds),
                       clientTags := t.clientTags + TagLinks(newId, data.tagIds));
    assert CreateClientSpec(t, first, user, agencyId, form, token, newId) == (Ok(StatusCreated, row), t');
    CreatePreservesValid(t, first, user, agencyId, form, token, newId);
    db.clients := db.clients + {row};
    db.clientUsers := db.clientUsers + UserLinks(newId, data.userIds);
    db.clientTags := db.clientTags + TagLinks(newId, data.tagIds);
    r := Ok(StatusCreated, row);
    assert db.Snapshot() == t';
  }

  // ---------------------------------------------------------------------
  // list_clients

  /** GET /clients/: exactly the clients of the caller's agency. */
  method ListClients(db: Session, agencyId: Uuid) returns (r: set<Client>)
    ensures forall c :: c in r <==> c in db.clients && c.agencyId == agencyId
  {
    r := set c | c in db.clients && c.agencyId == agencyId;
  }

  // ---------------------------------------------------------------------
  // Client portals

  /** The row a client-portal create stores: the body's credentials moved to
      the cipher columns, so reading them back gives what was sent. */
  function NewClientPortal(id: Uuid, clientId: Uuid, createdBy: Uuid, body: ClientPortalCreate): (p: ClientPortal)
    ensures p.id == id && p.clientId == clientId && p.createdBy == createdBy && p.portalId == body.portalId
    ensures Username(p) == body.username && Password(p) == body.password && Notes(p) == body.notes
  {
    ClientPortal(id, clientId, body.portalId, body.username, body.password, body.notes, createdBy)
  }

  /** The catalogue row with a given id (the `portal` relationship). */
  function PortalOf(ps: set<Portal>, id: Uuid): (p: Portal)
    requires PortalsValid(ps) && id in PortalIds(ps)
    ensures p in ps && p.id == id
  {
    var p :| p in ps && p.id == id; p
  }

  /** POST /clients/{client_id}/portals. */
  method CreateClientPortal(db: Session, user: Security.CurrentUser, clientId: Uuid, body: ClientPortalCreate, newId: Uuid)
      returns (r: Response<ClientPortalRead>)
    requires db.Valid()
    modifies db
    ensures db.Valid()
    ensures clientId !in ClientIds(old(db.clients)) ==> r == Err(StatusNotFound, ClientNotFound)
    ensures r.Err? ==> db.Snapshot() == old(db.Snapshot())
    ensures r.Ok? <==> && clientId in ClientIds(old(db.clients))
                       && newId !in ClientPortalIds(old(db.clientPortals))
                       && body.portalId in PortalIds(old(db.portals))
    ensures r.Ok? ==> var row := NewClientPortal(newId, clientId, user.id, body);
                      && r.status == StatusCreated
                      && r.value == ReadView(row, PortalOf(old(db.portals), body.portalId))
                      && db.Snapshot() == old(db.Snapshot()).(clientPortals := old(db.clientPortals) + {row})
  {
    if clientId !in ClientIds(db.clients) {
      return Err(StatusNotFound, ClientNotFound);
    }
    var row := NewClientPortal(newId, clientId, user.id, body);
    if newId in ClientPortalIds(db.clientPortals) || body.portalId !in PortalIds(db.portals) {
      return Err(StatusInternalError, DatabaseError);
    }
    db.clientPortals := db.clientPortals + {row};
    r := Ok(StatusCreated, ReadView(row, PortalOf(db.portals, body.portalId)));
  }

  /** The row of `client_portals` with this client and this id, if any. */
  predicate HasClientPortal(ps: set<ClientPortal>, clientId: Uuid, id: Uuid) {
    exists p :: p in ps && p.clientId == clientId && p.id == id
  }

  /** The supplied fields of a client-portal update written over the row;
      the id, the client and the creator never change. */
  function PatchClientPortal(p: ClientPortal, u: ClientPortalUpdate): (q: ClientPortal)
    ensures q.id == p.id && q.clientId == p.clientId && q.createdBy == p.createdBy
    ensures q.usernameCipher == ValueOr(u.username, p.usernameCipher)
    ensures q.passwordCipher == ValueOr(u.password, p.passwordCipher)
    ensures q.notesCipher == ValueOr(u.notes, p.notesCipher)
    ensures u.portalId.Set? && u.portalId.value.Some? ==> q.portalId == u.portalId.value.value
    ensures u.portalId.Unset? ==> q.portalId == p.portalId
  {
    p.(portalId := if u.portalId.Set? && u.portalId.value.Some? then u.portalId.value.value else p.portalId,
       usernameCipher := ValueOr(u.username, p.usernameCipher),
       passwordCipher := ValueOr(u.password, p.passwordCipher),
       notesCipher := ValueOr(u.notes, p.notesCipher))
  }

  /** Applying the same partial update twice is applying it once. */
  lemma PatchClientPortalIdempotent(p: ClientPortal, u: ClientPortalUpdate)
    ensures PatchClientPortal(PatchClientPortal(p, u), u) == PatchClientPortal(p, u)
  {
  }

  /** PATCH /clients/{client_id}/portals/{portal_id}. */
  method UpdateClientPortal(db: Session, clientId: Uuid, id: Uuid, u: ClientPortalUpdate)
      returns (r: Response<ClientPortalRead>)
    requires db.Valid()
    modifies db
    ensures db.Valid()
    ensures !HasClientPortal(old(db.clientPortals), clientId, id) ==> r == Err(StatusNotFound, ClientPortalNotFound)
    ensures r.Err? ==> db.Snapshot() == old(db.Snapshot())
    ensures r.Ok? ==> exists p :: && p in old(db.clientPortals) && p.clientId == clientId && p.id == id
                                  && r.status == StatusOk
                                  && PatchClientPortal(p, u).portalId in PortalIds(old(db.portals))
                                  && r.value == ReadView(PatchClientPortal(p, u), PortalOf(old(db.portals), PatchClientPortal(p, u).portalId))
                                  && db.Snapshot() == old(db.Snapshot()).(clientPortals := old(db.clientPortals) - {p} + {PatchClientPortal(p, u)})
    ensures HasClientPortal(old(db.clientPortals), clientId, id) && u.portalId == Set(None)
            ==> r == Err(StatusInternalError, DatabaseError)
    ensures HasClientPortal(old(db.clientPortals), clientId, id) && (u.portalId.Unset? || (u.portalId.value.Some? && u.portalId.value.value in PortalIds(old(db.portals))))
            ==> r.Ok?
  {
    if !HasClientPortal(db.clientPortals, clientId, id) {
      return Err(StatusNotFound, ClientPortalNotFound);
    }
    var p :| p in db.clientPortals && p.clientId == clientId && p.id == id;
    if u.portalId == Set(None) {
      return Err(StatusInternalError, DatabaseError);
    }
    var q := PatchClientPortal(p, u);
    if q.portalId !in PortalIds(db.portals) {
      return Err(StatusInternalError, DatabaseError);
    }
    ghost var cs := db.clientPortals;
    db.clientPortals := db.clientPortals - {p} + {q};
    assert forall a | a in cs - {p} :: a.id != q.id;
    r := Ok(StatusOk, ReadView(q, PortalOf(db.portals, q.portalId)));
  }

  /** GET /clients/{client_id}/portals: the privileged view of every stored
      credential set of the client (none for an unknown client), or 500 when
      one of them has no username or no password and cannot be serialized. */
  method ListClientPortals(db: Session, clientId: Uuid) returns (r: Response<set<ClientPortalWithSecrets>>)
    requires db.Valid()
    ensures r.Err? <==> exists p :: p in db.clientPortals && p.clientId == clientId && (p.usernameCipher.None? || p.passwordCipher.None?)
    ensures r.Err? ==> r == Err(StatusInternalError, ResponseInvalid)
    ensures r.Ok? ==> r.status == StatusOk
    ensures r.Ok? ==> forall v :: v in r.value <==>
              exists p :: p in db.clientPortals && p.clientId == clientId && SecretsView(p, PortalOf(db.portals, p.portalId)) == Some(v)
  {
    var rows := set p | p in db.clientPortals && p.clientId == clientId;
    if exists p :: p in rows && (p.usernameCipher.None? || p.passwordCipher.None?) {
      return Err(StatusInternalError, ResponseInvalid);
    }
    r := Ok(StatusOk, set p | p in rows :: SecretsView(p, PortalOf(db.portals, p.portalId)).value);
  }

  /** GET /clients/{client_id}/portals/{portal_id}. */
  method GetClientPortal(db: Session, clientId: Uuid, id: Uuid) returns (r: Response<ClientPortalWithSecrets>)
    requires db.Valid()
    ensures !HasClientPortal(db.clientPortals, clientId, id) <==> r == Err(StatusNotFound, ClientPortalNotFound)
    ensures r.Ok? ==> exists p :: && p in db.clientPortals && p.clientId == clientId && p.id == id
                                  && r.status == StatusOk
                                  && SecretsView(p, PortalOf(db.portals, p.portalId)) == Some(r.value)
    ensures HasClientPortal(db.clientPortals, clientId, id) && r.Err? ==> r == Err(StatusInternalError, ResponseInvalid)
    ensures r.Ok? <==> exists p :: && p in db.clientPortals && p.clientId == clientId && p.id == id
                                   && SecretsView(p, PortalOf(db.portals, p.portalId)).Some?
  {
    if !HasClientPortal(db.clientPortals, clientId, id) {
      return Err(StatusNotFound, ClientPortalNotFound);
    }
    var p :| p in db.clientPortals && p.clientId == clientId && p.id == id;
    var v := SecretsView(p, PortalOf(db.portals, p.portalId));
    if v.None? {
      return Err(StatusInternalError, ResponseInvalid);
    }
    r := Ok(StatusOk, v.value);
  }

  /** DELETE /clients/{client_id}/portals/{portal_id}. */
  method DeleteClientPortal(db: Session, clientId: Uuid, id: Uuid) returns (r: Response<()>)
    requires db.Valid()
    modifies db
    ensures db.Valid()
    ensures !HasClientPortal(old(db.clientPortals), clientId, id) <==> r == Err(StatusNotFound, ClientPortalNotFound)
    ensures r.Err? ==> db.Snapshot() == old(db.Snapshot())
    ensures HasClientPortal(old(db.clientPortals), clientId, id) <==> r.Ok?
    ensures r.Ok? ==> r.status == StatusNoContent
    ensures r.Ok? ==> exists p :: && p in old(db.clientPortals) && p.clientId == clientId && p.id == id
                                  && db.Snapshot() == old(db.Snapshot()).(clientPortals := old(db.clientPortals) - {p})
  {
    if !HasClientPortal(db.clientPortals, clientId, id) {
      return Err(StatusNotFound, ClientPortalNotFound);
    }
    var p :| p in db.clientPortals && p.clientId == clientId && p.id == id;
    db.clientPortals := db.clientPortals - {p};
    r := Ok(StatusNoContent, ());
  }

  // ---------------------------------------------------------------------
  // update_client

  /** The supplied scalar fields of a client update written over the row
      (a supplied null name or client type is refused before this). Columns
      the body does not carry, and fields left out, keep their values. */
  function PatchClient(c: Client, u: ClientUpdate): (d: Client)
    ensures d.id == c.id && d.agencyId == c.agencyId && d.customerId == c.customerId && d.createdBy == c.createdBy
    ensures u.clientType.Unset? ==> d.clientType == c.clientType
    ensures u.clientType.Set? && u.clientType.value.Some? ==> d.clientType == u.clientType.value.value
  {
    c.(name := if u.name.Set? && u.name.value.Some? then u.name.value.value else c.name,
       clientType := if u.clientType.Set? && u.clientType.value.Some? then u.clientType.value.value else c.clientType,
       organizationId := ValueOr(u.organizationId, c.organizationId),
       pan := ValueOr(u.pan, c.pan),
       gstin := ValueOr(u.gstin, c.gstin),
       dob := ValueOr(u.dob, c.dob),
       assignedCaUserId := ValueOr(u.assignedCaUserId, c.assignedCaUserId),
       gstAutofillEnabled := ValueOr(u.gstAutofillEnabled, c.gstAutofillEnabled),
       isActive := ValueOr(u.isActive, c.isActive),
       canLogin := ValueOr(u.canLogin, c.canLogin),
       notifyClient := ValueOr(u.notifyClient, c.notifyClient),
       contactPersonName := ValueOr(u.contactPersonName, c.contactPersonName),
       contactPersonPhone := ValueOr(u.contactPersonPhone, c.contactPersonPhone),
       dateOfBirth := ValueOr(u.dateOfBirth, c.dateOfBirth))
  }

  /** Each column a client update carries takes the supplied value, or
      keeps its own when left out; every other column keeps its value. */
  lemma PatchClientColumns(c: Client, u: ClientUpdate)
    ensures var d := PatchClient(c, u);
            && (u.name.Unset? ==> d.name == c.name)
            && (u.name.Set? && u.name.value.Some? ==> d.name == u.name.value.value)
            && d.organizationId == ValueOr(u.organizationId, c.organizationId)
            && d.pan == ValueOr(u.pan, c.pan) && d.gstin == ValueOr(u.gstin, c.gstin)
            && d.dob == ValueOr(u.dob, c.dob) && d.assignedCaUserId == ValueOr(u.assignedCaUserId, c.assignedCaUserId)
            && d.isActive == ValueOr(u.isActive, c.isActive) && d.canLogin == ValueOr(u.canLogin, c.canLogin)
            && d.notifyClient == ValueOr(u.notifyClient, c.notifyClient)
            && d.gstAutofillEnabled == ValueOr(u.gstAutofillEnabled, c.gstAutofillEnabled)
            && d.contactPersonName == ValueOr(u.contactPersonName, c.contactPersonName)
            && d.contactPersonPhone == ValueOr(u.contactPersonPhone, c.contactPersonPhone)
            && d.dateOfBirth == ValueOr(u.dateOfBirth, c.dateOfBirth)
  {
  }

  /** The columns a client update does not carry never change. */
  lemma PatchClientKeepsOtherColumns(c: Client, u: ClientUpdate)
    ensures var d := PatchClient(c, u);
            && d.mobile == c.mobile && d.secondaryPhone == c.secondaryPhone && d.email == c.email
            && d.addressLine1 == c.addressLine1 && d.addressLine2 == c.addressLine2
            && d.city == c.city && d.state == c.state && d.postalCode == c.postalCode
            && d.openingBalanceAmount == c.openingBalanceAmount && d.openingBalanceType == c.openingBalanceType
            && d.openingBalanceDate == c.openingBalanceDate
  {
  }

  /** An update that supplies no field changes nothing. */
  lemma EmptyPatchIsIdentity(c: Client)
    ensures PatchClient(c, ClientUpdate(Unset, Unset, Unset, Unset, Unset, Unset, Unset, Unset, Unset, Unset, Unset, Unset, Unset, Unset, Unset)) == c
  {
  }

  /** A supplied null for a NOT NULL column makes the commit fail. */
  predicate ClientPatchRefused(u: ClientUpdate) {
    u.name == Set(None) || u.clientType == Set(None)
  }

  /** Replacing a client row by one with the same keys and valid enum
      columns keeps the database valid. */
  lemma ReplaceClientPreservesValid(t: Tables, c: Client, d: Client)
    requires TablesValid(t) && c in t.clients
    requires d.id == c.id && d.agencyId == c.agencyId && d.customerId == c.customerId
    requires d.clientType in ClientTypeEnum && d.openingBalanceType == c.openingBalanceType
    ensures TablesValid(t.(clients := t.clients - {c} + {d}))
  {
    ClientIdsReplace(t.clients, c, d);
    assert forall a | a in t.clients - {c} :: a.id != d.id && !(a.agencyId == d.agencyId && a.customerId == d.customerId);
  }

  /** PATCH /clients/{client_id}. The body is validated before the handler
      runs (422); then the client is looked up by id alone, in any agency. */
  method UpdateClient(db: Session, clientId: Uuid, u: ClientUpdate) returns (r: Response<Client>)
    requires db.Valid()
    modifies db
    ensures db.Valid()
    ensures ClientUpdateError(u).Some? ==> r == Err(StatusUnprocessable, ClientUpdateError(u).value)
    ensures ClientUpdateError(u).None? && clientId !in ClientIds(old(db.clients)) ==> r == Err(StatusNotFound, ClientNotFound)
    ensures r.Err? ==> db.Snapshot() == old(db.Snapshot())
    ensures r.Ok? <==> ClientUpdateError(u).None? && clientId in ClientIds(old(db.clients)) && !ClientPatchRefused(u)
    ensures r.Ok? ==> exists c :: && c in old(db.clients) && c.id == clientId
                                  && r == Ok(StatusOk, PatchClient(c, u))
                                  && db.Snapshot() == old(db.Snapshot()).(clients := old(db.clients) - {c} + {PatchClient(c, u)})
  {
    var error := ClientUpdateError(u);
    if error.Some? {
      return Err(StatusUnprocessable, error.value);
    }
    if clientId !in ClientIds(db.clients) {
      return Err(StatusNotFound, ClientNotFound);
    }
    var c :| c in db.clients && c.id == clientId;
    if ClientPatchRefused(u) {
      return Err(StatusInternalError, DatabaseError);
    }
    var d := PatchClient(c, u);
    PatchClientKeepsOtherColumns(c, u);
    ReplaceClientPreservesValid(db.Snapshot(), c, d);
    db.clients := db.clients - {c} + {d};
    r := Ok(StatusOk, d);
  }

  // ---------------------------------------------------------------------
  // delete_client

  /** The tables after a client is deleted: the client row goes, and the
      cascades and association tables take every service link, credential
      set and user or tag association of the client with it. */
  function RemoveClient(t: Tables, c: Client): (t': Tables)
    ensures t'.clients == t.clients - {c}
    ensures forall l :: l in t'.clientServices <==> l in t.clientServices && l.clientId != c.id
    ensures forall p :: p in t'.clientPortals <==> p in t.clientPortals && p.clientId != c.id
    ensures forall a :: a in t'.clientUsers <==> a in t.clientUsers && a.clientId != c.id
    ensures forall a :: a in t'.clientTags <==> a in t.clientTags && a.clientId != c.id
    ensures t'.portals == t.portals && t'.generalSettings == t.generalSettings && t'.tags == t.tags
    ensures t'.businessTypes == t.businessTypes && t'.users == t.users
  {
    t.(clients := t.clients - {c},
       clientUsers := (set a | a in t.clientUsers && a.clientId != c.id),
       clientTags := (set a | a in t.clientTags && a.clientId != c.id),
       clientServices := (set l | l in t.clientServices && l.clientId != c.id),
       clientPortals := (set p | p in t.clientPortals && p.clientId != c.id))
  }

  /** Deleting a client leaves no row that refers to a missing client. */
  lemma RemoveClientPreservesValid(t: Tables, c: Client)
    requires TablesValid(t) && c in t.clients
    ensures TablesValid(RemoveClient(t, c))
  {
    ClientIdsRemove(t.clients, c);
  }

  /** DELETE /clients/{client_id}. */
  method DeleteClient(db: Session, clientId: Uuid) returns (r: Response<()>)
    requires db.Valid()
    modifies db
    ensures db.Valid()
    ensures clientId !in ClientIds(old(db.clients)) <==> r == Err(StatusNotFound, ClientNotFound)
    ensures r.Err? ==> db.Snapshot() == old(db.Snapshot())
    ensures clientId in ClientIds(old(db.clients)) <==> r.Ok?
    ensures r.Ok? ==> r.status == StatusNoContent
    ensures r.Ok? ==> exists c :: && c in old(db.clients) && c.id == clientId
                                  && db.Snapshot() == RemoveClient(old(db.Snapshot()), c)
  {
    if clientId !in ClientIds(db.clients) {
      return Err(StatusNotFound, ClientNotFound);
    }
    var c :| c in db.clients && c.id == clientId;
    var t := RemoveClient(db.Snapshot(), c);
    RemoveClientPreservesValid(db.Snapshot(), c);
    db.clients, db.clientUsers, db.clientTags := t.clients, t.clientUsers, t.clientTags;
    db.clientServices, db.clientPortals := t.clientServices, t.clientPortals;
    r := Ok(StatusNoContent, ());
  }

  // ---------------------------------------------------------------------
  // Dashboard and ledger

  /** GET /clients/{client_id}/dashboard. */
  method GetClientDashboard(db: Session, clientId: Uuid) returns (r: Response<ClientDashboard>)
    requires db.Valid()
    ensures clientId !in ClientIds(db.clients) <==> r == Err(StatusNotFound, ClientNotFound)
    ensures clientId in ClientIds(db.clients) <==> r.Ok?
    ensures r.Ok? ==> exists c :: && c in db.clients && c.id == clientId && r.status == StatusOk
                                  && r.value == ClientDashboard(c.isActive, c.clientType, c.contactPersonName, c.dateOfBirth,
                                                                c.pan, c.mobile, c.email, c.city, c.postalCode, c.state)
  {
    if clientId !in ClientIds(db.clients) {
      return Err(StatusNotFound, ClientNotFound);
    }
    var c :| c in db.clients && c.id == clientId;
    r := Ok(StatusOk, ClientDashboard(c.isActive, c.clientType, c.contactPersonName, c.dateOfBirth,
                                      c.pan, c.mobile, c.email, c.city, c.postalCode, c.state));
  }

  /** GET /clients/{client_id}/ledger-balance. */
  method GetLedgerBalance(db: Session, clientId: Uuid) returns (r: Response<LedgerBalance>)
    requires db.Valid()
    ensures clientId !in ClientIds(db.clients) <==> r == Err(StatusNotFound, ClientNotFound)
    ensures clientId in ClientIds(db.clients) <==> r.Ok?
    ensures r.Ok? ==> exists c :: && c in db.clients && c.id == clientId
                                  && r == Ok(StatusOk, LedgerBalance(c.openingBalanceAmount))
  {
    if clientId !in ClientIds(db.clients) {
      return Err(StatusNotFound, ClientNotFound);
    }
    var c :| c in db.clients && c.id == clientId;
    r := Ok(StatusOk, LedgerBalance(c.openingBalanceAmount));
  }
}
