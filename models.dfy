/** Table shapes, column defaults and database constraints of the client
    service (app/models.py). A table is a set of rows: no query of the core
    orders its results, so the order rows come back in is unspecified. */
module Models {
  import opened Base

  /** A calendar date (`Date` column); only equality matters here, so a day
      number stands for it. */
  type Date = nat

  /** The labels of the `client_type` database enum. */
  const ClientTypeEnum: seq<string> := [
    "individual", "sole_proprietorship", "partnership", "llp", "huf",
    "private_limited", "limited_company", "joint_venture", "one_person_company",
    "ngo", "trust", "section_8_company", "government_entity",
    "cooperative_society", "branch_office", "aop", "society"
  ]

  /** The labels of the `opening_balance_type` database enum. */
  const BalanceTypeEnum: seq<string> := ["debit", "credit"]

  // Column defaults.
  const DefaultAllowDuplicates := false
  const DefaultIsActive := true
  const DefaultCanLogin := false
  const DefaultNotifyClient := true
  const DefaultGstAutofill := true
  const DefaultOpeningBalance: real := 0.0

  /** A row of `clients`. `opening_balance_amount` is a `real`; its 2-digit
      rounding is not modelled. */
  datatype Client = Client(
    id: Uuid,
    agencyId: Uuid,
    organizationId: Option<Uuid>,
    customerId: string,
    name: string,
    clientType: string,
    pan: Option<string>,
    gstin: Option<string>,
    dob: Option<Date>,
    assignedCaUserId: Option<Uuid>,
    mobile: Option<string>,
    secondaryPhone: Option<string>,
    email: Option<string>,
    addressLine1: Option<string>,
    addressLine2: Option<string>,
    city: Option<string>,
    state: Option<string>,
    postalCode: Option<string>,
    openingBalanceAmount: real,
    openingBalanceType: Option<string>,
    openingBalanceDate: Option<Date>,
    gstAutofillEnabled: bool,
    createdBy: Uuid,
    isActive: bool,
    canLogin: bool,
    notifyClient: bool,
    contactPersonName: Option<string>,
    contactPersonPhone: Option<string>,
    dateOfBirth: Option<Date>)

  /** A row of `client_user_association`. */
  datatype ClientUser = ClientUser(clientId: Uuid, userId: Uuid)

  /** A row of `client_tag_association`. */
  datatype ClientTag = ClientTag(clientId: Uuid, tagId: Uuid)

  /** A row of `client_services`: a client linked to a service of the
      services catalogue. A set of these pairs holds each pair at most once,
      which is the `(client_id, service_id)` unique constraint. */
  datatype ClientService = ClientService(clientId: Uuid, serviceId: Uuid)

  /** A row of the portal catalogue `portals`. */
  datatype Portal = Portal(id: Uuid, name: string, loginUrl: string)

  /** A row of `client_portals`: one client's credentials for one portal.
      The `*_cipher` columns hold the values as supplied; nothing encrypts them. */
  datatype ClientPortal = ClientPortal(
    id: Uuid,
    clientId: Uuid,
    portalId: Uuid,
    usernameCipher: Option<string>,
    passwordCipher: Option<string>,
    notesCipher: Option<string>,
    createdBy: Uuid)

  /** A row of `general_settings`. */
  datatype GeneralSetting = GeneralSetting(id: Uuid, allowDuplicates: bool, agencyId: Uuid, createdBy: Uuid)

  /** A row of `tags`. */
  datatype Tag = Tag(id: Uuid, name: string, color: string)

  /** A row of `business_types`. */
  datatype BusinessType = BusinessType(id: Uuid, name: string)

  /** A row of `users`. */
  datatype User = User(id: Uuid, name: string, email: string, role: string)

  // ---------------------------------------------------------------------
  // The credential accessors of ClientPortal

  const UsernameMask := "******"

  function Min(a: int, b: int): int {
    if a < b then a else b
  }

  /** Python's `s[-k:]` for a positive `k`: the last `k` characters, or all
      of `s` when it is shorter. */
  function LastChars(s: string, k: nat): (r: string)
    requires k > 0
    ensures |r| == Min(k, |s|)
    ensures r == s[|s| - |r|..]
  {
    if |s| <= k then s else s[|s| - k..]
  }

  /** The `username_masked` property: six asterisks followed by the last four
      characters of the stored username (all of it when shorter), and the
      empty string when there is no username or it is empty. */
  function UsernameMasked(p: ClientPortal): (m: string)
    ensures p.usernameCipher.None? || p.usernameCipher.value == [] ==> m == []
    ensures p.usernameCipher.Some? && p.usernameCipher.value != [] ==>
              var u := p.usernameCipher.value;
              && |m| == |UsernameMask| + Min(4, |u|)
              && m[..|UsernameMask|] == UsernameMask
              && m[|UsernameMask|..] == u[|u| - Min(4, |u|)..]
  {
    if p.usernameCipher.Some? && p.usernameCipher.value != [] then
      UsernameMask + LastChars(p.usernameCipher.value, 4)
    else
      []
  }

  /** The `username` accessor: the stored cipher column, unchanged. */
  function Username(p: ClientPortal): Option<string> {
    p.usernameCipher
  }

  /** The `password` accessor: the stored cipher column, unchanged. */
  function Password(p: ClientPortal): Option<string> {
    p.passwordCipher
  }

  /** The `notes` accessor: the stored cipher column, unchanged. */
  function Notes(p: ClientPortal): Option<string> {
    p.notesCipher
  }

  /** The masked username depends only on the last four characters: putting
      any prefix in front of a username of four or more characters does not
      change it. */
  lemma MaskedIgnoresPrefix(p: ClientPortal, prefix: string)
    requires p.usernameCipher.Some? && |p.usernameCipher.value| >= 4
    ensures UsernameMasked(p.(usernameCipher := Some(prefix + p.usernameCipher.value))) == UsernameMasked(p)
  {
    var u := p.usernameCipher.value;
    var v := prefix + u;
    assert v[|v| - 4..] == u[|u| - 4..];
  }

  /** The masked username differs from the raw one except for a username of
      exactly ten characters whose first six are asterisks. */
  lemma MaskedEqualsRawOnlyForMaskLikeNames(p: ClientPortal)
    requires p.usernameCipher.Some? && p.usernameCipher.value != []
    ensures UsernameMasked(p) == p.usernameCipher.value ==>
              |p.usernameCipher.value| == 10 && p.usernameCipher.value[..6] == UsernameMask
  {
  }

  /** Such a username exists: the masked view is not always different from
      the stored one. */
  lemma MaskedCanEqualRaw()
    ensures var p := ClientPortal(0, 0, 0, Some("******abcd"), None, None, 0);
            UsernameMasked(p) == Username(p).value
  {
    var p := ClientPortal(0, 0, 0, Some("******abcd"), None, None, 0);
    assert LastChars("******abcd", 4) == "abcd";
  }

  // ---------------------------------------------------------------------
  // The database: every table, and the constraints the schema declares

  datatype Tables = Tables(
    clients: set<Client>,
    clientUsers: set<ClientUser>,
    clientTags: set<ClientTag>,
    clientServices: set<ClientService>,
    clientPortals: set<ClientPortal>,
    portals: set<Portal>,
    generalSettings: set<GeneralSetting>,
    tags: set<Tag>,
    businessTypes: set<BusinessType>,
    users: set<User>)

  const EmptyTables := Tables({}, {}, {}, {}, {}, {}, {}, {}, {}, {})

  function ClientIds(cs: set<Client>): set<Uuid> { set c | c in cs :: c.id }
  function ClientPortalIds(ps: set<ClientPortal>): set<Uuid> { set p | p in ps :: p.id }
  function PortalIds(ps: set<Portal>): set<Uuid> { set p | p in ps :: p.id }
  function PortalNames(ps: set<Portal>): set<string> { set p | p in ps :: p.name }
  function SettingIds(gs: set<GeneralSetting>): set<Uuid> { set g | g in gs :: g.id }
  function SettingAgencies(gs: set<GeneralSetting>): set<Uuid> { set g | g in gs :: g.agencyId }
  function TagIds(ts: set<Tag>): set<Uuid> { set t | t in ts :: t.id }
  function TagNames(ts: set<Tag>): set<string> { set t | t in ts :: t.name }
  function BusinessTypeIds(bs: set<BusinessType>): set<Uuid> { set b | b in bs :: b.id }
  function BusinessTypeNames(bs: set<BusinessType>): set<string> { set b | b in bs :: b.name }
  function UserIds(us: set<User>): set<Uuid> { set u | u in us :: u.id }

  /** Primary key, the `(agency_id, customer_id)` unique constraint and the
      two enum columns of `clients`. */
  ghost predicate ClientsValid(cs: set<Client>) {
    && (forall a, b | a in cs && b in cs && a.id == b.id :: a == b)
    && (forall a, b | a in cs && b in cs && a.agencyId == b.agencyId && a.customerId == b.customerId :: a == b)
    && (forall c | c in cs :: c.clientType in ClientTypeEnum)
    && (forall c | c in cs :: c.openingBalanceType.None? || c.openingBalanceType.value in BalanceTypeEnum)
  }

  /** Foreign keys of the two association tables. */
  ghost predicate AssociationsValid(us: set<ClientUser>, ts: set<ClientTag>, clientIds: set<Uuid>, userIds: set<Uuid>, tagIds: set<Uuid>) {
    && (forall a | a in us :: a.clientId in clientIds && a.userId in userIds)
    && (forall a | a in ts :: a.clientId in clientIds && a.tagId in tagIds)
  }

  /** Foreign key of `client_services`. */
  ghost predicate ServiceLinksValid(ls: set<ClientService>, clientIds: set<Uuid>) {
    forall l | l in ls :: l.clientId in clientIds
  }

  /** Primary key and foreign keys of `client_portals`. */
  ghost predicate ClientPortalsValid(ps: set<ClientPortal>, clientIds: set<Uuid>, portalIds: set<Uuid>) {
    && (forall a, b | a in ps && b in ps && a.id == b.id :: a == b)
    && (forall p | p in ps :: p.clientId in clientIds && p.portalId in portalIds)
  }

  /** Primary key and unique `name` of `portals`. */
  ghost predicate PortalsValid(ps: set<Portal>) {
    && (forall a, b | a in ps && b in ps && a.id == b.id :: a == b)
    && (forall a, b | a in ps && b in ps && a.name == b.name :: a == b)
  }

  /** Primary key and unique `agency_id` of `general_settings`: at most one
      row per agency. */
  ghost predicate SettingsValid(gs: set<GeneralSetting>) {
    && (forall a, b | a in gs && b in gs && a.id == b.id :: a == b)
    && (forall a, b | a in gs && b in gs && a.agencyId == b.agencyId :: a == b)
  }

  /** Primary key and unique `name` of `tags`. */
  ghost predicate TagsValid(ts: set<Tag>) {
    && (forall a, b | a in ts && b in ts && a.id == b.id :: a == b)
    && (forall a, b | a in ts && b in ts && a.name == b.name :: a == b)
  }

  /** Primary key and unique `name` of `business_types`. */
  ghost predicate BusinessTypesValid(bs: set<BusinessType>) {
    && (forall a, b | a in bs && b in bs && a.id == b.id :: a == b)
    && (forall a, b | a in bs && b in bs && a.name == b.name :: a == b)
  }

  /** Primary key and unique `email` of `users`. */
  ghost predicate UsersValid(us: set<User>) {
    && (forall a, b | a in us && b in us && a.id == b.id :: a == b)
    && (forall a, b | a in us && b in us && a.email == b.email :: a == b)
  }

  /** Every constraint the schema declares holds of the database. */
  ghost predicate TablesValid(t: Tables) {
    && ClientsValid(t.clients)
    && AssociationsValid(t.clientUsers, t.clientTags, ClientIds(t.clients), UserIds(t.users), TagIds(t.tags))
    && ServiceLinksValid(t.clientServices, ClientIds(t.clients))
    && ClientPortalsValid(t.clientPortals, ClientIds(t.clients), PortalIds(t.portals))
    && PortalsValid(t.portals)
    && SettingsValid(t.generalSettings)
    && TagsValid(t.tags)
    && BusinessTypesValid(t.businessTypes)
    && UsersValid(t.users)
  }

  /** The empty database meets every constraint. */
  lemma EmptyTablesValid()
    ensures TablesValid(EmptyTables)
  {
  }

  /** Removing a client row removes exactly its id from the ids in use. */
  lemma {:induction false} ClientIdsRemove(cs: set<Client>, c: Client)
    requires c in cs && ClientsValid(cs)
    ensures ClientIds(cs - {c}) == ClientIds(cs) - {c.id}
  {
    forall x | x in ClientIds(cs) - {c.id} ensures x in ClientIds(cs - {c}) {
      var d :| d in cs && d.id == x;
      assert d != c;
    }
  }

  /** Replacing a client row by one with the same id keeps the ids in use. */
  lemma {:induction false} ClientIdsReplace(cs: set<Client>, c: Client, c': Client)
    requires c in cs && c'.id == c.id
    ensures ClientIds(cs - {c} + {c'}) == ClientIds(cs)
  {
    forall x | x in ClientIds(cs) ensures x in ClientIds(cs - {c} + {c'}) {
      var d :| d in cs && d.id == x;
      if d == c { assert c' in cs - {c} + {c'}; } else { assert d in cs - {c} + {c'}; }
    }
  }

  /** Removing a portal row removes exactly its id from the ids in use. */
  lemma {:induction false} PortalIdsRemove(ps: set<Portal>, p: Portal)
    requires p in ps && PortalsValid(ps)
    ensures PortalIds(ps - {p}) == PortalIds(ps) - {p.id}
  {
    forall x | x in PortalIds(ps) - {p.id} ensures x in PortalIds(ps - {p}) {
      var d :| d in ps && d.id == x;
      assert d != p;
    }
  }

  /** Removing a tag row removes exactly its id from the ids in use. */
  lemma {:induction false} TagIdsRemove(ts: set<Tag>, t: Tag)
    requires t in ts && TagsValid(ts)
    ensures TagIds(ts - {t}) == TagIds(ts) - {t.id}
  {
    forall x | x in TagIds(ts) - {t.id} ensures x in TagIds(ts - {t}) {
      var d :| d in ts && d.id == x;
      assert d != t;
    }
  }

  /** Replacing a tag row by one with the same id keeps the ids in use. */
  lemma {:induction false} TagIdsReplace(ts: set<Tag>, t: Tag, t': Tag)
    requires t in ts && t'.id == t.id
    ensures TagIds(ts - {t} + {t'}) == TagIds(ts)
  {
    forall x | x in TagIds(ts) ensures x in TagIds(ts - {t} + {t'}) {
      var d :| d in ts && d.id == x;
      if d == t { assert t' in ts - {t} + {t'}; } else { assert d in ts - {t} + {t'}; }
    }
  }
}
