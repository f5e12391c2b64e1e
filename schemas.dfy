/** Request and response shapes and their validators (app/schemas.py). A
    request body is modelled after parsing: fields have their declared types,
    and only the validators that can still fail are written out. */
module Schemas {
  import opened Base
  import opened Models

  // ---------------------------------------------------------------------
  // Client create and update

  const OrganizationRequired := "Organization ID is required for non-individual clients"
  const BalanceTypeInvalid := "opening_balance_type must be 'debit' or 'credit'"
  const ClientTypeInvalid := "client_type must be one of the client type labels"

  /** The fields of `ClientCreate`. `user_ids` and `tag_ids` are lists and
      may repeat an id. */
  datatype ClientCreate = ClientCreate(
    isActive: bool,
    name: string,
    clientType: string,
    organizationId: Option<Uuid>,
    pan: Option<string>,
    gstin: Option<string>,
    contactPersonName: Option<string>,
    dateOfBirth: Option<Date>,
    userIds: seq<Uuid>,
    assignedCaUserId: Option<Uuid>,
    tagIds: seq<Uuid>,
    mobile: Option<string>,
    secondaryPhone: Option<string>,
    email: Option<string>,
    addressLine1: Option<string>,
    addressLine2: Option<string>,
    city: Option<string>,
    postalCode: Option<string>,
    state: Option<string>,
    openingBalanceDate: Option<Date>,
    openingBalanceAmount: real,
    openingBalanceType: Option<string>)

  /** The condition under which the `organization_id` validator raises: a
      client type is given, it is not "individual", and there is no organization. */
  predicate OrganizationMissing(clientType: Option<string>, organizationId: Option<Uuid>) {
    clientType.Some? && clientType.value != "individual" && organizationId.None?
  }

  /** The first error `ClientCreate` reports, if any: a non-individual client
      without an organization, or an opening-balance type outside the literal. */
  function ClientCreateError(c: ClientCreate): (e: Option<string>)
    ensures e.None? <==>
              && (c.clientType == "individual" || c.organizationId.Some?)
              && (c.openingBalanceType.None? || c.openingBalanceType.value in BalanceTypeEnum)
    ensures c.clientType != "individual" && c.organizationId.None? ==> e == Some(OrganizationRequired)
  {
    if OrganizationMissing(Some(c.clientType), c.organizationId) then Some(OrganizationRequired)
    else if c.openingBalanceType.Some? && c.openingBalanceType.value !in BalanceTypeEnum then Some(BalanceTypeInvalid)
    else None
  }

  /** The literal `client_type` values `ClientUpdate` admits. */
  const ClientUpdateTypes: seq<string> := [
    "individual", "sole_proprietorship", "partnership", "llp", "huf",
    "private_limited", "limited_company", "joint_venture", "one_person_company",
    "ngo", "trust", "section_8_company", "government_entity",
    "cooperative_society", "branch_office", "aop", "society"
  ]

  /** `ClientUpdate` admits exactly the labels of the table's enum. */
  lemma UpdateTypesAreEnum()
    ensures ClientUpdateTypes == ClientTypeEnum
    ensures |ClientTypeEnum| == 17 && Distinct(ClientTypeEnum)
  {
  }

  const AmountNegative := "opening balance amount must be greater than or equal to 0"

  /** `OpeningBalance`: an amount and an optional debit/credit type (its
      date is not modelled). */
  datatype OpeningBalance = OpeningBalance(amount: real, balanceType: Option<string>)

  /** The first error an `OpeningBalance` reports, if any: a negative amount,
      or a type other than "debit" and "credit". */
  function OpeningBalanceError(b: OpeningBalance): (e: Option<string>)
    ensures e.None? <==> b.amount >= 0.0 && (b.balanceType.None? || b.balanceType.value in BalanceTypeEnum)
    ensures b.amount < 0.0 ==> e == Some(AmountNegative)
  {
    if b.amount < 0.0 then Some(AmountNegative)
    else if b.balanceType.Some? && b.balanceType.value !in BalanceTypeEnum then Some(BalanceTypeInvalid)
    else None
  }

  /** The scalar columns of a `ClientUpdate` body and its nested opening
      balance; each field is either left out or supplied, and a nullable
      field may be supplied as null. */
  datatype ClientUpdate = ClientUpdate(
    name: Opt<Option<string>>,
    clientType: Opt<Option<string>>,
    organizationId: Opt<Option<Uuid>>,
    pan: Opt<Option<string>>,
    gstin: Opt<Option<string>>,
    dob: Opt<Option<Date>>,
    assignedCaUserId: Opt<Option<Uuid>>,
    gstAutofillEnabled: Opt<bool>,
    isActive: Opt<bool>,
    canLogin: Opt<bool>,
    notifyClient: Opt<bool>,
    contactPersonName: Opt<Option<string>>,
    contactPersonPhone: Opt<Option<string>>,
    dateOfBirth: Opt<Option<Date>>,
    openingBalance: Opt<Option<OpeningBalance>>)

  /** The value a field of a parsed body has: what was supplied, or the
      schema's default (null for every nullable field) when it was left out. */
  function ValueOr<T>(f: Opt<T>, default: T): T {
    if f.Set? then f.value else default
  }

  /** The first error `ClientUpdate` reports, if any: a supplied client type
      outside the literal set, a supplied non-individual client type with
      no organization in the same body, or a supplied opening balance that
      fails its own checks. A body without `client_type` never requires
      `organization_id`. */
  function ClientUpdateError(u: ClientUpdate): (e: Option<string>)
    ensures u.clientType == Unset || u.clientType == Set(None) ==> e == ClientUpdateBalanceError(u)
    ensures e.None? ==> u.clientType.Unset? || u.clientType.value.None? || u.clientType.value.value in ClientTypeEnum
    ensures u.clientType.Set? && u.clientType.value.Some? && u.clientType.value.value in ClientTypeEnum
            ==> (e.None? <==> (u.clientType.value.value == "individual" || ValueOr(u.organizationId, None).Some?)
                              && ClientUpdateBalanceError(u).None?)
  {
    var clientType := ValueOr(u.clientType, None);
    if clientType.Some? && clientType.value !in ClientUpdateTypes then Some(ClientTypeInvalid)
    else if OrganizationMissing(clientType, ValueOr(u.organizationId, None)) then Some(OrganizationRequired)
    else ClientUpdateBalanceError(u)
  }

  /** The error of a supplied, non-null opening balance. */
  function ClientUpdateBalanceError(u: ClientUpdate): (e: Option<string>)
    ensures e.None? <==> u.openingBalance.Unset? || u.openingBalance.value.None? || OpeningBalanceError(u.openingBalance.value.value).None?
  {
    if u.openingBalance.Set? && u.openingBalance.value.Some? then OpeningBalanceError(u.openingBalance.value.value) else None
  }

  // ---------------------------------------------------------------------
  // Client portals

  /** The body of a client-portal create. */
  datatype ClientPortalCreate = ClientPortalCreate(
    portalId: Uuid, username: Option<string>, password: Option<string>, notes: Option<string>)

  /** The body of a client-portal update: every field may be left out. */
  datatype ClientPortalUpdate = ClientPortalUpdate(
    portalId: Opt<Option<Uuid>>,
    username: Opt<Option<string>>,
    password: Opt<Option<string>>,
    notes: Opt<Option<string>>)

  /** `PortalRead`. */
  datatype PortalRead = PortalRead(id: Uuid, name: string, loginUrl: string)

  /** `ClientPortalRead`: the general view, which shows the username only masked. */
  datatype ClientPortalRead = ClientPortalRead(id: Uuid, clientId: Uuid, portal: PortalRead, usernameMasked: string)

  /** `ClientPortalWithSecrets`: the general view plus the stored credentials. */
  datatype ClientPortalWithSecrets = ClientPortalWithSecrets(
    read: ClientPortalRead, username: string, password: string, notes: Option<string>)

  /** The general view of a stored credential set and the portal it refers to. */
  function ReadView(p: ClientPortal, portal: Portal): (v: ClientPortalRead)
    ensures v.id == p.id && v.clientId == p.clientId
    ensures v.portal == PortalRead(portal.id, portal.name, portal.loginUrl)
    ensures v.usernameMasked == UsernameMasked(p)
  {
    ClientPortalRead(p.id, p.clientId, PortalRead(portal.id, portal.name, portal.loginUrl), UsernameMasked(p))
  }

  /** The general view does not depend on the password, the notes, or the
      part of the username before its last four characters. */
  lemma ReadViewHidesSecrets(p: ClientPortal, portal: Portal, prefix: string, password: Option<string>, notes: Option<string>)
    requires p.usernameCipher.Some? && |p.usernameCipher.value| >= 4
    ensures ReadView(p.(usernameCipher := Some(prefix + p.usernameCipher.value), passwordCipher := password, notesCipher := notes), portal)
            == ReadView(p, portal)
  {
    MaskedIgnoresPrefix(p, prefix);
    assert UsernameMasked(p.(usernameCipher := Some(prefix + p.usernameCipher.value), passwordCipher := password, notesCipher := notes))
        == UsernameMasked(p.(usernameCipher := Some(prefix + p.usernameCipher.value)));
  }

  /** The privileged view, when it can be built: `username` and `password`
      are declared as strings, so a row where either is null cannot be
      serialized (`None`). Otherwise it shows the stored columns unchanged. */
  function SecretsView(p: ClientPortal, portal: Portal): (v: Option<ClientPortalWithSecrets>)
    ensures v.Some? <==> Username(p).Some? && Password(p).Some?
    ensures v.Some? ==> && v.value.read == ReadView(p, portal)
                        && Some(v.value.username) == Username(p)
                        && Some(v.value.password) == Password(p)
                        && v.value.notes == Notes(p)
  {
    if p.usernameCipher.Some? && p.passwordCipher.Some? then
      Some(ClientPortalWithSecrets(ReadView(p, portal), p.usernameCipher.value, p.passwordCipher.value, p.notesCipher))
    else
      None
  }

  // ---------------------------------------------------------------------
  // Settings and catalogue bodies

  /** `allow_duplicates` of a `GeneralSettingCreate` body: false when left out. */
  function AllowDuplicatesOf(f: Opt<bool>): (b: bool)
    ensures f.Unset? ==> b == DefaultAllowDuplicates
    ensures f.Set? ==> b == f.value
  {
    ValueOr(f, false)
  }

  /** The body of a tag update; both fields may be left out or sent as null. */
  datatype TagUpdate = TagUpdate(name: Opt<Option<string>>, color: Opt<Option<string>>)

  /** The body of a business-type update. */
  datatype BusinessTypeUpdate = BusinessTypeUpdate(name: Opt<Option<string>>)

  /** `ClientDashboard`: a read-only projection of a client. */
  datatype ClientDashboard = ClientDashboard(
    isActive: bool, clientType: string, contactPersonName: Option<string>, dateOfBirth: Option<Date>,
    pan: Option<string>, mobile: Option<string>, email: Option<string>, city: Option<string>,
    postalCode: Option<string>, state: Option<string>)

  /** `LedgerBalance`: the opening balance of a client. */
  datatype LedgerBalance = LedgerBalance(openingBalanceAmount: real)
}
