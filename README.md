# Client records service — a Dafny model

This project models the core of a small web service that keeps the client
records of an accounting agency: the clients themselves, the services and
portal credentials attached to each client, the portal catalogue, the
per-agency general setting (whether two clients may share a name), tags and
business types, the role check that guards the catalogue and settings
routes, and a one-off script that repairs client-type values.

The database is a `Database.Session` object with one field per table; each
route handler is a module-level method that takes the session as a
parameter, returns a `Response` (an HTTP status with a value, or a status
with an error detail) and changes only the tables its contract names. A
table is a set of rows, because no query of the service orders its
results. `Models.TablesValid` collects the constraints the schema declares
(primary keys, unique columns, the two enum columns, and every foreign key
except `clients.assigned_ca_user_id`, whose target table `ca_accounts` is
not modelled), and every handler keeps it. Where a handler has an
interesting decision procedure (client creation, bulk service add and
remove) the procedure is a pure function (`CreateClientSpec`,
`AddServicesSpec`, `RemoveServicesSpec`) that the method is proved equal
to, and the lemmas about the behaviour are stated on that function.

Conventions used throughout:

- The caller's identity (the user record the login service returns for the
  bearer token, with its `id` and `role`) and the agency id are inputs.
- Freshly generated ids (`uuid4`) are inputs; a collision with an existing
  primary key is a failed commit.
- A commit the database refuses (primary key, unique, foreign key, NOT
  NULL or enum violation) raises an exception that no handler catches
  except the two service routes: the answer is 500, written
  `Err(500, DatabaseError)`, and nothing is stored.
- A request body is modelled after parsing; a field a PATCH body leaves
  out is `Unset`, a supplied one `Set(v)`, and a nullable field supplied as
  null is `Set(None)`.
- For an error raised by a validator the model's detail is that
  validator's message; the server's actual 500 body is its generic error
  text and its 422 body lists every failing field.

Behaviour of the code worth knowing, which the model reproduces:

- The duplicate-name check reads the first `general_settings` row of any
  agency (the table has no ordering) and compares names across all
  agencies. With no row at all, duplicates are allowed.
- A non-individual client type without an organization makes the
  `ClientCreate` constructed inside `create_client` raise, which no
  handler catches: the answer is 500.
- The client-type enum has 17 labels.
- A client-portal list or get answers 500 when a stored username or
  password is null, because the privileged response shape declares both as
  strings.
- The masked username can equal the stored one: a ten-character username
  whose first six characters are asterisks (`Models.MaskedCanEqualRaw`).
- `update_client` looks a client up by id alone; a client of another
  agency can be updated, read on the dashboard or deleted.
- The nested `opening_balance` field of a client PATCH is validated, but it
  names no column, so writing it onto the row has no effect on what is
  stored. The model's `Schemas.ClientUpdate` carries it and the scalar
  columns; it does not carry `contact`, `services`, `user_ids` or `tags`.
- The `tags` list a client PATCH inherits from the base schema is written
  onto the client's tag relationship: a PATCH with `"tags": []` answers 200
  and removes every tag association of the client, and a non-empty list
  reaches the relationship as plain dictionaries and fails with 500. The
  model does not capture either effect.

## Model

| member | source | states |
|---|---|---|
| Base.ElementsCardinality | app/routers/clients.py:111-121 | a list has at most as many distinct ids as entries, with equality exactly when no id repeats |
| Base.AllFoundExactly | app/routers/clients.py:111-121 | the number of distinct listed ids found in a table equals the list length exactly when the list repeats no id and every id is in the table |
| Security.RoleValues | app/security.py:16 | the list of required role values has one entry per required role, each that role's string value |
| Security.CheckRole | app/security.py:13-21 | a request passes exactly when the user's role string is the value of one of the required roles; otherwise it is refused with 403 and the fixed message; a user record without a role is always refused |
| Security.RoleValueInjective | app/security.py:5-11 | two roles with the same string value are the same role |
| Security.ClientRolesAlwaysRefused | app/security.py:5-11 | with the writer and reader role lists of the routers, CLIENT_ADMIN and CLIENT_USER pass neither |
| Security.CaTeamOnlyReads | app/routers/settings.py:42-46 | CA_TEAM passes the reader list (the GET routes) and not the writer list |
| Security.WritersCanRead | app/routers/settings.py:20-44 | every role that passes the writer list passes the reader list |
| Models.LastChars | app/models.py:170 | Python's `s[-k:]`: the last min(k, len s) characters of the string |
| Models.UsernameMasked | app/models.py:168-170 | the masked username is empty for a missing or empty username; otherwise six asterisks followed by the last min(4, n) characters, so of length 6 + min(4, n) |
| Models.MaskedIgnoresPrefix | app/models.py:168-170 | the masked username of a username with at least four characters does not change when anything is put in front of it |
| Models.MaskedEqualsRawOnlyForMaskLikeNames | app/models.py:168-170 | the masked username equals the stored one only for a ten-character username that starts with six asterisks |
| Models.MaskedCanEqualRaw | app/models.py:168-170 | such a username exists: "******abcd" is its own masked view |
| Models.EmptyTablesValid | app/models.py:54-209 | an empty database meets every declared constraint |
| Models.ClientIdsRemove | app/models.py:57 | removing a client row removes exactly its id from the client ids in use |
| Models.ClientIdsReplace | app/models.py:57 | replacing a client row by one with the same id leaves the client ids unchanged |
| Models.PortalIdsRemove | app/models.py:146 | removing a catalogue portal removes exactly its id from the portal ids in use |
| Models.TagIdsRemove | app/models.py:200 | removing a tag removes exactly its id from the tag ids in use |
| Models.TagIdsReplace | app/models.py:200 | replacing a tag by one with the same id leaves the tag ids unchanged |
| Schemas.ClientCreateError | app/schemas.py:65-94 | a `ClientCreate` is accepted exactly when its client type is "individual" or an organization is given, and its balance type is null, "debit" or "credit"; a non-individual type without organization reports the organization message |
| Schemas.UpdateTypesAreEnum | app/schemas.py:99-119 | the client-type literal of `ClientUpdate` is exactly the 17 labels of the table's enum, without repeats |
| Schemas.OpeningBalanceError | app/schemas.py:20-23 | an opening balance is accepted exactly when its amount is at least 0 and its type is null, "debit" or "credit" |
| Schemas.ClientUpdateError | app/schemas.py:97-130 | a PATCH body without a client type (or with a null one) never requires an organization; an accepted body's client type is an enum label; a supplied enum label is accepted exactly when it is "individual" or the body supplies an organization, and the opening balance passes |
| Schemas.ClientUpdateBalanceError | app/schemas.py:120-121 | the nested opening balance is checked only when supplied and not null |
| Schemas.ReadView | app/schemas.py:270-280 | the general view carries the row's id and client, the referenced portal, and only the masked username |
| Schemas.ReadViewHidesSecrets | app/schemas.py:270-280 | the general view is the same whatever the password, the notes, or the part of the username before its last four characters |
| Schemas.SecretsView | app/schemas.py:283-286 | the privileged view exists exactly when username and password are both stored, and then shows the general view plus the stored username, password and notes unchanged |
| Schemas.AllowDuplicatesOf | app/schemas.py:208-217 | `allow_duplicates` of a settings body is the supplied value, and false when left out |
| Clients.Upper | app/routers/clients.py:66 | `upper()` keeps the length and upper-cases each ASCII letter, which on a hexadecimal token is Python's full upper-casing |
| Clients.CustomerId | app/routers/clients.py:66 | the customer id is "CUST-" followed by exactly six upper-case hexadecimal digits, the upper-cased first six digits of the token |
| Clients.Lower | app/routers/clients.py:78 | `lower()` keeps the length and lower-cases each letter |
| Clients.LowerIdempotent | app/routers/clients.py:78 | lower-casing a lower-cased client type changes nothing |
| Clients.LowerKeepsLowerCase | app/routers/clients.py:78 | a client type without upper-case letters, such as every enum label, is stored as sent |
| Clients.IdsResolveExactly | app/routers/clients.py:111-121 | the user (or tag) count check passes exactly when the list repeats no id and every id names a row |
| Clients.NewClient | app/routers/clients.py:104-109 | the new row carries the generated id, the caller's agency and user, the customer id, the validated fields, and the column defaults (can_login false, notify_client and gst_autofill_enabled true, no `dob`, no contact phone) |
| Clients.CreateClientSpec | app/routers/clients.py:23-126 | every failure leaves the tables unchanged; a success answers 201 with a row not yet stored whose agency, creator, customer id and lower-cased enum client type are as given, and adds that row with its user and tag links, changing no other table |
| Clients.CreateRefusesDuplicateName | app/routers/clients.py:69-73 | if the first general-setting row forbids duplicates and any client of any agency has the name, the create answers 400 and changes nothing |
| Clients.CreateAllowsDuplicateName | app/routers/clients.py:69-70 | with no general-setting row, or a first row that allows duplicates, a request that passes the other checks succeeds whatever names exist |
| Clients.CreateRefusesRepeatedIds | app/routers/clients.py:111-121 | a user or tag list that repeats an id makes the create fail, with 404 once the name and schema checks have passed |
| Clients.CreateRequiresOrganization | app/routers/clients.py:75-98 | a non-individual client type (after lower-casing) without an organization fails with 500 and changes nothing, unless the name check fired first |
| Clients.InsertClientPreservesValid | app/routers/clients.py:104-126 | inserting a client row that the commit accepts, with associations only to existing users and tags, keeps every schema constraint |
| Clients.CreatePreservesValid | app/routers/clients.py:104-126 | a create keeps every schema constraint, including the association rows' references to users and tags |
| Clients.SameNameTwiceRefused | app/routers/clients.py:69-73 | under a first general-setting row that forbids duplicates, a second create with the name of a client just created answers 400 |
| Clients.CreateClient | app/routers/clients.py:23-126 | the handler's answer and new tables are those of `CreateClientSpec` for the general-setting row the database returns first (none for an empty table), and the database stays valid |
| Clients.ListClients | app/routers/clients.py:128-135 | the answer is exactly the clients whose agency is the caller's |
| Clients.NewClientPortal | app/models.py:172-182 | the stored row's username, password and notes accessors give back exactly what the create body carried |
| Clients.PortalOf | app/models.py:166 | the `portal` relationship: the catalogue row with the referenced id |
| Clients.CreateClientPortal | app/routers/clients.py:137-158 | an unknown client gives 404 "Client not found" and no change; the create succeeds exactly when the client exists, the new id is free and the portal exists, and then stores exactly the new row and returns its general view |
| Clients.PatchClientPortal | app/routers/clients.py:175-184 | a client-portal PATCH changes only the supplied fields and never the row id, client or creator |
| Clients.PatchClientPortalIdempotent | app/routers/clients.py:175-184 | applying the same client-portal PATCH twice is applying it once |
| Clients.UpdateClientPortal | app/routers/clients.py:160-188 | a row not matched on client and id together gives 404 and no change; a null `portal_id` on a matched row makes the commit fail with 500; a PATCH that leaves the portal out or names an existing one succeeds, replacing only that row by its patched version and returning its general view; any failure changes nothing |
| Clients.ListClientPortals | app/routers/clients.py:190-196 | the answer is the privileged view of exactly the client's rows (none for an unknown client), or 500 exactly when one of them lacks a username or password |
| Clients.GetClientPortal | app/routers/clients.py:199-212 | 404 exactly when no row matches client and id; 200 with the privileged view of that row exactly when it has both a username and a password; otherwise 500 |
| Clients.DeleteClientPortal | app/routers/clients.py:215-229 | 404 and no change exactly when no row matches client and id; otherwise the delete succeeds with 204 and removes exactly that row |
| Clients.PatchClient | app/routers/clients.py:243-245 | a client PATCH never changes the id, agency, customer id or creator, and the client type is the supplied one when one is given and the old one when it is left out |
| Clients.PatchClientColumns | app/routers/clients.py:243-245 | each column the PATCH body carries (name, organization, PAN, GSTIN, `dob`, assigned CA user, the four flags, contact person name and phone, date of birth) takes the supplied value, and keeps its old value when the field is left out |
| Clients.PatchClientKeepsOtherColumns | app/routers/clients.py:243-245 | mobile, secondary phone, e-mail, address lines, city, state, postal code and the opening-balance columns never change |
| Clients.EmptyPatchIsIdentity | app/routers/clients.py:243-245 | a PATCH that supplies nothing leaves the client as it was |
| Clients.ReplaceClientPreservesValid | app/routers/clients.py:243-247 | replacing a client row by one with the same id, agency and customer id, an enum client type and the same balance type keeps every schema constraint |
| Clients.UpdateClient | app/routers/clients.py:231-249 | an invalid body gives 422 before the lookup; an unknown id gives 404; any failure changes nothing; the update succeeds exactly when the body is valid, the id is known and no null name or client type is supplied, and then replaces exactly that row by its patched version |
| Clients.RemoveClient | app/models.py:114-117 | deleting a client removes its row and every service link, credential set and user or tag association of that client, and nothing else |
| Clients.RemoveClientPreservesValid | app/models.py:114-117 | the cascade leaves no row referring to the deleted client, so the database stays valid |
| Clients.DeleteClient | app/routers/clients.py:274-285 | 404 and no change exactly when the id is unknown; otherwise the delete succeeds with 204 and the tables become `RemoveClient` of that client |
| Clients.GetClientDashboard | app/routers/clients.py:251-261 | 404 exactly when the id is unknown; otherwise 200 with the dashboard projection of that client |
| Clients.GetLedgerBalance | app/routers/clients.py:287-297 | 404 exactly when the id is unknown; otherwise 200 with that client's opening balance amount |
| Services.LinkedServices | app/routers/services.py:49-52 | the service ids computed before the loop are exactly those linked to the client |
| Services.NewServiceIds | app/routers/services.py:54-62 | the ids the loop inserts are exactly the requested ids not linked before the call, never more than were requested |
| Services.NewServiceIdsCount | app/routers/services.py:54-62 | every occurrence of an unlinked id is inserted and no occurrence of a linked one, so an id occurs among the inserted ids as often as in the request, or not at all |
| Services.NewServiceIdsConcat | app/routers/services.py:54-62 | the inserted ids keep request order: the filter of two concatenated requests is the concatenation of their filters |
| Services.NewServiceIdsKeepRepeats | app/routers/services.py:49-62 | an unlinked id that appears twice in the request appears twice among the ids to insert |
| Services.NewServiceIdsEmpty | app/routers/services.py:64 | nothing is left to insert exactly when every requested id is already linked |
| Services.Links | app/routers/services.py:58-60 | the inserted rows are exactly the pairs of the client with each new id |
| Services.AddServicesSpec | app/routers/services.py:42-72 | an add never removes or changes a link and never touches another table; a failure changes nothing; a success answers 201 |
| Services.AddLinksEveryRequestedId | app/routers/services.py:56-72 | after a successful add every requested id is linked, and the answer lists only ids that were requested and not linked before |
| Services.AddAllLinkedIsNoop | app/routers/services.py:64-72 | when every requested id is already linked, the add answers 201 with an empty list and changes nothing |
| Services.AddRepeatedIdFails | app/routers/services.py:49-70 | an unlinked id repeated in one request makes the add fail with 500 and insert nothing |
| Services.AddIdempotent | app/routers/services.py:49-72 | repeating a successful add answers an empty list and changes nothing |
| Services.AddPreservesValid | app/routers/services.py:42-72 | an add keeps every schema constraint |
| Services.AddServiceToClient | app/routers/services.py:42-72 | the handler, with its loop over the request, gives exactly the answer and tables of `AddServicesSpec` |
| Services.GetClientServices | app/routers/services.py:74-79 | a reader gets exactly the service ids linked to the client, an empty answer for an unknown client; other roles get 403 |
| Services.RemoveServicesSpec | app/routers/services.py:81-95 | a writer's remove deletes exactly the client's links whose service id is listed and answers 204; other clients' links and unlisted ids are untouched; other roles get 403 and no change |
| Services.AddThenRemove | app/routers/services.py:42-95 | removing the ids of a successful add leaves the same links as removing them without the add |
| Services.RemoveServicesFromClient | app/routers/services.py:81-95 | the handler gives exactly the answer and tables of `RemoveServicesSpec` |
| Settings.CreateGeneralSetting | app/routers/settings.py:20-40 | a second setting for an agency gives 409 and no change; otherwise a free id adds exactly one row with the caller's agency and user and the body's `allow_duplicates` (false by default); non-writers get 403 |
| Settings.ListGeneralSettings | app/routers/settings.py:42-44 | a reader gets every row, whatever its agency |
| Settings.UpdateGeneralSetting | app/routers/settings.py:46-63 | an unknown id gives 404 and no change; a writer's update of a known id succeeds, and only a supplied `allow_duplicates` changes that one row |
| Settings.DeleteGeneralSetting | app/routers/settings.py:65-74 | an unknown id gives 404 and no change; a writer's delete of a known id succeeds with 204 and removes exactly that row |
| Settings.CreateTag | app/routers/settings.py:76-85 | the tag is added exactly when its name and id are free, with the given name and color |
| Settings.ListTags | app/routers/settings.py:87-89 | a reader gets every tag |
| Settings.PatchTag | app/routers/settings.py:101-103 | a tag PATCH changes only the supplied fields and never the id |
| Settings.PatchTagIdempotent | app/routers/settings.py:101-103 | applying the same tag PATCH twice is applying it once |
| Settings.UpdateTag | app/routers/settings.py:91-107 | an unknown id gives 404 and no change; the update succeeds exactly when no null is supplied and the new name is not another tag's, replacing only that row |
| Settings.DeleteTag | app/routers/settings.py:109-118 | an unknown id gives 404 and no change; a writer's delete of a known tag succeeds with 204 and removes the tag and every client association with it |
| Settings.CreateBusinessType | app/routers/settings.py:120-129 | the business type is added exactly when its name and id are free |
| Settings.ListBusinessTypes | app/routers/settings.py:131-133 | a reader gets every business type |
| Settings.PatchBusinessType | app/routers/settings.py:145-147 | a business-type PATCH changes only a supplied name and never the id |
| Settings.UpdateBusinessType | app/routers/settings.py:135-151 | an unknown id gives 404 and no change; the update succeeds exactly when the caller is a writer, the id is known, the name is not supplied as null and is not another row's, and then replaces only that row by its patched version |
| Settings.DeleteBusinessType | app/routers/settings.py:153-162 | an unknown id gives 404 and no change; a writer's delete of a known id succeeds with 204 and removes exactly that row |
| Portals.CreatePortal | app/routers/portals.py:20-29 | the portal is added exactly when its name and id are free, with the given name and login URL |
| Portals.ListPortals | app/routers/portals.py:31-33 | a reader gets the whole catalogue |
| Portals.DeletePortal | app/routers/portals.py:35-44 | an unknown id gives 404 and no change; the delete succeeds exactly when no credential set refers to the portal, and removes exactly that row |
| FixClientTypes.ValidTypesAreEnum | fix_client_types.py:51-60 | the labels the script treats as valid are the table enum's labels |
| FixClientTypes.MappingTargetsValid | fix_client_types.py:25-44 | every label a display name maps to is valid |
| FixClientTypes.MappingKeysInvalid | fix_client_types.py:25-44 | no display name is itself a valid label |
| FixClientTypes.MappingNotInjective | fix_client_types.py:35-36 | "NGO's" and "NGO" both map to "ngo" |
| FixClientTypes.Invalid | fix_client_types.py:51-62 | the selected rows are exactly those whose type is not a valid label |
| FixClientTypes.Fixed | fix_client_types.py:66-78 | an invalid type with a mapping becomes its label; a valid or unmapped type is kept; the id never changes |
| FixClientTypes.FixedIdempotent | fix_client_types.py:25-78 | a second run changes nothing, since every rewritten row has a valid type |
| FixClientTypes.Changed | fix_client_types.py:81 | the number of positions at which two tables differ is at most their size, and zero exactly when they are equal |
| FixClientTypes.CountIsChanged | fix_client_types.py:81 | the reported count equals the number of rows the script changed |
| FixClientTypes.FixClientTypes | fix_client_types.py:64-81 | the loop leaves every row as `Fixed` of itself and reports the number of rows it changed |

## Left out

- Authentication: the login-service calls that yield the user record and the agency are outside the model; both are inputs.
- The photo upload of `create_client` (a write to local disk), the object-store helpers and the invite placeholder, which only prints.
- `list_external_services` and the organizations router, which forward requests to other services.
- Schema migrations and application wiring.
- Clocks: `created_at`, `updated_at`, `last_rotated_at` and `gst_last_sync_at` are not modelled.
- Floating point: `opening_balance_amount` is a `real`; float rounding and the two-decimal `Numeric` column are not modelled.
- Parsing of dates, UUIDs and e-mail addresses in request bodies; a body that fails it is not modelled.
- Clients.Upper: upper-cases ASCII letters only; Python's Unicode case mapping is not modelled. Its one use is on a hexadecimal token, where the two agree.
- Clients.Lower: lower-cases ASCII letters only; Python's Unicode case mapping is not modelled.
- Clients.CreateClient: `assigned_ca_user_id` refers to `ca_accounts`, which is not modelled, so an unknown CA account id (a failed commit, 500) is not a failure here.
- Clients.UpdateClient: `assigned_ca_user_id` refers to `ca_accounts`, which is not modelled, so a PATCH naming an unknown CA account (a failed commit, 500) succeeds here.
- Clients.UpdateClient: the `tags` field of a client PATCH is not modelled; `"tags": []` removes every tag association of the client with a 200, and a non-empty list fails with 500, neither of which the model's update captures.
- Clients.PatchClient: the nested `contact`, `services` and `user_ids` fields and the inherited `tags` list of a client PATCH are not carried by the model's body. `contact` and `user_ids` name no column, so writing them onto the row stores nothing; `services` is a relationship whose assignment depends on the ORM. The model covers the scalar columns and the nested `opening_balance`, which also does not reach the row.
- Services.AddServiceToClient: the link rows' own ids are never read and are not modelled; persistence failures other than constraint violations are not modelled.
- Settings.UpdateGeneralSetting: `updated_at` is not modelled.
- The AgencySetting table is unused by the handlers and is not modelled.
- Concurrent requests and transaction isolation.
- The script's database connection, its messages and its exit codes.
