/** The settings routes (app/routers/settings.py): the per-agency general
    setting, tags and business types. Every write route requires a writer
    role and every list route a reader role; a failed commit (primary key,
    unique name, NOT NULL) is rolled back and answered with 500. */
module Settings {
  import opened Base
  import opened Models
  import opened Schemas
  import opened Database
  import opened Security

  const SettingExists := "General setting for this agency already exists."
  const SettingNotFound := "Setting not found"
  const TagNotFound := "Tag not found"
  const BusinessTypeNotFound := "Business type not found"

  // ---------------------------------------------------------------------
  // General settings

  /** POST /settings/general: at most one row per agency (409 for a second
      one); the row carries the caller's agency and user, and
      `allow_duplicates` is false unless the body says otherwise. */
  method CreateGeneralSetting(db: Session, user: CurrentUser, agencyId: Uuid, allowDuplicates: Opt<bool>, newId: Uuid)
      returns (r: Response<GeneralSetting>)
    requires db.Valid()
    modifies db
    ensures db.Valid()
    ensures CheckRole(user, WriteRoles).Fail? ==> r == Err(StatusForbidden, PermissionDenied)
    ensures CheckRole(user, WriteRoles).Pass? && agencyId in SettingAgencies(old(db.generalSettings))
            ==> r == Err(StatusConflict, SettingExists)
    ensures r.Err? ==> db.Snapshot() == old(db.Snapshot())
    ensures r.Ok? <==> && CheckRole(user, WriteRoles).Pass?
                       && agencyId !in SettingAgencies(old(db.generalSettings))
                       && newId !in SettingIds(old(db.generalSettings))
    ensures r.Ok? ==> && r == Ok(StatusCreated, GeneralSetting(newId, AllowDuplicatesOf(allowDuplicates), agencyId, user.id))
                      && db.Snapshot() == old(db.Snapshot()).(generalSettings := old(db.generalSettings) + {r.value})
  {
    if CheckRole(user, WriteRoles).Fail? {
      return Err(StatusForbidden, PermissionDenied);
    }
    if exists g :: g in db.generalSettings && g.agencyId == agencyId {
      return Err(StatusConflict, SettingExists);
    }
    if exists g :: g in db.generalSettings && g.id == newId {
      return Err(StatusInternalError, DatabaseError);
    }
    var row := GeneralSetting(newId, AllowDuplicatesOf(allowDuplicates), agencyId, user.id);
    db.generalSettings := db.generalSettings + {row};
    r := Ok(StatusCreated, row);
  }

  /** GET /settings/general: every row, whatever its agency. */
  method ListGeneralSettings(db: Session, user: CurrentUser) returns (r: Response<set<GeneralSetting>>)
    ensures CheckRole(user, ReadRoles).Fail? <==> r == Err(StatusForbidden, PermissionDenied)
    ensures r.Ok? ==> r == Ok(StatusOk, db.generalSettings)
  {
    if CheckRole(user, ReadRoles).Fail? {
      return Err(StatusForbidden, PermissionDenied);
    }
    r := Ok(StatusOk, db.generalSettings);
  }

  /** PATCH /settings/general/{setting_id}: only a supplied
      `allow_duplicates` changes the row. */
  method UpdateGeneralSetting(db: Session, user: CurrentUser, id: Uuid, allowDuplicates: Opt<bool>)
      returns (r: Response<GeneralSetting>)
    requires db.Valid()
    modifies db
    ensures db.Valid()
    ensures CheckRole(user, WriteRoles).Fail? ==> r == Err(StatusForbidden, PermissionDenied)
    ensures CheckRole(user, WriteRoles).Pass? ==> (id !in SettingIds(old(db.generalSettings)) <==> r == Err(StatusNotFound, SettingNotFound))
    ensures r.Err? ==> db.Snapshot() == old(db.Snapshot())
    ensures r.Ok? <==> CheckRole(user, WriteRoles).Pass? && id in SettingIds(old(db.generalSettings))
    ensures r.Ok? ==> exists g :: && g in old(db.generalSettings) && g.id == id
                                  && r == Ok(StatusOk, g.(allowDuplicates := ValueOr(allowDuplicates, g.allowDuplicates)))
                                  && db.Snapshot() == old(db.Snapshot()).(generalSettings := old(db.generalSettings) - {g} + {r.value})
  {
    if CheckRole(user, WriteRoles).Fail? {
      return Err(StatusForbidden, PermissionDenied);
    }
    if id !in SettingIds(db.generalSettings) {
      return Err(StatusNotFound, SettingNotFound);
    }
    var g :| g in db.generalSettings && g.id == id;
    var h := g.(allowDuplicates := ValueOr(allowDuplicates, g.allowDuplicates));
    ghost var gs := db.generalSettings;
    db.generalSettings := db.generalSettings - {g} + {h};
    assert forall a | a in gs - {g} :: a.id != h.id && a.agencyId != h.agencyId;
    r := Ok(StatusOk, h);
  }

  /** DELETE /settings/general/{setting_id}: exactly that row goes. */
  method DeleteGeneralSetting(db: Session, user: CurrentUser, id: Uuid) returns (r: Response<()>)
    requires db.Valid()
    modifies db
    ensures db.Valid()
    ensures CheckRole(user, WriteRoles).Fail? ==> r == Err(StatusForbidden, PermissionDenied)
    ensures CheckRole(user, WriteRoles).Pass? ==> (id !in SettingIds(old(db.generalSettings)) <==> r == Err(StatusNotFound, SettingNotFound))
    ensures r.Err? ==> db.Snapshot() == old(db.Snapshot())
    ensures r.Ok? <==> CheckRole(user, WriteRoles).Pass? && id in SettingIds(old(db.generalSettings))
    ensures r.Ok? ==> r.status == StatusNoContent
    ensures r.Ok? ==> exists g :: && g in old(db.generalSettings) && g.id == id
                                  && db.Snapshot() == old(db.Snapshot()).(generalSettings := old(db.generalSettings) - {g})
  {
    if CheckRole(user, WriteRoles).Fail? {
      return Err(StatusForbidden, PermissionDenied);
    }
    if id !in SettingIds(db.generalSettings) {
      return Err(StatusNotFound, SettingNotFound);
    }
    var g :| g in db.generalSettings && g.id == id;
    db.generalSettings := db.generalSettings - {g};
    r := Ok(StatusNoContent, ());
  }

  // ---------------------------------------------------------------------
  // Tags

  /** POST /settings/tags: a taken name or id makes the commit fail. */
  method CreateTag(db: Session, user: CurrentUser, name: string, color: string, newId: Uuid) returns (r: Response<Tag>)
    requires db.Valid()
    modifies db
    ensures db.Valid()
    ensures CheckRole(user, WriteRoles).Fail? ==> r == Err(StatusForbidden, PermissionDenied)
    ensures r.Err? ==> db.Snapshot() == old(db.Snapshot())
    ensures r.Ok? <==> && CheckRole(user, WriteRoles).Pass?
                       && name !in TagNames(old(db.tags)) && newId !in TagIds(old(db.tags))
    ensures r.Ok? ==> && r == Ok(StatusCreated, Tag(newId, name, color))
                      && db.Snapshot() == old(db.Snapshot()).(tags := old(db.tags) + {r.value})
  {
    if CheckRole(user, WriteRoles).Fail? {
      return Err(StatusForbidden, PermissionDenied);
    }
    if name in TagNames(db.tags) || newId in TagIds(db.tags) {
      return Err(StatusInternalError, DatabaseError);
    }
    var row := Tag(newId, name, color);
    db.tags := db.tags + {row};
    r := Ok(StatusCreated, row);
  }

  /** GET /settings/tags. */
  method ListTags(db: Session, user: CurrentUser) returns (r: Response<set<Tag>>)
    ensures CheckRole(user, ReadRoles).Fail? <==> r == Err(StatusForbidden, PermissionDenied)
    ensures r.Ok? ==> r == Ok(StatusOk, db.tags)
  {
    if CheckRole(user, ReadRoles).Fail? {
      return Err(StatusForbidden, PermissionDenied);
    }
    r := Ok(StatusOk, db.tags);
  }

  /** The supplied fields of a tag update written over the row. */
  function PatchTag(t: Tag, u: TagUpdate): (t': Tag)
    ensures t'.id == t.id
    ensures u.name.Unset? ==> t'.name == t.name
    ensures u.name.Set? && u.name.value.Some? ==> t'.name == u.name.value.value
    ensures u.color.Unset? ==> t'.color == t.color
    ensures u.color.Set? && u.color.value.Some? ==> t'.color == u.color.value.value
  {
    t.(name := if u.name.Set? && u.name.value.Some? then u.name.value.value else t.name,
       color := if u.color.Set? && u.color.value.Some? then u.color.value.value else t.color)
  }

  /** Applying the same tag update twice is applying it once. */
  lemma PatchTagIdempotent(t: Tag, u: TagUpdate)
    ensures PatchTag(PatchTag(t, u), u) == PatchTag(t, u)
  {
  }

  /** The commit of a tag update fails: a supplied null for a NOT NULL
      column, or a name another tag already has. */
  predicate TagPatchRefused(ts: set<Tag>, t: Tag, u: TagUpdate) {
    || u.name == Set(None) || u.color == Set(None)
    || (exists o :: o in ts && o.id != t.id && o.name == PatchTag(t, u).name)
  }

  /** PATCH /settings/tags/{tag_id}. */
  method UpdateTag(db: Session, user: CurrentUser, id: Uuid, u: TagUpdate) returns (r: Response<Tag>)
    requires db.Valid()
    modifies db
    ensures db.Valid()
    ensures CheckRole(user, WriteRoles).Fail? ==> r == Err(StatusForbidden, PermissionDenied)
    ensures CheckRole(user, WriteRoles).Pass? ==> (id !in TagIds(old(db.tags)) <==> r == Err(StatusNotFound, TagNotFound))
    ensures r.Err? ==> db.Snapshot() == old(db.Snapshot())
    ensures r.Ok? <==> && CheckRole(user, WriteRoles).Pass?
                       && exists t :: t in old(db.tags) && t.id == id && !TagPatchRefused(old(db.tags), t, u)
    ensures r.Ok? ==> exists t :: && t in old(db.tags) && t.id == id
                                  && r == Ok(StatusOk, PatchTag(t, u))
                                  && db.Snapshot() == old(db.Snapshot()).(tags := old(db.tags) - {t} + {PatchTag(t, u)})
  {
    if CheckRole(user, WriteRoles).Fail? {
      return Err(StatusForbidden, PermissionDenied);
    }
    if id !in TagIds(db.tags) {
      return Err(StatusNotFound, TagNotFound);
    }
    var t :| t in db.tags && t.id == id;
    if TagPatchRefused(db.tags, t, u) {
      return Err(StatusInternalError, DatabaseError);
    }
    var t' := PatchTag(t, u);
    ghost var ts := db.tags;
    TagIdsReplace(ts, t, t');
    db.tags := db.tags - {t} + {t'};
    assert forall a | a in ts - {t} :: a.id != t'.id && a.name != t'.name;
    r := Ok(StatusOk, t');
  }

  /** DELETE /settings/tags/{tag_id}: the tag goes, and with it every
      association of a client with it. */
  method DeleteTag(db: Session, user: CurrentUser, id: Uuid) returns (r: Response<()>)
    requires db.Valid()
    modifies db
    ensures db.Valid()
    ensures CheckRole(user, WriteRoles).Fail? ==> r == Err(StatusForbidden, PermissionDenied)
    ensures CheckRole(user, WriteRoles).Pass? ==> (id !in TagIds(old(db.tags)) <==> r == Err(StatusNotFound, TagNotFound))
    ensures r.Err? ==> db.Snapshot() == old(db.Snapshot())
    ensures r.Ok? <==> CheckRole(user, WriteRoles).Pass? && id in TagIds(old(db.tags))
    ensures r.Ok? ==> r.status == StatusNoContent
    ensures r.Ok? ==> exists t :: && t in old(db.tags) && t.id == id
                                  && db.Snapshot() == old(db.Snapshot()).(
                                       tags := old(db.tags) - {t},
                                       clientTags := (set a | a in old(db.clientTags) && a.tagId != id))
  {
    if CheckRole(user, WriteRoles).Fail? {
      return Err(StatusForbidden, PermissionDenied);
    }
    if id !in TagIds(db.tags) {
      return Err(StatusNotFound, TagNotFound);
    }
    var t :| t in db.tags && t.id == id;
    TagIdsRemove(db.tags, t);
    db.tags := db.tags - {t};
    db.clientTags := set a | a in db.clientTags && a.tagId != id;
    r := Ok(StatusNoContent, ());
  }

  // ---------------------------------------------------------------------
  // Business types

  /** POST /settings/business-types. */
  method CreateBusinessType(db: Session, user: CurrentUser, name: string, newId: Uuid) returns (r: Response<BusinessType>)
    requires db.Valid()
    modifies db
    ensures db.Valid()
    ensures CheckRole(user, WriteRoles).Fail? ==> r == Err(StatusForbidden, PermissionDenied)
    ensures r.Err? ==> db.Snapshot() == old(db.Snapshot())
    ensures r.Ok? <==> && CheckRole(user, WriteRoles).Pass?
                       && name !in BusinessTypeNames(old(db.businessTypes)) && newId !in BusinessTypeIds(old(db.businessTypes))
    ensures r.Ok? ==> && r == Ok(StatusCreated, BusinessType(newId, name))
                      && db.Snapshot() == old(db.Snapshot()).(businessTypes := old(db.businessTypes) + {r.value})
  {
    if CheckRole(user, WriteRoles).Fail? {
      return Err(StatusForbidden, PermissionDenied);
    }
    if name in BusinessTypeNames(db.businessTypes) || newId in BusinessTypeIds(db.businessTypes) {
      return Err(StatusInternalError, DatabaseError);
    }
    var row := BusinessType(newId, name);
    db.businessTypes := db.businessTypes + {row};
    r := Ok(StatusCreated, row);
  }

  /** GET /settings/business-types. */
  method ListBusinessTypes(db: Session, user: CurrentUser) returns (r: Response<set<BusinessType>>)
    ensures CheckRole(user, ReadRoles).Fail? <==> r == Err(StatusForbidden, PermissionDenied)
    ensures r.Ok? ==> r == Ok(StatusOk, db.businessTypes)
  {
    if CheckRole(user, ReadRoles).Fail? {
      return Err(StatusForbidden, PermissionDenied);
    }
    r := Ok(StatusOk, db.businessTypes);
  }

  /** The supplied name of a business-type update written over the row. */
  function PatchBusinessType(b: BusinessType, u: BusinessTypeUpdate): (b': BusinessType)
    ensures b'.id == b.id
    ensures u.name.Unset? ==> b' == b
    ensures u.name.Set? && u.name.value.Some? ==> b'.name == u.name.value.value
  {
    b.(name := if u.name.Set? && u.name.value.Some? then u.name.value.value else b.name)
  }

  /** The commit of a business-type update fails: a supplied null name, or
      a name another row already has. */
  predicate BusinessTypePatchRefused(bs: set<BusinessType>, b: BusinessType, u: BusinessTypeUpdate) {
    || u.name == Set(None)
    || (exists o :: o in bs && o.id != b.id && o.name == PatchBusinessType(b, u).name)
  }

  /** PATCH /settings/business-types/{business_type_id}: a supplied name
      replaces the old one unless it is null or another row has it. */
  method UpdateBusinessType(db: Session, user: CurrentUser, id: Uuid, u: BusinessTypeUpdate) returns (r: Response<BusinessType>)
    requires db.Valid()
    modifies db
    ensures db.Valid()
    ensures CheckRole(user, WriteRoles).Fail? ==> r == Err(StatusForbidden, PermissionDenied)
    ensures CheckRole(user, WriteRoles).Pass? ==> (id !in BusinessTypeIds(old(db.businessTypes)) <==> r == Err(StatusNotFound, BusinessTypeNotFound))
    ensures r.Err? ==> db.Snapshot() == old(db.Snapshot())
    ensures r.Ok? <==> && CheckRole(user, WriteRoles).Pass?
                       && exists b :: b in old(db.businessTypes) && b.id == id && !BusinessTypePatchRefused(old(db.businessTypes), b, u)
    ensures r.Ok? ==> exists b :: && b in old(db.businessTypes) && b.id == id
                                  && r == Ok(StatusOk, PatchBusinessType(b, u))
                                  && db.Snapshot() == old(db.Snapshot()).(businessTypes := old(db.businessTypes) - {b} + {r.value})
  {
    if CheckRole(user, WriteRoles).Fail? {
      return Err(StatusForbidden, PermissionDenied);
    }
    if id !in BusinessTypeIds(db.businessTypes) {
      return Err(StatusNotFound, BusinessTypeNotFound);
    }
    var b :| b in db.businessTypes && b.id == id;
    if BusinessTypePatchRefused(db.businessTypes, b, u) {
      return Err(StatusInternalError, DatabaseError);
    }
    var b' := PatchBusinessType(b, u);
    ghost var bs := db.businessTypes;
    db.businessTypes := db.businessTypes - {b} + {b'};
    assert forall a | a in bs - {b} :: a.id != b'.id && a.name != b'.name;
    r := Ok(StatusOk, b');
  }

  /** DELETE /settings/business-types/{business_type_id}. */
  method DeleteBusinessType(db: Session, user: CurrentUser, id: Uuid) returns (r: Response<()>)
    requires db.Valid()
    modifies db
    ensures db.Valid()
    ensures CheckRole(user, WriteRoles).Fail? ==> r == Err(StatusForbidden, PermissionDenied)
    ensures CheckRole(user, WriteRoles).Pass? ==> (id !in BusinessTypeIds(old(db.businessTypes)) <==> r == Err(StatusNotFound, BusinessTypeNotFound))
    ensures r.Err? ==> db.Snapshot() == old(db.Snapshot())
    ensures r.Ok? <==> CheckRole(user, WriteRoles).Pass? && id in BusinessTypeIds(old(db.businessTypes))
    ensures r.Ok? ==> r.status == StatusNoContent
    ensures r.Ok? ==> exists b :: && b in old(db.businessTypes) && b.id == id
                                  && db.Snapshot() == old(db.Snapshot()).(businessTypes := old(db.businessTypes) - {b})
  {
    if CheckRole(user, WriteRoles).Fail? {
      return Err(StatusForbidden, PermissionDenied);
    }
    if id !in BusinessTypeIds(db.businessTypes) {
      return Err(StatusNotFound, BusinessTypeNotFound);
    }
    var b :| b in db.businessTypes && b.id == id;
    db.businessTypes := db.businessTypes - {b};
    r := Ok(StatusNoContent, ());
  }
}
