/** The database session the route handlers work on: one object whose
    fields are the tables. A handler adds, replaces and deletes rows by
    reassigning these fields; a refused commit leaves them as they were
    (the session is rolled back or closed without a commit). */
module Database {
  import opened Base
  import opened Models

  class Session {
    var clients: set<Client>
    var clientUsers: set<ClientUser>
    var clientTags: set<ClientTag>
    var clientServices: set<ClientService>
    var clientPortals: set<ClientPortal>
    var portals: set<Portal>
    var generalSettings: set<GeneralSetting>
    var tags: set<Tag>
    var businessTypes: set<BusinessType>
    var users: set<User>

    /** The contents of every table. */
    function Snapshot(): Tables
      reads this
    {
      Tables(clients, clientUsers, clientTags, clientServices, clientPortals,
             portals, generalSettings, tags, businessTypes, users)
    }

    /** The database meets every constraint of the schema. */
    ghost predicate Valid()
      reads this
    {
      TablesValid(Snapshot())
    }

    /** A freshly created, empty database. */
    constructor ()
      ensures Valid() && Snapshot() == EmptyTables
    {
      clients, clientUsers, clientTags, clientServices, clientPortals := {}, {}, {}, {}, {};
      portals, generalSettings, tags, businessTypes, users := {}, {}, {}, {}, {};
    }
  }
}
