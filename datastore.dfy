/** The store that the Datastore clients of both resources address (each
    resource obtains its own client from
    `DatastoreOptions.getDefaultInstance()`): three maps, one per entity
    kind, all keyed by username. */
module Datastore {
  import opened Entities

  class Datastore {
    var users: map<string, User>
    var profiles: map<string, Profile>
    var tokens: map<string, Token>

    constructor ()
      ensures Snapshot() == EmptyStore
    {
      users, profiles, tokens := map[], map[], map[];
    }

    /** The store's contents as a value. */
    function Snapshot(): Store
      reads this
    {
      Store(users, profiles, tokens)
    }

    ghost predicate Valid()
      reads this
    {
      Consistent(Snapshot())
    }
  }
}
