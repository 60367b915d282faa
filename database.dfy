/**
 * The database the passes work on (database/models.py): the four tables as
 * sequences of rows, in row-id order of insertion. A session's queries, adds
 * and commits become reads and reassignments of these fields.
 *
 * `Valid` is what the table definitions guarantee of every committed state:
 * positive, distinct primary keys, a unique and present `source_url`, and
 * a present `price` (the NOT NULL column).
 */
module Database {
  import opened Wrappers
  import opened Models

  function PropertyId(p: Property): nat { p.id }
  function ContactId(c: Contact): nat { c.id }
  function CommunicationId(m: Communication): nat { m.id }
  function LogId(l: ScrapingLog): nat { l.id }

  /** The largest row id of a table, 0 for an empty table. */
  function MaxId<T>(rows: seq<T>, id: T -> nat): (m: nat)
    ensures forall k :: 0 <= k < |rows| ==> id(rows[k]) <= m
    ensures rows == [] ==> m == 0
    decreases |rows|
  {
    if rows == [] then 0
    else
      var m := MaxId(rows[..|rows| - 1], id);
      if id(rows[|rows| - 1]) > m then id(rows[|rows| - 1]) else m
  }

  /** SQLite's row id for an insert without an explicit key: one more than the largest in the table. */
  function NextId<T>(rows: seq<T>, id: T -> nat): (n: nat)
    ensures n >= 1
    ensures forall k :: 0 <= k < |rows| ==> id(rows[k]) < n
    ensures rows == [] ==> n == 1
  {
    MaxId(rows, id) + 1
  }

  /** Primary keys: every row id is positive and no two rows share one. */
  predicate KeysValid<T>(rows: seq<T>, id: T -> nat) {
    && (forall k :: 0 <= k < |rows| ==> id(rows[k]) > 0)
    && (forall k, l :: 0 <= k < l < |rows| ==> id(rows[k]) != id(rows[l]))
  }

  /** The UNIQUE constraint on `properties.source_url`. */
  predicate UniqueUrls(rows: seq<Property>) {
    forall k, l :: 0 <= k < l < |rows| ==> rows[k].sourceUrl != rows[l].sourceUrl
  }

  /** The NOT NULL constraint on `properties.price`. */
  predicate PricesPresent(rows: seq<Property>) {
    forall k :: 0 <= k < |rows| ==> rows[k].price.Some?
  }

  /** What the table definitions guarantee of the `properties` table. */
  predicate PropertiesValid(rows: seq<Property>) {
    KeysValid(rows, PropertyId) && UniqueUrls(rows) && PricesPresent(rows)
  }

  /** Appending a row under the next id keeps the keys valid. */
  lemma AppendKeepsKeys<T>(rows: seq<T>, id: T -> nat, row: T)
    requires KeysValid(rows, id)
    requires id(row) == NextId(rows, id)
    ensures KeysValid(rows + [row], id)
  {
    var all := rows + [row];
    forall k, l | 0 <= k < l < |all| ensures id(all[k]) != id(all[l]) {
      if l == |rows| {
        assert all[k] == rows[k];
      } else {
        assert all[k] == rows[k] && all[l] == rows[l];
      }
    }
  }

  /** Replacing a row by one with the same key keeps the keys valid. */
  lemma KeysAfterReplace<T>(rows: seq<T>, id: T -> nat, k: nat, row: T)
    requires KeysValid(rows, id) && k < |rows| && id(row) == id(rows[k])
    ensures KeysValid(rows[k := row], id)
  {
    var after := rows[k := row];
    assert forall j :: 0 <= j < |rows| ==> id(after[j]) == id(rows[j]);
  }

  /** The first row with the given key, as `query(...).get(id)` returns it. */
  function RowWithId<T>(rows: seq<T>, id: T -> nat, key: nat): (r: Option<nat>)
    ensures r.Some? ==> r.value < |rows| && id(rows[r.value]) == key
    ensures r.Some? ==> forall k :: 0 <= k < r.value ==> id(rows[k]) != key
    ensures r.None? ==> forall k :: 0 <= k < |rows| ==> id(rows[k]) != key
    decreases |rows|
  {
    if rows == [] then None
    else if id(rows[0]) == key then Some(0)
    else
      match RowWithId(rows[1..], id, key)
      case None => None
      case Some(k) => Some(k + 1)
  }

  /** The session's view of the database. */
  class Store {
    var properties: seq<Property>
    var contacts: seq<Contact>
    var communications: seq<Communication>
    var logs: seq<ScrapingLog>

    /** An empty database, as `init_db` creates it. */
    constructor ()
      ensures properties == [] && contacts == [] && communications == [] && logs == []
      ensures Valid()
    {
      properties := [];
      contacts := [];
      communications := [];
      logs := [];
    }

    predicate Valid()
      reads this
    {
      && PropertiesValid(properties)
      && KeysValid(contacts, ContactId)
      && KeysValid(communications, CommunicationId)
      && KeysValid(logs, LogId)
    }

    /** `db.add(contact); db.commit()`: the row is stored under the next id. */
    method AddContact(c: Contact) returns (id: nat)
      requires Valid()
      modifies this
      ensures Valid()
      ensures id == NextId(old(contacts), ContactId)
      ensures contacts == old(contacts) + [c.(id := id)]
      ensures properties == old(properties) && communications == old(communications) && logs == old(logs)
    {
      id := NextId(contacts, ContactId);
      AppendKeepsKeys(contacts, ContactId, c.(id := id));
      contacts := contacts + [c.(id := id)];
    }

    /** A committed change to a stored property that keeps its key, its URL and its price. */
    method UpdateProperty(k: nat, row: Property)
      requires Valid() && k < |properties|
      requires row.id == properties[k].id && row.sourceUrl == properties[k].sourceUrl && row.price == properties[k].price
      modifies this
      ensures Valid()
      ensures properties == old(properties)[k := row]
      ensures contacts == old(contacts) && communications == old(communications) && logs == old(logs)
    {
      KeysAfterReplace(properties, PropertyId, k, row);
      var after := properties[k := row];
      assert forall j :: 0 <= j < |after| ==> after[j].sourceUrl == properties[j].sourceUrl && after[j].price == properties[j].price;
      properties := after;
    }

    /** A committed change to a stored contact that keeps its key. */
    method UpdateContact(k: nat, row: Contact)
      requires Valid() && k < |contacts| && row.id == contacts[k].id
      modifies this
      ensures Valid()
      ensures contacts == old(contacts)[k := row]
      ensures properties == old(properties) && communications == old(communications) && logs == old(logs)
    {
      KeysAfterReplace(contacts, ContactId, k, row);
      contacts := contacts[k := row];
    }

    /** `db.add(communication); db.commit()`: the row is stored under the next id. */
    method AddCommunication(m: Communication) returns (id: nat)
      requires Valid()
      modifies this
      ensures Valid()
      ensures id == NextId(old(communications), CommunicationId)
      ensures communications == old(communications) + [m.(id := id)]
      ensures properties == old(properties) && contacts == old(contacts) && logs == old(logs)
    {
      id := NextId(communications, CommunicationId);
      AppendKeepsKeys(communications, CommunicationId, m.(id := id));
      communications := communications + [m.(id := id)];
    }
  }
}
