/**
 * Stand-in for the QuickNoteUserData table behind QuickNoteDao and
 * QuickNoteDynamoDbClient: a map from (CustomerId, NoteName) to NoteBody,
 * plus the log of every item handed to save. Whether the backend throws on
 * a call is an input of that call.
 */
module NoteStore {
  import opened Wrappers
  import opened UserDataItems

  /** The table's contents and the items handed to save so far, oldest first. */
  datatype Store = Store(items: map<Key, string>, saveCalls: seq<Draft>)

  /** The outcome of a load by key. */
  datatype Lookup = Threw | Missing | Found(body: string)

  /**
   * The effect of saving item `d`: the call is logged; unless the backend
   * throws or a key attribute is null, the item is written under its key,
   * replacing whatever was stored there.
   */
  function SaveEffect(s: Store, d: Draft, fails: bool): (r: (Store, bool))
    requires d.noteBody.Some?
    ensures r.0.saveCalls == s.saveCalls + [d]
    ensures r.1 <==> !fails && KeyOf(d).Some?
    ensures r.1 ==> KeyOf(d).value in r.0.items && r.0.items[KeyOf(d).value] == d.noteBody.value
    ensures r.1 ==> forall k :: k in s.items && k != KeyOf(d).value ==> k in r.0.items && r.0.items[k] == s.items[k]
    ensures r.1 ==> r.0.items.Keys == s.items.Keys + {KeyOf(d).value}
    ensures !r.1 ==> r.0.items == s.items
  {
    var ok := !fails && KeyOf(d).Some?;
    (Store(if ok then s.items[KeyOf(d).value := d.noteBody.value] else s.items, s.saveCalls + [d]), ok)
  }

  /** The effect of loading the item under `k`. */
  function LoadResult(s: Store, k: Key, fails: bool): (r: Lookup)
    ensures r.Threw? <==> fails
    ensures r.Found? <==> !fails && k in s.items
    ensures r.Found? ==> r.body == s.items[k]
  {
    if fails then Threw else if k in s.items then Found(s.items[k]) else Missing
  }

  /** A load returns what the last successful save under that key wrote. */
  lemma SaveThenLoad(s: Store, d: Draft)
    requires d.noteBody.Some? && KeyOf(d).Some?
    ensures SaveEffect(s, d, false).1
    ensures LoadResult(SaveEffect(s, d, false).0, KeyOf(d).value, false) == Found(d.noteBody.value)
  {
  }

  /** The table, reached through the DynamoDB client. */
  class NoteTable {
    var items: map<Key, string>
    var saveCalls: seq<Draft>

    function Value(): Store
      reads this
    {
      Store(items, saveCalls)
    }

    constructor (initial: map<Key, string>)
      ensures items == initial && saveCalls == []
    {
      items, saveCalls := initial, [];
    }

    /** Save `d`; `ok` is false when the call threw. */
    method Save(d: Draft, fails: bool) returns (ok: bool)
      requires d.noteBody.Some?
      modifies this
      ensures (Value(), ok) == SaveEffect(old(Value()), d, fails)
    {
      ok := !fails && KeyOf(d).Some?;
      if ok {
        items := items[KeyOf(d).value := d.noteBody.value];
      }
      saveCalls := saveCalls + [d];
    }

    /** Load the item under (userId, noteName). */
    method Load(userId: string, noteName: string, fails: bool) returns (r: Lookup)
      ensures r == LoadResult(Value(), Key(userId, noteName), fails)
    {
      var k := Key(userId, noteName);
      if fails {
        r := Threw;
      } else if k in items {
        r := Found(items[k]);
      } else {
        r := Missing;
      }
    }
  }

  /** Stand-in for the AmazonDynamoDBClient: a handle on the table. */
  class DynamoDbClient {
    const table: NoteTable

    constructor (table: NoteTable)
      ensures this.table == table
    {
      this.table := table;
    }
  }
}
