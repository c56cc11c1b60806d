/**
 * The QuickNoteUserData table item: the note record that the dialog builds
 * field by field and finally hands to storage.
 */
module UserDataItems {
  import opened Wrappers

  /** The three fields of an item at one moment; a `None` field is a null one. */
  datatype Draft = Draft(customerId: Option<string>, noteName: Option<string>, noteBody: Option<string>)

  /** What a freshly constructed item holds: every field null. */
  const Blank := Draft(None, None, None)

  /**
   * The item's identity in the table: CustomerId is the hash key and
   * NoteName the range key. NoteBody is a plain attribute and not part of it.
   */
  datatype Key = Key(customerId: string, noteName: string)

  /** The key an item is stored under, or `None` when a key attribute is null. */
  function KeyOf(d: Draft): (k: Option<Key>)
    ensures k.Some? <==> d.customerId.Some? && d.noteName.Some?
    ensures k.Some? ==> k.value.customerId == d.customerId.value && k.value.noteName == d.noteName.value
  {
    if d.customerId.Some? && d.noteName.Some? then Some(Key(d.customerId.value, d.noteName.value)) else None
  }

  /** The body never takes part in an item's identity. */
  lemma KeyIgnoresBody(d: Draft, body: Option<string>)
    ensures KeyOf(d.(noteBody := body)) == KeyOf(d)
  {
  }

  /** Two keyed items share a key exactly when they agree on customer and name. */
  lemma KeyIdentifies(d: Draft, e: Draft)
    requires KeyOf(d).Some? && KeyOf(e).Some?
    ensures KeyOf(d) == KeyOf(e) <==> d.customerId == e.customerId && d.noteName == e.noteName
  {
  }

  /** A QuickNoteUserDataItem: three mutable fields changed one at a time by setters. */
  class UserDataItem {
    var customerId: Option<string>
    var noteName: Option<string>
    var noteBody: Option<string>

    /** The item's fields as a value. */
    function Value(): Draft
      reads this
    {
      Draft(customerId, noteName, noteBody)
    }

    constructor ()
      ensures Value() == Blank
    {
      customerId, noteName, noteBody := None, None, None;
    }

    method SetCustomerId(id: Option<string>)
      modifies this`customerId
      ensures customerId == id
      ensures Value() == old(Value()).(customerId := id)
    {
      customerId := id;
    }

    method SetNoteName(name: Option<string>)
      modifies this`noteName
      ensures noteName == name
      ensures Value() == old(Value()).(noteName := name)
    {
      noteName := name;
    }

    method SetNoteBody(body: Option<string>)
      modifies this`noteBody
      ensures noteBody == body
      ensures Value() == old(Value()).(noteBody := body)
    {
      noteBody := body;
    }
  }
}
