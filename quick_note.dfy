/**
 * QuickNote: a note record with three string fields and two error flags
 * that setters can raise but nothing can lower.
 */
module QuickNotes {
  import opened Wrappers

  /** The fields of a QuickNote at one moment. */
  datatype NoteState = NoteState(
    customerId: Option<string>,
    noteName: Option<string>,
    noteBody: Option<string>,
    hasError: bool,
    doesNotExistError: bool)

  /** A new QuickNote: strings null, both flags false. */
  const Initial := NoteState(None, None, None, false, false)

  /** The calls that change a QuickNote. */
  datatype NoteOp =
    | SetCustomerId(customerId: Option<string>)
    | SetNoteName(noteName: Option<string>)
    | SetNoteBody(noteBody: Option<string>)
    | SetHasError
    | SetDoesNotExistError

  /** The effect of one call. */
  function Apply(n: NoteState, op: NoteOp): (r: NoteState)
    ensures r.hasError == (n.hasError || op.SetHasError?)
    ensures r.doesNotExistError == (n.doesNotExistError || op.SetDoesNotExistError?)
    ensures r.customerId == (if op.SetCustomerId? then op.customerId else n.customerId)
    ensures r.noteName == (if op.SetNoteName? then op.noteName else n.noteName)
    ensures r.noteBody == (if op.SetNoteBody? then op.noteBody else n.noteBody)
  {
    match op
    case SetCustomerId(s) => n.(customerId := s)
    case SetNoteName(s) => n.(noteName := s)
    case SetNoteBody(s) => n.(noteBody := s)
    case SetHasError => n.(hasError := true)
    case SetDoesNotExistError => n.(doesNotExistError := true)
  }

  /** The effect of a sequence of calls, first call first. */
  function ApplyAll(n: NoteState, ops: seq<NoteOp>): NoteState
    decreases |ops|
  {
    if ops == [] then n else ApplyAll(Apply(n, ops[0]), ops[1..])
  }

  /** ApplyAll peels off the last call as well as the first. */
  lemma {:induction false} ApplyAllSnoc(n: NoteState, ops: seq<NoteOp>, op: NoteOp)
    ensures ApplyAll(n, ops + [op]) == Apply(ApplyAll(n, ops), op)
    decreases |ops|
  {
    if ops == [] {
      assert ops + [op] == [op];
    } else {
      assert (ops + [op])[1..] == ops[1..] + [op];
      ApplyAllSnoc(Apply(n, ops[0]), ops[1..], op);
    }
  }

  /**
   * After any calls, a flag is set exactly when it was set before or some
   * call raised it: once true, always true.
   */
  lemma {:induction false} FlagsSticky(n: NoteState, ops: seq<NoteOp>)
    ensures ApplyAll(n, ops).hasError <==> n.hasError || exists i :: 0 <= i < |ops| && ops[i].SetHasError?
    ensures ApplyAll(n, ops).doesNotExistError <==>
              n.doesNotExistError || exists i :: 0 <= i < |ops| && ops[i].SetDoesNotExistError?
    decreases |ops|
  {
    if ops != [] {
      FlagsSticky(Apply(n, ops[0]), ops[1..]);
      forall i | 0 <= i < |ops[1..]|
        ensures ops[1..][i] == ops[i + 1]
      {
      }
      if ApplyAll(n, ops).hasError && !n.hasError && !ops[0].SetHasError? {
        var j :| 0 <= j < |ops[1..]| && ops[1..][j].SetHasError?;
        assert ops[j + 1].SetHasError?;
      }
      if ApplyAll(n, ops).doesNotExistError && !n.doesNotExistError && !ops[0].SetDoesNotExistError? {
        var j :| 0 <= j < |ops[1..]| && ops[1..][j].SetDoesNotExistError?;
        assert ops[j + 1].SetDoesNotExistError?;
      }
      if !ApplyAll(n, ops).hasError {
        forall i | 0 <= i < |ops|
          ensures !ops[i].SetHasError?
        {
          if i > 0 { assert ops[1..][i - 1] == ops[i]; }
        }
      }
      if !ApplyAll(n, ops).doesNotExistError {
        forall i | 0 <= i < |ops|
          ensures !ops[i].SetDoesNotExistError?
        {
          if i > 0 { assert ops[1..][i - 1] == ops[i]; }
        }
      }
    }
  }

  /** The note name is the one the last SetNoteName call gave it, whatever came after. */
  lemma {:induction false} LastNameWins(n: NoteState, ops: seq<NoteOp>, name: Option<string>, rest: seq<NoteOp>)
    requires forall i :: 0 <= i < |rest| ==> !rest[i].SetNoteName?
    ensures ApplyAll(n, ops + [SetNoteName(name)] + rest).noteName == name
    decreases |rest|
  {
    if rest == [] {
      assert ops + [SetNoteName(name)] + rest == ops + [SetNoteName(name)];
      ApplyAllSnoc(n, ops, SetNoteName(name));
    } else {
      var last := rest[|rest| - 1];
      var front := rest[..|rest| - 1];
      assert rest == front + [last];
      assert ops + [SetNoteName(name)] + rest == (ops + [SetNoteName(name)] + front) + [last];
      LastNameWins(n, ops, name, front);
      ApplyAllSnoc(n, ops + [SetNoteName(name)] + front, last);
    }
  }

  /** A QuickNote object. */
  class QuickNote {
    var customerId: Option<string>
    var noteName: Option<string>
    var noteBody: Option<string>
    var hasError: bool
    var doesNotExistError: bool

    function State(): NoteState
      reads this
    {
      NoteState(customerId, noteName, noteBody, hasError, doesNotExistError)
    }

    constructor ()
      ensures State() == Initial
    {
      customerId, noteName, noteBody := None, None, None;
      hasError, doesNotExistError := false, false;
    }

    method SetCustomerId(id: Option<string>)
      modifies this`customerId
      ensures customerId == id
      ensures State() == Apply(old(State()), NoteOp.SetCustomerId(id))
    {
      customerId := id;
    }

    method SetNoteName(name: Option<string>)
      modifies this`noteName
      ensures noteName == name
      ensures State() == Apply(old(State()), NoteOp.SetNoteName(name))
    {
      noteName := name;
    }

    method SetNoteBody(body: Option<string>)
      modifies this`noteBody
      ensures noteBody == body
      ensures State() == Apply(old(State()), NoteOp.SetNoteBody(body))
    {
      noteBody := body;
    }

    method SetHasError()
      modifies this`hasError
      ensures hasError
      ensures State() == Apply(old(State()), NoteOp.SetHasError)
    {
      hasError := true;
    }

    method SetDoesNotExistError()
      modifies this`doesNotExistError
      ensures doesNotExistError
      ensures State() == Apply(old(State()), NoteOp.SetDoesNotExistError)
    {
      doesNotExistError := true;
    }
  }
}
