/**
 * QuickNoteSpeechlet: dispatches each intent and keeps the note being
 * created in its one mutable field, `myNote`. The value-level meaning of a
 * turn is `Turn`; a conversation is `Run`, a sequence of turns.
 */
module Speechlet {
  import opened Wrappers
  import opened UserDataItems
  import opened NoteStore
  import opened NoteManager

  const CreateIntent := "CreateNewNoteIntent"
  const GetIntent := "GetNoteByTitleIntent"
  const FreeFormIntent := "SetFreeFormDataIntent"
  const Unrecognized := "Unrecognized intent: "

  /** An intent request: the intent's name, its "Text" slot, and the session's user id. */
  datatype Request = Request(intentName: string, slot: Option<Slot>, userId: string)

  /** One turn: the request, and whether the storage backend throws if it is called. */
  datatype Event = Event(request: Request, storeFails: bool)

  /** What the dialog sees: the draft (`myNote`, null or an item) and the table. */
  datatype World = World(draft: Option<Draft>, store: Store)

  /**
   * The four phases `myNote` encodes. `Complete` is every shape with a body
   * set: free-form text is then refused.
   */
  datatype Phase = NoDraft | AwaitingTitle | AwaitingBody | Complete

  function PhaseOf(draft: Option<Draft>): Phase
  {
    match draft
    case None => NoDraft
    case Some(d) =>
      if d.noteName.None? && d.noteBody.None? then AwaitingTitle
      else if d.noteName.Some? && d.noteBody.None? then AwaitingBody
      else Complete
  }

  /** The order in which a draft passes through the phases. */
  function Rank(p: Phase): nat
  {
    match p
    case NoDraft => 0
    case AwaitingTitle => 1
    case AwaitingBody => 2
    case Complete => 3
  }

  /**
   * One call of onIntent. Create replaces the draft with a blank item; a
   * lookup leaves the draft and the table alone; free-form text goes to the
   * title step while no name and no body are set, to the body step while
   * only the name is, and is refused otherwise, as is every other intent
   * and free-form text with no draft at all.
   */
  function Turn(w: World, e: Event): (r: (World, Response))
    ensures e.request.intentName == CreateIntent ==>
              r == (World(Some(Blank), w.store), Speak(CreateNewNoteResponse()))
    ensures e.request.intentName == GetIntent ==>
              r == (w, LookupStep(e.request.slot, e.request.userId, w.store, e.storeFails))
    ensures e.request.intentName !in {CreateIntent, GetIntent, FreeFormIntent} ==>
              r == (w, Throw(IllegalArgument(Unrecognized + e.request.intentName)))
    ensures e.request.intentName == FreeFormIntent && PhaseOf(w.draft) in {NoDraft, Complete} ==>
              r == (w, Throw(IllegalArgument(Unrecognized + FreeFormIntent)))
    ensures e.request.intentName == FreeFormIntent && PhaseOf(w.draft) == AwaitingTitle ==>
              var (d', resp) := TitleStep(w.draft.value, e.request.slot);
              r == (World(Some(d'), w.store), resp)
    ensures e.request.intentName == FreeFormIntent && PhaseOf(w.draft) == AwaitingBody ==>
              var (d', s', resp) := BodyStep(w.draft.value, e.request.slot, e.request.userId, w.store, e.storeFails);
              r == (World(Some(d'), s'), resp)
    ensures r.0.store != w.store ==> e.request.intentName == FreeFormIntent && PhaseOf(w.draft) == AwaitingBody
    ensures WellFormed(r.1)
  {
    var req := e.request;
    if req.intentName == CreateIntent then
      (World(Some(Blank), w.store), Speak(CreateNewNoteResponse()))
    else if req.intentName == GetIntent then
      (w, LookupStep(req.slot, req.userId, w.store, e.storeFails))
    else if req.intentName == FreeFormIntent && w.draft.Some? then
      var d := w.draft.value;
      if d.noteName.None? && d.noteBody.None? then
        var (d', resp) := TitleStep(d, req.slot);
        (World(Some(d'), w.store), resp)
      else if d.noteName.Some? && d.noteBody.None? then
        var (d', s', resp) := BodyStep(d, req.slot, req.userId, w.store, e.storeFails);
        (World(Some(d'), s'), resp)
      else
        (w, Throw(IllegalArgument(Unrecognized + req.intentName)))
    else
      (w, Throw(IllegalArgument(Unrecognized + req.intentName)))
  }

  /** A conversation: the turns in order, with the response of each. */
  function Run(w: World, evs: seq<Event>): (r: (World, seq<Response>))
    ensures |r.1| == |evs|
    decreases |evs|
  {
    if evs == [] then (w, [])
    else
      var first := Turn(w, evs[0]);
      var rest := Run(first.0, evs[1..]);
      (rest.0, [first.1] + rest.1)
  }

  /** The speechlet. `backend` is the remote table every client reaches. */
  class QuickNoteSpeechlet {
    const backend: NoteTable
    var client: DynamoDbClient?
    var manager: QuickNoteManager?
    var myNote: UserDataItem?

    /** Once the client exists, so does the manager, and both reach `backend`. */
    ghost predicate Valid()
      reads this
    {
      client != null ==> manager != null && client.table == backend && manager.table == backend
    }

    /** The dialog's state as a value. */
    function Snapshot(): World
      reads this, myNote, backend
    {
      World(if myNote == null then None else Some(myNote.Value()), backend.Value())
    }

    constructor (backend: NoteTable)
      ensures Valid() && this.backend == backend
      ensures client == null && manager == null && myNote == null
    {
      this.backend := backend;
      client, manager, myNote := null, null, null;
    }

    /** Create the client and the manager, only if the client does not exist yet. */
    method InitializeComponents()
      requires Valid()
      modifies this`client, this`manager
      ensures Valid() && client != null && manager != null
      ensures old(client) != null ==> client == old(client) && manager == old(manager)
      ensures old(client) == null ==> fresh(client) && fresh(manager)
    {
      if client == null {
        client := new DynamoDbClient(backend);
        manager := new QuickNoteManager(client);
      }
    }

    method OnSessionStarted()
      requires Valid()
      modifies this`client, this`manager
      ensures Valid() && client != null && manager != null
      ensures old(client) != null ==> client == old(client) && manager == old(manager)
    {
      InitializeComponents();
    }

    /** The welcome; without a session start first there is no manager to ask. */
    method OnLaunch() returns (resp: Response)
      ensures manager == null ==> resp == Throw(NullPointer)
      ensures manager != null ==> resp == Speak(LaunchResponse())
    {
      if manager == null {
        return Throw(NullPointer);
      }
      resp := Speak(LaunchResponse());
    }

    /** Handle one intent. */
    method OnIntent(e: Event) returns (resp: Response)
      requires Valid()
      modifies this, myNote, backend
      ensures Valid() && manager != null
      ensures old(client) != null ==> client == old(client) && manager == old(manager)
      ensures (Snapshot(), resp) == Turn(old(Snapshot()), e)
      ensures e.request.intentName == CreateIntent ==> fresh(myNote)
      ensures e.request.intentName != CreateIntent ==> myNote == old(myNote)
      ensures e.request.intentName == CreateIntent && old(myNote) != null ==> old(myNote).Value() == old(myNote.Value())
    {
      InitializeComponents();
      var req := e.request;
      if req.intentName == CreateIntent {
        myNote := new UserDataItem();
        resp := Speak(CreateNewNoteResponse());
      } else if req.intentName == GetIntent {
        resp := manager.GetNoteByTitle(req.slot, req.userId, e.storeFails);
      } else if req.intentName == FreeFormIntent && myNote != null {
        if myNote.noteName.None? && myNote.noteBody.None? {
          resp := manager.SetNoteTitle(req.slot, myNote);
        } else if myNote.noteName.Some? && myNote.noteBody.None? {
          resp := manager.SetNoteBody(req.slot, req.userId, myNote, e.storeFails);
        } else {
          resp := Throw(IllegalArgument(Unrecognized + req.intentName));
        }
      } else {
        resp := Throw(IllegalArgument(Unrecognized + req.intentName));
      }
    }

    /** Session end: nothing is cleaned up, `myNote` included. */
    method OnSessionEnded()
      ensures myNote == old(myNote) && Snapshot() == old(Snapshot())
    {
    }
  }
}
