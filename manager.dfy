/**
 * QuickNoteManager: the per-step handlers of the note dialog and the
 * responses they build. A handler's value-level meaning is a function
 * (TitleStep, BodyStep, LookupStep); the handler methods work on the item
 * and the table in place and are proved equal to those functions.
 */
module NoteManager {
  import opened Wrappers
  import opened UserDataItems
  import opened NoteStore

  /** The card attached to a Tell: a title and a content. */
  datatype Card = Card(title: string, content: string)

  /**
   * A speech response: Ask keeps the session open and carries a reprompt;
   * Tell ends it and may carry a card.
   */
  datatype Outcome = Ask(speech: string, reprompt: string) | Tell(speech: string, card: Option<Card>)

  /** The exceptions a handler lets escape. */
  datatype Exception = IllegalArgument(message: string) | NullPointer

  /** What a handler (or the speechlet) gives back: a response, or a thrown exception. */
  datatype Response = Speak(outcome: Outcome) | Throw(exception: Exception)

  /**
   * The intent's "Text" slot: `value` is what getValue() gives,
   * `text` what toString() gives (an opaque string of the SDK).
   */
  datatype Slot = Slot(value: Option<string>, text: Option<string>)

  /** A Tell's card, when it has one, shows exactly what is spoken. */
  predicate CardMirrorsSpeech(o: Outcome)
  {
    o.Tell? && o.card.Some? ==> o.card.value.content == o.speech
  }

  /** Same, for a handler's response. */
  predicate WellFormed(r: Response)
  {
    r.Speak? ==> CardMirrorsSpeech(r.outcome)
  }

  function AskResponse(speechText: string, repromptText: string): (r: Outcome)
    ensures r.Ask? && r.speech == speechText && r.reprompt == repromptText
  {
    Ask(speechText, repromptText)
  }

  /** A Tell carries a card exactly when `isSendCard`; the card's content is the speech. */
  function TellResponse(speechText: string, isSendCard: bool): (r: Outcome)
    ensures r.Tell? && r.speech == speechText
    ensures r.card.Some? <==> isSendCard
    ensures r.card.Some? ==> r.card.value.title == "Session"
    ensures CardMirrorsSpeech(r)
  {
    if isSendCard then Tell(speechText, Some(Card("Session", speechText))) else Tell(speechText, None)
  }

  /** The welcome: asks what to do and keeps the session open. */
  function LaunchResponse(): (r: Outcome)
    ensures r.Ask?
  {
    AskResponse(
      "This is Quick Note.  You can ask me to create a new note, or you can ask for an existing note by name. What do you want me to do?",
      "What would you like me to do?")
  }

  /** The create prompt: asks for the new note's name. */
  function CreateNewNoteResponse(): (r: Outcome)
    ensures r.Ask? && r.speech == "What is the name of your new note?"
  {
    AskResponse("What is the name of your new note?", "Please tell me the name of your new note.")
  }

  /** Help ends the session, without a card. */
  function HelpResponse(): (r: Outcome)
    ensures r.Tell? && r.card.None?
  {
    TellResponse("You can tell me to create a note or ask for an existing note.", false)
  }

  /** Exit ends the session, without a card. */
  function ExitResponse(): (r: Outcome)
    ensures r.Tell? && r.card.None?
  {
    TellResponse("Exiting quick note. Goodbye", false)
  }

  const TitleRetry := AskResponse(
    "Sorry I didn't catch that name. Please tell me again.",
    "I couldn't hear your note name.  Please tell me the name again.")
  const AskForContent := AskResponse(
    "OK. What is the content of your new note?",
    "I didn't catch that. What is the content of your new note?")
  const BodyRetry := AskResponse(
    "Sorry I couldn't understand your note content.  Please tell me again.",
    "I didn't catch that.  What is the note content?")
  const ErrorSaving := "Error saving note."
  const NameNotUnderstood := "I couldn't understand the name of your note.  Please ask me again."
  const ErrorRetrieving := "Error retrieving note."
  const NotFound := "I couldn't find a note by that name.  You can ask me again."

  /** The speech confirming a save. */
  function SavedSpeech(name: string, body: string): (s: string)
    ensures |s| == |name| + |" saved with "| + |body|
    ensures s[..|name|] == name && s[|s| - |body|..] == body
  {
    name + " saved with " + body
  }

  /**
   * The title step on item `d`: a missing slot throws; a null value
   * re-prompts and leaves `d` alone; any other value (the empty string
   * included) becomes the name, and the dialog asks for the content.
   */
  function TitleStep(d: Draft, slot: Option<Slot>): (r: (Draft, Response))
    ensures r.1.Throw? <==> slot.None?
    ensures r.1.Throw? ==> r.1.exception == NullPointer
    ensures r.1.Speak? ==> r.1.outcome.Ask?
    ensures r.0.customerId == d.customerId && r.0.noteBody == d.noteBody
    ensures r.0.noteName == (if slot.Some? && slot.value.value.Some? then slot.value.value else d.noteName)
    ensures slot.Some? ==> r.1 == Speak(if slot.value.value.None? then TitleRetry else AskForContent)
  {
    match slot
    case None => (d, Throw(NullPointer))
    case Some(s) =>
      if s.value.None? then (d, Speak(TitleRetry))
      else (d.(noteName := s.value), Speak(AskForContent))
  }

  /**
   * The body step on item `d` for user `userId`: a missing slot throws; a
   * null value re-prompts and touches neither `d` nor storage; any other
   * value becomes the body, `userId` the customer, and the item is handed
   * to save exactly once. A failed save is reported without a card, and the
   * body and customer stay set.
   */
  function BodyStep(d: Draft, slot: Option<Slot>, userId: string, s: Store, fails: bool): (r: (Draft, Store, Response))
    ensures r.2.Throw? <==> slot.None?
    ensures r.2.Throw? ==> r.2.exception == NullPointer
    ensures slot.None? || slot.value.value.None? ==> r.0 == d && r.1 == s
    ensures slot.Some? && slot.value.value.None? ==> r.2 == Speak(BodyRetry)
    ensures slot.Some? && slot.value.value.Some? ==>
              && r.0 == Draft(Some(userId), d.noteName, slot.value.value)
              && r.1 == SaveEffect(s, r.0, fails).0
              && r.1.saveCalls == s.saveCalls + [r.0]
              && r.2.Speak? && r.2.outcome.Tell?
    ensures r.2.Speak? && r.2.outcome.Tell? ==>
              if !fails && d.noteName.Some? then
                && r.1.items == s.items[Key(userId, d.noteName.value) := slot.value.value.value]
                && r.2.outcome == TellResponse(SavedSpeech(d.noteName.value, slot.value.value.value), true)
              else
                r.1.items == s.items && r.2.outcome == TellResponse(ErrorSaving, false)
    ensures WellFormed(r.2)
  {
    match slot
    case None => (d, s, Throw(NullPointer))
    case Some(sl) =>
      if sl.value.None? then (d, s, Speak(BodyRetry))
      else
        var note := d.(noteBody := sl.value).(customerId := Some(userId));
        var (s', ok) := SaveEffect(s, note, fails);
        if !ok then (note, s', Speak(TellResponse(ErrorSaving, false)))
        else (note, s', Speak(TellResponse(SavedSpeech(note.noteName.value, note.noteBody.value), true)))
  }

  /**
   * The lookup by title for user `userId`: a missing slot throws; a null
   * slot string is answered without a card; otherwise the item under
   * (userId, slot string) is loaded. A thrown load and a missing item both
   * give "Error retrieving note." without a card (the missing item's body
   * is read before its null check); a found item gives its body with a card.
   */
  function LookupStep(slot: Option<Slot>, userId: string, s: Store, fails: bool): (r: Response)
    ensures r.Throw? <==> slot.None?
    ensures r.Throw? ==> r.exception == NullPointer
    ensures r.Speak? ==> r.outcome.Tell? && CardMirrorsSpeech(r.outcome)
    ensures r.Speak? && r.outcome.card.Some? <==>
              slot.Some? && slot.value.text.Some? && LoadResult(s, Key(userId, slot.value.text.value), fails).Found?
    ensures r.Speak? && r.outcome.card.Some? ==> r.outcome.speech == s.items[Key(userId, slot.value.text.value)]
    ensures slot.Some? && slot.value.text.None? ==> r == Speak(TellResponse(NameNotUnderstood, false))
    ensures slot.Some? && slot.value.text.Some? && !LoadResult(s, Key(userId, slot.value.text.value), fails).Found? ==>
              r == Speak(TellResponse(ErrorRetrieving, false))
    ensures r != Speak(TellResponse(NotFound, false))
  {
    match slot
    case None => Throw(NullPointer)
    case Some(sl) =>
      if sl.text.None? then Speak(TellResponse(NameNotUnderstood, false))
      else
        match LoadResult(s, Key(userId, sl.text.value), fails)
        case Found(body) => Speak(TellResponse(body, true))
        case _ => Speak(TellResponse(ErrorRetrieving, false))
  }

  /** The manager: the handlers, reaching the table through the client. */
  class QuickNoteManager {
    const table: NoteTable

    constructor (client: DynamoDbClient)
      ensures table == client.table
    {
      table := client.table;
    }

    /** Handle free-form text as the title of `myNote`. */
    method SetNoteTitle(slot: Option<Slot>, myNote: UserDataItem) returns (resp: Response)
      modifies myNote`noteName
      ensures (myNote.Value(), resp) == TitleStep(old(myNote.Value()), slot)
    {
      if slot.None? {
        return Throw(NullPointer);
      }
      var newNoteName := slot.value.value;
      if newNoteName.None? {
        return Speak(AskResponse(TitleRetry.speech, TitleRetry.reprompt));
      }
      myNote.SetNoteName(newNoteName);
      resp := Speak(AskResponse(AskForContent.speech, AskForContent.reprompt));
    }

    /** Handle free-form text as the body of `myNote`, then save it. */
    method SetNoteBody(slot: Option<Slot>, userId: string, myNote: UserDataItem, fails: bool) returns (resp: Response)
      modifies myNote`noteBody, myNote`customerId, table
      ensures (myNote.Value(), table.Value(), resp) == BodyStep(old(myNote.Value()), slot, userId, old(table.Value()), fails)
    {
      if slot.None? {
        return Throw(NullPointer);
      }
      var newNoteBody := slot.value.value;
      if newNoteBody.None? {
        return Speak(AskResponse(BodyRetry.speech, BodyRetry.reprompt));
      }
      myNote.SetNoteBody(newNoteBody);
      myNote.SetCustomerId(Some(userId));
      var ok := table.Save(myNote.Value(), fails);
      if !ok {
        return Speak(TellResponse(ErrorSaving, false));
      }
      resp := Speak(TellResponse(SavedSpeech(myNote.noteName.value, myNote.noteBody.value), true));
    }

    /** Handle a lookup of the note named by the slot, for user `userId`. */
    method GetNoteByTitle(slot: Option<Slot>, userId: string, fails: bool) returns (resp: Response)
      ensures resp == LookupStep(slot, userId, table.Value(), fails)
    {
      if slot.None? {
        return Throw(NullPointer);
      }
      var noteName := slot.value.text;
      if noteName.None? {
        return Speak(TellResponse(NameNotUnderstood, false));
      }
      var itemFound := table.Load(userId, noteName.value, fails);
      if !itemFound.Found? {
        // a thrown load, and reading the body of a null item, both land in the catch
        return Speak(TellResponse(ErrorRetrieving, false));
      }
      var speechText := itemFound.body;
      if itemFound.Missing? {
        // the null check after the read: never reached
        return Speak(TellResponse(NotFound, false));
      }
      resp := Speak(TellResponse(speechText, true));
    }
  }
}
