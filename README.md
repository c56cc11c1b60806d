# QuickNote note-creation dialog in Dafny

QuickNote is a voice skill that saves short named notes. This project models how it creates a note over several turns and how it looks a note up by name.

- `QuickNoteSpeechlet.onIntent` routes each intent. It keeps the note being built in its one mutable field, `myNote`. That field encodes four phases:
  - no draft (`null`);
  - awaiting the title (blank item);
  - awaiting the body (name set);
  - complete (body set). In this phase further text is refused, even when the save failed.
- `QuickNoteManager` holds the per-step handlers:
  - the title step and the body step change the item in place;
  - the body step stamps the user id and hands the item to storage once;
  - the lookup reads storage and leaves the draft alone.
- `QuickNoteUserDataItem` is the record being built. Its table key is (CustomerId, NoteName).
- `QuickNote` is a sibling record. Its two error flags can be raised and never lowered.

Files:

- `wrappers.dfy`: `Option`, which stands for a Java reference that may be null.
- `user_data_item.dfy` (module `UserDataItems`): the item as a class, its value `Draft`, and its key.
- `quick_note.dfy` (module `QuickNotes`): the `QuickNote` class, its operations as values, and the lemmas about its flags.
- `note_store.dfy` (module `NoteStore`): a stand-in for the DynamoDB table behind `QuickNoteDao` and `QuickNoteDynamoDbClient`.
- `manager.dfy` (module `NoteManager`): the responses, and the handlers in two forms:
  - as functions (`TitleStep`, `BodyStep`, `LookupStep`);
  - as methods of `QuickNoteManager`, each proved equal to its function.
- `speechlet.dfy` (module `Speechlet`): the speechlet class and the meaning of one `onIntent` call (`Turn`). A conversation is `Run`, a sequence of turns. `OnIntent` is proved equal to `Turn` on the state it exposes (`Snapshot`).
- `dialog_properties.dfy` (module `DialogProperties`): what whole conversations can and cannot do.

Java exceptions become `Response.Throw`. The title, body and lookup steps throw `NullPointer` when the intent has no "Text" slot (`QuickNoteManager.java` lines 103, 135 and 181). A Create never reads the slot, and free-form text refused because of the phase throws before any slot is read. An unrecognised intent, or free-form text in the wrong phase, throws `IllegalArgument("Unrecognized intent: " + name)`. Whether the storage backend throws is an input of each turn (`Event.storeFails`).

The code has no fuzzy title matching, no delete or confirm flow, and no check for blank text. It checks for `null` only: the empty string is accepted as a title and as a body. The model has none of these either.

## Model

| member | source | states |
|---|---|---|
| `UserDataItems.UserDataItem.constructor` | samples/src/main/java/quicknote/storage/QuickNoteUserDataItem.java:16-20 | a new item has customerId, noteName and noteBody all null |
| `UserDataItems.UserDataItem.SetCustomerId` | samples/src/main/java/quicknote/storage/QuickNoteUserDataItem.java:23-29 | changes only customerId; the getter then reads the value set |
| `UserDataItems.UserDataItem.SetNoteName` | samples/src/main/java/quicknote/storage/QuickNoteUserDataItem.java:31-37 | changes only noteName; the getter then reads the value set |
| `UserDataItems.UserDataItem.SetNoteBody` | samples/src/main/java/quicknote/storage/QuickNoteUserDataItem.java:39-45 | changes only noteBody; the getter then reads the value set |
| `UserDataItems.KeyOf` | samples/src/main/java/quicknote/storage/QuickNoteUserDataItem.java:23-37 | an item has a table key exactly when CustomerId (hash key) and NoteName (range key) are both set, and the key is that pair |
| `UserDataItems.KeyIdentifies` | samples/src/main/java/quicknote/storage/QuickNoteUserDataItem.java:23-37 | two keyed items share a key exactly when they agree on customer and name |
| `UserDataItems.KeyIgnoresBody` | samples/src/main/java/quicknote/storage/QuickNoteUserDataItem.java:39-45 | NoteBody is a plain attribute: changing it never changes the key |
| `QuickNotes.QuickNote.constructor` | samples/src/main/java/quicknote/storage/QuickNote.java:5-13 | a new QuickNote has null strings and both flags false |
| `QuickNotes.QuickNote.SetCustomerId` | samples/src/main/java/quicknote/storage/QuickNote.java:16-21 | changes only customerId, to the value given |
| `QuickNotes.QuickNote.SetNoteName` | samples/src/main/java/quicknote/storage/QuickNote.java:23-28 | changes only noteName, to the value given |
| `QuickNotes.QuickNote.SetNoteBody` | samples/src/main/java/quicknote/storage/QuickNote.java:30-35 | changes only noteBody, to the value given |
| `QuickNotes.QuickNote.SetHasError` | samples/src/main/java/quicknote/storage/QuickNote.java:37-42 | makes hasError true and changes nothing else |
| `QuickNotes.QuickNote.SetDoesNotExistError` | samples/src/main/java/quicknote/storage/QuickNote.java:44-49 | makes doesNotExistError true and changes nothing else |
| `QuickNotes.Apply` | samples/src/main/java/quicknote/storage/QuickNote.java:16-49 | each call changes only its own field; a flag is true afterwards iff it was before or the call raises it |
| `QuickNotes.FlagsSticky` | samples/src/main/java/quicknote/storage/QuickNote.java:11-49 | after any sequence of calls, a flag is true iff it was true before or some call raised it: flags are monotone |
| `QuickNotes.LastNameWins` | samples/src/main/java/quicknote/storage/QuickNote.java:23-28 | the name is the one given by the last SetNoteName, whatever other calls follow |
| `NoteStore.SaveEffect` | samples/src/main/java/quicknote/storage/QuickNoteDao.java:40-43 | a save is logged once; unless it throws or a key is null, it writes the body under (customer, name) and keeps every other key |
| `NoteStore.LoadResult` | samples/src/main/java/quicknote/storage/QuickNoteDao.java:22-33 | a load throws iff the backend fails, finds the item iff its key is stored, and then gives the stored body |
| `NoteStore.SaveThenLoad` | samples/src/main/java/quicknote/storage/QuickNoteDynamoDbClient.java:23-37 | loading the key just saved gives back the saved body |
| `NoteStore.NoteTable.Save` | samples/src/main/java/quicknote/storage/QuickNoteDynamoDbClient.java:34-37 | the table and the save log change exactly as SaveEffect says |
| `NoteStore.DynamoDbClient.constructor` | samples/src/main/java/quicknote/storage/QuickNoteDynamoDbClient.java:12-14 | the client keeps the handle it is given: it reaches that table and no other |
| `NoteStore.NoteTable.Load` | samples/src/main/java/quicknote/storage/QuickNoteDynamoDbClient.java:23-27 | the result is LoadResult of the current table, and nothing changes |
| `NoteManager.AskResponse` | samples/src/main/java/quicknote/QuickNoteManager.java:242-255 | an Ask response carries the given speech and reprompt |
| `NoteManager.TellResponse` | samples/src/main/java/quicknote/QuickNoteManager.java:264-281 | a Tell carries a card exactly when isSendCard is true; the card's title is "Session" and its content is the speech |
| `NoteManager.LaunchResponse` | samples/src/main/java/quicknote/QuickNoteManager.java:57-71 | the welcome is an Ask: the session stays open |
| `NoteManager.CreateNewNoteResponse` | samples/src/main/java/quicknote/QuickNoteManager.java:81-88 | the create prompt is an Ask for the new note's name |
| `NoteManager.HelpResponse` | samples/src/main/java/quicknote/QuickNoteManager.java:216-218 | help is a Tell without a card |
| `NoteManager.ExitResponse` | samples/src/main/java/quicknote/QuickNoteManager.java:229-231 | exit is a Tell without a card |
| `NoteManager.SavedSpeech` | samples/src/main/java/quicknote/QuickNoteManager.java:161 | the save confirmation begins with the name and ends with the body |
| `NoteManager.TitleStep` | samples/src/main/java/quicknote/QuickNoteManager.java:101-120 | a missing slot throws; a null title re-prompts and leaves the item unchanged; any other title (the empty string too) becomes the name verbatim, body and customer untouched, and the answer asks for the content |
| `NoteManager.BodyStep` | samples/src/main/java/quicknote/QuickNoteManager.java:133-165 | a null body re-prompts and touches neither the item nor storage; otherwise the body and the user id are set and the item is saved exactly once; success tells "name saved with body" with a card, failure tells "Error saving note." without one and stores nothing, body and customer staying set |
| `NoteManager.LookupStep` | samples/src/main/java/quicknote/QuickNoteManager.java:177-204 | a missing slot throws; a null slot string gives "I couldn't understand the name…" without a card; a found note is told with its body and a card; a thrown or empty load both give "Error retrieving note." without a card; the "couldn't find" answer is never given |
| `NoteManager.QuickNoteManager.constructor` | samples/src/main/java/quicknote/QuickNoteManager.java:42-46 | the manager reaches the table of the client it was built with |
| `NoteManager.QuickNoteManager.SetNoteTitle` | samples/src/main/java/quicknote/QuickNoteManager.java:101-120 | changes only the item's name, as TitleStep says, and returns TitleStep's response |
| `NoteManager.QuickNoteManager.SetNoteBody` | samples/src/main/java/quicknote/QuickNoteManager.java:133-165 | changes only the item's body and customer and the table, as BodyStep says, and returns its response |
| `NoteManager.QuickNoteManager.GetNoteByTitle` | samples/src/main/java/quicknote/QuickNoteManager.java:177-204 | changes nothing and returns LookupStep's response for the current table |
| `Speechlet.Turn` | samples/src/main/java/quicknote/QuickNoteSpeechlet.java:58-84 | Create replaces any draft with a blank item and asks for the name; a lookup keeps the draft and the table; text goes to the title step with no name and no body, to the body step with a name and no body, and is refused otherwise; other intent names are refused; only the body step changes the table |
| `Speechlet.Run` | samples/src/main/java/quicknote/QuickNoteSpeechlet.java:51-85 | a conversation gives one response per turn |
| `Speechlet.QuickNoteSpeechlet.constructor` | samples/src/main/java/quicknote/QuickNoteSpeechlet.java:27-31 | a new speechlet has no client, no manager and myNote null |
| `Speechlet.QuickNoteSpeechlet.InitializeComponents` | samples/src/main/java/quicknote/QuickNoteSpeechlet.java:98-103 | the client and the manager are created only when the client is null; afterwards both exist and reach the table |
| `Speechlet.QuickNoteSpeechlet.OnSessionStarted` | samples/src/main/java/quicknote/QuickNoteSpeechlet.java:33-40 | initializes the components, keeping existing ones |
| `Speechlet.QuickNoteSpeechlet.OnLaunch` | samples/src/main/java/quicknote/QuickNoteSpeechlet.java:42-49 | gives the welcome, or a null-pointer exception when no session start created the manager |
| `Speechlet.QuickNoteSpeechlet.OnIntent` | samples/src/main/java/quicknote/QuickNoteSpeechlet.java:51-85 | the new draft, the table and the response are those of Turn; myNote is a fresh item after Create, which leaves the discarded item untouched, and the same object otherwise |
| `Speechlet.QuickNoteSpeechlet.OnSessionEnded` | samples/src/main/java/quicknote/QuickNoteSpeechlet.java:87-93 | session end leaves myNote and the table alone |
| `DialogProperties.RunKeepsConsistent` | samples/src/main/java/quicknote/QuickNoteSpeechlet.java:69-80 | in every conversation, a draft with a body also has a name and a customer, and every item handed to save has all three fields |
| `DialogProperties.CompleteMeansFilled` | samples/src/main/java/quicknote/QuickNoteSpeechlet.java:72-80 | in those shapes, the phase that refuses text is exactly the draft with all fields set |
| `DialogProperties.SaveLogOnlyGrows` | samples/src/main/java/quicknote/QuickNoteManager.java:153-156 | storage calls are only ever added to the log |
| `DialogProperties.CompleteDraftRefusesText` | samples/src/main/java/quicknote/QuickNoteSpeechlet.java:78-80 | once name and body are set (saved or not), until the next Create, nothing changes the draft or the table and every free-form text throws |
| `DialogProperties.NoDraftRefusesText` | samples/src/main/java/quicknote/QuickNoteSpeechlet.java:69-84 | with myNote null, until a Create, nothing changes and every free-form text throws |
| `DialogProperties.LookupsChangeNothing` | samples/src/main/java/quicknote/QuickNoteSpeechlet.java:66-67 | any run of lookups leaves the draft and the table as they were, and each is answered from that table |
| `DialogProperties.PhaseNeverRegresses` | samples/src/main/java/quicknote/QuickNoteSpeechlet.java:69-80 | between two Creates the phase only moves forward |
| `DialogProperties.AtMostOneSavePerDraft` | samples/src/main/java/quicknote/QuickNoteManager.java:146-159 | between two Creates at most one save call is made, and none when the draft is absent or complete |
| `DialogProperties.TurnNeverSaysNotFound` | samples/src/main/java/quicknote/QuickNoteManager.java:189-201 | no turn answers "I couldn't find a note by that name" |
| `DialogProperties.NotFoundNeverSpoken` | samples/src/main/java/quicknote/QuickNoteManager.java:189-201 | in no conversation is the "couldn't find" answer given |
| `DialogProperties.RunOfThree` | samples/src/main/java/quicknote/QuickNoteSpeechlet.java:51-85 | a three-turn conversation is its three turns in order |
| `DialogProperties.CreateTitleBodySaves` | samples/src/main/java/quicknote/QuickNoteSpeechlet.java:61-76 | Create, then text t, then text b with a working backend stores exactly one note {name t, body b, customer = user id}, with the expected three answers |
| `DialogProperties.CreateTitleBodySaveFails` | samples/src/main/java/quicknote/QuickNoteManager.java:146-159 | the same turns with a failing save store nothing, log one call, tell "Error saving note." without a card, and leave the draft complete |
| `DialogProperties.SavedNoteIsFound` | samples/src/main/java/quicknote/QuickNoteManager.java:185-203 | after a successful save of title t (the slot's getValue()), a lookup by the same user whose slot string (toString()) is t tells b with a card |
| `DialogProperties.StartIsConsistent` | samples/src/main/java/quicknote/QuickNoteSpeechlet.java:31 | a new session starts with no draft, in the consistent shapes |

## Left out

- Logging and `System.out.println` are I/O with no effect on state.
- The speech SDK is replaced by plain values:
  - `SpeechletResponse`, `PlainTextOutputSpeech`, `Reprompt` and `SimpleCard` become `Outcome`.
  - `Intent` becomes `Request`. Its "Text" slot becomes `Slot`, holding what `getValue()` and `toString()` give.
  - `Session` becomes the user id inside `Request`.
- The user id is a non-null string. A null intent name is not modelled; the source refuses it like any other unrecognised name.
- `QuickNoteDao` and the mapper behind `QuickNoteDynamoDbClient` are replaced by `NoteTable`. `AmazonDynamoDBClient` and `QuickNoteDynamoDbClient` are kept as one `DynamoDbClient` handle, whose only content is the table it reaches. It is a map from (CustomerId, NoteName) to NoteBody plus a log of save calls. Details of the mapper's upsert are not visible and are not modelled. A save with a null key fails; one with a null body is not modelled, because the body step always sets the body first. Any other rejection of a key by the backend, such as an empty NoteName, is covered only through `storeFails`: the table itself accepts the empty string as a key.
- `NoteStore.NoteTable.Save` requires a body. The table holds bodies as strings, so a stored item without a body is not modelled.
- Whether the backend throws is a boolean input of each storage call, not a real failure.
- Concurrency is not modelled: one sequential caller. On the platform, the speechlet instance and its `myNote` field may be shared across sessions.
- Getters are plain field reads. The setters' postconditions state what the getters then return.
- The source's `onIntent` never routes help or exit intents to `getHelpIntentResponse` or `getExitIntentResponse`. Those intents are refused as unrecognised (`Speechlet.Turn`).
