/**
 * Properties of whole conversations: what a sequence of onIntent calls can
 * and cannot do to the draft and to the table.
 */
module DialogProperties {
  import opened Wrappers
  import opened UserDataItems
  import opened NoteStore
  import opened NoteManager
  import opened Speechlet

  /** No turn of `evs` starts a new note. */
  predicate NoCreate(evs: seq<Event>)
  {
    forall i :: 0 <= i < |evs| ==> evs[i].request.intentName != CreateIntent
  }

  /** Every field of `d` is set. */
  predicate Filled(d: Draft)
  {
    d.customerId.Some? && d.noteName.Some? && d.noteBody.Some?
  }

  /**
   * The shapes the dialog can produce: a draft with a body also has a name
   * and a customer, and every item handed to save had all three fields.
   */
  predicate Consistent(w: World)
  {
    && (w.draft.Some? && w.draft.value.noteBody.Some? ==> Filled(w.draft.value))
    && forall i :: 0 <= i < |w.store.saveCalls| ==> Filled(w.store.saveCalls[i])
  }

  /** A session that has just started: no draft, nothing saved yet. */
  lemma StartIsConsistent(items: map<Key, string>)
    ensures Consistent(World(None, Store(items, [])))
    ensures PhaseOf(World(None, Store(items, [])).draft) == NoDraft
  {
  }

  /** Among consistent worlds, the phase that refuses text is exactly the filled draft. */
  lemma CompleteMeansFilled(w: World)
    requires Consistent(w)
    ensures PhaseOf(w.draft) == Complete <==> w.draft.Some? && Filled(w.draft.value)
  {
  }

  lemma TurnKeepsConsistent(w: World, e: Event)
    requires Consistent(w)
    ensures Consistent(Turn(w, e).0)
  {
  }

  /** No conversation leaves the consistent shapes. */
  lemma {:induction false} RunKeepsConsistent(w: World, evs: seq<Event>)
    requires Consistent(w)
    ensures Consistent(Run(w, evs).0)
    decreases |evs|
  {
    if evs != [] {
      TurnKeepsConsistent(w, evs[0]);
      RunKeepsConsistent(Turn(w, evs[0]).0, evs[1..]);
    }
  }

  /** Storage is only ever appended to: earlier save calls are never forgotten. */
  lemma {:induction false} SaveLogOnlyGrows(w: World, evs: seq<Event>)
    ensures w.store.saveCalls <= Run(w, evs).0.store.saveCalls
    decreases |evs|
  {
    if evs != [] {
      var w1 := Turn(w, evs[0]).0;
      SaveLogOnlyGrows(w1, evs[1..]);
      assert w.store.saveCalls <= w1.store.saveCalls;
    }
  }

  /**
   * Once the draft is complete (saved or not), nothing but a new Create
   * changes the draft or the table, and every free-form text is refused.
   */
  lemma {:induction false} CompleteDraftRefusesText(w: World, evs: seq<Event>)
    requires PhaseOf(w.draft) == Complete
    requires NoCreate(evs)
    ensures Run(w, evs).0 == w
    ensures forall i :: 0 <= i < |evs| && evs[i].request.intentName == FreeFormIntent ==>
              Run(w, evs).1[i] == Throw(IllegalArgument(Unrecognized + FreeFormIntent))
    decreases |evs|
  {
    if evs != [] {
      assert Turn(w, evs[0]).0 == w;
      CompleteDraftRefusesText(w, evs[1..]);
      forall i | 0 < i < |evs|
        ensures Run(w, evs).1[i] == Run(w, evs[1..]).1[i - 1]
      {
      }
    }
  }

  /** Without a draft, free-form text is refused until a Create; lookups change nothing. */
  lemma {:induction false} NoDraftRefusesText(w: World, evs: seq<Event>)
    requires w.draft.None?
    requires NoCreate(evs)
    ensures Run(w, evs).0 == w
    ensures forall i :: 0 <= i < |evs| && evs[i].request.intentName == FreeFormIntent ==>
              Run(w, evs).1[i] == Throw(IllegalArgument(Unrecognized + FreeFormIntent))
    decreases |evs|
  {
    if evs != [] {
      assert Turn(w, evs[0]).0 == w;
      NoDraftRefusesText(w, evs[1..]);
      forall i | 0 < i < |evs|
        ensures Run(w, evs).1[i] == Run(w, evs[1..]).1[i - 1]
      {
      }
    }
  }

  /**
   * Lookups neither read nor change the draft: a run of lookups leaves the
   * world as it was, and each answers from the same table.
   */
  lemma {:induction false} LookupsChangeNothing(w: World, evs: seq<Event>)
    requires forall i :: 0 <= i < |evs| ==> evs[i].request.intentName == GetIntent
    ensures Run(w, evs).0 == w
    ensures forall i :: 0 <= i < |evs| ==>
              Run(w, evs).1[i] == LookupStep(evs[i].request.slot, evs[i].request.userId, w.store, evs[i].storeFails)
    decreases |evs|
  {
    if evs != [] {
      LookupsChangeNothing(w, evs[1..]);
      forall i | 0 < i < |evs|
        ensures Run(w, evs).1[i] == Run(w, evs[1..]).1[i - 1]
      {
      }
    }
  }

  /** Between two Creates, the phase only moves forward. */
  lemma {:induction false} PhaseNeverRegresses(w: World, evs: seq<Event>)
    requires NoCreate(evs)
    ensures Rank(PhaseOf(Run(w, evs).0.draft)) >= Rank(PhaseOf(w.draft))
    decreases |evs|
  {
    if evs != [] {
      var w1 := Turn(w, evs[0]).0;
      assert Rank(PhaseOf(w1.draft)) >= Rank(PhaseOf(w.draft));
      PhaseNeverRegresses(w1, evs[1..]);
    }
  }

  /**
   * A draft is handed to save at most once: between two Creates at most one
   * save call is made, and none once the draft is complete or absent.
   */
  lemma {:induction false} AtMostOneSavePerDraft(w: World, evs: seq<Event>)
    requires NoCreate(evs)
    ensures |Run(w, evs).0.store.saveCalls| <=
              |w.store.saveCalls| + (if PhaseOf(w.draft) in {AwaitingTitle, AwaitingBody} then 1 else 0)
    decreases |evs|
  {
    if evs != [] {
      var w1 := Turn(w, evs[0]).0;
      AtMostOneSavePerDraft(w1, evs[1..]);
      if PhaseOf(w.draft) in {NoDraft, Complete} {
        assert w1 == w;
      } else if PhaseOf(w.draft) == AwaitingTitle {
        assert w1.store == w.store;
      } else {
        assert w1.store == w.store || (PhaseOf(w1.draft) == Complete && |w1.store.saveCalls| == |w.store.saveCalls| + 1);
      }
    }
  }

  /** No turn says the "couldn't find" message: its branch is unreachable. */
  lemma TurnNeverSaysNotFound(w: World, e: Event)
    ensures Turn(w, e).1 != Speak(TellResponse(NotFound, false))
  {
  }

  /** In no conversation does the dialog tell the user a note was not found. */
  lemma {:induction false} NotFoundNeverSpoken(w: World, evs: seq<Event>)
    ensures forall i :: 0 <= i < |evs| ==> Run(w, evs).1[i] != Speak(TellResponse(NotFound, false))
    decreases |evs|
  {
    if evs != [] {
      TurnNeverSaysNotFound(w, evs[0]);
      NotFoundNeverSpoken(Turn(w, evs[0]).0, evs[1..]);
      forall i | 0 < i < |evs|
        ensures Run(w, evs).1[i] == Run(Turn(w, evs[0]).0, evs[1..]).1[i - 1]
      {
      }
    }
  }

  /** A three-turn conversation is its three turns, one after the other. */
  lemma RunOfThree(w: World, evs: seq<Event>)
    requires |evs| == 3
    ensures var t1 := Turn(w, evs[0]);
            var t2 := Turn(t1.0, evs[1]);
            var t3 := Turn(t2.0, evs[2]);
            Run(w, evs) == (t3.0, [t1.1, t2.1, t3.1])
  {
    var t1 := Turn(w, evs[0]);
    var t2 := Turn(t1.0, evs[1]);
    var t3 := Turn(t2.0, evs[2]);
    var two, one := evs[1..], evs[2..];
    assert two[0] == evs[1] && two[1..] == one;
    assert one[0] == evs[2] && one[1..] == [];
    assert Run(t2.0, one) == (t3.0, [t3.1] + []);
    assert [t3.1] + [] == [t3.1];
    assert Run(t1.0, two) == (t3.0, [t2.1] + [t3.1]);
    assert [t2.1] + [t3.1] == [t2.1, t3.1];
    assert Run(w, evs) == (t3.0, [t1.1] + [t2.1, t3.1]);
    assert [t1.1] + [t2.1, t3.1] == [t1.1, t2.1, t3.1];
  }

  /** The three turns Create, title text `t`, body text `b`. */
  function CreationTurns(create: Request, title: Request, body: Request, f0: bool, f1: bool, f2: bool): seq<Event>
  {
    [Event(create, f0), Event(title, f1), Event(body, f2)]
  }

  /**
   * Create, then text `t`, then text `b` with a save that succeeds stores
   * exactly one note {name `t`, body `b`, customer = the body turn's user}
   * under (user, `t`), whatever draft was there before.
   */
  lemma CreateTitleBodySaves(w: World, create: Request, title: Request, body: Request,
                             t: string, b: string, f0: bool, f1: bool)
    requires create.intentName == CreateIntent
    requires title.intentName == FreeFormIntent && title.slot.Some? && title.slot.value.value == Some(t)
    requires body.intentName == FreeFormIntent && body.slot.Some? && body.slot.value.value == Some(b)
    ensures var note := Draft(Some(body.userId), Some(t), Some(b));
            Run(w, CreationTurns(create, title, body, f0, f1, false)).0 ==
              World(Some(note), Store(w.store.items[Key(body.userId, t) := b], w.store.saveCalls + [note]))
    ensures Run(w, CreationTurns(create, title, body, f0, f1, false)).1 ==
              [Speak(CreateNewNoteResponse()), Speak(AskForContent), Speak(TellResponse(SavedSpeech(t, b), true))]
  {
    var evs := CreationTurns(create, title, body, f0, f1, false);
    RunOfThree(w, evs);
    var w1 := Turn(w, evs[0]).0;
    var w2 := Turn(w1, evs[1]).0;
    assert w2.draft == Some(Draft(None, Some(t), None));
  }

  /**
   * The same turns with a save that throws: nothing is stored, the one save
   * call is logged, the error is told without a card, and the draft is
   * complete, so further text is refused until the next Create.
   */
  lemma CreateTitleBodySaveFails(w: World, create: Request, title: Request, body: Request,
                                 t: string, b: string, f0: bool, f1: bool)
    requires create.intentName == CreateIntent
    requires title.intentName == FreeFormIntent && title.slot.Some? && title.slot.value.value == Some(t)
    requires body.intentName == FreeFormIntent && body.slot.Some? && body.slot.value.value == Some(b)
    ensures var note := Draft(Some(body.userId), Some(t), Some(b));
            Run(w, CreationTurns(create, title, body, f0, f1, true)).0 ==
              World(Some(note), Store(w.store.items, w.store.saveCalls + [note]))
    ensures Run(w, CreationTurns(create, title, body, f0, f1, true)).1[2] == Speak(TellResponse(ErrorSaving, false))
    ensures PhaseOf(Run(w, CreationTurns(create, title, body, f0, f1, true)).0.draft) == Complete
  {
    var evs := CreationTurns(create, title, body, f0, f1, true);
    RunOfThree(w, evs);
    var w1 := Turn(w, evs[0]).0;
    var w2 := Turn(w1, evs[1]).0;
    assert w2.draft == Some(Draft(None, Some(t), None));
  }

  /**
   * A saved note can be read back: after the creation turns with a
   * successful save, a lookup by the same user whose slot string is `t`
   * (and whose load does not throw) tells `b` with a card.
   */
  lemma SavedNoteIsFound(w: World, create: Request, title: Request, body: Request, lookup: Request,
                         t: string, b: string, f0: bool, f1: bool)
    requires create.intentName == CreateIntent
    requires title.intentName == FreeFormIntent && title.slot.Some? && title.slot.value.value == Some(t)
    requires body.intentName == FreeFormIntent && body.slot.Some? && body.slot.value.value == Some(b)
    requires lookup.intentName == GetIntent && lookup.slot.Some? && lookup.slot.value.text == Some(t)
    requires lookup.userId == body.userId
    ensures Turn(Run(w, CreationTurns(create, title, body, f0, f1, false)).0, Event(lookup, false)).1 ==
              Speak(TellResponse(b, true))
  {
    CreateTitleBodySaves(w, create, title, body, t, b, f0, f1);
  }
}
