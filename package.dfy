/** The package: a scheduler that reformats documents shortly after they are saved.
    Event handlers record saves and build depth; a periodic tick decides whether
    the recorded documents may be reformatted now, and if so runs one pass over
    them that preserves the user's focus and always cleans up after itself. */
module AutoFormatOnSave {
  import opened Documents
  import opened Ordering
  import opened Host

  /** Which branch a timer tick took. */
  datatype TickOutcome =
    | BuildFlushed   // a build runs: the pending documents were dropped
    | Guarded        // a sanity check failed: nothing was done
    | CooledDown     // a pass started less than `Cooldown` ago: the pending documents were dropped
    | Deferred       // nothing is left, or a save is still settling: wait for the next tick
    | Reformatted(snapshot: seq<Document>, completed: bool)  // a pass ran over `snapshot`

  /** The entries of `pending` whose documents have no unsaved changes. */
  function SavedEntries(pending: map<Document, int>, unsaved: set<Document>): (r: map<Document, int>)
    ensures forall d :: d in r <==> d in pending && d !in unsaved
    ensures forall d :: d in r ==> r[d] == pending[d]
  {
    map d | d in pending && d !in unsaved :: pending[d]
  }

  /** Some entry was saved less than one timer interval before `now`. */
  predicate Settling(pending: map<Document, int>, now: int) {
    exists d :: d in pending && now - pending[d] < TimerInterval
  }

  /** Over the documents recorded when a pass starts, the cleanup command runs
      exactly once on each, whichever window is active, and on no other document. */
  lemma {:induction false} EachRecordedAttemptedOnce(snapshot: seq<Document>, saves: map<Document, int>,
                                                     active: Option<Document>,
                                                     outcomes: Document -> CommandOutcome, d: Document)
    requires IsSaveOrder(snapshot, saves)
    ensures Attempts(AttemptEffects(ProcessingOrder(snapshot, active, saves.Keys), outcomes), d)
      == if d in saves then 1 else 0
  {
    var order := ProcessingOrder(snapshot, active, saves.Keys);
    ProcessingOrderOfSnapshot(snapshot, saves, active);
    OneAttemptEach(order, outcomes, d);
    assert d in order <==> d in Elems(order);
  }

  class Package {
    const dte: Editor
    /** The extensions eligible for reformatting: `AllowedFileExtensions`. */
    const allowedFileExtensions: seq<string>
    /** Each recorded document with the time of its last recorded save. */
    var pending: map<Document, int>
    /** Positive while the build engine runs. */
    var buildingSolution: int
    var isReformatting: bool
    var lastReformat: int
    var solutionIsActive: bool
    var timerRunning: bool
    var documentEventsConnected: bool
    var buildEventsConnected: bool
    var solutionEventsConnected: bool

    predicate Allowed(extension: string) {
      extension in allowedFileExtensions
    }

    /** Only documents with an allowed extension are ever recorded. */
    predicate Valid()
      reads this
    {
      forall d :: d in pending ==> Allowed(d.extension)
    }

    /** Time 0 is the default date, so the first pass is not held back by the
        cooldown, as long as `now` is at least `Cooldown`, which every real clock
        reading is. */
    constructor (dte: Editor)
      ensures this.dte == dte && allowedFileExtensions == AllowedFileExtensions && Valid()
      ensures pending == map[] && buildingSolution == 0 && lastReformat == 0
      ensures !isReformatting && !solutionIsActive && !timerRunning
      ensures !documentEventsConnected && !buildEventsConnected && !solutionEventsConnected
    {
      this.dte := dte;
      allowedFileExtensions := AllowedFileExtensions;
      pending := map[];
      buildingSolution := 0;
      isReformatting := false;
      lastReformat := 0;
      solutionIsActive := false;
      timerRunning := false;
      documentEventsConnected, buildEventsConnected, solutionEventsConnected := false, false, false;
    }

    /** Unsubscribes from every event source still connected; calling it again changes nothing. */
    method DisconnectFromVsEvents()
      modifies this`documentEventsConnected, this`buildEventsConnected, this`solutionEventsConnected
      ensures !documentEventsConnected && !buildEventsConnected && !solutionEventsConnected
    {
      if documentEventsConnected {
        documentEventsConnected := false;
      }
      if buildEventsConnected {
        buildEventsConnected := false;
      }
      if solutionEventsConnected {
        solutionEventsConnected := false;
      }
    }

    /** Attaches to the editor's events and starts the timer, but only when the
        cleanup command exists; otherwise the package stays inert. */
    method InitializeAddIn(cleanupCommandExists: bool)
      modifies this`documentEventsConnected, this`buildEventsConnected, this`solutionEventsConnected, this`timerRunning
      ensures cleanupCommandExists ==> documentEventsConnected && buildEventsConnected && solutionEventsConnected && timerRunning
      ensures !cleanupCommandExists ==>
        && documentEventsConnected == old(documentEventsConnected)
        && buildEventsConnected == old(buildEventsConnected)
        && solutionEventsConnected == old(solutionEventsConnected)
        && timerRunning == old(timerRunning)
    {
      if !cleanupCommandExists {
        return;
      }
      DisconnectFromVsEvents();
      documentEventsConnected := true;
      buildEventsConnected := true;
      solutionEventsConnected := true;
      timerRunning := true;
    }

    method OnBeforeClosingSolution()
      modifies this`solutionIsActive
      ensures !solutionIsActive
    {
      solutionIsActive := false;
    }

    method OnOpenedSolution()
      modifies this`solutionIsActive
      ensures solutionIsActive
    {
      solutionIsActive := true;
    }

    /** A build, rebuild-all or deploy deepens the build by one; a clean changes nothing. */
    method OnBuildBegin(action: BuildAction)
      modifies this`buildingSolution
      ensures buildingSolution == old(buildingSolution) + (if MovesBuildDepth(action) then 1 else 0)
    {
      if MovesBuildDepth(action) {
        buildingSolution := buildingSolution + 1;
      }
    }

    /** The end of a build, rebuild-all or deploy takes one off the depth, with no floor at zero. */
    method OnBuildDone(action: BuildAction)
      modifies this`buildingSolution
      ensures buildingSolution == old(buildingSolution) - (if MovesBuildDepth(action) then 1 else 0)
    {
      if MovesBuildDepth(action) {
        buildingSolution := buildingSolution - 1;
      }
    }

    /** A closing document with an allowed extension is forgotten: it will have no window to activate. */
    method OnDocumentClosing(d: Document)
      requires Valid()
      modifies this`pending
      ensures Valid()
      ensures Allowed(d.extension) ==> pending == old(pending) - {d}
      ensures !Allowed(d.extension) ==> pending == old(pending)
    {
      if !Allowed(d.extension) {
        return;
      }
      pending := pending - {d};
    }

    /** Records the save of a document with an allowed extension, unless a pass or a
        build is running (their own saves must not schedule another pass). A later
        save of the same document replaces the time of the earlier one. */
    method OnDocumentSaved(d: Document, now: int)
      requires Valid()
      modifies this`pending
      ensures Valid()
      ensures isReformatting || buildingSolution > 0 || !Allowed(d.extension) ==> pending == old(pending)
      ensures !isReformatting && buildingSolution <= 0 && Allowed(d.extension) ==> pending == old(pending)[d := now]
    {
      if isReformatting || buildingSolution > 0 {
        return;
      }
      if Allowed(d.extension) {
        pending := pending[d := now];
      }
    }

    /** One of the tick's sanity checks fails: debug mode, a pass already running,
        no solution open, nothing recorded, or the IDE not in the foreground. */
    predicate SanityCheckFails(hostIsForeground: bool)
      reads this, dte
    {
      dte.debugging || isReformatting || !solutionIsActive || |pending| == 0 || !hostIsForeground
    }

    /** One step of the pass's first loop: activates `d`, runs the cleanup command
        on it, swallowing a failure, and then forgets `d`. */
    method CleanUpOne(d: Document, outcome: CommandOutcome)
      modifies this`pending, dte
      ensures pending == old(pending) - {d}
      ensures dte.log == old(dte.log) + [Activated(d), RanCleanup(Some(d), outcome)]
      ensures dte.unsaved == old(dte.unsaved) + (if outcome == Completed(true) then {d} else {})
      ensures dte.activeWindow == Some(DocumentWindow(d))
      ensures dte.debugging == old(dte.debugging)
    {
      dte.ActivateDocument(d);
      dte.ExecuteCleanup(outcome);  // a failure of the command is swallowed
      pending := pending - {d};
    }

    /** The pass's first loop: each document of `order` is cleaned up and then
        forgotten. Activating the document at position `activationFault` throws,
        which ends the loop before that document. */
    method CleanUpEach(order: seq<Document>, outcomes: Document -> CommandOutcome, activationFault: Option<nat>)
      returns (completed: bool)
      modifies this`pending, dte
      ensures completed <==> !(activationFault.Some? && activationFault.value < |order|)
      ensures var attempted := if completed then |order| else activationFault.value;
        && attempted <= |order|
        && pending == old(pending) - Elems(order[..attempted])
        && dte.log == old(dte.log) + AttemptEffects(order[..attempted], outcomes)
        && dte.unsaved == old(dte.unsaved) + Dirtied(order[..attempted], outcomes)
      ensures var attempted := if completed then |order| else activationFault.value;
        dte.activeWindow == if attempted == 0 then old(dte.activeWindow) else Some(DocumentWindow(order[attempted - 1]))
      ensures dte.debugging == old(dte.debugging)
    {
      // Activating the document at `stop` throws; nothing after it is reached.
      var stop := if activationFault.Some? && activationFault.value < |order| then activationFault.value else |order|;
      var i := 0;
      while i < stop
        invariant i <= stop
        invariant pending == old(pending) - Elems(order[..i])
        invariant dte.log == old(dte.log) + AttemptEffects(order[..i], outcomes)
        invariant dte.unsaved == old(dte.unsaved) + Dirtied(order[..i], outcomes)
        invariant dte.activeWindow == if i == 0 then old(dte.activeWindow) else Some(DocumentWindow(order[i - 1]))
        invariant dte.debugging == old(dte.debugging)
      {
        var d := order[i];
        CleanUpOne(d, outcomes(d));
        assert order[..i + 1] == order[..i] + [d];
        ElemsStep(order[..i], d);
        AttemptEffectsStep(order[..i], d, outcomes);
        DirtiedStep(order[..i], d, outcomes);
        i := i + 1;
      }
      completed := stop == |order|;
      assert completed ==> order[..i] == order;
    }

    /** One step of the pass's re-save loop: saves `d` if it has unsaved changes.
        Saving raises the editor's DocumentSaved event at once; the handler
        ignores it because a pass is in progress. */
    method SaveIfChanged(d: Document, now: int)
      requires Valid() && isReformatting
      modifies this`pending, dte
      ensures pending == old(pending)
      ensures dte.unsaved == old(dte.unsaved) - {d}
      ensures dte.log == old(dte.log) + (if d in old(dte.unsaved) then [Saved(d)] else [])
      ensures dte.debugging == old(dte.debugging) && dte.activeWindow == old(dte.activeWindow)
    {
      if !dte.IsSaved(d) {
        dte.Save(d);
        OnDocumentSaved(d, now);
      }
    }

    /** The pass's re-save loop: saves each document of `order` that has unsaved changes. */
    method SaveChangedDocuments(order: seq<Document>, now: int)
      requires Valid() && isReformatting && Distinct(order)
      modifies this`pending, dte
      ensures pending == old(pending)
      ensures dte.unsaved == old(dte.unsaved) - Elems(order)
      ensures dte.log == old(dte.log) + ResaveEffects(order, old(dte.unsaved))
      ensures dte.debugging == old(dte.debugging) && dte.activeWindow == old(dte.activeWindow)
    {
      ghost var unsavedBefore, logBefore := dte.unsaved, dte.log;
      var j := 0;
      while j < |order|
        invariant j <= |order| && pending == old(pending)
        invariant dte.unsaved == unsavedBefore - Elems(order[..j])
        invariant dte.log == logBefore + ResaveEffects(order[..j], unsavedBefore)
        invariant dte.debugging == old(dte.debugging) && dte.activeWindow == old(dte.activeWindow)
      {
        var d := order[j];
        assert d !in Elems(order[..j]);
        SaveIfChanged(d, now);
        assert order[..j + 1] == order[..j] + [d];
        ElemsStep(order[..j], d);
        ResaveEffectsStep(order[..j], d, unsavedBefore);
        j := j + 1;
      }
      assert order[..j] == order;
    }

    /** What the pass does once every document was attempted: the re-save loop
        when asked for, then the originally active window is brought back. */
    method SaveAndRestoreFocus(order: seq<Document>, now: int, saveDocumentsAfterwards: bool,
                               originallyActiveWindow: Option<Window>)
      requires Valid() && isReformatting && Distinct(order)
      modifies this`pending, dte
      ensures Valid() && pending == old(pending)
      ensures dte.unsaved == if saveDocumentsAfterwards then old(dte.unsaved) - Elems(order) else old(dte.unsaved)
      ensures dte.log == old(dte.log)
        + (if saveDocumentsAfterwards then ResaveEffects(order, old(dte.unsaved)) else [])
        + (if originallyActiveWindow.Some? then [Reactivated(originallyActiveWindow.value)] else [])
      ensures dte.activeWindow == if originallyActiveWindow.Some? then originallyActiveWindow else old(dte.activeWindow)
      ensures dte.debugging == old(dte.debugging)
    {
      if saveDocumentsAfterwards {
        SaveChangedDocuments(order, now);
      }
      ghost var logAfterSaves := dte.log;
      if originallyActiveWindow.Some? {
        dte.ActivateWindow(originallyActiveWindow.value);
      }
      assert dte.log == logAfterSaves + (if originallyActiveWindow.Some? then [Reactivated(originallyActiveWindow.value)] else []);
    }

    /** The body of the pass once the processing order is known: every document
        is attempted, then, unless activating one threw, the changed documents are
        re-saved when asked for and the originally active window is brought back. */
    method ReformatInOrder(order: seq<Document>, now: int, saveDocumentsAfterwards: bool,
                           originallyActiveWindow: Option<Window>,
                           outcomes: Document -> CommandOutcome, activationFault: Option<nat>)
      returns (completed: bool)
      requires Valid() && isReformatting && Distinct(order)
      modifies this`pending, dte
      ensures Valid()
      ensures completed <==> !(activationFault.Some? && activationFault.value < |order|)
      ensures var attempted := if completed then |order| else activationFault.value;
        pending == old(pending) - Elems(order[..attempted])
      ensures var attempted := if completed then |order| else activationFault.value;
        dte.log == old(dte.log) + AttemptEffects(order[..attempted], outcomes)
          + (if completed && saveDocumentsAfterwards then ResaveEffects(order, old(dte.unsaved) + Dirtied(order, outcomes)) else [])
          + (if completed && originallyActiveWindow.Some? then [Reactivated(originallyActiveWindow.value)] else [])
      ensures var attempted := if completed then |order| else activationFault.value;
        dte.unsaved == (if completed && saveDocumentsAfterwards then old(dte.unsaved) - Elems(order)
                        else old(dte.unsaved) + Dirtied(order[..attempted], outcomes))
      ensures var attempted := if completed then |order| else activationFault.value;
        dte.activeWindow ==
          if completed && originallyActiveWindow.Some? then originallyActiveWindow
          else if attempted == 0 then old(dte.activeWindow)
          else Some(DocumentWindow(order[attempted - 1]))
      ensures dte.debugging == old(dte.debugging)
    {
      completed := CleanUpEach(order, outcomes, activationFault);
      assert Valid();
      if completed {
        assert order[..|order|] == order;
        SaveAndRestoreFocus(order, now, saveDocumentsAfterwards, originallyActiveWindow);
      }
    }

    /** The pass's cleanup loop: the query over the recorded map is enumerated
        again, over the map as it is now, and each document it yields is removed. */
    method ForgetRecorded()
      requires Valid()
      modifies this`pending
      ensures Valid() && pending == map[]
    {
      var requery := OrderBySaveTime(pending);
      ghost var remaining := pending;
      var j := 0;
      while j < |requery|
        invariant j <= |requery|
        invariant Valid()
        invariant forall d :: d in pending <==> d in remaining && d !in requery[..j]
      {
        pending := pending - {requery[j]};
        assert requery[..j + 1] == requery[..j] + [requery[j]];
        j := j + 1;
      }
      assert requery[..j] == requery;
      assert forall d :: d !in pending;
    }

    /** One reformat pass over the documents recorded on entry.
        `outcomes` gives what the cleanup command comes to on each document;
        `activationFault`, when it names a position in the processing order, is
        where activating a document throws, which abandons the rest of the body.
        Whatever happens in the body, the pass ends with the recorded documents
        gone, the timer running and no pass in progress. Besides the snapshot
        of the recorded map, the pass returns the processing order it built. */
    method ReformatDocuments(now: int, saveDocumentsAfterwards: bool,
                             outcomes: Document -> CommandOutcome, activationFault: Option<nat>)
      returns (documentsToReformat: seq<Document>, recentlySavedDocs: seq<Document>, completed: bool)
      requires Valid()
      modifies this`pending, this`isReformatting, this`timerRunning, this`lastReformat, dte
      ensures Valid()
      ensures IsSaveOrder(documentsToReformat, old(pending))
      ensures recentlySavedDocs == ProcessingOrder(documentsToReformat, DocumentOf(old(dte.activeWindow)), old(pending).Keys)
      ensures !isReformatting && timerRunning && lastReformat == now
      ensures pending == map[]
      ensures dte.debugging == old(dte.debugging)
      ensures completed <==> !(activationFault.Some? && activationFault.value < |recentlySavedDocs|)
      ensures var attempted := if completed then |recentlySavedDocs| else activationFault.value;
        dte.log == old(dte.log) + AttemptEffects(recentlySavedDocs[..attempted], outcomes)
          + (if completed && saveDocumentsAfterwards
             then ResaveEffects(recentlySavedDocs, old(dte.unsaved) + Dirtied(recentlySavedDocs, outcomes)) else [])
          + (if completed && old(dte.activeWindow).Some? then [Reactivated(old(dte.activeWindow).value)] else [])
      ensures var attempted := if completed then |recentlySavedDocs| else activationFault.value;
        dte.unsaved == (if completed && saveDocumentsAfterwards then old(dte.unsaved) - Elems(recentlySavedDocs)
                        else old(dte.unsaved) + Dirtied(recentlySavedDocs[..attempted], outcomes))
      ensures var attempted := if completed then |recentlySavedDocs| else activationFault.value;
        dte.activeWindow ==
          if completed && old(dte.activeWindow).Some? then old(dte.activeWindow)
          else if attempted == 0 then old(dte.activeWindow)
          else Some(DocumentWindow(recentlySavedDocs[attempted - 1]))
    {
      isReformatting := true;
      timerRunning := false;
      lastReformat := now;

      var originallyActiveWindow := dte.activeWindow;
      // The documents to reformat are a query over the recorded map; it is first
      // enumerated here, before anything has been removed from the map.
      documentsToReformat := OrderBySaveTime(pending);
      recentlySavedDocs := ProcessingOrder(documentsToReformat, DocumentOf(originallyActiveWindow), pending.Keys);

      completed := ReformatInOrder(recentlySavedDocs, now, saveDocumentsAfterwards, originallyActiveWindow,
                                   outcomes, activationFault);

      // Runs whatever happened above.
      ForgetRecorded();
      timerRunning := true;
      isReformatting := false;
    }

    /** The periodic check. In order: a running build drops everything recorded;
        a failed sanity check does nothing; documents with unsaved changes are
        dropped; within the cooldown of the last pass everything is dropped; while
        nothing is left or some save is younger than one interval, it waits;
        otherwise it runs a pass, re-saving the documents afterwards. */
    method TimerOnTick(now: int, hostIsForeground: bool,
                       outcomes: Document -> CommandOutcome, activationFault: Option<nat>)
      returns (outcome: TickOutcome)
      requires Valid()
      modifies this`pending, this`isReformatting, this`timerRunning, this`lastReformat, dte
      ensures Valid() && dte.debugging == old(dte.debugging)
      ensures outcome.BuildFlushed? <==> old(buildingSolution) > 0
      ensures outcome.Guarded? <==> old(buildingSolution) <= 0 && old(SanityCheckFails(hostIsForeground))
      ensures !outcome.Reformatted? ==>
        && unchanged(dte)
        && isReformatting == old(isReformatting) && timerRunning == old(timerRunning)
        && lastReformat == old(lastReformat)
      ensures outcome.BuildFlushed? || outcome.CooledDown? ==> pending == map[]
      ensures outcome.Guarded? ==> pending == old(pending)
      ensures var live := SavedEntries(old(pending), old(dte.unsaved));
        var pastGuards := old(buildingSolution) <= 0 && !old(SanityCheckFails(hostIsForeground));
        && (outcome.CooledDown? <==> pastGuards && now - old(lastReformat) < Cooldown)
        && (outcome.Deferred? <==> pastGuards && now - old(lastReformat) >= Cooldown && (live == map[] || Settling(live, now)))
        && (outcome.Deferred? ==> pending == live)
        && (outcome.Reformatted? ==>
              && pastGuards && now - old(lastReformat) >= Cooldown
              && live != map[] && (forall d :: d in live ==> now - live[d] >= TimerInterval)
              && IsSaveOrder(outcome.snapshot, live)
              && pending == map[] && lastReformat == now && !isReformatting && timerRunning)
    {
      if buildingSolution > 0 {
        pending := map[];
        return BuildFlushed;
      }

      if SanityCheckFails(hostIsForeground) {
        return Guarded;
      }

      // Remove every document that has unsaved changes.
      var stale := set d | d in pending.Keys && !dte.IsSaved(d);
      ghost var live := SavedEntries(pending, dte.unsaved);
      while stale != {}
        modifies this`pending
        invariant stale <= pending.Keys
        invariant forall d :: d in pending <==> d in live || d in stale
        invariant forall d :: d in pending ==> pending[d] == old(pending)[d]
        invariant Valid()
        decreases stale
      {
        var d :| d in stale;
        pending := pending - {d};
        stale := stale - {d};
      }
      assert pending == live;

      if now - lastReformat < Cooldown {
        // Saves recorded this soon after a pass (its own re-saves among them) are dropped.
        pending := map[];
        return CooledDown;
      }

      if |pending| == 0 || Settling(pending, now) {
        return Deferred;
      }

      var snapshot, _, completed := ReformatDocuments(now, true, outcomes, activationFault);
      return Reformatted(snapshot, completed);
    }
  }
}
