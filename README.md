# Auto-format on save: the scheduler, in Dafny

The Visual Studio package `ReSharper_AutoFormatOnSavePackage` runs ReSharper's silent
code cleanup on documents shortly after the user saves them. The part worth proving
is its scheduler:

- Event handlers record each save of a document with an allowed extension in a map
  from document to save time. They also track the build depth, whether a solution
  is open, and whether a reformat pass is running.
- A one-second timer tick decides, in a fixed order of precedence, what to do:
  - while a build runs, it drops everything recorded;
  - if a sanity check fails, it does nothing;
  - it drops the documents that have unsaved changes;
  - within five seconds of the last pass, it drops everything recorded;
  - while a save is younger than one interval, it waits.
- Otherwise the tick runs one pass. The pass:
  - visits the recorded documents oldest save first, with the document the user is
    looking at moved to the end;
  - activates each one and runs the cleanup command on it, ignoring a failure of
    the command;
  - re-saves what the command changed;
  - brings back the window that was active;
  - whatever happened, forgets every recorded document, restarts the timer and
    ends the pass.

Modules:

- `Documents` (documents.dfy): documents, windows, build actions, the allowed
  extensions and the two time constants.
- `Ordering` (ordering.dfy):
  - `OrderBySaveTime`, the order of the recorded map by save time;
  - LINQ's `Except` as `Except`;
  - `ProcessingOrder`, the processing order of a pass;
  - the lemmas that this order visits every recorded document once, oldest
    first, and that the order is unique when no two saves share an instant.
- `Host` (host.dfy): the editor the package drives. It is a class `Editor` holding:
  - the active window;
  - the set of documents with unsaved changes;
  - the debug-mode flag;
  - a ghost log of every call the package makes on it.

  Alongside it are the functions that give the calls of a pass's two loops
  (`AttemptEffects`, `ResaveEffects`), and the proof that the cleanup command runs
  exactly once on each document of the order.
- `AutoFormatOnSave` (package.dfy): the class `Package`, whose fields are the
  scheduler state:
  - `pending`, the recorded map;
  - `buildingSolution`;
  - `isReformatting`;
  - `lastReformat`;
  - `solutionIsActive`;
  - the timer's running flag;
  - the three event subscriptions.

  Its event handlers, `ReformatDocuments` and `TimerOnTick` are methods that
  update these fields in place. Their contracts tie the new state and the editor's
  log to the functions above.
- `Scenarios` (scenarios.dfy): short runs from a fresh package that state what
  several events together come to.

Modelling choices:

- Times are integer milliseconds. The time of the default date, which
  `lastReformat` holds before the first pass, is 0. `DateTime.Now` is the `now`
  parameter of each operation that reads it.
- The outcome of the cleanup command is an input (`outcomes`). The command can
  throw, complete without changing the document, or change it, which gives the
  document unsaved changes.
- The cleanup command throwing is the `Threw` outcome; the pass swallows it and
  goes on with the next document (ReSharper.AutoFormatOnSavePackage.cs:358-365).
- `activationFault` is the one exception that abandons the pass's body:
  `Document.Activate()` throwing at a given position of the processing order. The
  `finally` block still runs.
- The argument `documentsToReformat` is a lazy query over the recorded map. The
  model enumerates it twice, in the two places where the code does:
  - when the processing order is built, before anything is removed;
  - again in the `finally` block (`ForgetRecorded`), over the map as it is then.
- `OrderBy` is stable over the dictionary's enumeration order, and the model does
  not fix that order. A save order is therefore specified by `IsSaveOrder`, and
  `SaveOrderDetermined` proves that it is unique when the save times are distinct.
- Saving a document raises `DocumentSaved` synchronously. The re-save loop
  therefore calls `OnDocumentSaved`, which ignores the save because a pass is
  running.
- `OnDocumentClosing` checks the extension before removing the document
  (ReSharper.AutoFormatOnSavePackage.cs:275-282). In the model a document's
  extension is fixed and only documents with an allowed extension are ever
  recorded (`Valid()`), so there the check never changes the outcome. In the code
  the extension is read again from the file name at each event, so a recorded
  `a.cs` renamed by Save As to `a.txt` is not removed when it closes.
- `OnBuildDone` has no floor at zero (ReSharper.AutoFormatOnSavePackage.cs:262).
  `Scenarios.UnmatchedBuildEndHidesNextBuild` shows the consequence: after a build
  end with no matching begin, a save during the next build is recorded.

## Model

| member | source | states |
|---|---|---|
| Ordering.EarliestExists | ReSharper.AutoFormatOnSavePackage.cs:457-458 | Every non-empty set of recorded documents has one whose save is oldest, so ordering by save time can always take a next element. |
| Ordering.OrderBySaveTime | ReSharper.AutoFormatOnSavePackage.cs:457-459 | The result lists every key of the recorded map exactly once, and save times never decrease along it. |
| Ordering.SaveOrderStartsWithEarliest | ReSharper.AutoFormatOnSavePackage.cs:457-459 | The first document of a save order has the oldest save of the map. |
| Ordering.SaveOrderTail | ReSharper.AutoFormatOnSavePackage.cs:457-459 | Without its first document, a save order is a save order of the rest of the map. |
| Ordering.SaveOrderDetermined | ReSharper.AutoFormatOnSavePackage.cs:457-459 | When no two saves share an instant, any two save orders of the map are equal: the order of a pass is fixed by the save times alone. |
| Ordering.Except | ReSharper.AutoFormatOnSavePackage.cs:343 | The result has no duplicates and holds exactly the documents of the input that are not excluded. |
| Ordering.ExceptOfDistinct | ReSharper.AutoFormatOnSavePackage.cs:343 | `Except` removes nothing from a list without duplicates when none of its elements is excluded. |
| Ordering.ExceptKeepsSaveOrder | ReSharper.AutoFormatOnSavePackage.cs:342-343 | Removing the active document from a list sorted by save time leaves it sorted. |
| Ordering.ProcessingOrder | ReSharper.AutoFormatOnSavePackage.cs:333-351 | The processing order has no duplicates. A document is in it iff it is in the query and is not the active document, or it is the active document and still recorded. The active document comes last whenever it is recorded. |
| Ordering.NoActiveDocumentKeepsSaveOrder | ReSharper.AutoFormatOnSavePackage.cs:333-351 | When there is no active window, or it shows no document, the processing order is the snapshot itself: the pass visits the recorded documents exactly in save order. |
| Ordering.ProcessingOrderOfSnapshot | ReSharper.AutoFormatOnSavePackage.cs:341-351 | Over a save order of the recorded map, the processing order visits exactly the recorded documents, each once. Apart from the active document, which comes last, the documents come in order of save time: every document placed before a non-active document was saved no later than it. |
| Host.Editor.constructor | ReSharper.AutoFormatOnSavePackage.cs:90 | The editor starts with the given debug mode, active window and unsaved documents, and an empty log of calls. |
| Host.Editor.ActivateDocument | ReSharper.AutoFormatOnSavePackage.cs:356 | Activating a document makes its window the active one, and logs the activation. |
| Host.Editor.ExecuteCleanup | ReSharper.AutoFormatOnSavePackage.cs:361 | The cleanup command works on the active document. When it completes and changes the document, that document gains unsaved changes. The run is logged with its target and outcome. |
| Host.Editor.Save | ReSharper.AutoFormatOnSavePackage.cs:376 | Saving a document clears its unsaved changes and logs the save. |
| Host.Editor.ActivateWindow | ReSharper.AutoFormatOnSavePackage.cs:383 | Reactivating the original window makes it the active window and logs it. |
| Host.AttemptEffects | ReSharper.AutoFormatOnSavePackage.cs:353-370 | The first loop makes two calls per document of the order. |
| Host.AttemptEffectsAt | ReSharper.AutoFormatOnSavePackage.cs:353-370 | Call 2k activates the k-th document, and call 2k+1 runs the cleanup command on it with that document's outcome. |
| Host.AttemptsOfConcat | ReSharper.AutoFormatOnSavePackage.cs:353-370 | Counting cleanup runs on a document adds up over consecutive stretches of calls. |
| Host.OneAttemptEach | ReSharper.AutoFormatOnSavePackage.cs:358-369 | Over an order without duplicates, the cleanup command runs exactly once on each document of the order and never on another, whatever each run comes to. A failing run does not stop the rest. |
| Host.Dirtied | ReSharper.AutoFormatOnSavePackage.cs:361 | Only documents of the order can be changed by the first loop. |
| Host.ResaveEffects | ReSharper.AutoFormatOnSavePackage.cs:372-378 | The re-save loop only saves. It saves a document iff the document is in the order and has unsaved changes. |
| AutoFormatOnSave.SavedEntries | ReSharper.AutoFormatOnSavePackage.cs:436-440 | After the tick's first loop, a document is still recorded iff it was recorded and has no unsaved changes. It keeps its save time. |
| AutoFormatOnSave.EachRecordedAttemptedOnce | ReSharper.AutoFormatOnSavePackage.cs:341-370 | In a pass in which no activation throws, the cleanup command runs exactly once on every document recorded at its start, whichever window is active, and on no other document. (When an activation throws, only the prefix before it is attempted, as `ReformatDocuments` states.) |
| AutoFormatOnSave.Package.constructor | ReSharper.AutoFormatOnSavePackage.cs:56-110 | A new package has nothing recorded and a build depth of 0. Its last pass is at time 0. No pass or solution is active, the timer is stopped and no event is subscribed. The allowed extensions are the eight of the list. |
| AutoFormatOnSave.Package.DisconnectFromVsEvents | ReSharper.AutoFormatOnSavePackage.cs:164-186 | Afterwards no event source is subscribed, however many were before. |
| AutoFormatOnSave.Package.InitializeAddIn | ReSharper.AutoFormatOnSavePackage.cs:191-215 | With the cleanup command present, all three event sources are subscribed and the timer runs. Without it, nothing changes. |
| AutoFormatOnSave.Package.OnBeforeClosingSolution | ReSharper.AutoFormatOnSavePackage.cs:220-223 | No solution is active afterwards. |
| AutoFormatOnSave.Package.OnOpenedSolution | ReSharper.AutoFormatOnSavePackage.cs:309-312 | A solution is active afterwards. |
| AutoFormatOnSave.Package.OnBuildBegin | ReSharper.AutoFormatOnSavePackage.cs:234-244 | Build, rebuild-all and deploy raise the depth by exactly one. A clean leaves it unchanged. |
| AutoFormatOnSave.Package.OnBuildDone | ReSharper.AutoFormatOnSavePackage.cs:255-265 | Build, rebuild-all and deploy lower the depth by exactly one, with no floor. A clean leaves it unchanged. |
| AutoFormatOnSave.Package.OnDocumentClosing | ReSharper.AutoFormatOnSavePackage.cs:273-283 | A document with an allowed extension loses its entry and nothing else changes. Any other document leaves the map as it was. |
| AutoFormatOnSave.Package.OnDocumentSaved | ReSharper.AutoFormatOnSavePackage.cs:291-304 | While a pass or a build runs, or for a disallowed extension, the map is unchanged. Otherwise it becomes the old map with this document mapped to `now`. Every other entry is unchanged, and there is one entry per document. Only allowed documents are ever recorded. |
| AutoFormatOnSave.Package.CleanUpOne | ReSharper.AutoFormatOnSavePackage.cs:355-369 | One attempt activates the document, leaving its window active. It runs the command on it, records the command's change and forgets the document, whatever the command came to. |
| AutoFormatOnSave.Package.CleanUpEach | ReSharper.AutoFormatOnSavePackage.cs:353-370 | The first loop completes iff no activation throws within the order. It attempts the documents before the faulting position, or all of them. Each attempted document is forgotten, the calls are `AttemptEffects` of the attempted prefix, and exactly what the command changed gains unsaved changes. The last attempted document's window is active afterwards; when none was attempted, the active window is unchanged. |
| AutoFormatOnSave.Package.SaveIfChanged | ReSharper.AutoFormatOnSavePackage.cs:374-377 | A document with unsaved changes is saved, and the save event it raises records nothing. A document without unsaved changes is left alone. |
| AutoFormatOnSave.Package.SaveChangedDocuments | ReSharper.AutoFormatOnSavePackage.cs:372-378 | After the re-save loop, no document of the order has unsaved changes. The calls are exactly `ResaveEffects`, and the recorded map is unchanged. |
| AutoFormatOnSave.Package.SaveAndRestoreFocus | ReSharper.AutoFormatOnSavePackage.cs:372-384 | The documents are re-saved when asked for. Then the originally active window, if there was one, is active again; otherwise the active window is left as it was. |
| AutoFormatOnSave.Package.ReformatInOrder | ReSharper.AutoFormatOnSavePackage.cs:331-385 | The body of the pass. The re-saves and the reactivation happen only when no activation threw, and the recorded map (the old map without the attempted documents), the full sequence of calls, the resulting unsaved set and the window that ends up active are stated for both outcomes. |
| AutoFormatOnSave.Package.ForgetRecorded | ReSharper.AutoFormatOnSavePackage.cs:388-391 | Re-enumerating the query and removing each document it yields empties the recorded map. |
| AutoFormatOnSave.Package.ReformatDocuments | ReSharper.AutoFormatOnSavePackage.cs:323-396 | Whatever happens in the body, the pass ends with nothing recorded, no pass in progress, the timer running and `lastReformat` equal to the start time. The snapshot is a save order of the map at entry. The pass completes iff no activation throws within the processing order. The processing order it returns is `ProcessingOrder` of the snapshot. The calls it makes and the unsaved set afterwards are stated in full. Focus ends on the original window when the pass completed and there was one; otherwise on the last document attempted, or where it was if none was. |
| AutoFormatOnSave.Package.TimerOnTick | ReSharper.AutoFormatOnSavePackage.cs:415-466 | Each branch of the tick is stated both ways. It flushes iff a build runs. It does nothing iff the sanity check fails. It drops everything iff within the cooldown. It waits iff nothing is left or some save is younger than an interval, keeping only the saved entries. It runs a pass only when every remaining save is at least one interval old and the cooldown has passed. A pass leaves nothing recorded. No branch but the pass touches the editor. |
| Scenarios.BuildPairRestoresDepth | ReSharper.AutoFormatOnSavePackage.cs:234-265 | A begin and end of the same build action restore the depth. |
| Scenarios.DisallowedSaveIsIgnored | ReSharper.AutoFormatOnSavePackage.cs:298-303 | A save of any document whose extension is not in the list is not recorded. |
| Scenarios.UpperCaseExtensionIsIgnored | ReSharper.AutoFormatOnSavePackage.cs:56 | The extension comparison is case-sensitive: a save of a ".CS" document is not recorded. |
| Scenarios.SaveDuringBuildIsDropped | ReSharper.AutoFormatOnSavePackage.cs:293-296 | A save made while a build runs is not recorded. |
| Scenarios.UnmatchedBuildEndHidesNextBuild | ReSharper.AutoFormatOnSavePackage.cs:262 | After a build end with no matching begin, the next build leaves the depth at 0, and a save during it is recorded. |
| Scenarios.ResaveReplacesThenCloseForgets | ReSharper.AutoFormatOnSavePackage.cs:273-304 | Two saves of one document leave one entry with the later time, and closing the document removes it. |
| Scenarios.OnlyOrderOfTwo | ReSharper.AutoFormatOnSavePackage.cs:457-459 | Two documents saved at different times have a single save order, the older first. |
| Scenarios.OldestSaveFirst | ReSharper.AutoFormatOnSavePackage.cs:450-460 | A tick one interval after the last of two saves runs a pass whose snapshot lists the older save first. |
| Scenarios.CooldownDropsLaterSave | ReSharper.AutoFormatOnSavePackage.cs:442-448 | A save made one second after a pass is dropped by the tick two seconds later, although it has settled. |

## Left out

- The test for whether Visual Studio is the foreground window (P/Invoke through
  `NativeMethods`) is the `hostIsForeground` input of `TimerOnTick`.
- Package registration, `Initialize` and `Dispose`, and the GUID constants
  (GuidList.cs) are host lifecycle wiring with no scheduling logic. The check that
  the cleanup command exists is the `cleanupCommandExists` input of
  `InitializeAddIn`.
- The WinForms timer is the `timerRunning` flag. Tick delivery is a caller of
  `TimerOnTick`, and `DateTime.Now` is the `now` parameter.
- The message box that reports an exception escaping a tick is UI. An exception
  in a pass is `activationFault`, and the tick returns the pass's `completed` flag.
- `Path.GetExtension` is the `extension` field of a document. A document's file
  name, and so its extension, never changes in the model: renaming by Save As is
  not modelled.
- The clock is read twice around a pass: by the tick (ReSharper.AutoFormatOnSavePackage.cs:442)
  and again at the start of the pass (ReSharper.AutoFormatOnSavePackage.cs:327). The model
  takes the two readings as equal: `TimerOnTick` passes its own `now` to
  `ReformatDocuments`, so `lastReformat` is the tick's time.
- AutoFormatOnSave.Package.OnBuildBegin, AutoFormatOnSave.Package.OnBuildDone:
  `buildingSolution` is a 32-bit `int` in the code and would wrap around after 2^31
  unmatched increments or decrements. The model's depth is unbounded.
- The build scope argument of the build events is ignored by the code and not
  modelled.
- Exceptions other than the cleanup command's (the `Threw` outcome) and
  `Document.Activate()`'s (`activationFault`) are not modelled: `Save`,
  `Window.Activate`, `Window.Document` and reading `ActiveWindow` never throw in
  the model.
- A document closing in the middle of a pass is not modelled. The pass runs
  without interleaved events, as on the editor's single UI thread.
- Ordering.OrderBySaveTime: the relative order of documents saved at the same
  instant is left open. The dictionary's enumeration order, which fixes it in the
  code, is not modelled.
- AutoFormatOnSave.Package.TimerOnTick: on a pass, the contract states the snapshot
  and the final scheduler state. The calls made on the editor are stated on
  `ReformatDocuments`, not repeated here.
