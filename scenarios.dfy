/** Short runs of the package from a fresh start, each stating what the
    scheduler is meant to do across several events. */
module Scenarios {
  import opened Documents
  import opened Ordering
  import opened Host
  import opened AutoFormatOnSave

  /** A package attached to an editor that is not debugging, shows no window and
      has nothing unsaved: the cleanup command exists, so its events are
      subscribed and its timer runs; a solution is open. */
  method OpenPackage() returns (p: Package)
    ensures fresh(p) && fresh(p.dte) && p.Valid()
    ensures p.allowedFileExtensions == AllowedFileExtensions
    ensures p.pending == map[] && p.buildingSolution == 0 && p.lastReformat == 0
    ensures !p.isReformatting && p.solutionIsActive && p.timerRunning
    ensures !p.dte.debugging && p.dte.activeWindow == None && p.dte.unsaved == {}
  {
    var dte := new Editor(false, None, {});
    p := new Package(dte);
    p.InitializeAddIn(true);
    p.OnOpenedSolution();
  }

  /** A build's begin and end of the same action leave the build depth where it was. */
  method BuildPairRestoresDepth(depth: int, action: BuildAction) returns (after: int)
    ensures after == depth
  {
    var p := OpenPackage();
    p.buildingSolution := depth;
    p.OnBuildBegin(action);
    p.OnBuildDone(action);
    after := p.buildingSolution;
  }

  /** A save of a document whose extension is not in the list (an upper-case
      spelling of an allowed one among them) is not recorded. */
  method DisallowedSaveIsIgnored(d: Document, now: int) returns (recorded: bool)
    requires d.extension !in AllowedFileExtensions
    ensures !recorded
  {
    var p := OpenPackage();
    p.OnDocumentSaved(d, now);
    recorded := d in p.pending;
  }

  /** The comparison of extensions is case-sensitive: ".CS" is not ".cs". */
  method UpperCaseExtensionIsIgnored(id: nat, now: int) returns (recorded: bool)
    ensures !recorded
  {
    recorded := DisallowedSaveIsIgnored(Document(id, ".CS"), now);
  }

  /** A save made while a build runs is not recorded. */
  method SaveDuringBuildIsDropped(d: Document, now: int) returns (recorded: bool)
    ensures !recorded
  {
    var p := OpenPackage();
    p.OnBuildBegin(Build);
    p.OnDocumentSaved(d, now);
    recorded := d in p.pending;
  }

  /** A build end that was never matched by a begin (the package was attached
      mid-build) takes the depth below zero, so the next build goes unseen and a
      save made during it is recorded. */
  method UnmatchedBuildEndHidesNextBuild(d: Document, now: int) returns (depth: int, recorded: bool)
    requires d.extension in AllowedFileExtensions
    ensures depth == 0 && recorded
  {
    var p := OpenPackage();
    p.OnBuildDone(Build);
    p.OnBuildBegin(Build);
    depth := p.buildingSolution;
    p.OnDocumentSaved(d, now);
    recorded := d in p.pending;
  }

  /** Two saves of the same document leave one entry, holding the later time;
      closing the document then forgets it. */
  method ResaveReplacesThenCloseForgets(d: Document, first: int, second: int)
    returns (entries: nat, time: int, afterClose: bool)
    requires d.extension in AllowedFileExtensions
    ensures entries == 1 && time == second && !afterClose
  {
    var p := OpenPackage();
    p.OnDocumentSaved(d, first);
    p.OnDocumentSaved(d, second);
    assert p.pending == map[d := second];
    entries := |p.pending|;
    time := p.pending[d];
    p.OnDocumentClosing(d);
    afterClose := d in p.pending;
  }

  /** Two documents saved at different times have one save order: the older first. */
  lemma OnlyOrderOfTwo(a: Document, b: Document, ta: int, tb: int, s: seq<Document>)
    requires a != b && ta < tb && IsSaveOrder(s, map[a := ta, b := tb])
    ensures s == [a, b]
  {
    var saves := map[a := ta, b := tb];
    assert IsSaveOrder([a, b], saves);
    SaveOrderDetermined(s, [a, b], saves);
  }

  /** Two documents saved half a second apart, the tick one interval after the
      later save: the pass visits the older save first. */
  method OldestSaveFirst(outcomes: Document -> CommandOutcome) returns (outcome: TickOutcome)
    ensures outcome.Reformatted? && outcome.snapshot == [Document(1, ".cs"), Document(2, ".xaml")]
  {
    var a, b := Document(1, ".cs"), Document(2, ".xaml");
    var p := OpenPackage();
    p.OnDocumentSaved(a, 10000);
    p.OnDocumentSaved(b, 10500);
    ghost var saves := p.pending;
    assert saves == map[a := 10000, b := 10500];
    assert SavedEntries(saves, {}) == saves;
    assert !Settling(saves, 11500);
    outcome := p.TimerOnTick(11500, true, outcomes, None);
    OnlyOrderOfTwo(a, b, 10000, 10500, outcome.snapshot);
  }

  /** A save recorded within the cooldown of a pass is dropped by the next tick,
      even after it has settled. */
  method CooldownDropsLaterSave(outcomes: Document -> CommandOutcome) returns (first: TickOutcome, second: TickOutcome, left: nat)
    ensures first.Reformatted? && second == CooledDown && left == 0
  {
    var a, b := Document(1, ".cs"), Document(2, ".ts");
    var p := OpenPackage();
    p.OnDocumentSaved(a, 10000);
    assert p.pending == map[a := 10000];
    assert SavedEntries(p.pending, p.dte.unsaved) == p.pending;
    assert !Settling(p.pending, 11000);
    first := p.TimerOnTick(11000, true, outcomes, None);
    p.OnDocumentSaved(b, 12000);
    second := p.TimerOnTick(14000, true, outcomes, None);
    left := |p.pending|;
  }
}
