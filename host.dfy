/** The editor the package drives through its automation interface: which window
    is active, which documents have unsaved changes, whether the debugger runs,
    and the cleanup command. Every call the package makes on it is recorded in a
    ghost log, so that what a reformat pass did can be stated and proved. */
module Host {
  import opened Documents
  import opened Ordering

  /** What running the silent cleanup command on the active document came to:
      it threw, or it completed and did or did not change the document. */
  datatype CommandOutcome = Threw | Completed(changedDocument: bool)

  /** One call of the package into the editor. */
  datatype Effect =
    | Activated(document: Document)
    | RanCleanup(target: Option<Document>, outcome: CommandOutcome)
    | Saved(document: Document)
    | Reactivated(window: Window)

  class Editor {
    /** The IDE is in debug mode. */
    var debugging: bool
    var activeWindow: Option<Window>
    /** The documents with changes not yet written to disk. */
    var unsaved: set<Document>
    ghost var log: seq<Effect>

    constructor (debugging: bool, activeWindow: Option<Window>, unsaved: set<Document>)
      ensures this.debugging == debugging && this.activeWindow == activeWindow && this.unsaved == unsaved
      ensures log == []
    {
      this.debugging := debugging;
      this.activeWindow := activeWindow;
      this.unsaved := unsaved;
      log := [];
    }

    predicate IsSaved(d: Document)
      reads this
    {
      d !in unsaved
    }

    /** Brings the window of `d` to the front. */
    method ActivateDocument(d: Document)
      modifies this`activeWindow, this`log
      ensures activeWindow == Some(DocumentWindow(d))
      ensures log == old(log) + [Activated(d)]
    {
      activeWindow := Some(DocumentWindow(d));
      log := log + [Activated(d)];
    }

    /** Runs the silent cleanup command, which works on the active document. */
    method ExecuteCleanup(outcome: CommandOutcome)
      modifies this`unsaved, this`log
      ensures var target := DocumentOf(activeWindow);
        && unsaved == (if outcome == Completed(true) && target.Some? then old(unsaved) + {target.value} else old(unsaved))
        && log == old(log) + [RanCleanup(target, outcome)]
    {
      var target := DocumentOf(activeWindow);
      if outcome == Completed(true) && target.Some? {
        unsaved := unsaved + {target.value};
      }
      log := log + [RanCleanup(target, outcome)];
    }

    method Save(d: Document)
      modifies this`unsaved, this`log
      ensures unsaved == old(unsaved) - {d}
      ensures log == old(log) + [Saved(d)]
    {
      unsaved := unsaved - {d};
      log := log + [Saved(d)];
    }

    method ActivateWindow(w: Window)
      modifies this`activeWindow, this`log
      ensures activeWindow == Some(w)
      ensures log == old(log) + [Reactivated(w)]
    {
      activeWindow := Some(w);
      log := log + [Reactivated(w)];
    }
  }

  /** The calls of a pass's first loop over `order`: each document is activated,
      then the cleanup command runs on it, whatever the previous one came to. */
  function AttemptEffects(order: seq<Document>, outcomes: Document -> CommandOutcome): (r: seq<Effect>)
    ensures |r| == 2 * |order|
  {
    if order == [] then []
    else
      var last := order[|order| - 1];
      AttemptEffects(order[..|order| - 1], outcomes) + [Activated(last), RanCleanup(Some(last), outcomes(last))]
  }

  /** The `k`-th document of the order is activated at position `2k` of the calls,
      and the cleanup command runs on it right after, at `2k + 1`. */
  lemma {:induction false} AttemptEffectsAt(order: seq<Document>, outcomes: Document -> CommandOutcome, k: nat)
    requires k < |order|
    ensures var r := AttemptEffects(order, outcomes);
      r[2 * k] == Activated(order[k]) && r[2 * k + 1] == RanCleanup(Some(order[k]), outcomes(order[k]))
    decreases |order|
  {
    var prefix := order[..|order| - 1];
    if k < |order| - 1 {
      AttemptEffectsAt(prefix, outcomes, k);
      assert AttemptEffects(order, outcomes)[..2 * |prefix|] == AttemptEffects(prefix, outcomes);
    }
  }

  lemma AttemptEffectsStep(order: seq<Document>, d: Document, outcomes: Document -> CommandOutcome)
    ensures AttemptEffects(order + [d], outcomes) == AttemptEffects(order, outcomes) + [Activated(d), RanCleanup(Some(d), outcomes(d))]
  {
    assert (order + [d])[..|order|] == order;
  }

  predicate IsAttemptOn(e: Effect, d: Document) {
    e.RanCleanup? && e.target == Some(d)
  }

  /** How many times the cleanup command ran on `d`. */
  function Attempts(log: seq<Effect>, d: Document): (r: nat) {
    if log == [] then 0
    else Attempts(log[..|log| - 1], d) + (if IsAttemptOn(log[|log| - 1], d) then 1 else 0)
  }

  lemma {:induction false} AttemptsOfConcat(a: seq<Effect>, b: seq<Effect>, d: Document)
    ensures Attempts(a + b, d) == Attempts(a, d) + Attempts(b, d)
    decreases |b|
  {
    if b != [] {
      assert (a + b)[..|a + b| - 1] == a + b[..|b| - 1];
      AttemptsOfConcat(a, b[..|b| - 1], d);
    } else {
      assert a + b == a;
    }
  }

  /** The cleanup command runs exactly once on each document of the order, and on
      no other, whatever each run comes to: a failure does not stop the rest. */
  lemma {:induction false} OneAttemptEach(order: seq<Document>, outcomes: Document -> CommandOutcome, d: Document)
    requires Distinct(order)
    ensures Attempts(AttemptEffects(order, outcomes), d) == if d in order then 1 else 0
    decreases |order|
  {
    if order != [] {
      var prefix, last := order[..|order| - 1], order[|order| - 1];
      assert order == prefix + [last];
      OneAttemptEach(prefix, outcomes, d);
      var tail := [Activated(last), RanCleanup(Some(last), outcomes(last))];
      AttemptsOfConcat(AttemptEffects(prefix, outcomes), tail, d);
      assert tail[..1] == [Activated(last)] && [Activated(last)][..0] == [];
      assert Attempts([Activated(last)], d) == 0;
      assert Attempts(tail, d) == Attempts(tail[..1], d) + (if IsAttemptOn(tail[1], d) then 1 else 0);
      assert d == last ==> d !in prefix;
    }
  }

  /** The documents of `order` that the cleanup command changed. */
  function Dirtied(order: seq<Document>, outcomes: Document -> CommandOutcome): (r: set<Document>)
    ensures r <= Elems(order)
  {
    set d | d in order && outcomes(d) == Completed(true)
  }

  lemma DirtiedStep(order: seq<Document>, d: Document, outcomes: Document -> CommandOutcome)
    ensures Dirtied(order + [d], outcomes) == Dirtied(order, outcomes) + (if outcomes(d) == Completed(true) then {d} else {})
  {
  }

  lemma ResaveEffectsStep(order: seq<Document>, d: Document, unsaved: set<Document>)
    ensures ResaveEffects(order + [d], unsaved) == ResaveEffects(order, unsaved) + (if d in unsaved then [Saved(d)] else [])
  {
    assert (order + [d])[..|order|] == order;
  }

  /** The calls of a pass's re-save loop over `order`: a save of each document
      that has unsaved changes. */
  function ResaveEffects(order: seq<Document>, unsaved: set<Document>): (r: seq<Effect>)
    ensures forall k :: 0 <= k < |r| ==> r[k].Saved?
    ensures forall d :: Saved(d) in r <==> d in order && d in unsaved
  {
    if order == [] then []
    else
      var last := order[|order| - 1];
      ResaveEffects(order[..|order| - 1], unsaved) + (if last in unsaved then [Saved(last)] else [])
  }
}
