/** The orders in which a reformat pass visits the pending documents: the pending
    map ordered by save time, and the processing order built from it, in which the
    document the user is looking at comes last. */
module Ordering {
  import opened Documents

  function Elems(s: seq<Document>): (r: set<Document>) {
    set d | d in s
  }

  lemma ElemsStep(s: seq<Document>, d: Document)
    ensures Elems(s + [d]) == Elems(s) + {d}
  {
  }

  predicate Distinct(s: seq<Document>) {
    forall i, j :: 0 <= i < j < |s| ==> s[i] != s[j]
  }

  /** Every document of `s` has a save time in `saves`, and the save times never decrease along `s`. */
  ghost predicate SortedBySaveTime(s: seq<Document>, saves: map<Document, int>) {
    && (forall i :: 0 <= i < |s| ==> s[i] in saves)
    && (forall i, j :: 0 <= i < j < |s| ==> saves[s[i]] <= saves[s[j]])
  }

  /** `s` lists every key of `saves` exactly once, oldest save first: what ordering
      the pending map by its timestamps yields. */
  ghost predicate IsSaveOrder(s: seq<Document>, saves: map<Document, int>) {
    && Distinct(s)
    && SortedBySaveTime(s, saves)
    && (forall d :: d in saves ==> d in s)
  }

  /** Every non-empty set of pending documents has one whose save is oldest. */
  lemma {:induction false} EarliestExists(keys: set<Document>, saves: map<Document, int>)
    requires keys != {} && keys <= saves.Keys
    ensures exists d :: d in keys && forall e :: e in keys ==> saves[d] <= saves[e]
  {
    var x :| x in keys;
    if keys == {x} {
      assert forall e :: e in keys ==> e == x;
    } else {
      var rest := keys - {x};
      EarliestExists(rest, saves);
      var y :| y in rest && forall e :: e in rest ==> saves[y] <= saves[e];
      if saves[x] <= saves[y] {
        assert forall e :: e in keys ==> saves[x] <= saves[e];
      } else {
        assert forall e :: e in keys ==> saves[y] <= saves[e];
      }
    }
  }

  /** Orders the pending map by save time. Among documents saved at the same
      instant the order is left open, as the dictionary's enumeration order is. */
  method OrderBySaveTime(saves: map<Document, int>) returns (s: seq<Document>)
    ensures IsSaveOrder(s, saves)
  {
    s := [];
    var rest := saves.Keys;
    while rest != {}
      invariant rest <= saves.Keys
      invariant Distinct(s) && SortedBySaveTime(s, saves)
      invariant forall d :: d in saves ==> (d in s <==> d !in rest)
      invariant forall i, d :: 0 <= i < |s| && d in rest ==> saves[s[i]] <= saves[d]
      decreases rest
    {
      EarliestExists(rest, saves);
      var d :| d in rest && forall e :: e in rest ==> saves[d] <= saves[e];
      s := s + [d];
      rest := rest - {d};
    }
  }

  /** The first document of a save order is one whose save is oldest. */
  lemma SaveOrderStartsWithEarliest(s: seq<Document>, saves: map<Document, int>)
    requires IsSaveOrder(s, saves) && s != []
    ensures s[0] in saves && forall d :: d in saves ==> saves[s[0]] <= saves[d]
  {
    forall d | d in saves ensures saves[s[0]] <= saves[d] {
      var j :| 0 <= j < |s| && s[j] == d;
      if j > 0 { assert saves[s[0]] <= saves[s[j]]; }
    }
  }

  /** Dropping the first document of a save order leaves a save order of the rest. */
  lemma SaveOrderTail(s: seq<Document>, saves: map<Document, int>)
    requires IsSaveOrder(s, saves) && s != []
    ensures IsSaveOrder(s[1..], saves - {s[0]})
  {
    var tail, rest := s[1..], saves - {s[0]};
    forall d | d in rest ensures d in tail {
      var a :| 0 <= a < |s| && s[a] == d;
      assert tail[a - 1] == d;
    }
    forall i, j | 0 <= i < j < |tail| ensures rest[tail[i]] <= rest[tail[j]] {
      assert tail[i] == s[i + 1] && tail[j] == s[j + 1];
    }
  }

  /** When no two documents were saved at the same instant, the save order is unique. */
  lemma {:induction false} SaveOrderDetermined(s: seq<Document>, t: seq<Document>, saves: map<Document, int>)
    requires IsSaveOrder(s, saves) && IsSaveOrder(t, saves)
    requires forall d, e :: d in saves && e in saves && d != e ==> saves[d] != saves[e]
    ensures s == t
    decreases |s|
  {
    if s == [] {
      assert t == [] by { assert forall d :: d !in saves; }
    } else {
      assert s[0] in saves;
      assert t != [];
      SaveOrderStartsWithEarliest(s, saves);
      SaveOrderStartsWithEarliest(t, saves);
      assert s[0] == t[0];
      SaveOrderTail(s, saves);
      SaveOrderTail(t, saves);
      SaveOrderDetermined(s[1..], t[1..], saves - {s[0]});
      assert s == [s[0]] + s[1..] && t == [t[0]] + t[1..];
    }
  }

  /** LINQ's `Except`: the elements of `s` that are not in `excluded`, each once,
      in the order of their first occurrence. */
  function Except(s: seq<Document>, excluded: set<Document>): (r: seq<Document>)
    ensures Distinct(r)
    ensures forall d :: d in r <==> d in s && d !in excluded
    decreases |s|
  {
    if s == [] then []
    else if s[0] in excluded then Except(s[1..], excluded)
    else [s[0]] + Except(s[1..], excluded + {s[0]})
  }

  /** `Except` keeps the relative order of what it keeps, so a list sorted by save
      time stays sorted. */
  lemma {:induction false} ExceptKeepsSaveOrder(s: seq<Document>, excluded: set<Document>, saves: map<Document, int>)
    requires SortedBySaveTime(s, saves)
    ensures SortedBySaveTime(Except(s, excluded), saves)
    decreases |s|
  {
    if s != [] {
      var tail := s[1..];
      assert SortedBySaveTime(tail, saves) by {
        forall i, j | 0 <= i < j < |tail| ensures saves[tail[i]] <= saves[tail[j]] {
          assert tail[i] == s[i + 1] && tail[j] == s[j + 1];
        }
      }
      if s[0] in excluded {
        ExceptKeepsSaveOrder(tail, excluded, saves);
      } else {
        var r := Except(tail, excluded + {s[0]});
        ExceptKeepsSaveOrder(tail, excluded + {s[0]}, saves);
        forall i | 0 <= i < |r| ensures saves[s[0]] <= saves[r[i]] {
          assert r[i] in tail;
          var k :| 0 <= k < |tail| && tail[k] == r[i];
          assert s[k + 1] == r[i];
        }
        var out := [s[0]] + r;
        forall i, j | 0 <= i < j < |out| ensures saves[out[i]] <= saves[out[j]] {
          if i > 0 { assert out[i] == r[i - 1] && out[j] == r[j - 1]; }
        }
      }
    }
  }

  /** `Except` removes nothing from a list without duplicates none of whose
      elements is excluded. */
  lemma {:induction false} ExceptOfDistinct(s: seq<Document>, excluded: set<Document>)
    requires Distinct(s) && forall i :: 0 <= i < |s| ==> s[i] !in excluded
    ensures Except(s, excluded) == s
    decreases |s|
  {
    if s != [] {
      var tail := s[1..];
      assert Distinct(tail) by {
        forall i, j | 0 <= i < j < |tail| ensures tail[i] != tail[j] {
          assert tail[i] == s[i + 1] && tail[j] == s[j + 1];
        }
      }
      forall i | 0 <= i < |tail| ensures tail[i] !in excluded + {s[0]} {
        assert tail[i] == s[i + 1];
      }
      ExceptOfDistinct(tail, excluded + {s[0]});
      assert s == [s[0]] + tail;
    }
  }

  /** The set holding the originally active document, if there is one. */
  function ActiveSet(active: Option<Document>): (r: set<Document>) {
    if active.Some? then {active.value} else {}
  }

  /** The order of one pass: `documents` without the originally active document,
      then that document, last, when it is in `pending`. */
  function ProcessingOrder(documents: seq<Document>, active: Option<Document>, pending: set<Document>): (r: seq<Document>)
    ensures Distinct(r)
    ensures forall d :: d in r <==> (d in documents && active != Some(d)) || (active == Some(d) && d in pending)
    ensures active.Some? && active.value in pending ==> r != [] && r[|r| - 1] == active.value
  {
    var rest := Except(documents, ActiveSet(active));
    var tail := if active.Some? && active.value in pending then [active.value] else [];
    var r := rest + tail;
    assert forall i :: 0 <= i < |rest| ==> active != Some(rest[i]);
    r
  }

  /** When the active window shows no document (there is none, or it is a tool
      window), the pass visits the snapshot exactly in save order. */
  lemma NoActiveDocumentKeepsSaveOrder(snapshot: seq<Document>, saves: map<Document, int>, window: Option<Window>)
    requires IsSaveOrder(snapshot, saves)
    requires window.None? || window.value.ToolWindow?
    ensures ProcessingOrder(snapshot, DocumentOf(window), saves.Keys) == snapshot
  {
    ExceptOfDistinct(snapshot, {});
  }

  /** The processing order of a snapshot of the pending map visits every pending
      document exactly once and no other, and visits all of them but the
      originally active one oldest save first. */
  lemma ProcessingOrderOfSnapshot(snapshot: seq<Document>, saves: map<Document, int>, active: Option<Document>)
    requires IsSaveOrder(snapshot, saves)
    ensures var r := ProcessingOrder(snapshot, active, saves.Keys);
      && Distinct(r)
      && Elems(r) == saves.Keys
      && forall i, j :: 0 <= i < j < |r| && active != Some(r[j]) ==> saves[r[i]] <= saves[r[j]]
  {
    var r := ProcessingOrder(snapshot, active, saves.Keys);
    var rest := Except(snapshot, ActiveSet(active));
    ExceptKeepsSaveOrder(snapshot, ActiveSet(active), saves);
    assert r == rest + (if active.Some? && active.value in saves.Keys then [active.value] else []);
    forall i, j | 0 <= i < j < |r| && active != Some(r[j]) ensures saves[r[i]] <= saves[r[j]] {
      assert j < |rest|;
      assert r[i] == rest[i] && r[j] == rest[j];
    }
  }
}
