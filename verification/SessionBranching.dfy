/** Extracting one path of a session into a session of its own, by branching or by export. */
module SessionBranching {
  import opened Messages
  import opened Sequences
  import opened SessionLog
  import opened SessionContext

  function WithoutLabels(path: seq<Entry>): seq<Entry>
  {
    if path == [] then []
    else WithoutLabels(Front(path)) + (if Last(path).body.Label? then [] else [Last(path)])
  }

  function Ids(path: seq<Entry>): set<Id>
  {
    set i | 0 <= i < |path| :: path[i].id
  }

  /** The labelled entries to carry over, in the order the label index lists them. */
  function Kept(order: seq<Id>, ids: set<Id>): seq<Id>
  {
    if order == [] then []
    else Kept(Front(order), ids) + (if Last(order) in ids then [Last(order)] else [])
  }

  /** New label entries, one below the other, the first one below `parent`. */
  function LabelChain(targets: seq<Id>, labels: map<Id, string>, times: map<Id, int>, ids: seq<Id>, parent: Option<Id>)
    : (chain: seq<Entry>)
    requires |targets| <= |ids|
    requires forall t | t in targets :: t in labels && t in times
    ensures |chain| == |targets|
  {
    if targets == [] then []
    else
      var front := LabelChain(Front(targets), labels, times, ids, parent);
      var target := Last(targets);
      front + [Entry(ids[|targets| - 1], if front == [] then parent else Some(Last(front).id), times[target],
                     Label(target, Some(labels[target])))]
  }

  /** The log of the branched session. */
  function Branched(path: seq<Entry>, order: seq<Id>, labels: map<Id, string>, times: map<Id, int>, ids: seq<Id>)
    : seq<Entry>
    requires |order| <= |ids|
    requires forall t | t in order :: t in labels && t in times
  {
    var kept := WithoutLabels(path);
    KeptSubset(order, Ids(kept));
    kept + LabelChain(Kept(order, Ids(kept)), labels, times, ids, LastId(kept))
  }

  lemma {:induction false} KeptSubset(order: seq<Id>, ids: set<Id>)
    ensures |Kept(order, ids)| <= |order|
    ensures forall t :: t in Kept(order, ids) <==> t in order && t in ids
    ensures ids == {} ==> Kept(order, ids) == []
  {
    if order != [] {
      KeptSubset(Front(order), ids);
      assert forall t :: t in order <==> t in Front(order) || t == Last(order);
    }
  }

  /** They come in the order of the index. */
  lemma {:induction false} KeptConcat(a: seq<Id>, b: seq<Id>, ids: set<Id>)
    ensures Kept(a + b, ids) == Kept(a, ids) + Kept(b, ids)
  {
    if b == [] {
      assert a + b == a;
    } else {
      KeptConcat(a, Front(b), ids);
      FrontOfConcat(a, b);
    }
  }

  /** The new label entries repeat these labels one by one. */
  lemma {:induction false} ChainRepeats(targets: seq<Id>, labels: map<Id, string>, times: map<Id, int>, ids: seq<Id>,
                                        parent: Option<Id>, i: nat)
    requires i < |targets| <= |ids| && forall t | t in targets :: t in labels && t in times
    ensures LabelChain(targets, labels, times, ids, parent)[i]
         == Entry(ids[i], if i == 0 then parent else Some(ids[i - 1]), times[targets[i]],
                  Label(targets[i], Some(labels[targets[i]])))
  {
    if i < |targets| - 1 {
      ChainRepeats(Front(targets), labels, times, ids, parent, i);
    } else if i > 0 {
      ChainRepeats(Front(targets), labels, times, ids, parent, i - 1);
    }
  }

  /** Ids the session has never mentioned, all different. */
  ghost predicate FreshIds(path: seq<Entry>, ids: seq<Id>)
  {
    && (forall i, j | 0 <= i < j < |ids| :: ids[i] != ids[j])
    && (forall i | 0 <= i < |ids| :: Unused(path, ids[i]))
  }

  lemma {:induction false} WithoutLabelsSubset(path: seq<Entry>)
    ensures forall e :: e in WithoutLabels(path) <==> e in path && !e.body.Label?
    ensures |WithoutLabels(path)| <= |path|
  {
    if path != [] {
      WithoutLabelsSubset(Front(path));
      assert forall e :: e in path <==> e in Front(path) || e == Last(path);
    }
  }

  lemma UnusedSubset(es: seq<Entry>, sub: seq<Entry>, id: Id)
    requires Unused(es, id) && forall e | e in sub :: e in es
    ensures Unused(sub, id)
  {
    forall i | 0 <= i < |sub| ensures sub[i].id != id && sub[i].parentId != Some(id) {
      assert sub[i] in sub;
      var k :| 0 <= k < |es| && es[k] == sub[i];
    }
  }

  lemma {:induction false} WithoutLabelsOrdered(path: seq<Entry>)
    requires Ordered(path)
    ensures Ordered(WithoutLabels(path))
  {
    if path != [] {
      WithoutLabelsOrdered(Front(path));
      WithoutLabelsSubset(Front(path));
      UnusedSubset(Front(path), WithoutLabels(Front(path)), Last(path).id);
      assert path[|path| - 1].parentId != Some(path[|path| - 1].id);
      if !Last(path).body.Label? {
        OrderedAppend(WithoutLabels(Front(path)), Last(path));
      }
    }
  }

  // ---------------------------------------------------------------------------------------------
  // The path survives unless a label interrupts it
  // ---------------------------------------------------------------------------------------------

  /** A label entry lies between two other entries. */
  ghost predicate Interrupted(path: seq<Entry>)
  {
    exists i, j, k ::
      0 <= i < j < k < |path| && !path[i].body.Label? && path[j].body.Label? && !path[k].body.Label?
  }

  /** A label entry lies after another entry. */
  ghost predicate LabelAfterEntry(path: seq<Entry>)
  {
    exists i, j :: 0 <= i < j < |path| && !path[i].body.Label? && path[j].body.Label?
  }

  lemma InterruptedBefore(front: seq<Entry>, x: Entry)
    requires Interrupted(front + [x])
    ensures Interrupted(front) || (!x.body.Label? && LabelAfterEntry(front))
  {
    var path := front + [x];
    var i, j, k :| 0 <= i < j < k < |path| && !path[i].body.Label? && path[j].body.Label? && !path[k].body.Label?;
    assert !front[i].body.Label? && front[j].body.Label?;
    if k < |front| { assert !front[k].body.Label?; }
  }

  lemma InterruptedSnoc(front: seq<Entry>, x: Entry)
    ensures Interrupted(front + [x]) <==> Interrupted(front) || (!x.body.Label? && LabelAfterEntry(front))
  {
    if Interrupted(front + [x]) {
      InterruptedBefore(front, x);
    }
    if Interrupted(front) || (!x.body.Label? && LabelAfterEntry(front)) {
      InterruptedAfter(front, x);
    }
  }

  lemma InterruptedAfter(front: seq<Entry>, x: Entry)
    requires Interrupted(front) || (!x.body.Label? && LabelAfterEntry(front))
    ensures Interrupted(front + [x])
  {
    var path := front + [x];
    if Interrupted(front) {
      var i, j, k :| 0 <= i < j < k < |front| && !front[i].body.Label? && front[j].body.Label? && !front[k].body.Label?;
      assert !path[i].body.Label? && path[j].body.Label? && !path[k].body.Label?;
    } else {
      var i, j :| 0 <= i < j < |front| && !front[i].body.Label? && front[j].body.Label?;
      assert !path[i].body.Label? && path[j].body.Label? && !path[|front|].body.Label?;
    }
  }

  lemma LinkedSnoc(kept: seq<Entry>, x: Entry)
    ensures Linked(kept + [x]) <==> Linked(kept) && (kept == [] || x.parentId == Some(Last(kept).id))
  {
    var all := kept + [x];
    if Linked(all) {
      forall i | 0 < i < |kept| ensures kept[i].parentId == Some(kept[i - 1].id) {
        assert all[i].parentId == Some(all[i - 1].id);
      }
      if kept != [] { assert all[|kept|].parentId == Some(all[|kept| - 1].id); }
    }
  }

  /** Below a label, an entry is linked to the previous kept one only if there is none. */
  lemma LabelAfterEntryCases(front: seq<Entry>)
    requires front != [] && Distinct(front)
    ensures Last(front).body.Label? ==> (LabelAfterEntry(front) <==> WithoutLabels(front) != [])
    ensures Last(front).body.Label? && WithoutLabels(front) != [] ==> Last(WithoutLabels(front)).id != Last(front).id
    ensures !Last(front).body.Label? ==> (LabelAfterEntry(front) <==> Interrupted(front))
  {
    var kept, n := WithoutLabels(front), |front| - 1;
    WithoutLabelsSubset(front);
    if kept != [] {
      assert Last(kept) in kept;
      var i :| 0 <= i < |front| && front[i] == Last(kept);
      if front[n].body.Label? { assert !front[i].body.Label? && front[n].body.Label?; }
    }
    if LabelAfterEntry(front) {
      var i, j :| 0 <= i < j < |front| && !front[i].body.Label? && front[j].body.Label?;
      assert front[i] in kept;
      if !front[n].body.Label? { assert !front[i].body.Label? && front[j].body.Label? && !front[n].body.Label?; }
    }
  }

  lemma {:induction false} LinkedUnlessInterrupted(path: seq<Entry>)
    requires Linked(path) && Distinct(path)
    ensures Linked(WithoutLabels(path)) <==> !Interrupted(path)
  {
    if path != [] {
      var front, x := Front(path), Last(path);
      LinkedUnlessInterrupted(front);
      assert path == front + [x];
      InterruptedSnoc(front, x);
      if !x.body.Label? {
        LinkedSnoc(WithoutLabels(front), x);
        if front != [] {
          assert path[|path| - 1].parentId == Some(path[|path| - 2].id);
          LabelAfterEntryCases(front);
        }
      } else {
        assert WithoutLabels(path) == WithoutLabels(front);
      }
    }
  }

  /** Appending the label chain keeps the log ordered and, when it hangs on the last entry, linked. */
  lemma {:induction false} ChainShape(
    path: seq<Entry>, kept: seq<Entry>, targets: seq<Id>, labels: map<Id, string>, times: map<Id, int>, ids: seq<Id>)
    requires |targets| <= |ids| && forall t | t in targets :: t in labels && t in times
    requires FreshIds(path, ids) && Ordered(kept) && forall e | e in kept :: e in path
    requires kept == [] ==> targets == []
    ensures var chain := LabelChain(targets, labels, times, ids, LastId(kept));
            && Ordered(kept + chain)
            && (Linked(kept) ==> Linked(kept + chain))
            && (forall i | 0 <= i < |chain| :: chain[i].body.Label? && chain[i].id == ids[i])
            && (forall i | |targets| <= i < |ids| :: Unused(kept + chain, ids[i]))
  {
    var chain := LabelChain(targets, labels, times, ids, LastId(kept));
    if targets == [] {
      assert kept + chain == kept;
      forall i | |targets| <= i < |ids| ensures Unused(kept + chain, ids[i]) {
        UnusedSubset(path, kept, ids[i]);
      }
    } else {
      var n := |targets| - 1;
      ChainShape(path, kept, Front(targets), labels, times, ids);
      var shorter := kept + LabelChain(Front(targets), labels, times, ids, LastId(kept));
      assert Unused(shorter, ids[n]);
      assert kept + chain == shorter + [Last(chain)];
      assert Last(chain).parentId == Some(Last(shorter).id);
      OrderedAppend(shorter, Last(chain));
    }
  }

  lemma BranchedShape(
    path: seq<Entry>, order: seq<Id>, labels: map<Id, string>, times: map<Id, int>, ids: seq<Id>)
    requires |order| <= |ids| && forall t | t in order :: t in labels && t in times
    requires FreshIds(path, ids) && Ordered(path)
    ensures var b := Branched(path, order, labels, times, ids);
            && Ordered(b)
            && (Linked(WithoutLabels(path)) <==> Linked(b))
            && WithoutLabels(path) <= b
            && forall i | |WithoutLabels(path)| <= i < |b| :: b[i].body.Label?
  {
    var kept := WithoutLabels(path);
    WithoutLabelsOrdered(path);
    WithoutLabelsSubset(path);
    KeptSubset(order, Ids(kept));
    ChainShape(path, kept, Kept(order, Ids(kept)), labels, times, ids);
    var b := Branched(path, order, labels, times, ids);
    assert forall i | 0 <= i < |kept| :: b[i] == kept[i];
  }

  /** The new session's path holds all of its log exactly when no label interrupts the old path. */
  lemma BranchKeepsPath(
    path: seq<Entry>, order: seq<Id>, labels: map<Id, string>, times: map<Id, int>, ids: seq<Id>)
    requires |order| <= |ids| && forall t | t in order :: t in labels && t in times
    requires FreshIds(path, ids) && Ordered(path) && Linked(path)
    ensures var b := Branched(path, order, labels, times, ids);
            Ancestry(b, LastId(b)) == b <==> !Interrupted(path)
  {
    var b := Branched(path, order, labels, times, ids);
    BranchedShape(path, order, labels, times, ids);
    LinkedUnlessInterrupted(path);
    if Linked(b) {
      AncestryOfChain(b);
    }
    AncestryShape(b, LastId(b));
  }

  // ---------------------------------------------------------------------------------------------
  // Then so does the context, unless a compaction keeps from a label
  // ---------------------------------------------------------------------------------------------

  /** The last compaction keeps from a label entry, and something visible follows that label. */
  predicate KeepsFromLabel(path: seq<Entry>)
  {
    match LastCompaction(path)
    case None => false
    case Some(c) =>
      var kept := From(path[..c], path[c].body.firstKeptEntryId);
      kept != [] && kept[0].body.Label? && Visible(kept) != []
  }

  lemma {:induction false} LabelsShowNothing(path: seq<Entry>)
    ensures Visible(WithoutLabels(path)) == Visible(path)
    ensures LevelOf(WithoutLabels(path)) == LevelOf(path) && ModelOf(WithoutLabels(path)) == ModelOf(path)
  {
    if path != [] {
      LabelsShowNothing(Front(path));
      if !Last(path).body.Label? {
        FrontOfAppend(WithoutLabels(Front(path)), Last(path));
      } else {
        assert WithoutLabels(path) == WithoutLabels(Front(path));
        assert Visible(path) == Visible(Front(path)) + [];
      }
    }
  }

  lemma {:induction false} WithoutLabelsConcat(a: seq<Entry>, b: seq<Entry>)
    ensures WithoutLabels(a + b) == WithoutLabels(a) + WithoutLabels(b)
  {
    if b == [] {
      assert a + b == a;
    } else {
      WithoutLabelsConcat(a, Front(b));
      assert Front(a + b) == a + Front(b);
    }
  }

  lemma {:induction false} FromAbsent(path: seq<Entry>, id: Id)
    requires !HasId(path, id)
    ensures From(path, id) == []
  {
    if path != [] {
      assert path[0].id != id;
      assert !HasId(path[1..], id) by {
        forall i | 0 <= i < |path[1..]| ensures path[1..][i].id != id {
          assert path[i + 1].id != id;
        }
      }
      FromAbsent(path[1..], id);
    }
  }

  /** Removing the labels first and cutting second loses what a cut at a label would have kept. */
  lemma {:induction false} FromWithoutLabels(path: seq<Entry>, id: Id)
    requires Distinct(path)
    ensures var kept := From(path, id);
            From(WithoutLabels(path), id)
            == if kept != [] && kept[0].body.Label? then [] else WithoutLabels(kept)
  {
    if path != [] {
      var rest := path[1..];
      assert path == [path[0]] + rest;
      WithoutLabelsConcat([path[0]], rest);
      assert WithoutLabels([path[0]]) == if path[0].body.Label? then [] else [path[0]] by {
        assert Front([path[0]]) == [];
      }
      WithoutLabelsSubset(rest);
      if path[0].id == id {
        assert !HasId(WithoutLabels(rest), id) by {
          forall i | 0 <= i < |WithoutLabels(rest)| ensures WithoutLabels(rest)[i].id != id {
            assert WithoutLabels(rest)[i] in WithoutLabels(rest);
            var k :| 0 <= k < |rest| && rest[k] == WithoutLabels(rest)[i];
            assert path[k + 1].id != path[0].id;
          }
        }
        if path[0].body.Label? {
          assert WithoutLabels(path) == WithoutLabels(rest);
          FromAbsent(WithoutLabels(rest), id);
        } else {
          assert WithoutLabels(path)[0] == path[0];
        }
      } else {
        FromWithoutLabels(rest, id);
        if path[0].body.Label? {
          assert WithoutLabels(path) == WithoutLabels(rest);
        } else {
          assert WithoutLabels(path)[1..] == WithoutLabels(rest);
        }
      }
    }
  }

  lemma LastCompactionSplit(a: seq<Entry>, e: Entry, b: seq<Entry>)
    requires e.body.Compaction? && forall i | 0 <= i < |b| :: !b[i].body.Compaction?
    ensures LastCompaction(a + [e] + b) == Some(|a|)
    ensures MessagesOf(a + [e] + b) == [Summary(e)] + Visible(From(a, e.body.firstKeptEntryId)) + Visible(b)
  {
    var path := a + [e] + b;
    assert path[|a|] == e;
    assert forall i | |a| < i < |path| :: path[i] == b[i - |a| - 1];
    assert path[..|a|] == a && path[|a| + 1..] == b;
  }

  lemma {:induction false} CompactionWithoutLabels(before: seq<Entry>, e: Entry, after: seq<Entry>)
    requires e.body.Compaction? && Distinct(before) && forall i | 0 <= i < |after| :: !after[i].body.Compaction?
    ensures var kept := From(before, e.body.firstKeptEntryId);
            MessagesOf(WithoutLabels(before + [e] + after)) == MessagesOf(before + [e] + after)
            <==> !(kept != [] && kept[0].body.Label? && Visible(kept) != [])
  {
    var id := e.body.firstKeptEntryId;
    LastCompactionSplit(before, e, after);
    WithoutLabelsConcat(before + [e], after);
    FrontOfAppend(before, e);
    assert WithoutLabels(before + [e] + after) == WithoutLabels(before) + [e] + WithoutLabels(after);
    WithoutLabelsSubset(after);
    forall i | 0 <= i < |WithoutLabels(after)| ensures !WithoutLabels(after)[i].body.Compaction? {
      assert WithoutLabels(after)[i] in after;
    }
    LastCompactionSplit(WithoutLabels(before), e, WithoutLabels(after));
    FromWithoutLabels(before, id);
    LabelsShowNothing(after);
    LabelsShowNothing(From(before, id));
    SameMiddle(Summary(e), Visible(From(WithoutLabels(before), id)), Visible(From(before, id)), Visible(after));
  }

  lemma ContextWithoutLabels(path: seq<Entry>)
    requires Distinct(path)
    ensures ContextOf(WithoutLabels(path)) == ContextOf(path) <==> !KeepsFromLabel(path)
  {
    LabelsShowNothing(path);
    MessagesWithoutLabels(path);
  }

  lemma UncompactedWithoutLabels(path: seq<Entry>)
    requires LastCompaction(path).None?
    ensures MessagesOf(WithoutLabels(path)) == MessagesOf(path)
  {
    LabelsShowNothing(path);
    UncompactedKept(path);
  }

  lemma {:induction false} UncompactedKept(path: seq<Entry>)
    requires LastCompaction(path).None?
    ensures LastCompaction(WithoutLabels(path)).None?
  {
    if path != [] {
      UncompactedKept(Front(path));
      if !Last(path).body.Label? {
        FrontOfAppend(WithoutLabels(Front(path)), Last(path));
      }
    }
  }

  lemma SplitAtEntry(path: seq<Entry>, c: nat) returns (before: seq<Entry>, after: seq<Entry>)
    requires Distinct(path) && c < |path| && forall i | c < i < |path| :: !path[i].body.Compaction?
    ensures before == path[..c] && after == path[c + 1..] && before + [path[c]] + after == path
    ensures Distinct(before) && forall i | 0 <= i < |after| :: !after[i].body.Compaction?
  {
    before, after := path[..c], path[c + 1..];
  }

  lemma MessagesWithoutLabels(path: seq<Entry>)
    requires Distinct(path)
    ensures MessagesOf(WithoutLabels(path)) == MessagesOf(path) <==> !KeepsFromLabel(path)
  {
    match LastCompaction(path) {
      case None => UncompactedWithoutLabels(path);
      case Some(c) =>
        var before, after := SplitAtEntry(path, c);
        CompactionWithoutLabels(before, path[c], after);
    }
  }

  lemma SameMiddle<T>(head: T, x: seq<T>, y: seq<T>, tail: seq<T>)
    requires x == y || x == []
    ensures [head] + x + tail == [head] + y + tail <==> x == y
  {
    if x != y {
      assert |[head] + x + tail| != |[head] + y + tail|;
    }
  }

  lemma {:induction false} TrailingLabels(kept: seq<Entry>, chain: seq<Entry>)
    requires forall i | 0 <= i < |chain| :: chain[i].body.Label?
    ensures ContextOf(kept + chain) == ContextOf(kept)
  {
    if chain == [] {
      assert kept + chain == kept;
    } else {
      TrailingLabels(kept, Front(chain));
      assert kept + chain == kept + Front(chain) + [Last(chain)];
      ContextGrows(kept + Front(chain), Last(chain));
      FrontOfAppend(kept + Front(chain), Last(chain));
    }
  }

  /**
   Branching preserves meaning. On a path no label interrupts, the new session has the same context
   as the old one at that leaf exactly when its last compaction does not keep from a label.
   */
  lemma BranchKeepsContext(
    path: seq<Entry>, order: seq<Id>, labels: map<Id, string>, times: map<Id, int>, ids: seq<Id>)
    requires |order| <= |ids| && forall t | t in order :: t in labels && t in times
    requires FreshIds(path, ids) && Ordered(path) && Linked(path) && !Interrupted(path)
    ensures var b := Branched(path, order, labels, times, ids);
            ContextOf(Ancestry(b, LastId(b))) == ContextOf(path) <==> !KeepsFromLabel(path)
  {
    var b := Branched(path, order, labels, times, ids);
    assert Ancestry(b, LastId(b)) == b by {
      BranchKeepsPath(path, order, labels, times, ids);
    }
    var kept := WithoutLabels(path);
    assert ContextOf(b) == ContextOf(kept) by {
      BranchedShape(path, order, labels, times, ids);
      TrailingLabels(kept, b[|kept|..]);
    }
    ContextWithoutLabels(path);
  }

  /** Where the new path starts instead: at the last entry whose parent was not carried over. */
  lemma {:induction false} BrokenPathIsSuffix(es: seq<Entry>, i: nat)
    requires Ordered(es) && i < |es| && Linked(es[i..])
    requires es[i].parentId.Some? ==> !HasId(es, es[i].parentId.value)
    ensures Ancestry(es, LastId(es)) == es[i..]
  {
    if i == |es| - 1 {
      if es[i].parentId.Some? {
        IndexDomain(Front(es), es[i].parentId.value);
        assert es[i].parentId.value !in Index(Front(es)) by {
          forall k | 0 <= k < |Front(es)| ensures Front(es)[k].id != es[i].parentId.value {
            assert es[k].id != es[i].parentId.value;
          }
        }
        AncestryMissing(Front(es), es[i].parentId.value);
      }
    } else {
      assert es[i..][|es| - 1 - i].parentId == Some(es[i..][|es| - 2 - i].id);
      assert Front(es)[i..] == Front(es[i..]);
      if es[i].parentId.Some? {
        forall k | 0 <= k < |Front(es)| ensures Front(es)[k].id != es[i].parentId.value {
          assert es[k].id != es[i].parentId.value;
        }
      }
      BrokenPathIsSuffix(Front(es), i);
      assert es[i..] == Front(es)[i..] + [Last(es)];
    }
  }

  /** A label in the middle of the path really does cost the messages before it. */
  lemma LabelInTheMiddleLosesHistory(first: AgentMessage, second: AgentMessage)
    ensures var path := Bookmarked(first, second);
            var b := Branched(path, [], map[], map[], []);
            && Ordered(path) && Closed(path)
            && MessagesOf(path) == [first, second]
            && MessagesOf(Ancestry(b, LastId(b))) == [second]
  {
    var path := Bookmarked(first, second);
    BookmarkedShape(first, second);
    BookmarkedContext(first, second);
    BookmarkedBranch(first, second);
    CutOff(path[0], path[2]);
  }

  lemma BookmarkedShape(first: AgentMessage, second: AgentMessage)
    ensures Ordered(Bookmarked(first, second)) && Closed(Bookmarked(first, second))
  {
    var path := Bookmarked(first, second);
    assert path[0].id == 0 && path[1].id == 1;
  }

  /** Of two entries that are not linked, the path to the second one is that entry alone. */
  lemma CutOff(a: Entry, c: Entry)
    requires Ordered([a, c]) && c.parentId != Some(a.id) && c.body.MessageBody?
    ensures MessagesOf(Ancestry([a, c], LastId([a, c]))) == [c.body.message]
  {
    var b := [a, c];
    assert b[1..] == [c] && Front([c]) == [];
    BrokenPathIsSuffix(b, 1);
    NothingCompacted([c]);
  }

  lemma BookmarkedContext(first: AgentMessage, second: AgentMessage)
    ensures MessagesOf(Bookmarked(first, second)) == [first, second]
  {
    var path := Bookmarked(first, second);
    VisibleAppend([], path[0]);
    VisibleAppend([path[0]], path[1]);
    VisibleAppend([path[0], path[1]], path[2]);
    assert [] + [path[0]] == [path[0]] && [path[0]] + [path[1]] == [path[0], path[1]];
    assert [path[0], path[1]] + [path[2]] == path;
    NothingCompacted(path);
  }

  lemma BookmarkedBranch(first: AgentMessage, second: AgentMessage)
    ensures var path := Bookmarked(first, second);
            Branched(path, [], map[], map[], []) == [path[0], path[2]]
  {
    var path := Bookmarked(first, second);
    WithoutLabelsConcat([path[0]], [path[1], path[2]]);
    WithoutLabelsConcat([path[1]], [path[2]]);
    assert [path[0]] + [path[1], path[2]] == path && [path[1]] + [path[2]] == [path[1], path[2]];
    assert forall k | 0 <= k < 3 :: Front([path[k]]) == [];
    assert WithoutLabels(path) == [path[0], path[2]];
  }

  lemma NothingCompacted(path: seq<Entry>)
    requires forall i | 0 <= i < |path| :: !path[i].body.Compaction?
    ensures MessagesOf(path) == Visible(path)
  {
  }

  /** A message, a label set while the message was the leaf, and a message after it. */
  function Bookmarked(first: AgentMessage, second: AgentMessage): (path: seq<Entry>)
    ensures |path| == 3
  {
    [Entry(0, None, 0, MessageBody(first)), Entry(1, Some(0), 1, Label(0, None)),
     Entry(2, Some(1), 2, MessageBody(second))]
  }

  // ---------------------------------------------------------------------------------------------
  // The labels
  // ---------------------------------------------------------------------------------------------

  lemma {:induction false} NoLabelsIndexed(es: seq<Entry>)
    requires forall i | 0 <= i < |es| :: !es[i].body.Label?
    ensures Labels(es) == map[] && LabelTimes(es) == map[]
  {
    if es != [] {
      NoLabelsIndexed(Front(es));
    }
  }

  function Restricted<T>(m: map<Id, T>, targets: seq<Id>): map<Id, T>
    requires forall t | t in targets :: t in m
  {
    map t | t in targets :: m[t]
  }

  lemma {:induction false} ChainIndexed(
    kept: seq<Entry>, targets: seq<Id>, labels: map<Id, string>, times: map<Id, int>, ids: seq<Id>, parent: Option<Id>)
    requires |targets| <= |ids| && forall t | t in targets :: t in labels && t in times
    requires forall t | t in targets :: labels[t] != ""
    requires forall i | 0 <= i < |kept| :: !kept[i].body.Label?
    ensures var b := kept + LabelChain(targets, labels, times, ids, parent);
            Labels(b) == Restricted(labels, targets) && LabelTimes(b) == Restricted(times, targets)
  {
    var chain := LabelChain(targets, labels, times, ids, parent);
    if targets == [] {
      assert kept + chain == kept;
      NoLabelsIndexed(kept);
      RestrictedToNothing(labels);
      RestrictedToNothing(times);
    } else {
      ChainIndexed(kept, Front(targets), labels, times, ids, parent);
      var shorter := kept + LabelChain(Front(targets), labels, times, ids, parent);
      assert kept + chain == shorter + [Last(chain)];
      RestrictedStep(labels, targets);
      RestrictedStep(times, targets);
      LabelAdded(shorter, Last(chain));
    }
  }

  lemma LabelAdded(es: seq<Entry>, e: Entry)
    requires e.body.Label? && Truthy(e.body.labelText)
    ensures Labels(es + [e]) == Labels(es)[e.body.targetId := e.body.labelText.value]
    ensures LabelTimes(es + [e]) == LabelTimes(es)[e.body.targetId := e.timestamp]
  {
    FrontOfAppend(es, e);
  }

  lemma RestrictedStep<T>(m: map<Id, T>, targets: seq<Id>)
    requires targets != [] && forall t | t in targets :: t in m
    ensures Restricted(m, targets) == Restricted(m, Front(targets))[Last(targets) := m[Last(targets)]]
  {
    assert forall t :: t in targets <==> t in Front(targets) || t == Last(targets);
  }

  lemma RestrictedToNothing<T>(m: map<Id, T>)
    ensures Restricted(m, []) == map[]
  {
  }

  /** The branched session labels exactly the entries of the path that were labelled, the same way. */
  lemma BranchKeepsLabels(
    path: seq<Entry>, order: seq<Id>, labels: map<Id, string>, times: map<Id, int>, ids: seq<Id>)
    requires |order| <= |ids| && forall t :: t in order <==> t in labels
    requires forall t | t in labels :: t in times && labels[t] != ""
    ensures var b := Branched(path, order, labels, times, ids);
            forall e | e in WithoutLabels(path) ::
              && (e.id in Labels(b) <==> e.id in labels)
              && (e.id in labels ==>
                    && Labels(b)[e.id] == labels[e.id]
                    && e.id in LabelTimes(b) && LabelTimes(b)[e.id] == times[e.id])
    ensures Labels(Branched(path, order, labels, times, ids)).Keys <= Ids(WithoutLabels(path))
  {
    var kept := WithoutLabels(path);
    KeptSubset(order, Ids(kept));
    WithoutLabelsSubset(path);
    forall i | 0 <= i < |kept| ensures !kept[i].body.Label? {
      assert kept[i] in kept;
    }
    ChainIndexed(kept, Kept(order, Ids(kept)), labels, times, ids, LastId(kept));
    LabelTimesDomain(Branched(path, order, labels, times, ids));
  }

  // ---------------------------------------------------------------------------------------------
  // Export
  // ---------------------------------------------------------------------------------------------

  /** The path with every parent pointer replaced by the preceding entry. */
  function Rechain(path: seq<Entry>): (linear: seq<Entry>)
    ensures |linear| == |path|
  {
    if path == [] then []
    else Rechain(Front(path)) + [Last(path).(parentId := LastId(Front(path)))]
  }

  ghost predicate SameButParents(a: seq<Entry>, b: seq<Entry>)
  {
    |a| == |b| && forall i | 0 <= i < |a| :: a[i].(parentId := b[i].parentId) == b[i]
  }

  lemma {:induction false} RechainShape(path: seq<Entry>)
    requires Distinct(path)
    ensures Ordered(Rechain(path)) && Linked(Rechain(path)) && SameButParents(path, Rechain(path))
    ensures path != [] ==> Rechain(path)[0].parentId == None
  {
    if path != [] {
      var front := Front(path);
      RechainShape(front);
      var e := Last(path).(parentId := LastId(front));
      forall i | 0 <= i < |front| ensures Rechain(front)[i].id != e.id && Rechain(front)[i].parentId != Some(e.id) {
        assert Rechain(front)[i].id == path[i].id;
        if i > 0 {
          assert Rechain(front)[i].parentId == Some(path[i - 1].id);
        } else {
          assert Rechain(front)[0].parentId == None;
        }
      }
      if front != [] {
        assert front[|front| - 1].id == path[|path| - 2].id;
      }
      OrderedAppend(Rechain(front), e);
    }
  }

  lemma {:induction false} SameContext(a: seq<Entry>, b: seq<Entry>)
    requires SameButParents(a, b)
    ensures Visible(a) == Visible(b) && LevelOf(a) == LevelOf(b) && ModelOf(a) == ModelOf(b)
    ensures LastCompaction(a) == LastCompaction(b)
  {
    if a != [] {
      SameFront(a, b);
      SameContext(Front(a), Front(b));
      SameEntry(Last(a), Last(b));
    }
  }

  lemma SameFront(a: seq<Entry>, b: seq<Entry>)
    requires SameButParents(a, b) && a != []
    ensures b != [] && SameButParents(Front(a), Front(b)) && Last(a).(parentId := Last(b).parentId) == Last(b)
  {
    assert a[|a| - 1].(parentId := b[|b| - 1].parentId) == b[|b| - 1];
  }

  lemma SameEntry(x: Entry, y: Entry)
    requires x.(parentId := y.parentId) == y
    ensures x.body == y.body && x.id == y.id && Shown(x) == Shown(y)
  {
  }

  lemma {:induction false} SameFrom(a: seq<Entry>, b: seq<Entry>, id: Id)
    requires SameButParents(a, b)
    ensures SameButParents(From(a, id), From(b, id))
  {
    if a != [] && a[0].id != id {
      assert a[0].(parentId := b[0].parentId) == b[0];
      SameFrom(a[1..], b[1..], id);
    } else if a != [] {
      assert a[0].(parentId := b[0].parentId) == b[0];
    }
  }

  /** An exported branch reads back with the same context, whatever entries lie on it. */
  lemma ExportKeepsContext(path: seq<Entry>)
    requires Distinct(path)
    ensures var linear := Rechain(path);
            && Ancestry(linear, LastId(linear)) == linear
            && ContextOf(linear) == ContextOf(path)
  {
    var linear := Rechain(path);
    RechainShape(path);
    AncestryOfChain(linear);
    SameContext(path, linear);
    match LastCompaction(path) {
      case None =>
      case Some(c) =>
        assert path[c].(parentId := linear[c].parentId) == linear[c];
        SameFrom(path[..c], linear[..c], path[c].body.firstKeptEntryId);
        SameContext(From(path[..c], path[c].body.firstKeptEntryId), From(linear[..c], path[c].body.firstKeptEntryId));
        SameContext(path[c + 1..], linear[c + 1..]);
    }
  }
}
