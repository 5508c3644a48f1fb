/**
 What a branched session shows on any path. Labels are taken out without linking what follows them to what
 precedes them, so the new path starts at the last entry that hangs on a label.
 */
module SessionCuts {
  import opened Messages
  import opened Sequences
  import opened SessionLog
  import opened SessionContext
  import opened SessionBranching

  /** The position of the last entry that is not a label and hangs on one; 0 if there is none. */
  function Cut(path: seq<Entry>): nat
  {
    if |path| < 2 then 0
    else if !Last(path).body.Label? && path[|path| - 2].body.Label? then |path| - 1
    else Cut(Front(path))
  }

  /** Labels only come last. */
  predicate LabelsLast(path: seq<Entry>)
  {
    forall i | 0 < i < |path| && !path[i].body.Label? :: !path[i - 1].body.Label?
  }

  lemma {:induction false} CutFacts(path: seq<Entry>)
    ensures Cut(path) <= |path| && (path != [] ==> Cut(path) < |path|)
    ensures Cut(path) > 0 ==> path[Cut(path) - 1].body.Label? && !path[Cut(path)].body.Label?
    ensures forall i | Cut(path) < i < |path| && !path[i].body.Label? :: !path[i - 1].body.Label?
  {
    if |path| >= 2 {
      var front := Front(path);
      CutFacts(front);
      assert forall i | 0 <= i < |front| :: front[i] == path[i];
    }
  }

  lemma {:induction false} LabelsLastShape(path: seq<Entry>)
    requires LabelsLast(path)
    ensures WithoutLabels(path) <= path
    ensures forall i | |WithoutLabels(path)| <= i < |path| :: path[i].body.Label?
    ensures path != [] && !Last(path).body.Label? ==> WithoutLabels(path) == path
  {
    if path != [] {
      var front := Front(path);
      assert forall i | 0 <= i < |front| :: front[i] == path[i];
      LabelsLastShape(front);
      SplitLast(path);
      if !Last(path).body.Label? && |path| > 1 {
        assert !path[|path| - 2].body.Label?;
      }
    }
  }

  /** Taking out trailing labels keeps the context. */
  lemma TrailingLabelsShowNothing(path: seq<Entry>)
    requires LabelsLast(path)
    ensures ContextOf(WithoutLabels(path)) == ContextOf(path)
  {
    LabelsLastShape(path);
    var kept := WithoutLabels(path);
    assert path == kept + path[|kept|..];
    TrailingLabels(kept, path[|kept|..]);
  }

  lemma TailShape(path: seq<Entry>, q: nat)
    requires Ordered(path) && Linked(path) && q <= |path|
    ensures Ordered(path[q..]) && Linked(path[q..])
  {
    var tail := path[q..];
    assert forall i | 0 <= i < |tail| :: tail[i] == path[q + i];
    forall i | 0 < i < |tail| ensures tail[i].parentId == Some(tail[i - 1].id) {
      assert path[q + i].parentId == Some(path[q + i - 1].id);
    }
  }

  /** What follows the cut, without its labels and followed by the new ones, is one chain. */
  lemma TailIsLinked(
    path: seq<Entry>, q: nat, targets: seq<Id>, labels: map<Id, string>, times: map<Id, int>, ids: seq<Id>)
    requires |targets| <= |ids| && forall t | t in targets :: t in labels && t in times
    requires FreshIds(path, ids) && Ordered(path) && Linked(path) && q <= |path| && LabelsLast(path[q..])
    requires WithoutLabels(path[q..]) != []
    ensures var kept := WithoutLabels(path[q..]);
            var chain := LabelChain(targets, labels, times, ids, LastId(kept));
            Linked(kept + chain) && forall i | 0 <= i < |chain| :: chain[i].body.Label? && chain[i].id == ids[i]
  {
    var tail := path[q..];
    var kept := WithoutLabels(tail);
    TailShape(path, q);
    LabelsLastShape(tail);
    WithoutLabelsOrdered(tail);
    assert Linked(kept) by {
      assert forall i | 0 <= i < |kept| :: kept[i] == tail[i];
    }
    forall e | e in kept ensures e in path {
      WithoutLabelsSubset(tail);
      assert e in tail;
    }
    ChainShape(path, kept, targets, labels, times, ids);
  }

  /** The parent of the entry at the cut is not in the branched log. */
  lemma ParentIsGone(path: seq<Entry>, q: nat, b: seq<Entry>, ids: seq<Id>)
    requires FreshIds(path, ids) && Ordered(path) && Linked(path) && q < |path|
    requires q > 0 ==> path[q - 1].body.Label?
    requires forall e | e in b :: (e in path && !e.body.Label?) || e.id in ids
    ensures path[q].parentId.Some? ==> !HasId(b, path[q].parentId.value)
  {
    forall k | 0 <= k < |b| ensures path[q].parentId != Some(b[k].id) {
      assert b[k] in b;
      if b[k].id in ids {
        var i :| 0 <= i < |ids| && ids[i] == b[k].id;
        assert Unused(path, ids[i]);
      } else {
        var j :| 0 <= j < |path| && path[j] == b[k];
        if j < q {
          assert path[q].parentId == Some(path[q - 1].id) && j != q - 1;
        }
      }
    }
  }

  lemma ChainFromCut(path: seq<Entry>, q: nat, ids: seq<Id>, before: seq<Entry>, kept: seq<Entry>, chain: seq<Entry>)
    requires FreshIds(path, ids) && Ordered(path) && Linked(path) && q < |path|
    requires q > 0 ==> path[q - 1].body.Label?
    requires WithoutLabels(path) == before + kept && kept != [] && kept[0] == path[q]
    requires |chain| <= |ids| && forall i | 0 <= i < |chain| :: chain[i].id == ids[i]
    requires Linked(kept + chain) && Ordered(before + (kept + chain))
    ensures var b := before + (kept + chain); Ancestry(b, LastId(b)) == kept + chain
  {
    var b := before + (kept + chain);
    assert b[|before|..] == kept + chain && b[|before|] == path[q];
    BranchedMembers(path, ids, before, kept, chain);
    ParentIsGone(path, q, b, ids);
    BrokenPathIsSuffix(b, |before|);
  }

  /** The new path is what the branched log holds from the cut on, and shows what the old path shows from there on. */
  lemma BranchStartsAtCut(
    path: seq<Entry>, order: seq<Id>, labels: map<Id, string>, times: map<Id, int>, ids: seq<Id>)
    requires |order| <= |ids| && forall t | t in order :: t in labels && t in times
    requires FreshIds(path, ids) && Ordered(path) && Linked(path)
    ensures var b := Branched(path, order, labels, times, ids);
            var q := Cut(path);
            && Cuts(path, q) && WithoutLabels(path[q..]) <= Ancestry(b, LastId(b))
            && b == WithoutLabels(path[..q]) + Ancestry(b, LastId(b))
            && ContextOf(Ancestry(b, LastId(b))) == ContextOf(path[q..])
  {
    CutShape(path);
    BranchFromCut(path, Cut(path), order, labels, times, ids);
  }

  /** A position where a path is cut: a label before it, none after it but the last ones. */
  predicate Cuts(path: seq<Entry>, q: nat)
  {
    && q <= |path| && LabelsLast(path[q..])
    && (q > 0 ==> q < |path| && path[q - 1].body.Label? && !path[q].body.Label?)
  }

  lemma CutShape(path: seq<Entry>)
    ensures Cuts(path, Cut(path))
  {
    CutFacts(path);
    var tail := path[Cut(path)..];
    assert forall i | 0 <= i < |tail| :: tail[i] == path[Cut(path) + i];
  }

  lemma BranchFromCut(
    path: seq<Entry>, q: nat, order: seq<Id>, labels: map<Id, string>, times: map<Id, int>, ids: seq<Id>)
    requires |order| <= |ids| && forall t | t in order :: t in labels && t in times
    requires FreshIds(path, ids) && Ordered(path) && Linked(path) && Cuts(path, q)
    ensures var b := Branched(path, order, labels, times, ids);
            && WithoutLabels(path[q..]) <= Ancestry(b, LastId(b))
            && b == WithoutLabels(path[..q]) + Ancestry(b, LastId(b))
            && ContextOf(Ancestry(b, LastId(b))) == ContextOf(path[q..])
  {
    assert path == path[..q] + path[q..];
    WithoutLabelsConcat(path[..q], path[q..]);
    TrailingLabelsShowNothing(path[q..]);
    if WithoutLabels(path[q..]) == [] {
      NoCutInLabels(path, q);
      NothingToBranch(path, order, labels, times, ids);
    } else {
      BranchAtCut(path, q, order, labels, times, ids);
    }
  }

  lemma NoCutInLabels(path: seq<Entry>, q: nat)
    requires Cuts(path, q) && WithoutLabels(path[q..]) == []
    ensures q == 0
  {
    LabelsLastShape(path[q..]);
    assert q < |path| ==> path[q..][0] == path[q];
  }

  lemma BranchAtCut(
    path: seq<Entry>, q: nat, order: seq<Id>, labels: map<Id, string>, times: map<Id, int>, ids: seq<Id>)
    requires |order| <= |ids| && forall t | t in order :: t in labels && t in times
    requires FreshIds(path, ids) && Ordered(path) && Linked(path) && Cuts(path, q)
    requires WithoutLabels(path[q..]) != []
    requires WithoutLabels(path) == WithoutLabels(path[..q]) + WithoutLabels(path[q..])
    ensures var b := Branched(path, order, labels, times, ids);
            && WithoutLabels(path[q..]) <= Ancestry(b, LastId(b))
            && b == WithoutLabels(path[..q]) + Ancestry(b, LastId(b))
            && ContextOf(Ancestry(b, LastId(b))) == ContextOf(WithoutLabels(path[q..]))
  {
    var before, kept := WithoutLabels(path[..q]), WithoutLabels(path[q..]);
    var targets := Kept(order, Ids(WithoutLabels(path)));
    BranchedParts(path, before, kept, order, labels, times, ids);
    var chain := LabelChain(targets, labels, times, ids, LastId(kept));
    TailIsLinked(path, q, targets, labels, times, ids);
    assert Ordered(before + (kept + chain)) by { BranchedShape(path, order, labels, times, ids); }
    assert kept[0] == path[q] by { LabelsLastShape(path[q..]); }
    ChainFromCut(path, q, ids, before, kept, chain);
    TrailingLabels(kept, chain);
  }

  lemma BranchedParts(
    path: seq<Entry>, before: seq<Entry>, kept: seq<Entry>,
    order: seq<Id>, labels: map<Id, string>, times: map<Id, int>, ids: seq<Id>)
    requires |order| <= |ids| && forall t | t in order :: t in labels && t in times
    requires WithoutLabels(path) == before + kept && kept != []
    ensures var targets := Kept(order, Ids(WithoutLabels(path)));
            && |targets| <= |ids| && (forall t | t in targets :: t in labels && t in times)
            && Branched(path, order, labels, times, ids)
               == before + (kept + LabelChain(targets, labels, times, ids, LastId(kept)))
  {
    var targets := Kept(order, Ids(WithoutLabels(path)));
    KeptSubset(order, Ids(WithoutLabels(path)));
    FrontOfConcat(before, kept);
    ConcatAssociative(before, kept, LabelChain(targets, labels, times, ids, LastId(kept)));
  }

  lemma NothingToBranch(
    path: seq<Entry>, order: seq<Id>, labels: map<Id, string>, times: map<Id, int>, ids: seq<Id>)
    requires |order| <= |ids| && forall t | t in order :: t in labels && t in times
    requires WithoutLabels(path) == []
    ensures Branched(path, order, labels, times, ids) == []
  {
    assert Ids(WithoutLabels(path)) == {};
    KeptSubset(order, {});
  }

  lemma BranchedMembers(path: seq<Entry>, ids: seq<Id>, before: seq<Entry>, kept: seq<Entry>, chain: seq<Entry>)
    requires WithoutLabels(path) == before + kept && |chain| <= |ids|
    requires forall i | 0 <= i < |chain| :: chain[i].id == ids[i]
    ensures forall e | e in before + (kept + chain) :: (e in path && !e.body.Label?) || e.id in ids
  {
    WithoutLabelsSubset(path);
    forall e | e in before + (kept + chain) ensures e in WithoutLabels(path) || e.id in ids {
      if e in chain {
        var i :| 0 <= i < |chain| && chain[i] == e;
        assert ids[i] == e.id;
      }
    }
  }

  // ---------------------------------------------------------------------------------------------
  // What the lost part contributed
  // ---------------------------------------------------------------------------------------------

  predicate SetsLevel(path: seq<Entry>)
  {
    path != [] && (Last(path).body.ThinkingLevelChange? || SetsLevel(Front(path)))
  }

  lemma {:induction false} LevelConcat(head: seq<Entry>, tail: seq<Entry>)
    ensures LevelOf(head + tail) == if SetsLevel(tail) then LevelOf(tail) else LevelOf(head)
    ensures !SetsLevel(tail) ==> LevelOf(tail) == "off"
  {
    if tail == [] {
      assert head + tail == head;
    } else {
      LevelConcat(head, Front(tail));
      FrontOfConcat(head, tail);
    }
  }

  lemma {:induction false} ModelConcat(head: seq<Entry>, tail: seq<Entry>)
    ensures ModelOf(head + tail) == if ModelOf(tail).Some? then ModelOf(tail) else ModelOf(head)
  {
    if tail == [] {
      assert head + tail == head;
    } else {
      ModelConcat(head, Front(tail));
      FrontOfConcat(head, tail);
    }
  }

  lemma {:induction false} VisibleConcat(head: seq<Entry>, tail: seq<Entry>)
    ensures Visible(head + tail) == Visible(head) + Visible(tail)
  {
    if tail == [] {
      assert head + tail == head;
    } else {
      VisibleConcat(head, Front(tail));
      FrontOfConcat(head, tail);
      ConcatAssociative(Visible(head), Visible(Front(tail)), Shown(Last(tail)));
    }
  }

  lemma {:induction false} MessagesConcat(head: seq<Entry>, tail: seq<Entry>)
    requires LastCompaction(tail).None?
    ensures MessagesOf(head + tail) == MessagesOf(head) + Visible(tail)
  {
    if tail == [] {
      assert head + tail == head;
    } else {
      MessagesConcat(head, Front(tail));
      SplitLast(tail);
      ConcatAssociative(head, Front(tail), [Last(tail)]);
      ContextGrows(head + Front(tail), Last(tail));
      ConcatAssociative(MessagesOf(head), Visible(Front(tail)), Shown(Last(tail)));
    }
  }

  lemma {:induction false} FromConcat(head: seq<Entry>, tail: seq<Entry>, id: Id)
    ensures From(head + tail, id) == if From(head, id) != [] then From(head, id) + tail else From(tail, id)
  {
    if head == [] {
      assert head + tail == tail;
    } else if head[0].id != id {
      FromConcat(head[1..], tail, id);
      assert (head + tail)[1..] == head[1..] + tail;
    }
  }

  lemma {:induction false} FromMember(path: seq<Entry>, id: Id)
    ensures From(path, id) != [] ==> HasId(path, id)
  {
    if path != [] && path[0].id != id {
      FromMember(path[1..], id);
      if HasId(path[1..], id) {
        var i :| 0 <= i < |path[1..]| && path[1..][i].id == id;
        assert path[i + 1].id == id;
      }
    } else if path != [] {
      assert path[0].id == id;
    }
  }

  /** Nothing of the lost part showed: no message, and no level or model that was still in force. */
  predicate Unseen(head: seq<Entry>, tail: seq<Entry>)
  {
    && UnseenMessages(head, tail)
    && (SetsLevel(tail) || LevelOf(head) == "off")
    && (ModelOf(tail).Some? || ModelOf(head).None?)
  }

  /**
   Without a compaction after the cut, every message of the lost part showed. With one, only what it keeps from
   the lost part did; and then the new path, where its first kept entry is missing, keeps nothing at all.
   */
  predicate UnseenMessages(head: seq<Entry>, tail: seq<Entry>)
  {
    match LastCompaction(tail)
    case None => MessagesOf(head) == []
    case Some(c) =>
      var kept := From(head, tail[c].body.firstKeptEntryId);
      kept == [] || (Visible(kept) == [] && Visible(tail[..c]) == [])
  }

  lemma UnseenUncompacted(head: seq<Entry>, tail: seq<Entry>)
    requires LastCompaction(tail).None?
    ensures MessagesOf(head + tail) == MessagesOf(tail) <==> MessagesOf(head) == []
  {
    MessagesConcat(head, tail);
    NothingBefore(MessagesOf(head), Visible(tail));
  }

  lemma NothingBefore<T>(a: seq<T>, b: seq<T>)
    ensures a + b == b <==> a == []
  {
    assert |a + b| == |a| + |b|;
    assert a == [] ==> a + b == b;
  }

  lemma KeptParts(head: seq<Entry>, before: seq<Entry>, id: Id)
    requires Distinct(head + before)
    ensures var whole, part := Visible(From(head + before, id)), Visible(From(before, id));
            && (part == whole || part == [])
            && (part == whole <==> From(head, id) == [] || (Visible(From(head, id)) == [] && Visible(before) == []))
  {
    FromConcat(head, before, id);
    var kept := From(head, id);
    if kept != [] {
      FromMember(head, id);
      var i :| 0 <= i < |head| && head[i].id == id;
      forall j | 0 <= j < |before| ensures before[j].id != id {
        assert (head + before)[i].id == id && (head + before)[|head| + j].id == before[j].id;
      }
      FromAbsent(before, id);
      VisibleConcat(kept, before);
    }
  }

  lemma UnseenCompacted(head: seq<Entry>, before: seq<Entry>, e: Entry, after: seq<Entry>)
    requires Distinct(head + before) && e.body.Compaction? && forall i | 0 <= i < |after| :: !after[i].body.Compaction?
    ensures var kept := From(head, e.body.firstKeptEntryId);
            MessagesOf(head + before + [e] + after) == MessagesOf(before + [e] + after)
            <==> kept == [] || (Visible(kept) == [] && Visible(before) == [])
  {
    var id := e.body.firstKeptEntryId;
    LastCompactionSplit(head + before, e, after);
    LastCompactionSplit(before, e, after);
    KeptParts(head, before, id);
    SameMiddle(Summary(e), Visible(From(before, id)), Visible(From(head + before, id)), Visible(after));
  }

  lemma MessagesUnseen(head: seq<Entry>, tail: seq<Entry>)
    requires Distinct(head + tail)
    ensures MessagesOf(head + tail) == MessagesOf(tail) <==> UnseenMessages(head, tail)
  {
    match LastCompaction(tail)
    case None => UnseenUncompacted(head, tail);
    case Some(c) =>
      var before, after := SplitBehind(head, tail, c);
      UnseenCompacted(head, before, tail[c], after);
  }

  lemma SplitBehind(head: seq<Entry>, tail: seq<Entry>, c: nat) returns (before: seq<Entry>, after: seq<Entry>)
    requires Distinct(head + tail) && c < |tail| && forall i | c < i < |tail| :: !tail[i].body.Compaction?
    ensures before == tail[..c] && before + [tail[c]] + after == tail
    ensures head + before + [tail[c]] + after == head + tail
    ensures Distinct(head + before) && forall i | 0 <= i < |after| :: !after[i].body.Compaction?
  {
    assert Distinct(tail) by {
      assert forall i | 0 <= i < |tail| :: tail[i] == (head + tail)[|head| + i];
    }
    before, after := SplitAtEntry(tail, c);
    assert Distinct(head + before) by {
      assert forall i | 0 <= i < |head + before| :: (head + before)[i] == (head + tail)[i];
    }
    assert head + before + [tail[c]] + after == head + (before + [tail[c]] + after);
  }

  /** Losing the first part of a path keeps the context exactly if nothing of it showed. */
  lemma ContextUnseen(head: seq<Entry>, tail: seq<Entry>)
    requires Distinct(head + tail)
    ensures ContextOf(head + tail) == ContextOf(tail) <==> Unseen(head, tail)
  {
    LevelConcat(head, tail);
    ModelConcat(head, tail);
    MessagesUnseen(head, tail);
  }

  /** On any path: what the branched session shows, and exactly when that is what the old one showed. */
  lemma BranchContext(
    path: seq<Entry>, order: seq<Id>, labels: map<Id, string>, times: map<Id, int>, ids: seq<Id>)
    requires |order| <= |ids| && forall t | t in order :: t in labels && t in times
    requires FreshIds(path, ids) && Ordered(path) && Linked(path)
    ensures var b := Branched(path, order, labels, times, ids);
            var q := Cut(path);
            && q <= |path| && ContextOf(Ancestry(b, LastId(b))) == ContextOf(path[q..])
            && (ContextOf(Ancestry(b, LastId(b))) == ContextOf(path) <==> Unseen(path[..q], path[q..]))
  {
    BranchStartsAtCut(path, order, labels, times, ids);
    ContextFromCut(path, Cut(path));
  }

  lemma ContextFromCut(path: seq<Entry>, q: nat)
    requires Distinct(path) && q <= |path|
    ensures ContextOf(path[q..]) == ContextOf(path) <==> Unseen(path[..q], path[q..])
  {
    SplitHere(path, q);
    ContextUnseen(path[..q], path[q..]);
  }

  lemma SplitHere<T>(s: seq<T>, q: nat)
    requires q <= |s|
    ensures s[..q] + s[q..] == s
  {
  }

  /** An entry has the same label, with the same time, or none in both logs. */
  predicate SameLabel(id: Id, es: seq<Entry>, b: seq<Entry>)
  {
    && (id in Labels(b) <==> id in Labels(es))
    && (id in Labels(es) ==>
          && Labels(b)[id] == Labels(es)[id]
          && id in LabelTimes(es) && id in LabelTimes(b) && LabelTimes(b)[id] == LabelTimes(es)[id])
  }

  lemma BranchLabels(es: seq<Entry>, path: seq<Entry>, order: seq<Id>, times: map<Id, int>, ids: seq<Id>)
    requires |order| <= |ids| && forall t :: t in order <==> t in Labels(es)
    requires forall t | t in Labels(es) :: t in LabelTimes(es) && t in times && times[t] == LabelTimes(es)[t]
    ensures var b := Branched(path, order, Labels(es), times, ids);
            forall e | e in path && !e.body.Label? :: e in b && SameLabel(e.id, es, b)
  {
    forall t | t in Labels(es) ensures Labels(es)[t] != "" {
      LabelsAreNotEmpty(es, t);
    }
    BranchKeepsLabels(path, order, Labels(es), times, ids);
    WithoutLabelsSubset(path);
  }

  /**
   What a branched session means, for any session log and any leaf in it. Its path is its whole log exactly if no
   label interrupts the old path. Its context is that of the old path from the cut on, and so the old one exactly
   if nothing before the cut showed. The entries it carries over have the labels they had, with their times.
   */
  lemma BranchingPreservesMeaning(es: seq<Entry>, leaf: Id, order: seq<Id>, times: map<Id, int>, ids: seq<Id>)
    requires Ordered(es) && |order| <= |ids| && FreshIds(Ancestry(es, Some(leaf)), ids)
    requires forall t :: t in order <==> t in Labels(es)
    requires forall t | t in Labels(es) :: t in LabelTimes(es) && t in times && times[t] == LabelTimes(es)[t]
    ensures var path := Ancestry(es, Some(leaf));
            var b := Branched(path, order, Labels(es), times, ids);
            var q := Cut(path);
            && (Ancestry(b, LastId(b)) == b <==> !Interrupted(path))
            && q <= |path| && ContextOf(Ancestry(b, LastId(b))) == ContextOf(path[q..])
            && (ContextOf(Ancestry(b, LastId(b))) == ContextOf(path) <==> Unseen(path[..q], path[q..]))
            && forall e | e in path && !e.body.Label? :: e in b && SameLabel(e.id, es, b)
  {
    var path := Ancestry(es, Some(leaf));
    AncestryShape(es, Some(leaf));
    BranchKeepsPath(path, order, Labels(es), times, ids);
    BranchContext(path, order, Labels(es), times, ids);
    BranchLabels(es, path, order, times, ids);
  }
}
