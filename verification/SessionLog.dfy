/**
 The append-only session log as a value: entries with parent pointers, the two indexes the session
 manager keeps over them, the path from the root to a leaf, and the protocol that mirrors the log
 into a file.
 */
module SessionLog {
  import opened Messages
  import opened Sequences

  /** Opaque identifiers; every generated one is new to the session. */
  type Id = nat

  datatype Body =
    | MessageBody(message: AgentMessage)
    | ThinkingLevelChange(thinkingLevel: string)
    | ModelChange(provider: string, modelId: string)
    | Compaction(compactionSummary: string, firstKeptEntryId: Id, tokensBefore: nat)
    | BranchSummaryBody(fromId: Option<Id>, branchSummary: string)
    | Custom(customType: string, data: string)
    | CustomMessageBody(messageType: string, content: string, display: bool, details: string)
    | Label(targetId: Id, labelText: Option<string>)
    | SessionInfo(name: string)

  datatype Entry = Entry(id: Id, parentId: Option<Id>, timestamp: int, body: Body)

  datatype FileEntry =
    | Header(sessionId: string, version: nat, cwd: string, parentSession: Option<string>)
    | Line(entry: Entry)

  /** The log without its header lines. */
  function Entries(lines: seq<FileEntry>): seq<Entry>
  {
    if lines == [] then []
    else Entries(Front(lines)) + (if Last(lines).Line? then [Last(lines).entry] else [])
  }

  lemma {:induction false} EntriesConcat(a: seq<FileEntry>, b: seq<FileEntry>)
    ensures Entries(a + b) == Entries(a) + Entries(b)
  {
    if b == [] {
      assert a + b == a;
    } else {
      EntriesConcat(a, Front(b));
      assert Front(a + b) == a + Front(b);
    }
  }

  function Lines(es: seq<Entry>): seq<FileEntry>
  {
    if es == [] then [] else Lines(Front(es)) + [Line(Last(es))]
  }

  lemma {:induction false} EntriesOfLines(es: seq<Entry>)
    ensures Entries(Lines(es)) == es
  {
    if es != [] {
      var front := Lines(Front(es));
      EntriesOfLines(Front(es));
      FrontOfAppend(front, Line(Last(es)));
      assert Entries(front + [Line(Last(es))]) == Entries(front) + [Last(es)];
      assert es == Front(es) + [Last(es)];
    }
  }

  lemma EntriesOfFile(h: FileEntry, es: seq<Entry>)
    requires h.Header?
    ensures Entries([h] + Lines(es)) == es
  {
    EntriesConcat([h], Lines(es));
    EntriesOfLines(es);
    assert Front([h]) == [];
  }

  // ---------------------------------------------------------------------------------------------
  // Well-formed logs
  // ---------------------------------------------------------------------------------------------

  ghost predicate Distinct(es: seq<Entry>)
  {
    forall i, j | 0 <= i < j < |es| :: es[i].id != es[j].id
  }

  /** No entry hangs below itself or below a later entry. */
  ghost predicate Ordered(es: seq<Entry>)
  {
    && Distinct(es)
    && forall i, j | 0 <= i <= j < |es| :: es[i].parentId != Some(es[j].id)
  }

  ghost predicate HasId(es: seq<Entry>, id: Id)
  {
    exists i | 0 <= i < |es| :: es[i].id == id
  }

  /** Every parent is in the log. */
  ghost predicate Closed(es: seq<Entry>)
  {
    forall i | 0 <= i < |es| && es[i].parentId.Some? :: HasId(es, es[i].parentId.value)
  }

  /** An id nobody in the log carries or points to. */
  ghost predicate Unused(es: seq<Entry>, id: Id)
  {
    forall i | 0 <= i < |es| :: es[i].id != id && es[i].parentId != Some(id)
  }

  lemma OrderedAppend(es: seq<Entry>, e: Entry)
    requires Ordered(es) && Unused(es, e.id) && e.parentId != Some(e.id)
    ensures Ordered(es + [e])
    ensures Closed(es) && (e.parentId.Some? ==> HasId(es, e.parentId.value)) ==> Closed(es + [e])
  {
    var all := es + [e];
    forall i | 0 <= i < |all| && all[i].parentId.Some? &&
               (if i < |es| then HasId(es, es[i].parentId.value) else HasId(es, e.parentId.value))
      ensures HasId(all, all[i].parentId.value)
    {
      var k :| 0 <= k < |es| && es[k].id == all[i].parentId.value;
      assert all[k].id == all[i].parentId.value;
    }
  }

  // ---------------------------------------------------------------------------------------------
  // The indexes
  // ---------------------------------------------------------------------------------------------

  /** The id index: a later entry replaces an earlier one with the same id. */
  function Index(es: seq<Entry>): map<Id, Entry>
  {
    if es == [] then map[] else Index(Front(es))[Last(es).id := Last(es)]
  }

  predicate Truthy(text: Option<string>)
  {
    text.Some? && text.value != ""
  }

  /** One log entry's effect on the label index. */
  function LabelStep(labels: map<Id, string>, e: Entry): map<Id, string>
  {
    if !e.body.Label? then labels
    else if Truthy(e.body.labelText) then labels[e.body.targetId := e.body.labelText.value]
    else labels - {e.body.targetId}
  }

  function Labels(es: seq<Entry>): map<Id, string>
  {
    if es == [] then map[] else LabelStep(Labels(Front(es)), Last(es))
  }

  function LabelTimeStep(times: map<Id, int>, e: Entry): map<Id, int>
  {
    if !e.body.Label? then times
    else if Truthy(e.body.labelText) then times[e.body.targetId := e.timestamp]
    else times - {e.body.targetId}
  }

  function LabelTimes(es: seq<Entry>): map<Id, int>
  {
    if es == [] then map[] else LabelTimeStep(LabelTimes(Front(es)), Last(es))
  }

  /** The last entry of the log, which is where a reopened session continues. */
  function LastId(es: seq<Entry>): Option<Id>
  {
    if es == [] then None else Some(Last(es).id)
  }

  lemma {:induction false} IndexDomain(es: seq<Entry>, id: Id)
    ensures id in Index(es) <==> HasId(es, id)
    ensures id in Index(es) ==> Index(es)[id].id == id && Index(es)[id] in es
  {
    if es != [] {
      IndexDomain(Front(es), id);
      if HasId(Front(es), id) {
        var i :| 0 <= i < |Front(es)| && Front(es)[i].id == id;
        assert es[i].id == id;
      }
      if Last(es).id == id {
        assert es[|es| - 1].id == id;
      }
    }
  }

  lemma {:induction false} IndexLookup(es: seq<Entry>, i: nat)
    requires Distinct(es) && i < |es|
    ensures es[i].id in Index(es) && Index(es)[es[i].id] == es[i]
  {
    if i < |es| - 1 {
      IndexLookup(Front(es), i);
    }
  }

  lemma {:induction false} LabelTimesDomain(es: seq<Entry>)
    ensures LabelTimes(es).Keys == Labels(es).Keys
  {
    if es != [] {
      LabelTimesDomain(Front(es));
    }
  }

  /** A label entry is only a change: the index holds, for each target, the last change in the log. */
  lemma {:induction false} LabelIsLastChange(es: seq<Entry>, k: nat, target: Id)
    requires k < |es| && es[k].body.Label? && es[k].body.targetId == target
    requires forall i | k < i < |es| && es[i].body.Label? :: es[i].body.targetId != target
    ensures Truthy(es[k].body.labelText) ==>
              target in Labels(es) && Labels(es)[target] == es[k].body.labelText.value
              && target in LabelTimes(es) && LabelTimes(es)[target] == es[k].timestamp
    ensures !Truthy(es[k].body.labelText) ==> target !in Labels(es) && target !in LabelTimes(es)
  {
    if k < |es| - 1 {
      LabelIsLastChange(Front(es), k, target);
    }
  }

  lemma {:induction false} LabelsWithoutChange(es: seq<Entry>, target: Id)
    requires forall i | 0 <= i < |es| && es[i].body.Label? :: es[i].body.targetId != target
    ensures target !in Labels(es)
  {
    if es != [] {
      LabelsWithoutChange(Front(es), target);
    }
  }

  lemma {:induction false} LabelsAreNotEmpty(es: seq<Entry>, target: Id)
    requires target in Labels(es)
    ensures Labels(es)[target] != ""
  {
    if target in Labels(Front(es)) {
      LabelsAreNotEmpty(Front(es), target);
    }
  }

  // ---------------------------------------------------------------------------------------------
  // The path from the root to a leaf
  // ---------------------------------------------------------------------------------------------

  /** The ancestors of `leaf` and the leaf itself, root first. Each one is looked for before its child. */
  function Ancestry(es: seq<Entry>, leaf: Option<Id>): seq<Entry>
  {
    if leaf.None? || es == [] then []
    else if Last(es).id == leaf.value then Ancestry(Front(es), Last(es).parentId) + [Last(es)]
    else Ancestry(Front(es), leaf)
  }

  /** The walk "take the parent, look it up, repeat" climbs exactly this path. */
  lemma {:induction false} AncestryUnfold(es: seq<Entry>, id: Id)
    requires Ordered(es) && id in Index(es)
    ensures var e := Index(es)[id];
            Ancestry(es, Some(id)) == Ancestry(es, e.parentId) + [e]
  {
    var e := Index(es)[id];
    if Last(es).id != id {
      AncestryUnfold(Front(es), id);
      IndexDomain(Front(es), id);
      var i :| 0 <= i < |Front(es)| && Front(es)[i] == e;
      assert es[i] == e;
      assert e.parentId != Some(Last(es).id);
    }
  }

  lemma {:induction false} AncestryMissing(es: seq<Entry>, id: Id)
    requires id !in Index(es)
    ensures Ancestry(es, Some(id)) == []
  {
    if es != [] {
      AncestryMissing(Front(es), id);
    }
  }

  /** Appending below a leaf extends its path by the new entry and leaves every other path alone. */
  lemma AncestryAppend(es: seq<Entry>, e: Entry, other: Option<Id>)
    requires other != Some(e.id)
    ensures Ancestry(es + [e], Some(e.id)) == Ancestry(es, e.parentId) + [e]
    ensures Ancestry(es + [e], other) == Ancestry(es, other)
  {
    FrontOfAppend(es, e);
  }

  ghost predicate Linked(path: seq<Entry>)
  {
    forall i | 0 < i < |path| :: path[i].parentId == Some(path[i - 1].id)
  }

  /** A path is a linked part of the log, in log order, and repeats nothing. */
  lemma {:induction false} AncestryShape(es: seq<Entry>, leaf: Option<Id>)
    requires Ordered(es)
    ensures var path := Ancestry(es, leaf);
            && Linked(path)
            && Ordered(path)
            && (forall e | e in path :: e in es)
            && (path != [] ==> leaf == Some(Last(path).id))
  {
    if leaf.Some? && es != [] {
      if Last(es).id == leaf.value {
        var above := Ancestry(Front(es), Last(es).parentId);
        AncestryShape(Front(es), Last(es).parentId);
        forall i | 0 <= i < |above| ensures above[i].id != Last(es).id && above[i].parentId != Some(Last(es).id) {
          assert above[i] in above;
          var k :| 0 <= k < |Front(es)| && Front(es)[k] == above[i];
          assert es[k] == above[i];
        }
        assert es[|es| - 1].parentId != Some(es[|es| - 1].id);
        OrderedAppend(above, Last(es));
      } else {
        AncestryShape(Front(es), leaf);
      }
    }
  }

  /** In a closed log every path reaches a real root. */
  lemma {:induction false} AncestryReachesRoot(es: seq<Entry>, leaf: Id)
    requires Ordered(es) && Closed(es) && HasId(es, leaf)
    ensures var path := Ancestry(es, Some(leaf)); path != [] && path[0].parentId == None
    decreases |Ancestry(es, Some(leaf))|
  {
    IndexDomain(es, leaf);
    AncestryUnfold(es, leaf);
    var e := Index(es)[leaf];
    if e.parentId.Some? {
      var i :| 0 <= i < |es| && es[i] == e;
      AncestryReachesRoot(es, e.parentId.value);
    }
  }

  /** A log that is one linked chain is its own path. */
  lemma {:induction false} AncestryOfChain(es: seq<Entry>)
    requires Ordered(es) && Linked(es)
    ensures Ancestry(es, LastId(es)) == es
  {
    if |es| == 1 {
      assert es == [Last(es)];
    } else if |es| > 1 {
      AncestryOfChain(Front(es));
      assert es[|es| - 1].parentId == Some(es[|es| - 2].id);
      assert es == Front(es) + [Last(es)];
    }
  }

  // ---------------------------------------------------------------------------------------------
  // The deferred file protocol
  // ---------------------------------------------------------------------------------------------

  predicate IsAssistantLine(line: FileEntry)
  {
    line.Line? && line.entry.body.MessageBody? && line.entry.body.message.Assistant?
  }

  predicate HasAssistant(lines: seq<FileEntry>)
  {
    exists i | 0 <= i < |lines| :: IsAssistantLine(lines[i])
  }

  /** The log in memory, the flushed mark, and the file if it exists. */
  datatype Persistence = Persistence(lines: seq<FileEntry>, flushed: bool, file: Option<seq<FileEntry>>)

  function Content(file: Option<seq<FileEntry>>): seq<FileEntry>
  {
    if file.Some? then file.value else []
  }

  /** What one append does to the log and its file. */
  function PersistStep(p: Persistence, line: FileEntry): Persistence
  {
    var lines := p.lines + [line];
    if !HasAssistant(lines) then Persistence(lines, false, p.file)
    else if !p.flushed then Persistence(lines, true, Some(Content(p.file) + lines))
    else Persistence(lines, true, Some(Content(p.file) + [line]))
  }

  function PersistAll(p: Persistence, added: seq<FileEntry>): Persistence
  {
    if added == [] then p else PersistStep(PersistAll(p, Front(added)), Last(added))
  }

  /** The file mirrors the log once an assistant message is in it, and does not exist before. */
  predicate Synced(p: Persistence)
  {
    if HasAssistant(p.lines) then p.flushed && p.file == Some(p.lines)
    else !p.flushed && p.file == None
  }

  lemma SyncedStep(p: Persistence, line: FileEntry)
    requires Synced(p)
    ensures Synced(PersistStep(p, line))
  {
    var lines := p.lines + [line];
    if HasAssistant(p.lines) {
      var i :| 0 <= i < |p.lines| && IsAssistantLine(p.lines[i]);
      assert IsAssistantLine(lines[i]);
    } else if HasAssistant(lines) {
      assert Content(p.file) + lines == lines;
    }
  }

  lemma {:induction false} PersistAllLines(p: Persistence, added: seq<FileEntry>)
    ensures PersistAll(p, added).lines == p.lines + added
  {
    if added != [] {
      PersistAllLines(p, Front(added));
      assert p.lines + added == (p.lines + Front(added)) + [Last(added)];
    }
  }

  /**
   Disk refines memory over whole runs: from a fresh session, or from an opened file that already
   holds an assistant message, every run of appends leaves the file equal to the log as soon as an
   assistant message is in it, and absent before.
   */
  lemma {:induction false} FileMirrorsLog(p: Persistence, added: seq<FileEntry>)
    requires Synced(p)
    ensures var q := PersistAll(p, added);
            && q.lines == p.lines + added
            && q.file == if HasAssistant(p.lines + added) then Some(p.lines + added) else None
    ensures Synced(PersistAll(p, added))
  {
    PersistAllLines(p, added);
    if added != [] {
      FileMirrorsLog(p, Front(added));
      SyncedStep(PersistAll(p, Front(added)), Last(added));
    }
  }

  /**
   An opened file without an assistant message is the one start from which the file can drift away
   from the log. The appends before the first assistant message decide it: with any of them, that
   message writes the whole log a second time.
   */
  lemma {:induction false} OpenedWithoutAssistant(file: seq<FileEntry>, added: seq<FileEntry>, k: nat)
    requires !HasAssistant(file) && k < |added| && IsAssistantLine(added[k])
    requires forall i | 0 <= i < k :: !IsAssistantLine(added[i])
    ensures var q := PersistAll(Persistence(file, true, Some(file)), added);
            && q.flushed
            && q.file == Some(if k == 0 then file + added else file + file + added)
  {
    var start := Persistence(file, true, Some(file));
    PersistAllLines(start, Front(added));
    ConcatAssociative(file, Front(added), [Last(added)]);
    SplitLast(added);
    assert HasAssistant(file + added) by {
      assert IsAssistantLine((file + added)[|file| + k]);
    }
    if k == |added| - 1 {
      NoAssistantIn(file, Front(added));
      NothingWritten(file, Front(added));
      ConcatAssociative(file, file, added);
    } else {
      OpenedWithoutAssistant(file, Front(added), k);
      ConcatAssociative(if k == 0 then file else file + file, Front(added), [Last(added)]);
    }
  }

  lemma NoAssistantIn(file: seq<FileEntry>, added: seq<FileEntry>)
    requires !HasAssistant(file) && forall i | 0 <= i < |added| :: !IsAssistantLine(added[i])
    ensures !HasAssistant(file + added)
  {
  }

  lemma {:induction false} NothingWritten(file: seq<FileEntry>, added: seq<FileEntry>)
    requires !HasAssistant(file + added)
    ensures var q := PersistAll(Persistence(file, true, Some(file)), added);
            q.file == Some(file) && (q.flushed <==> added == [])
  {
    if added != [] {
      var p := Persistence(file, true, Some(file));
      assert !HasAssistant(file + Front(added)) by {
        assert forall i | 0 <= i < |file + Front(added)| :: (file + Front(added))[i] == (file + added)[i];
      }
      NothingWritten(file, Front(added));
      PersistAllLines(p, Front(added));
      assert file + Front(added) + [Last(added)] == file + added;
    }
  }

  /** Exactly when a session opened from `file` keeps the file equal to the log. */
  lemma OpenedFileStaysExact(file: seq<FileEntry>, added: seq<FileEntry>)
    requires file != [] && HasAssistant(file + added)
    ensures PersistAll(Persistence(file, true, Some(file)), added).file == Some(file + added)
            <==> HasAssistant(file) || IsAssistantLine(added[0])
  {
    var p := Persistence(file, true, Some(file));
    if HasAssistant(file) {
      FileMirrorsLog(p, added);
    } else {
      var i :| 0 <= i < |file + added| && IsAssistantLine((file + added)[i]);
      var k := FirstAssistant(added, i - |file|);
      OpenedWithoutAssistant(file, added, k);
      if k > 0 {
        assert |file + file + added| != |file + added|;
      }
    }
  }

  /** A session file with a header only, then a user and an assistant message: the header is in the file twice. */
  lemma HeaderWrittenTwice(h: FileEntry, user: FileEntry, answer: FileEntry)
    requires !IsAssistantLine(h) && !IsAssistantLine(user) && IsAssistantLine(answer)
    ensures var q := PersistAll(Persistence([h], true, Some([h])), [user, answer]);
            q.lines == [h, user, answer] && q.file == Some([h, h, user, answer])
  {
    OpenedWithoutAssistant([h], [user, answer], 1);
    PersistAllLines(Persistence([h], true, Some([h])), [user, answer]);
    assert [h] + [user, answer] == [h, user, answer];
    assert [h] + [h] + [user, answer] == [h, h, user, answer];
  }

  lemma {:induction false} FirstAssistant(added: seq<FileEntry>, i: nat) returns (k: nat)
    requires i < |added| && IsAssistantLine(added[i])
    ensures k <= i && IsAssistantLine(added[k])
    ensures forall j | 0 <= j < k :: !IsAssistantLine(added[j])
  {
    if j :| 0 <= j < i && IsAssistantLine(added[j]) {
      k := FirstAssistant(added, j);
    } else {
      k := i;
    }
  }
}
