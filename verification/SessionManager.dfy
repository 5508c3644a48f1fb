/** The session manager: a mutable log with its indexes, its leaf and its file. */
module SessionManager {
  import opened Messages
  import opened Sequences
  import opened SessionLog
  import opened SessionContext
  import opened SessionBranching

  const CURRENT_SESSION_VERSION := 3

  type Path = string

  /** A file without a valid first line counts as empty. */
  function LoadEntries(content: seq<FileEntry>): seq<FileEntry>
  {
    if content == [] || !content[0].Header? then [] else content
  }

  /** The two maps agree on the keys. */
  predicate AgreeOn(keys: set<Id>, a: map<Id, int>, b: map<Id, int>)
  {
    forall t | t in keys :: t in a && t in b && a[t] == b[t]
  }

  lemma AgreeStep(labels: map<Id, string>, a: map<Id, int>, b: map<Id, int>, e: Entry)
    requires AgreeOn(labels.Keys, a, b)
    ensures AgreeOn(LabelStep(labels, e).Keys, LabelTimeStep(a, e), LabelTimeStep(b, e))
  {
  }

  class SessionManager {
    const persist: bool
    const cwd: string
    var sessionId: string
    var sessionFile: Option<Path>
    var flushed: bool
    var fileEntries: seq<FileEntry>
    var byId: map<Id, Entry>
    var labelsById: map<Id, string>
    var labelTimestampsById: map<Id, int>
    var leafId: Option<Id>
    /** The file system, as far as session files go. */
    var disk: map<Path, seq<FileEntry>>

    ghost function Log(): seq<Entry>
      reads this`fileEntries
    {
      Entries(fileEntries)
    }

    /** The path from the root to the leaf. */
    ghost function Branch(): seq<Entry>
      reads this`fileEntries, this`leafId
    {
      Ancestry(Log(), leafId)
    }

    /** Both indexes are what a rebuild from the log would give, and the leaf is in it. */
    ghost predicate Indexed()
      reads this`fileEntries, this`byId, this`labelsById, this`labelTimestampsById, this`leafId
    {
      && byId == Index(Log())
      && labelsById == Labels(Log())
      && AgreeOn(labelsById.Keys, labelTimestampsById, LabelTimes(Log()))
      && (leafId.Some? ==> leafId.value in byId)
    }

    ghost predicate Valid()
      reads this`fileEntries, this`byId, this`labelsById, this`labelTimestampsById, this`leafId
    {
      Indexed() && Ordered(Log())
    }

    ghost function Mirror(): Persistence
      reads this`fileEntries, this`flushed, this`sessionFile, this`disk
    {
      Persistence(fileEntries, flushed,
                  if sessionFile.Some? && sessionFile.value in disk then Some(disk[sessionFile.value]) else None)
    }

    /** A persisted session's file mirrors its log from the first assistant message on. */
    ghost predicate Durable()
      reads this`fileEntries, this`flushed, this`sessionFile, this`disk
    {
      persist ==> sessionFile.Some? && Synced(Mirror())
    }

    constructor (persist: bool, cwd: string, file: Option<Path>, disk: map<Path, seq<FileEntry>>,
                 newId: string, newFile: Path)
      requires file.Some? && file.value in disk ==> Current(disk[file.value])
      ensures this.persist == persist && this.cwd == cwd
      ensures file.None? ==> Valid() && Closed(Log()) && leafId == None && this.disk == disk
      ensures file.None? && newFile !in disk ==> Durable()
      ensures file.Some? ==> sessionFile == file && Indexed()
      ensures file.Some? && file.value in disk && disk[file.value] != [] && disk[file.value][0].Header? ==>
                && fileEntries == disk[file.value] && sessionId == disk[file.value][0].sessionId
                && leafId == LastId(Log()) && flushed && this.disk == disk && labelTimestampsById == LabelTimes(Log())
      ensures file.Some? && file.value in disk && (disk[file.value] == [] || !disk[file.value][0].Header?) ==>
                && fileEntries == [Header(newId, 3, cwd, None)] && leafId == None && flushed
                && this.disk == if persist then disk[file.value := fileEntries] else disk
      ensures file.Some? && file.value !in disk ==> Durable() && Log() == [] && this.disk == disk
    {
      this.persist, this.cwd, this.disk := persist, cwd, disk;
      sessionId, sessionFile, flushed, fileEntries, leafId := "", None, false, [], None;
      byId, labelsById, labelTimestampsById := map[], map[], map[];
      new;
      if file.Some? {
        SetSessionFile(file.value, newId, newFile);
      } else {
        NewSession(newId, None, newFile);
      }
    }

    method NewSession(newId: string, parentSession: Option<string>, newFile: Path)
      modifies this
      ensures fileEntries == [Header(newId, 3, cwd, parentSession)]
      ensures sessionId == newId && Log() == [] && leafId == None && !flushed && disk == old(disk)
      ensures sessionFile == if persist then Some(newFile) else old(sessionFile)
      ensures labelTimestampsById == old(labelTimestampsById)
      ensures Valid() && Closed(Log()) && !HasAssistant(fileEntries)
      ensures newFile !in disk ==> Durable()
    {
      sessionId := newId;
      fileEntries := [Header(newId, CURRENT_SESSION_VERSION, cwd, parentSession)];
      byId, labelsById, leafId, flushed := map[], map[], None, false;
      if persist {
        sessionFile := Some(newFile);
      }
      EntriesOfFile(fileEntries[0], []);
      assert [fileEntries[0]] + Lines([]) == fileEntries;
    }

    /** Opens a file; one that is missing, empty or without a header becomes a new session at that path. */
    method SetSessionFile(path: Path, newId: string, newFile: Path)
      requires path in disk ==> Current(disk[path])
      modifies this
      ensures sessionFile == Some(path) && Indexed()
      ensures path in old(disk) && old(disk)[path] != [] && old(disk)[path][0].Header? ==>
                && fileEntries == old(disk)[path] && sessionId == old(disk)[path][0].sessionId
                && leafId == LastId(Log()) && flushed && disk == old(disk) && labelTimestampsById == LabelTimes(Log())
      ensures path in old(disk) && (old(disk)[path] == [] || !old(disk)[path][0].Header?) ==>
                && fileEntries == [Header(newId, 3, cwd, None)] && leafId == None && flushed && sessionId == newId
                && disk == if persist then old(disk)[path := fileEntries] else old(disk)
      ensures path !in old(disk) ==>
                && fileEntries == [Header(newId, 3, cwd, None)] && Log() == [] && leafId == None
                && sessionId == newId && disk == old(disk) && Durable()
    {
      sessionFile := Some(path);
      if path in disk {
        fileEntries := LoadEntries(disk[path]);
        if |fileEntries| == 0 {
          StartOver(path, newId, newFile);
          return;
        }
        sessionId := fileEntries[0].sessionId;
        BuildIndex();
        flushed := true;
      } else {
        NewSession(newId, None, newFile);
        sessionFile := Some(path);
      }
    }

    /** A file that holds no session becomes one with a header only. */
    method StartOver(path: Path, newId: string, newFile: Path)
      modifies this
      ensures fileEntries == [Header(newId, 3, cwd, None)] && sessionId == newId && leafId == None && flushed
      ensures sessionFile == Some(path) && Indexed()
      ensures disk == if persist then old(disk)[path := fileEntries] else old(disk)
    {
      NewSession(newId, None, newFile);
      sessionFile := Some(path);
      RewriteFile();
      flushed := true;
    }

    method RecordLabel(entry: Entry)
      requires entry.body.Label?
      modifies this`labelsById, this`labelTimestampsById
      ensures labelsById == LabelStep(old(labelsById), entry)
      ensures labelTimestampsById == LabelTimeStep(old(labelTimestampsById), entry)
    {
      if Truthy(entry.body.labelText) {
        labelsById := labelsById[entry.body.targetId := entry.body.labelText.value];
        labelTimestampsById := labelTimestampsById[entry.body.targetId := entry.timestamp];
      } else {
        labelsById := labelsById - {entry.body.targetId};
        labelTimestampsById := labelTimestampsById - {entry.body.targetId};
      }
    }

    method IndexEntry(entry: Entry)
      modifies this`byId, this`labelsById, this`labelTimestampsById, this`leafId
      ensures byId == old(byId)[entry.id := entry] && leafId == Some(entry.id)
      ensures labelsById == LabelStep(old(labelsById), entry)
      ensures labelTimestampsById == LabelTimeStep(old(labelTimestampsById), entry)
    {
      byId := byId[entry.id := entry];
      leafId := Some(entry.id);
      if entry.body.Label? {
        RecordLabel(entry);
      }
    }

    method BuildIndex()
      modifies this`byId, this`labelsById, this`labelTimestampsById, this`leafId
      ensures Indexed() && leafId == LastId(Log()) && labelTimestampsById == LabelTimes(Log())
    {
      byId, labelsById, labelTimestampsById, leafId := map[], map[], map[], None;
      for i := 0 to |fileEntries|
        invariant byId == Index(Entries(fileEntries[..i])) && leafId == LastId(Entries(fileEntries[..i]))
        invariant labelsById == Labels(Entries(fileEntries[..i]))
        invariant labelTimestampsById == LabelTimes(Entries(fileEntries[..i]))
        invariant leafId.Some? ==> leafId.value in byId
      {
        FrontOfPrefix(fileEntries, i);
        if fileEntries[i].Line? {
          assert Entries(fileEntries[..i + 1]) == Entries(fileEntries[..i]) + [fileEntries[i].entry];
          FrontOfAppend(Entries(fileEntries[..i]), fileEntries[i].entry);
          IndexEntry(fileEntries[i].entry);
        } else {
          assert Entries(fileEntries[..i + 1]) == Entries(fileEntries[..i]);
        }
      }
      assert fileEntries[..|fileEntries|] == fileEntries;
      LabelTimesDomain(Log());
    }

    method RewriteFile()
      modifies this`disk
      ensures disk == if persist && sessionFile.Some? then old(disk)[sessionFile.value := fileEntries] else old(disk)
    {
      if !persist || sessionFile.None? { return; }
      disk := disk[sessionFile.value := fileEntries];
    }

    method AppendToFile(line: FileEntry)
      requires sessionFile.Some?
      modifies this`disk
      ensures disk == old(disk)[sessionFile.value := Content(old(Mirror().file)) + [line]]
    {
      disk := disk[sessionFile.value := (if sessionFile.value in disk then disk[sessionFile.value] else []) + [line]];
    }

    method FlushAll()
      requires sessionFile.Some? && fileEntries != []
      modifies this`disk
      ensures disk == old(disk)[sessionFile.value := Content(old(Mirror().file)) + fileEntries]
    {
      ghost var file, before := sessionFile.value, Content(Mirror().file);
      for i := 0 to |fileEntries|
        invariant i == 0 ==> disk == old(disk)
        invariant i > 0 ==> file in disk && disk[file] == before + fileEntries[..i]
        invariant disk - {file} == old(disk) - {file}
      {
        AppendToFile(fileEntries[i]);
        assert fileEntries[..i + 1] == fileEntries[..i] + [fileEntries[i]];
      }
      assert fileEntries[..|fileEntries|] == fileEntries;
      assert disk == old(disk)[file := before + fileEntries] by {
        forall p | p in disk && p != file ensures p in old(disk) && disk[p] == old(disk)[p] {
          assert p in disk - {file};
          assert (disk - {file})[p] == (old(disk) - {file})[p];
        }
        forall p | p in old(disk) && p != file ensures p in disk {
          assert p in old(disk) - {file};
        }
      }
    }

    method Persist(entry: Entry)
      requires fileEntries != [] && Last(fileEntries) == Line(entry)
      modifies this`flushed, this`disk
      ensures persist && sessionFile.Some? ==>
                Mirror() == PersistStep(old(Mirror()).(lines := Front(fileEntries)), Line(entry))
      ensures disk == if persist && sessionFile.Some? && Mirror().file.Some?
                      then old(disk)[sessionFile.value := Mirror().file.value] else old(disk)
      ensures !(persist && sessionFile.Some?) ==> flushed == old(flushed)
    {
      assert Front(fileEntries) + [Line(entry)] == fileEntries;
      if !persist || sessionFile.None? { return; }
      var hasAssistant := exists i | 0 <= i < |fileEntries| :: IsAssistantLine(fileEntries[i]);
      if !hasAssistant {
        flushed := false;
        return;
      }
      if !flushed {
        FlushAll();
        flushed := true;
      } else {
        AppendToFile(Line(entry));
      }
    }

    /** The log, the branch and the context grow by the entry, and the leaf moves to it. */
    twostate predicate Grew(entry: Entry)
      reads this`fileEntries, this`leafId
    {
      && fileEntries == old(fileEntries) + [Line(entry)]
      && Log() == old(Log()) + [entry]
      && Branch() == old(Branch()) + [entry]
      && leafId == Some(entry.id) && leafId == LastId(Log())
      && (!entry.body.Compaction? ==> MessagesOf(Branch()) == old(MessagesOf(Branch())) + Shown(entry))
      && (entry.body.Compaction? ==>
            MessagesOf(Branch()) == [Summary(entry)] + Visible(From(old(Branch()), entry.body.firstKeptEntryId)))
      && (old(Closed(Log())) ==> Closed(Log()))
    }

    /** The file follows by the deferred protocol, and goes on mirroring the log if it did. */
    twostate predicate Followed(entry: Entry)
      reads this`fileEntries, this`flushed, this`sessionFile, this`disk
    {
      && sessionFile == old(sessionFile)
      && (if persist && sessionFile.Some? then Mirror() == PersistStep(old(Mirror()), Line(entry))
          else flushed == old(flushed) && disk == old(disk))
      && (old(Durable()) ==> Durable())
    }

    method PushEntry(entry: Entry)
      requires Valid() && Unused(Log(), entry.id) && entry.parentId == leafId
      modifies this`fileEntries, this`byId, this`leafId
      ensures Grew(entry) && Ordered(Log()) && byId == Index(Log())
      ensures Labels(Log()) == LabelStep(old(Labels(Log())), entry)
      ensures LabelTimes(Log()) == LabelTimeStep(old(LabelTimes(Log())), entry)
    {
      fileEntries := fileEntries + [Line(entry)];
      byId := byId[entry.id := entry];
      leafId := Some(entry.id);
      FrontOfAppend(old(fileEntries), Line(entry));
      assert Log() == old(Log()) + [entry];
      AppendFacts(old(Log()), entry);
    }

    method AppendEntry(entry: Entry)
      requires Valid() && Unused(Log(), entry.id) && entry.parentId == leafId
      modifies this`fileEntries, this`byId, this`leafId, this`flushed, this`disk
      ensures Grew(entry) && Followed(entry) && Ordered(Log()) && byId == Index(Log())
      ensures Labels(Log()) == LabelStep(old(Labels(Log())), entry)
      ensures LabelTimes(Log()) == LabelTimeStep(old(LabelTimes(Log())), entry)
    {
      ghost var p := Mirror();
      PushEntry(entry);
      PersistPushed(entry, p);
    }

    /** `p` is how log and file stood before the entry was pushed. */
    method PersistPushed(entry: Entry, ghost p: Persistence)
      requires Mirror() == p.(lines := p.lines + [Line(entry)])
      modifies this`flushed, this`disk
      ensures if persist && sessionFile.Some? then Mirror() == PersistStep(p, Line(entry))
              else flushed == old(flushed) && disk == old(disk)
      ensures persist && sessionFile.Some? && Synced(p) ==> Durable()
    {
      FrontOfAppend(p.lines, Line(entry));
      Persist(entry);
      if Synced(p) {
        SyncedStep(p, Line(entry));
      }
    }

    /**
     Appends a child of the leaf and advances the leaf. The source has one method for each kind of
     entry (message, thinking level, model, compaction, custom, info, custom message), which differ
     only in the body they store.
     */
    method Append(body: Body, id: Id, timestamp: int) returns (newId: Id)
      requires Valid() && Unused(Log(), id) && !body.Label?
      modifies this`fileEntries, this`byId, this`leafId, this`flushed, this`disk
      ensures Valid() && newId == id
      ensures var entry := Entry(id, old(leafId), timestamp, body); Grew(entry) && Followed(entry)
    {
      var entry := Entry(id, leafId, timestamp, body);
      AppendEntry(entry);
      return entry.id;
    }

    method AppendLabelChange(targetId: Id, text: Option<string>, id: Id, timestamp: int) returns (r: Result<Id, string>)
      requires Valid() && Unused(Log(), id)
      modifies this`fileEntries, this`byId, this`leafId, this`flushed, this`disk
      modifies this`labelsById, this`labelTimestampsById
      ensures Valid() && r == if targetId in old(byId) then Ok(id) else Err("Entry not found")
      ensures r.Err? ==> unchanged(this)
      ensures r.Ok? ==>
                var entry := Entry(id, old(leafId), timestamp, Label(targetId, text)); Grew(entry) && Followed(entry)
    {
      if targetId !in byId {
        return Err("Entry not found");
      }
      var entry := Entry(id, leafId, timestamp, Label(targetId, text));
      AppendLabel(entry);
      return Ok(entry.id);
    }

    method AppendLabel(entry: Entry)
      requires Valid() && Unused(Log(), entry.id) && entry.parentId == leafId && entry.body.Label?
      modifies this`fileEntries, this`byId, this`leafId, this`flushed, this`disk
      modifies this`labelsById, this`labelTimestampsById
      ensures Valid() && Grew(entry) && Followed(entry)
    {
      AgreeStep(labelsById, labelTimestampsById, LabelTimes(Log()), entry);
      AppendEntry(entry);
      assert leafId.value in byId;
      RecordLabel(entry);
    }

    /** Walks from an entry, or from the leaf, to the root. */
    method GetBranch(fromId: Option<Id>) returns (path: seq<Entry>)
      requires Valid()
      ensures path == Ancestry(Log(), if fromId.Some? then fromId else leafId)
    {
      var startId := if fromId.Some? then fromId else leafId;
      path := CollectPath(Log(), byId, startId);
    }

    method GetContext() returns (context: Context)
      requires Valid()
      ensures context == ContextOf(Branch())
    {
      var es := GetEntries();
      context := BuildSessionContext(es, if leafId.Some? then At(leafId.value) else BeforeFirst, Some(byId));
    }

    method GetEntries() returns (es: seq<Entry>)
      ensures es == Log()
    {
      es := [];
      for i := 0 to |fileEntries|
        invariant es == Entries(fileEntries[..i])
      {
        FrontOfPrefix(fileEntries, i);
        if fileEntries[i].Line? {
          es := es + [fileEntries[i].entry];
        }
      }
      assert fileEntries[..|fileEntries|] == fileEntries;
    }

    method BranchFrom(branchFromId: Id) returns (r: Result<(), string>)
      requires Valid()
      modifies this`leafId
      ensures Valid() && (r.Ok? <==> branchFromId in byId)
      ensures leafId == if r.Ok? then Some(branchFromId) else old(leafId)
    {
      if branchFromId !in byId {
        return Err("Entry not found");
      }
      leafId := Some(branchFromId);
      return Ok(());
    }

    method ResetLeaf()
      requires Valid()
      modifies this`leafId
      ensures Valid() && leafId == None && Branch() == []
    {
      leafId := None;
    }

    method BranchWithSummary(branchFromId: Option<Id>, summary: string, id: Id, timestamp: int)
      returns (r: Result<Id, string>)
      requires Valid() && Unused(Log(), id)
      modifies this`fileEntries, this`byId, this`leafId, this`flushed, this`disk
      ensures Valid()
      ensures r == if branchFromId.None? || branchFromId.value in old(byId) then Ok(id) else Err("Entry not found")
      ensures r.Err? ==> unchanged(this)
      ensures r.Ok? ==>
                var entry := Entry(id, branchFromId, timestamp, BranchSummaryBody(branchFromId, summary));
                var target := Ancestry(old(Log()), branchFromId);
                && leafId == Some(id)
                && Log() == old(Log()) + [entry]
                && Branch() == target + [entry]
                && MessagesOf(Branch()) == MessagesOf(target) + Shown(entry)
                && (persist && sessionFile.Some? ==> Mirror() == PersistStep(old(Mirror()), Line(entry)))
      ensures old(Closed(Log())) ==> Closed(Log())
      ensures old(Durable()) ==> Durable()
    {
      if branchFromId.Some? && branchFromId.value !in byId {
        return Err("Entry not found");
      }
      leafId := branchFromId;
      assert Branch() == Ancestry(old(Log()), branchFromId);
      var newId := Append(BranchSummaryBody(branchFromId, summary), id, timestamp);
      return Ok(newId);
    }

    /** The log of the branched session, label entries re-created from the index. */
    method BranchedLog(path: seq<Entry>, order: seq<Id>, ids: seq<Id>) returns (es: seq<Entry>)
      requires |order| <= |ids| && forall t | t in order :: t in labelsById && t in labelTimestampsById
      ensures es == Branched(path, order, labelsById, labelTimestampsById, ids)
    {
      var pathWithoutLabels := WithoutLabels(path);
      var pathEntryIds := Ids(pathWithoutLabels);
      var labelsToWrite: seq<Id> := [];
      for i := 0 to |order|
        invariant labelsToWrite == Kept(order[..i], pathEntryIds)
      {
        FrontOfPrefix(order, i);
        if order[i] in pathEntryIds {
          labelsToWrite := labelsToWrite + [order[i]];
        }
      }
      assert order[..|order|] == order;
      KeptSubset(order, pathEntryIds);

      var parentId := LastId(pathWithoutLabels);
      var labelEntries: seq<Entry> := [];
      for i := 0 to |labelsToWrite|
        invariant labelEntries
               == LabelChain(labelsToWrite[..i], labelsById, labelTimestampsById, ids, LastId(pathWithoutLabels))
        invariant parentId == if i == 0 then LastId(pathWithoutLabels) else Some(labelEntries[i - 1].id)
      {
        FrontOfPrefix(labelsToWrite, i);
        var targetId := labelsToWrite[i];
        assert targetId in order;
        var entry :=
          Entry(ids[i], parentId, labelTimestampsById[targetId], Label(targetId, Some(labelsById[targetId])));
        labelEntries := labelEntries + [entry];
        parentId := Some(entry.id);
      }
      assert labelsToWrite[..|labelsToWrite|] == labelsToWrite;
      es := pathWithoutLabels + labelEntries;
    }

    /**
     Replaces the session by the path to `leaf`. `order` is the order in which the label index lists
     its keys, `ids` the ids the new label entries get.
     */
    method CreateBranchedSession(
      leaf: Id, order: seq<Id>, ids: seq<Id>, newId: string, newFile: Path) returns (r: Result<Option<Path>, string>)
      requires Valid()
      requires |order| <= |ids| && forall t :: t in order <==> t in labelsById
      requires FreshIds(Ancestry(Log(), Some(leaf)), ids)
      modifies this
      ensures Valid() && (r.Ok? <==> leaf in old(byId))
      ensures r.Err? ==> unchanged(this)
      ensures r.Ok? ==>
                && Log()
                   == Branched(Ancestry(old(Log()), Some(leaf)), order, old(labelsById), old(labelTimestampsById), ids)
                && fileEntries == [Header(newId, 3, cwd, if persist then old(sessionFile) else None)] + Lines(Log())
                && leafId == LastId(Log()) && sessionId == newId && r.value == (if persist then Some(newFile) else None)
                && sessionFile == (if persist then Some(newFile) else old(sessionFile))
                && disk
                   == (if persist && HasAssistant(fileEntries) then old(disk)[newFile := fileEntries] else old(disk))
                && (persist && newFile !in old(disk) ==> Durable())
    {
      var path := GetBranch(Some(leaf));
      if |path| == 0 {
        if leaf in byId { AncestryUnfold(Log(), leaf); }
        return Err("Entry not found");
      }
      if leaf !in byId { AncestryMissing(Log(), leaf); }
      assert Ordered(Branched(path, order, labelsById, labelTimestampsById, ids)) by {
        AncestryShape(Log(), Some(leaf));
        BranchedShape(path, order, labelsById, labelTimestampsById, ids);
      }
      var es := BranchedLog(path, order, ids);
      Install(es, newId, newFile);
      return Ok(if persist then Some(newFile) else None);
    }

    /** Only a log with an assistant message in it is written now; any other waits for one. */
    method Install(es: seq<Entry>, newId: string, newFile: Path)
      requires Ordered(es)
      modifies this
      ensures Valid() && Log() == es && leafId == LastId(es) && sessionId == newId
      ensures fileEntries == [Header(newId, 3, cwd, if persist then old(sessionFile) else None)] + Lines(es)
      ensures sessionFile == if persist then Some(newFile) else old(sessionFile)
      ensures disk == if persist && HasAssistant(fileEntries) then old(disk)[newFile := fileEntries] else old(disk)
      ensures persist && newFile !in old(disk) ==> Durable()
    {
      var header := Header(newId, CURRENT_SESSION_VERSION, cwd, if persist then sessionFile else None);
      fileEntries := [header] + Lines(es);
      EntriesOfFile(header, es);
      sessionId := newId;
      if persist {
        sessionFile := Some(newFile);
      }
      BuildIndex();
      if persist {
        WriteOrDefer();
      }
    }

    method WriteOrDefer()
      requires persist && sessionFile.Some?
      modifies this`flushed, this`disk
      ensures disk == if HasAssistant(fileEntries) then old(disk)[sessionFile.value := fileEntries] else old(disk)
      ensures sessionFile.value !in old(disk) ==> Durable()
    {
      var hasAssistant := exists i | 0 <= i < |fileEntries| :: IsAssistantLine(fileEntries[i]);
      if hasAssistant {
        RewriteFile();
        flushed := true;
      } else {
        flushed := false;
      }
    }
  }

  /** What appending below the leaf means for the log, its indexes, its paths and its contexts. */
  lemma AppendFacts(es: seq<Entry>, e: Entry)
    requires Ordered(es) && Unused(es, e.id) && (e.parentId.Some? ==> e.parentId.value in Index(es))
    ensures var all := es + [e];
            var path := Ancestry(es, e.parentId);
            && Ordered(all) && (Closed(es) ==> Closed(all)) && LastId(all) == Some(e.id)
            && Index(all) == Index(es)[e.id := e]
            && Labels(all) == LabelStep(Labels(es), e) && LabelTimes(all) == LabelTimeStep(LabelTimes(es), e)
            && Ancestry(all, Some(e.id)) == path + [e]
            && (!e.body.Compaction? ==> MessagesOf(path + [e]) == MessagesOf(path) + Shown(e))
            && (e.body.Compaction? ==>
                  MessagesOf(path + [e]) == [Summary(e)] + Visible(From(path, e.body.firstKeptEntryId)))
  {
    IndexDomain(es, e.id);
    if e.parentId.Some? { IndexDomain(es, e.parentId.value); }
    FrontOfAppend(es, e);
    OrderedAppend(es, e);
    AncestryAppend(es, e, None);
    if e.body.Compaction? {
      ContextCompacts(Ancestry(es, e.parentId), e);
    } else {
      ContextGrows(Ancestry(es, e.parentId), e);
    }
  }

  /** Files written by this version need no migration. */
  predicate Current(content: seq<FileEntry>)
  {
    content != [] && content[0].Header? ==> content[0].version >= CURRENT_SESSION_VERSION
  }

  /** Reopening a session right after an append finds the session that was left. */
  method Reopen(m: SessionManager, newId: string, newFile: Path) returns (again: SessionManager)
    requires m.Valid() && m.Durable() && m.persist && m.leafId == LastId(m.Log())
    requires HasAssistant(m.fileEntries) && m.fileEntries[0].Header?
    requires m.fileEntries[0].version >= CURRENT_SESSION_VERSION
    ensures fresh(again) && again.Valid() && again.Durable()
    ensures again.fileEntries == m.fileEntries && again.byId == m.byId && again.labelsById == m.labelsById
    ensures again.leafId == m.leafId && ContextOf(again.Branch()) == ContextOf(m.Branch())
    ensures again.disk == m.disk
  {
    again := new SessionManager(true, m.cwd, m.sessionFile, m.disk, newId, newFile);
  }

  /** What is asked of an append. */
  datatype Addition = Addition(id: Id, timestamp: int, body: Body)

  predicate IsResponse(a: Addition)
  {
    a.body.MessageBody? && a.body.message.Assistant?
  }

  /** What was asked to get these entries. */
  function Asked(es: seq<Entry>): seq<Addition>
  {
    seq(|es|, i requires 0 <= i < |es| => Addition(es[i].id, es[i].timestamp, es[i].body))
  }

  ghost predicate DistinctAdditions(all: seq<Addition>)
  {
    forall i, j | 0 <= i < j < |all| :: all[i].id != all[j].id
  }

  ghost predicate UnusedFrom(es: seq<Entry>, all: seq<Addition>, i: nat)
  {
    forall j | i <= j < |all| :: Unused(es, all[j].id)
  }

  lemma StayUnused(es: seq<Entry>, e: Entry, all: seq<Addition>, i: nat)
    requires i < |all| && UnusedFrom(es, all, i) && DistinctAdditions(all) && e.id == all[i].id
    requires e.parentId.Some? ==> e.parentId.value in Index(es)
    ensures UnusedFrom(es + [e], all, i + 1)
  {
    if e.parentId.Some? {
      IndexDomain(es, e.parentId.value);
    }
  }

  /** An opened session that has appended `added`; `start` is how log and file stood when it was opened. */
  ghost predicate Resumed(m: SessionManager, start: Persistence, added: seq<Entry>)
    reads m
  {
    && m.Valid() && m.persist && m.sessionFile.Some?
    && m.fileEntries == start.lines + Lines(added) && m.Mirror() == PersistAll(start, Lines(added))
  }

  method AppendNext(m: SessionManager, all: seq<Addition>, i: nat, ghost start: Persistence, ghost added: seq<Entry>)
    returns (ghost e: Entry)
    requires Resumed(m, start, added) && UnusedFrom(m.Log(), all, i) && DistinctAdditions(all)
    requires i < |all| && !all[i].body.Label?
    modifies m
    ensures Resumed(m, start, added + [e]) && UnusedFrom(m.Log(), all, i + 1) && m.sessionFile == old(m.sessionFile)
    ensures Addition(e.id, e.timestamp, e.body) == all[i]
  {
    e := Entry(all[i].id, m.leafId, all[i].timestamp, all[i].body);
    assert Unused(m.Log(), all[i].id);
    var appended := m.Append(all[i].body, all[i].id, all[i].timestamp);
    StayUnused(old(m.Log()), e, all, i);
    FrontOfAppend(added, e);
    FrontOfAppend(Lines(added), Line(e));
    ConcatAssociative(start.lines, Lines(added), [Line(e)]);
  }

  method AppendEach(m: SessionManager, all: seq<Addition>, i: nat, ghost start: Persistence, ghost before: seq<Entry>)
    returns (ghost added: seq<Entry>)
    requires Resumed(m, start, before) && UnusedFrom(m.Log(), all, i) && DistinctAdditions(all)
    requires i <= |all| && Asked(before) == all[..i] && forall j | i <= j < |all| :: !all[j].body.Label?
    modifies m
    ensures Resumed(m, start, added) && Asked(added) == all && m.sessionFile == old(m.sessionFile)
    decreases |all| - i
  {
    if i == |all| {
      assert all[..i] == all;
      return before;
    }
    ghost var e := AppendNext(m, all, i, start, before);
    AskedAppend(before, e);
    FrontOfPrefix(all, i);
    added := AppendEach(m, all, i + 1, start, before + [e]);
  }

  lemma AskedAppend(es: seq<Entry>, e: Entry)
    ensures Asked(es + [e]) == Asked(es) + [Addition(e.id, e.timestamp, e.body)]
  {
  }

  /**
   Opens a session file without an assistant message and appends to it: the first one, the append at `k`, writes
   everything a second time, unless it is the first append.
   */
  method ResumeAndAppend(cwd: string, path: Path, disk: map<Path, seq<FileEntry>>, all: seq<Addition>, ghost k: nat,
                         newId: string, newFile: Path)
    returns (m: SessionManager, ghost added: seq<Entry>)
    requires path in disk && disk[path] != [] && disk[path][0].Header? && Current(disk[path])
    requires Ordered(Entries(disk[path])) && UnusedFrom(Entries(disk[path]), all, 0) && DistinctAdditions(all)
    requires forall i | 0 <= i < |all| :: !all[i].body.Label?
    requires !HasAssistant(disk[path]) && k < |all| && IsResponse(all[k])
    requires forall i | 0 <= i < k :: !IsResponse(all[i])
    ensures fresh(m) && m.Valid() && m.fileEntries == disk[path] + Lines(added) && Asked(added) == all
    ensures path in m.disk && m.disk[path] == if k == 0 then m.fileEntries else disk[path] + m.fileEntries
  {
    m := OpenExisting(cwd, path, disk, newId, newFile);
    added := AppendEach(m, all, 0, Persistence(disk[path], true, Some(disk[path])), []);
    ResumedFile(disk[path], added, all, k);
  }

  method OpenExisting(cwd: string, path: Path, disk: map<Path, seq<FileEntry>>, newId: string, newFile: Path)
    returns (m: SessionManager)
    requires path in disk && disk[path] != [] && disk[path][0].Header? && Current(disk[path])
    requires Ordered(Entries(disk[path]))
    ensures fresh(m) && m.sessionFile == Some(path)
    ensures Resumed(m, Persistence(disk[path], true, Some(disk[path])), []) && m.Log() == Entries(disk[path])
  {
    m := new SessionManager(true, cwd, Some(path), disk, newId, newFile);
    assert disk[path] + [] == disk[path];
  }

  /** What the file holds after these appends. */
  lemma ResumedFile(file: seq<FileEntry>, added: seq<Entry>, all: seq<Addition>, k: nat)
    requires Asked(added) == all && !HasAssistant(file) && k < |all| && IsResponse(all[k])
    requires forall i | 0 <= i < k :: !IsResponse(all[i])
    ensures PersistAll(Persistence(file, true, Some(file)), Lines(added)).file
         == Some(if k == 0 then file + Lines(added) else file + (file + Lines(added)))
  {
    var lines := Lines(added);
    LinesAt(added);
    forall i | 0 <= i <= k ensures IsAssistantLine(lines[i]) <==> IsResponse(all[i]) {
      assert Asked(added)[i] == all[i];
    }
    OpenedWithoutAssistant(file, lines, k);
    ConcatAssociative(file, file, lines);
  }

  lemma {:induction false} LinesAt(es: seq<Entry>)
    ensures |Lines(es)| == |es| && forall i | 0 <= i < |es| :: Lines(es)[i] == Line(es[i])
  {
    if es != [] {
      LinesAt(Front(es));
    }
  }

  /** Writes the branch at the leaf to a file of its own, re-chained into one line. */
  method ExportToJsonl(m: SessionManager) returns (file: seq<FileEntry>)
    requires m.Valid()
    ensures file == [Header(m.sessionId, 3, m.cwd, None)] + Lines(Rechain(m.Branch()))
    ensures var es := Entries(file);
            && es == Rechain(m.Branch())
            && Ordered(es)
            && ContextAt(es, Unspecified) == ContextOf(m.Branch())
  {
    var branchEntries := m.GetBranch(None);
    AncestryShape(m.Log(), m.leafId);
    var lines: seq<Entry> := [];
    var prevId: Option<Id> := None;
    for i := 0 to |branchEntries|
      invariant lines == Rechain(branchEntries[..i]) && prevId == LastId(branchEntries[..i])
    {
      FrontOfPrefix(branchEntries, i);
      lines := lines + [branchEntries[i].(parentId := prevId)];
      prevId := Some(branchEntries[i].id);
    }
    assert branchEntries[..|branchEntries|] == branchEntries;
    var header := Header(m.sessionId, CURRENT_SESSION_VERSION, m.cwd, None);
    file := [header] + Lines(lines);
    EntriesOfFile(header, lines);
    RechainShape(branchEntries);
    ExportKeepsContext(branchEntries);
  }
}
