/** What a path through the session log means to the model: its messages, thinking level and model. */
module SessionContext {
  import opened Messages
  import opened Sequences
  import opened SessionLog

  datatype ModelRef = ModelRef(provider: string, modelId: string)

  datatype Context = Context(messages: seq<AgentMessage>, thinkingLevel: string, model: Option<ModelRef>)

  const NO_CONTEXT := Context([], "off", None)

  /** The message an entry shows to the model, if it shows one. */
  function Shown(e: Entry): seq<AgentMessage>
  {
    match e.body
    case MessageBody(message) => [message]
    case CustomMessageBody(messageType, content, display, details) =>
      [CustomMessage(messageType, content, display, details, e.timestamp)]
    case BranchSummaryBody(fromId, summary) =>
      if summary != "" then [BranchSummary(summary, fromId, e.timestamp)] else []
    case _ => []
  }

  function Visible(path: seq<Entry>): seq<AgentMessage>
  {
    if path == [] then [] else Visible(Front(path)) + Shown(Last(path))
  }

  function Summary(e: Entry): AgentMessage
    requires e.body.Compaction?
  {
    CompactionSummary(e.body.compactionSummary, e.body.tokensBefore, e.timestamp)
  }

  function LastCompaction(path: seq<Entry>): (c: Option<nat>)
    ensures c.Some? ==> c.value < |path| && path[c.value].body.Compaction?
    ensures c.Some? ==> forall i | c.value < i < |path| :: !path[i].body.Compaction?
    ensures c.None? ==> forall i | 0 <= i < |path| :: !path[i].body.Compaction?
  {
    if path == [] then None
    else if Last(path).body.Compaction? then Some(|path| - 1)
    else LastCompaction(Front(path))
  }

  /** The entries from the one with `id` on, or none if it is not there. */
  function From(path: seq<Entry>, id: Id): seq<Entry>
  {
    if path == [] then []
    else if path[0].id == id then path
    else From(path[1..], id)
  }

  function LevelOf(path: seq<Entry>): string
  {
    if path == [] then "off"
    else if Last(path).body.ThinkingLevelChange? then Last(path).body.thinkingLevel
    else LevelOf(Front(path))
  }

  function ModelOf(path: seq<Entry>): Option<ModelRef>
  {
    if path == [] then None
    else
      match Last(path).body
      case ModelChange(provider, modelId) => Some(ModelRef(provider, modelId))
      case MessageBody(message) =>
        if message.Assistant? then Some(ModelRef(message.provider, message.modelId)) else ModelOf(Front(path))
      case _ => ModelOf(Front(path))
  }

  function MessagesOf(path: seq<Entry>): seq<AgentMessage>
  {
    match LastCompaction(path)
    case None => Visible(path)
    case Some(c) =>
      [Summary(path[c])] + Visible(From(path[..c], path[c].body.firstKeptEntryId)) + Visible(path[c + 1..])
  }

  function ContextOf(path: seq<Entry>): Context
  {
    Context(MessagesOf(path), LevelOf(path), ModelOf(path))
  }

  /** Where a caller asks for the context: nowhere in particular, before the first entry, or at an id. */
  datatype LeafRef = Unspecified | BeforeFirst | At(id: Id)

  /** An unknown or unspecified leaf falls back to the last entry of the log. */
  function ContextAt(es: seq<Entry>, leaf: LeafRef): Context
  {
    match leaf
    case BeforeFirst => NO_CONTEXT
    case At(id) => ContextOf(Ancestry(es, if id in Index(es) then Some(id) else LastId(es)))
    case Unspecified => ContextOf(Ancestry(es, LastId(es)))
  }

  // ---------------------------------------------------------------------------------------------
  // The loops that compute it
  // ---------------------------------------------------------------------------------------------

  method CollectPath(ghost es: seq<Entry>, byId: map<Id, Entry>, start: Option<Id>) returns (path: seq<Entry>)
    requires Ordered(es) && byId == Index(es)
    ensures path == Ancestry(es, start)
  {
    path := [];
    var current := if start.Some? && start.value in byId then Some(byId[start.value]) else None;
    ghost var at := start;
    if start.Some? && start.value !in byId { AncestryMissing(es, start.value); }
    while current.Some?
      invariant Ancestry(es, start) == Ancestry(es, at) + path
      invariant current.Some? ==> at.Some? && at.value in byId && byId[at.value] == current.value
      invariant current.None? ==> Ancestry(es, at) == []
      decreases |Ancestry(es, at)| + if current.Some? then 1 else 0
    {
      AncestryUnfold(es, at.value);
      path := [current.value] + path;
      at := current.value.parentId;
      if at.Some? && at.value !in byId { AncestryMissing(es, at.value); }
      current :=
        if current.value.parentId.Some? && current.value.parentId.value in byId
        then Some(byId[current.value.parentId.value]) else None;
    }
  }

  /** The kept part grows with its path: once the first kept entry is reached, every later one is kept. */
  lemma {:induction false} FromPrefix(path: seq<Entry>, id: Id, i: nat, found: bool)
    requires i < |path| && found == (exists j | 0 <= j <= i :: path[j].id == id)
    ensures From(path[..i + 1], id) == if found then From(path[..i], id) + [path[i]] else []
  {
    if i > 0 && path[0].id != id {
      FromPrefix(path[1..], id, i - 1, found);
      assert path[1..][..i - 1] == path[..i][1..];
      assert path[1..][..i] == path[..i + 1][1..];
      if found {
        var j :| 0 <= j <= i && path[j].id == id;
        assert path[1..][j - 1].id == id;
      }
    } else if path[0].id == id {
      assert path[..i + 1] == path[..i] + [path[i]];
    }
  }

  lemma VisibleAppend(path: seq<Entry>, e: Entry)
    ensures Visible(path + [e]) == Visible(path) + Shown(e)
  {
    FrontOfAppend(path, e);
  }

  /** Position of the first compaction entry with the given id, as the source looks it up again. */
  method FindCompaction(path: seq<Entry>, compaction: Entry, ghost c: nat) returns (i: nat)
    requires Distinct(path) && c < |path| && path[c] == compaction && compaction.body.Compaction?
    ensures i == c
  {
    i := 0;
    while !(path[i].body.Compaction? && path[i].id == compaction.id)
      invariant i <= c
      decreases c - i
    {
      i := i + 1;
    }
  }

  /** First pass over the path: the settings in force at its end, and the last compaction on it. */
  method ScanPath(path: seq<Entry>)
    returns (thinkingLevel: string, model: Option<ModelRef>, compaction: Option<Entry>)
    ensures thinkingLevel == LevelOf(path) && model == ModelOf(path)
    ensures compaction ==
            match LastCompaction(path)
            case None => None
            case Some(c) => Some(path[c])
  {
    thinkingLevel, model, compaction := "off", None, None;
    ghost var c: Option<nat> := None;
    for i := 0 to |path|
      invariant thinkingLevel == LevelOf(path[..i]) && model == ModelOf(path[..i])
      invariant c == LastCompaction(path[..i])
      invariant compaction == if c.Some? then Some(path[c.value]) else None
    {
      FrontOfPrefix(path, i);
      var entry := path[i];
      match entry.body {
        case ThinkingLevelChange(level) => thinkingLevel := level;
        case ModelChange(provider, modelId) => model := Some(ModelRef(provider, modelId));
        case MessageBody(message) =>
          if message.Assistant? {
            model := Some(ModelRef(message.provider, message.modelId));
          }
        case Compaction(_, _, _) =>
          compaction := Some(entry);
          c := Some(i);
        case _ =>
      }
    }
    assert path[..|path|] == path;
  }

  /** The entries before the compaction, from the first kept one on. */
  method EmitKept(before: seq<Entry>, firstKept: Id) returns (messages: seq<AgentMessage>)
    ensures messages == Visible(From(before, firstKept))
  {
    messages := [];
    var foundFirstKept := false;
    for i := 0 to |before|
      invariant foundFirstKept == exists j | 0 <= j < i :: before[j].id == firstKept
      invariant messages == Visible(From(before[..i], firstKept))
      invariant !foundFirstKept ==> From(before[..i], firstKept) == []
    {
      var entry := before[i];
      if entry.id == firstKept {
        foundFirstKept := true;
      }
      assert foundFirstKept == exists j | 0 <= j <= i :: before[j].id == firstKept;
      FromPrefix(before, firstKept, i, foundFirstKept);
      if foundFirstKept {
        VisibleAppend(From(before[..i], firstKept), entry);
        messages := messages + Shown(entry);
      }
    }
    assert before[..|before|] == before;
  }

  lemma CompactedMessages(path: seq<Entry>, c: nat)
    requires LastCompaction(path) == Some(c)
    ensures MessagesOf(path)
         == [Summary(path[c])] + Visible(From(path[..c], path[c].body.firstKeptEntryId)) + Visible(path[c + 1..])
  {
  }

  /** Second pass: the summary, then what is kept from before the compaction, then what follows it. */
  method EmitMessages(path: seq<Entry>, compaction: Option<Entry>) returns (messages: seq<AgentMessage>)
    requires Distinct(path)
    requires compaction ==
             match LastCompaction(path)
             case None => None
             case Some(c) => Some(path[c])
    ensures messages == MessagesOf(path)
  {
    messages := [];
    if compaction.Some? {
      messages := [Summary(compaction.value)];
      var compactionIdx := FindCompaction(path, compaction.value, LastCompaction(path).value);
      var firstKept := compaction.value.body.firstKeptEntryId;
      var kept := EmitKept(path[..compactionIdx], firstKept);
      var after := EmitVisible(path[compactionIdx + 1..]);
      messages := messages + kept + after;
      CompactedMessages(path, compactionIdx);
    } else {
      messages := EmitVisible(path);
    }
  }

  /** Appends what each entry shows. */
  method EmitVisible(entries: seq<Entry>) returns (messages: seq<AgentMessage>)
    ensures messages == Visible(entries)
  {
    messages := [];
    for i := 0 to |entries|
      invariant messages == Visible(entries[..i])
    {
      FrontOfPrefix(entries, i);
      messages := messages + Shown(entries[i]);
    }
    assert entries[..|entries|] == entries;
  }

  method BuildSessionContext(entries: seq<Entry>, leafRef: LeafRef, index: Option<map<Id, Entry>>)
    returns (context: Context)
    requires Ordered(entries)
    requires index.Some? ==> index.value == Index(entries)
    ensures context == ContextAt(entries, leafRef)
  {
    var byId: map<Id, Entry> := map[];
    if index.Some? {
      byId := index.value;
    } else {
      for i := 0 to |entries|
        invariant byId == Index(entries[..i])
      {
        FrontOfPrefix(entries, i);
        byId := byId[entries[i].id := entries[i]];
      }
      assert entries[..|entries|] == entries;
    }

    if leafRef.BeforeFirst? {
      return NO_CONTEXT;
    }
    var leaf: Option<Id> := None;
    if leafRef.At? && leafRef.id in byId {
      leaf := Some(leafRef.id);
    }
    if leaf.None? && |entries| > 0 {
      leaf := Some(entries[|entries| - 1].id);
    }
    if leaf.None? {
      return NO_CONTEXT;
    }

    var path := CollectPath(entries, byId, leaf);
    AncestryShape(entries, leaf);

    var thinkingLevel, model, compaction := ScanPath(path);
    var messages := EmitMessages(path, compaction);
    context := Context(messages, thinkingLevel, model);
  }

  // ---------------------------------------------------------------------------------------------
  // The context is incremental
  // ---------------------------------------------------------------------------------------------

  /** Appending anything but a compaction adds what the new entry shows, and nothing else, at the end. */
  lemma ContextGrows(path: seq<Entry>, e: Entry)
    requires !e.body.Compaction?
    ensures MessagesOf(path + [e]) == MessagesOf(path) + Shown(e)
  {
    var longer := path + [e];
    FrontOfAppend(path, e);
    assert LastCompaction(longer) == LastCompaction(path);
    match LastCompaction(path) {
      case None =>
      case Some(c) =>
        assert longer[..c] == path[..c];
        assert longer[c + 1..] == path[c + 1..] + [e];
        VisibleAppend(path[c + 1..], e);
    }
  }

  /** Appending a compaction restarts the context from its summary and the entries it keeps. */
  lemma ContextCompacts(path: seq<Entry>, e: Entry)
    requires e.body.Compaction?
    ensures MessagesOf(path + [e]) == [Summary(e)] + Visible(From(path, e.body.firstKeptEntryId))
  {
    var longer := path + [e];
    FrontOfAppend(path, e);
    assert LastCompaction(longer) == Some(|path|);
    assert longer[..|path|] == path && longer[|path| + 1..] == [];
  }

  /** What each kind of entry adds to the messages: the message it holds or describes, or nothing. */
  lemma AppendedShows(path: seq<Entry>, e: Entry)
    requires !e.body.Compaction?
    ensures var before, after := MessagesOf(path), MessagesOf(path + [e]);
            match e.body
            case MessageBody(message) => after == before + [message]
            case CustomMessageBody(messageType, content, display, details) =>
              after == before + [CustomMessage(messageType, content, display, details, e.timestamp)]
            case BranchSummaryBody(fromId, text) =>
              after == before + if text == "" then [] else [BranchSummary(text, fromId, e.timestamp)]
            case _ => after == before
  {
    ContextGrows(path, e);
    assert MessagesOf(path) + [] == MessagesOf(path);
  }

  /** A compaction shows its summary, and then what the path shows from the first kept entry on, if it is there. */
  lemma CompactedShows(path: seq<Entry>, e: Entry, k: nat)
    requires e.body.Compaction? && k <= |path|
    requires forall i | 0 <= i < k :: path[i].id != e.body.firstKeptEntryId
    requires k < |path| ==> path[k].id == e.body.firstKeptEntryId
    ensures MessagesOf(path + [e])
         == [CompactionSummary(e.body.compactionSummary, e.body.tokensBefore, e.timestamp)] + Visible(path[k..])
  {
    ContextCompacts(path, e);
    FromIndex(path, e.body.firstKeptEntryId, k);
  }

  lemma {:induction false} FromIndex(path: seq<Entry>, id: Id, k: nat)
    requires k <= |path| && (k < |path| ==> path[k].id == id)
    requires forall i | 0 <= i < k :: path[i].id != id
    ensures From(path, id) == path[k..]
  {
    if k > 0 {
      FromIndex(path[1..], id, k - 1);
      assert path[1..][k - 1..] == path[k..];
    }
  }

  /** Without a compaction, what a path shows is its messages. */
  lemma VisibleIsMessages(path: seq<Entry>)
    requires forall i | 0 <= i < |path| :: !path[i].body.Compaction?
    ensures MessagesOf(path) == Visible(path)
  {
    assert LastCompaction(path).None?;
  }

  /** Where a context is taken: at a known id, and else at the end of the log. */
  lemma ContextLeaf(es: seq<Entry>, id: Id)
    requires Ordered(es)
    ensures ContextAt(es, At(id))
         == if HasId(es, id) then ContextOf(Ancestry(es, Some(id))) else ContextAt(es, Unspecified)
    ensures ContextAt(es, Unspecified)
         == if es == [] then Context([], "off", None) else ContextOf(Ancestry(es, Some(es[|es| - 1].id)))
    ensures ContextAt(es, BeforeFirst) == Context([], "off", None)
  {
    IndexDomain(es, id);
  }

  /** The thinking level is the one the path set last. */
  lemma {:induction false} LevelIsLastSet(path: seq<Entry>, k: nat)
    requires k < |path| && path[k].body.ThinkingLevelChange?
    requires forall i | k < i < |path| :: !path[i].body.ThinkingLevelChange?
    ensures LevelOf(path) == path[k].body.thinkingLevel
  {
    if k < |path| - 1 {
      LevelIsLastSet(Front(path), k);
    }
  }

  predicate SetsModel(e: Entry)
  {
    e.body.ModelChange? || (e.body.MessageBody? && e.body.message.Assistant?)
  }

  function ModelSet(e: Entry): ModelRef
    requires SetsModel(e)
  {
    if e.body.ModelChange? then ModelRef(e.body.provider, e.body.modelId)
    else ModelRef(e.body.message.provider, e.body.message.modelId)
  }

  /** So is the model, which an assistant message sets as well. */
  lemma {:induction false} ModelIsLastSet(path: seq<Entry>, k: nat)
    requires k < |path| && SetsModel(path[k])
    requires forall i | k < i < |path| :: !SetsModel(path[i])
    ensures ModelOf(path) == Some(ModelSet(path[k]))
  {
    if k < |path| - 1 {
      ModelIsLastSet(Front(path), k);
    }
  }

  /** What no entry of the path sets is at its default. */
  lemma {:induction false} SettingsDefault(path: seq<Entry>)
    ensures (forall i | 0 <= i < |path| :: !path[i].body.ThinkingLevelChange?) ==> LevelOf(path) == "off"
    ensures (forall i | 0 <= i < |path| :: !SetsModel(path[i])) ==> ModelOf(path) == None
  {
    if path != [] {
      SettingsDefault(Front(path));
      assert forall i | 0 <= i < |path| - 1 :: Front(path)[i] == path[i];
    }
  }
}
