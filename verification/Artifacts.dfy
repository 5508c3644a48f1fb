/** Artifact stores in memory and in a folder, and the lineage of an artifact. */
module Artifacts {
  import opened Messages
  import opened Sequences

  datatype Uri = MemoryUri(id: nat) | FileUri(root: string, id: nat)

  datatype StoredArtifact = StoredArtifact(
    id: nat, kind: string, uri: Uri, title: Option<string>, mediaType: Option<string>, version: nat,
    metadata: Option<string>, content: string, createdAt: int, updatedAt: int, lineage: seq<nat>)

  datatype Input = Input(
    kind: string, content: string, title: Option<string>, mediaType: Option<string>, metadata: Option<string>,
    lineage: seq<nat>)

  /** What is asked of a store. A creation comes with the id that the store draws for it. */
  datatype Request =
    | Create(id: nat, now: int, input: Input)
    | Update(id: nat, now: int, content: string, metadata: Option<string>)

  // ---------------------------------------------------------------------------------------------
  // Lists of artifacts
  // ---------------------------------------------------------------------------------------------

  function IndexOf(list: seq<StoredArtifact>, id: nat): (i: Option<nat>)
    ensures i.Some? ==> i.value < |list| && list[i.value].id == id
    ensures i.None? <==> forall k | 0 <= k < |list| :: list[k].id != id
  {
    if list == [] then None
    else
      var i := IndexOf(Front(list), id);
      if i.Some? then i else if Last(list).id == id then Some(|list| - 1) else None
  }

  function Find(list: seq<StoredArtifact>, id: nat): (a: Option<StoredArtifact>)
    ensures a.Some? ==> a.value in list && a.value.id == id
  {
    var i := IndexOf(list, id);
    if i.Some? then Some(list[i.value]) else None
  }

  function Made(r: Request, uri: Uri): StoredArtifact
    requires r.Create?
  {
    StoredArtifact(r.id, r.input.kind, uri, r.input.title, r.input.mediaType, 1, r.input.metadata, r.input.content,
                   r.now, r.now, r.input.lineage)
  }

  function Revised(a: StoredArtifact, r: Request): StoredArtifact
    requires r.Update?
  {
    a.(content := r.content, metadata := if r.metadata.Some? then r.metadata else a.metadata,
       version := a.version + 1, updatedAt := r.now)
  }

  function Updated(list: seq<StoredArtifact>, r: Request): seq<StoredArtifact>
    requires r.Update?
  {
    var i := IndexOf(list, r.id);
    if i.Some? then list[i.value := Revised(list[i.value], r)] else list
  }

  /** A map puts an artifact where its id already is. */
  function InMemory(list: seq<StoredArtifact>, r: Request): seq<StoredArtifact>
  {
    match r
    case Update(_, _, _, _) => Updated(list, r)
    case Create(id, _, _) =>
      var i := IndexOf(list, id);
      if i.Some? then list[i.value := Made(r, MemoryUri(id))] else list + [Made(r, MemoryUri(id))]
  }

  /** An array always takes it at the end. */
  function InFolder(list: seq<StoredArtifact>, r: Request, root: string): seq<StoredArtifact>
  {
    match r
    case Update(_, _, _, _) => Updated(list, r)
    case Create(id, _, _) => list + [Made(r, FileUri(root, id))]
  }

  function InMemoryAll(rs: seq<Request>): seq<StoredArtifact>
  {
    if rs == [] then [] else InMemory(InMemoryAll(Front(rs)), Last(rs))
  }

  function InFolderAll(rs: seq<Request>, root: string): seq<StoredArtifact>
  {
    if rs == [] then [] else InFolder(InFolderAll(Front(rs), root), Last(rs), root)
  }

  // ---------------------------------------------------------------------------------------------
  // The two stores agree
  // ---------------------------------------------------------------------------------------------

  /** The artifacts apart from where they are stored. */
  function Contents(list: seq<StoredArtifact>): seq<StoredArtifact>
  {
    seq(|list|, i requires 0 <= i < |list| => list[i].(uri := MemoryUri(0)))
  }

  function Ids(list: seq<StoredArtifact>): set<nat>
  {
    set i | 0 <= i < |list| :: list[i].id
  }

  predicate Draws(rs: seq<Request>, id: nat)
  {
    exists i | 0 <= i < |rs| :: rs[i].Create? && rs[i].id == id
  }

  /** No id is drawn twice. */
  predicate FreshIds(rs: seq<Request>)
  {
    rs == [] || (FreshIds(Front(rs)) && (Last(rs).Create? ==> !Draws(Front(rs), Last(rs).id)))
  }

  lemma DrawsFront(rs: seq<Request>, id: nat)
    requires rs != []
    ensures Draws(rs, id) <==> Draws(Front(rs), id) || (Last(rs).Create? && Last(rs).id == id)
  {
    if Draws(Front(rs), id) {
      var i :| 0 <= i < |Front(rs)| && Front(rs)[i].Create? && Front(rs)[i].id == id;
      assert rs[i] == Front(rs)[i];
    }
    if Draws(rs, id) {
      var i :| 0 <= i < |rs| && rs[i].Create? && rs[i].id == id;
      if i < |rs| - 1 {
        assert Front(rs)[i] == rs[i];
      }
    }
  }

  lemma {:induction false} SameIndex(a: seq<StoredArtifact>, b: seq<StoredArtifact>, id: nat)
    requires Contents(a) == Contents(b)
    ensures |a| == |b| && IndexOf(a, id) == IndexOf(b, id)
  {
    assert |a| == |Contents(a)| && |b| == |Contents(b)|;
    if a != [] {
      forall i | 0 <= i < |a| ensures a[i].(uri := MemoryUri(0)) == b[i].(uri := MemoryUri(0)) {
        assert Contents(a)[i] == Contents(b)[i];
      }
      assert Contents(Front(a)) == Contents(Front(b));
      SameIndex(Front(a), Front(b), id);
    }
  }

  lemma {:induction false} DrawnIds(rs: seq<Request>, root: string, id: nat)
    ensures Draws(rs, id) <==> IndexOf(InMemoryAll(rs), id).Some?
    ensures Draws(rs, id) <==> IndexOf(InFolderAll(rs, root), id).Some?
    ensures |InMemoryAll(rs)| <= |InFolderAll(rs, root)|
  {
    if rs != [] {
      DrawnIds(Front(rs), root, id);
      DrawsFront(rs, id);
      StoredId(InMemoryAll(Front(rs)), InMemoryAll(rs), Last(rs), id);
      StoredId(InFolderAll(Front(rs), root), InFolderAll(rs, root), Last(rs), id);
    }
  }

  /** A request adds at most its own id. */
  lemma StoredId(before: seq<StoredArtifact>, after: seq<StoredArtifact>, r: Request, id: nat)
    requires after == InMemory(before, r) || exists root :: after == InFolder(before, r, root)
    ensures IndexOf(after, id).Some? <==> IndexOf(before, id).Some? || (r.Create? && r.id == id)
  {
    if IndexOf(before, id).Some? {
      var i := IndexOf(before, id).value;
      assert after[i].id == id;
    } else if r.Create? && r.id == id {
      assert after[|before|].id == id;
    } else {
      assert forall i | 0 <= i < |before| :: after[i].id == before[i].id;
    }
  }

  lemma SameRequest(a: seq<StoredArtifact>, b: seq<StoredArtifact>, r: Request, root: string)
    requires Contents(a) == Contents(b) && (r.Create? ==> IndexOf(a, r.id).None?)
    ensures Contents(InMemory(a, r)) == Contents(InFolder(b, r, root))
  {
    SameIndex(a, b, r.id);
    forall i | 0 <= i < |a| ensures a[i].(uri := MemoryUri(0)) == b[i].(uri := MemoryUri(0)) {
      assert Contents(a)[i] == Contents(b)[i];
    }
  }

  lemma {:induction false} RepeatedIdIsLost(rs: seq<Request>, root: string)
    requires !FreshIds(rs)
    ensures |InMemoryAll(rs)| < |InFolderAll(rs, root)|
  {
    if FreshIds(Front(rs)) {
      DrawnIds(Front(rs), root, Last(rs).id);
    } else {
      RepeatedIdIsLost(Front(rs), root);
    }
  }

  /** Given the same requests, both stores list the same artifacts exactly if no id is drawn twice. */
  lemma {:induction false} StoresAgree(rs: seq<Request>, root: string)
    ensures Contents(InMemoryAll(rs)) == Contents(InFolderAll(rs, root)) <==> FreshIds(rs)
  {
    if FreshIds(rs) {
      if rs != [] {
        StoresAgree(Front(rs), root);
        DrawnIds(Front(rs), root, Last(rs).id);
        SameRequest(InMemoryAll(Front(rs)), InFolderAll(Front(rs), root), Last(rs), root);
      }
    } else {
      RepeatedIdIsLost(rs, root);
      assert |Contents(InMemoryAll(rs))| != |Contents(InFolderAll(rs, root))|;
    }
  }

  // ---------------------------------------------------------------------------------------------
  // What an artifact tells of its requests
  // ---------------------------------------------------------------------------------------------

  /** The last request about the id, and the last creation of it. */
  function LastAbout(rs: seq<Request>, id: nat): Option<Request>
  {
    if rs == [] then None else if Last(rs).id == id then Some(Last(rs)) else LastAbout(Front(rs), id)
  }

  function CreatedBy(rs: seq<Request>, id: nat): (r: Option<Request>)
    ensures r.Some? ==> r.value.Create? && r.value.id == id
  {
    if rs == [] then None
    else if Last(rs).id == id && Last(rs).Create? then Some(Last(rs))
    else CreatedBy(Front(rs), id)
  }

  /** How often it was updated since then, and the metadata given last. */
  function Revisions(rs: seq<Request>, id: nat): nat
  {
    if rs == [] || (Last(rs).id == id && Last(rs).Create?) then 0
    else Revisions(Front(rs), id) + if Last(rs).id == id then 1 else 0
  }

  function LastMetadata(rs: seq<Request>, id: nat): Option<string>
  {
    if rs == [] then None
    else if Last(rs).id == id && Last(rs).Create? then Last(rs).input.metadata
    else if Last(rs).id == id && Last(rs).metadata.Some? then Last(rs).metadata
    else LastMetadata(Front(rs), id)
  }

  /** The artifact is what these requests make of it. */
  predicate Records(a: StoredArtifact, rs: seq<Request>, id: nat)
  {
    var made, last := CreatedBy(rs, id), LastAbout(rs, id);
    && made.Some? && last.Some? && a.id == id
    && a.kind == made.value.input.kind && a.title == made.value.input.title
    && a.mediaType == made.value.input.mediaType && a.lineage == made.value.input.lineage
    && a.createdAt == made.value.now && a.updatedAt == last.value.now
    && a.version == 1 + Revisions(rs, id) && a.metadata == LastMetadata(rs, id)
    && a.content == if last.value.Create? then last.value.input.content else last.value.content
  }

  lemma {:induction false} FindReplaced(list: seq<StoredArtifact>, i: nat, a: StoredArtifact, id: nat)
    requires i < |list| && a.id == list[i].id
    ensures IndexOf(list[i := a], id) == IndexOf(list, id)
  {
    if i < |list| - 1 {
      FindReplaced(Front(list), i, a, id);
      assert Front(list[i := a]) == Front(list)[i := a];
    } else {
      assert Front(list[i := a]) == Front(list);
    }
  }

  /** A request changes what is found under its own id, and nothing else. */
  lemma FindAfter(list: seq<StoredArtifact>, r: Request, id: nat)
    ensures var before, after := Find(list, id), Find(InMemory(list, r), id);
            if r.id != id then after == before
            else if r.Create? then after == Some(Made(r, MemoryUri(id)))
            else after == if before.Some? then Some(Revised(before.value, r)) else None
  {
    var i := IndexOf(list, r.id);
    if i.Some? {
      FindReplaced(list, i.value, InMemory(list, r)[i.value], id);
    } else if r.Create? {
      FrontOfAppend(list, Made(r, MemoryUri(r.id)));
    }
  }

  /** After any requests, an artifact is there exactly if it was created, and it tells of its requests. */
  lemma {:induction false} ArtifactsRecord(rs: seq<Request>, id: nat)
    ensures var found := Find(InMemoryAll(rs), id);
            && (found.Some? <==> CreatedBy(rs, id).Some?)
            && (found.Some? ==> Records(found.value, rs, id) && found.value.uri == MemoryUri(id))
  {
    if rs != [] {
      ArtifactsRecord(Front(rs), id);
      FindAfter(InMemoryAll(Front(rs)), Last(rs), id);
    }
  }

  function ListedIds(list: seq<StoredArtifact>): seq<nat>
  {
    seq(|list|, i requires 0 <= i < |list| => list[i].id)
  }

  function CreatedIds(rs: seq<Request>): seq<nat>
  {
    if rs == [] then [] else CreatedIds(Front(rs)) + if Last(rs).Create? then [Last(rs).id] else []
  }

  /** Artifacts are listed in the order in which they were created. */
  lemma {:induction false} ListedAsCreated(rs: seq<Request>, root: string)
    ensures ListedIds(InFolderAll(rs, root)) == CreatedIds(rs)
    ensures FreshIds(rs) ==> ListedIds(InMemoryAll(rs)) == CreatedIds(rs)
  {
    if rs != [] {
      ListedAsCreated(Front(rs), root);
      assert CreatedIds(Front(rs)) + [] == CreatedIds(Front(rs));
      ListedStep(InFolderAll(Front(rs), root), Last(rs), root);
      DrawnIds(Front(rs), root, Last(rs).id);
    }
  }

  lemma ListedStep(list: seq<StoredArtifact>, r: Request, root: string)
    ensures ListedIds(InFolder(list, r, root)) == ListedIds(list) + if r.Create? then [r.id] else []
  {
    assert ListedIds(list) + [] == ListedIds(list);
  }

  lemma {:induction false} FolderUris(rs: seq<Request>, root: string)
    ensures forall a | a in InFolderAll(rs, root) :: a.uri == FileUri(root, a.id)
  {
    if rs != [] {
      FolderUris(Front(rs), root);
    }
  }

  /** So it does in a folder, as long as no id is drawn twice. */
  lemma FolderArtifactsRecord(rs: seq<Request>, root: string, id: nat)
    requires FreshIds(rs)
    ensures var found := Find(InFolderAll(rs, root), id);
            && (found.Some? <==> CreatedBy(rs, id).Some?)
            && (found.Some? ==> Records(found.value, rs, id) && found.value.uri == FileUri(root, id))
  {
    StoresAgree(rs, root);
    ArtifactsRecord(rs, id);
    FolderUris(rs, root);
    var a, b := InMemoryAll(rs), InFolderAll(rs, root);
    SameIndex(a, b, id);
    if IndexOf(a, id).Some? {
      var i := IndexOf(a, id).value;
      assert Contents(a)[i] == Contents(b)[i];
    }
  }

  // ---------------------------------------------------------------------------------------------
  // The stores
  // ---------------------------------------------------------------------------------------------

  /** The values of a map in the order in which its keys came. */
  function InOrder(artifacts: map<nat, StoredArtifact>, order: seq<nat>): seq<StoredArtifact>
    requires forall i | 0 <= i < |order| :: order[i] in artifacts
  {
    seq(|order|, i requires 0 <= i < |order| && order[i] in artifacts => artifacts[order[i]])
  }

  /** Keeps artifacts in a map that remembers the order in which its keys came. */
  class MemoryArtifactStore {
    var artifacts: map<nat, StoredArtifact>
    var order: seq<nat>

    ghost predicate Valid()
      reads this
    {
      && (forall i | 0 <= i < |order| :: order[i] in artifacts && artifacts[order[i]].id == order[i])
      && (forall id | id in artifacts :: id in order)
      && (forall i, j | 0 <= i < j < |order| :: order[i] != order[j])
    }

    function List(): seq<StoredArtifact>
      requires Valid()
      reads this
    {
      InOrder(artifacts, order)
    }

    constructor ()
      ensures Valid() && List() == InMemoryAll([])
    {
      artifacts, order := map[], [];
    }

    /** Puts an artifact in the map, where its key is or at the end. */
    method SetArtifact(a: StoredArtifact)
      requires Valid()
      modifies this
      ensures Valid()
      ensures var i := IndexOf(old(List()), a.id);
              List() == if i.Some? then old(List())[i.value := a] else old(List()) + [a]
    {
      ghost var before := List();
      assert forall k | 0 <= k < |order| :: before[k].id == order[k];
      if a.id !in artifacts {
        order := order + [a.id];
      } else {
        assert exists k :: 0 <= k < |order| && order[k] == a.id;
      }
      artifacts := artifacts[a.id := a];
    }

    method Create(r: Request) returns (artifact: StoredArtifact)
      requires Valid() && r.Create?
      modifies this
      ensures Valid() && artifact == Made(r, MemoryUri(r.id)) && List() == InMemory(old(List()), r)
    {
      artifact := Made(r, MemoryUri(r.id));
      SetArtifact(artifact);
    }

    method Get(id: nat) returns (found: Option<StoredArtifact>)
      requires Valid()
      ensures found == Find(List(), id)
    {
      assert forall k | 0 <= k < |order| :: List()[k].id == order[k];
      if id !in artifacts {
        return None;
      }
      assert exists k :: 0 <= k < |order| && order[k] == id;
      return Some(artifacts[id]);
    }

    method Update(r: Request) returns (outcome: Result<StoredArtifact, string>)
      requires Valid() && r.Update?
      modifies this
      ensures Valid() && List() == InMemory(old(List()), r)
      ensures var found := Find(old(List()), r.id);
              outcome == if found.Some? then Ok(Revised(found.value, r)) else Err("Artifact not found")
    {
      var current := Get(r.id);
      if current.None? {
        return Err("Artifact not found");
      }
      var updated := Revised(current.value, r);
      SetArtifact(updated);
      return Ok(updated);
    }
  }

  /** A folder: the saved list, if one was ever saved, and a file of content for each id. */
  class Folder {
    var saved: Option<seq<StoredArtifact>>
    var files: map<nat, string>

    constructor ()
      ensures saved == None && files == map[]
    {
      saved, files := None, map[];
    }
  }

  predicate DistinctIds(list: seq<StoredArtifact>)
  {
    forall i, j | 0 <= i < j < |list| :: list[i].id != list[j].id
  }

  class FileSystemArtifactStore {
    const root: string
    const folder: Folder
    var artifacts: seq<StoredArtifact>

    /** The folder holds the list, and the content of each artifact while ids are distinct. */
    ghost predicate Valid()
      reads this, folder
    {
      && (if folder.saved.Some? then folder.saved.value == artifacts else artifacts == [])
      && (DistinctIds(artifacts) ==>
            forall i | 0 <= i < |artifacts| :: Lookup(folder.files, artifacts[i].id) == Some(artifacts[i].content))
    }

    /** Opens a folder: the list is what an earlier store saved there last. */
    constructor (folder: Folder, root: string)
      requires folder.saved.Some? && DistinctIds(folder.saved.value) ==>
                 forall a | a in folder.saved.value :: Lookup(folder.files, a.id) == Some(a.content)
      ensures Valid() && this.folder == folder && this.root == root
      ensures artifacts == if folder.saved.Some? then folder.saved.value else []
    {
      this.folder, this.root := folder, root;
      artifacts := if folder.saved.Some? then folder.saved.value else [];
    }

    method Save()
      modifies folder`saved
      ensures folder.saved == Some(artifacts)
    {
      folder.saved := Some(artifacts);
    }

    method Create(r: Request) returns (artifact: StoredArtifact)
      requires Valid() && r.Create?
      modifies this, folder
      ensures Valid() && artifact == Made(r, FileUri(root, r.id)) && artifacts == InFolder(old(artifacts), r, root)
      ensures folder.saved == Some(artifacts)
    {
      artifact := Made(r, FileUri(root, r.id));
      folder.files := folder.files[r.id := r.input.content];
      artifacts := artifacts + [artifact];
      Save();
      assert DistinctIds(artifacts) ==> DistinctIds(old(artifacts)) by {
        assert forall i | 0 <= i < |old(artifacts)| :: old(artifacts)[i] == artifacts[i];
      }
      assert DistinctIds(artifacts) ==> forall i | 0 <= i < |old(artifacts)| :: artifacts[i].id != r.id by {
        assert artifacts[|old(artifacts)|].id == r.id;
      }
    }

    method Get(id: nat) returns (found: Option<StoredArtifact>)
      ensures found == Find(artifacts, id)
    {
      var i := FindIndex(id);
      return if i.Some? then Some(artifacts[i.value]) else None;
    }

    method FindIndex(id: nat) returns (index: Option<nat>)
      ensures index == IndexOf(artifacts, id)
    {
      for i := 0 to |artifacts|
        invariant IndexOf(artifacts[..i], id) == None
      {
        FrontOfPrefix(artifacts, i);
        if artifacts[i].id == id {
          PrefixIndex(artifacts, i + 1, id);
          return Some(i);
        }
      }
      assert artifacts[..|artifacts|] == artifacts;
      return None;
    }

    method Update(r: Request) returns (outcome: Result<StoredArtifact, string>)
      requires Valid() && r.Update?
      modifies this, folder
      ensures Valid() && artifacts == InFolder(old(artifacts), r, root)
      ensures var found := Find(old(artifacts), r.id);
              outcome == if found.Some? then Ok(Revised(found.value, r)) else Err("Artifact not found")
    {
      var index := FindIndex(r.id);
      if index.None? {
        return Err("Artifact not found");
      }
      var updated := Revised(artifacts[index.value], r);
      folder.files := folder.files[r.id := r.content];
      artifacts := artifacts[index.value := updated];
      Save();
      assert DistinctIds(artifacts) ==> DistinctIds(old(artifacts)) by {
        assert forall i | 0 <= i < |artifacts| :: old(artifacts)[i].id == artifacts[i].id;
      }
      return Ok(updated);
    }
  }

  function Lookup(files: map<nat, string>, id: nat): Option<string>
  {
    if id in files then Some(files[id]) else None
  }

  lemma {:induction false} PrefixIndex(list: seq<StoredArtifact>, n: nat, id: nat)
    requires n <= |list| && IndexOf(list[..n], id).Some?
    ensures IndexOf(list, id) == IndexOf(list[..n], id)
  {
    if n < |list| {
      assert Front(list)[..n] == list[..n];
      PrefixIndex(Front(list), n, id);
    } else {
      assert list[..n] == list;
    }
  }

  // ---------------------------------------------------------------------------------------------
  // Lineage
  // ---------------------------------------------------------------------------------------------

  function Lineage(store: seq<StoredArtifact>, id: nat): seq<nat>
  {
    var a := Find(store, id);
    if a.Some? then a.value.lineage else []
  }

  /** Existing artifacts, each in the lineage of the one before. */
  predicate Path(store: seq<StoredArtifact>, path: seq<nat>)
  {
    && (forall i | 0 <= i < |path| :: Find(store, path[i]).Some?)
    && (forall i | 0 <= i < |path| - 1 :: path[i + 1] in Lineage(store, path[i]))
  }

  ghost predicate Reaches(store: seq<StoredArtifact>, from: seq<nat>, to: nat)
  {
    exists path: seq<nat> :: path != [] && Path(store, path) && path[0] in from && Last(path) == to
  }

  lemma ReachesItself(store: seq<StoredArtifact>, from: seq<nat>, to: nat)
    requires to in from && Find(store, to).Some?
    ensures Reaches(store, from, to)
  {
    assert Path(store, [to]) && Last([to]) == to;
  }

  lemma ReachesOn(store: seq<StoredArtifact>, from: seq<nat>, via: nat, to: nat)
    requires via in from && Find(store, via).Some? && Reaches(store, Lineage(store, via), to)
    ensures Reaches(store, from, to)
  {
    var path: seq<nat> :| path != [] && Path(store, path) && path[0] in Lineage(store, via) && Last(path) == to;
    var longer := [via] + path;
    forall i | 0 <= i < |longer| - 1 ensures longer[i + 1] in Lineage(store, longer[i]) {
      if i > 0 {
        assert longer[i] == path[i - 1] && longer[i + 1] == path[i];
      }
    }
    assert Path(store, longer) && Last(longer) == to;
  }

  /** What is closed under lineage, for the existing artifacts among these. */
  ghost predicate Closed(store: seq<StoredArtifact>, ids: seq<nat>, within: seq<nat>)
  {
    forall x, y | x in ids && y in Lineage(store, x) && Find(store, y).Some? :: y in within
  }

  lemma {:induction false} ClosedHoldsPaths(store: seq<StoredArtifact>, resolved: seq<nat>, path: seq<nat>)
    requires Closed(store, resolved, resolved) && Path(store, path) && path != [] && path[0] in resolved
    ensures Last(path) in resolved
  {
    if |path| > 1 {
      assert Path(store, Front(path)) by {
        assert forall i | 0 <= i < |path| - 1 :: Front(path)[i] == path[i];
      }
      ClosedHoldsPaths(store, resolved, Front(path));
      assert Last(path) in Lineage(store, Last(Front(path)));
    }
  }

  function Known(store: seq<StoredArtifact>, resolved: seq<nat>): set<nat>
  {
    set x | x in Ids(store) && x !in resolved
  }

  /** The map that a lineage is collected in, and the depth-first search that fills it. */
  class Resolver {
    const store: seq<StoredArtifact>
    /** The keys of the map, in the order in which they came. */
    var resolved: seq<nat>

    constructor (store: seq<StoredArtifact>)
      ensures this.store == store && resolved == []
    {
      this.store, resolved := store, [];
    }

    ghost predicate Distinct()
      reads this
    {
      && (forall i, j | 0 <= i < j < |resolved| :: resolved[i] != resolved[j])
      && (forall x | x in resolved :: Find(store, x).Some?)
    }

    method Visit(id: nat)
      requires Distinct()
      modifies this
      ensures Distinct() && (Find(store, id).Some? ==> id in resolved)
      ensures Explored(store, [id], old(resolved), resolved)
      decreases Known(store, resolved), 0
    {
      var current := Find(store, id);
      if current.None? || current.value.id in resolved {
        return;
      }
      assert id in Known(store, resolved) by { assert store[IndexOf(store, id).value].id == id; }
      resolved := resolved + [id];
      ReachesItself(store, [id], id);
      label pushed:
      VisitAll(current.value.lineage);
      assert id == resolved[|old(resolved)|];
      assert resolved[|old(resolved)|..] == [id] + resolved[|old@pushed(resolved)|..];
      forall x | x in resolved[|old@pushed(resolved)|..] ensures Reaches(store, [id], x) {
        ReachesOn(store, [id], id, x);
      }
    }

    method VisitAll(ids: seq<nat>)
      requires Distinct()
      modifies this
      ensures Distinct() && Resolved(store, ids, resolved)
      ensures Explored(store, ids, old(resolved), resolved)
      decreases Known(store, resolved), 1
    {
      ghost var before := resolved;
      for i := 0 to |ids|
        invariant Distinct() && Resolved(store, ids[..i], resolved) && Explored(store, ids, before, resolved)
      {
        ghost var mid := resolved;
        Visit(ids[i]);
        FrontOfPrefix(ids, i);
        ResolvedOn(store, ids[..i], ids[i], mid, resolved);
        ExploredOn(store, ids[i], ids, before, mid, resolved);
      }
      assert ids[..|ids|] == ids;
    }
  }

  ghost predicate Resolved(store: seq<StoredArtifact>, ids: seq<nat>, resolved: seq<nat>)
  {
    forall id | id in ids && Find(store, id).Some? :: id in resolved
  }

  /** What was added since `before` can be reached and is closed under lineage. */
  ghost predicate Explored(store: seq<StoredArtifact>, from: seq<nat>, before: seq<nat>, resolved: seq<nat>)
  {
    && before <= resolved
    && Closed(store, resolved[|before|..], resolved)
    && forall x | x in resolved[|before|..] :: Reaches(store, from, x)
  }

  lemma ResolvedOn(store: seq<StoredArtifact>, ids: seq<nat>, id: nat, before: seq<nat>, resolved: seq<nat>)
    requires Resolved(store, ids, before) && before <= resolved && (Find(store, id).Some? ==> id in resolved)
    ensures Resolved(store, ids + [id], resolved)
  {
    assert forall x | x in before :: x in resolved by {
      assert forall k | 0 <= k < |before| :: resolved[k] == before[k];
    }
  }

  lemma ExploredOn(store: seq<StoredArtifact>, id: nat, ids: seq<nat>, before: seq<nat>, mid: seq<nat>,
                   resolved: seq<nat>)
    requires Explored(store, ids, before, mid) && Explored(store, [id], mid, resolved) && id in ids
    ensures Explored(store, ids, before, resolved)
  {
    var a, b := mid[|before|..], resolved[|mid|..];
    assert resolved[|before|..] == a + b;
    assert forall x | x in mid :: x in resolved by {
      assert forall k | 0 <= k < |mid| :: resolved[k] == mid[k];
    }
    AllReached(store, [id], ids, b);
    assert Closed(store, a, resolved);
  }

  lemma AllReached(store: seq<StoredArtifact>, some: seq<nat>, more: seq<nat>, found: seq<nat>)
    requires forall x | x in found :: Reaches(store, some, x)
    requires forall x | x in some :: x in more
    ensures forall x | x in found :: Reaches(store, more, x)
  {
    forall x | x in found ensures Reaches(store, more, x) {
      ReachesFrom(store, some, more, x);
    }
  }

  lemma ReachesFrom(store: seq<StoredArtifact>, some: seq<nat>, more: seq<nat>, to: nat)
    requires Reaches(store, some, to) && forall x | x in some :: x in more
    ensures Reaches(store, more, to)
  {
    var path: seq<nat> :| path != [] && Path(store, path) && path[0] in some && Last(path) == to;
    assert path[0] in more;
  }

  /**
   For any lineage graph, with cycles and with ids that do not exist: exactly the existing artifacts that can be
   reached from the artifact through at least one lineage edge, each once.
   */
  method ResolveArtifactLineage(store: seq<StoredArtifact>, artifactId: nat) returns (lineage: seq<StoredArtifact>)
    ensures forall i, j | 0 <= i < j < |lineage| :: lineage[i].id != lineage[j].id
    ensures forall a | a in lineage :: Find(store, a.id) == Some(a) && Reaches(store, Lineage(store, artifactId), a.id)
    ensures forall id | Reaches(store, Lineage(store, artifactId), id) ::
              exists i :: 0 <= i < |lineage| && lineage[i].id == id
  {
    var artifact := Find(store, artifactId);
    if artifact.None? {
      return [];
    }
    var resolver := new Resolver(store);
    resolver.VisitAll(artifact.value.lineage);
    var ids := resolver.resolved;
    assert ids[0..] == ids;
    lineage := seq(|ids|, i requires 0 <= i < |ids| && Find(store, ids[i]).Some? => Find(store, ids[i]).value);
    AllAreListed(store, artifact.value.lineage, ids, lineage);
  }

  lemma AllAreListed(store: seq<StoredArtifact>, from: seq<nat>, ids: seq<nat>, list: seq<StoredArtifact>)
    requires Closed(store, ids, ids) && Resolved(store, from, ids)
    requires |list| == |ids| && forall i | 0 <= i < |ids| :: list[i].id == ids[i]
    ensures forall id | Reaches(store, from, id) :: exists i :: 0 <= i < |list| && list[i].id == id
  {
    forall id | Reaches(store, from, id) ensures exists i :: 0 <= i < |list| && list[i].id == id {
      ReachedIsResolved(store, from, ids, id);
      var i :| 0 <= i < |ids| && ids[i] == id;
      assert list[i].id == id;
    }
  }

  lemma ReachedIsResolved(store: seq<StoredArtifact>, from: seq<nat>, resolved: seq<nat>, id: nat)
    requires Closed(store, resolved, resolved) && Reaches(store, from, id)
    requires Resolved(store, from, resolved)
    ensures id in resolved
  {
    var path: seq<nat> :| path != [] && Path(store, path) && path[0] in from && Last(path) == id;
    assert Find(store, path[0]).Some?;
    ClosedHoldsPaths(store, resolved, path);
  }
}
