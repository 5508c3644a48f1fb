/** Settings kept in memory, written back field by field to a file that other processes also write. */
module SettingsManager {
  import opened Messages
  import opened Sequences

  /** A setting is an object of named values, or anything else. */
  datatype Value = Leaf(json: string) | Obj(keys: map<string, string>)

  type Settings = map<string, Value>

  /** The fields that setters change key by key; all other fields are set as a whole. */
  const NESTED_FIELDS: set<string> := {"compaction", "retry", "terminal", "images"}

  /** What one setter changes. */
  datatype Path = Whole(field: string) | Nested(field: string, key: string)

  predicate ValidPath(p: Path)
  {
    p.Nested? <==> p.field in NESTED_FIELDS
  }

  function Get<K, V>(m: map<K, V>, k: K): Option<V>
  {
    if k in m then Some(m[k]) else None
  }

  function Put<K, V>(m: map<K, V>, k: K, v: Option<V>): map<K, V>
  {
    if v.Some? then m[k := v.value] else m - {k}
  }

  /** An object, or the empty one where there is none. */
  function AsObject(v: Option<Value>): map<string, string>
  {
    if v.Some? && v.value.Obj? then v.value.keys else map[]
  }

  function Lookup(s: Settings, p: Path): Option<Value>
  {
    match p
    case Whole(f) => Get(s, f)
    case Nested(f, k) =>
      var key := Get(AsObject(Get(s, f)), k);
      if key.Some? then Some(Leaf(key.value)) else None
  }

  /** A queued write: the settings when it was queued, and the marks it carries. */
  datatype Task = Task(snapshot: Settings, fields: set<string>, nested: map<string, set<string>>)

  predicate Names(t: Task, p: Path)
  {
    p.field in t.fields && (p.Nested? ==> p.field in t.nested && p.key in t.nested[p.field])
  }

  datatype Change = SetField(field: string, value: Option<Value>) | SetKey(field: string, key: string, json: string)

  function PathOf(c: Change): Path
  {
    match c
    case SetField(f, _) => Whole(f)
    case SetKey(f, k, _) => Nested(f, k)
  }

  /** The settings in memory with their marks, the queued writes, and the file; saving is off after a failed load. */
  datatype State = State(
    memory: Settings, fields: set<string>, nested: map<string, set<string>>, queue: seq<Task>, disk: Settings,
    loadError: bool)

  datatype Action =
    | Change(changes: seq<Change>)
    | WriteNext
    | External(disk: Settings)
    | Reload(readable: bool)

  predicate Possible(s: State, a: Action)
  {
    match a
    case Change(changes) => forall i | 0 <= i < |changes| :: ValidPath(PathOf(changes[i]))
    case WriteNext => s.queue != []
    case External(_) => true
    case Reload(_) => true
  }

  // ---------------------------------------------------------------------------------------------
  // Writing
  // ---------------------------------------------------------------------------------------------

  function MergedKeys(base: map<string, string>, memory: map<string, string>, modified: set<string>)
    : map<string, string>
  {
    map k | k in base.Keys + modified && (k in modified ==> k in memory) :: if k in modified then memory[k] else base[k]
  }

  /** What one field of the file becomes. */
  function Written(t: Task, current: Settings, f: string): Option<Value>
  {
    var value := Get(t.snapshot, f);
    if f !in t.fields then Get(current, f)
    else if f in t.nested && value.Some? && value.value.Obj? then
      Some(Obj(MergedKeys(AsObject(Get(current, f)), value.value.keys, t.nested[f])))
    else value
  }

  function Persisted(t: Task, current: Settings): Settings
  {
    map f | f in current.Keys + t.fields && Written(t, current, f).Some? :: Written(t, current, f).value
  }

  lemma PersistedField(t: Task, current: Settings, f: string)
    ensures Get(Persisted(t, current), f) == Written(t, current, f)
  {
  }

  /** A mark on a key goes with a nested field, a mark on a nested field with some of its keys. */
  predicate MarksFit(fields: set<string>, nested: map<string, set<string>>)
  {
    nested.Keys == fields * NESTED_FIELDS
  }

  /** The snapshot of a write has objects where single keys are marked. */
  predicate ValidTask(t: Task)
  {
    && MarksFit(t.fields, t.nested)
    && forall f | f in t.nested :: f in t.snapshot && t.snapshot[f].Obj?
  }

  /** A write brings what it names to the file and leaves everything else there, whoever wrote it. */
  lemma WriteIsSelective(t: Task, current: Settings, p: Path)
    requires ValidTask(t) && ValidPath(p)
    ensures Lookup(Persisted(t, current), p) == if Names(t, p) then Lookup(t.snapshot, p) else Lookup(current, p)
  {
    PersistedField(t, current, p.field);
  }

  // ---------------------------------------------------------------------------------------------
  // Steps
  // ---------------------------------------------------------------------------------------------

  function Marked(nested: map<string, set<string>>, f: string, k: string): map<string, set<string>>
  {
    nested[f := (if f in nested then nested[f] else {}) + {k}]
  }

  function Apply(s: State, c: Change): State
  {
    match c
    case SetField(f, v) => s.(memory := Put(s.memory, f, v), fields := s.fields + {f})
    case SetKey(f, k, json) =>
      s.(memory := s.memory[f := Obj(AsObject(Get(s.memory, f))[k := json])], fields := s.fields + {f},
         nested := Marked(s.nested, f, k))
  }

  function ApplyAll(s: State, changes: seq<Change>): State
  {
    if changes == [] then s else Apply(ApplyAll(s, Front(changes)), Last(changes))
  }

  function Save(s: State): State
  {
    s.(queue := s.queue + [Task(s.memory, s.fields, s.nested)])
  }

  function Step(s: State, a: Action): State
    requires Possible(s, a)
  {
    match a
    case Change(changes) => if s.loadError then ApplyAll(s, changes) else Save(ApplyAll(s, changes))
    case WriteNext => s.(disk := Persisted(s.queue[0], s.disk), queue := s.queue[1..], fields := {}, nested := map[])
    case External(d) => s.(disk := d)
    case Reload(readable) =>
      s.(memory := if readable then s.disk else s.memory, loadError := !readable, fields := {}, nested := map[])
  }

  // ---------------------------------------------------------------------------------------------
  // No lost update
  // ---------------------------------------------------------------------------------------------

  /** The value that the last queued write naming the path will bring to the file, if there is one. */
  function Coming(queue: seq<Task>, p: Path): Option<Option<Value>>
  {
    if queue == [] then None
    else if Names(Last(queue), p) then Some(Lookup(Last(queue).snapshot, p))
    else Coming(Front(queue), p)
  }

  lemma {:induction false} ComingTail(queue: seq<Task>, p: Path)
    requires queue != []
    ensures Coming(queue, p) ==
            if Coming(queue[1..], p).Some? then Coming(queue[1..], p)
            else if Names(queue[0], p) then Some(Lookup(queue[0].snapshot, p))
            else None
  {
    if |queue| == 1 {
      assert Front(queue) == [];
    } else {
      ComingTail(Front(queue), p);
      assert Front(queue)[1..] == Front(queue[1..]);
    }
  }

  predicate ValidState(s: State)
  {
    && MarksFit(s.fields, s.nested)
    && (forall f | f in s.nested :: f in s.memory && s.memory[f].Obj?)
    && (forall i | 0 <= i < |s.queue| :: ValidTask(s.queue[i]))
  }

  lemma {:induction false} AppliedMarks(s: State, changes: seq<Change>)
    requires ValidState(s) && Possible(s, Change(changes))
    ensures var t := ApplyAll(s, changes);
            && MarksFit(t.fields, t.nested) && (forall f | f in t.nested :: f in t.memory && t.memory[f].Obj?)
            && t.queue == s.queue && t.disk == s.disk && t.loadError == s.loadError
  {
    if changes != [] {
      AppliedMarks(s, Front(changes));
    }
  }

  lemma StepIsValid(s: State, a: Action)
    requires ValidState(s) && Possible(s, a)
    ensures ValidState(Step(s, a))
  {
    if a.Change? {
      AppliedMarks(s, a.changes);
    }
  }

  /** A change to memory is marked; what is not marked has not changed. */
  lemma {:induction false} ChangesAreMarked(s: State, changes: seq<Change>, p: Path)
    requires ValidState(s) && Possible(s, Change(changes)) && ValidPath(p)
    ensures var t := ApplyAll(s, changes);
            Names(Task(t.memory, t.fields, t.nested), p) || Lookup(t.memory, p) == Lookup(s.memory, p)
  {
    if changes != [] {
      AppliedMarks(s, Front(changes));
      ChangesAreMarked(s, Front(changes), p);
      ChangeIsMarked(ApplyAll(s, Front(changes)), Last(changes), p);
    }
  }

  lemma ChangeIsMarked(s: State, c: Change, p: Path)
    requires ValidPath(p) && ValidPath(PathOf(c))
    ensures var t := Apply(s, c);
            && (Names(Task(s.memory, s.fields, s.nested), p) && MarksFit(s.fields, s.nested) ==>
                  Names(Task(t.memory, t.fields, t.nested), p))
            && (Names(Task(t.memory, t.fields, t.nested), p) || Lookup(t.memory, p) == Lookup(s.memory, p))
  {
  }

  /** The value a setter gives its path. */
  function Given(c: Change): Option<Value>
  {
    match c
    case SetField(_, value) => value
    case SetKey(_, _, json) => Some(Leaf(json))
  }

  predicate LastOnPath(changes: seq<Change>, k: nat)
  {
    k < |changes| && forall i | k < i < |changes| :: PathOf(changes[i]) != PathOf(changes[k])
  }

  /** After some setters, every path they set has the value given to it last, whatever it had before. */
  lemma {:induction false} LastSetterWins(s: State, changes: seq<Change>, k: nat)
    requires Possible(s, Change(changes)) && LastOnPath(changes, k)
    ensures Lookup(ApplyAll(s, changes).memory, PathOf(changes[k])) == Given(changes[k])
  {
    if k < |changes| - 1 {
      assert forall i | 0 <= i < |Front(changes)| :: Front(changes)[i] == changes[i];
      LastSetterWins(s, Front(changes), k);
      assert Last(changes) == changes[|changes| - 1];
      SettersAreApart(ApplyAll(s, Front(changes)), Last(changes), PathOf(changes[k]));
    }
  }

  lemma SettersAreApart(s: State, c: Change, p: Path)
    requires ValidPath(p) && ValidPath(PathOf(c)) && PathOf(c) != p
    ensures Lookup(Apply(s, c).memory, p) == Lookup(s.memory, p)
  {
  }

  /** Every other path keeps its value, marked or not. */
  lemma {:induction false} OtherPathsStay(s: State, changes: seq<Change>, p: Path)
    requires Possible(s, Change(changes)) && ValidPath(p)
    requires forall i | 0 <= i < |changes| :: PathOf(changes[i]) != p
    ensures Lookup(ApplyAll(s, changes).memory, p) == Lookup(s.memory, p)
  {
    if changes != [] {
      assert forall i | 0 <= i < |Front(changes)| :: Front(changes)[i] == changes[i];
      OtherPathsStay(s, Front(changes), p);
      assert Last(changes) == changes[|changes| - 1];
      SettersAreApart(ApplyAll(s, Front(changes)), Last(changes), p);
    }
  }

  lemma {:induction false} SetPathsAreNamed(s: State, changes: seq<Change>, k: nat)
    requires ValidState(s) && Possible(s, Change(changes)) && k < |changes|
    ensures var t := ApplyAll(s, changes); Names(Task(t.memory, t.fields, t.nested), PathOf(changes[k]))
  {
    AppliedMarks(s, Front(changes));
    if k < |changes| - 1 {
      SetPathsAreNamed(s, Front(changes), k);
      ChangeIsMarked(ApplyAll(s, Front(changes)), Last(changes), PathOf(changes[k]));
    }
  }

  /** How memory and file stand to each other for a path: see `Track`. */
  datatype Tracking = Tracked(settled: bool) | Stale

  /**
   What is kept for each path that is not stale: the last queued write that names it brings its value in memory;
   without one, the file has that value as long as the path is settled.
   */
  predicate UpToDate(s: State, p: Path, k: Tracking)
  {
    k.Tracked? ==>
      match Coming(s.queue, p)
      case Some(v) => v == Lookup(s.memory, p)
      case None => k.settled ==> Lookup(s.disk, p) == Lookup(s.memory, p)
  }

  /** A reload that reads the file while a queued write still brings it another value for the path. */
  predicate Races(s: State, p: Path)
  {
    Coming(s.queue, p).Some? && Coming(s.queue, p).value != Lookup(s.disk, p)
  }

  /**
   A path is settled by a write that names it and by a reload, and unsettled when another process changes it in
   the file. It is stale after a reload that overtakes a write of it, or a change that is not saved because the
   file could not be read; the next saved change or reload ends that. Whether marks were cleared plays no part.
   */
  function Track(s: State, a: Action, p: Path, k: Tracking): Tracking
    requires Possible(s, a)
  {
    match a
    case Change(changes) =>
      var t := ApplyAll(s, changes);
      if !Names(Task(t.memory, t.fields, t.nested), p) then k
      else if s.loadError then Stale
      else Tracked(k.Tracked? && k.settled)
    case WriteNext => if k.Stale? then Stale else Tracked(k.settled || Names(s.queue[0], p))
    case External(d) => if k.Stale? then Stale else Tracked(k.settled && Lookup(d, p) == Lookup(s.disk, p))
    case Reload(readable) => if !readable then k else if Races(s, p) then Stale else Tracked(true)
  }

  lemma ChangeKeepsUpToDate(s: State, changes: seq<Change>, p: Path, k: Tracking)
    requires ValidState(s) && Possible(s, Change(changes)) && ValidPath(p) && UpToDate(s, p, k)
    ensures UpToDate(Step(s, Change(changes)), p, Track(s, Change(changes), p, k))
  {
    var t := ApplyAll(s, changes);
    AppliedMarks(s, changes);
    ChangesAreMarked(s, changes, p);
    FrontOfAppend(t.queue, Task(t.memory, t.fields, t.nested));
  }

  lemma StepKeepsUpToDate(s: State, a: Action, p: Path, k: Tracking)
    requires ValidState(s) && Possible(s, a) && ValidPath(p) && UpToDate(s, p, k)
    ensures UpToDate(Step(s, a), p, Track(s, a, p, k))
  {
    match a
    case Change(changes) => ChangeKeepsUpToDate(s, changes, p, k);
    case WriteNext =>
      ComingTail(s.queue, p);
      WriteIsSelective(s.queue[0], s.disk, p);
    case External(_) =>
    case Reload(_) =>
  }

  /** What a path holds in the file once the queue has drained: what the last write naming it brings, if any does. */
  lemma {:induction false} QueueBrings(queue: seq<Task>, disk: Settings, p: Path)
    requires ValidPath(p) && forall i | 0 <= i < |queue| :: ValidTask(queue[i])
    ensures Lookup(PersistedAll(queue, disk), p)
         == match Coming(queue, p)
            case Some(v) => v
            case None => Lookup(disk, p)
  {
    if queue != [] {
      assert forall i | 0 <= i < |Front(queue)| :: Front(queue)[i] == queue[i];
      QueueBrings(Front(queue), disk, p);
      WriteIsSelective(Last(queue), PersistedAll(Front(queue), disk), p);
    }
  }

  /**
   A saved change reaches the file: once the queue has drained, with no other writer, every path that was set has
   in the file the value given to it last. After a failed load nothing is queued.
   */
  lemma SavedValuesReachTheFile(s: State, changes: seq<Change>, k: nat)
    requires ValidState(s) && Possible(s, Change(changes)) && LastOnPath(changes, k)
    ensures var t := Step(s, Change(changes));
            if s.loadError then t.queue == s.queue && t.disk == s.disk
            else Lookup(PersistedAll(t.queue, t.disk), PathOf(changes[k])) == Given(changes[k])
  {
    var applied, t := ApplyAll(s, changes), Step(s, Change(changes));
    AppliedMarks(s, changes);
    if !s.loadError {
      LastSetterWins(s, changes, k);
      SetPathsAreNamed(s, changes, k);
      StepIsValid(s, Change(changes));
      FrontOfAppend(applied.queue, Task(applied.memory, applied.fields, applied.nested));
      QueueBrings(t.queue, t.disk, PathOf(changes[k]));
    }
  }

  /**
   After a reload, once the writes that were queued then have reached the file, memory and file agree on a path
   exactly if none of them brought it another value than the file had when it was read.
   */
  lemma ReloadRaces(s: State, p: Path)
    requires ValidState(s) && ValidPath(p)
    ensures var t := Step(s, Reload(true));
            Lookup(PersistedAll(t.queue, t.disk), p) == Lookup(t.memory, p) <==> !Races(s, p)
  {
    QueueBrings(s.queue, s.disk, p);
  }

  /** Where some actions lead, and how memory and file stand there for the path. */
  datatype History = History(state: State, tracking: Tracking)

  function After(s: State, p: Path, actions: seq<Action>): Option<History>
  {
    if actions == [] then Some(History(s, Tracked(true)))
    else
      var before, a := After(s, p, Front(actions)), Last(actions);
      if before.None? || !Possible(before.value.state, a) then None
      else Some(History(Step(before.value.state, a), Track(before.value.state, a, p, before.value.tracking)))
  }

  /** The state after loading a file. */
  function Loaded(disk: Settings): State
  {
    State(disk, {}, map[], [], disk, false)
  }

  lemma {:induction false} HistoryKeeps(disk: Settings, p: Path, actions: seq<Action>)
    requires ValidPath(p) && After(Loaded(disk), p, actions).Some?
    ensures var h := After(Loaded(disk), p, actions).value; ValidState(h.state) && UpToDate(h.state, p, h.tracking)
  {
    if actions != [] {
      HistoryKeeps(disk, p, Front(actions));
      var h := After(Loaded(disk), p, Front(actions)).value;
      StepKeepsUpToDate(h.state, Last(actions), p, h.tracking);
      StepIsValid(h.state, Last(actions));
    }
  }

  /**
   In every history, although each finished write clears all marks, also those of later changes: once the
   queue is empty the file has the value in memory, unless another process changed it after the last write
   that named it, a reload overtook that write, or the change was not saved after a failed load.
   */
  lemma NoLostUpdate(disk: Settings, p: Path, actions: seq<Action>)
    requires ValidPath(p) && After(Loaded(disk), p, actions).Some?
    requires After(Loaded(disk), p, actions).value.state.queue == []
    ensures var h := After(Loaded(disk), p, actions).value;
            h.tracking == Tracked(true) ==> Lookup(h.state.disk, p) == Lookup(h.state.memory, p)
  {
    HistoryKeeps(disk, p, actions);
  }

  function Overtaking(f: string, after: Value): seq<Action>
  {
    [Change([SetField(f, Some(after))]), Reload(true), WriteNext]
  }

  /** A setter, a reload before its write, and the write: the file has the new value and memory the old one. */
  lemma OvertakenSetter(f: string, before: Value, after: Value)
    requires ValidPath(Whole(f)) && before != after
    ensures var h := After(Loaded(map[f := before]), Whole(f), Overtaking(f, after));
            && h.Some? && h.value.state.queue == [] && h.value.tracking == Stale
            && Lookup(h.value.state.disk, Whole(f)) == Some(after)
            && Lookup(h.value.state.memory, Whole(f)) == Some(before)
  {
    var p, s, actions := Whole(f), Loaded(map[f := before]), Overtaking(f, after);
    assert actions[..1] == [] + [actions[0]] && actions[..2] == actions[..1] + [actions[1]];
    assert actions == actions[..2] + [actions[2]];
    SetterQueued(f, before, after);
    Then(s, p, [], actions[0]);
    SetterOvertaken(f, before, after);
    Then(s, p, actions[..1], actions[1]);
    Then(s, p, actions[..2], actions[2]);
  }

  /** The state after the setter. */
  function WriteQueued(f: string, before: Value, after: Value): State
  {
    State(map[f := after], {f}, map[], [Task(map[f := after], {f}, map[])], map[f := before], false)
  }

  lemma SetterQueued(f: string, before: Value, after: Value)
    requires ValidPath(Whole(f))
    ensures var s, a := Loaded(map[f := before]), Change([SetField(f, Some(after))]);
            && Possible(s, a) && Step(s, a) == WriteQueued(f, before, after)
            && Track(s, a, Whole(f), Tracked(true)) == Tracked(true)
  {
    var s, c := Loaded(map[f := before]), SetField(f, Some(after));
    assert PathOf(c) == Whole(f) && Front([c]) == [];
    assert ApplyAll(s, [c]) == Apply(s, c);
    assert map[f := before][f := after] == map[f := after] && {} + {f} == {f};
  }

  lemma SetterOvertaken(f: string, before: Value, after: Value)
    requires ValidPath(Whole(f)) && before != after
    ensures var s, p := WriteQueued(f, before, after), Whole(f);
            var t := Step(s, Reload(true));
            && Races(s, p) && t.queue == s.queue && Step(t, WriteNext).queue == []
            && Lookup(Step(t, WriteNext).disk, p) == Some(after) && Lookup(t.memory, p) == Some(before)
  {
    var s, p := WriteQueued(f, before, after), Whole(f);
    assert Last(s.queue) == s.queue[0] && Names(s.queue[0], p);
    WriteIsSelective(s.queue[0], s.disk, p);
  }

  /** One more action. */
  lemma Then(s: State, p: Path, actions: seq<Action>, a: Action)
    requires After(s, p, actions).Some? && Possible(After(s, p, actions).value.state, a)
    ensures var h := After(s, p, actions).value;
            After(s, p, actions + [a]) == Some(History(Step(h.state, a), Track(h.state, a, p, h.tracking)))
  {
    FrontOfAppend(actions, a);
  }

  /** The path was set since the last write finished or the file was read again. */
  predicate SetSince(actions: seq<Action>, p: Path)
  {
    && actions != []
    && match Last(actions)
       case WriteNext => false
       case Reload(_) => false
       case External(_) => SetSince(Front(actions), p)
       case Change(changes) => SetSince(Front(actions), p) || Changes(changes, p)
  }

  lemma {:induction false} AppliedNames(s: State, changes: seq<Change>, p: Path)
    requires ValidState(s) && Possible(s, Change(changes)) && ValidPath(p)
    ensures var t := ApplyAll(s, changes);
            Names(Task(t.memory, t.fields, t.nested), p) <==>
            Names(Task(s.memory, s.fields, s.nested), p) || Changes(changes, p)
  {
    if changes != [] {
      var before, c := ApplyAll(s, Front(changes)), Last(changes);
      AppliedNames(s, Front(changes), p);
      AppliedMarks(s, Front(changes));
      NamesOneMore(before, c, p);
      assert Changes(changes, p) <==> Changes(Front(changes), p) || PathOf(c) == p by {
        assert c == changes[|changes| - 1];
        assert forall i | 0 <= i < |changes| - 1 :: PathOf(Front(changes)[i]) == PathOf(changes[i]);
      }
    }
  }

  lemma NamesOneMore(s: State, c: Change, p: Path)
    requires MarksFit(s.fields, s.nested) && ValidPath(p) && ValidPath(PathOf(c))
    ensures var t := Apply(s, c);
            Names(Task(t.memory, t.fields, t.nested), p) <==>
            Names(Task(s.memory, s.fields, s.nested), p) || PathOf(c) == p
  {
  }

  /**
   The marks are the paths that were set since the last write finished or the file was read again, and these are
   what the next saved change writes, with the values of that moment: an older setting is not written again.
   */
  lemma {:induction false} MarksAreSetSince(disk: Settings, p: Path, actions: seq<Action>)
    requires ValidPath(p) && After(Loaded(disk), p, actions).Some?
    ensures var s := After(Loaded(disk), p, actions).value.state;
            && (Names(Task(s.memory, s.fields, s.nested), p) <==> SetSince(actions, p))
            && (actions != [] && Last(actions).Change? && !s.loadError ==>
                  && s.queue != [] && (Names(Last(s.queue), p) <==> SetSince(actions, p))
                  && Lookup(Last(s.queue).snapshot, p) == Lookup(s.memory, p))
  {
    if actions != [] {
      MarksAreSetSince(disk, p, Front(actions));
      HistoryKeeps(disk, p, Front(actions));
      var s := After(Loaded(disk), p, Front(actions)).value.state;
      if Last(actions).Change? {
        AppliedNames(s, Last(actions).changes, p);
        AppliedMarks(s, Last(actions).changes);
      }
    }
  }

  /** What the last write that named the path, or the last other process to write the file, put there. */
  function LastPut(disk: Settings, p: Path, actions: seq<Action>): Option<Value>
    requires After(Loaded(disk), p, actions).Some?
  {
    if actions == [] then Lookup(disk, p)
    else
      var s := After(Loaded(disk), p, Front(actions)).value.state;
      match Last(actions)
      case External(d) => Lookup(d, p)
      case WriteNext =>
        if Names(s.queue[0], p) then Lookup(s.queue[0].snapshot, p) else LastPut(disk, p, Front(actions))
      case _ => LastPut(disk, p, Front(actions))
  }

  /** In every history the file holds exactly that, for every path. */
  lemma {:induction false} FileHoldsLastPut(disk: Settings, p: Path, actions: seq<Action>)
    requires ValidPath(p) && After(Loaded(disk), p, actions).Some?
    ensures Lookup(After(Loaded(disk), p, actions).value.state.disk, p) == LastPut(disk, p, actions)
  {
    if actions != [] {
      FileHoldsLastPut(disk, p, Front(actions));
      HistoryKeeps(disk, p, Front(actions));
      var s := After(Loaded(disk), p, Front(actions)).value.state;
      match Last(actions)
      case Change(changes) => AppliedMarks(s, changes);
      case WriteNext => WriteIsSelective(s.queue[0], s.disk, p);
      case External(_) =>
      case Reload(_) =>
    }
  }

  /** What the file holds for a path if only other processes ever wrote it. */
  function WrittenByOthers(disk: Settings, p: Path, actions: seq<Action>): Option<Value>
  {
    if actions == [] then Lookup(disk, p)
    else if Last(actions).External? then Lookup(Last(actions).disk, p)
    else WrittenByOthers(disk, p, Front(actions))
  }

  predicate Changes(changes: seq<Change>, p: Path)
  {
    exists i | 0 <= i < |changes| :: PathOf(changes[i]) == p
  }

  /** No mark and no queued write names the path. */
  predicate Unnamed(s: State, p: Path)
  {
    !Names(Task(s.memory, s.fields, s.nested), p) && forall i | 0 <= i < |s.queue| :: !Names(s.queue[i], p)
  }

  lemma {:induction false} OthersStayUnnamed(s: State, changes: seq<Change>, p: Path)
    requires ValidState(s) && ValidPath(p) && Unnamed(s, p) && Possible(s, Change(changes)) && !Changes(changes, p)
    ensures Unnamed(ApplyAll(s, changes), p) && ApplyAll(s, changes).disk == s.disk
  {
    if changes != [] {
      assert forall i | 0 <= i < |Front(changes)| :: PathOf(changes[i]) == PathOf(Front(changes)[i]);
      OthersStayUnnamed(s, Front(changes), p);
      AppliedMarks(s, Front(changes));
      assert Last(changes) == changes[|changes| - 1];
      OtherStaysUnnamed(ApplyAll(s, Front(changes)), Last(changes), p);
    }
  }

  lemma OtherStaysUnnamed(s: State, c: Change, p: Path)
    requires MarksFit(s.fields, s.nested) && ValidPath(p) && ValidPath(PathOf(c)) && Unnamed(s, p) && PathOf(c) != p
    ensures Unnamed(Apply(s, c), p) && Apply(s, c).disk == s.disk
  {
  }

  /** A path that is never set keeps, whatever else is written, exactly what other processes last put there. */
  lemma {:induction false} OthersKeepTheirValues(disk: Settings, p: Path, actions: seq<Action>)
    requires ValidPath(p) && After(Loaded(disk), p, actions).Some?
    requires forall i | 0 <= i < |actions| && actions[i].Change? :: !Changes(actions[i].changes, p)
    ensures var s := After(Loaded(disk), p, actions).value.state;
            Unnamed(s, p) && Lookup(s.disk, p) == WrittenByOthers(disk, p, actions)
  {
    if actions != [] {
      assert forall i | 0 <= i < |Front(actions)| :: actions[i] == Front(actions)[i];
      OthersKeepTheirValues(disk, p, Front(actions));
      HistoryKeeps(disk, p, Front(actions));
      var s := After(Loaded(disk), p, Front(actions)).value.state;
      match Last(actions)
      case Change(changes) =>
        assert Last(actions) == actions[|actions| - 1];
        OthersStayUnnamed(s, changes, p);
      case WriteNext => WriteIsSelective(s.queue[0], s.disk, p);
      case External(_) =>
      case Reload(_) =>
    }
  }

  // ---------------------------------------------------------------------------------------------
  // The manager
  // ---------------------------------------------------------------------------------------------

  /** A settings file, which other processes write too; its lock makes each access one step. */
  class SettingsStorage {
    var content: Settings

    constructor (content: Settings)
      ensures this.content == content
    {
      this.content := content;
    }
  }

  class SettingsManager {
    const storage: SettingsStorage
    var globalSettings: Settings
    var modifiedFields: set<string>
    var modifiedNestedFields: map<string, set<string>>
    var writeQueue: seq<Task>
    var loadError: bool

    ghost function Now(): State
      reads this, storage
    {
      State(globalSettings, modifiedFields, modifiedNestedFields, writeQueue, storage.content, loadError)
    }

    constructor (storage: SettingsStorage, readable: bool)
      ensures this.storage == storage
      ensures Now() == if readable then Loaded(storage.content)
                       else State(map[], {}, map[], [], storage.content, true)
    {
      this.storage, loadError := storage, !readable;
      globalSettings := if readable then storage.content else map[];
      modifiedFields, modifiedNestedFields, writeQueue := {}, map[], [];
    }

    method MarkModified(field: string, nestedKey: Option<string>)
      modifies this`modifiedFields, this`modifiedNestedFields
      ensures modifiedFields == old(modifiedFields) + {field}
      ensures modifiedNestedFields
           == if nestedKey.Some? then Marked(old(modifiedNestedFields), field, nestedKey.value)
              else old(modifiedNestedFields)
    {
      modifiedFields := modifiedFields + {field};
      if nestedKey.Some? {
        if field !in modifiedNestedFields {
          modifiedNestedFields := modifiedNestedFields[field := {}];
        }
        modifiedNestedFields := modifiedNestedFields[field := modifiedNestedFields[field] + {nestedKey.value}];
      }
    }

    /** Queues a write of what is marked now, unless the file could not be read when it was loaded. */
    method Enqueue()
      modifies this`writeQueue
      ensures Now() == if loadError then old(Now()) else Save(old(Now()))
    {
      if loadError {
        return;
      }
      writeQueue := writeQueue + [Task(globalSettings, modifiedFields, modifiedNestedFields)];
    }

    /** A setter of a whole field, or of one key of a nested field; some setters change two fields. */
    method Set(changes: seq<Change>)
      modifies this`globalSettings, this`modifiedFields, this`modifiedNestedFields, this`writeQueue
      ensures Now() == if loadError then ApplyAll(old(Now()), changes) else Save(ApplyAll(old(Now()), changes))
      ensures (forall i | 0 <= i < |changes| :: ValidPath(PathOf(changes[i]))) ==>
                forall k | 0 <= k < |changes| && LastOnPath(changes, k) ::
                  Lookup(globalSettings, PathOf(changes[k])) == Given(changes[k])
    {
      for i := 0 to |changes|
        invariant Now() == ApplyAll(old(Now()), changes[..i])
      {
        FrontOfPrefix(changes, i);
        match changes[i] {
          case SetField(f, value) =>
            globalSettings := Put(globalSettings, f, value);
            MarkModified(f, None);
          case SetKey(f, k, json) =>
            if f !in globalSettings || !globalSettings[f].Obj? {
              globalSettings := globalSettings[f := Obj(map[])];
            }
            globalSettings := globalSettings[f := Obj(globalSettings[f].keys[k := json])];
            MarkModified(f, Some(k));
        }
      }
      assert changes[..|changes|] == changes;
      if forall i | 0 <= i < |changes| :: ValidPath(PathOf(changes[i])) {
        forall k | 0 <= k < |changes| && LastOnPath(changes, k)
          ensures Lookup(globalSettings, PathOf(changes[k])) == Given(changes[k])
        {
          LastSetterWins(old(Now()), changes, k);
        }
      }
      Enqueue();
    }

    static method MergeNested(base: map<string, string>, memory: map<string, string>, modified: set<string>)
      returns (merged: map<string, string>)
      ensures merged == MergedKeys(base, memory, modified)
    {
      merged := base;
      var todo := modified;
      while todo != {}
        invariant todo <= modified
        invariant forall k :: Get(merged, k) == if k in modified - todo then Get(memory, k) else Get(base, k)
      {
        var k :| k in todo;
        merged := Put(merged, k, Get(memory, k));
        todo := todo - {k};
      }
      var expected := MergedKeys(base, memory, modified);
      assert forall k :: Get(merged, k) == Get(expected, k);
      SameMaps(merged, expected);
    }

    /** Reads the file, merges what the task names into it, and writes it back. */
    method PersistScopedSettings(task: Task)
      modifies storage
      ensures storage.content == Persisted(task, old(storage.content))
    {
      var current := storage.content;
      var merged := current;
      var todo := task.fields;
      while todo != {}
        invariant todo <= task.fields
        invariant forall f :: Get(merged, f) == if f in todo then Get(current, f) else Written(task, current, f)
      {
        var field :| field in todo;
        var value := Get(task.snapshot, field);
        if field in task.nested && value.Some? && value.value.Obj? {
          var nested := MergeNested(AsObject(Get(current, field)), value.value.keys, task.nested[field]);
          merged := merged[field := Obj(nested)];
        } else {
          merged := Put(merged, field, value);
        }
        todo := todo - {field};
      }
      var expected := Persisted(task, current);
      assert forall f :: Get(merged, f) == Get(expected, f);
      SameMaps(merged, expected);
      storage.content := merged;
    }

    /** Runs the first queued write; afterwards nothing is marked, whatever was set in the meantime. */
    method RunNextWrite()
      requires writeQueue != []
      modifies this`writeQueue, this`modifiedFields, this`modifiedNestedFields, storage
      ensures Now() == Step(old(Now()), WriteNext)
    {
      var task := writeQueue[0];
      writeQueue := writeQueue[1..];
      PersistScopedSettings(task);
      modifiedFields, modifiedNestedFields := {}, map[];
    }

    /** Runs the queued writes. */
    method Flush()
      modifies this`writeQueue, this`modifiedFields, this`modifiedNestedFields, storage
      ensures writeQueue == [] && storage.content == PersistedAll(old(writeQueue), old(storage.content))
    {
      ghost var all := writeQueue;
      var written := 0;
      while writeQueue != []
        invariant 0 <= written <= |all| && writeQueue == all[written..]
        invariant storage.content == PersistedAll(all[..written], old(storage.content))
        decreases |writeQueue|
      {
        FrontOfPrefix(all, written);
        RunNextWrite();
        written := written + 1;
      }
      assert all[..written] == all;
    }

    /** Reads the file again; if that fails, memory stays and saving is off. */
    method LoadAgain(readable: bool)
      modifies this`globalSettings, this`modifiedFields, this`modifiedNestedFields, this`loadError
      ensures Now() == Step(old(Now()), Action.Reload(readable))
    {
      if readable {
        globalSettings := storage.content;
      }
      loadError := !readable;
      modifiedFields, modifiedNestedFields := {}, map[];
    }

    /** Waits for the queued writes, then reads the file again, with no setter called in between. */
    method Reload(readable: bool)
      modifies this`globalSettings, this`writeQueue, this`modifiedFields, this`modifiedNestedFields, this`loadError
      modifies storage
      ensures storage.content == PersistedAll(old(writeQueue), old(storage.content))
      ensures var written := storage.content;
              Now() == State(if readable then written else old(globalSettings), {}, map[], [], written, !readable)
    {
      Flush();
      LoadAgain(readable);
    }
  }

  /** What a file holds after some writes. */
  function PersistedAll(queue: seq<Task>, current: Settings): Settings
  {
    if queue == [] then current else Persisted(Last(queue), PersistedAll(Front(queue), current))
  }

  lemma SameMaps<K, V>(a: map<K, V>, b: map<K, V>)
    requires forall k :: Get(a, k) == Get(b, k)
    ensures a == b
  {
    assert forall k :: k in a <==> Get(a, k).Some?;
    assert forall k :: k in b <==> Get(b, k).Some?;
  }

  /** The effective value of a setting: the overriding scope wins, and objects are merged key by key. */
  function Merged(base: Settings, overrides: Settings, f: string): Option<Value>
  {
    var b, o := Get(base, f), Get(overrides, f);
    if o.None? then b
    else if o.value.Obj? && b.Some? && b.value.Obj? then Some(Obj(b.value.keys + o.value.keys))
    else o
  }

  method DeepMergeSettings(base: Settings, overrides: Settings) returns (result: Settings)
    ensures forall f :: Get(result, f) == Merged(base, overrides, f)
  {
    result := base;
    var todo := overrides.Keys;
    while todo != {}
      invariant todo <= overrides.Keys
      invariant forall f :: Get(result, f) == if f in todo then Get(base, f) else Merged(base, overrides, f)
    {
      var key :| key in todo;
      if overrides[key].Obj? && key in base && base[key].Obj? {
        result := result[key := Obj(base[key].keys + overrides[key].keys)];
      } else {
        result := result[key := overrides[key]];
      }
      todo := todo - {key};
    }
  }

  /** A plain value in the overriding scope hides the field; else each of its keys wins over the same key below. */
  lemma OverridesWin(base: Settings, overrides: Settings, result: Settings, f: string, k: string)
    requires forall g :: Get(result, g) == Merged(base, overrides, g)
    ensures f !in overrides ==> Get(result, f) == Get(base, f)
    ensures f in overrides && overrides[f].Leaf? ==> Get(result, f) == Some(overrides[f])
    ensures f in overrides && overrides[f].Obj? ==>
              var p := Nested(f, k);
              Lookup(result, p) == if Lookup(overrides, p).Some? then Lookup(overrides, p) else Lookup(base, p)
  {
    assert Get(result, f) == Merged(base, overrides, f);
  }

  /** Merging in three scopes can be done in any order exactly if no plain value hides an object from another one. */
  lemma MergeAssociates(a: Settings, b: Settings, c: Settings, ab: Settings, bc: Settings, f: string)
    requires forall g :: Get(ab, g) == Merged(a, b, g)
    requires forall g :: Get(bc, g) == Merged(b, c, g)
    ensures Merged(ab, c, f) == Merged(a, bc, f) <==>
            !(f in a && a[f].Obj? && f in b && b[f].Leaf? && f in c && c[f].Obj? && !(a[f].keys.Keys <= c[f].keys.Keys))
  {
    assert Get(ab, f) == Merged(a, b, f) && Get(bc, f) == Merged(b, c, f);
    if f in a && a[f].Obj? && f in c && c[f].Obj? {
      var ka, kc := a[f].keys, c[f].keys;
      assert ka.Keys <= kc.Keys <==> ka + kc == kc by {
        if ka + kc == kc {
          assert (ka + kc).Keys == ka.Keys + kc.Keys;
        }
      }
      if f in b && b[f].Obj? {
        assert (ka + b[f].keys) + kc == ka + (b[f].keys + kc);
      }
    }
  }
}
