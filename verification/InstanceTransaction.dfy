/**
 `move_instance` as it runs: memories are created one by one, prompts copied, the
 configuration patched, and everything taken back when a step fails. `faults` says
 which operation fails, `debris` what a failing write leaves where it was writing.
 */
module InstanceTransaction {
  import opened Wrappers
  import opened InstanceMove

  datatype Reason =
    | PreviewBlocked | UnknownTeam | ConfigChanged | UnknownAgent | PromptMissing | SourcePromptsChanged
    | TargetInstanceExists | ActiveJobs | DestinationMemoryExists | PromptNamespaceExists | SourceMemoryChanged

  // How a move ends. `Failed` re-raises the failing step's own error.
  datatype Outcome =
    | Moved(orphanedPrompts: bool)
    | Rejected(reason: Reason)
    | Failed
    | MemoryRollbackFailed(orphans: seq<MemoryKey>)
    | PromptRollbackFailed

  // How far copying the prompts got. `Undone` has removed what it wrote.
  datatype Copy = NotReached | NoDirectory | Undone | LeftBehind | Copied

  datatype Preview = Preview(
    source: Team, target: Team, agent: Name, mode: Mode, blocked: bool, revision: nat,
    sourceRevisions: seq<(MemoryKey, Option<Files>)>, prompts: seq<Prompt>)

  function Names(prompts: seq<Prompt>): set<string> {
    set p | p in prompts :: p.name
  }

  /** Every registered prompt is there, with the payload it was registered with. */
  predicate AllPresent(files: Files, prompts: seq<Prompt>) {
    forall p :: p in prompts ==> p.name in files && files[p.name] == p.payload
  }

  function WithPrompts(files: Files, prompts: seq<Prompt>): Files {
    if prompts == [] then files
    else WithPrompts(files, prompts[..|prompts| - 1])[prompts[|prompts| - 1].name := prompts[|prompts| - 1].payload]
  }

  /** What a memory of the target holds after a move. */
  function Expected(snapshots: map<MemoryKey, Files>, mode: Mode, source: MemoryKey): Files {
    if mode.CopyMode? && source in snapshots then snapshots[source] else EMPTY_MEMORY
  }

  ghost predicate Filled(before: map<MemoryKey, Files>, after: map<MemoryKey, Files>, snapshots: map<MemoryKey, Files>,
                         mode: Mode, pairs: seq<Pair>)
  {
    && after - Targets(pairs) == before
    && (forall p :: p in pairs ==> p.target in after && after[p.target] == Expected(snapshots, mode, p.source))
  }

  // Everything a move reads or writes.
  datatype World = World(
    teams: Teams, revision: nat, memories: map<MemoryKey, Files>, prompts: map<Namespace, Files>)

  /** The agent's prompts with their payloads, in the order it lists them. */
  function Registered(files: Files, names: seq<string>): (prompts: seq<Prompt>)
    requires forall n :: n in names ==> n in files
    ensures AllPresent(files, prompts)
  {
    if names == [] then []
    else
      var last := names[|names| - 1];
      assert last in names;
      Registered(files, names[..|names| - 1]) + [Prompt(last, files[last])]
  }

  function Revisions(memories: map<MemoryKey, Files>, pairs: seq<Pair>): seq<(MemoryKey, Option<Files>)> {
    seq(|pairs|, i requires 0 <= i < |pairs| =>
      (pairs[i].source, if pairs[i].source in memories then Some(memories[pairs[i].source]) else None))
  }

  function SettingsOf(w: World, team: Team, name: Name): Settings
    requires team in w.teams && HasAgent(w.teams[team], name)
  {
    w.teams[team][FirstAgent(w.teams[team], name)].settings
  }

  function PairsOf(w: World, p: Preview): seq<Pair>
    requires p.source in w.teams && HasAgent(w.teams[p.source], p.agent)
  {
    PairList(OwnedSpecs(SettingsOf(w, p.source, p.agent)), p.source, p.target, p.agent)
  }

  /** `_preview_blocks`, in its order. */
  function Block(w: World, active: set<Namespace>, p: Preview): Option<Reason>
    requires p.source in w.teams && p.target in w.teams && HasAgent(w.teams[p.source], p.agent)
  {
    if HasAgent(w.teams[p.target], p.agent) then Some(TargetInstanceExists)
    else if Namespace(p.source, p.agent) in active || Namespace(p.target, p.agent) in active then Some(ActiveJobs)
    else if exists pair :: pair in PairsOf(w, p) && pair.target in w.memories then Some(DestinationMemoryExists)
    else if Namespace(p.target, p.agent) in w.prompts then Some(PromptNamespaceExists)
    else None
  }

  /** Why a move is refused before it changes anything. */
  function Objection(w: World, active: set<Namespace>, p: Preview): Option<Reason> {
    if p.blocked then Some(PreviewBlocked)
    else if p.source !in w.teams || p.target !in w.teams then Some(UnknownTeam)
    else if w.revision != p.revision then Some(ConfigChanged)
    else if !HasAgent(w.teams[p.source], p.agent) then Some(UnknownAgent)
    else
      var names := SettingsOf(w, p.source, p.agent).prompts;
      var files := FilesOf(w.prompts, Namespace(p.source, p.agent));
      if exists n :: n in names && n !in files then Some(PromptMissing)
      else if Registered(files, names) != p.prompts then Some(SourcePromptsChanged)
      else if Block(w, active, p).Some? then Block(w, active, p)
      else if Revisions(w.memories, PairsOf(w, p)) != p.sourceRevisions then Some(SourceMemoryChanged)
      else None
  }

  // ---- What an objection is about ----------------------------------------

  ghost predicate PromptsAsPreviewed(files: Files, names: seq<string>, prompts: seq<Prompt>) {
    && |prompts| == |names|
    && (forall i :: 0 <= i < |names| ==>
          names[i] in files && prompts[i].name == names[i] && prompts[i].payload == files[names[i]])
  }

  ghost predicate MemoriesAsPreviewed(memories: map<MemoryKey, Files>, pairs: seq<Pair>,
                                      revisions: seq<(MemoryKey, Option<Files>)>)
  {
    && |revisions| == |pairs|
    && (forall i :: 0 <= i < |pairs| ==>
          && revisions[i].0 == pairs[i].source
          && (revisions[i].1.Some? <==> pairs[i].source in memories)
          && (revisions[i].1.Some? ==> revisions[i].1.value == memories[pairs[i].source]))
  }

  /** The world is as it was previewed, and the target has room for the agent. */
  ghost predicate MayMove(w: World, active: set<Namespace>, p: Preview) {
    var from, to := Namespace(p.source, p.agent), Namespace(p.target, p.agent);
    && !p.blocked && p.source in w.teams && p.target in w.teams && w.revision == p.revision
    && (exists i :: 0 <= i < |w.teams[p.source]| && IsAgent(w.teams[p.source][i], p.agent))
    && (forall i :: 0 <= i < |w.teams[p.target]| ==> !IsAgent(w.teams[p.target][i], p.agent))
    && PromptsAsPreviewed(FilesOf(w.prompts, from), SettingsOf(w, p.source, p.agent).prompts, p.prompts)
    && from !in active && to !in active && to !in w.prompts
    && (forall pair :: pair in PairsOf(w, p) ==> pair.target !in w.memories)
    && MemoriesAsPreviewed(w.memories, PairsOf(w, p), p.sourceRevisions)
  }

  lemma {:induction false} RegisteredAt(files: Files, names: seq<string>)
    requires forall n :: n in names ==> n in files
    ensures |Registered(files, names)| == |names|
    ensures forall i :: 0 <= i < |names| ==> names[i] in files && Registered(files, names)[i] == Prompt(names[i], files[names[i]])
    decreases |names|
  {
    if names != [] {
      RegisteredAt(files, names[..|names| - 1]);
    }
  }

  lemma RegisteredAre(files: Files, names: seq<string>, prompts: seq<Prompt>)
    requires forall n :: n in names ==> n in files
    ensures Registered(files, names) == prompts <==> PromptsAsPreviewed(files, names, prompts)
  {
    RegisteredAt(files, names);
    if PromptsAsPreviewed(files, names, prompts) {
      assert forall i :: 0 <= i < |names| ==> Registered(files, names)[i] == prompts[i];
    }
  }

  lemma RevisionsAre(memories: map<MemoryKey, Files>, pairs: seq<Pair>, revisions: seq<(MemoryKey, Option<Files>)>)
    ensures Revisions(memories, pairs) == revisions <==> MemoriesAsPreviewed(memories, pairs, revisions)
  {
    if MemoriesAsPreviewed(memories, pairs, revisions) {
      assert forall i :: 0 <= i < |pairs| ==> Revisions(memories, pairs)[i] == revisions[i];
    }
  }

  /** The target has room for the agent, and neither namespace is busy. */
  ghost predicate HasRoom(w: World, active: set<Namespace>, p: Preview)
    requires p.source in w.teams && p.target in w.teams && HasAgent(w.teams[p.source], p.agent)
  {
    && !HasAgent(w.teams[p.target], p.agent)
    && Namespace(p.source, p.agent) !in active && Namespace(p.target, p.agent) !in active
    && Namespace(p.target, p.agent) !in w.prompts
    && (forall pair :: pair in PairsOf(w, p) ==> pair.target !in w.memories)
  }

  lemma UnblockedIff(w: World, active: set<Namespace>, p: Preview)
    requires p.source in w.teams && p.target in w.teams && HasAgent(w.teams[p.source], p.agent)
    ensures Block(w, active, p).None? <==> HasRoom(w, active, p)
  {
    hide PairsOf, HasAgent;
  }

  /** Nothing is objected to exactly the moves that may go ahead. */
  lemma NoObjectionIff(w: World, active: set<Namespace>, p: Preview)
    ensures Objection(w, active, p).None? <==> MayMove(w, active, p)
  {
    if p.source in w.teams && p.target in w.teams && HasAgent(w.teams[p.source], p.agent) {
      var names := SettingsOf(w, p.source, p.agent).prompts;
      var files := FilesOf(w.prompts, Namespace(p.source, p.agent));
      if forall n :: n in names ==> n in files {
        RegisteredAre(files, names, p.prompts);
      }
      RevisionsAre(w.memories, PairsOf(w, p), p.sourceRevisions);
      UnblockedIff(w, active, p);
      hide Block, PairsOf, SettingsOf, FilesOf, Registered, Revisions;
    }
  }

  /** What an objection says is so. */
  lemma ObjectionIsTrue(w: World, active: set<Namespace>, p: Preview)
    requires Objection(w, active, p).Some?
    ensures var from, to := Namespace(p.source, p.agent), Namespace(p.target, p.agent);
      match Objection(w, active, p).value
      case PreviewBlocked => p.blocked
      case UnknownTeam => p.source !in w.teams || p.target !in w.teams
      case ConfigChanged => w.revision != p.revision
      case UnknownAgent => p.source in w.teams && !HasAgent(w.teams[p.source], p.agent)
      case PromptMissing =>
        && p.source in w.teams && HasAgent(w.teams[p.source], p.agent)
        && (exists n :: n in SettingsOf(w, p.source, p.agent).prompts && n !in FilesOf(w.prompts, from))
      case SourcePromptsChanged =>
        && p.source in w.teams && HasAgent(w.teams[p.source], p.agent)
        && (!PromptsAsPreviewed(FilesOf(w.prompts, from), SettingsOf(w, p.source, p.agent).prompts, p.prompts))
      case TargetInstanceExists => p.target in w.teams && HasAgent(w.teams[p.target], p.agent)
      case ActiveJobs => from in active || to in active
      case DestinationMemoryExists =>
        && p.source in w.teams && HasAgent(w.teams[p.source], p.agent)
        && (exists pair :: pair in PairsOf(w, p) && pair.target in w.memories)
      case PromptNamespaceExists => to in w.prompts
      case SourceMemoryChanged =>
        && p.source in w.teams && HasAgent(w.teams[p.source], p.agent)
        && (!MemoriesAsPreviewed(w.memories, PairsOf(w, p), p.sourceRevisions))
  {
    if p.source in w.teams && HasAgent(w.teams[p.source], p.agent) {
      var names := SettingsOf(w, p.source, p.agent).prompts;
      var files := FilesOf(w.prompts, Namespace(p.source, p.agent));
      if forall n :: n in names ==> n in files {
        RegisteredAre(files, names, p.prompts);
      }
      RevisionsAre(w.memories, PairsOf(w, p), p.sourceRevisions);
    }
  }

  function FilesOf(prompts: map<Namespace, Files>, n: Namespace): Files {
    if n in prompts then prompts[n] else map[]
  }

  class Workspace {
    var teams: Teams
    var revision: nat
    var memories: map<MemoryKey, Files>
    var prompts: map<Namespace, Files>
    var ops: nat
    const activeJobs: set<Namespace>
    const faults: nat -> bool
    const debris: nat -> Option<Files>

    constructor (teams: Teams, memories: map<MemoryKey, Files>, prompts: map<Namespace, Files>,
                 activeJobs: set<Namespace>, faults: nat -> bool, debris: nat -> Option<Files>)
      ensures this.teams == teams && this.memories == memories && this.prompts == prompts
      ensures this.activeJobs == activeJobs && revision == 0
      ensures this.faults == faults && this.debris == debris && ops == 0
    {
      this.teams, this.memories, this.prompts, this.activeJobs := teams, memories, prompts, activeJobs;
      this.faults, this.debris := faults, debris;
      revision, ops := 0, 0;
    }

    /** No operation fails by itself. */
    ghost predicate NoFaults() {
      forall n :: !faults(n)
    }

    /** Nor does any from operation `n` on. */
    ghost predicate NoFaultsFrom(n: nat) {
      forall k :: k >= n ==> !faults(k)
    }

    method Fails() returns (failed: bool)
      modifies this`ops
      ensures ops == old(ops) + 1 && failed == faults(old(ops))
    {
      failed := faults(ops);
      ops := ops + 1;
    }

    // ---- Memories ----

    /** A failing write leaves what it likes in its own target, and only there. */
    method Mess(key: MemoryKey)
      modifies this`memories, this`ops
      ensures memories - {key} == old(memories) - {key} && ops > old(ops)
    {
      var left := debris(ops);
      ops := ops + 1;
      memories := if left.Some? then memories[key := left.value] else memories - {key};
    }

    method EnsureEmptyMemory(key: MemoryKey) returns (ok: bool)
      requires key !in memories
      modifies this`memories, this`ops
      ensures memories - {key} == old(memories)
      ensures ok ==> memories == old(memories)[key := EMPTY_MEMORY]
      ensures ops > old(ops) && (faults(old(ops)) ==> !ok)
      ensures NoFaults() ==> ok
    {
      var failed := Fails();
      if failed {
        Mess(key);
        return false;
      }
      memories := memories[key := EMPTY_MEMORY];
      return true;
    }

    method SaveDirect(key: MemoryKey, files: Files) returns (ok: bool)
      modifies this`memories, this`ops
      ensures memories - {key} == old(memories) - {key}
      ensures ok ==> memories == old(memories)[key := files]
      ensures ops > old(ops)
      ensures NoFaults() ==> ok
    {
      var failed := Fails();
      if failed {
        Mess(key);
        return false;
      }
      memories := memories[key := files];
      return true;
    }

    method RemoveTree(key: MemoryKey) returns (ok: bool)
      modifies this`memories, this`ops
      ensures memories - {key} == old(memories) - {key}
      ensures ops >= old(ops) && (NoFaultsFrom(old(ops)) ==> ok)
      ensures ok ==> key !in memories
    {
      if key in memories {
        var failed := Fails();
        if failed {
          Mess(key);
          return false;
        }
        memories := memories - {key};
      }
      return true;
    }

    /** One destination memory: empty first, then the files read from its source. */
    method CreateTarget(pair: Pair, mode: Mode, snapshots: map<MemoryKey, Files>) returns (ok: bool)
      requires pair.target !in memories
      modifies this`memories, this`ops
      ensures memories - {pair.target} == old(memories)
      ensures ok ==> memories == old(memories)[pair.target := Expected(snapshots, mode, pair.source)]
      ensures ops > old(ops) && (faults(old(ops)) ==> !ok)
      ensures NoFaults() ==> ok
    {
      ok := EnsureEmptyMemory(pair.target);
      if !ok {
        return;
      }
      if mode.CopyMode? {
        if pair.source in snapshots {
          ok := SaveDirect(pair.target, snapshots[pair.source]);
        }
      }
    }

    /** `created` grows before each creation, so that a failing one is taken back. */
    method CreateTargets(pairs: seq<Pair>, mode: Mode, snapshots: map<MemoryKey, Files>)
      returns (ok: bool, created: seq<MemoryKey>)
      requires DistinctTargets(pairs) && Absent(memories, pairs)
      modifies this`memories, this`ops
      ensures AsSet(created) <= Targets(pairs) && memories - AsSet(created) == old(memories)
      ensures ok ==> Filled(old(memories), memories, snapshots, mode, pairs)
      ensures ops >= old(ops) && (pairs != [] && faults(old(ops)) ==> !ok && ops > old(ops))
      ensures NoFaults() ==> ok
    {
      created, ok := [], true;
      for i := 0 to |pairs|
        invariant AsSet(created) == Targets(pairs[..i]) && memories - AsSet(created) == old(memories)
        invariant ops >= old(ops) && (i == 0 ==> ops == old(ops)) && (i > 0 ==> !faults(old(ops)))
        invariant Filled(old(memories), memories, snapshots, mode, pairs[..i]) && ok
      {
        FirstTargets(pairs, i);
        created := created + [pairs[i].target];
        ghost var before := memories;
        assert pairs[i].target !in memories by {
          assert pairs[i] in pairs;
        }
        ok := CreateTarget(pairs[i], mode, snapshots);
        MinusOneMore(old(memories), before, memories, Targets(pairs[..i]), pairs[i].target);
        if !ok {
          return;
        }
        FilledOneMore(old(memories), before, memories, snapshots, mode, pairs, i);
      }
      assert pairs[..|pairs|] == pairs;
    }

    /** Take back what was created, newest first, and report what could not be. */
    method RollbackMemories(created: seq<MemoryKey>) returns (errors: seq<MemoryKey>)
      modifies this`memories, this`ops
      ensures memories - AsSet(created) == old(memories) - AsSet(created)
      ensures errors == [] ==> memories == old(memories) - AsSet(created)
      ensures NoFaultsFrom(old(ops)) ==> errors == []
      ensures AsSet(errors) <= AsSet(created)
      ensures forall k :: k in AsSet(created) && k !in AsSet(errors) ==> k !in memories
    {
      errors := [];
      for i := |created| downto 0
        invariant memories - AsSet(created) == old(memories) - AsSet(created)
        invariant ops >= old(ops) && (NoFaultsFrom(old(ops)) ==> errors == [])
        invariant AsSet(errors) <= AsSet(created)
        invariant forall k :: i <= k < |created| ==> created[k] in errors || created[k] !in memories
      {
        ghost var before := memories;
        assert created[i] in AsSet(created);
        var ok := RemoveTree(created[i]);
        MinusSubset(before, memories, created[i], AsSet(created));
        if !ok {
          errors := errors + [created[i]];
        }
      }
      assert errors == [] ==> memories.Keys !! AsSet(created);
    }

    // ---- Prompts ----

    method EnsureNamespace(n: Namespace) returns (ok: bool)
      modifies this`prompts, this`ops
      ensures prompts == if ok && n !in old(prompts) then old(prompts)[n := map[]] else old(prompts)
      ensures NoFaults() ==> ok
    {
      var failed := Fails();
      if failed {
        return false;
      }
      if n !in prompts {
        prompts := prompts[n := map[]];
      }
      return true;
    }

    method WriteFile(n: Namespace, name: string, payload: Content) returns (ok: bool)
      requires n in prompts
      modifies this`prompts, this`ops
      ensures prompts == if ok then old(prompts)[n := old(prompts)[n][name := payload]] else old(prompts)
      ensures NoFaults() ==> ok
    {
      var failed := Fails();
      if failed {
        return false;
      }
      prompts := prompts[n := prompts[n][name := payload]];
      return true;
    }

    method Unlink(n: Namespace, name: string) returns (ok: bool)
      requires n in prompts
      modifies this`prompts, this`ops
      ensures prompts == if ok then old(prompts)[n := old(prompts)[n] - {name}] else old(prompts)
      ensures NoFaults() ==> ok
    {
      var failed := Fails();
      if failed {
        return false;
      }
      prompts := prompts[n := prompts[n] - {name}];
      return true;
    }

    /** Unlink the files a failed copy had written, newest first. */
    method UndoCopy(n: Namespace, written: seq<Prompt>) returns (ok: bool)
      requires n in prompts
      modifies this`prompts, this`ops
      ensures n in prompts && prompts - {n} == old(prompts) - {n}
      ensures ok ==> prompts[n] == old(prompts)[n] - Names(written)
      ensures prompts[n] - Names(written) == old(prompts)[n] - Names(written)
      ensures !ok && DistinctPrompts(written) && Names(written) <= old(prompts)[n].Keys ==> prompts[n] != map[]
    {
      var done := |written|;
      while done > 0
        invariant 0 <= done <= |written| && n in prompts && prompts - {n} == old(prompts) - {n}
        invariant prompts[n] - Names(written[..done]) == old(prompts)[n] - Names(written)
        invariant prompts[n] - Names(written) == old(prompts)[n] - Names(written)
        invariant DistinctPrompts(written) && Names(written) <= old(prompts)[n].Keys ==> NamesIn(written[..done], prompts[n])
      {
        NamesOneMore(written, done - 1);
        NamesShrink(written, done, prompts[n]);
        ghost var files := prompts[n];
        ok := Unlink(n, written[done - 1].name);
        if !ok {
          return;
        }
        done := done - 1;
        assert prompts[n] - Names(written[..done]) == files - Names(written[..done + 1]);
      }
      assert written[..0] == [] && prompts[n] - {} == prompts[n];
      ok := true;
    }

    /** Read every registered prompt again; none may be among the taken names. */
    method Verify(files: Files, registered: seq<Prompt>, taken: set<string>) returns (ok: bool)
      modifies this`ops
      ensures ok ==> AllPresent(files, registered) && Names(registered) !! taken
      ensures NoFaults() && AllPresent(files, registered) && Names(registered) !! taken ==> ok
    {
      for i := 0 to |registered|
        invariant AllPresent(files, registered[..i]) && Names(registered[..i]) !! taken
      {
        var failed := Fails();
        if failed || registered[i].name !in files || files[registered[i].name] != registered[i].payload {
          return false;
        }
        if registered[i].name in taken {
          return false;
        }
        NamesOneMore(registered, i);
      }
      assert registered[..|registered|] == registered;
      return true;
    }

    /** `_copy_namespace_locked`: check everything, then write, then undo on failure. */
    method CopyRegistered(from: Namespace, to: Namespace, registered: seq<Prompt>) returns (copy: Copy)
      requires from != to && to !in prompts
      modifies this`prompts, this`ops
      ensures !copy.NotReached? && prompts - {to} == old(prompts)
      ensures copy.NoDirectory? <==> to !in prompts
      ensures copy.Undone? ==> prompts[to] == map[]
      ensures copy.LeftBehind? ==> prompts[to] - Names(registered) == map[] && prompts[to] != map[]
      ensures copy.LeftBehind? || copy.Copied? ==> DistinctPrompts(registered)
      ensures copy.Copied? ==> prompts[to] == WithPrompts(map[], registered)
      ensures NoFaults() && from in old(prompts) && AllPresent(old(prompts)[from], registered) && DistinctPrompts(registered)
          ==> copy.Copied?
    {
      if !DistinctPrompts(registered) {
        return NoDirectory;
      }
      if from !in prompts {
        return NoDirectory;
      }
      var ok := EnsureNamespace(to);
      if !ok {
        return NoDirectory;
      }
      assert from in prompts && prompts[from] == old(prompts)[from];
      ok := Verify(prompts[from], registered, prompts[to].Keys);
      if !ok {
        return Undone;
      }
      copy := WriteAll(to, registered);
    }

    method WriteAll(to: Namespace, registered: seq<Prompt>) returns (copy: Copy)
      requires to in prompts && Names(registered) !! prompts[to].Keys
      modifies this`prompts, this`ops
      ensures to in prompts && prompts - {to} == old(prompts) - {to}
      ensures copy.Undone? || copy.LeftBehind? || copy.Copied?
      ensures copy.Undone? ==> prompts[to] == old(prompts)[to]
      ensures copy.LeftBehind? ==> prompts[to] - Names(registered) == old(prompts)[to]
      ensures copy.LeftBehind? && DistinctPrompts(registered) ==> prompts[to] != map[]
      ensures copy.Copied? ==> prompts[to] == WithPrompts(old(prompts)[to], registered)
      ensures NoFaults() ==> copy.Copied?
    {
      for i := 0 to |registered|
        invariant to in prompts && prompts - {to} == old(prompts) - {to}
        invariant prompts[to] == WithPrompts(old(prompts)[to], registered[..i])
      {
        var ok := WriteFile(to, registered[i].name, registered[i].payload);
        if !ok {
          WithPromptsAdds(old(prompts)[to], registered[..i]);
          NamesOfPrefix(registered, i);
          assert prompts[to] - Names(registered[..i]) == old(prompts)[to];
          var undone := UndoCopy(to, registered[..i]);
          MinusMore(prompts[to], old(prompts)[to], Names(registered[..i]), Names(registered));
          return if undone then Undone else LeftBehind;
        }
        assert registered[..i + 1][..i] == registered[..i];
      }
      assert registered[..|registered|] == registered;
      return Copied;
    }

    /** `_delete_namespace_locked`: check everything, then unlink, then restore on
        failure; the directory itself stays. */
    method DeleteRegistered(n: Namespace, registered: seq<Prompt>) returns (ok: bool)
      modifies this`prompts, this`ops
      ensures prompts - {n} == old(prompts) - {n} && (n in prompts <==> n in old(prompts))
      ensures ok ==> n in prompts && AllPresent(old(prompts)[n], registered)
                     && prompts[n] == old(prompts)[n] - Names(registered)
      ensures !(n in old(prompts) && AllPresent(old(prompts)[n], registered)) ==> prompts == old(prompts)
      ensures !ok && n in old(prompts) && registered != [] && Deletable(old(prompts)[n], registered) ==> prompts[n] != map[]
      ensures NoFaults() && n in old(prompts) && AllPresent(old(prompts)[n], registered) ==> ok
    {
      if n !in prompts {
        return false;
      }
      if registered != [] {
        StillThere(prompts[n], registered, 0);
      }
      ok := Verify(prompts[n], registered, {});
      if ok {
        ok := UnlinkAll(n, registered);
      }
    }

    method UnlinkAll(n: Namespace, registered: seq<Prompt>) returns (ok: bool)
      requires n in prompts
      modifies this`prompts, this`ops
      ensures n in prompts && prompts - {n} == old(prompts) - {n}
      ensures ok ==> prompts[n] == old(prompts)[n] - Names(registered)
      ensures !ok && Deletable(old(prompts)[n], registered) ==> prompts[n] != map[]
      ensures NoFaults() ==> ok
    {
      for i := 0 to |registered|
        invariant n in prompts && prompts - {n} == old(prompts) - {n}
        invariant prompts[n] == old(prompts)[n] - Names(registered[..i])
      {
        ok := Unlink(n, registered[i].name);
        if !ok {
          StillThere(old(prompts)[n], registered, i);
          Restore(n, registered[..i]);
          return;
        }
        NamesOneMore(registered, i);
      }
      assert registered[..|registered|] == registered;
      ok := true;
    }

    /** Write deleted prompts back, newest first, until one fails. */
    method Restore(n: Namespace, deleted: seq<Prompt>)
      requires n in prompts
      modifies this`prompts, this`ops
      ensures n in prompts && prompts - {n} == old(prompts) - {n}
      ensures old(prompts)[n].Keys <= prompts[n].Keys
    {
      for i := |deleted| downto 0
        invariant n in prompts && prompts - {n} == old(prompts) - {n} && old(prompts)[n].Keys <= prompts[n].Keys
      {
        var ok := WriteFile(n, deleted[i].name, deleted[i].payload);
        if !ok {
          return;
        }
      }
    }

    // ---- The configuration ----

    /** Edit the lists in place, then write the file; `false` is any exception. */
    method PatchConfig(source: Team, target: Team, name: Name) returns (ok: bool)
      requires source in teams && target in teams && source != target
      modifies this`teams, this`revision, this`ops
      ensures ok ==> EntryMoved(old(teams), teams, source, target, name) && revision == old(revision) + 1
      ensures !ok ==> teams == old(teams) && revision == old(revision)
      ensures NoFaults() && HasAgent(old(teams)[source], name) && !HasAgent(old(teams)[target], name) ==> ok
    {
      var sourceAgents, targetAgents := teams[source], teams[target];
      for i := 0 to |targetAgents|
        invariant forall k :: 0 <= k < i ==> !IsAgent(targetAgents[k], name)
      {
        if IsAgent(targetAgents[i], name) {
          return false;
        }
      }
      var index := 0;
      while index < |sourceAgents| && !IsAgent(sourceAgents[index], name)
        invariant index <= |sourceAgents| && forall k :: 0 <= k < index ==> !IsAgent(sourceAgents[k], name)
      {
        index := index + 1;
      }
      if index == |sourceAgents| {
        return false;
      }
      var moved := sourceAgents[index];
      sourceAgents := sourceAgents[..index] + sourceAgents[index + 1..];
      targetAgents := targetAgents + [moved];
      var failed := Fails();
      if failed {
        return false;
      }
      assert index == FirstAgent(teams[source], name);
      teams := teams[source := sourceAgents][target := targetAgents];
      revision := revision + 1;
      return true;
    }

    // ---- The transaction ----

    ghost function View(): World
      reads this
    {
      World(teams, revision, memories, prompts)
    }

    /** Take everything back: memories first, then the prompts copied so far. */
    method Rollback(created: seq<MemoryKey>, to: Namespace, registered: seq<Prompt>) returns (outcome: Outcome)
      modifies this`memories, this`prompts, this`ops
      ensures memories - AsSet(created) == old(memories) - AsSet(created)
      ensures prompts - {to} == old(prompts) - {to} && (to in prompts <==> to in old(prompts))
      ensures outcome.MemoryRollbackFailed? || outcome.PromptRollbackFailed? || outcome.Failed?
      ensures outcome.MemoryRollbackFailed? ==>
        && prompts == old(prompts) && outcome.orphans != [] && AsSet(outcome.orphans) <= AsSet(created)
        && forall k :: k in AsSet(created) && k !in AsSet(outcome.orphans) ==> k !in memories
      ensures !outcome.MemoryRollbackFailed? ==> memories == old(memories) - AsSet(created)
      ensures registered == [] ==> prompts == old(prompts) && !outcome.PromptRollbackFailed?
      ensures outcome.Failed? && registered != [] ==>
        to in prompts && AllPresent(old(prompts)[to], registered) && prompts[to] == old(prompts)[to] - Names(registered)
      ensures !(to in old(prompts) && AllPresent(old(prompts)[to], registered)) ==> prompts == old(prompts)
      ensures outcome.PromptRollbackFailed? && to in old(prompts) && Deletable(old(prompts)[to], registered) ==>
        prompts[to] != map[]
      ensures NoFaultsFrom(old(ops)) ==> !outcome.MemoryRollbackFailed?
    {
      var errors := RollbackMemories(created);
      if errors != [] {
        return MemoryRollbackFailed(errors);
      }
      if registered != [] {
        var ok := DeleteRegistered(to, registered);
        if !ok {
          return PromptRollbackFailed;
        }
      }
      return Failed;
    }

    /** The steps that can fail, up to the patched configuration. */
    method Attempt(p: Preview, pairs: seq<Pair>, snapshots: map<MemoryKey, Files>)
      returns (ok: bool, created: seq<MemoryKey>, copy: Copy)
      requires p.source in teams && p.target in teams && p.source != p.target
      requires DistinctTargets(pairs) && Absent(memories, pairs) && Namespace(p.target, p.agent) !in prompts
      modifies this`teams, this`revision, this`memories, this`prompts, this`ops
      ensures AsSet(created) <= Targets(pairs) && memories - AsSet(created) == old(memories)
      ensures prompts - {Namespace(p.target, p.agent)} == old(prompts)
      ensures Copying(p, copy, FilesOf(prompts, Namespace(p.target, p.agent)))
      ensures Namespace(p.target, p.agent) in prompts <==> !copy.NotReached? && !copy.NoDirectory?
      ensures !ok ==> teams == old(teams) && revision == old(revision)
      ensures ok ==>
        && EntryMoved(old(teams), teams, p.source, p.target, p.agent) && revision == old(revision) + 1
        && Filled(old(memories), memories, snapshots, p.mode, pairs)
        && copy == (if p.prompts == [] then NotReached else Copied)
      ensures pairs != [] && faults(old(ops)) ==> !ok && copy.NotReached? && ops > old(ops)
      ensures NoFaults() && Movable(old(View()), p) ==> ok
    {
      copy := NotReached;
      ok, created := CreateTargets(pairs, p.mode, snapshots);
      if !ok {
        return;
      }
      if p.prompts != [] {
        copy := CopyRegistered(Namespace(p.source, p.agent), Namespace(p.target, p.agent), p.prompts);
        if !copy.Copied? {
          ok := false;
          return;
        }
      }
      ok := PatchConfig(p.source, p.target, p.agent);
    }

    /** All of it, or nothing that a working rollback leaves behind. */
    method Transact(p: Preview, pairs: seq<Pair>, snapshots: map<MemoryKey, Files>) returns (outcome: Outcome, copy: Copy)
      requires p.source in teams && p.target in teams && p.source != p.target
      requires DistinctTargets(pairs) && Absent(memories, pairs) && Namespace(p.target, p.agent) !in prompts
      modifies this`teams, this`revision, this`memories, this`prompts, this`ops
      ensures Ends(old(View()), View(), p, pairs, snapshots, outcome, copy)
      ensures NoFaults() && Movable(old(View()), p) ==> outcome == Moved(false)
      ensures outcome.Moved? ==> forall pair :: pair in pairs ==>
        && pair.target in memories
        && memories[pair.target] == if p.mode == CopyMode && pair.source in snapshots then snapshots[pair.source]
                                    else map["memory.md" := ""]
      ensures pairs != [] && faults(old(ops)) && NoFaultsFrom(old(ops) + 1) ==>
        copy.NotReached? && (outcome.Failed? || outcome.PromptRollbackFailed?)
    {
      hide EntryMoved, Filled, Expected, Copying, PromptsMoved, Movable;
      ghost var before := View();
      var ok, created;
      ok, created, copy := Attempt(p, pairs, snapshots);
      if !ok {
        ghost var middle := View();
        outcome := Rollback(created, Namespace(p.target, p.agent), p.prompts);
        RolledBack(before, middle, View(), p, pairs, created, outcome, copy);
        return;
      }
      FilledMeans(before.memories, memories, snapshots, p.mode, pairs);
      outcome := DropSourcePrompts(p, before);
    }

    /** The move is done; source prompts that cannot be deleted are left as orphans. */
    method DropSourcePrompts(p: Preview, ghost before: World) returns (outcome: Outcome)
      requires p.source != p.target
      requires var from, to := Namespace(p.source, p.agent), Namespace(p.target, p.agent);
        && prompts - {to} == before.prompts && to !in before.prompts
        && (p.prompts == [] ==> prompts == before.prompts)
        && (p.prompts != [] ==> to in prompts && prompts[to] == WithPrompts(map[], p.prompts))
      modifies this`prompts, this`ops
      ensures outcome.Moved? && PromptsMoved(before.prompts, prompts, p, outcome.orphanedPrompts)
      ensures NoFaults() && Movable(before, p) ==> outcome == Moved(false)
    {
      var from, to := Namespace(p.source, p.agent), Namespace(p.target, p.agent);
      ghost var copied := prompts;
      var orphaned := false;
      assert FilesOf(prompts, from) == FilesOf(before.prompts, from) by {
        assert from in prompts <==> from in prompts - {to};
      }
      if p.prompts != [] {
        var ok := DeleteRegistered(from, p.prompts);
        orphaned := !ok;
      }
      SourceDeleted(before.prompts, copied, prompts, from, to);
      return Moved(orphaned);
    }

    // ---- The whole move ----

    /** The agent's prompts as registered now; `None` is a missing prompt. */
    method RegisteredEntries(from: Namespace, names: seq<string>) returns (entries: Option<seq<Prompt>>)
      ensures var files := FilesOf(prompts, from);
        if exists n :: n in names && n !in files then entries.None?
        else entries == Some(Registered(files, names))
    {
      var files := FilesOf(prompts, from);
      var found := [];
      for i := 0 to |names|
        invariant forall n :: n in names[..i] ==> n in files
        invariant found == Registered(files, names[..i])
      {
        if names[i] !in files {
          return None;
        }
        assert names[..i + 1] == names[..i] + [names[i]] && names[..i + 1][..i] == names[..i];
        found := found + [Prompt(names[i], files[names[i]])];
      }
      assert names[..|names|] == names;
      return Some(found);
    }

    method PreviewBlocks(p: Preview, pairs: seq<Pair>) returns (block: Option<Reason>)
      requires p.source in teams && p.target in teams && HasAgent(teams[p.source], p.agent)
      requires pairs == PairsOf(View(), p)
      ensures block == Block(View(), activeJobs, p)
    {
      if HasAgent(teams[p.target], p.agent) {
        return Some(TargetInstanceExists);
      }
      if Namespace(p.source, p.agent) in activeJobs || Namespace(p.target, p.agent) in activeJobs {
        return Some(ActiveJobs);
      }
      for i := 0 to |pairs|
        invariant forall k :: 0 <= k < i ==> pairs[k].target !in memories
      {
        if pairs[i].target in memories {
          assert pairs[i] in pairs;
          return Some(DestinationMemoryExists);
        }
      }
      if Namespace(p.target, p.agent) in prompts {
        return Some(PromptNamespaceExists);
      }
      return None;
    }

    /** Every check before the first change, in the program's order. */
    method CheckMove(p: Preview) returns (objection: Option<Reason>, pairs: seq<Pair>)
      ensures objection == Objection(View(), activeJobs, p)
      ensures objection.None? ==> pairs == PairsOf(View(), p)
    {
      pairs := [];
      if p.blocked {
        return Some(PreviewBlocked), pairs;
      }
      if p.source !in teams || p.target !in teams {
        return Some(UnknownTeam), pairs;
      }
      if revision != p.revision {
        return Some(ConfigChanged), pairs;
      }
      if !HasAgent(teams[p.source], p.agent) {
        return Some(UnknownAgent), pairs;
      }
      var settings := teams[p.source][FirstAgent(teams[p.source], p.agent)].settings;
      var entries := RegisteredEntries(Namespace(p.source, p.agent), settings.prompts);
      if entries.None? {
        return Some(PromptMissing), pairs;
      }
      if entries.value != p.prompts {
        return Some(SourcePromptsChanged), pairs;
      }
      pairs := ResolveOwnedMemoryPairs(settings, p.source, p.target, p.agent);
      var block := PreviewBlocks(p, pairs);
      if block.Some? {
        return block, pairs;
      }
      if Revisions(memories, pairs) != p.sourceRevisions {
        return Some(SourceMemoryChanged), pairs;
      }
      return None, pairs;
    }

    /** `move_instance`. */
    method Move(p: Preview) returns (outcome: Outcome, copy: Copy)
      modifies this
      ensures Objection(old(View()), activeJobs, p).Some? ==>
        outcome == Rejected(Objection(old(View()), activeJobs, p).value) && View() == old(View())
      ensures Objection(old(View()), activeJobs, p).None? ==>
        Ends(old(View()), View(), p, PairsOf(old(View()), p), old(memories), outcome, copy)
      ensures Objection(old(View()), activeJobs, p).None? && NoFaults() && DistinctPrompts(p.prompts) ==>
        outcome == Moved(false)
      ensures Objection(old(View()), activeJobs, p).None? && PairsOf(old(View()), p) != [] && p.prompts != [] ==>
        faults(old(ops)) && NoFaultsFrom(old(ops) + 1) ==>
        outcome == PromptRollbackFailed && Restored(old(View()), View(), p)
      ensures outcome.Rejected? <==> !MayMove(old(View()), activeJobs, p)
      ensures Objection(old(View()), activeJobs, p).None? && outcome.Moved? ==>
        forall pair :: pair in PairsOf(old(View()), p) ==>
          && pair.target in memories
          && memories[pair.target] == if p.mode == CopyMode && pair.source in old(memories) then old(memories)[pair.source]
                                      else map["memory.md" := ""]
    {
      var objection, pairs := CheckMove(p);
      NoObjectionIff(View(), activeJobs, p);
      hide MayMove;
      if objection.Some? {
        return Rejected(objection.value), NotReached;
      }
      ghost var before := View();
      Unobjected(before, activeJobs, p);
      UnobjectedMovable(before, activeJobs, p);
      var snapshots := map k | k in memories && k in Sources(pairs) :: memories[k];
      outcome, copy := Transact(p, pairs, snapshots);
      SnapshotsSuffice(before, View(), p, pairs, snapshots, outcome, copy);
    }
  }

  lemma FilledMeans(before: map<MemoryKey, Files>, after: map<MemoryKey, Files>, snapshots: map<MemoryKey, Files>,
                    mode: Mode, pairs: seq<Pair>)
    requires Filled(before, after, snapshots, mode, pairs)
    ensures forall pair :: pair in pairs ==>
      && pair.target in after
      && after[pair.target] == if mode == CopyMode && pair.source in snapshots then snapshots[pair.source]
                               else map["memory.md" := ""]
  {
  }

  lemma UnobjectedMovable(w: World, active: set<Namespace>, p: Preview)
    requires Objection(w, active, p).None?
    ensures DistinctPrompts(p.prompts) ==> Movable(w, p)
  {
    var files := FilesOf(w.prompts, Namespace(p.source, p.agent));
    if p.prompts != [] {
      assert AllPresent(files, p.prompts) && p.prompts[0] in p.prompts;
    }
  }

  lemma UnblockedTarget(w: World, active: set<Namespace>, p: Preview)
    requires Objection(w, active, p).None?
    ensures p.source in w.teams && p.target in w.teams && HasAgent(w.teams[p.source], p.agent)
    ensures p.source != p.target && Absent(w.memories, PairsOf(w, p)) && Namespace(p.target, p.agent) !in w.prompts
  {
    assert Block(w, active, p).None?;
  }

  /** What a move may rely on once nothing is objected. */
  lemma Unobjected(w: World, active: set<Namespace>, p: Preview)
    requires Objection(w, active, p).None?
    ensures p.source in w.teams && p.target in w.teams && p.source != p.target
    ensures HasAgent(w.teams[p.source], p.agent)
    ensures DistinctTargets(PairsOf(w, p)) && Absent(w.memories, PairsOf(w, p))
    ensures Namespace(p.target, p.agent) !in w.prompts
  {
    UnblockedTarget(w, active, p);
    hide Objection;
    hide Block;
    var settings := SettingsOf(w, p.source, p.agent);
    PairListIsOwned(settings, p.source, p.target, p.agent);
    PairsAreDisjoint(settings, p.source, p.target, p.agent, PairsOf(w, p));
  }

  /** What the source and the configuration have to offer for a move to succeed. */
  ghost predicate Movable(w: World, p: Preview) {
    && p.source in w.teams && p.target in w.teams
    && HasAgent(w.teams[p.source], p.agent) && !HasAgent(w.teams[p.target], p.agent)
    && DistinctPrompts(p.prompts)
    && (p.prompts != [] ==>
          && Namespace(p.source, p.agent) in w.prompts
          && AllPresent(w.prompts[Namespace(p.source, p.agent)], p.prompts))
  }

  // ---- How it ends -------------------------------------------------------

  ghost predicate Restored(before: World, after: World, p: Preview) {
    && after.teams == before.teams && after.revision == before.revision && after.memories == before.memories
    && after.prompts - {Namespace(p.target, p.agent)} == before.prompts
    && FilesOf(after.prompts, Namespace(p.target, p.agent)) == map[]
  }

  /** A finished move: who is where, and what every memory and prompt holds. */
  ghost predicate Completed(before: World, after: World, p: Preview, pairs: seq<Pair>, snapshots: map<MemoryKey, Files>,
                            orphaned: bool)
  {
    && EntryMoved(before.teams, after.teams, p.source, p.target, p.agent) && after.revision == before.revision + 1
    && Filled(before.memories, after.memories, snapshots, p.mode, pairs)
    && PromptsMoved(before.prompts, after.prompts, p, orphaned)
  }

  ghost predicate PromptsMoved(before: map<Namespace, Files>, after: map<Namespace, Files>, p: Preview, orphaned: bool) {
    var from, to := Namespace(p.source, p.agent), Namespace(p.target, p.agent);
    && (p.prompts == [] ==> after == before && !orphaned)
    && (p.prompts != [] ==>
          && after - {from, to} == before - {from, to}
          && to in after && after[to] == WithPrompts(map[], p.prompts)
          && (!orphaned ==> FilesOf(after, from) == FilesOf(before, from) - Names(p.prompts)))
  }

  /** Nothing of the target's prompts is there, never was or is not any more. */
  predicate NothingCopied(copy: Copy) {
    copy.NotReached? || copy.NoDirectory? || copy.Undone?
  }

  ghost predicate Ends(before: World, after: World, p: Preview, pairs: seq<Pair>, snapshots: map<MemoryKey, Files>,
                       outcome: Outcome, copy: Copy)
  {
    var to := Namespace(p.target, p.agent);
    match outcome
    case Moved(orphaned) => Completed(before, after, p, pairs, snapshots, orphaned)
    case Rejected(_) => false
    case Failed =>
      && Restored(before, after, p)
      && (p.prompts != [] ==> copy.LeftBehind? || copy.Copied?)
      && (to in after.prompts <==> p.prompts != [])
    case PromptRollbackFailed =>
      && p.prompts != []
      && after.teams == before.teams && after.revision == before.revision && after.memories == before.memories
      && after.prompts - {to} == before.prompts
      && (NothingCopied(copy) <==> Restored(before, after, p))
    case MemoryRollbackFailed(orphans) =>
      && orphans != [] && AsSet(orphans) <= Targets(pairs)
      && after.teams == before.teams && after.revision == before.revision
      && after.memories - AsSet(orphans) == before.memories
      && after.prompts - {to} == before.prompts
  }

  /** The snapshots taken of the sources say what the memories said. */
  lemma SnapshotsSuffice(before: World, after: World, p: Preview, pairs: seq<Pair>, snapshots: map<MemoryKey, Files>,
                         outcome: Outcome, copy: Copy)
    requires Ends(before, after, p, pairs, snapshots, outcome, copy)
    requires forall k :: k in Sources(pairs) ==>
      (k in snapshots <==> k in before.memories) && (k in snapshots ==> snapshots[k] == before.memories[k])
    ensures Ends(before, after, p, pairs, before.memories, outcome, copy)
  {
    if outcome.Moved? {
      forall pair | pair in pairs
        ensures Expected(snapshots, p.mode, pair.source) == Expected(before.memories, p.mode, pair.source)
      {
        assert pair.source in Sources(pairs);
      }
    }
  }

  /** A move that did not go through and whose memories were taken back reports a
      failed prompt rollback over a fully restored workspace exactly when the agent
      has prompts and none of them was, or still is, in the target: there is nothing
      to delete, and deleting nothing is an error. */
  lemma FalseAlarmIff(before: World, after: World, p: Preview, pairs: seq<Pair>, snapshots: map<MemoryKey, Files>,
                      outcome: Outcome, copy: Copy)
    requires Ends(before, after, p, pairs, snapshots, outcome, copy)
    requires outcome.Failed? || outcome.PromptRollbackFailed?
    ensures outcome.PromptRollbackFailed? && Restored(before, after, p) <==> p.prompts != [] && NothingCopied(copy)
  {
  }

  const PROMPTED := Agent("agent", Settings(["prompt"], Some(AgentScope), []))
  const OWN_MEMORY := MemoryKey(AgentScope, "from", "agent", None)
  const START :=
    World(map["from" := [PROMPTED], "to" := []], 0, map[], map[Namespace("from", "agent") := map["prompt" := "text"]])
  const MOVE :=
    Preview("from", "to", "agent", CopyMode, false, 0, [(OWN_MEMORY, None)], [Prompt("prompt", "text")])

  lemma NothingAgainstIt()
    ensures Objection(START, {}, MOVE).None? && PairsOf(START, MOVE) != []
  {
    var agents := START.teams["from"];
    assert IsAgent(agents[0], "agent");
    assert FirstAgent(agents, "agent") == 0;
    assert SettingsOf(START, "from", "agent") == PROMPTED.settings;
    var specs := OwnedSpecs(PROMPTED.settings);
    assert specs == [(AgentScope, None)];
    assert specs[..0] == [] && PairList(specs[..0], "from", "to", "agent") == [];
    assert PairsOf(START, MOVE) == [Pair(OWN_MEMORY, MemoryKey(AgentScope, "to", "agent", None))];
    assert Revisions(START.memories, PairsOf(START, MOVE)) == MOVE.sourceRevisions;
    var names, files := PROMPTED.settings.prompts, START.prompts[Namespace("from", "agent")];
    assert names[..0] == [] && Registered(files, names[..0]) == [];
    assert Registered(files, names) == MOVE.prompts;
  }

  /** The first write fails, nothing else does: everything is as it was, and still
      the move is reported as a failed prompt rollback. */
  method FalseAlarm() returns (outcome: Outcome, ghost after: World)
    ensures outcome == PromptRollbackFailed && Restored(START, after, MOVE)
  {
    NothingAgainstIt();
    var w := new Workspace(START.teams, START.memories, START.prompts, {}, n => n == 0, n => None);
    var copy;
    outcome, copy := w.Move(MOVE);
    after := w.View();
  }

  lemma FailedIsRestored(before: World, after: World, p: Preview, pairs: seq<Pair>, snapshots: map<MemoryKey, Files>,
                         copy: Copy)
    requires Ends(before, after, p, pairs, snapshots, Failed, copy)
    ensures Restored(before, after, p) && (Namespace(p.target, p.agent) in after.prompts <==> p.prompts != [])
  {
  }

  /** After a move that failed and was taken back, the same move is refused for good
      exactly when the agent has prompts: the namespace directory that was made for
      the target stays behind. */
  lemma RetryIsBlockedIff(before: World, after: World, active: set<Namespace>, p: Preview, copy: Copy)
    requires Objection(before, active, p).None?
    requires Ends(before, after, p, PairsOf(before, p), before.memories, Failed, copy)
    ensures Objection(after, active, p) == if p.prompts != [] then Some(PromptNamespaceExists) else None
  {
    var from, to := Namespace(p.source, p.agent), Namespace(p.target, p.agent);
    FailedIsRestored(before, after, p, PairsOf(before, p), before.memories, copy);
    hide Ends;
    Unobjected(before, active, p);
    assert from in before.prompts <==> from in after.prompts - {to};
    assert FilesOf(after.prompts, from) == FilesOf(before.prompts, from);
    assert PairsOf(after, p) == PairsOf(before, p);
  }

  lemma CopyTakenBack(p: Preview, copy: Copy, files: Files)
    requires Copying(p, copy, files) && AllPresent(files, p.prompts) && p.prompts != []
    ensures files - Names(p.prompts) == map[] && !copy.NotReached? && !copy.NoDirectory? && !copy.Undone?
  {
    assert p.prompts[0] in p.prompts;
    WithPromptsAdds(map[], p.prompts);
  }

  /** A failed deletion leaves something exactly when something was there. */
  lemma PromptsLeft(p: Preview, copy: Copy, middle: Files, after: Files)
    requires Copying(p, copy, middle) && p.prompts != []
    requires Deletable(middle, p.prompts) ==> after != map[]
    requires !AllPresent(middle, p.prompts) ==> after == middle
    ensures NothingCopied(copy) <==> after == map[]
  {
    assert p.prompts[0].name in Names(p.prompts);
    WithPromptsAdds(map[], p.prompts);
  }

  lemma RolledBack(before: World, middle: World, after: World, p: Preview, pairs: seq<Pair>, created: seq<MemoryKey>,
                   outcome: Outcome, copy: Copy)
    requires middle.teams == before.teams == after.teams && middle.revision == before.revision == after.revision
    requires Absent(before.memories, pairs) && Namespace(p.target, p.agent) !in before.prompts
    requires AsSet(created) <= Targets(pairs) && middle.memories - AsSet(created) == before.memories
    requires var to := Namespace(p.target, p.agent);
      && middle.prompts - {to} == before.prompts && Copying(p, copy, FilesOf(middle.prompts, to))
      && (to in middle.prompts <==> !copy.NotReached? && !copy.NoDirectory?)
      && after.prompts - {to} == middle.prompts - {to} && (to in after.prompts <==> to in middle.prompts)
      && (!(to in middle.prompts && AllPresent(middle.prompts[to], p.prompts)) ==> after.prompts == middle.prompts)
      && (p.prompts == [] ==> after.prompts == middle.prompts && !outcome.PromptRollbackFailed?)
      && (outcome.Failed? && p.prompts != [] ==>
            to in after.prompts && AllPresent(middle.prompts[to], p.prompts)
            && after.prompts[to] == middle.prompts[to] - Names(p.prompts))
      && (outcome.PromptRollbackFailed? && to in middle.prompts && Deletable(middle.prompts[to], p.prompts) ==>
            to in after.prompts && after.prompts[to] != map[])
    requires after.memories - AsSet(created) == middle.memories - AsSet(created)
    requires !outcome.MemoryRollbackFailed? ==> after.memories == middle.memories - AsSet(created)
    requires outcome.MemoryRollbackFailed? ==>
      && outcome.orphans != [] && AsSet(outcome.orphans) <= AsSet(created)
      && forall k :: k in AsSet(created) && k !in AsSet(outcome.orphans) ==> k !in after.memories
    requires outcome.MemoryRollbackFailed? || outcome.PromptRollbackFailed? || outcome.Failed?
    ensures Ends(before, after, p, pairs, map[], outcome, copy)
  {
    var to := Namespace(p.target, p.agent);
    if p.prompts != [] && to in middle.prompts && AllPresent(middle.prompts[to], p.prompts) {
      CopyTakenBack(p, copy, middle.prompts[to]);
      assert Deletable(middle.prompts[to], p.prompts) || NothingCopied(copy);
    }
    if outcome.PromptRollbackFailed? {
      assert p.prompts[0] in p.prompts;
      PromptsLeft(p, copy, FilesOf(middle.prompts, to), FilesOf(after.prompts, to));
    }
    if outcome.MemoryRollbackFailed? {
      assert after.memories - AsSet(outcome.orphans) == after.memories - AsSet(created);
    }
  }

  lemma SourceDeleted(before: map<Namespace, Files>, middle: map<Namespace, Files>, after: map<Namespace, Files>,
                      from: Namespace, to: Namespace)
    requires from != to && middle - {to} == before && after - {from} == middle - {from}
    ensures after - {from, to} == before - {from, to}
    ensures to in middle ==> to in after && after[to] == middle[to]
    ensures FilesOf(middle, from) == FilesOf(before, from)
  {
    assert after - {from, to} == (after - {from}) - {to};
    assert before - {from, to} == (middle - {from}) - {to};
    if to in middle {
      assert to in middle - {from};
    }
    assert from in middle <==> from in middle - {to};
  }

  /** What the target's prompt files are once copying got as far as `copy`. */
  ghost predicate Copying(p: Preview, copy: Copy, files: Files) {
    && (copy.NotReached? || copy.NoDirectory? || copy.Undone? ==> files == map[])
    && (copy.LeftBehind? ==> files - Names(p.prompts) == map[] && files != map[])
    && (copy.Copied? ==> files == WithPrompts(map[], p.prompts))
    && (copy.LeftBehind? || copy.Copied? ==> DistinctPrompts(p.prompts))
    && (!copy.NotReached? ==> p.prompts != [])
  }

  predicate DistinctPrompts(prompts: seq<Prompt>) {
    forall i, j :: 0 <= i < j < |prompts| ==> prompts[i].name != prompts[j].name
  }

  lemma MinusMore(files: Files, start: Files, few: set<string>, many: set<string>)
    requires files - few == start && few <= many && start.Keys !! many
    ensures files - many == start
  {
    assert files - many == (files - few) - many;
  }

  lemma NamesOneMore(prompts: seq<Prompt>, i: nat)
    requires i < |prompts|
    ensures Names(prompts[..i + 1]) == Names(prompts[..i]) + {prompts[i].name}
    ensures forall p :: p in prompts[..i + 1] <==> p in prompts[..i] || p == prompts[i]
  {
    assert prompts[..i + 1] == prompts[..i] + [prompts[i]];
    assert forall p :: p in prompts[..i + 1] <==> p in prompts[..i] || p == prompts[i];
  }

  ghost predicate Deletable(files: Files, prompts: seq<Prompt>) {
    AllPresent(files, prompts) && DistinctPrompts(prompts)
  }

  ghost predicate NamesIn(prompts: seq<Prompt>, files: Files) {
    forall k :: 0 <= k < |prompts| ==> prompts[k].name in files
  }

  /** Unlinking the newest of several written files leaves the older ones. */
  lemma NamesShrink(written: seq<Prompt>, done: nat, files: Files)
    requires 0 < done <= |written|
    ensures DistinctPrompts(written) && NamesIn(written[..done], files) ==>
      files != map[] && NamesIn(written[..done - 1], files - {written[done - 1].name})
  {
    if DistinctPrompts(written) && NamesIn(written[..done], files) {
      assert written[..done][done - 1].name in files;
    }
  }

  /** The file whose deletion failed is still there. */
  lemma StillThere(files: Files, prompts: seq<Prompt>, i: nat)
    requires i < |prompts|
    ensures Deletable(files, prompts) ==> prompts[i].name in (files - Names(prompts[..i])).Keys
  {
    assert prompts[i] in prompts;
  }

  lemma NamesOfPrefix(prompts: seq<Prompt>, i: nat)
    requires i <= |prompts|
    ensures Names(prompts[..i]) <= Names(prompts)
  {
  }

  /** Writing prompts into files adds exactly their names. */
  lemma {:induction false} WithPromptsAdds(files: Files, prompts: seq<Prompt>)
    ensures WithPrompts(files, prompts).Keys == files.Keys + Names(prompts)
    ensures forall k :: k in files && k !in Names(prompts) ==> WithPrompts(files, prompts)[k] == files[k]
    ensures WithPrompts(files, prompts) - Names(prompts) == files - Names(prompts)
    decreases |prompts|
  {
    if prompts != [] {
      var last := |prompts| - 1;
      WithPromptsAdds(files, prompts[..last]);
      NamesOneMore(prompts, last);
      assert prompts[..last + 1] == prompts;
    }
  }

  ghost predicate DistinctTargets(pairs: seq<Pair>) {
    forall i, j :: 0 <= i < j < |pairs| ==> pairs[i].target != pairs[j].target
  }

  ghost predicate Absent(memories: map<MemoryKey, Files>, pairs: seq<Pair>) {
    forall p :: p in pairs ==> p.target !in memories
  }

  function AsSet(keys: seq<MemoryKey>): set<MemoryKey> {
    set k | k in keys
  }

  lemma FirstTargets(pairs: seq<Pair>, i: nat)
    requires i < |pairs| && DistinctTargets(pairs)
    ensures pairs[..i + 1] == pairs[..i] + [pairs[i]]
    ensures Targets(pairs[..i + 1]) == Targets(pairs[..i]) + {pairs[i].target}
    ensures pairs[i].target !in Targets(pairs[..i]) && Targets(pairs[..i + 1]) <= Targets(pairs)
  {
    assert forall p :: p in pairs[..i + 1] <==> p in pairs[..i] || p == pairs[i];
  }

  lemma MinusOneMore(start: map<MemoryKey, Files>, before: map<MemoryKey, Files>, after: map<MemoryKey, Files>,
                     keys: set<MemoryKey>, key: MemoryKey)
    requires before - keys == start && after - {key} == before && key !in start
    ensures after - (keys + {key}) == start
  {
    assert after - (keys + {key}) == (after - {key}) - keys;
  }

  lemma MinusSubset(before: map<MemoryKey, Files>, after: map<MemoryKey, Files>, key: MemoryKey, keys: set<MemoryKey>)
    requires after - {key} == before - {key} && key in keys
    ensures after - keys == before - keys
    ensures forall k :: k != key ==> (k in after <==> k in before)
  {
    assert after - keys == (after - {key}) - keys;
    assert before - keys == (before - {key}) - keys;
    forall k | k != key
      ensures k in after <==> k in before
    {
      assert k in after - {key} <==> k in before - {key};
    }
  }

  lemma FilledOneMore(start: map<MemoryKey, Files>, before: map<MemoryKey, Files>, after: map<MemoryKey, Files>,
                      snapshots: map<MemoryKey, Files>, mode: Mode, pairs: seq<Pair>, i: nat)
    requires i < |pairs| && DistinctTargets(pairs) && Absent(start, pairs)
    requires Filled(start, before, snapshots, mode, pairs[..i])
    requires after == before[pairs[i].target := Expected(snapshots, mode, pairs[i].source)]
    ensures Filled(start, after, snapshots, mode, pairs[..i + 1])
  {
    FirstTargets(pairs, i);
    assert pairs[i] in pairs;
    assert after - Targets(pairs[..i + 1]) == before - Targets(pairs[..i]);
  }
}
