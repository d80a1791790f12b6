/**
 Moving an agent instance to another team (flowgency/instances.py): a transaction
 over the configuration, the agent's memories and its private prompts, any step of
 which may fail. Contents stand for their own digests and revisions.
 */
module InstanceMove {
  import opened Wrappers

  type Team = string
  type Name = string
  type Content = string
  type Files = map<string, Content>

  datatype Scope = RunScope | RoutineScope | AgentScope | TeamScope | ChannelScope(channel: string)

  datatype RoutineEntry = RoutineEntry(id: string, memory: Option<Scope>)

  datatype Settings = Settings(prompts: seq<string>, defaultMemory: Option<Scope>, routines: seq<RoutineEntry>)

  // One item of a team's `agents` list; `Other` is anything that is not a mapping.
  datatype Entry = Agent(name: Name, settings: Settings) | Other(text: string)

  // What a memory's directory name is a hash of.
  datatype MemoryKey = MemoryKey(scope: Scope, team: Team, agent: Name, routine: Option<string>)

  datatype Pair = Pair(source: MemoryKey, target: MemoryKey)

  datatype Namespace = Namespace(team: Team, agent: Name)

  datatype Prompt = Prompt(name: string, payload: Content)

  datatype Mode = CopyMode | EmptyMode

  const EMPTY_MEMORY: Files := map["memory.md" := ""]

  // ---- The configuration patch -------------------------------------------

  predicate IsAgent(e: Entry, name: Name) {
    e.Agent? && e.name == name
  }

  predicate HasAgent(entries: seq<Entry>, name: Name) {
    exists i :: 0 <= i < |entries| && IsAgent(entries[i], name)
  }

  /** The first entry of that name; the length when there is none. */
  function FirstAgent(entries: seq<Entry>, name: Name): (i: nat)
    ensures i <= |entries| && (i < |entries| ==> IsAgent(entries[i], name))
    ensures forall k :: 0 <= k < i ==> !IsAgent(entries[k], name)
  {
    if entries == [] || IsAgent(entries[0], name) then 0 else 1 + FirstAgent(entries[1..], name)
  }

  ghost predicate UniqueNames(entries: seq<Entry>) {
    forall i, j :: 0 <= i < j < |entries| && entries[i].Agent? && entries[j].Agent? ==> entries[i].name != entries[j].name
  }

  type Teams = map<Team, seq<Entry>>

  /** One entry goes from the end of nowhere to the end of the target's list; every
      other entry of every team stays where it is. */
  ghost predicate EntryMoved(before: Teams, after: Teams, source: Team, target: Team, name: Name) {
    && source in before && target in before && source != target
    && HasAgent(before[source], name) && !HasAgent(before[target], name)
    && var i := FirstAgent(before[source], name);
       after == before[source := before[source][..i] + before[source][i + 1..]]
                      [target := before[target] + [before[source][i]]]
  }

  /** The agent is in the target team only, and everyone else is where they were. */
  lemma MovedMeansTargetOnly(before: Teams, after: Teams, source: Team, target: Team, name: Name)
    requires EntryMoved(before, after, source, target, name) && UniqueNames(before[source])
    ensures HasAgent(after[target], name) && !HasAgent(after[source], name)
    ensures forall t :: t in before && t != source && t != target ==> after[t] == before[t]
    ensures after[target][..|before[target]|] == before[target] && |after[target]| == |before[target]| + 1
    ensures forall k :: 0 <= k < |after[source]| ==>
      after[source][k] == before[source][if k < FirstAgent(before[source], name) then k else k + 1]
  {
    var i := FirstAgent(before[source], name);
    assert IsAgent(after[target][|before[target]|], name);
    forall k | 0 <= k < |after[source]|
      ensures !IsAgent(after[source][k], name)
    {
      assert after[source][k] == before[source][if k < i then k else k + 1];
    }
  }

  // ---- The memories an agent owns ----------------------------------------

  predicate Owned(scope: Scope) {
    scope.AgentScope? || scope.RoutineScope?
  }

  function SelectedScope(routine: Option<Scope>, default: Option<Scope>): Scope {
    if routine.Some? then routine.value else if default.Some? then default.value else RunScope
  }

  function RoutineSpecs(settings: Settings, routines: seq<RoutineEntry>): seq<(Scope, Option<string>)> {
    if routines == [] then []
    else
      var selected := SelectedScope(routines[0].memory, settings.defaultMemory);
      (if Owned(selected) then [(selected, if selected.RoutineScope? then Some(routines[0].id) else None)] else [])
      + RoutineSpecs(settings, routines[1..])
  }

  function OwnedSpecs(settings: Settings): seq<(Scope, Option<string>)> {
    (if settings.defaultMemory.Some? && Owned(settings.defaultMemory.value) then [(settings.defaultMemory.value, None)] else [])
    + RoutineSpecs(settings, settings.routines)
  }

  function PairFor(spec: (Scope, Option<string>), source: Team, target: Team, name: Name): Pair {
    Pair(MemoryKey(spec.0, source, name, spec.1), MemoryKey(spec.0, target, name, spec.1))
  }

  ghost predicate IsPair(specs: seq<(Scope, Option<string>)>, source: Team, target: Team, name: Name, p: Pair) {
    exists k :: 0 <= k < |specs| && p == PairFor(specs[k], source, target, name)
  }

  ghost predicate OwnedPairs(settings: Settings, source: Team, target: Team, name: Name, pairs: seq<Pair>) {
    && (forall i, j :: 0 <= i < j < |pairs| ==> pairs[i] != pairs[j])
    && (forall p :: p in pairs <==> IsPair(OwnedSpecs(settings), source, target, name, p))
  }

  function Targets(pairs: seq<Pair>): set<MemoryKey> {
    set p | p in pairs :: p.target
  }

  function Sources(pairs: seq<Pair>): set<MemoryKey> {
    set p | p in pairs :: p.source
  }

  /** The pairs are one-to-one, and no memory is both a source and a target. */
  lemma PairsAreDisjoint(settings: Settings, source: Team, target: Team, name: Name, pairs: seq<Pair>)
    requires OwnedPairs(settings, source, target, name, pairs) && source != target
    ensures Sources(pairs) !! Targets(pairs)
    ensures forall i, j :: 0 <= i < j < |pairs| ==> pairs[i].target != pairs[j].target
    ensures forall p :: p in pairs ==> p.source == p.target.(team := source)
  {
    forall p | p in pairs
      ensures p.source.team == source && p.target.team == target && p.source == p.target.(team := source)
              && p.target == p.source.(team := target)
    {
      assert IsPair(OwnedSpecs(settings), source, target, name, p);
    }
    forall i, j | 0 <= i < j < |pairs|
      ensures pairs[i].target != pairs[j].target
    {
      assert pairs[i] in pairs && pairs[j] in pairs;
    }
  }

  /** Every pair once, in order of first mention; the program orders by hash. */
  function PairList(specs: seq<(Scope, Option<string>)>, source: Team, target: Team, name: Name): seq<Pair> {
    if specs == [] then []
    else
      var rest, p := PairList(specs[..|specs| - 1], source, target, name), PairFor(specs[|specs| - 1], source, target, name);
      if p in rest then rest else rest + [p]
  }

  lemma {:induction false} PairListMembers(specs: seq<(Scope, Option<string>)>, source: Team, target: Team, name: Name)
    ensures var pairs := PairList(specs, source, target, name);
      && (forall i, j :: 0 <= i < j < |pairs| ==> pairs[i] != pairs[j])
      && (forall p :: p in pairs <==> IsPair(specs, source, target, name, p))
    decreases |specs|
  {
    if specs != [] {
      var front, spec := specs[..|specs| - 1], specs[|specs| - 1];
      PairListMembers(front, source, target, name);
      assert specs == front + [spec];
      forall p
        ensures p in PairList(specs, source, target, name) <==> IsPair(specs, source, target, name, p)
      {
        OneMoreSpec(front, spec, source, target, name, p);
      }
    }
  }

  lemma OneMoreSpec(specs: seq<(Scope, Option<string>)>, spec: (Scope, Option<string>),
                    source: Team, target: Team, name: Name, p: Pair)
    ensures IsPair(specs + [spec], source, target, name, p)
       <==> IsPair(specs, source, target, name, p) || p == PairFor(spec, source, target, name)
  {
    var more := specs + [spec];
    assert more[|specs|] == spec;
    if IsPair(specs, source, target, name, p) {
      var k :| 0 <= k < |specs| && p == PairFor(specs[k], source, target, name);
      assert more[k] == specs[k];
    }
  }

  lemma PairListIsOwned(settings: Settings, source: Team, target: Team, name: Name)
    ensures OwnedPairs(settings, source, target, name, PairList(OwnedSpecs(settings), source, target, name))
  {
    PairListMembers(OwnedSpecs(settings), source, target, name);
  }

  method ResolveOwnedMemoryPairs(settings: Settings, source: Team, target: Team, name: Name) returns (pairs: seq<Pair>)
    ensures pairs == PairList(OwnedSpecs(settings), source, target, name)
    ensures OwnedPairs(settings, source, target, name, pairs)
    ensures forall p :: p in pairs ==>
      && p.source.team == source && p.source.agent == name && p.target == p.source.(team := target)
      && (p.source.scope, p.source.routine) in OwnedSpecs(settings)
    ensures forall spec :: spec in OwnedSpecs(settings) ==>
      Pair(MemoryKey(spec.0, source, name, spec.1), MemoryKey(spec.0, target, name, spec.1)) in pairs
  {
    var specs := OwnedSpecs(settings);
    pairs := [];
    for i := 0 to |specs|
      invariant pairs == PairList(specs[..i], source, target, name)
    {
      var p := PairFor(specs[i], source, target, name);
      assert specs[..i + 1][..i] == specs[..i];
      if p !in pairs {
        pairs := pairs + [p];
      }
    }
    assert specs[..|specs|] == specs;
    PairListIsOwned(settings, source, target, name);
    PairsByFields(settings, source, target, name, pairs);
  }

  lemma PairsByFields(settings: Settings, source: Team, target: Team, name: Name, pairs: seq<Pair>)
    requires OwnedPairs(settings, source, target, name, pairs)
    ensures forall p :: p in pairs ==>
      && p.source.team == source && p.source.agent == name && p.target == p.source.(team := target)
      && (p.source.scope, p.source.routine) in OwnedSpecs(settings)
    ensures forall spec :: spec in OwnedSpecs(settings) ==>
      Pair(MemoryKey(spec.0, source, name, spec.1), MemoryKey(spec.0, target, name, spec.1)) in pairs
  {
    forall spec | spec in OwnedSpecs(settings)
      ensures Pair(MemoryKey(spec.0, source, name, spec.1), MemoryKey(spec.0, target, name, spec.1)) in pairs
    {
      var k :| 0 <= k < |OwnedSpecs(settings)| && OwnedSpecs(settings)[k] == spec;
      assert IsPair(OwnedSpecs(settings), source, target, name, PairFor(OwnedSpecs(settings)[k], source, target, name));
    }
    forall p | p in pairs
      ensures (p.source.scope, p.source.routine) in OwnedSpecs(settings)
    {
      var k :| 0 <= k < |OwnedSpecs(settings)| && p == PairFor(OwnedSpecs(settings)[k], source, target, name);
      assert (p.source.scope, p.source.routine) == OwnedSpecs(settings)[k];
    }
  }

  /** What one routine runs with, as a memory to take along. */
  function RoutineSpec(settings: Settings, routine: RoutineEntry): (Scope, Option<string>) {
    var selected := SelectedScope(routine.memory, settings.defaultMemory);
    (selected, if selected.RoutineScope? then Some(routine.id) else None)
  }

  lemma {:induction false} RoutineSpecsMembers(settings: Settings, routines: seq<RoutineEntry>, spec: (Scope, Option<string>))
    ensures spec in RoutineSpecs(settings, routines) <==>
      Owned(spec.0) && exists n :: 0 <= n < |routines| && spec == RoutineSpec(settings, routines[n])
  {
    if routines != [] {
      RoutineSpecsMembers(settings, routines[1..], spec);
      assert forall n :: 0 < n < |routines| ==> routines[n] == routines[1..][n - 1];
      if spec in RoutineSpecs(settings, routines[1..]) {
        var n :| 0 <= n < |routines[1..]| && spec == RoutineSpec(settings, routines[1..][n]);
        assert spec == RoutineSpec(settings, routines[n + 1]);
      }
    }
  }

  /** `routine` runs with memory of that scope: its own choice, else the default. */
  ghost predicate RunsWith(settings: Settings, routine: RoutineEntry, scope: Scope) {
    routine.memory == Some(scope) || (routine.memory == None && settings.defaultMemory == Some(scope))
  }

  /** The memories that move are the agent- and routine-scoped ones, no others: the
      agent's default and what each routine runs with. */
  lemma OwnedMemoriesAreSelected(settings: Settings, spec: (Scope, Option<string>))
    ensures spec in OwnedSpecs(settings) <==>
      || (spec.0.AgentScope? && spec.1 == None
          && (settings.defaultMemory == Some(spec.0)
              || exists n :: 0 <= n < |settings.routines| && RunsWith(settings, settings.routines[n], spec.0)))
      || (spec.0.RoutineScope?
          && ((settings.defaultMemory == Some(spec.0) && spec.1 == None)
              || exists n :: 0 <= n < |settings.routines| && RunsWith(settings, settings.routines[n], spec.0)
                             && spec.1 == Some(settings.routines[n].id)))
  {
    RoutineSpecsMembers(settings, settings.routines, spec);
    forall n | 0 <= n < |settings.routines|
      ensures Owned(spec.0) && spec == RoutineSpec(settings, settings.routines[n]) <==>
        RunsWith(settings, settings.routines[n], spec.0) && Owned(spec.0)
        && spec.1 == (if spec.0.RoutineScope? then Some(settings.routines[n].id) else None)
    {
    }
  }
}
