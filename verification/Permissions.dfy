/**
 Permission resolution: merging configured rules
 (flowgency/configuration/effective.py), looking a path up in them
 (flowgency/integrations/models.py) and the generated launch zones that no
 configured rule may widen (flowgency/permissions/zones.py). Paths are sequences
 of parts; `resolve` is the file system's own resolution of links.
 */
module Permissions {
  import opened Wrappers

  type Path = seq<string>

  // `None` tools mean every tool, a `None` path a rule for no path in particular.
  datatype Rule = Rule(path: Option<Path>, tools: Option<seq<string>>, generated: bool)

  datatype Mode = Restricted | Unrestricted

  datatype Policy = Policy(mode: Mode, rules: seq<Rule>)

  datatype Grant = Every | Only(tools: set<string>)

  function AsGrant(tools: Option<seq<string>>): Grant {
    if tools.None? then Every else Only(set t | t in tools.value)
  }

  function Union(a: Grant, b: Grant): Grant {
    if a.Every? || b.Every? then Every else Only(a.tools + b.tools)
  }

  function Default(mode: Mode): Option<seq<string>> {
    if mode.Unrestricted? then None else Some([])
  }

  // ---- Looking a path up -------------------------------------------------

  predicate Covers(resolve: Path -> Path, rulePath: Path, target: Path) {
    resolve(rulePath) <= resolve(target)
  }

  predicate RuleCovers(resolve: Path -> Path, rule: Rule, target: Path) {
    rule.path.Some? && Covers(resolve, rule.path.value, target)
  }

  /** The first of the covering rules with the longest path. */
  function Best(resolve: Path -> Path, rules: seq<Rule>, target: Path): (best: Option<Rule>)
    ensures best.Some? ==> best.value in rules && RuleCovers(resolve, best.value, target)
  {
    if rules == [] then None
    else
      var candidate, best := rules[|rules| - 1], Best(resolve, rules[..|rules| - 1], target);
      if !RuleCovers(resolve, candidate, target) then best
      else if best.None? || |candidate.path.value| > |best.value.path.value| then Some(candidate)
      else best
  }

  function Tools(resolve: Path -> Path, policy: Policy, target: Path): Option<seq<string>> {
    var best := Best(resolve, policy.rules, target);
    if best.Some? then best.value.tools else Default(policy.mode)
  }

  /** Rule `i` is the first of the longest whose resolved path the target lies under. */
  ghost predicate Decides(resolve: Path -> Path, rules: seq<Rule>, target: Path, i: nat) {
    && i < |rules| && rules[i].path.Some? && resolve(rules[i].path.value) <= resolve(target)
    && (forall k :: 0 <= k < |rules| && rules[k].path.Some? && resolve(rules[k].path.value) <= resolve(target) ==>
          |rules[k].path.value| < |rules[i].path.value| || (k >= i && |rules[k].path.value| == |rules[i].path.value|))
  }

  lemma {:induction false} BestDecides(resolve: Path -> Path, rules: seq<Rule>, target: Path) returns (i: nat)
    requires Best(resolve, rules, target).Some?
    ensures Decides(resolve, rules, target, i) && rules[i] == Best(resolve, rules, target).value
    decreases |rules|
  {
    var front, last := rules[..|rules| - 1], |rules| - 1;
    BestIsLongest(resolve, front, target);
    if Best(resolve, front, target).Some? {
      i := BestDecides(resolve, front, target);
    }
    if Best(resolve, front, target) != Best(resolve, rules, target) || Best(resolve, front, target).None? {
      i := last;
    }
    forall k | 0 <= k < last && RuleCovers(resolve, rules[k], target)
      ensures Best(resolve, front, target).Some?
      ensures |rules[k].path.value| <= |Best(resolve, front, target).value.path.value|
    {
      assert front[k] in front;
    }
  }

  /** The tools of the deciding rule; with none, every tool or no tool. */
  lemma ToolsMeaning(resolve: Path -> Path, policy: Policy, target: Path)
    ensures (forall i :: 0 <= i < |policy.rules| && policy.rules[i].path.Some? ==>
              !(resolve(policy.rules[i].path.value) <= resolve(target))) ==>
      Tools(resolve, policy, target) == (match policy.mode case Unrestricted => None case Restricted => Some([]))
    ensures (exists i :: 0 <= i < |policy.rules| && policy.rules[i].path.Some?
                         && resolve(policy.rules[i].path.value) <= resolve(target)) ==>
      exists i: nat :: Decides(resolve, policy.rules, target, i) && Tools(resolve, policy, target) == policy.rules[i].tools
  {
    BestIsLongest(resolve, policy.rules, target);
    if Best(resolve, policy.rules, target).Some? {
      var i := BestDecides(resolve, policy.rules, target);
    } else {
      assert forall i :: 0 <= i < |policy.rules| ==> policy.rules[i] in policy.rules;
    }
  }

  method ToolsFor(resolve: Path -> Path, policy: Policy, target: Path) returns (tools: Option<seq<string>>)
    ensures tools == Tools(resolve, policy, target)
    ensures (forall i :: 0 <= i < |policy.rules| && policy.rules[i].path.Some? ==>
              !(resolve(policy.rules[i].path.value) <= resolve(target))) ==>
      tools == (match policy.mode case Unrestricted => None case Restricted => Some([]))
    ensures (exists i :: 0 <= i < |policy.rules| && policy.rules[i].path.Some?
                         && resolve(policy.rules[i].path.value) <= resolve(target)) ==>
      exists i: nat :: Decides(resolve, policy.rules, target, i) && tools == policy.rules[i].tools
  {
    ToolsMeaning(resolve, policy, target);
    hide Decides;
    var best: Option<Rule> := None;
    for i := 0 to |policy.rules|
      invariant best == Best(resolve, policy.rules[..i], target)
    {
      var candidate := policy.rules[i];
      assert policy.rules[..i + 1][..i] == policy.rules[..i];
      if candidate.path.None? {
        continue;
      }
      if !Covers(resolve, candidate.path.value, target) {
        continue;
      }
      if best.None? || |candidate.path.value| > |best.value.path.value| {
        best := Some(candidate);
      }
    }
    assert policy.rules[..|policy.rules|] == policy.rules;
    if best.Some? {
      return best.value.tools;
    }
    return Default(policy.mode);
  }

  lemma {:induction false} BestIsLongest(resolve: Path -> Path, rules: seq<Rule>, target: Path)
    ensures Best(resolve, rules, target).None? <==> forall r :: r in rules ==> !RuleCovers(resolve, r, target)
    ensures Best(resolve, rules, target).Some? ==>
      forall r :: r in rules && RuleCovers(resolve, r, target) ==>
        |r.path.value| <= |Best(resolve, rules, target).value.path.value|
    decreases |rules|
  {
    if rules != [] {
      var front := rules[..|rules| - 1];
      BestIsLongest(resolve, front, target);
      assert rules == front + [rules[|rules| - 1]];
    }
  }

  // ---- Merging -----------------------------------------------------------

  datatype ConfigPath = Absolute(parts: Path) | Relative(parts: Path)

  datatype ConfigRule = ConfigRule(path: Option<ConfigPath>, tools: Option<seq<string>>)

  function RulePath(resolve: Path -> Path, workspace: Path, rule: ConfigRule): Option<Path> {
    match rule.path
    case None => None
    case Some(Absolute(parts)) => Some(resolve(parts))
    case Some(Relative(parts)) => Some(resolve(workspace + parts))
  }

  /** A relative path is a path below the workspace; links are resolved either way. */
  lemma RelativeIsBelowWorkspace(resolve: Path -> Path, workspace: Path, parts: Path, tools: Option<seq<string>>)
    ensures RulePath(resolve, workspace, ConfigRule(Some(Relative(parts)), tools))
         == RulePath(resolve, [], ConfigRule(Some(Absolute(workspace + parts)), tools))
         == Some(resolve(workspace + parts))
    ensures RulePath(resolve, workspace, ConfigRule(None, tools)) == None
  {
  }

  /** What the configured rules for exactly this path grant together: the union
      of their tools, in which "every tool" is absorbing. */
  function GrantAt(resolve: Path -> Path, workspace: Path, rules: seq<ConfigRule>, path: Option<Path>): Grant {
    if rules == [] then Only({})
    else
      var rule, rest := rules[|rules| - 1], GrantAt(resolve, workspace, rules[..|rules| - 1], path);
      if RulePath(resolve, workspace, rule) == path then Union(rest, AsGrant(rule.tools)) else rest
  }

  ghost predicate Mentions(resolve: Path -> Path, workspace: Path, rules: seq<ConfigRule>, path: Option<Path>) {
    exists r :: r in rules && RulePath(resolve, workspace, r) == path
  }

  ghost predicate HasPath(merged: seq<Rule>, path: Option<Path>) {
    exists i :: 0 <= i < |merged| && merged[i].path == path
  }

  ghost predicate DistinctPaths(merged: seq<Rule>) {
    forall i, j :: 0 <= i < j < |merged| ==> merged[i].path != merged[j].path
  }

  ghost predicate Sums(resolve: Path -> Path, workspace: Path, rules: seq<ConfigRule>, rule: Rule) {
    && !rule.generated
    && Mentions(resolve, workspace, rules, rule.path)
    && AsGrant(rule.tools) == GrantAt(resolve, workspace, rules, rule.path)
  }

  /** One merged rule per configured path, granting what its rules grant. */
  ghost predicate Merged(resolve: Path -> Path, workspace: Path, rules: seq<ConfigRule>, merged: seq<Rule>) {
    && DistinctPaths(merged)
    && (forall i :: 0 <= i < |merged| ==> Sums(resolve, workspace, rules, merged[i]))
    && (forall r :: r in rules ==> HasPath(merged, RulePath(resolve, workspace, r)))
  }

  ghost predicate Indexed(merged: seq<Rule>, index: map<Option<Path>, nat>) {
    && (forall p :: p in index ==> index[p] < |merged| && merged[index[p]].path == p)
    && (forall i :: 0 <= i < |merged| ==> merged[i].path in index && index[merged[i].path] == i)
  }

  /** `tuple(dict.fromkeys((*a, *b)))`. */
  method DistinctUnion(a: seq<string>, b: seq<string>) returns (union: seq<string>)
    ensures forall t :: t in union <==> t in a || t in b
    ensures forall i, j :: 0 <= i < j < |union| ==> union[i] != union[j]
  {
    union := [];
    var all := a + b;
    for i := 0 to |all|
      invariant forall t :: t in union <==> t in all[..i]
      invariant forall i, j :: 0 <= i < j < |union| ==> union[i] != union[j]
    {
      assert all[..i + 1] == all[..i] + [all[i]];
      if all[i] !in union {
        union := union + [all[i]];
      }
    }
    assert all[..|all|] == all;
  }

  /** The tools of a rule that joins an existing one. */
  method JoinTools(existing: Option<seq<string>>, added: Option<seq<string>>) returns (union: Option<seq<string>>)
    ensures AsGrant(union) == Union(AsGrant(existing), AsGrant(added))
  {
    if existing.None? || added.None? {
      return None;
    }
    var all := DistinctUnion(existing.value, added.value);
    return Some(all);
  }

  lemma GrantAppend(resolve: Path -> Path, workspace: Path, rules: seq<ConfigRule>, rule: ConfigRule, path: Option<Path>)
    ensures GrantAt(resolve, workspace, rules + [rule], path)
         == if RulePath(resolve, workspace, rule) == path
            then Union(GrantAt(resolve, workspace, rules, path), AsGrant(rule.tools))
            else GrantAt(resolve, workspace, rules, path)
  {
    assert (rules + [rule])[..|rules|] == rules;
  }

  lemma {:induction false} GrantUnmentioned(resolve: Path -> Path, workspace: Path, rules: seq<ConfigRule>, path: Option<Path>)
    requires !Mentions(resolve, workspace, rules, path)
    ensures GrantAt(resolve, workspace, rules, path) == Only({})
  {
    if rules != [] {
      assert rules[|rules| - 1] in rules;
      assert forall r :: r in rules[..|rules| - 1] ==> r in rules;
      GrantUnmentioned(resolve, workspace, rules[..|rules| - 1], path);
    }
  }

  lemma MentionsAppend(resolve: Path -> Path, workspace: Path, rules: seq<ConfigRule>, rule: ConfigRule, path: Option<Path>)
    ensures Mentions(resolve, workspace, rules + [rule], path)
       <==> Mentions(resolve, workspace, rules, path) || RulePath(resolve, workspace, rule) == path
  {
    assert forall r :: r in rules + [rule] <==> r in rules || r == rule;
  }

  /** A merged rule of another path is not affected by one more rule. */
  lemma SumsKept(resolve: Path -> Path, workspace: Path, done: seq<ConfigRule>, rule: ConfigRule, m: Rule)
    requires Sums(resolve, workspace, done, m) && m.path != RulePath(resolve, workspace, rule)
    ensures Sums(resolve, workspace, done + [rule], m)
  {
    GrantAppend(resolve, workspace, done, rule, m.path);
    MentionsAppend(resolve, workspace, done, rule, m.path);
  }

  lemma JoinKeepsMerged(resolve: Path -> Path, workspace: Path, rule: ConfigRule, merged: seq<Rule>,
                        done: seq<ConfigRule>, n: nat, joined: Option<seq<string>>)
    requires Merged(resolve, workspace, done, merged) && n < |merged|
    requires merged[n].path == RulePath(resolve, workspace, rule)
    requires AsGrant(joined) == Union(AsGrant(merged[n].tools), AsGrant(rule.tools))
    ensures Merged(resolve, workspace, done + [rule], merged[n := merged[n].(tools := joined)])
  {
    var after := merged[n := merged[n].(tools := joined)];
    forall i | 0 <= i < |after|
      ensures Sums(resolve, workspace, done + [rule], after[i])
    {
      assert Sums(resolve, workspace, done, merged[i]);
      if i == n {
        GrantAppend(resolve, workspace, done, rule, merged[n].path);
        MentionsAppend(resolve, workspace, done, rule, merged[n].path);
      } else {
        SumsKept(resolve, workspace, done, rule, merged[i]);
      }
    }
    forall r | r in done + [rule]
      ensures HasPath(after, RulePath(resolve, workspace, r))
    {
      if r in done {
        assert HasPath(merged, RulePath(resolve, workspace, r));
        var i :| 0 <= i < |merged| && merged[i].path == RulePath(resolve, workspace, r);
        assert after[i].path == merged[i].path;
      } else {
        assert after[n].path == RulePath(resolve, workspace, r);
      }
    }
  }

  lemma AppendKeepsMerged(resolve: Path -> Path, workspace: Path, rule: ConfigRule, merged: seq<Rule>, done: seq<ConfigRule>)
    requires Merged(resolve, workspace, done, merged) && !HasPath(merged, RulePath(resolve, workspace, rule))
    ensures Merged(resolve, workspace, done + [rule],
                   merged + [Rule(RulePath(resolve, workspace, rule), rule.tools, false)])
  {
    var key := RulePath(resolve, workspace, rule);
    var after := merged + [Rule(key, rule.tools, false)];
    assert !Mentions(resolve, workspace, done, key);
    GrantUnmentioned(resolve, workspace, done, key);
    GrantAppend(resolve, workspace, done, rule, key);
    MentionsAppend(resolve, workspace, done, rule, key);
    forall i | 0 <= i < |merged|
      ensures Sums(resolve, workspace, done + [rule], after[i])
    {
      assert Sums(resolve, workspace, done, merged[i]);
      assert HasPath(merged, merged[i].path);
      SumsKept(resolve, workspace, done, rule, merged[i]);
    }
    forall r | r in done + [rule]
      ensures HasPath(after, RulePath(resolve, workspace, r))
    {
      if r in done {
        assert HasPath(merged, RulePath(resolve, workspace, r));
        var i :| 0 <= i < |merged| && merged[i].path == RulePath(resolve, workspace, r);
        assert after[i].path == merged[i].path;
      } else {
        assert after[|merged|].path == RulePath(resolve, workspace, r);
      }
    }
    AppendStaysDistinct(merged, after);
  }

  lemma AppendStaysDistinct(merged: seq<Rule>, after: seq<Rule>)
    requires DistinctPaths(merged) && |after| == |merged| + 1 && merged <= after
    requires !HasPath(merged, after[|merged|].path)
    ensures DistinctPaths(after)
  {
  }

  /** One rule into the list: joined with the rule of its path, or appended. */
  method MergeOne(resolve: Path -> Path, workspace: Path, rule: ConfigRule, merged: seq<Rule>,
                  index: map<Option<Path>, nat>, ghost done: seq<ConfigRule>)
    returns (after: seq<Rule>, positions: map<Option<Path>, nat>)
    requires Merged(resolve, workspace, done, merged) && Indexed(merged, index)
    ensures Merged(resolve, workspace, done + [rule], after) && Indexed(after, positions)
  {
    var key := RulePath(resolve, workspace, rule);
    var resolved := Rule(key, rule.tools, false);
    if key in index {
      var existing := merged[index[key]];
      var union := JoinTools(existing.tools, resolved.tools);
      JoinKeepsMerged(resolve, workspace, rule, merged, done, index[key], union);
      after, positions := merged[index[key] := existing.(tools := union)], index;
    } else {
      AppendKeepsMerged(resolve, workspace, rule, merged, done);
      after, positions := merged + [resolved], index[key := |merged|];
    }
  }

  method MergeRules(resolve: Path -> Path, workspace: Path, team: seq<ConfigRule>, agent: seq<ConfigRule>)
    returns (merged: seq<Rule>)
    ensures Merged(resolve, workspace, team + agent, merged)
  {
    merged := [];
    var index: map<Option<Path>, nat> := map[];
    var sources := [team, agent];
    ghost var done: seq<ConfigRule> := [];
    for i := 0 to 2
      invariant Merged(resolve, workspace, done, merged) && Indexed(merged, index)
      invariant done == if i == 0 then [] else if i == 1 then team else team + agent
    {
      var source := sources[i];
      ghost var before := done;
      for j := 0 to |source|
        invariant Merged(resolve, workspace, done, merged) && Indexed(merged, index)
        invariant done == before + source[..j]
      {
        merged, index := MergeOne(resolve, workspace, source[j], merged, index, done);
        done := done + [source[j]];
        assert source[..j + 1] == source[..j] + [source[j]];
      }
      assert before + source[..|source|] == before + source;
      assert i == 0 ==> before + source == team;
    }
  }

  // ---- What the merged rules mean ----------------------------------------

  ghost predicate Resolves(resolve: Path -> Path) {
    forall p :: resolve(resolve(p)) == resolve(p)
  }

  ghost predicate CoveringPath(resolve: Path -> Path, workspace: Path, rules: seq<ConfigRule>, target: Path, path: Path) {
    Mentions(resolve, workspace, rules, Some(path)) && path <= resolve(target)
  }

  /** The longest configured path that covers the target. */
  ghost predicate Deepest(resolve: Path -> Path, workspace: Path, rules: seq<ConfigRule>, target: Path, path: Path) {
    && CoveringPath(resolve, workspace, rules, target, path)
    && (forall q :: CoveringPath(resolve, workspace, rules, target, q) ==> |q| <= |path|)
  }

  lemma MergedCovering(resolve: Path -> Path, workspace: Path, rules: seq<ConfigRule>, merged: seq<Rule>, target: Path)
    requires Resolves(resolve) && Merged(resolve, workspace, rules, merged)
    ensures forall m :: m in merged && RuleCovers(resolve, m, target) ==>
      CoveringPath(resolve, workspace, rules, target, m.path.value)
    ensures forall q :: CoveringPath(resolve, workspace, rules, target, q) ==>
      exists m :: m in merged && m.path == Some(q) && RuleCovers(resolve, m, target)
  {
    forall m | m in merged && RuleCovers(resolve, m, target)
      ensures CoveringPath(resolve, workspace, rules, target, m.path.value)
    {
      var i :| 0 <= i < |merged| && merged[i] == m;
      assert Sums(resolve, workspace, rules, merged[i]);
      PathsAreResolved(resolve, workspace, rules, m.path);
    }
    forall q | CoveringPath(resolve, workspace, rules, target, q)
      ensures exists m :: m in merged && m.path == Some(q) && RuleCovers(resolve, m, target)
    {
      PathsAreResolved(resolve, workspace, rules, Some(q));
      assert HasPath(merged, Some(q));
      var i :| 0 <= i < |merged| && merged[i].path == Some(q);
      assert merged[i] in merged;
    }
  }

  lemma PathsAreResolved(resolve: Path -> Path, workspace: Path, rules: seq<ConfigRule>, path: Option<Path>)
    requires Resolves(resolve) && Mentions(resolve, workspace, rules, path) && path.Some?
    ensures resolve(path.value) == path.value
  {
    var r :| r in rules && RulePath(resolve, workspace, r) == path;
    assert r.path.Some?;
  }

  /** Looking a path up in the merged rules: the union of every configured rule
      at the longest covering path, else the mode's default. */
  lemma MergedToolsMeaning(resolve: Path -> Path, workspace: Path, rules: seq<ConfigRule>, merged: seq<Rule>,
                           mode: Mode, target: Path)
    requires Resolves(resolve) && Merged(resolve, workspace, rules, merged)
    ensures forall p :: Deepest(resolve, workspace, rules, target, p) ==>
      AsGrant(Tools(resolve, Policy(mode, merged), target)) == GrantAt(resolve, workspace, rules, Some(p))
    ensures (forall p :: !CoveringPath(resolve, workspace, rules, target, p)) ==>
      Tools(resolve, Policy(mode, merged), target) == (match mode case Unrestricted => None case Restricted => Some([]))
    ensures (exists p :: CoveringPath(resolve, workspace, rules, target, p)) ==>
      exists p :: Deepest(resolve, workspace, rules, target, p)
  {
    MergedCovering(resolve, workspace, rules, merged, target);
    BestIsLongest(resolve, merged, target);
    var best := Best(resolve, merged, target);
    if best.Some? {
      var path := best.value.path.value;
      forall q | CoveringPath(resolve, workspace, rules, target, q)
        ensures |q| <= |path|
      {
        var m :| m in merged && m.path == Some(q) && RuleCovers(resolve, m, target);
      }
      assert Deepest(resolve, workspace, rules, target, path);
      var i :| 0 <= i < |merged| && merged[i] == best.value;
      assert Sums(resolve, workspace, rules, merged[i]);
      forall p | Deepest(resolve, workspace, rules, target, p)
        ensures p == path
      {
        assert p == resolve(target)[..|p|] && path == resolve(target)[..|path|];
      }
    }
  }

  /** Which tools a path's rules grant does not depend on where they stand. */
  lemma {:induction false} GrantAtMembers(resolve: Path -> Path, workspace: Path, rules: seq<ConfigRule>, path: Option<Path>)
    ensures var g := GrantAt(resolve, workspace, rules, path);
      && (g.Every? <==> exists r :: r in rules && RulePath(resolve, workspace, r) == path && r.tools.None?)
      && (g.Only? ==> forall t :: t in g.tools <==>
            exists r :: r in rules && RulePath(resolve, workspace, r) == path && r.tools.Some? && t in r.tools.value)
    decreases |rules|
  {
    if rules != [] {
      var front, last := rules[..|rules| - 1], rules[|rules| - 1];
      GrantAtMembers(resolve, workspace, front, path);
      assert rules == front + [last];
      assert forall r :: r in rules <==> r in front || r == last;
    }
  }

  /** The order of the configured rules does not matter. */
  lemma MergeIgnoresOrder(resolve: Path -> Path, workspace: Path, xs: seq<ConfigRule>, ys: seq<ConfigRule>,
                          a: seq<Rule>, b: seq<Rule>, mode: Mode, target: Path)
    requires Resolves(resolve) && forall r :: r in xs <==> r in ys
    requires Merged(resolve, workspace, xs, a) && Merged(resolve, workspace, ys, b)
    ensures AsGrant(Tools(resolve, Policy(mode, a), target)) == AsGrant(Tools(resolve, Policy(mode, b), target))
  {
    MergedToolsMeaning(resolve, workspace, xs, a, mode, target);
    MergedToolsMeaning(resolve, workspace, ys, b, mode, target);
    SameCovering(resolve, workspace, xs, ys, target);
    if p :| CoveringPath(resolve, workspace, xs, target, p) {
      var deepest :| Deepest(resolve, workspace, xs, target, deepest);
      SameGrant(resolve, workspace, xs, ys, Some(deepest));
    }
  }

  lemma SameCovering(resolve: Path -> Path, workspace: Path, xs: seq<ConfigRule>, ys: seq<ConfigRule>, target: Path)
    requires forall r :: r in xs <==> r in ys
    ensures forall p :: CoveringPath(resolve, workspace, xs, target, p) <==> CoveringPath(resolve, workspace, ys, target, p)
    ensures forall p :: Deepest(resolve, workspace, xs, target, p) <==> Deepest(resolve, workspace, ys, target, p)
  {
    assert forall p :: Mentions(resolve, workspace, xs, p) <==> Mentions(resolve, workspace, ys, p);
  }

  lemma SameGrant(resolve: Path -> Path, workspace: Path, xs: seq<ConfigRule>, ys: seq<ConfigRule>, path: Option<Path>)
    requires forall r :: r in xs <==> r in ys
    ensures GrantAt(resolve, workspace, xs, path) == GrantAt(resolve, workspace, ys, path)
  {
    GrantAtMembers(resolve, workspace, xs, path);
    GrantAtMembers(resolve, workspace, ys, path);
  }

  // ---- Launch zones ------------------------------------------------------

  const INSTRUCTIONS: Path := ["instructions"]
  const OUTBOX: Path := [".flowgency", "outbox"]
  const MEMORY: Path := [".flowgency", "memory"]

  predicate IsZone(zone: Path) {
    zone == INSTRUCTIONS || zone == OUTBOX || zone == MEMORY
  }

  function ZoneTools(zone: Path): seq<string> {
    if zone == INSTRUCTIONS then ["read"] else ["read", "write"]
  }

  function ZoneRule(launch: Path, zone: Path): Rule {
    Rule(Some(launch + zone), Some(ZoneTools(zone)), true)
  }

  function LaunchZoneRules(launch: Path): seq<Rule> {
    [ZoneRule(launch, INSTRUCTIONS), ZoneRule(launch, OUTBOX), ZoneRule(launch, MEMORY)]
  }

  /** The three zones, and that an agent can write in two of them only. */
  lemma ThreeZones(launch: Path)
    ensures LaunchZoneRules(launch)
         == [Rule(Some(launch + ["instructions"]), Some(["read"]), true),
             Rule(Some(launch + [".flowgency", "outbox"]), Some(["read", "write"]), true),
             Rule(Some(launch + [".flowgency", "memory"]), Some(["read", "write"]), true)]
    ensures forall zone :: IsZone(zone) <==> Rule(Some(launch + zone), Some(ZoneTools(zone)), true) in LaunchZoneRules(launch)
  {
    forall zone, other | launch + zone == launch + other
      ensures zone == other
    {
      assert zone == (launch + zone)[|launch|..] && other == (launch + other)[|launch|..];
    }
  }

  function OutsideLaunch(resolve: Path -> Path, rules: seq<Rule>, launch: Path): seq<Rule> {
    if rules == [] then []
    else
      var rest := OutsideLaunch(resolve, rules[1..], launch);
      if rules[0].path.None? || !Covers(resolve, launch, rules[0].path.value) then [rules[0]] + rest else rest
  }

  function WithLaunchZones(resolve: Path -> Path, policy: Policy, launch: Path): Policy {
    policy.(rules := OutsideLaunch(resolve, policy.rules, launch) + LaunchZoneRules(launch))
  }

  lemma {:induction false} OutsideMembers(resolve: Path -> Path, rules: seq<Rule>, launch: Path)
    ensures forall r :: r in OutsideLaunch(resolve, rules, launch) <==>
      r in rules && (r.path.None? || !Covers(resolve, launch, r.path.value))
  {
    if rules != [] {
      OutsideMembers(resolve, rules[1..], launch);
      assert rules == [rules[0]] + rules[1..];
    }
  }

  /** The zones are real directories below wherever the launch directory is. */
  ghost predicate PlainZones(resolve: Path -> Path, launch: Path) {
    forall zone :: IsZone(zone) ==> resolve(launch + zone) == resolve(launch) + zone
  }

  ghost predicate RulesResolved(resolve: Path -> Path, rules: seq<Rule>) {
    forall r :: r in rules && r.path.Some? ==> resolve(r.path.value) == r.path.value
  }

  /** The merged rules name resolved paths, as the zones' guarantee requires. */
  lemma MergedRulesResolved(resolve: Path -> Path, workspace: Path, rules: seq<ConfigRule>, merged: seq<Rule>)
    requires Resolves(resolve) && Merged(resolve, workspace, rules, merged)
    ensures RulesResolved(resolve, merged)
  {
    forall m | m in merged && m.path.Some?
      ensures resolve(m.path.value) == m.path.value
    {
      var i :| 0 <= i < |merged| && merged[i] == m;
      assert Sums(resolve, workspace, rules, merged[i]);
      PathsAreResolved(resolve, workspace, rules, m.path);
    }
  }

  lemma ZonesDisjoint(base: Path, a: Path, b: Path, target: Path)
    requires IsZone(a) && IsZone(b) && base + a <= target && base + b <= target
    ensures a == b
  {
    var n := |base|;
    assert target[n] == (base + a)[n] == a[0] && target[n] == (base + b)[n] == b[0];
    if a != INSTRUCTIONS && b != INSTRUCTIONS {
      assert target[n + 1] == (base + a)[n + 1] == a[1] && target[n + 1] == (base + b)[n + 1] == b[1];
    }
  }

  /** Inside a zone the zone's own rule wins over every configured rule. */
  lemma ZoneRuleWins(resolve: Path -> Path, policy: Policy, launch: Path, zone: Path, target: Path)
    requires RulesResolved(resolve, policy.rules) && PlainZones(resolve, launch)
    requires IsZone(zone) && Covers(resolve, launch + zone, target)
    requires |resolve(launch)| <= |launch| + |zone|
    ensures Tools(resolve, WithLaunchZones(resolve, policy, launch), target) == Some(ZoneTools(zone))
    ensures Tools(resolve, WithLaunchZones(resolve, policy, launch), target)
         == Some(if zone == ["instructions"] then ["read"] else ["read", "write"])
  {
    var rules := WithLaunchZones(resolve, policy, launch).rules;
    OutsideMembers(resolve, policy.rules, launch);
    BestIsLongest(resolve, rules, target);
    assert ZoneRule(launch, zone) in LaunchZoneRules(launch);
    assert ZoneRule(launch, zone) in rules && RuleCovers(resolve, ZoneRule(launch, zone), target);
    ZoneCoversFromLaunch(resolve, launch, zone, target);
    forall r | r in OutsideLaunch(resolve, policy.rules, launch) && RuleCovers(resolve, r, target)
      ensures |r.path.value| < |resolve(launch)|
    {
      ShallowerThanLaunch(resolve, launch, r.path.value, target);
    }
    var best := Best(resolve, rules, target).value;
    assert best in LaunchZoneRules(launch);
    var other :| IsZone(other) && best == ZoneRule(launch, other);
    ZonesDisjoint(resolve(launch), zone, other, resolve(target));
  }

  lemma ZoneCoversFromLaunch(resolve: Path -> Path, launch: Path, zone: Path, target: Path)
    requires PlainZones(resolve, launch) && IsZone(zone)
    ensures Covers(resolve, launch + zone, target) ==> Covers(resolve, launch, target)
  {
    PrefixOfPrefix(resolve(launch), resolve(launch) + zone, resolve(target));
  }

  lemma PrefixOfPrefix(a: Path, b: Path, c: Path)
    ensures a <= b && b <= c ==> a <= c
  {
  }

  /** A rule outside the launch directory covers a path in it from further up. */
  lemma ShallowerThanLaunch(resolve: Path -> Path, launch: Path, path: Path, target: Path)
    requires resolve(path) == path && Covers(resolve, path, target) && Covers(resolve, launch, target)
    requires !Covers(resolve, launch, path)
    ensures |path| < |resolve(launch)|
  {
    assert path == resolve(target)[..|path|] && resolve(launch) == resolve(target)[..|resolve(launch)|];
  }

  /** A directory that contains a resolved path is itself resolved. */
  ghost predicate AncestorsResolve(resolve: Path -> Path, path: Path) {
    forall n :: 0 <= n <= |path| ==> resolve(path[..n]) == path[..n]
  }

  /** What a configured grant of everything just above the launch directory does
      when the launch directory is named through links. */
  lemma LinkedLaunchIsWidened(resolve: Path -> Path, launch: Path, zone: Path) returns (policy: Policy)
    requires PlainZones(resolve, launch) && AncestorsResolve(resolve, resolve(launch)) && IsZone(zone)
    requires |resolve(launch)| > |launch| + |zone|
    ensures RulesResolved(resolve, policy.rules)
    ensures Covers(resolve, launch + zone, launch + zone)
    ensures Tools(resolve, WithLaunchZones(resolve, policy, launch), launch + zone) == None
  {
    var above := resolve(launch)[..|resolve(launch)| - 1];
    var rule := Rule(Some(above), None, false);
    policy := Policy(Restricted, [rule]);
    var rules := WithLaunchZones(resolve, policy, launch).rules;
    assert OutsideLaunch(resolve, policy.rules[1..], launch) == [];
    assert rules == [rule] + LaunchZoneRules(launch);
    var target := launch + zone;
    assert resolve(target) == resolve(launch) + zone;
    assert above <= resolve(target);
    assert rules[..3][..2][..1][..0] == [] && rules[..3][..2][..1] == [rule];
    assert Best(resolve, rules[..1], target) == Some(rule) by {
      assert rules[..1][..0] == [];
    }
    StaysBest(resolve, rules, 1, rule, zone, launch);
    StaysBest(resolve, rules, 2, rule, zone, launch);
    StaysBest(resolve, rules, 3, rule, zone, launch);
    assert rules[..4] == rules;
  }

  lemma StaysBest(resolve: Path -> Path, rules: seq<Rule>, n: nat, rule: Rule, zone: Path, launch: Path)
    requires PlainZones(resolve, launch) && IsZone(zone) && n < |rules| && rule.path.Some?
    requires |rule.path.value| >= |launch| + |zone|
    requires exists other :: IsZone(other) && rules[n] == ZoneRule(launch, other)
    requires Best(resolve, rules[..n], launch + zone) == Some(rule)
    ensures Best(resolve, rules[..n + 1], launch + zone) == Some(rule)
  {
    assert rules[..n + 1][..n] == rules[..n];
    var other :| IsZone(other) && rules[n] == ZoneRule(launch, other);
    if Covers(resolve, launch + other, launch + zone) {
      ZonesDisjoint(resolve(launch), zone, other, resolve(launch + zone));
    }
  }

  /** The generated zones hold against every configured policy exactly when the
      launch directory's own name is not shorter than its resolved name by more
      than the zone is long; a launch directory named without links always is. */
  lemma ZonesHoldIff(resolve: Path -> Path, launch: Path, zone: Path)
    requires PlainZones(resolve, launch) && AncestorsResolve(resolve, resolve(launch)) && IsZone(zone)
    ensures (forall policy: Policy, target: Path :: RulesResolved(resolve, policy.rules) && Covers(resolve, launch + zone, target) ==>
              Tools(resolve, WithLaunchZones(resolve, policy, launch), target) == Some(ZoneTools(zone)))
       <==> |resolve(launch)| <= |launch| + |zone|
  {
    if |resolve(launch)| <= |launch| + |zone| {
      forall policy: Policy, target: Path | RulesResolved(resolve, policy.rules) && Covers(resolve, launch + zone, target)
        ensures Tools(resolve, WithLaunchZones(resolve, policy, launch), target) == Some(ZoneTools(zone))
      {
        ZoneRuleWins(resolve, policy, launch, zone, target);
      }
    } else {
      var policy := LinkedLaunchIsWidened(resolve, launch, zone);
      assert Tools(resolve, WithLaunchZones(resolve, policy, launch), launch + zone) == None;
    }
  }

  lemma {:induction false} BestIgnores(resolve: Path -> Path, rules: seq<Rule>, others: seq<Rule>, target: Path)
    requires forall r :: r in others ==> !RuleCovers(resolve, r, target)
    ensures Best(resolve, rules + others, target) == Best(resolve, rules, target)
    decreases |others|
  {
    if others == [] {
      assert rules + others == rules;
    } else {
      var last := |others| - 1;
      assert (rules + others)[..|rules + others| - 1] == rules + others[..last];
      assert others[last] in others;
      BestIgnores(resolve, rules, others[..last], target);
    }
  }

  lemma {:induction false} BestOutside(resolve: Path -> Path, rules: seq<Rule>, launch: Path, target: Path)
    requires !Covers(resolve, launch, target)
    ensures Best(resolve, OutsideLaunch(resolve, rules, launch), target) == Best(resolve, rules, target)
    decreases |rules|
  {
    if rules != [] {
      var last := |rules| - 1;
      BestOutside(resolve, rules[..last], launch, target);
      OutsideAppend(resolve, rules[..last], rules[last], launch);
      assert rules[..last] + [rules[last]] == rules;
      var kept := OutsideLaunch(resolve, rules[..last], launch);
      if rules[last].path.None? || !Covers(resolve, launch, rules[last].path.value) {
        assert (kept + [rules[last]])[..|kept|] == kept;
      } else {
        assert !RuleCovers(resolve, rules[last], target);
        assert kept + [] == kept;
      }
    }
  }

  lemma {:induction false} OutsideAppend(resolve: Path -> Path, rules: seq<Rule>, rule: Rule, launch: Path)
    ensures OutsideLaunch(resolve, rules + [rule], launch)
         == OutsideLaunch(resolve, rules, launch)
            + if rule.path.None? || !Covers(resolve, launch, rule.path.value) then [rule] else []
    decreases |rules|
  {
    if rules == [] {
      assert rules + [rule] == [rule] && [rule][1..] == [];
    } else {
      OutsideAppend(resolve, rules[1..], rule, launch);
      assert (rules + [rule])[1..] == rules[1..] + [rule];
      var rest, last := OutsideLaunch(resolve, rules[1..], launch),
        if rule.path.None? || !Covers(resolve, launch, rule.path.value) then [rule] else [];
      assert [rules[0]] + (rest + last) == [rules[0]] + rest + last;
    }
  }

  /** Outside the launch directory nothing changes. */
  lemma GrantsOutsideUnchanged(resolve: Path -> Path, policy: Policy, launch: Path, target: Path)
    requires PlainZones(resolve, launch) && !Covers(resolve, launch, target)
    ensures Tools(resolve, WithLaunchZones(resolve, policy, launch), target) == Tools(resolve, policy, target)
  {
    forall r | r in LaunchZoneRules(launch)
      ensures !RuleCovers(resolve, r, target)
    {
      var zone :| IsZone(zone) && r == ZoneRule(launch, zone);
      ZoneCoversFromLaunch(resolve, launch, zone, target);
    }
    BestIgnores(resolve, OutsideLaunch(resolve, policy.rules, launch), LaunchZoneRules(launch), target);
    BestOutside(resolve, policy.rules, launch, target);
  }

  lemma {:induction false} OutsideTwice(resolve: Path -> Path, rules: seq<Rule>, zones: seq<Rule>, launch: Path)
    requires forall r :: r in zones ==> r.path.Some? && Covers(resolve, launch, r.path.value)
    ensures OutsideLaunch(resolve, OutsideLaunch(resolve, rules, launch) + zones, launch)
         == OutsideLaunch(resolve, rules, launch)
    decreases |rules|, |zones|
  {
    if rules == [] {
      assert OutsideLaunch(resolve, rules, launch) + zones == zones;
      if zones != [] {
        assert zones[0] in zones;
        OutsideTwice(resolve, rules, zones[1..], launch);
        assert OutsideLaunch(resolve, rules, launch) + zones[1..] == zones[1..];
      }
    } else {
      OutsideTwice(resolve, rules[1..], zones, launch);
      var kept := OutsideLaunch(resolve, rules, launch);
      if rules[0].path.None? || !Covers(resolve, launch, rules[0].path.value) {
        assert (kept + zones)[1..] == OutsideLaunch(resolve, rules[1..], launch) + zones;
      }
    }
  }

  /** Generating the zones twice is generating them once. */
  lemma LaunchZonesIdempotent(resolve: Path -> Path, policy: Policy, launch: Path)
    requires PlainZones(resolve, launch)
    ensures WithLaunchZones(resolve, WithLaunchZones(resolve, policy, launch), launch)
         == WithLaunchZones(resolve, policy, launch)
  {
    forall r | r in LaunchZoneRules(launch)
      ensures r.path.Some? && Covers(resolve, launch, r.path.value)
    {
      var zone :| IsZone(zone) && r == ZoneRule(launch, zone);
      assert resolve(launch) <= resolve(launch) + zone;
    }
    OutsideTwice(resolve, policy.rules, LaunchZoneRules(launch), launch);
  }

  // ---- Scoped tools ------------------------------------------------------

  // Stands in for a difference no tool name can express.
  const ANY_TOOL := "*"

  /** The grants of the authored rules that bear a path. */
  function AuthoredGrants(rules: seq<Rule>): seq<Grant> {
    if rules == [] then []
    else (if rules[0].path.Some? && !rules[0].generated then [AsGrant(rules[0].tools)] else [])
         + AuthoredGrants(rules[1..])
  }

  function Named(grants: seq<Grant>): set<string> {
    set i, t | 0 <= i < |grants| && grants[i].Only? && t in grants[i].tools :: t
  }

  function Differing(grants: seq<Grant>): set<string> {
    set t | t in Named(grants) && exists i :: 0 <= i < |grants| && grants[i].Only? && t !in grants[i].tools
  }

  function ScopedTools(rules: seq<Rule>): set<string> {
    var granted := AuthoredGrants(rules);
    if |granted| < 2 then {}
    else if Every in granted && exists i :: 0 <= i < |granted| && granted[i].Only? then
      if Differing(granted) + Named(granted) == {} then {ANY_TOOL} else Differing(granted) + Named(granted)
    else Differing(granted)
  }

  ghost predicate Uniform(grants: seq<Grant>) {
    forall i, j :: 0 <= i < |grants| && 0 <= j < |grants| ==> grants[i] == grants[j]
  }

  lemma DifferingIsDifference(granted: seq<Grant>, i: nat, j: nat)
    requires i < |granted| && j < |granted| && granted[i].Only? && granted[j].Only? && Differing(granted) == {}
    ensures granted[i] == granted[j]
  {
    forall t
      ensures t in granted[i].tools <==> t in granted[j].tools
    {
      assert t in granted[i].tools || t in granted[j].tools ==> t in Named(granted);
      assert t !in Differing(granted);
    }
  }

  lemma UnscopedIsUniform(rules: seq<Rule>)
    requires ScopedTools(rules) == {}
    ensures Uniform(AuthoredGrants(rules))
  {
    var granted := AuthoredGrants(rules);
    forall i, j | 0 <= i < |granted| && 0 <= j < |granted|
      ensures granted[i] == granted[j]
    {
      assert granted[i] in granted && granted[j] in granted;
      assert ANY_TOOL in {ANY_TOOL};
      if granted[i].Only? && granted[j].Only? && |granted| >= 2 {
        DifferingIsDifference(granted, i, j);
      }
    }
  }

  lemma UniformIsUnscoped(rules: seq<Rule>)
    requires Uniform(AuthoredGrants(rules))
    ensures ScopedTools(rules) == {}
  {
    var granted := AuthoredGrants(rules);
    forall t
      ensures t !in Differing(granted)
    {
      if t in Named(granted) {
        var i :| 0 <= i < |granted| && granted[i].Only? && t in granted[i].tools;
        assert forall k :: 0 <= k < |granted| ==> granted[k] == granted[i];
      }
    }
    if Every in granted {
      var i :| 0 <= i < |granted| && granted[i] == Every;
      assert forall k :: 0 <= k < |granted| ==> granted[k] == granted[i];
    }
  }

  /** No tool is scoped exactly when all authored rules with a path grant alike. */
  lemma UnscopedIffUniform(rules: seq<Rule>)
    ensures ScopedTools(rules) == {} <==> Uniform(AuthoredGrants(rules))
  {
    if ScopedTools(rules) == {} {
      UnscopedIsUniform(rules);
    }
    if Uniform(AuthoredGrants(rules)) {
      UniformIsUnscoped(rules);
    }
  }

  ghost predicate GrantedApart(granted: seq<Grant>, t: string, i: int, j: int) {
    && 0 <= i < |granted| && granted[i].Only? && t in granted[i].tools
    && 0 <= j < |granted| && (granted[j].Every? || t !in granted[j].tools)
  }

  /** A tool is scoped exactly when one authored rule names it and another does not
      grant it by name. */
  lemma ScopedToolMeans(rules: seq<Rule>, t: string)
    requires t != ANY_TOOL
    ensures t in ScopedTools(rules) ==> exists i, j :: GrantedApart(AuthoredGrants(rules), t, i, j)
    ensures (exists i, j :: GrantedApart(AuthoredGrants(rules), t, i, j)) ==> t in ScopedTools(rules)
  {
    var granted := AuthoredGrants(rules);
    forall i, j | GrantedApart(granted, t, i, j)
      ensures t in ScopedTools(rules)
    {
      assert granted[j] in granted && i != j && t in Named(granted);
    }
    if t in ScopedTools(rules) {
      var i :| 0 <= i < |granted| && granted[i].Only? && t in granted[i].tools;
      if t in Differing(granted) {
        var j :| 0 <= j < |granted| && granted[j].Only? && t !in granted[j].tools;
        assert GrantedApart(granted, t, i, j);
      } else {
        var j :| 0 <= j < |granted| && granted[j] == Every;
        assert GrantedApart(granted, t, i, j);
      }
    }
  }

  /** The generated zones never make a tool scoped. */
  lemma ZonesAreNotScoped(rules: seq<Rule>, launch: Path)
    ensures ScopedTools(rules + LaunchZoneRules(launch)) == ScopedTools(rules)
  {
    AuthoredAppend(rules, LaunchZoneRules(launch));
  }

  lemma {:induction false} AuthoredAppend(rules: seq<Rule>, zones: seq<Rule>)
    requires forall z :: z in zones ==> z.generated
    ensures AuthoredGrants(rules + zones) == AuthoredGrants(rules)
    decreases |rules|, |zones|
  {
    if rules != [] {
      AuthoredAppend(rules[1..], zones);
      assert (rules + zones)[1..] == rules[1..] + zones;
    } else if zones != [] {
      assert zones[0] in zones;
      assert rules + zones == zones && rules + zones[1..] == zones[1..];
      AuthoredAppend(rules, zones[1..]);
    } else {
      assert rules + zones == [];
    }
  }
}
