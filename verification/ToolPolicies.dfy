/**
 The interactive auto-approve switch: apps/cli/src/runtime/tool-policies.ts rewrites a table of
 policies in place so that the runtime, which overlays the table's "*" entry with a tool's own
 entry, sees what the resolver computes from the baseline.
 */
module ToolPolicies {
  import opened Prelude

  datatype Policy = Policy(enabled: Option<bool>, autoApprove: Option<bool>)

  type Policies = map<string, Policy>

  const NOTHING := Policy(None, None)

  const SAFE_AUTO_APPROVE_TOOL_NAMES: seq<string> := [
    "ask_followup_question",
    "ask_question",
    "fetch_web_content",
    "read_files",
    "search_codebase",
    "skills",
    "submit_and_exit"
  ]

  function Over(under: Option<bool>, over: Option<bool>): Option<bool> {
    if over.Some? then over else under
  }

  /** `{ ...under, ...over }`. */
  function Overlay(under: Policy, over: Policy): Policy {
    Policy(Over(under.enabled, over.enabled), Over(under.autoApprove, over.autoApprove))
  }

  function Lookup(policies: Policies, name: string): Policy {
    if name in policies then policies[name] else NOTHING
  }

  /** What the runtime enforces for a tool: `resolveToolPolicy` of the agent runtime. */
  function Enforced(policies: Policies, name: string): Policy {
    Overlay(Lookup(policies, "*"), Lookup(policies, name))
  }

  /** `resolveInteractiveAutoApprovePolicy`. */
  function Resolve(name: string, baseline: Policies, enabled: bool): Policy {
    var toolPolicy := Lookup(baseline, name);
    var approve :=
      if enabled then true
      else if name in SAFE_AUTO_APPROVE_TOOL_NAMES then toolPolicy.autoApprove.GetOr(true)
      else false;
    Overlay(Lookup(baseline, "*"), toolPolicy).(autoApprove := Some(approve))
  }

  /** The rewritten copy of a baseline entry. */
  function Rewritten(name: string, baseline: Policies, enabled: bool): Policy
    requires name in baseline
  {
    baseline[name].(autoApprove := if enabled then Some(true) else Resolve(name, baseline, false).autoApprove)
  }

  /** A record of policies: an object that callers may share. */
  class PolicyTable {
    var entries: Policies

    constructor (entries: Policies)
      ensures this.entries == entries
    {
      this.entries := entries;
    }
  }

  function Safe(): set<string> {
    set name | name in SAFE_AUTO_APPROVE_TOOL_NAMES
  }

  /** The table the rewrite leaves, entry by entry. */
  ghost predicate Rewrite(baseline: Policies, enabled: bool, next: Policies) {
    && next.Keys == baseline.Keys + {"*"} + (if enabled then {} else Safe())
    && (forall name :: name in baseline && name != "*" ==> next[name] == Rewritten(name, baseline, enabled))
    && (forall name :: name in next && name !in baseline && name != "*" ==> next[name] == Policy(None, Some(true)))
    && next["*"] == Policy(Lookup(baseline, "*").enabled, Some(enabled))
  }

  lemma RewriteAgrees(baseline: Policies, enabled: bool, next: Policies)
    requires Rewrite(baseline, enabled, next)
    ensures forall name :: Enforced(next, name) == Resolve(name, baseline, enabled)
  {
    assert "*" in next && "*" !in SAFE_AUTO_APPROVE_TOOL_NAMES;
    forall name ensures Enforced(next, name) == Resolve(name, baseline, enabled) {
      if name != "*" {
        if name in baseline {
          assert next[name] == Rewritten(name, baseline, enabled);
        } else if name in next {
          assert next[name] == Policy(None, Some(true));
        }
      }
    }
  }

  /** The first half of the override: the next table, built aside. */
  method NextPolicies(baseline: Policies, enabled: bool) returns (next: Policies)
    ensures Rewrite(baseline, enabled, next)
  {
    hide Rewritten, Resolve;
    assert "*" !in SAFE_AUTO_APPROVE_TOOL_NAMES;
    next := map name | name in baseline :: Rewritten(name, baseline, enabled);
    ghost var all := next;
    if !enabled {
      next := AddSafe(next);
    }
    next := next["*" := StarOf(next).(autoApprove := Some(enabled))];
    assert StarOf(all).enabled == Lookup(baseline, "*").enabled by {
      StarKept(baseline, enabled);
    }
  }

  function StarOf(policies: Policies): Policy {
    Lookup(policies, "*")
  }

  lemma StarKept(baseline: Policies, enabled: bool)
    ensures "*" in baseline ==> Rewritten("*", baseline, enabled).enabled == baseline["*"].enabled
  {}

  /** `nextPolicies[name] ??= { autoApprove: true }` for every safe name. */
  method AddSafe(policies: Policies) returns (next: Policies)
    ensures next.Keys == policies.Keys + Safe()
    ensures forall name :: name in policies ==> next[name] == policies[name]
    ensures forall name :: name in next && name !in policies ==> next[name] == Policy(None, Some(true))
  {
    hide SAFE_AUTO_APPROVE_TOOL_NAMES;
    next := policies;
    for i := 0 to |SAFE_AUTO_APPROVE_TOOL_NAMES|
      invariant forall name :: name in next <==> name in policies || name in SAFE_AUTO_APPROVE_TOOL_NAMES[..i]
      invariant forall name :: name in policies ==> next[name] == policies[name]
      invariant forall name :: name in next && name !in policies ==> next[name] == Policy(None, Some(true))
    {
      var name := SAFE_AUTO_APPROVE_TOOL_NAMES[i];
      if name !in next {
        next := next[name := Policy(None, Some(true))];
      }
    }
  }

  /**
   After the switch the runtime enforces the resolver's answer for every tool name, whatever the
   target held before, even when the target is the baseline itself.
   */
  method ApplyInteractiveAutoApproveOverride(target: PolicyTable, baseline: PolicyTable, enabled: bool)
    modifies target
    ensures forall name :: Enforced(target.entries, name) == Resolve(name, old(baseline.entries), enabled)
    ensures Rewrite(old(baseline.entries), enabled, target.entries)
  {
    hide Rewrite, Enforced, Resolve;
    var next := NextPolicies(baseline.entries, enabled);
    RewriteAgrees(baseline.entries, enabled, next);
    var keys := target.entries.Keys;
    while keys != {}
      invariant target.entries.Keys == keys
      decreases |keys|
    {
      var key :| key in keys;
      target.entries := target.entries - {key};
      keys := keys - {key};
    }
    var names := next.Keys;
    while names != {}
      invariant names <= next.Keys && target.entries.Keys == next.Keys - names
      invariant forall name :: name in target.entries ==> target.entries[name] == next[name]
      decreases |names|
    {
      var name :| name in names;
      target.entries := target.entries[name := next[name]];
      names := names - {name};
    }
    assert target.entries == next;
  }

  /**
   With the switch off a tool runs without approval exactly if it is one of the safe ones and its
   own baseline entry does not say otherwise; the switch never changes whether a tool may run.
   */
  lemma ApprovedExactly(baseline: Policies, name: string, enabled: bool)
    ensures Resolve(name, baseline, enabled).autoApprove == Some(true)
       <==> enabled || (name in Safe() && Lookup(baseline, name).autoApprove != Some(false))
    ensures Resolve(name, baseline, enabled).enabled == Enforced(baseline, name).enabled
  {
    assert name in Safe() <==> name in SAFE_AUTO_APPROVE_TOOL_NAMES;
  }

  /** `createInteractiveApprovalController`: the configured table and a private copy of it. */
  class ApprovalController {
    const config: PolicyTable
    const baseline: PolicyTable
    var autoApproveAll: bool

    ghost predicate Valid()
      reads this
    {
      config != baseline
    }

    constructor (config: PolicyTable)
      ensures Valid() && this.config == config && fresh(baseline) && baseline.entries == config.entries
      ensures autoApproveAll == (Lookup(config.entries, "*").autoApprove != Some(false))
    {
      this.config := config;
      this.baseline := new PolicyTable(config.entries);
      autoApproveAll := Lookup(config.entries, "*").autoApprove != Some(false);
    }

    /** However often the switch has been thrown before, the runtime agrees with the resolver. */
    method SetInteractiveAutoApprove(enabled: bool)
      requires Valid()
      modifies this`autoApproveAll, config
      ensures Valid() && autoApproveAll == enabled && baseline.entries == old(baseline.entries)
      ensures forall name :: Enforced(config.entries, name) == Resolve(name, baseline.entries, autoApproveAll)
    {
      autoApproveAll := enabled;
      ApplyInteractiveAutoApproveOverride(config, baseline, enabled);
    }
  }
}
