/** Tool lists of agent specs: how subagents inherit them and what filter results. */
module ToolPolicy {
  import opened Text

  // ---- Clean lists ----

  /** Trimmed, non-empty, first occurrences only; `seen` holds what came before. */
  function CleanFrom(values: seq<string>, seen: set<string>): seq<string> {
    if values == [] then []
    else
      var value := TrimSpace(values[0]);
      if value == "" || value in seen then CleanFrom(values[1..], seen)
      else [value] + CleanFrom(values[1..], seen + {value})
  }

  function Clean(values: seq<string>): seq<string> { CleanFrom(values, {}) }

  predicate NoDuplicates(values: seq<string>) {
    forall i, j | 0 <= i < j < |values| :: values[i] != values[j]
  }

  /** `values` names `tool`, up to surrounding white space. */
  predicate Names(values: seq<string>, tool: string) {
    exists i | 0 <= i < |values| :: TrimSpace(values[i]) == tool
  }

  predicate Subsequence(part: seq<string>, whole: seq<string>) {
    if part == [] then true
    else if whole == [] then false
    else if part[0] == whole[0] then Subsequence(part[1..], whole[1..])
    else Subsequence(part, whole[1..])
  }

  lemma {:induction false} CleanFromContents(values: seq<string>, seen: set<string>)
    ensures forall x :: x in CleanFrom(values, seen) <==> x != "" && x !in seen && Names(values, x)
    ensures NoDuplicates(CleanFrom(values, seen))
    decreases values
  {
    if values != [] {
      var value := TrimSpace(values[0]);
      var skip := value == "" || value in seen;
      var tail := CleanFrom(values[1..], if skip then seen else seen + {value});
      CleanFromContents(values[1..], if skip then seen else seen + {value});
      assert CleanFrom(values, seen) == if skip then tail else [value] + tail;
      forall x ensures Names(values, x) <==> x == value || Names(values[1..], x) {
        NamesHead(values, x);
      }
    }
  }

  lemma NamesHead(values: seq<string>, x: string)
    requires values != []
    ensures Names(values, x) <==> x == TrimSpace(values[0]) || Names(values[1..], x)
  {
    var rest := values[1..];
    if Names(rest, x) {
      var i :| 0 <= i < |rest| && TrimSpace(rest[i]) == x;
      assert TrimSpace(values[i + 1]) == x;
    }
    if Names(values, x) && x != TrimSpace(values[0]) {
      var i :| 0 <= i < |values| && TrimSpace(values[i]) == x;
      assert TrimSpace(rest[i - 1]) == x;
    }
  }

  /** A clean list holds exactly the names listed, once each. */
  lemma CleanContents(values: seq<string>)
    ensures forall x :: x in Clean(values) <==> x != "" && Names(values, x)
    ensures NoDuplicates(Clean(values))
  {
    CleanFromContents(values, {});
  }

  function Trimmed(values: seq<string>): (trimmed: seq<string>)
    ensures |trimmed| == |values|
  {
    seq(|values|, i requires 0 <= i < |values| => TrimSpace(values[i]))
  }

  /** Whatever the head is, if it is not the first of `part` it can be put in front. */
  lemma SubsequenceBehind(part: seq<string>, head: string, rest: seq<string>)
    requires Subsequence(part, rest) && (part == [] || part[0] != head)
    ensures Subsequence(part, [head] + rest)
  {
    assert ([head] + rest)[1..] == rest;
  }

  lemma SubsequenceOfBoth(part: seq<string>, head: string, rest: seq<string>)
    requires Subsequence(part, rest)
    ensures Subsequence([head] + part, [head] + rest)
  {
    assert ([head] + rest)[1..] == rest && ([head] + part)[1..] == part;
  }

  lemma {:induction false} CleanFromIsOrdered(values: seq<string>, seen: set<string>)
    ensures Subsequence(CleanFrom(values, seen), Trimmed(values))
    decreases |values|
  {
    if values != [] {
      var value, rest := TrimSpace(values[0]), values[1..];
      assert Trimmed(values) == [value] + Trimmed(rest);
      if value == "" || value in seen {
        CleanFromIsOrdered(rest, seen);
        CleanFromContents(rest, seen);
        var part := CleanFrom(rest, seen);
        assert part != [] ==> part[0] in part;
        SubsequenceBehind(part, value, Trimmed(rest));
      } else {
        CleanFromIsOrdered(rest, seen + {value});
        SubsequenceOfBoth(CleanFrom(rest, seen + {value}), value, Trimmed(rest));
      }
    }
  }

  /** A clean list keeps the order of the names as listed. */
  lemma CleanIsOrdered(values: seq<string>)
    ensures Subsequence(Clean(values), Trimmed(values))
  {
    CleanFromIsOrdered(values, {});
  }

  predicate AllBlank(values: seq<string>) {
    forall i | 0 <= i < |values| :: Blank(values[i])
  }

  /** Nothing is left of a list exactly when it names nothing. */
  lemma CleanIsEmpty(values: seq<string>)
    ensures Clean(values) == [] <==> AllBlank(values)
  {
    CleanContents(values);
    if Clean(values) == [] {
      forall i | 0 <= i < |values| ensures Blank(values[i]) {
        assert Names(values, TrimSpace(values[i]));
      }
    } else {
      assert Clean(values)[0] in Clean(values);
    }
  }

  /** Cleaning in two goes is cleaning at once. */
  lemma {:induction false} CleanFromAppend(a: seq<string>, b: seq<string>, seen: set<string>)
    ensures CleanFrom(a + b, seen) == CleanFrom(a, seen) + CleanFrom(b, seen + Set(CleanFrom(a, seen)))
    decreases a
  {
    if a == [] {
      assert a + b == b;
      assert seen + Set(CleanFrom(a, seen)) == seen;
    } else {
      var value := TrimSpace(a[0]);
      assert (a + b)[1..] == a[1..] + b;
      if value == "" || value in seen {
        CleanFromAppend(a[1..], b, seen);
      } else {
        CleanFromAppend(a[1..], b, seen + {value});
        var tail := CleanFrom(a[1..], seen + {value});
        assert Set([value] + tail) == {value} + Set(tail);
        assert seen + Set([value] + tail) == (seen + {value}) + Set(tail);
      }
    }
  }

  function Set(values: seq<string>): set<string> { set x | x in values }

  /** One loop of `appendUnique` and `cleanToolNames`: add the new names of `values`. */
  method AddClean(out: seq<string>, seen: set<string>, values: seq<string>) returns (out': seq<string>, seen': set<string>)
    ensures out' == out + CleanFrom(values, seen)
    ensures seen' == seen + Set(CleanFrom(values, seen))
  {
    out', seen' := out, seen;
    for i := 0 to |values|
      invariant out + CleanFrom(values, seen) == out' + CleanFrom(values[i..], seen')
      invariant seen + Set(CleanFrom(values, seen)) == seen' + Set(CleanFrom(values[i..], seen'))
    {
      ghost var rest := values[i..];
      assert rest[1..] == values[i + 1..];
      var value := TrimSpace(values[i]);
      if value == "" {
        continue;
      }
      if value in seen' {
        continue;
      }
      ghost var tail := CleanFrom(values[i + 1..], seen' + {value});
      assert CleanFrom(rest, seen') == [value] + tail;
      assert Set([value] + tail) == {value} + Set(tail);
      seen' := seen' + {value};
      out' := out' + [value];
    }
    assert values[|values|..] == [];
  }

  /** `appendUnique`. */
  method AppendUnique(existing: seq<string>, values: seq<string>) returns (out: seq<string>)
    ensures out == Clean(existing + values)
  {
    var seen: set<string>;
    out, seen := AddClean([], {}, existing);
    out, seen := AddClean(out, seen, values);
    CleanFromAppend(existing, values, {});
    assert {} + Set(CleanFrom(existing, {})) == Set(CleanFrom(existing, {}));
  }

  /** `cleanToolNames`. */
  method CleanToolNames(values: seq<string>) returns (out: seq<string>)
    ensures out == Clean(values)
  {
    var seen: set<string>;
    out, seen := AddClean([], {}, values);
  }

  // ---- The tool filter ----

  datatype ToolSpec = ToolSpec(tier: string, allow: seq<string>, deny: seq<string>, mcp: seq<string>)

  /** A registered tool and the permission tier it requires. */
  datatype Tool = Tool(name: string, tier: int)

  const TIER_READ_ONLY := 0
  const TIER_WORKSPACE_WRITE := 1

  function Remove(values: seq<string>, blocked: set<string>): seq<string> {
    if values == [] then []
    else if values[0] in blocked then Remove(values[1..], blocked)
    else [values[0]] + Remove(values[1..], blocked)
  }

  function ToolsUpTo(registry: seq<Tool>, tier: int): seq<string> {
    if registry == [] then []
    else (if registry[0].tier <= tier then [registry[0].name] else []) + ToolsUpTo(registry[1..], tier)
  }

  /** The highest permission tier a tool tier admits; none for tiers that do not restrict
      and for "none", which is handled before. */
  function MaxTier(tier: string): Option<int> {
    if tier == "read_only" then Some(TIER_READ_ONLY)
    else if tier == "standard" then Some(TIER_WORKSPACE_WRITE)
    else None
  }

  function TierTools(registry: Option<seq<Tool>>, tier: string): seq<string> {
    var max := MaxTier(TrimSpace(tier));
    if registry.None? || max.None? then [] else Clean(ToolsUpTo(registry.value, max.value))
  }

  function Tier(tools: Option<ToolSpec>): string {
    if tools.Some? then TrimSpace(tools.value.tier) else ""
  }

  function Denied(tools: Option<ToolSpec>): seq<string> {
    if tools.Some? then Clean(tools.value.deny) else []
  }

  /** What is allowed before the deny list: the explicit list, else the spec's, else its tier. */
  function Granted(tools: Option<ToolSpec>, registry: Option<seq<Tool>>, explicit: seq<string>): seq<string> {
    if Clean(explicit) != [] then Clean(explicit)
    else if tools.Some? && Clean(tools.value.allow) != [] then Clean(tools.value.allow)
    else TierTools(registry, Tier(tools))
  }

  /** The filter; `None` stands for no restriction at all. */
  function Filter(tools: Option<ToolSpec>, registry: Option<seq<Tool>>, explicit: seq<string>): Option<seq<string>> {
    if Tier(tools) == "none" then Some([])
    else
      var granted := Granted(tools, registry, explicit);
      if granted == [] && Denied(tools) == [] then None
      else Some(Remove(granted, Set(Denied(tools))))
  }

  method NamesUpTo(tools: seq<Tool>, maxTier: int) returns (names: seq<string>)
    ensures names == ToolsUpTo(tools, maxTier)
  {
    names := [];
    for i := 0 to |tools|
      invariant ToolsUpTo(tools, maxTier) == names + ToolsUpTo(tools[i..], maxTier)
    {
      assert tools[i..][1..] == tools[i + 1..];
      if tools[i].tier <= maxTier {
        names := names + [tools[i].name];
      }
    }
    assert tools[|tools|..] == [];
  }

  /** `toolsForTier`. */
  method ToolsForTier(registry: Option<seq<Tool>>, tier: string) returns (allowed: seq<string>)
    ensures allowed == TierTools(registry, tier)
  {
    var max := MaxTier(TrimSpace(tier));
    if registry.None? || max.None? {
      return [];
    }
    var names := NamesUpTo(registry.value, max.value);
    allowed := CleanToolNames(names);
  }

  /** The names to block: trimmed, not empty. */
  method BlockedNames(denied: seq<string>) returns (blocked: set<string>)
    ensures blocked == Set(Clean(denied))
  {
    blocked := {};
    for i := 0 to |denied|
      invariant forall x :: x in blocked <==> x != "" && Names(denied[..i], x)
    {
      var value := TrimSpace(denied[i]);
      forall x ensures Names(denied[..i + 1], x) <==> x == value || Names(denied[..i], x) {
        NamesLast(denied, i, x);
      }
      if value != "" {
        blocked := blocked + {value};
      }
    }
    assert denied[..|denied|] == denied;
    CleanContents(denied);
  }

  lemma NamesLast(values: seq<string>, i: nat, x: string)
    requires i < |values|
    ensures Names(values[..i + 1], x) <==> x == TrimSpace(values[i]) || Names(values[..i], x)
  {
    var longer, shorter := values[..i + 1], values[..i];
    assert longer[i] == values[i];
    assert forall k | 0 <= k < i :: shorter[k] == longer[k];
  }

  /** `subtractToolNames`. */
  method SubtractToolNames(values: seq<string>, denied: seq<string>) returns (out: seq<string>)
    ensures out == Remove(Clean(values), Set(Clean(denied)))
  {
    if |denied| == 0 {
      out := CleanToolNames(values);
      RemoveNothing(out);
      return;
    }
    var blocked := BlockedNames(denied);
    var clean := CleanToolNames(values);
    out := [];
    for i := 0 to |clean|
      invariant Remove(clean, blocked) == out + Remove(clean[i..], blocked)
    {
      assert clean[i..][1..] == clean[i + 1..];
      if clean[i] !in blocked {
        out := out + [clean[i]];
      }
    }
    assert clean[|clean|..] == [];
  }

  lemma RemoveNothing(values: seq<string>)
    ensures Remove(values, Set([])) == values
  {
  }

  lemma {:induction false} CleanOfClean(values: seq<string>, seen: set<string>)
    requires NoDuplicates(values)
    requires forall i | 0 <= i < |values| :: TrimSpace(values[i]) == values[i] && values[i] != "" && values[i] !in seen
    ensures CleanFrom(values, seen) == values
    decreases values
  {
    if values != [] {
      CleanOfClean(values[1..], seen + {values[0]});
      assert values == [values[0]] + values[1..];
    }
  }

  /** Cleaning is idempotent. */
  lemma CleanIdempotent(values: seq<string>)
    ensures Clean(Clean(values)) == Clean(values)
  {
    var clean := Clean(values);
    CleanContents(values);
    forall i | 0 <= i < |clean| ensures TrimSpace(clean[i]) == clean[i] && clean[i] != "" {
      assert clean[i] in clean;
      var k :| 0 <= k < |values| && TrimSpace(values[k]) == clean[i];
      TrimSpaceIdempotent(values[k]);
    }
    CleanOfClean(clean, {});
  }

  /** `resolveOneShotToolFilter`. */
  method ResolveToolFilter(tools: Option<ToolSpec>, registry: Option<seq<Tool>>, explicit: seq<string>)
    returns (filter: Option<seq<string>>)
    ensures filter == Filter(tools, registry, explicit)
  {
    var allowed := CleanToolNames(explicit);
    var denied: seq<string> := [];
    var tier := "";
    CleanIdempotent(explicit);
    if tools.Some? {
      denied := CleanToolNames(tools.value.deny);
      CleanIdempotent(tools.value.deny);
      tier := TrimSpace(tools.value.tier);
      if |allowed| == 0 {
        allowed := CleanToolNames(tools.value.allow);
        CleanIdempotent(tools.value.allow);
      }
    }
    if tier == "none" {
      return Some([]);
    }
    TrimSpaceIdempotent(if tools.Some? then tools.value.tier else "");
    if |allowed| == 0 {
      allowed := ToolsForTier(registry, tier);
      TierToolsClean(registry, tier);
    }
    if |allowed| == 0 && |denied| == 0 {
      return None;
    }
    var out := SubtractToolNames(allowed, denied);
    return Some(out);
  }

  lemma TierToolsClean(registry: Option<seq<Tool>>, tier: string)
    ensures Clean(TierTools(registry, tier)) == TierTools(registry, tier)
  {
    var max := MaxTier(TrimSpace(tier));
    if registry.Some? && max.Some? {
      CleanIdempotent(ToolsUpTo(registry.value, max.value));
    }
  }

  lemma {:induction false} RemoveContents(values: seq<string>, blocked: set<string>)
    ensures forall x :: x in Remove(values, blocked) <==> x in values && x !in blocked
    ensures NoDuplicates(values) ==> NoDuplicates(Remove(values, blocked))
    ensures Subsequence(Remove(values, blocked), values)
  {
    if values != [] {
      RemoveContents(values[1..], blocked);
      assert values == [values[0]] + values[1..];
      var tail := Remove(values[1..], blocked);
      assert values[0] in blocked ==> values[0] !in tail;
    }
  }

  lemma GrantedHasNoDuplicates(tools: Option<ToolSpec>, registry: Option<seq<Tool>>, explicit: seq<string>)
    ensures NoDuplicates(Granted(tools, registry, explicit))
  {
    CleanContents(explicit);
    if tools.Some? {
      CleanContents(tools.value.allow);
    }
    var max := MaxTier(TrimSpace(Tier(tools)));
    if registry.Some? && max.Some? {
      CleanContents(ToolsUpTo(registry.value, max.value));
    }
  }

  /** What the filter lets through: the granted names in their order, without repeats and
      without the denied ones. */
  lemma FilterContents(tools: Option<ToolSpec>, registry: Option<seq<Tool>>, explicit: seq<string>)
    ensures var filter := Filter(tools, registry, explicit);
            filter.Some? ==>
              && NoDuplicates(filter.value)
              && Subsequence(filter.value, Granted(tools, registry, explicit))
              && forall x :: x in filter.value <==>
                   Tier(tools) != "none" && x in Granted(tools, registry, explicit) && x !in Denied(tools)
  {
    GrantedHasNoDuplicates(tools, registry, explicit);
    RemoveContents(Granted(tools, registry, explicit), Set(Denied(tools)));
  }

  lemma {:induction false} SubsequenceWithoutHead(part: seq<string>, whole: seq<string>)
    requires part != [] && Subsequence(part, whole)
    ensures Subsequence(part[1..], whole)
    decreases |whole|
  {
    var tail := part[1..];
    if part[0] != whole[0] {
      SubsequenceWithoutHead(part, whole[1..]);
    }
    if tail != [] && tail[0] == whole[0] {
      SubsequenceWithoutHead(tail, whole[1..]);
    }
  }

  lemma {:induction false} SubsequenceTransitive(a: seq<string>, b: seq<string>, c: seq<string>)
    requires Subsequence(a, b) && Subsequence(b, c)
    ensures Subsequence(a, c)
    decreases |c|
  {
    if a != [] {
      if b[0] != c[0] {
        SubsequenceTransitive(a, b, c[1..]);
        if a[0] == c[0] {
          SubsequenceWithoutHead(a, c[1..]);
        }
      } else if a[0] == b[0] {
        SubsequenceTransitive(a[1..], b[1..], c[1..]);
      } else {
        SubsequenceTransitive(a, b[1..], c[1..]);
      }
    }
  }

  /** The list a grant is taken from, as it was written. */
  function Listed(tools: Option<ToolSpec>, registry: Option<seq<Tool>>, explicit: seq<string>): seq<string> {
    var max := MaxTier(TrimSpace(Tier(tools)));
    if !AllBlank(explicit) then explicit
    else if tools.Some? && !AllBlank(tools.value.allow) then tools.value.allow
    else if registry.Some? && max.Some? then ToolsUpTo(registry.value, max.value)
    else []
  }

  lemma GrantedIsListed(tools: Option<ToolSpec>, registry: Option<seq<Tool>>, explicit: seq<string>)
    ensures Granted(tools, registry, explicit) == Clean(Listed(tools, registry, explicit))
  {
    CleanIsEmpty(explicit);
    if tools.Some? {
      CleanIsEmpty(tools.value.allow);
    }
  }

  /** The filter keeps the order in which the names were written or registered. */
  lemma FilterKeepsOrder(tools: Option<ToolSpec>, registry: Option<seq<Tool>>, explicit: seq<string>)
    requires Filter(tools, registry, explicit).Some?
    ensures Subsequence(Filter(tools, registry, explicit).value, Trimmed(Listed(tools, registry, explicit)))
  {
    GrantedIsListed(tools, registry, explicit);
    CleanIsOrdered(Listed(tools, registry, explicit));
    if Tier(tools) != "none" {
      RemoveContents(Granted(tools, registry, explicit), Set(Denied(tools)));
      SubsequenceTransitive(Filter(tools, registry, explicit).value, Granted(tools, registry, explicit),
                            Trimmed(Listed(tools, registry, explicit)));
    }
  }

  // ---- Subagents ----

  datatype Policy = Policy(approvalMode: string, maxToolCalls: int, domains: seq<string>, rulePacks: seq<string>)

  datatype Subagent = Subagent(
    name: string, persona: string, model: string, toolTier: string,
    tools: ToolSpec, skills: seq<string>, policies: Policy, instructions: string)

  function Override(base: string, value: string): string {
    if Blank(value) then base else TrimSpace(value)
  }

  function Extend(base: seq<string>, values: seq<string>): seq<string> {
    if values == [] then base else Clean(base + values)
  }

  function SubTools(parent: ToolSpec, sub: Subagent): ToolSpec {
    ToolSpec(Override(Override(parent.tier, sub.toolTier), sub.tools.tier),
             Extend(parent.allow, sub.tools.allow),
             Extend(parent.deny, sub.tools.deny),
             Extend(parent.mcp, sub.tools.mcp))
  }

  function MergedPolicy(base: Policy, override: Policy): Policy {
    Policy(Override(base.approvalMode, override.approvalMode),
           if override.maxToolCalls > 0 then override.maxToolCalls else base.maxToolCalls,
           Extend(base.domains, override.domains),
           base.rulePacks + override.rulePacks)
  }

  method OverrideField(base: string, value: string) returns (field: string)
    ensures field == Override(base, value)
  {
    field := base;
    if !Blank(value) {
      field := TrimSpace(value);
    }
  }

  method ExtendList(base: seq<string>, values: seq<string>) returns (out: seq<string>)
    ensures out == Extend(base, values)
  {
    out := base;
    if |values| > 0 {
      out := AppendUnique(out, values);
    }
  }

  /** The tool part of `SubagentProfile`. */
  method MergeTools(base: ToolSpec, sub: Subagent) returns (tools: ToolSpec)
    ensures tools == SubTools(base, sub)
  {
    tools := base;
    if !Blank(sub.toolTier) {
      tools := tools.(tier := TrimSpace(sub.toolTier));
    }
    if !Blank(sub.tools.tier) {
      tools := tools.(tier := TrimSpace(sub.tools.tier));
    }
    var allow := ExtendList(tools.allow, sub.tools.allow);
    var deny := ExtendList(tools.deny, sub.tools.deny);
    var mcp := ExtendList(tools.mcp, sub.tools.mcp);
    tools := tools.(allow := allow, deny := deny, mcp := mcp);
  }

  /** `mergePolicy`. */
  method MergePolicy(base: Policy, override: Policy) returns (merged: Policy)
    ensures merged == MergedPolicy(base, override)
  {
    merged := base;
    if !Blank(override.approvalMode) {
      merged := merged.(approvalMode := TrimSpace(override.approvalMode));
    }
    if override.maxToolCalls > 0 {
      merged := merged.(maxToolCalls := override.maxToolCalls);
    }
    var domains := ExtendList(merged.domains, override.domains);
    merged := merged.(domains := domains, rulePacks := merged.rulePacks + override.rulePacks);
  }

  const PROMPT_HEADING := "Subagent Instructions:\n"

  function DerivedName(parent: string, sub: string): string {
    Trim(TrimSpace(parent) + "/" + TrimSpace(sub), Slashes)
  }

  function DerivedPrompt(prompt: string, instructions: string): string {
    if Blank(instructions) then prompt else AppendPrompt(prompt, PROMPT_HEADING + TrimSpace(instructions))
  }

  /** The spec fields a subagent profile rewrites. */
  datatype Fields = Fields(
    name: string, persona: string, chatModel: string, executionModel: string,
    tools: ToolSpec, skills: seq<string>, policies: Policy, prompt: string, subagents: seq<Subagent>)

  function RecastFields(f: Fields, sub: Subagent): Fields {
    f.(name := DerivedName(f.name, sub.name), persona := Override(f.persona, sub.persona),
       chatModel := Override(f.chatModel, sub.model), executionModel := Override(f.executionModel, sub.model))
  }

  function MergedFields(f: Fields, sub: Subagent): Fields {
    f.(tools := SubTools(f.tools, sub), skills := Extend(f.skills, sub.skills),
       policies := MergedPolicy(f.policies, sub.policies), prompt := DerivedPrompt(f.prompt, sub.instructions), subagents := [])
  }

  function DerivedFields(f: Fields, sub: Subagent): Fields { MergedFields(RecastFields(f, sub), sub) }

  /** A list with storage of its own. */
  method NewList(values: seq<string>) returns (list: array<string>)
    ensures fresh(list) && list[..] == values
  {
    list := new string[|values|](i requires 0 <= i < |values| => values[i]);
  }

  class Spec {
    var name: string
    var persona: string
    var chatModel: string
    var executionModel: string
    var tier: string
    var allow: array<string>
    var deny: array<string>
    var mcp: array<string>
    var skills: array<string>
    var approvalMode: string
    var maxToolCalls: int
    var domains: array<string>
    var rulePacks: array<string>
    var prompt: string
    var subagents: seq<Subagent>

    /** The storage behind the lists, past and present. */
    ghost var storage: set<array<string>>

    ghost predicate Valid()
      reads this
    {
      allow in storage && deny in storage && mcp in storage && skills in storage && domains in storage && rulePacks in storage
    }

    function Tools(): ToolSpec
      reads this, allow, deny, mcp
    {
      ToolSpec(tier, allow[..], deny[..], mcp[..])
    }

    function Policies(): Policy
      reads this, domains, rulePacks
    {
      Policy(approvalMode, maxToolCalls, domains[..], rulePacks[..])
    }

    function Value(): Fields
      requires Valid()
      reads this, storage
    {
      Fields(name, persona, chatModel, executionModel, Tools(), skills[..], Policies(), prompt, subagents)
    }

    /** `cloneSpec`: the same fields, every list in new storage. */
    constructor Clone(spec: Spec)
      requires spec.Valid()
      ensures Valid() && fresh(storage) && Value() == spec.Value()
    {
      name, persona, chatModel, executionModel := spec.name, spec.persona, spec.chatModel, spec.executionModel;
      tier, approvalMode, maxToolCalls := spec.tier, spec.approvalMode, spec.maxToolCalls;
      prompt, subagents := spec.prompt, spec.subagents;
      var a := NewList(spec.allow[..]);
      var d := NewList(spec.deny[..]);
      var m := NewList(spec.mcp[..]);
      var s := NewList(spec.skills[..]);
      var o := NewList(spec.domains[..]);
      var r := NewList(spec.rulePacks[..]);
      allow, deny, mcp, skills, domains, rulePacks := a, d, m, s, o, r;
      storage := {a, d, m, s, o, r};
    }

    /** `FindSubagent`: the first with that name. */
    method Find(wanted: string) returns (sub: Option<Subagent>)
      ensures sub == FirstNamed(subagents, TrimSpace(wanted))
    {
      var name := TrimSpace(wanted);
      if name == "" {
        return None;
      }
      for i := 0 to |subagents|
        invariant FirstNamed(subagents, name) == FirstNamed(subagents[i..], name)
      {
        assert subagents[i..][1..] == subagents[i + 1..];
        if TrimSpace(subagents[i].name) == name {
          return Some(subagents[i]);
        }
      }
      return None;
    }

    method SetIdentity(n: string, p: string, chat: string, execution: string)
      requires Valid()
      modifies this`name, this`persona, this`chatModel, this`executionModel
      ensures Valid() && storage == old(storage)
      ensures Value() == old(Value()).(name := n, persona := p, chatModel := chat, executionModel := execution)
    {
      name, persona, chatModel, executionModel := n, p, chat, execution;
    }

    /** Name, persona and models. */
    method Recast(sub: Subagent)
      requires Valid()
      modifies this`name, this`persona, this`chatModel, this`executionModel
      ensures Valid() && storage == old(storage) && Value() == RecastFields(old(Value()), sub)
    {
      var p := OverrideField(persona, sub.persona);
      var chat := OverrideField(chatModel, sub.model);
      var execution := OverrideField(executionModel, sub.model);
      SetIdentity(DerivedName(name, sub.name), p, chat, execution);
    }

    method PointTools(t: string, a: array<string>, d: array<string>, m: array<string>)
      requires Valid()
      modifies this`tier, this`allow, this`deny, this`mcp, this`storage
      ensures Valid() && storage == old(storage) + {a, d, m}
      ensures Value() == old(Value()).(tools := ToolSpec(t, a[..], d[..], m[..]))
    {
      tier, allow, deny, mcp, storage := t, a, d, m, storage + {a, d, m};
    }

    method SetTools(tools: ToolSpec)
      requires Valid()
      modifies this`tier, this`allow, this`deny, this`mcp, this`storage
      ensures Valid() && fresh(storage - old(storage)) && Value() == old(Value()).(tools := tools)
    {
      var a := NewList(tools.allow);
      var d := NewList(tools.deny);
      var m := NewList(tools.mcp);
      PointTools(tools.tier, a, d, m);
    }

    method PointPolicies(mode: string, max: int, o: array<string>, r: array<string>)
      requires Valid()
      modifies this`approvalMode, this`maxToolCalls, this`domains, this`rulePacks, this`storage
      ensures Valid() && storage == old(storage) + {o, r}
      ensures Value() == old(Value()).(policies := Policy(mode, max, o[..], r[..]))
    {
      approvalMode, maxToolCalls, domains, rulePacks, storage := mode, max, o, r, storage + {o, r};
    }

    method SetPolicies(policies: Policy)
      requires Valid()
      modifies this`approvalMode, this`maxToolCalls, this`domains, this`rulePacks, this`storage
      ensures Valid() && fresh(storage - old(storage)) && Value() == old(Value()).(policies := policies)
    {
      var o := NewList(policies.domains);
      var r := NewList(policies.rulePacks);
      PointPolicies(policies.approvalMode, policies.maxToolCalls, o, r);
    }

    method SetRest(sub: Subagent)
      requires Valid()
      modifies this`skills, this`prompt, this`subagents, this`storage
      ensures Valid() && fresh(storage - old(storage))
      ensures Value() == old(Value()).(skills := Extend(old(skills[..]), sub.skills),
                prompt := DerivedPrompt(old(prompt), sub.instructions), subagents := [])
    {
      var extended := ExtendList(skills[..], sub.skills);
      var k := NewList(extended);
      skills := k;
      storage := storage + {k};
      prompt := DerivedPrompt(prompt, sub.instructions);
      subagents := [];
    }

    /** Tools, policies, skills and prompt; the subagents are dropped. */
    method Merge(sub: Subagent)
      requires Valid()
      modifies this
      ensures Valid() && fresh(storage - old(storage)) && Value() == MergedFields(old(Value()), sub)
    {
      var merged := MergeTools(Tools(), sub);
      SetTools(merged);
      var policies := MergePolicy(Policies(), sub.policies);
      SetPolicies(policies);
      SetRest(sub);
    }

    method Profile(sub: Subagent) returns (derived: Spec)
      requires Valid()
      ensures derived.Valid() && fresh(derived) && fresh(derived.storage) && derived.Value() == DerivedFields(Value(), sub)
    {
      derived := new Spec.Clone(this);
      derived.Recast(sub);
      derived.Merge(sub);
    }

    /** `SubagentProfile`: a new spec that shares no list with this one, which stays as it was. */
    method Derive(wanted: string) returns (derived: Spec?)
      requires Valid()
      ensures unchanged(this) && unchanged(storage)
      ensures derived == null <==> FirstNamed(subagents, TrimSpace(wanted)).None?
      ensures derived != null ==>
                && derived.Valid() && fresh(derived) && fresh(derived.storage)
                && derived.Value() == DerivedFields(Value(), FirstNamed(subagents, TrimSpace(wanted)).value)
    {
      var found := Find(wanted);
      if found.None? {
        return null;
      }
      derived := Profile(found.value);
    }

    /** Profiles of two subagents share no list with each other nor with the parent. */
    method ProfileTwo(first: Subagent, second: Subagent) returns (a: Spec, b: Spec)
      requires Valid()
      ensures unchanged(this) && unchanged(storage)
      ensures a.Valid() && b.Valid() && a.storage !! b.storage && a.storage !! storage && b.storage !! storage
      ensures a.Value() == DerivedFields(Value(), first) && b.Value() == DerivedFields(Value(), second)
    {
      a := Profile(first);
      b := Profile(second);
    }
  }

  function FirstNamed(subagents: seq<Subagent>, name: string): Option<Subagent> {
    if name == "" || subagents == [] then None
    else if TrimSpace(subagents[0].name) == name then Some(subagents[0])
    else FirstNamed(subagents[1..], name)
  }

  function AppendPrompt(existing: string, addition: string): string {
    if TrimSpace(existing) == "" then TrimSpace(addition)
    else if TrimSpace(addition) == "" then TrimSpace(existing)
    else TrimSpace(existing) + "\n\n" + TrimSpace(addition)
  }

  /** Names on either list stay on the extended one. */
  lemma ExtendKeepsNames(base: seq<string>, values: seq<string>, tool: string)
    requires tool != "" && (Names(base, tool) || Names(values, tool))
    ensures Names(Extend(base, values), tool)
  {
    if values != [] {
      var both := base + values;
      if Names(base, tool) {
        var i :| 0 <= i < |base| && TrimSpace(base[i]) == tool;
        assert TrimSpace(both[i]) == tool;
      } else {
        var i :| 0 <= i < |values| && TrimSpace(values[i]) == tool;
        assert TrimSpace(both[|base| + i]) == tool;
      }
      CleanContents(both);
      assert tool in Clean(both);
      CleanEntryIsTrimmed(both, tool);
      var k :| 0 <= k < |Clean(both)| && Clean(both)[k] == tool;
      assert TrimSpace(Clean(both)[k]) == tool;
    }
  }

  lemma CleanEntryIsTrimmed(values: seq<string>, tool: string)
    requires tool in Clean(values)
    ensures TrimSpace(tool) == tool
  {
    CleanContents(values);
    var k :| 0 <= k < |values| && TrimSpace(values[k]) == tool;
    TrimSpaceIdempotent(values[k]);
  }

  /** Every tool denied by the parent or by the subagent is missing from the subagent's
      filter, which is then never unrestricted. */
  lemma DenyListsSurvive(parent: ToolSpec, sub: Subagent, registry: Option<seq<Tool>>, explicit: seq<string>, tool: string)
    requires tool != "" && (Names(parent.deny, tool) || Names(sub.tools.deny, tool))
    ensures var filter := Filter(Some(SubTools(parent, sub)), registry, explicit);
            filter.Some? && tool !in filter.value
  {
    var tools := Some(SubTools(parent, sub));
    ExtendKeepsNames(parent.deny, sub.tools.deny, tool);
    CleanContents(tools.value.deny);
    assert tool in Denied(tools);
    FilterContents(tools, registry, explicit);
  }

  // ---- No restriction ----

  /** A registered tool the tier admits. */
  predicate Admits(tool: Tool, tier: int) { tool.tier <= tier && !Blank(tool.name) }

  lemma {:induction false} NoToolsUpTo(registry: seq<Tool>, tier: int)
    ensures AllBlank(ToolsUpTo(registry, tier)) <==> forall i | 0 <= i < |registry| :: !Admits(registry[i], tier)
    decreases |registry|
  {
    if registry != [] {
      var rest := ToolsUpTo(registry[1..], tier);
      NoToolsUpTo(registry[1..], tier);
      if registry[0].tier <= tier {
        BlankHead(registry[0].name, rest);
      } else {
        assert ToolsUpTo(registry, tier) == rest;
      }
      assert registry == [registry[0]] + registry[1..];
    }
  }

  lemma BlankHead(head: string, rest: seq<string>)
    ensures AllBlank([head] + rest) <==> Blank(head) && AllBlank(rest)
  {
    var all := [head] + rest;
    assert all[0] == head && forall i | 0 <= i < |rest| :: rest[i] == all[i + 1];
  }

  /** A tier grants nothing exactly when it sets no limit, there is no registry, or every
      registered tool is above it or has a blank name. */
  lemma TierGrantsNothing(registry: Option<seq<Tool>>, tier: string)
    ensures TierTools(registry, tier) == [] <==>
            || registry.None? || MaxTier(TrimSpace(tier)).None?
            || forall i | 0 <= i < |registry.value| :: !Admits(registry.value[i], MaxTier(TrimSpace(tier)).value)
  {
    var max := MaxTier(TrimSpace(tier));
    if registry.Some? && max.Some? {
      CleanIsEmpty(ToolsUpTo(registry.value, max.value));
      NoToolsUpTo(registry.value, max.value);
    }
  }

  /** What a spec and the explicit list leave unsaid. */
  predicate SaysNothing(tools: Option<ToolSpec>, explicit: seq<string>) {
    AllBlank(explicit) && (tools.Some? ==> AllBlank(tools.value.allow) && AllBlank(tools.value.deny))
  }

  /** The filter restricts nothing exactly when the tier is not "none", no list names a tool,
      and the tier sets no limit, or sets one that no registered tool meets. */
  lemma UnrestrictedExactly(tools: Option<ToolSpec>, registry: Option<seq<Tool>>, explicit: seq<string>)
    ensures Filter(tools, registry, explicit).None? <==>
            && Tier(tools) != "none" && SaysNothing(tools, explicit)
            && (|| registry.None? || MaxTier(Tier(tools)).None?
                || forall i | 0 <= i < |registry.value| :: !Admits(registry.value[i], MaxTier(Tier(tools)).value))
  {
    CleanIsEmpty(explicit);
    if tools.Some? {
      CleanIsEmpty(tools.value.allow);
      CleanIsEmpty(tools.value.deny);
      TrimSpaceIdempotent(tools.value.tier);
    }
    TierGrantsNothing(registry, Tier(tools));
  }

  const READ_ONLY := ToolSpec("read_only", [], [], [])
  const WRITERS: seq<Tool> := [Tool("write_file", TIER_WORKSPACE_WRITE), Tool("edit_file", TIER_WORKSPACE_WRITE)]

  /** A read-only spec over a registry of writers lets every writer through. */
  lemma ReadOnlyCanBeUnrestricted()
    ensures Filter(Some(READ_ONLY), Some(WRITERS), []).None?
  {
    TrimFixed("read_only", WhiteSpace);
    UnrestrictedExactly(Some(READ_ONLY), Some(WRITERS), []);
  }

  // ---- Tiers and derived texts, spelled out ----

  lemma {:induction false} ToolsUpToContents(registry: seq<Tool>, tier: int, x: string)
    ensures Names(ToolsUpTo(registry, tier), x) <==>
            exists i :: 0 <= i < |registry| && registry[i].tier <= tier && TrimSpace(registry[i].name) == x
    decreases |registry|
  {
    if registry != [] {
      var rest := registry[1..];
      ToolsUpToContents(rest, tier, x);
      ToolsUpToHead(registry, tier, x);
      assert forall i | 0 <= i < |rest| :: rest[i] == registry[i + 1];
      if i :| 0 <= i < |registry| && registry[i].tier <= tier && TrimSpace(registry[i].name) == x {
        assert i > 0 ==> rest[i - 1] == registry[i];
      }
    }
  }

  lemma ToolsUpToHead(registry: seq<Tool>, tier: int, x: string)
    requires registry != []
    ensures Names(ToolsUpTo(registry, tier), x) <==>
            || (registry[0].tier <= tier && TrimSpace(registry[0].name) == x)
            || Names(ToolsUpTo(registry[1..], tier), x)
  {
    var all, rest := ToolsUpTo(registry, tier), ToolsUpTo(registry[1..], tier);
    if registry[0].tier <= tier {
      assert all[1..] == rest;
      NamesHead(all, x);
    } else {
      assert all == rest;
    }
  }

  /** "read_only" admits the registered tools of permission tier 0, "standard" those of tiers 0
      and 1; any other tier admits none by itself. */
  lemma TierAdmitsExactly(registry: seq<Tool>, tier: string, x: string)
    ensures x in TierTools(Some(registry), tier) <==>
            && x != ""
            && exists i :: 0 <= i < |registry| && TrimSpace(registry[i].name) == x
                 && (|| (TrimSpace(tier) == "read_only" && registry[i].tier <= 0)
                     || (TrimSpace(tier) == "standard" && registry[i].tier <= 1))
  {
    var max := MaxTier(TrimSpace(tier));
    if max.Some? {
      CleanContents(ToolsUpTo(registry, max.value));
      ToolsUpToContents(registry, max.value, x);
    }
  }

  /** The name of a profile is the parent's and the subagent's, with one slash between. */
  lemma DerivedNameExactly(parent: string, sub: string)
    requires TrimSpace(parent) != "" && TrimSpace(sub) != ""
    requires TrimSpace(parent)[0] != '/' && TrimSpace(sub)[|TrimSpace(sub)| - 1] != '/'
    ensures DerivedName(parent, sub) == TrimSpace(parent) + "/" + TrimSpace(sub)
  {
    TrimFixed(TrimSpace(parent) + "/" + TrimSpace(sub), Slashes);
  }

  /** Instructions that are not blank are appended under their heading; otherwise the prompt
      stays as it is. */
  lemma DerivedPromptExactly(prompt: string, instructions: string)
    ensures TrimSpace(instructions) == "" ==> DerivedPrompt(prompt, instructions) == prompt
    ensures TrimSpace(instructions) != "" && TrimSpace(prompt) != "" ==>
              DerivedPrompt(prompt, instructions)
              == TrimSpace(prompt) + "\n\n" + ("Subagent Instructions:\n" + TrimSpace(instructions))
    ensures TrimSpace(instructions) != "" && TrimSpace(prompt) == "" ==>
              DerivedPrompt(prompt, instructions) == "Subagent Instructions:\n" + TrimSpace(instructions)
  {
    if TrimSpace(instructions) != "" {
      TrimEnds(instructions, WhiteSpace);
      HeadingStays(TrimSpace(instructions));
    }
  }

  lemma HeadingStays(text: string)
    requires text != "" && !IsSpace(text[|text| - 1])
    ensures TrimSpace(PROMPT_HEADING + text) == PROMPT_HEADING + text
  {
    assert (PROMPT_HEADING + text)[0] == 'S';
    TrimFixed(PROMPT_HEADING + text, WhiteSpace);
  }
}
