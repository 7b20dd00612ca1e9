/**
 The CLI's path parameters: a gate that counts the tokens of a command line before anything else
 runs, and the code that later binds those tokens into the operation input. Both must agree.
 */
module Positionals {
  import opened Wrappers

  datatype Kind = FlagsVerify | Cloudflare | Api

  /**
   A command: the parameter names of its route's path in order, whether it runs in an App and in an
   Environment, its operation, and whether that operation's schema has an `environmentId` at all.
   */
  datatype Command = Command(
    kind: Kind, pathParams: seq<string>,
    usesApp: bool, needsEnvironment: bool, operationId: string, hasEnvironmentField: bool)

  datatype Json = Text(text: string) | Other

  type Record = map<string, Json>

  /** `--body-json`: not given, not a plain JSON object, or its fields. */
  datatype BodyArg = NoBody | Malformed | Fields(record: Record)

  datatype Invocation = Invocation(positionals: seq<string>, org: Option<string>, body: BodyArg)

  /** The resolved App and Environment, and whether the Environment was named by `--env`. */
  datatype Context = Context(appId: Option<string>, environmentId: Option<string>, fromFlag: bool)

  predicate ScopeParam(name: string) {
    name == "appId" || name == "environmentId" || name == "targetEnvironmentId"
  }

  function WithoutScope(names: seq<string>): seq<string> {
    if names == [] then []
    else (if ScopeParam(names[0]) then [] else [names[0]]) + WithoutScope(names[1..])
  }

  function Specs(c: Command): seq<string> {
    match c.kind
    case FlagsVerify => ["flagKey"]
    case Cloudflare => []
    case Api => WithoutScope(c.pathParams)
  }

  predicate Given(value: Option<string>) {
    value.Some? && value.value != ""
  }

  predicate HoldsText(r: Record, name: string) {
    name in r && r[name].Text? && r[name].text != ""
  }

  function RecordOf(body: BodyArg): Record {
    if body.Fields? then body.record else map[]
  }

  // ---------- the gate ----------

  predicate FilledElsewhere(name: string, i: Invocation) {
    (name == "orgId" && Given(i.org)) || HoldsText(RecordOf(i.body), name)
  }

  function Open(specs: seq<string>, i: Invocation): seq<string> {
    if specs == [] then []
    else (if FilledElsewhere(specs[0], i) then [] else [specs[0]]) + Open(specs[1..], i)
  }

  datatype Verdict = Accepted | MalformedBody | Missing(name: string) | Conflict(name: string) | Unexpected(token: string)

  function Excess(c: Command, i: Invocation): Option<Verdict> {
    if c.kind == FlagsVerify then
      if |i.positionals| <= 1 then None else Some(Unexpected(i.positionals[1]))
    else if i.body.Malformed? then Some(MalformedBody)
    else
      var open := |Open(Specs(c), i)|;
      if |i.positionals| <= open then None
      else match FirstFilled(Specs(c), i)
        case Some(name) => Some(Conflict(name))
        case None => Some(Unexpected(i.positionals[open]))
  }

  function FirstFilled(specs: seq<string>, i: Invocation): Option<string> {
    if specs == [] then None
    else if FilledElsewhere(specs[0], i) then Some(specs[0])
    else FirstFilled(specs[1..], i)
  }

  /** The first slot that neither a flag, the body nor the next unused token fills. */
  function FirstMissing(specs: seq<string>, i: Invocation, used: nat): Option<string> {
    if specs == [] then None
    else if FilledElsewhere(specs[0], i) then FirstMissing(specs[1..], i, used)
    else if used < |i.positionals| && i.positionals[used] != "" then FirstMissing(specs[1..], i, used + 1)
    else Some(specs[0])
  }

  function MissingOf(c: Command, i: Invocation): Option<Verdict> {
    if c.kind == FlagsVerify then
      if |i.positionals| > 0 && i.positionals[0] != "" then None else Some(Missing("flagKey"))
    else if i.body.Malformed? then Some(MalformedBody)
    else match FirstMissing(Specs(c), i, 0)
      case Some(name) => Some(Missing(name))
      case None => None
  }

  function Gate(c: Command, i: Invocation): Verdict {
    match Excess(c, i)
    case Some(v) => v
    case None =>
      match MissingOf(c, i)
      case Some(v) => v
      case None => Accepted
  }

  method RequiredPositionalSpecs(c: Command) returns (specs: seq<string>)
    ensures specs == Specs(c)
  {
    if c.kind == FlagsVerify {
      return ["flagKey"];
    }
    if c.kind == Cloudflare {
      return [];
    }
    specs := [];
    for k := 0 to |c.pathParams|
      invariant specs == WithoutScope(c.pathParams[..k])
    {
      WithoutScopeNext(c.pathParams, k);
      if !ScopeParam(c.pathParams[k]) {
        specs := specs + [c.pathParams[k]];
      }
    }
    assert c.pathParams[..|c.pathParams|] == c.pathParams;
  }

  lemma {:induction false} WithoutScopeNext(names: seq<string>, k: nat)
    requires k < |names|
    ensures WithoutScope(names[..k + 1]) == WithoutScope(names[..k]) + if ScopeParam(names[k]) then [] else [names[k]]
    decreases k
  {
    if k == 0 {
      assert names[..1] == [names[0]] && names[..1][1..] == [];
    } else {
      WithoutScopeNext(names[1..], k - 1);
      assert names[..k + 1][1..] == names[1..][..k] && names[..k][1..] == names[1..][..k - 1];
    }
  }

  /** The gate's scan, with an index that moves only when a token is taken. */
  method MissingRequiredPositional(c: Command, i: Invocation) returns (v: Option<Verdict>)
    ensures v == MissingOf(c, i)
  {
    if c.kind == FlagsVerify {
      return if |i.positionals| > 0 && i.positionals[0] != "" then None else Some(Missing("flagKey"));
    }
    var specs := RequiredPositionalSpecs(c);
    if i.body.Malformed? {
      return Some(MalformedBody);
    }
    var positionalIndex: nat := 0;
    for k := 0 to |specs|
      invariant FirstMissing(specs, i, 0) == FirstMissing(specs[k..], i, positionalIndex)
    {
      assert specs[k..][0] == specs[k] && specs[k..][1..] == specs[k + 1..];
      if FilledElsewhere(specs[k], i) {
        continue;
      }
      if positionalIndex < |i.positionals| && i.positionals[positionalIndex] != "" {
        positionalIndex := positionalIndex + 1;
        continue;
      }
      return Some(Missing(specs[k]));
    }
    return None;
  }

  // ---------- binding ----------

  function WithContext(c: Command, r: Record, x: Context): Record {
    var a := if Given(x.appId) && c.usesApp then r["appId" := Text(x.appId.value)] else r;
    if !Given(x.environmentId) then a
    else if c.needsEnvironment then
      if c.operationId == "flags_promote" then a["targetEnvironmentId" := Text(x.environmentId.value)]
      else a["environmentId" := Text(x.environmentId.value)]
    else if c.operationId == "flags_list" then a
    else if x.fromFlag && c.hasEnvironmentField then a["environmentId" := Text(x.environmentId.value)]
    else a
  }

  function WithOrg(r: Record, org: Option<string>): Record {
    if Given(org) then r["orgId" := Text(org.value)] else r
  }

  function Empty(specs: seq<string>, r: Record): seq<string> {
    if specs == [] then []
    else (if HoldsText(r, specs[0]) then [] else [specs[0]]) + Empty(specs[1..], r)
  }

  function FirstHeld(specs: seq<string>, r: Record): Option<string> {
    if specs == [] then None
    else if HoldsText(r, specs[0]) then Some(specs[0])
    else FirstHeld(specs[1..], r)
  }

  /** Tokens into slots: a slot without a token stays as it is, and takes no token. */
  function Bind(slots: seq<string>, tokens: seq<string>, r: Record): Record {
    if slots == [] then r
    else if tokens != [] && tokens[0] != "" then Bind(slots[1..], tokens[1..], r[slots[0] := Text(tokens[0])])
    else Bind(slots[1..], tokens, r)
  }

  datatype Applied = Done(fields: Record) | Rejected(why: Verdict)

  function ApplyPositionals(specs: seq<string>, tokens: seq<string>, r: Record): Applied {
    var slots := Empty(specs, r);
    if |tokens| > |slots| then
      Rejected(match FirstHeld(specs, r)
               case Some(name) => Conflict(name)
               case None => Unexpected(tokens[|slots|]))
    else Done(Bind(slots, tokens, r))
  }

  /** The input as built up to and including the positionals. */
  function Build(c: Command, i: Invocation, x: Context): Applied {
    if i.body.Malformed? then Rejected(MalformedBody)
    else ApplyPositionals(Specs(c), i.positionals, WithOrg(WithContext(c, RecordOf(i.body), x), i.org))
  }

  predicate AllPresent(specs: seq<string>, r: Record) {
    forall name :: name in specs ==> HoldsText(r, name)
  }

  lemma {:induction false} BindNext(slots: seq<string>, k: nat, tokens: seq<string>, used: nat, r: Record)
    requires k < |slots| && used <= |tokens|
    ensures Bind(slots[k..], tokens[used..], r) ==
      if used < |tokens| && tokens[used] != "" then Bind(slots[k + 1..], tokens[used + 1..], r[slots[k] := Text(tokens[used])])
      else Bind(slots[k + 1..], tokens[used..], r)
  {
    assert slots[k..][0] == slots[k] && slots[k..][1..] == slots[k + 1..];
    if used < |tokens| {
      assert tokens[used..][0] == tokens[used] && tokens[used..][1..] == tokens[used + 1..];
    }
  }

  /** The shared input record, filled in place. */
  class OperationInput {
    var fields: Record

    constructor ()
      ensures fields == map[]
    {
      fields := map[];
    }

    method ApplyBodyJson(body: BodyArg) returns (ok: bool)
      requires fields == map[]
      modifies this
      ensures ok == !body.Malformed?
      ensures fields == RecordOf(body)
    {
      if body.Malformed? {
        return false;
      }
      if body.Fields? {
        fields := body.record;
      }
      return true;
    }

    method ApplyContextFields(c: Command, x: Context)
      modifies this
      ensures fields == WithContext(c, old(fields), x)
    {
      if Given(x.appId) && c.usesApp {
        fields := fields["appId" := Text(x.appId.value)];
      }
      if !Given(x.environmentId) {
        return;
      }
      if c.needsEnvironment {
        if c.operationId == "flags_promote" {
          fields := fields["targetEnvironmentId" := Text(x.environmentId.value)];
        } else {
          fields := fields["environmentId" := Text(x.environmentId.value)];
        }
        return;
      }
      if c.operationId == "flags_list" {
        return;
      }
      if x.fromFlag && c.hasEnvironmentField {
        fields := fields["environmentId" := Text(x.environmentId.value)];
      }
    }

    method ApplyOrgFlag(org: Option<string>)
      modifies this
      ensures fields == WithOrg(old(fields), org)
    {
      if Given(org) {
        fields := fields["orgId" := Text(org.value)];
      }
    }

    method ApplyPositionalFields(c: Command, positionals: seq<string>) returns (error: Option<Verdict>)
      modifies this
      ensures error.None? ==> Done(fields) == ApplyPositionals(Specs(c), positionals, old(fields))
      ensures error.Some? ==> fields == old(fields) && Rejected(error.value) == ApplyPositionals(Specs(c), positionals, fields)
    {
      var specs := RequiredPositionalSpecs(c);
      var unfilled := Empty(specs, fields);
      if |positionals| > |unfilled| {
        var conflict := FirstHeld(specs, fields);
        return Some(if conflict.Some? then Conflict(conflict.value) else Unexpected(positionals[|unfilled|]));
      }
      var positionalIndex: nat := 0;
      for k := 0 to |unfilled|
        invariant positionalIndex <= |positionals|
        invariant Bind(unfilled, positionals, old(fields)) == Bind(unfilled[k..], positionals[positionalIndex..], fields)
      {
        BindNext(unfilled, k, positionals, positionalIndex, fields);
        if positionalIndex < |positionals| && positionals[positionalIndex] != "" {
          fields := fields[unfilled[k] := Text(positionals[positionalIndex])];
          positionalIndex := positionalIndex + 1;
        }
      }
      return None;
    }

    method BuildOperationInput(c: Command, i: Invocation, x: Context) returns (error: Option<Verdict>)
      requires fields == map[]
      modifies this
      ensures error.None? ==> Done(fields) == Build(c, i, x)
      ensures error.Some? ==> Rejected(error.value) == Build(c, i, x)
    {
      var ok := ApplyBodyJson(i.body);
      if !ok {
        return Some(MalformedBody);
      }
      ApplyContextFields(c, x);
      ApplyOrgFlag(i.org);
      error := ApplyPositionalFields(c, i.positionals);
    }
  }

  // ---------- agreement ----------

  /** What the input holds before the positionals is what the gate counts as filled. */
  lemma HeldIsFilled(name: string, c: Command, i: Invocation, x: Context)
    requires !ScopeParam(name)
    ensures HoldsText(WithOrg(WithContext(c, RecordOf(i.body), x), i.org), name) <==> FilledElsewhere(name, i)
  {}

  predicate NoScope(specs: seq<string>) {
    forall name :: name in specs ==> !ScopeParam(name)
  }

  lemma {:induction false} SpecsHaveNoScope(names: seq<string>)
    ensures NoScope(WithoutScope(names))
  {
    if names != [] {
      SpecsHaveNoScope(names[1..]);
    }
  }

  lemma {:induction false} EmptyIsOpen(specs: seq<string>, c: Command, i: Invocation, x: Context)
    requires NoScope(specs)
    ensures var r := WithOrg(WithContext(c, RecordOf(i.body), x), i.org);
      Empty(specs, r) == Open(specs, i) && FirstHeld(specs, r) == FirstFilled(specs, i)
  {
    if specs != [] {
      assert specs[0] in specs;
      HeldIsFilled(specs[0], c, i, x);
      assert forall name :: name in specs[1..] ==> name in specs;
      EmptyIsOpen(specs[1..], c, i, x);
    }
  }

  /** Every token is a real one and there is one for each open slot. */
  predicate Fits(slots: seq<string>, tokens: seq<string>) {
    |tokens| == |slots| && forall k :: 0 <= k < |tokens| ==> tokens[k] != ""
  }

  lemma {:induction false} NothingMissing(specs: seq<string>, i: Invocation, used: nat)
    requires used <= |i.positionals| <= used + |Open(specs, i)|
    ensures FirstMissing(specs, i, used).None? <==> Fits(Open(specs, i), i.positionals[used..])
  {
    if specs != [] {
      if FilledElsewhere(specs[0], i) {
        NothingMissing(specs[1..], i, used);
      } else if used < |i.positionals| && i.positionals[used] != "" {
        NothingMissing(specs[1..], i, used + 1);
        var rest, tokens := i.positionals[used + 1..], i.positionals[used..];
        assert tokens == [i.positionals[used]] + rest;
        if Fits(Open(specs, i), tokens) {
          forall k | 0 <= k < |rest| ensures rest[k] != "" {
            assert rest[k] == tokens[k + 1];
          }
        }
      } else if used < |i.positionals| {
        assert i.positionals[used..][0] == "";
      }
    }
  }

  predicate Distinct(names: seq<string>) {
    forall j, k :: 0 <= j < k < |names| ==> names[j] != names[k]
  }

  /** Fitting tokens land one to one and in order; nothing else changes. */
  lemma {:induction false} FittingTokensLand(slots: seq<string>, tokens: seq<string>, r: Record)
    requires Fits(slots, tokens)
    ensures var after := Bind(slots, tokens, r);
      && (forall name :: name !in slots ==> (name in after <==> name in r) && (name in r ==> after[name] == r[name]))
      && (forall name :: name in slots ==> HoldsText(after, name))
      && (Distinct(slots) ==> forall k :: 0 <= k < |slots| ==> slots[k] in after && after[slots[k]] == Text(tokens[k]))
    decreases |slots|
  {
    if slots != [] {
      var s := r[slots[0] := Text(tokens[0])];
      FittingTokensLand(slots[1..], tokens[1..], s);
      assert forall name :: name in slots <==> name == slots[0] || name in slots[1..];
      var after := Bind(slots, tokens, r);
      assert HoldsText(after, slots[0]) by {
        if slots[0] !in slots[1..] {
          assert after[slots[0]] == Text(tokens[0]);
        }
      }
      if Distinct(slots) {
        assert Distinct(slots[1..]);
        assert slots[0] !in slots[1..];
        forall k | 0 <= k < |slots| ensures slots[k] in after && after[slots[k]] == Text(tokens[k]) {
          if k > 0 {
            assert slots[1..][k - 1] == slots[k];
          }
        }
      }
    }
  }

  /** With too few tokens, or an empty one, the last open slot is left unfilled. */
  lemma {:induction false} ShortTokensLeaveAHole(slots: seq<string>, tokens: seq<string>, r: Record)
    requires Distinct(slots) && |tokens| <= |slots| && !Fits(slots, tokens)
    requires forall name :: name in slots ==> !HoldsText(r, name)
    ensures exists name :: name in slots && !HoldsText(Bind(slots, tokens, r), name)
    decreases |slots|
  {
    var last := slots[|slots| - 1];
    if tokens != [] && tokens[0] != "" {
      var s := r[slots[0] := Text(tokens[0])];
      if Fits(slots[1..], tokens[1..]) {
        forall k | 0 <= k < |tokens| ensures tokens[k] != "" {
          if k > 0 {
            assert tokens[1..][k - 1] == tokens[k];
          }
        }
      }
      assert forall name :: name in slots[1..] ==> name in slots && name != slots[0];
      ShortTokensLeaveAHole(slots[1..], tokens[1..], s);
      var name :| name in slots[1..] && !HoldsText(Bind(slots[1..], tokens[1..], s), name);
      assert name in slots;
    } else {
      StuckTokens(slots, tokens, r);
      assert slots[0] in slots;
    }
  }

  /** An empty token, or none, is never passed over: every slot after it stays as it was. */
  lemma {:induction false} StuckTokens(slots: seq<string>, tokens: seq<string>, r: Record)
    requires tokens == [] || tokens[0] == ""
    ensures Bind(slots, tokens, r) == r
  {
    if slots != [] {
      StuckTokens(slots[1..], tokens, r);
    }
  }

  lemma {:induction false} EmptyNames(specs: seq<string>, r: Record)
    ensures forall name :: name in Empty(specs, r) <==> name in specs && !HoldsText(r, name)
    ensures Distinct(specs) ==> Distinct(Empty(specs, r))
  {
    if specs != [] {
      EmptyNames(specs[1..], r);
      assert forall name :: name in specs <==> name == specs[0] || name in specs[1..];
      var rest := Empty(specs[1..], r);
      if Distinct(specs) && !HoldsText(r, specs[0]) {
        forall k | 0 <= k < |rest| ensures rest[k] != specs[0] {
          assert rest[k] in rest;
        }
      }
    }
  }

  /**
   Agreement: the gate accepts a command line exactly when binding it succeeds and leaves every path
   parameter filled; then there is one token per open slot and each lands in its slot, in order.
   `flags verify` reads only its own token and never reaches the binding.
   */
  lemma GateAgreesWithBinding(c: Command, i: Invocation, x: Context)
    requires c.kind != FlagsVerify && Distinct(c.pathParams)
    ensures Gate(c, i).Accepted? <==> Build(c, i, x).Done? && AllPresent(Specs(c), Build(c, i, x).fields)
    ensures Gate(c, i).Accepted? ==>
      var slots := Open(Specs(c), i);
      && |i.positionals| == |slots|
      && forall k :: 0 <= k < |slots| ==> slots[k] in Build(c, i, x).fields && Build(c, i, x).fields[slots[k]] == Text(i.positionals[k])
  {
    if !i.body.Malformed? {
      var specs, r := Specs(c), WithOrg(WithContext(c, RecordOf(i.body), x), i.org);
      SpecsAreDistinct(c.pathParams);
      SpecsHaveNoScope(c.pathParams);
      EmptyIsOpen(specs, c, i, x);
      EmptyNames(specs, r);
      var slots := Open(specs, i);
      if |i.positionals| <= |slots| {
        NothingMissing(specs, i, 0);
        assert i.positionals[0..] == i.positionals;
        if Fits(slots, i.positionals) {
          FittingTokensLand(slots, i.positionals, r);
        } else {
          ShortTokensLeaveAHole(slots, i.positionals, r);
        }
      }
    }
  }

  lemma {:induction false} SpecsAreDistinct(names: seq<string>)
    ensures forall name :: name in WithoutScope(names) ==> name in names
    ensures Distinct(names) ==> Distinct(WithoutScope(names))
  {
    if names != [] {
      SpecsAreDistinct(names[1..]);
      assert forall name :: name in names <==> name == names[0] || name in names[1..];
      var rest := WithoutScope(names[1..]);
      if Distinct(names) && !ScopeParam(names[0]) {
        forall k | 0 <= k < |rest| ensures rest[k] != names[0] {
          assert rest[k] in rest;
        }
      }
    }
  }

  /** Both refuse too many tokens for the same reason. */
  lemma RefusalsAgree(c: Command, i: Invocation, x: Context)
    requires c.kind != FlagsVerify
    ensures Excess(c, i).Some? <==> Build(c, i, x).Rejected?
    ensures Excess(c, i).Some? ==> Build(c, i, x) == Rejected(Excess(c, i).value)
  {
    SpecsHaveNoScope(c.pathParams);
    EmptyIsOpen(Specs(c), c, i, x);
  }

  // ---------- what the input holds ----------

  /** The field is the same in both, or absent from both. */
  predicate Same(a: Record, b: Record, name: string) {
    (name in a <==> name in b) && (name in a ==> a[name] == b[name])
  }

  predicate HoldsExactly(r: Record, name: string, text: string) {
    name in r && r[name] == Text(text)
  }

  lemma {:induction false} BindLeaves(slots: seq<string>, tokens: seq<string>, r: Record, name: string)
    requires name !in slots
    ensures Same(Bind(slots, tokens, r), r, name)
  {
    if slots != [] {
      var s := if tokens != [] && tokens[0] != "" then r[slots[0] := Text(tokens[0])] else r;
      if tokens != [] && tokens[0] != "" {
        BindLeaves(slots[1..], tokens[1..], s, name);
      } else {
        BindLeaves(slots[1..], tokens, r, name);
      }
    }
  }

  /** The Environment goes into `environmentId`: the command needs it there, or `--env` narrows a list that takes it. */
  predicate EnvironmentApplies(c: Command, x: Context) {
    && Given(x.environmentId)
    && if c.needsEnvironment then c.operationId != "flags_promote"
       else c.operationId != "flags_list" && x.fromFlag && c.hasEnvironmentField
  }

  /** A promotion's Environment is its target. */
  predicate TargetApplies(c: Command, x: Context) {
    Given(x.environmentId) && c.needsEnvironment && c.operationId == "flags_promote"
  }

  /** What context and `--org` make of a body, field by field. */
  ghost predicate ContextFields(c: Command, org: Option<string>, x: Context, body: Record, f: Record) {
    && (if c.usesApp && Given(x.appId) then HoldsExactly(f, "appId", x.appId.value) else Same(f, body, "appId"))
    && (if EnvironmentApplies(c, x) then HoldsExactly(f, "environmentId", x.environmentId.value) else Same(f, body, "environmentId"))
    && (if TargetApplies(c, x) then HoldsExactly(f, "targetEnvironmentId", x.environmentId.value)
        else Same(f, body, "targetEnvironmentId"))
    && (Given(org) ==> HoldsExactly(f, "orgId", org.value))
  }

  lemma ScopeNames()
    ensures "appId" != "orgId" && "environmentId" != "orgId" && "targetEnvironmentId" != "orgId"
    ensures "appId" != "environmentId" && "appId" != "targetEnvironmentId" && "environmentId" != "targetEnvironmentId"
  {
    assert |"appId"| == 5 && |"orgId"| == 5 && "appId"[0] != "orgId"[0];
    assert |"environmentId"| == 13 && |"targetEnvironmentId"| == 19;
  }

  lemma ContextHolds(c: Command, org: Option<string>, x: Context, body: Record)
    ensures ContextFields(c, org, x, body, WithOrg(WithContext(c, body, x), org))
  {
    ScopeNames();
  }

  lemma OthersStay(c: Command, org: Option<string>, x: Context, body: Record, name: string)
    requires !ScopeParam(name) && !(name == "orgId" && Given(org))
    ensures Same(WithOrg(WithContext(c, body, x), org), body, name)
  {}

  /**
   Field by field, the input a command line builds: the App, the Environment or the target from the
   context where the command takes them, the Organization from `--org`, and every other field outside
   the open slots as the body has it.
   */
  lemma InputHolds(c: Command, i: Invocation, x: Context)
    requires Build(c, i, x).Done?
    ensures ContextFields(c, i.org, x, RecordOf(i.body), Build(c, i, x).fields)
    ensures forall name :: !ScopeParam(name) && Slotless(c, i, name) && !(name == "orgId" && Given(i.org)) ==>
      Same(Build(c, i, x).fields, RecordOf(i.body), name)
  {
    var r := WithOrg(WithContext(c, RecordOf(i.body), x), i.org);
    SpecsHaveNoScope(c.pathParams);
    EmptyIsOpen(Specs(c), c, i, x);
    OpenNames(Specs(c), i);
    ContextHolds(c, i.org, x, RecordOf(i.body));
    forall n | Slotless(c, i, n) ensures Same(Build(c, i, x).fields, r, n) {
      BindLeaves(Open(Specs(c), i), i.positionals, r, n);
    }
    SlotsAreOthers(c, i);
    SameContext(c, i.org, x, RecordOf(i.body), r, Build(c, i, x).fields);
    forall n | !ScopeParam(n) && Slotless(c, i, n) && !(n == "orgId" && Given(i.org))
      ensures Same(Build(c, i, x).fields, RecordOf(i.body), n)
    {
      OthersStay(c, i.org, x, RecordOf(i.body), n);
    }
  }

  lemma SlotsAreOthers(c: Command, i: Invocation)
    ensures Slotless(c, i, "appId") && Slotless(c, i, "environmentId") && Slotless(c, i, "targetEnvironmentId")
    ensures Given(i.org) ==> Slotless(c, i, "orgId")
  {
    SpecsHaveNoScope(c.pathParams);
    OpenNames(Specs(c), i);
    assert |"flagKey"| == 7 && |"appId"| == 5 && |"environmentId"| == 13 && |"targetEnvironmentId"| == 19;
  }

  lemma SameContext(c: Command, org: Option<string>, x: Context, body: Record, r: Record, f: Record)
    requires ContextFields(c, org, x, body, r)
    requires Same(f, r, "appId") && Same(f, r, "environmentId") && Same(f, r, "targetEnvironmentId")
    requires Given(org) ==> Same(f, r, "orgId")
    ensures ContextFields(c, org, x, body, f)
  {}

  /** No open slot has this name, so no token goes there. */
  predicate Slotless(c: Command, i: Invocation, name: string) {
    name !in Open(Specs(c), i)
  }

  lemma {:induction false} OpenNames(specs: seq<string>, i: Invocation)
    ensures forall name :: name in Open(specs, i) ==> name in specs && !FilledElsewhere(name, i)
  {
    if specs != [] {
      OpenNames(specs[1..], i);
    }
  }

  predicate NoneFilledBefore(specs: seq<string>, i: Invocation, k: nat)
    requires k <= |specs|
  {
    forall j :: 0 <= j < k ==> !FilledElsewhere(specs[j], i)
  }

  /** Excess tokens are refused with the first parameter the body or `--org` already fills, else with the first token left over. */
  lemma ExcessSays(c: Command, i: Invocation)
    requires c.kind != FlagsVerify && !i.body.Malformed?
    ensures var specs, e := Specs(c), Excess(c, i);
      && (e.None? <==> |i.positionals| <= |Open(specs, i)|)
      && (e.Some? && NoneFilledBefore(specs, i, |specs|) ==>
           |specs| < |i.positionals| && e == Some(Unexpected(i.positionals[|specs|])))
      && (forall k :: 0 <= k < |specs| && e.Some? && NoneFilledBefore(specs, i, k) && FilledElsewhere(specs[k], i) ==>
           e == Some(Conflict(specs[k])))
  {
    var specs := Specs(c);
    if NoneFilledBefore(specs, i, |specs|) {
      NothingFilled(specs, i);
    }
    forall k | 0 <= k < |specs| && NoneFilledBefore(specs, i, k) && FilledElsewhere(specs[k], i)
      ensures FirstFilled(specs, i) == Some(specs[k])
    {
      FilledAt(specs, i, k);
    }
  }

  lemma {:induction false} NothingFilled(specs: seq<string>, i: Invocation)
    requires NoneFilledBefore(specs, i, |specs|)
    ensures FirstFilled(specs, i).None? && Open(specs, i) == specs
  {
    if specs != [] {
      NothingFilled(specs[1..], i);
    }
  }

  lemma {:induction false} FilledAt(specs: seq<string>, i: Invocation, k: nat)
    requires k < |specs| && NoneFilledBefore(specs, i, k) && FilledElsewhere(specs[k], i)
    ensures FirstFilled(specs, i) == Some(specs[k])
    decreases k
  {
    if k > 0 {
      assert !FilledElsewhere(specs[0], i);
      FilledAt(specs[1..], i, k - 1);
    }
  }

  /** The k-th open slot is the first whose token is absent or empty. */
  predicate MissingAt(slots: seq<string>, tokens: seq<string>, used: nat, k: nat) {
    && k < |slots|
    && used + k <= |tokens| && (forall j :: used <= j < used + k ==> tokens[j] != "")
    && (used + k < |tokens| ==> tokens[used + k] == "")
  }

  /** The parameter said to be missing is the open slot whose token is the first one absent or empty. */
  lemma {:induction false} MissingSays(specs: seq<string>, i: Invocation, used: nat) returns (k: nat)
    requires used <= |i.positionals| && FirstMissing(specs, i, used).Some?
    ensures MissingAt(Open(specs, i), i.positionals, used, k) && Open(specs, i)[k] == FirstMissing(specs, i, used).value
  {
    if FilledElsewhere(specs[0], i) {
      k := MissingSays(specs[1..], i, used);
    } else if used < |i.positionals| && i.positionals[used] != "" {
      k := MissingSays(specs[1..], i, used + 1);
      assert Open(specs, i)[k + 1] == Open(specs[1..], i)[k];
      k := k + 1;
    } else {
      k := 0;
    }
  }

  /** `flags verify` takes exactly one real token, whatever the body says. */
  lemma VerifyTakesOneToken(c: Command, i: Invocation)
    requires c.kind == FlagsVerify
    ensures Gate(c, i).Accepted? <==> |i.positionals| == 1 && i.positionals[0] != ""
  {}
}
