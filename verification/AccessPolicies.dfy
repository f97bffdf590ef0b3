/** The access decision of pyqgiswps/accesspolicy.py on the definitions gathered
    by the lizmap policy manager, and the two objects that hold the state. */
module AccessPolicies {
  import opened Wrappers
  import opened PolicyIndex
  import Text

  datatype PolicyError = InvalidPolicyError

  /** A false value is passed over; "all" stands for any identifier. */
  function Validated(p: Patterns): Result<seq<string>, PolicyError> {
    match p
    case Absent => Ok([])
    case One(pattern) => Ok(if pattern == "" then [] else if pattern == "all" then ["*"] else [pattern])
    case Many(patterns) => Ok(patterns)
    case Invalid => Err(InvalidPolicyError)
  }

  datatype Access = Access(allow: seq<string>, deny: seq<string>)

  function AddDef(a: Access, d: Def): Result<Access, PolicyError> {
    match (Validated(d.allow), Validated(d.deny))
    case (Ok(allow), Ok(deny)) => Ok(Access(a.allow + allow, a.deny + deny))
    case _ => Err(InvalidPolicyError)
  }

  /** The loop of the middleware over the definitions. */
  function AddDefs(a: Access, defs: seq<Def>): Result<Access, PolicyError> {
    if defs == [] then Ok(a)
    else match AddDefs(a, defs[..|defs| - 1])
         case Ok(b) => AddDef(b, defs[|defs| - 1])
         case Err(e) => Err(e)
  }

  predicate Matches(glob: Glob, ident: string, patterns: seq<string>) {
    exists p :: p in patterns && glob(ident, p)
  }

  function Decide(glob: Glob, default: Access, child: Access, ident: string): bool {
    Matches(glob, ident, default.allow + child.allow) || !Matches(glob, ident, default.deny + child.deny)
  }

  function Decision(glob: Glob, default: Access, defs: seq<Def>, ident: string): Result<bool, PolicyError> {
    match AddDefs(Access([], []), defs)
    case Ok(child) => Ok(Decide(glob, default, child, ident))
    case Err(e) => Err(e)
  }

  // ---- What the decision says about the rules --------------------------

  predicate Malformed(r: Rule) {
    r.allow == Invalid || r.deny == Invalid
  }

  predicate Allows(glob: Glob, r: Rule, ident: string) {
    Validated(r.allow).Ok? && Matches(glob, ident, Validated(r.allow).value)
  }

  predicate Denies(glob: Glob, r: Rule, ident: string) {
    Validated(r.deny).Ok? && Matches(glob, ident, Validated(r.deny).value)
  }

  ghost predicate SomeMalformed(glob: Glob, rules: seq<Rule>, request: Request) {
    exists r :: r in rules && Applies(glob, r, request) && Malformed(r)
  }

  ghost predicate SomeAllows(glob: Glob, rules: seq<Rule>, request: Request, ident: string) {
    exists r :: r in rules && Applies(glob, r, request) && Allows(glob, r, ident)
  }

  ghost predicate SomeDenies(glob: Glob, rules: seq<Rule>, request: Request, ident: string) {
    exists r :: r in rules && Applies(glob, r, request) && Denies(glob, r, ident)
  }

  /** What each kind of value stands for. */
  ghost predicate Covers(glob: Glob, p: Patterns, ident: string) {
    match p
    case One(pattern) => pattern != "" && glob(ident, if pattern == "all" then "*" else pattern)
    case Many(patterns) => exists q :: q in patterns && glob(ident, q)
    case Absent => false
    case Invalid => false
  }

  lemma AllowsBy(glob: Glob, r: Rule, ident: string)
    ensures Allows(glob, r, ident) <==> Covers(glob, r.allow, ident)
    ensures Denies(glob, r, ident) <==> Covers(glob, r.deny, ident)
  {
    CoversBy(glob, r.allow, ident);
    CoversBy(glob, r.deny, ident);
    hide Covers, Validated;
  }

  lemma CoversBy(glob: Glob, p: Patterns, ident: string)
    ensures Validated(p).Ok? <==> p != Invalid
    ensures Validated(p).Ok? && Matches(glob, ident, Validated(p).value) <==> Covers(glob, p, ident)
  {
    match p
    case One(pattern) => assert [pattern][0] == pattern && ["*"][0] == "*";
    case _ =>
  }

  lemma {:induction false} AddDefsFail(defs: seq<Def>)
    ensures AddDefs(Access([], []), defs).Err? <==> exists d :: d in defs && (d.allow == Invalid || d.deny == Invalid)
    ensures AddDefs(Access([], []), defs).Err? ==> AddDefs(Access([], []), defs) == Err(InvalidPolicyError)
    decreases |defs|
  {
    if defs != [] {
      AddDefsFail(defs[..|defs| - 1]);
      assert defs == defs[..|defs| - 1] + [defs[|defs| - 1]];
    }
  }

  lemma {:induction false} AddDefsFinds(defs: seq<Def>, p: string)
    requires AddDefs(Access([], []), defs).Ok?
    ensures p in AddDefs(Access([], []), defs).value.allow <==>
      exists d :: d in defs && Validated(d.allow).Ok? && p in Validated(d.allow).value
    ensures p in AddDefs(Access([], []), defs).value.deny <==>
      exists d :: d in defs && Validated(d.deny).Ok? && p in Validated(d.deny).value
    decreases |defs|
  {
    if defs != [] {
      AddDefsFinds(defs[..|defs| - 1], p);
      assert defs == defs[..|defs| - 1] + [defs[|defs| - 1]];
    }
  }

  lemma ChildAllows(glob: Glob, rules: seq<Rule>, request: Request, ident: string)
    requires AddDefs(Access([], []), Gathered(glob, rules, request)).Ok?
    ensures Matches(glob, ident, AddDefs(Access([], []), Gathered(glob, rules, request)).value.allow)
       <==> SomeAllows(glob, rules, request, ident)
  {
    hide Gathered, AddDefs, Applies, Validated;
    var defs := Gathered(glob, rules, request);
    var allow := AddDefs(Access([], []), defs).value.allow;
    if p :| p in allow && glob(ident, p) {
      AddDefsFinds(defs, p);
      var d :| d in defs && Validated(d.allow).Ok? && p in Validated(d.allow).value;
      IndexIsScan(glob, rules, request, d);
      var r :| r in rules && Applies(glob, r, request) && From(r, d);
      assert Allows(glob, r, ident);
    }
    if r :| r in rules && Applies(glob, r, request) && Allows(glob, r, ident) {
      var p :| p in Validated(r.allow).value && glob(ident, p);
      var d := Def(r.deny, r.allow);
      assert From(r, d);
      IndexIsScan(glob, rules, request, d);
      AddDefsFinds(defs, p);
      assert p in allow && glob(ident, p);
    }
  }

  lemma ChildDenies(glob: Glob, rules: seq<Rule>, request: Request, ident: string)
    requires AddDefs(Access([], []), Gathered(glob, rules, request)).Ok?
    ensures Matches(glob, ident, AddDefs(Access([], []), Gathered(glob, rules, request)).value.deny)
       <==> SomeDenies(glob, rules, request, ident)
  {
    hide Gathered, AddDefs, Applies, Validated;
    var defs := Gathered(glob, rules, request);
    var deny := AddDefs(Access([], []), defs).value.deny;
    if p :| p in deny && glob(ident, p) {
      AddDefsFinds(defs, p);
      var d :| d in defs && Validated(d.deny).Ok? && p in Validated(d.deny).value;
      IndexIsScan(glob, rules, request, d);
      var r :| r in rules && Applies(glob, r, request) && From(r, d);
      assert Denies(glob, r, ident);
    }
    if r :| r in rules && Applies(glob, r, request) && Denies(glob, r, ident) {
      var p :| p in Validated(r.deny).value && glob(ident, p);
      var d := Def(r.deny, r.allow);
      assert From(r, d);
      IndexIsScan(glob, rules, request, d);
      AddDefsFinds(defs, p);
      assert p in deny && glob(ident, p);
    }
  }

  lemma MatchesAppend(glob: Glob, ident: string, a: seq<string>, b: seq<string>)
    ensures Matches(glob, ident, a + b) <==> Matches(glob, ident, a) || Matches(glob, ident, b)
  {
    if p :| p in a && glob(ident, p) { assert p in a + b; }
    if p :| p in b && glob(ident, p) { assert p in a + b; }
  }

  /** The decision through the index, stated on the rules: a malformed rule that
      applies fails the request, an allowing rule wins over denying ones, and
      with neither the process is allowed. */
  lemma DecisionByRules(glob: Glob, default: Access, rules: seq<Rule>, request: Request, ident: string)
    ensures Decision(glob, default, Gathered(glob, rules, request), ident) ==
      if SomeMalformed(glob, rules, request) then Err(InvalidPolicyError)
      else Ok(Matches(glob, ident, default.allow) || SomeAllows(glob, rules, request, ident)
              || !(Matches(glob, ident, default.deny) || SomeDenies(glob, rules, request, ident)))
  {
    hide Gathered, AddDefs, Applies, Matches, SomeAllows, SomeDenies;
    var defs := Gathered(glob, rules, request);
    AddDefsFail(defs);
    if d :| d in defs && (d.allow == Invalid || d.deny == Invalid) {
      IndexIsScan(glob, rules, request, d);
    }
    if r :| r in rules && Applies(glob, r, request) && Malformed(r) {
      assert From(r, Def(r.deny, r.allow));
      IndexIsScan(glob, rules, request, Def(r.deny, r.allow));
    }
    if AddDefs(Access([], []), defs).Ok? {
      var child := AddDefs(Access([], []), defs).value;
      ChildAllows(glob, rules, request, ident);
      ChildDenies(glob, rules, request, ident);
      MatchesAppend(glob, ident, default.allow, child.allow);
      MatchesAppend(glob, ident, default.deny, child.deny);
      assert !SomeMalformed(glob, rules, request);
      assert Decision(glob, default, defs, ident) == Ok(Decide(glob, default, child, ident));
    } else {
      assert SomeMalformed(glob, rules, request);
    }
  }

  /** Neither the order of the rules nor repeated ones change the decision. */
  lemma OrderFree(glob: Glob, default: Access, a: seq<Rule>, b: seq<Rule>, request: Request, ident: string)
    requires forall r :: r in a <==> r in b
    ensures Decision(glob, default, Gathered(glob, a, request), ident)
         == Decision(glob, default, Gathered(glob, b, request), ident)
  {
    hide Gathered, Decision, Applies, Malformed, Allows, Denies;
    DecisionByRules(glob, default, a, request, ident);
    DecisionByRules(glob, default, b, request, ident);
  }

  /** An applying rule that allows "all" opens everything; one that denies "all"
      closes what nothing allows. */
  lemma AllOpensOrCloses(glob: Glob, default: Access, rules: seq<Rule>, request: Request, ident: string, r: Rule)
    requires r in rules && Applies(glob, r, request) && !SomeMalformed(glob, rules, request)
    requires glob(ident, "*")
    ensures r.allow == One("all") ==> Decision(glob, default, Gathered(glob, rules, request), ident) == Ok(true)
    ensures r.deny == One("all") ==>
      Decision(glob, default, Gathered(glob, rules, request), ident)
      == Ok(Matches(glob, ident, default.allow) || SomeAllows(glob, rules, request, ident))
  {
    DecisionByRules(glob, default, rules, request, ident);
    hide Applies, Decision, Gathered, SomeMalformed;
    assert "*" in ["*"];
    assert r.allow == One("all") ==> Allows(glob, r, ident);
    assert r.deny == One("all") ==> Denies(glob, r, ident);
  }

  /** One rule for everybody that denies "all" and allows a single pattern opens
      what the pattern matches, and what the default policy allows. */
  lemma OnlyPatternOpens(glob: Glob, default: Access, r: Rule, request: Request, ident: string, pattern: string)
    requires r.users == [] && r.groups == [] && r.maps == []
    requires r.deny == One("all") && r.allow == One(pattern) && glob(ident, "*")
    ensures Decision(glob, default, Gathered(glob, [r], request), ident) ==
      Ok((exists d :: d in default.allow && glob(ident, d))
         || (pattern != "" && glob(ident, if pattern == "all" then "*" else pattern)))
  {
    assert Applies(glob, r, request);
    SingleRule(glob, r, request, ident);
    DecisionByRules(glob, default, [r], request, ident);
    MatchesIff(glob, ident, default.allow);
    hide Gathered, Decision, Applies, Matches, SomeAllows, SomeDenies, SomeMalformed;
  }

  lemma SingleRule(glob: Glob, r: Rule, request: Request, ident: string)
    requires Applies(glob, r, request)
    ensures SomeMalformed(glob, [r], request) <==> r.allow == Invalid || r.deny == Invalid
    ensures SomeAllows(glob, [r], request, ident) <==> Covers(glob, r.allow, ident)
    ensures SomeDenies(glob, [r], request, ident) <==> Covers(glob, r.deny, ident)
  {
    AllowsBy(glob, r, ident);
    hide Covers, Allows, Denies, Applies;
    var rules := [r];
    assert rules[0] == r && forall q :: q in rules <==> q == r;
  }

  lemma MatchesIff(glob: Glob, ident: string, patterns: seq<string>)
    ensures Matches(glob, ident, patterns) <==> exists p :: p in patterns && glob(ident, p)
  {}

  // ---- The two objects -------------------------------------------------

  class PolicyManager {
    var rules: Index

    /** The rules were filed in the order given. */
    ghost predicate Holds(policies: seq<Rule>)
      reads this
    {
      rules == BuildIndex(policies)
    }

    constructor (policies: seq<Rule>)
      ensures Holds(policies)
    {
      rules := map[];
      new;
      ParsePolicy(policies);
    }

    method ParsePolicy(policies: seq<Rule>)
      modifies this
      ensures Holds(policies)
    {
      var index: Index := map[GROUP_ALL := []];
      for i := 0 to |policies|
        invariant index == BuildIndex(policies[..i])
        invariant GROUP_ALL in index
      {
        var ac := policies[i];
        assert policies[..i + 1][..i] == policies[..i];
        if ac.users == [] && ac.groups == [] {
          FileOnce(index, ac);
          index := index[GROUP_ALL := index[GROUP_ALL] + [ac]];
        } else {
          index := AppendTo(index, Chain(ac), ac);
        }
      }
      assert policies[..|policies|] == policies;
      rules := index;
    }

    /** The inner loop: the rule goes to the end of every list of its chain. */
    static method AppendTo(before: Index, chain: seq<string>, ac: Rule) returns (index: Index)
      requires GROUP_ALL in before
      ensures index == FileAll(before, chain, ac) && GROUP_ALL in index
    {
      index := before;
      for j := 0 to |chain|
        invariant index == FileAll(before, chain[..j], ac)
        invariant GROUP_ALL in index
      {
        assert chain[..j + 1][..j] == chain[..j];
        var r := if chain[j] in index then index[chain[j]] else [];
        index := index[chain[j] := r + [ac]];
      }
      assert chain[..|chain|] == chain;
    }

    method AddPolicyFor(glob: Glob, name: string, request: Request) returns (defs: seq<Def>)
      ensures defs == Select(glob, At(rules, name), request)
    {
      var found := if name in rules then rules[name] else [];
      defs := [];
      for i := 0 to |found|
        invariant defs == Select(glob, found[..i], request)
      {
        assert found[..i + 1][..i] == found[..i];
        var rule := found[i];
        if rule.maps != [] {
          if request.maps == [] { continue; }
          var test := request.maps[|request.maps| - 1];
          if !(exists m :: m in rule.maps && glob(test, m)) { continue; }
        }
        defs := defs + [Def(rule.deny, rule.allow)];
      }
      assert found[..|found|] == found;
    }

    /** What is gathered for a request is what the plain scan of the rules finds. */
    method AddPolicy(glob: Glob, ghost filed: seq<Rule>, request: Request) returns (policies: seq<Def>)
      requires Holds(filed)
      ensures policies == Gathered(glob, filed, request)
      ensures IsScan(glob, filed, request, policies)
    {
      hide Text.Strip, Text.Split, Select, SelectAll, BuildIndex, At, GroupKeys, IsScan;
      SelectNone(glob, rules, request);
      GroupKeysAre(request);
      policies := [];
      ghost var keys: seq<string> := [];
      if request.user.Some? && request.user.value != "" {
        var found := AddPolicyFor(glob, "u__" + request.user.value, request);
        Extend(glob, rules, keys, "u__" + request.user.value, request);
        policies := policies + found;
        keys := keys + ["u__" + request.user.value];
      }
      if request.groups.Some? && request.groups.value != "" {
        ghost var start := keys;
        var groups := Text.Split(request.groups.value, ',');
        for i := 0 to |groups|
          invariant keys == start + GroupKeys(request)[..i]
          invariant policies == SelectAll(glob, rules, keys, request)
        {
          var key := "g__" + Text.Strip(groups[i]);
          var found := AddPolicyFor(glob, key, request);
          Extend(glob, rules, keys, key, request);
          policies := policies + found;
          keys := keys + [key];
          assert GroupKeys(request)[..i + 1] == GroupKeys(request)[..i] + [key];
        }
      }
      var found := AddPolicyFor(glob, GROUP_ALL, request);
      Extend(glob, rules, keys, GROUP_ALL, request);
      policies := policies + found;
      assert keys + [GROUP_ALL] == RequestKeys(request);
      GatheredIsScan(glob, filed, request);
    }
  }

  lemma FileOnce(index: Index, rule: Rule)
    requires Global(rule)
    ensures FileAll(index, Chain(rule), rule) == File(index, GROUP_ALL, rule)
  {
    assert FileAll(index, [], rule) == index;
  }

  lemma SelectNone(glob: Glob, index: Index, request: Request)
    ensures SelectAll(glob, index, [], request) == []
  {}

  lemma GroupKeysAre(request: Request)
    ensures request.groups.None? || request.groups.value == "" ==> GroupKeys(request) == []
    ensures request.groups.Some? && request.groups.value != "" ==>
      var groups := Text.Split(request.groups.value, ',');
      |GroupKeys(request)| == |groups|
      && forall i :: 0 <= i < |groups| ==> GroupKeys(request)[i] == "g__" + Text.Strip(groups[i])
  {}

  lemma Extend(glob: Glob, index: Index, keys: seq<string>, key: string, request: Request)
    ensures SelectAll(glob, index, keys + [key], request)
         == SelectAll(glob, index, keys, request) + Select(glob, At(index, key), request)
  {
    assert (keys + [key])[..|keys|] == keys;
  }

  class AccessPolicy {
    var allow: seq<string>
    var deny: seq<string>

    constructor ()
      ensures allow == [] && deny == []
    {
      allow, deny := [], [];
    }

    /** On a bad `deny` the `allow` part is already added. */
    method AddPolicy(d: Def) returns (r: Result<(), PolicyError>)
      modifies this
      ensures r.Err? <==> d.allow == Invalid || d.deny == Invalid
      ensures r.Ok? ==> AddDef(Access(old(allow), old(deny)), d) == Ok(Access(allow, deny))
      ensures d.allow.One? && d.deny.Absent? ==>
        && deny == old(deny)
        && allow == old(allow) + (if d.allow.pattern == "" then []
                                  else if d.allow.pattern == "all" then ["*"] else [d.allow.pattern])
      ensures d.allow.Many? && d.deny.Many? ==>
        allow == old(allow) + d.allow.patterns && deny == old(deny) + d.deny.patterns
      ensures r.Err? ==> deny == old(deny)
      ensures r.Err? ==> allow == old(allow) + if d.allow == Invalid then [] else Validated(d.allow).value
    {
      if d.allow.Invalid? { return Err(InvalidPolicyError); }
      allow := allow + Validated(d.allow).value;
      if d.deny.Invalid? { return Err(InvalidPolicyError); }
      deny := deny + Validated(d.deny).value;
      return Ok(());
    }

    method Allow(glob: Glob, default: Access, identifier: string) returns (r: bool)
      ensures r == Decide(glob, default, Access(allow, deny), identifier)
    {
      if exists d :: d in default.allow + allow && glob(identifier, d) {
        return true;
      }
      return !(exists d :: d in default.deny + deny && glob(identifier, d));
    }
  }

  /** The middleware: the policy of a request answers as the rules say. */
  method Authorize(glob: Glob, default: Access, manager: PolicyManager, ghost filed: seq<Rule>,
                   request: Request, identifier: string) returns (r: Result<bool, PolicyError>)
    requires manager.Holds(filed)
    ensures r ==
      if SomeMalformed(glob, filed, request) then Err(InvalidPolicyError)
      else Ok(Matches(glob, identifier, default.allow) || SomeAllows(glob, filed, request, identifier)
              || !(Matches(glob, identifier, default.deny) || SomeDenies(glob, filed, request, identifier)))
    ensures
      && (SomeAllows(glob, filed, request, identifier) <==>
            exists rule :: rule in filed && Applies(glob, rule, request) && Covers(glob, rule.allow, identifier))
      && (SomeDenies(glob, filed, request, identifier) <==>
            exists rule :: rule in filed && Applies(glob, rule, request) && Covers(glob, rule.deny, identifier))
  {
    CoveredBy(glob, filed, request, identifier);
    hide SomeMalformed, SomeAllows, SomeDenies, Matches, Gathered, Applies;
    DecisionByRules(glob, default, filed, request, identifier);
    var defs := manager.AddPolicy(glob, filed, request);
    var policy := new AccessPolicy();
    for i := 0 to |defs|
      invariant AddDefs(Access([], []), defs[..i]) == Ok(Access(policy.allow, policy.deny))
    {
      AddDefsStep(defs, i);
      var added := policy.AddPolicy(defs[i]);
      if added.Err? {
        AddDefsFail(defs);
        return Err(InvalidPolicyError);
      }
    }
    assert defs[..|defs|] == defs;
    var allowed := policy.Allow(glob, default, identifier);
    return Ok(allowed);
  }

  lemma CoveredBy(glob: Glob, rules: seq<Rule>, request: Request, ident: string)
    ensures SomeAllows(glob, rules, request, ident) <==>
      exists r :: r in rules && Applies(glob, r, request) && Covers(glob, r.allow, ident)
    ensures SomeDenies(glob, rules, request, ident) <==>
      exists r :: r in rules && Applies(glob, r, request) && Covers(glob, r.deny, ident)
  {
    forall r | r in rules
      ensures Allows(glob, r, ident) <==> Covers(glob, r.allow, ident)
      ensures Denies(glob, r, ident) <==> Covers(glob, r.deny, ident)
    {
      AllowsBy(glob, r, ident);
    }
    hide Applies, Allows, Denies, Covers;
  }

  lemma AddDefsStep(defs: seq<Def>, i: nat)
    requires i < |defs|
    ensures AddDefs(Access([], []), defs[..i + 1]) ==
      match AddDefs(Access([], []), defs[..i]) case Ok(b) => AddDef(b, defs[i]) case Err(e) => Err(e)
  {
    assert defs[..i + 1][..i] == defs[..i];
  }
}
