/** The user and group index of pyqgisservercontrib/lizmapacl/filters.py and the
    decision it feeds in pyqgiswps/accesspolicy.py. `glob` is `Path.match`. */
module PolicyIndex {
  import opened Wrappers
  import opened Text

  type Glob = (string, string) -> bool

  /** An `allow` or `deny` value; `Absent` is any false value, `Invalid` a true
      one that is neither a string nor a list of strings. */
  datatype Patterns = Absent | One(pattern: string) | Many(patterns: seq<string>) | Invalid

  /** A `users`, `groups` or `maps` value of the configuration. */
  datatype Names = Text(text: string) | Listed(items: seq<string>) | Other

  datatype Rule = Rule(allow: Patterns, deny: Patterns, groups: seq<string>, users: seq<string>, maps: seq<string>)

  datatype Def = Def(deny: Patterns, allow: Patterns)

  /** `user` and `groups` are headers, `maps` the values of the MAP argument. */
  datatype Request = Request(user: Option<string>, groups: Option<string>, maps: seq<string>)

  type Index = map<string, seq<Rule>>

  function ToList(names: Names): Result<seq<string>, string> {
    match names
    case Listed(items) => Ok(items)
    case Text(text) => Ok(Split(text, ','))
    case Other => Err("Expecting 'list'")
  }

  function NewRule(allow: Patterns, deny: Patterns, groups: Names, users: Names, maps: Names): Result<Rule, string> {
    if ToList(groups).Err? then Err(ToList(groups).error)
    else if ToList(users).Err? then Err(ToList(users).error)
    else if ToList(maps).Err? then Err(ToList(maps).error)
    else Ok(Rule(allow, deny, ToList(groups).value, ToList(users).value, ToList(maps).value))
  }

  // ---- The plain scan --------------------------------------------------

  predicate Global(rule: Rule) {
    rule.users == [] && rule.groups == []
  }

  /** The rule names the user, one of the user's groups, or the group "all"
      that every request belongs to; or it names nobody. */
  predicate Addressed(rule: Rule, request: Request) {
    || Global(rule)
    || "all" in rule.groups
    || (request.user.Some? && request.user.value != "" && request.user.value in rule.users)
    || (request.groups.Some? && request.groups.value != ""
        && exists g :: g in Split(request.groups.value, ',') && Strip(g) in rule.groups)
  }

  predicate OnMap(glob: Glob, rule: Rule, request: Request) {
    rule.maps == []
    || (request.maps != [] && exists m :: m in rule.maps && glob(request.maps[|request.maps| - 1], m))
  }

  predicate Applies(glob: Glob, rule: Rule, request: Request) {
    Addressed(rule, request) && OnMap(glob, rule, request)
  }

  /** A rule is global only when both lists are left out or empty: an empty
      string is a list of one empty name. */
  lemma ConfiguredRule(allow: Patterns, deny: Patterns, groups: Names, users: Names, maps: Names)
    ensures
      var r := NewRule(allow, deny, groups, users, maps);
      && (r.Err? <==> groups.Other? || users.Other? || maps.Other?)
      && (r.Ok? ==>
            && (Global(r.value) <==> groups == Listed([]) && users == Listed([]))
            && r.value.allow == allow && r.value.deny == deny
            && NamesAre(groups, r.value.groups) && NamesAre(users, r.value.users) && NamesAre(maps, r.value.maps))
  {
    forall t: string ensures Split(t, ',') != [] && AllFree(Split(t, ','), ',') && Join(Split(t, ','), ',') == t {
      JoinOfSplit(t, ',');
    }
  }

  /** A list is taken as it is, a string is cut at its commas. */
  predicate NamesAre(names: Names, items: seq<string>) {
    match names
    case Listed(list) => items == list
    case Text(text) => items != [] && AllFree(items, ',') && Join(items, ',') == text
    case Other => false
  }

  /** Whom a rule addresses, the header being the names of the user's groups with
      commas between and spaces around. */
  lemma AddressedBy(rule: Rule, request: Request, names: seq<string>)
    requires names != [] && AllFree(names, ',') && request.groups == Some(Join(names, ','))
    requires Join(names, ',') != ""
    ensures Addressed(rule, request) <==>
      || (rule.users == [] && rule.groups == []) || "all" in rule.groups
      || (exists i :: 0 <= i < |names| && Strip(names[i]) in rule.groups)
      || (request.user.Some? && request.user.value != "" && request.user.value in rule.users)
  {
    hide Strip, Split, Join;
    SplitOfJoin(names, ',');
    assert forall g :: g in names <==> exists i :: 0 <= i < |names| && names[i] == g;
  }

  /** With no group header, or an empty one, only the user counts. */
  lemma AddressedAlone(rule: Rule, request: Request)
    requires request.groups.None? || request.groups.value == ""
    ensures Addressed(rule, request) <==>
      || (rule.users == [] && rule.groups == []) || "all" in rule.groups
      || (request.user.Some? && request.user.value != "" && request.user.value in rule.users)
  {}

  /** A rule bound to maps holds on the last MAP value only, and without one not. */
  lemma OnMapBy(glob: Glob, rule: Rule, request: Request, others: seq<string>, last: string)
    ensures rule.maps == [] ==> OnMap(glob, rule, request)
    ensures rule.maps != [] && request.maps == [] ==> !OnMap(glob, rule, request)
    ensures rule.maps != [] && request.maps == others + [last] ==>
      (OnMap(glob, rule, request) <==> exists m :: m in rule.maps && glob(last, m))
  {}

  // ---- The index -------------------------------------------------------

  const GROUP_ALL := "g__all"

  function Prefixed(prefix: string, names: seq<string>): seq<string> {
    seq(|names|, i requires 0 <= i < |names| => prefix + names[i])
  }

  /** The keys a rule is filed under, in the order of the chain. */
  function Chain(rule: Rule): seq<string> {
    if Global(rule) then [GROUP_ALL] else Prefixed("u__", rule.users) + Prefixed("g__", rule.groups)
  }

  function File(index: Index, key: string, rule: Rule): Index {
    index[key := (if key in index then index[key] else []) + [rule]]
  }

  function FileAll(index: Index, keys: seq<string>, rule: Rule): Index {
    if keys == [] then index else File(FileAll(index, keys[..|keys| - 1], rule), keys[|keys| - 1], rule)
  }

  function BuildIndex(rules: seq<Rule>): Index {
    if rules == [] then map[GROUP_ALL := []]
    else FileAll(BuildIndex(rules[..|rules| - 1]), Chain(rules[|rules| - 1]), rules[|rules| - 1])
  }

  function At(index: Index, key: string): seq<Rule> {
    if key in index then index[key] else []
  }

  lemma {:induction false} FileAllFinds(index: Index, keys: seq<string>, rule: Rule, key: string, r: Rule)
    ensures r in At(FileAll(index, keys, rule), key) <==> r in At(index, key) || (r == rule && key in keys)
    decreases |keys|
  {
    if keys != [] {
      FileAllFinds(index, keys[..|keys| - 1], rule, key, r);
      assert keys == keys[..|keys| - 1] + [keys[|keys| - 1]];
    }
  }

  /** A key leads to exactly the rules filed under it. */
  lemma {:induction false} IndexFinds(rules: seq<Rule>, key: string, r: Rule)
    ensures r in At(BuildIndex(rules), key) <==> r in rules && key in Chain(r)
    decreases |rules|
  {
    if rules != [] {
      var rest, last := rules[..|rules| - 1], rules[|rules| - 1];
      IndexFinds(rest, key, r);
      FileAllFinds(BuildIndex(rest), Chain(last), last, key, r);
      assert rules == rest + [last];
      hide BuildIndex, FileAll, Chain;
      assert r in rules <==> r in rest || r == last;
    }
  }

  /** A new rule goes to the end of the lists of its chain, once for each time it
      names the key. */
  lemma FiledLast(rules: seq<Rule>, r: Rule, key: string)
    ensures
      var before, after := At(BuildIndex(rules), key), At(BuildIndex(rules + [r]), key);
      && before <= after && |after| == |before| + multiset(Chain(r))[key]
      && forall i :: |before| <= i < |after| ==> after[i] == r
  {
    assert (rules + [r])[..|rules|] == rules;
    FileAllLast(BuildIndex(rules), Chain(r), r, key);
    hide Chain;
  }

  lemma {:induction false} FileAllLast(index: Index, keys: seq<string>, r: Rule, key: string)
    ensures
      var before, after := At(index, key), At(FileAll(index, keys, r), key);
      && before <= after && |after| == |before| + multiset(keys)[key]
      && forall i :: |before| <= i < |after| ==> after[i] == r
    decreases |keys|
  {
    if keys != [] {
      FileAllLast(index, keys[..|keys| - 1], r, key);
      assert keys == keys[..|keys| - 1] + [keys[|keys| - 1]];
    }
  }

  // ---- Gathering -------------------------------------------------------

  function Select(glob: Glob, rules: seq<Rule>, request: Request): seq<Def> {
    if rules == [] then []
    else
      var last := rules[|rules| - 1];
      Select(glob, rules[..|rules| - 1], request)
      + (if OnMap(glob, last, request) then [Def(last.deny, last.allow)] else [])
  }

  function GroupKeys(request: Request): seq<string> {
    if request.groups.None? || request.groups.value == "" then []
    else
      var groups := Split(request.groups.value, ',');
      seq(|groups|, i requires 0 <= i < |groups| => "g__" + Strip(groups[i]))
  }

  function RequestKeys(request: Request): seq<string> {
    (if request.user.Some? && request.user.value != "" then ["u__" + request.user.value] else [])
    + GroupKeys(request) + [GROUP_ALL]
  }

  function SelectAll(glob: Glob, index: Index, keys: seq<string>, request: Request): seq<Def> {
    if keys == [] then []
    else SelectAll(glob, index, keys[..|keys| - 1], request) + Select(glob, At(index, keys[|keys| - 1]), request)
  }

  ghost predicate From(r: Rule, d: Def) {
    d == Def(r.deny, r.allow)
  }

  lemma {:induction false} SelectFinds(glob: Glob, rules: seq<Rule>, request: Request, d: Def)
    ensures d in Select(glob, rules, request) <==> exists r :: r in rules && OnMap(glob, r, request) && From(r, d)
    decreases |rules|
  {
    if rules != [] {
      var rest, last := rules[..|rules| - 1], rules[|rules| - 1];
      SelectFinds(glob, rest, request, d);
      assert rules == rest + [last];
      assert From(last, Def(last.deny, last.allow));
    }
  }

  lemma {:induction false} SelectAllFinds(glob: Glob, index: Index, keys: seq<string>, request: Request, d: Def)
    ensures d in SelectAll(glob, index, keys, request) <==>
      exists k, r :: k in keys && r in At(index, k) && OnMap(glob, r, request) && From(r, d)
    decreases |keys|
  {
    if keys != [] {
      var rest, last := keys[..|keys| - 1], keys[|keys| - 1];
      SelectAllFinds(glob, index, rest, request, d);
      SelectFinds(glob, At(index, last), request, d);
      assert keys == rest + [last];
    }
  }

  /** A rule is found under one of the request's keys exactly when the plain scan
      finds it addressed. */
  lemma KeysMeet(rule: Rule, request: Request)
    ensures (exists k :: k in RequestKeys(request) && k in Chain(rule)) <==> Addressed(rule, request)
  {
    hide Strip, Split;
    if Addressed(rule, request) {
      var k := MeetingKey(rule, request);
    } else if k :| k in RequestKeys(request) && k in Chain(rule) {
      KeyAddresses(rule, request, k);
    }
  }

  /** The names of a configured string are not stripped while those of the header
      are: a configured group with spaces around it is met by no request. A rule
      holds as if it were left out, except that leaving out the last name would
      make the rule global. */
  lemma SpacedGroupIsDead(rule: Rule, before: seq<string>, spaced: string, after: seq<string>, request: Request)
    requires rule.groups == before + [spaced] + after && Strip(spaced) != spaced
    ensures
      var others := rule.(groups := before + after);
      Addressed(rule, request) <==> !Global(others) && Addressed(others, request)
  {
    var all := "all";
    forall g: string ensures Strip(g) != spaced {
      StripIdempotent(g);
    }
    assert Strip(all) == all;
    assert forall g :: g in rule.groups <==> g in before + after || g == spaced;
    hide Strip, Split;
  }

  lemma PrefixedHas(prefix: string, names: seq<string>, name: string)
    ensures prefix + name in Prefixed(prefix, names) <==> name in names
  {
    if name in names {
      var i :| 0 <= i < |names| && names[i] == name;
      assert Prefixed(prefix, names)[i] == prefix + name;
    }
    if prefix + name in Prefixed(prefix, names) {
      var i :| 0 <= i < |names| && Prefixed(prefix, names)[i] == prefix + name;
      assert (prefix + names[i])[|prefix|..] == names[i] && (prefix + name)[|prefix|..] == name;
    }
  }

  lemma MeetingKey(rule: Rule, request: Request) returns (k: string)
    requires Addressed(rule, request)
    ensures k in RequestKeys(request) && k in Chain(rule)
  {
    hide Strip, Split;
    if Global(rule) {
      k := GROUP_ALL;
    } else if "all" in rule.groups {
      k := GROUP_ALL;
      PrefixedHas("g__", rule.groups, "all");
      assert "g__" + "all" == GROUP_ALL;
    } else if request.user.Some? && request.user.value != "" && request.user.value in rule.users {
      k := "u__" + request.user.value;
      PrefixedHas("u__", rule.users, request.user.value);
    } else {
      var groups := Split(request.groups.value, ',');
      var i :| 0 <= i < |groups| && Strip(groups[i]) in rule.groups;
      k := "g__" + Strip(groups[i]);
      PrefixedHas("g__", rule.groups, Strip(groups[i]));
      assert GroupKeys(request)[i] == k;
    }
  }

  lemma KeyAddresses(rule: Rule, request: Request, k: string)
    requires k in RequestKeys(request) && k in Chain(rule)
    ensures Addressed(rule, request)
  {
    hide Strip, Split;
    if !Global(rule) {
      if k[0] == 'u' {
        var user := request.user.value;
        assert k == "u__" + user;
        PrefixedHas("u__", rule.users, user);
      } else if k == GROUP_ALL && k !in GroupKeys(request) {
        assert k == "g__" + "all";
        PrefixedHas("g__", rule.groups, "all");
      } else {
        var groups := Split(request.groups.value, ',');
        var i :| 0 <= i < |groups| && GroupKeys(request)[i] == k;
        PrefixedHas("g__", rule.groups, Strip(groups[i]));
      }
    }
  }

  function Gathered(glob: Glob, rules: seq<Rule>, request: Request): seq<Def> {
    SelectAll(glob, BuildIndex(rules), RequestKeys(request), request)
  }

  /** The definitions found through the index are those of the rules that apply. */
  lemma IndexIsScan(glob: Glob, rules: seq<Rule>, request: Request, d: Def)
    ensures d in Gathered(glob, rules, request) <==>
      exists r :: r in rules && Applies(glob, r, request) && From(r, d)
  {
    hide From, OnMap, Chain, RequestKeys, BuildIndex, Addressed;
    SelectAllFinds(glob, BuildIndex(rules), RequestKeys(request), request, d);
    if r :| r in rules && Applies(glob, r, request) && From(r, d) {
      KeysMeet(r, request);
      var k :| k in RequestKeys(request) && k in Chain(r);
      IndexFinds(rules, k, r);
    }
    if k, r :| k in RequestKeys(request) && r in At(BuildIndex(rules), k) && OnMap(glob, r, request) && From(r, d) {
      IndexFinds(rules, k, r);
      KeysMeet(r, request);
    }
  }

  /** The definitions are those the plain scan of the rules finds. */
  ghost predicate IsScan(glob: Glob, rules: seq<Rule>, request: Request, defs: seq<Def>) {
    forall d :: d in defs <==> exists r :: r in rules && Applies(glob, r, request) && From(r, d)
  }

  lemma GatheredIsScan(glob: Glob, rules: seq<Rule>, request: Request)
    ensures IsScan(glob, rules, request, Gathered(glob, rules, request))
  {
    forall d
      ensures d in Gathered(glob, rules, request) <==> exists r :: r in rules && Applies(glob, r, request) && From(r, d)
    {
      IndexIsScan(glob, rules, request, d);
    }
  }
}
