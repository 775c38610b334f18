/** The least-privilege delegation token of token.go: a table from
    "action.relation.scope" keys to allow (true) or ban (false), written by
    ten builders and read by `Delegate`, which probes nine wildcard keys. */
module Token {
  import opened Wrappers
  import opened Names
  import opened Levels
  import opened Priv

  /** A rule key, `strings.Join([]string{act, rel, scope}, ".")`; an empty
      part is a wildcard. */
  function RuleKey(act: string, rel: string, scope: string): string {
    act + "." + rel + "." + scope
  }

  /** The nine keys `Delegate` probes, in its order (token.go:98-113): the
      action, the relation and the resource's or its context's name, with the
      action, the relation or both left empty, and the action alone. */
  function CandidateKeys(act: string, rel: string, rsrName: string, ctxName: string): (keys: seq<string>)
    ensures |keys| == 9
  {
    [RuleKey(act, rel, rsrName), RuleKey(act, rel, ctxName),
     RuleKey("", rel, rsrName), RuleKey("", rel, ctxName),
     RuleKey(act, "", rsrName), RuleKey(act, "", ctxName),
     RuleKey("", "", rsrName), RuleKey("", "", ctxName),
     RuleKey(act, "", "")]
  }

  /** The candidate keys for a relation, a resource and an action path. */
  function KeysFor(relation: string, resource: Resource, action: seq<string>): seq<string> {
    CandidateKeys(Join(action, "_"), relation, NameOf(resource.self), NameOf(resource.context))
  }

  /** The rules grant the candidate keys when at least one of them has a rule
      and none of those rules is a ban. */
  predicate Grants(rules: map<string, bool>, keys: seq<string>) {
    && (exists k :: k in keys && k in rules)
    && (forall k :: k in keys && k in rules ==> rules[k])
  }

  /** A fresh token denies everything: no rule, no grant. */
  lemma EmptyTokenDenies(keys: seq<string>)
    ensures !Grants(map[], keys)
  {
  }

  /** A ban on any candidate key vetoes, whatever allows the others hold. */
  lemma BanDominates(rules: map<string, bool>, keys: seq<string>, k: string)
    requires k in keys && k in rules && !rules[k]
    ensures !Grants(rules, keys)
  {
  }

  /** `Allow(rel, scope, act...)` grants `act` to `rel` on a resource named
      like the scope, or whose context is, unless another candidate key is
      banned. */
  lemma AllowGrants(rules: map<string, bool>, relation: string, scope: Value, resource: Resource, action: seq<string>)
    requires NameOf(scope) == NameOf(resource.self) || NameOf(scope) == NameOf(resource.context)
    requires forall k :: (k in KeysFor(relation, resource, action) && k in rules &&
                          k != RuleKey(Join(action, "_"), relation, NameOf(scope))) ==> rules[k]
    ensures Grants(rules[RuleKey(Join(action, "_"), relation, NameOf(scope)) := true], KeysFor(relation, resource, action))
  {
    var keys := KeysFor(relation, resource, action);
    var key := RuleKey(Join(action, "_"), relation, NameOf(scope));
    assert key == keys[0] || key == keys[1];
    AddedAllowGrants(rules, keys, key);
  }

  /** `AllowScope(scope)` grants every action to every relation on a resource
      named like the scope, or whose context is, unless another candidate key
      is banned. */
  lemma AllowScopeGrants(rules: map<string, bool>, relation: string, scope: Value, resource: Resource, action: seq<string>)
    requires NameOf(scope) == NameOf(resource.self) || NameOf(scope) == NameOf(resource.context)
    requires forall k :: (k in KeysFor(relation, resource, action) && k in rules &&
                          k != RuleKey("", "", NameOf(scope))) ==> rules[k]
    ensures Grants(rules[RuleKey("", "", NameOf(scope)) := true], KeysFor(relation, resource, action))
  {
    var keys := KeysFor(relation, resource, action);
    var key := RuleKey("", "", NameOf(scope));
    assert key == keys[6] || key == keys[7];
    AddedAllowGrants(rules, keys, key);
  }

  /** An allow written on one of the candidate keys grants them, provided
      no other candidate key is banned. */
  lemma AddedAllowGrants(rules: map<string, bool>, keys: seq<string>, key: string)
    requires key in keys
    requires forall k :: k in keys && k in rules && k != key ==> rules[k]
    ensures Grants(rules[key := true], keys)
  {
    var updated := rules[key := true];
    assert key in keys && key in updated;
    forall k | k in keys && k in updated
      ensures updated[k]
    {
      if k != key {
        assert k in rules;
      }
    }
  }

  /** Action segments are joined with `_`, so two segmentations with the same
      join probe the same keys. */
  lemma SegmentationInvisible(relation: string, resource: Resource, a1: seq<string>, a2: seq<string>)
    requires Join(a1, "_") == Join(a2, "_")
    ensures KeysFor(relation, resource, a1) == KeysFor(relation, resource, a2)
  {
  }

  /** A key part without the separator `.`. */
  predicate DotFree(s: string) {
    forall i :: 0 <= i < |s| ==> s[i] != '.'
  }

  /** In `x.y` with a dot-free `x`, the first dot sits right after `x`. */
  lemma FirstDot(x: string, y: string)
    requires DotFree(x)
    ensures (x + "." + y)[|x|] == '.'
    ensures forall i :: 0 <= i < |x| ==> (x + "." + y)[i] != '.'
  {
  }

  /** Two dot-separated pairs with dot-free heads are equal only part by part. */
  lemma SplitAtDot(x: string, y: string, x2: string, y2: string)
    requires DotFree(x) && DotFree(x2)
    requires x + "." + y == x2 + "." + y2
    ensures x == x2 && y == y2
  {
    var w := x + "." + y;
    FirstDot(x, y);
    FirstDot(x2, y2);
    assert |x| == |x2|;
    assert x == w[..|x|];
    assert y == w[|x| + 1..];
  }

  /** With dot-free parts, a rule key determines its action, relation and
      scope: two different triples never share a key. */
  lemma {:induction false} KeyInjective(a: string, r: string, s: string, a2: string, r2: string, s2: string)
    requires DotFree(a) && DotFree(r) && DotFree(a2) && DotFree(r2)
    ensures RuleKey(a, r, s) == RuleKey(a2, r2, s2) <==> a == a2 && r == r2 && s == s2
  {
    if RuleKey(a, r, s) == RuleKey(a2, r2, s2) {
      assert RuleKey(a, r, s) == a + "." + (r + "." + s);
      assert RuleKey(a2, r2, s2) == a2 + "." + (r2 + "." + s2);
      SplitAtDot(a, r + "." + s, a2, r2 + "." + s2);
      SplitAtDot(r, s, r2, s2);
    }
  }

  /** The source does not keep the separator out of the parts, so different
      triples can share a key: relation "b.c" on action "a" is relation "c"
      on action "a.b". */
  lemma KeyCollision()
    ensures RuleKey("a", "b.c", "d") == RuleKey("a.b", "c", "d")
  {
  }

  /** The triples behind the nine candidate keys, in the same order. */
  function CandidateTriples(act: string, rel: string, rsrName: string, ctxName: string): seq<(string, string, string)> {
    [(act, rel, rsrName), (act, rel, ctxName),
     ("", rel, rsrName), ("", rel, ctxName),
     (act, "", rsrName), (act, "", ctxName),
     ("", "", rsrName), ("", "", ctxName),
     (act, "", "")]
  }

  /** With dot-free actions and relations, a key is a candidate exactly when
      its triple is one. */
  lemma CandidateKeyIff(a: string, r: string, s: string, act: string, rel: string, rsrName: string, ctxName: string)
    requires DotFree(a) && DotFree(r) && DotFree(act) && DotFree(rel)
    ensures RuleKey(a, r, s) in CandidateKeys(act, rel, rsrName, ctxName)
            <==> (a, r, s) in CandidateTriples(act, rel, rsrName, ctxName)
  {
    var keys, triples := CandidateKeys(act, rel, rsrName, ctxName), CandidateTriples(act, rel, rsrName, ctxName);
    assert DotFree("");
    forall i | 0 <= i < 9
      ensures keys[i] == RuleKey(triples[i].0, triples[i].1, triples[i].2)
      ensures RuleKey(a, r, s) == keys[i] <==> (a, r, s) == triples[i]
    {
      KeyInjective(a, r, s, triples[i].0, triples[i].1, triples[i].2);
    }
  }

  /** A token holding one rule grants exactly when that rule is an allow on
      a candidate key. */
  lemma SingleRule(k: string, allow: bool, keys: seq<string>)
    ensures Grants(map[k := allow], keys) <==> k in keys && allow
  {
  }

  /** `LeastPrivilegeToken` (token.go:29-31). */
  class LeastPrivilegeToken {
    var rules: map<string, bool>

    /** `NewToken` (token.go:35-39): no rules, so every request is denied. */
    constructor NewToken()
      ensures rules == map[]
    {
      rules := map[];
    }

    /** `setRule` (token.go:133-139): overwrites the one key built from the
        action, the relation and the scope's name. */
    method SetRule(relation: string, scope: Value, action: seq<string>, result: bool)
      modifies this
      ensures rules == old(rules)[RuleKey(Join(action, "_"), relation, NameOf(scope)) := result]
    {
      var relName := relation;
      var scopeName := GetName(scope);
      var actName := Join(action, "_");
      rules := rules[RuleKey(actName, relName, scopeName) := result];
    }

    /** `AllowAction` (token.go:42-44). Its scope is the Go string "", named
        "string", so the key it writes is `act..string` and not the wildcard
        `act..` that `Delegate` probes. */
    method AllowAction(action: seq<string>)
      modifies this
      ensures rules == old(rules)[RuleKey(Join(action, "_"), "", "string") := true]
    {
      StringName();
      SetRule("", StringValue(""), action, true);
    }

    /** `AllowScope` (token.go:47-49). */
    method AllowScope(scope: Value)
      modifies this
      ensures rules == old(rules)[RuleKey("", "", NameOf(scope)) := true]
    {
      SetRule("", scope, [], true);
    }

    /** `AllowRelation` (token.go:52-54). */
    method AllowRelation(relation: string, scope: Value)
      modifies this
      ensures rules == old(rules)[RuleKey("", relation, NameOf(scope)) := true]
    {
      SetRule(relation, scope, [], true);
    }

    /** `AllowActionInScope` (token.go:57-59). */
    method AllowActionInScope(scope: Value, action: seq<string>)
      modifies this
      ensures rules == old(rules)[RuleKey(Join(action, "_"), "", NameOf(scope)) := true]
    {
      SetRule("", scope, action, true);
    }

    /** `Allow` (token.go:62-64). */
    method Allow(relation: string, scope: Value, action: seq<string>)
      modifies this
      ensures rules == old(rules)[RuleKey(Join(action, "_"), relation, NameOf(scope)) := true]
    {
      SetRule(relation, scope, action, true);
    }

    /** `BanAction` (token.go:67-69), with the same "string" scope as
        AllowAction. */
    method BanAction(action: seq<string>)
      modifies this
      ensures rules == old(rules)[RuleKey(Join(action, "_"), "", "string") := false]
    {
      StringName();
      SetRule("", StringValue(""), action, false);
    }

    /** `BanScope` (token.go:72-74). */
    method BanScope(scope: Value)
      modifies this
      ensures rules == old(rules)[RuleKey("", "", NameOf(scope)) := false]
    {
      SetRule("", scope, [], false);
    }

    /** `BanRelation` (token.go:77-79). */
    method BanRelation(relation: string, scope: Value)
      modifies this
      ensures rules == old(rules)[RuleKey("", relation, NameOf(scope)) := false]
    {
      SetRule(relation, scope, [], false);
    }

    /** `BanActionInScope` (token.go:82-84). */
    method BanActionInScope(scope: Value, action: seq<string>)
      modifies this
      ensures rules == old(rules)[RuleKey(Join(action, "_"), "", NameOf(scope)) := false]
    {
      SetRule("", scope, action, false);
    }

    /** `Ban` (token.go:87-89). */
    method Ban(relation: string, scope: Value, action: seq<string>)
      modifies this
      ensures rules == old(rules)[RuleKey(Join(action, "_"), relation, NameOf(scope)) := false]
    {
      SetRule(relation, scope, action, false);
    }

    /** `Delegate` (token.go:92-126): scans the nine candidate keys, returns
        false at the first ban, and otherwise allows when some key was
        present. It reads the rules and changes nothing. */
    method Delegate(relation: string, resource: Resource, action: seq<string>) returns (allowed: bool)
      ensures allowed == Grants(rules, KeysFor(relation, resource, action))
    {
      var relName := relation;
      var rsrName := GetName(resource.self);
      var ctxName := GetName(resource.context);
      var actName := Join(action, "_");
      var keys := CandidateKeys(actName, relName, rsrName, ctxName);
      var isAllow := false;
      for i := 0 to |keys|
        invariant isAllow <==> exists j :: 0 <= j < i && keys[j] in rules
        invariant forall j :: 0 <= j < i && keys[j] in rules ==> rules[keys[j]]
      {
        if keys[i] in rules {
          if !rules[keys[i]] {
            return false;
          }
          isAllow := true;
        }
      }
      return isAllow;
    }
  }

  // The token example: a user's post in a group, and tokens built for it.

  /** The access levels of a group post: members read, admins update. */
  function PostLevel(action: seq<string>): AccessLevel {
    if |action| != 1 then NotSupport
    else if action[0] == "update" then HighSecret
    else if action[0] == "read" then LowPrivate
    else NotSupport
  }

  /** A `GroupPost` owned by the user "user", in a `Group`. */
  const GroupPost: Resource :=
    Resource(Object("GroupPost", None, "post"), Object("Group", None, "group"), UserValue("user"), Simple(PostLevel))

  /** The keys probed for relation "self" asking `act` on the group post. */
  lemma PostKeys(act: string)
    ensures KeysFor("self", GroupPost, [act]) == CandidateKeys(act, "self", "group_post", "group")
  {
    GroupName();
    GroupPostName();
    assert Join([act], "_") == act;
  }

  /** The names used by the token examples hold no separator. */
  lemma ExampleNamesDotFree()
    ensures DotFree("") && DotFree("self") && DotFree("read") && DotFree("update")
  {
  }

  /** A rule allowing "read" in the group-post scope: "read" is granted,
      "update" is not. */
  lemma ReadPostGrants()
    ensures Grants(map[RuleKey("read", "", "group_post") := true], CandidateKeys("read", "self", "group_post", "group"))
    ensures !Grants(map[RuleKey("read", "", "group_post") := true], CandidateKeys("update", "self", "group_post", "group"))
  {
    ExampleNamesDotFree();
    SingleRule(RuleKey("read", "", "group_post"), true, CandidateKeys("read", "self", "group_post", "group"));
    SingleRule(RuleKey("read", "", "group_post"), true, CandidateKeys("update", "self", "group_post", "group"));
    CandidateKeyIff("read", "", "group_post", "read", "self", "group_post", "group");
    CandidateKeyIff("read", "", "group_post", "update", "self", "group_post", "group");
  }

  /** A token allowing only "read" on group posts grants "read" and not
      "update". */
  method ReadPostTokenExample() returns (update: bool, read: bool)
    ensures !update && read
  {
    GroupPostName();
    var token := new LeastPrivilegeToken.NewToken();
    token.AllowActionInScope(Object("GroupPost", None, ""), ["read"]);
    assert Join(["read"], "_") == "read";
    assert token.rules == map[RuleKey("read", "", "group_post") := true];
    PostKeys("update");
    PostKeys("read");
    ReadPostGrants();
    update := token.Delegate("self", GroupPost, ["update"]);
    read := token.Delegate("self", GroupPost, ["read"]);
  }

  /** An allow of the group scope grants any action on the group post; a
      ban on "update" in the group-post scope then vetoes "update" only. */
  lemma BanInScopeGrants()
    ensures Grants(map[RuleKey("", "", "group") := true], CandidateKeys("update", "self", "group_post", "group"))
    ensures !Grants(map[RuleKey("", "", "group") := true, RuleKey("update", "", "group_post") := false],
                    CandidateKeys("update", "self", "group_post", "group"))
    ensures Grants(map[RuleKey("", "", "group") := true, RuleKey("update", "", "group_post") := false],
                   CandidateKeys("read", "self", "group_post", "group"))
  {
    ExampleNamesDotFree();
    var update, read := CandidateKeys("update", "self", "group_post", "group"), CandidateKeys("read", "self", "group_post", "group");
    var allow, ban := RuleKey("", "", "group"), RuleKey("update", "", "group_post");
    assert update[7] == allow && read[7] == allow;
    SingleRule(allow, true, update);
    assert update[4] == ban;
    CandidateKeyIff("update", "", "group_post", "read", "self", "group_post", "group");
    assert ban !in read;
    var rules := map[allow := true, ban := false];
    KeyInjective("", "", "group", "update", "", "group_post");
    assert rules[allow];
    assert forall k :: k in read && k in rules ==> k == allow;
    BanDominates(rules, update, ban);
  }

  /** A ban on "update" in group posts vetoes the allow of the group scope,
      and leaves "read" allowed. */
  method BanInScopeExample() returns (before: bool, update: bool, read: bool)
    ensures before && !update && read
  {
    GroupName();
    GroupPostName();
    var token := new LeastPrivilegeToken.NewToken();
    token.AllowScope(Object("Group", None, ""));
    PostKeys("update");
    PostKeys("read");
    BanInScopeGrants();
    before := token.Delegate("self", GroupPost, ["update"]);
    token.BanActionInScope(Object("GroupPost", None, ""), ["update"]);
    assert Join(["update"], "_") == "update";
    update := token.Delegate("self", GroupPost, ["update"]);
    read := token.Delegate("self", GroupPost, ["read"]);
  }

  /** `AllowAction("read")` and `AllowScope(nil)` write "read..string" and
      "..", which no request on the group post probes. */
  lemma UnprobedGrants()
    ensures !Grants(map[RuleKey("read", "", "string") := true], CandidateKeys("read", "self", "group_post", "group"))
    ensures !Grants(map[RuleKey("", "", "") := true], CandidateKeys("read", "self", "group_post", "group"))
  {
    ExampleNamesDotFree();
    SingleRule(RuleKey("read", "", "string"), true, CandidateKeys("read", "self", "group_post", "group"));
    SingleRule(RuleKey("", "", "") , true, CandidateKeys("read", "self", "group_post", "group"));
    CandidateKeyIff("read", "", "string", "read", "self", "group_post", "group");
    CandidateKeyIff("", "", "", "read", "self", "group_post", "group");
  }

  /** Neither `AllowAction("read")` nor an allow of the nil scope lets
      "read" through on the group post. */
  method UnprobedTokenExample() returns (actionOnly: bool, nilScope: bool)
    ensures !actionOnly && !nilScope
  {
    StringName();
    PostKeys("read");
    UnprobedGrants();
    var token := new LeastPrivilegeToken.NewToken();
    token.AllowAction(["read"]);
    assert Join(["read"], "_") == "read";
    actionOnly := token.Delegate("self", GroupPost, ["read"]);
    var other := new LeastPrivilegeToken.NewToken();
    other.AllowScope(Nil);
    nilScope := other.Delegate("self", GroupPost, ["read"]);
  }
}
