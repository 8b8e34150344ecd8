/**
  The client's decision on an Agreement and the policies the issuer writes. Rules
  are JSON objects, so a member may hold any JSON value.
*/
module Agreement {
  import opened Common
  import Settlement = SettlementModel

  datatype Value = Text(text: string) | List(items: seq<Value>) | Object(members: map<string, Value>) | Other

  type Rule = map<string, Value>

  datatype Policy = Policy(permissions: seq<Rule>, prohibitions: seq<Rule>)

  predicate ExactRuleMembers(rule: Rule, allowed: set<string>) { rule.Keys <= allowed }

  /** Action and target, joined by U+0000. */
  function RuleKey(rule: Rule): Option<string> {
    if "action" in rule && "target" in rule && rule["action"].Text? && rule["target"].Text?
    then Some(Key(rule["action"].text, rule["target"].text)) else None
  }

  function Key(action: string, target: string): string { action + ['\0'] + target }

  function Duties(rule: Rule): seq<Value> {
    if "duty" !in rule then [] else if rule["duty"].List? then rule["duty"].items else [rule["duty"]]
  }

  predicate Fulfilled(duty: Value, fulfilled: set<string>) {
    duty.Object? && "uid" in duty.members && duty.members["uid"].Text? && duty.members["uid"].text in fulfilled
  }

  const PERMITTED: set<string> := {"action", "duty", "target"}
  const BARE: set<string> := {"action", "target"}

  // ------------------------------------------------------- what is acceptable

  /** Every rule has only the allowed members and a key of its own. */
  ghost predicate Keyed(rules: seq<Rule>, allowed: set<string>) {
    && (forall i :: 0 <= i < |rules| ==> ExactRuleMembers(rules[i], allowed) && RuleKey(rules[i]).Some?)
    && DistinctKeys(rules)
  }

  ghost predicate DistinctKeys(rules: seq<Rule>) {
    forall i, j :: 0 <= i < j < |rules| ==> RuleKey(rules[i]) != RuleKey(rules[j])
  }

  /** Some offered permission has this key, with all its duties fulfilled. */
  ghost predicate Offered(offer: seq<Rule>, key: string, fulfilled: set<string>) {
    exists j :: 0 <= j < |offer| && RuleKey(offer[j]) == Some(key)
                && forall duty :: duty in Duties(offer[j]) ==> Fulfilled(duty, fulfilled)
  }

  /** A well-formed permission that the Offer makes, with its duties fulfilled. */
  ghost predicate Granted(permission: Rule, offer: seq<Rule>, fulfilled: set<string>) {
    ExactRuleMembers(permission, BARE) && RuleKey(permission).Some? && Offered(offer, RuleKey(permission).value, fulfilled)
  }

  /**
    The Agreement's permissions are a duplicate-free part of the Offer's with all
    duties fulfilled, they contain the requested action on the target, and every
    prohibition of the Offer is kept.
  */
  ghost predicate Acceptable(offer: Policy, agreement: Policy, action: string, target: string, fulfilled: set<string>) {
    && Keyed(offer.permissions, PERMITTED)
    && (forall i :: 0 <= i < |agreement.permissions| ==> Granted(agreement.permissions[i], offer.permissions, fulfilled))
    && DistinctKeys(agreement.permissions)
    && (exists i :: 0 <= i < |agreement.permissions| && RuleKey(agreement.permissions[i]) == Some(Key(action, target)))
    && (forall i :: 0 <= i < |offer.prohibitions| ==> Kept(offer.prohibitions[i], agreement.prohibitions))
    && (forall i :: 0 <= i < |agreement.prohibitions| ==> ExactRuleMembers(agreement.prohibitions[i], BARE))
  }

  /** A well-formed prohibition that some rule of the Agreement repeats. */
  ghost predicate Kept(prohibition: Rule, rules: seq<Rule>) {
    && ExactRuleMembers(prohibition, BARE) && RuleKey(prohibition).Some?
    && exists j :: 0 <= j < |rules| && RuleKey(rules[j]) == RuleKey(prohibition)
  }

  // -------------------------------------------------------------- the evaluator

  function KeysOf(rules: seq<Rule>): set<string> {
    if rules == [] then {} else
    var before, key := KeysOf(rules[..|rules| - 1]), RuleKey(rules[|rules| - 1]);
    if key.Some? then before + {key.value} else before
  }

  ghost predicate HasKey(rules: seq<Rule>, key: Option<string>) {
    exists j :: 0 <= j < |rules| && RuleKey(rules[j]) == key
  }

  lemma HasKeyOneMore(rules: seq<Rule>, rule: Rule, key: Option<string>)
    ensures HasKey(rules + [rule], key) <==> HasKey(rules, key) || RuleKey(rule) == key
  {
    var longer := rules + [rule];
    if j :| 0 <= j < |rules| && RuleKey(rules[j]) == key { assert RuleKey(longer[j]) == key; }
    if RuleKey(rule) == key { assert RuleKey(longer[|rules|]) == key; }
  }

  lemma {:induction false} KeysAreHad(rules: seq<Rule>, k: string)
    ensures k in KeysOf(rules) <==> HasKey(rules, Some(k))
  {
    if rules != [] {
      var n := |rules| - 1;
      KeysAreHad(rules[..n], k);
      HasKeyOneMore(rules[..n], rules[n], Some(k));
      assert rules == rules[..n] + [rules[n]];
    }
  }

  lemma DistinctOneMore(rules: seq<Rule>, rule: Rule)
    ensures DistinctKeys(rules + [rule]) <==> DistinctKeys(rules) && !HasKey(rules, RuleKey(rule))
  {
    var longer := rules + [rule];
    assert longer[|rules|] == rule && forall j :: 0 <= j < |rules| ==> longer[j] == rules[j];
    if HasKey(rules, RuleKey(rule)) {
      var j :| 0 <= j < |rules| && RuleKey(rules[j]) == RuleKey(rule);
      assert RuleKey(longer[j]) == RuleKey(longer[|rules|]);
    }
  }

  lemma KeyedOneMore(rules: seq<Rule>, rule: Rule)
    ensures Keyed(rules + [rule], PERMITTED)
       <==> Keyed(rules, PERMITTED) && ExactRuleMembers(rule, PERMITTED) && RuleKey(rule).Some? && !HasKey(rules, RuleKey(rule))
  {
    var longer := rules + [rule];
    DistinctOneMore(rules, rule);
    assert longer[|rules|] == rule && forall j :: 0 <= j < |rules| ==> longer[j] == rules[j];
  }

  lemma KeyedPrefix(rules: seq<Rule>, i: nat)
    requires i <= |rules| && Keyed(rules, PERMITTED)
    ensures Keyed(rules[..i], PERMITTED)
  {
  }

  /** The Offer's permissions by key. */
  ghost predicate Files(filed: map<string, Rule>, offer: seq<Rule>) {
    && Keyed(offer, PERMITTED)
    && filed.Keys == KeysOf(offer)
    && forall j :: 0 <= j < |offer| ==> RuleKey(offer[j]).value in filed && filed[RuleKey(offer[j]).value] == offer[j]
  }

  /** Files the Offer's permissions by key; None when one is malformed or repeated. */
  method FilePermissions(permissions: seq<Rule>) returns (filed: Option<map<string, Rule>>)
    ensures filed.Some? <==> Keyed(permissions, PERMITTED)
    ensures filed.Some? ==> Files(filed.value, permissions)
  {
    var m: map<string, Rule> := map[];
    for i := 0 to |permissions|
      invariant Files(m, permissions[..i])
    {
      var permission := permissions[i];
      assert permissions[..i + 1] == permissions[..i] + [permission];
      KeyedOneMore(permissions[..i], permission);
      var key := RuleKey(permission);
      if key.Some? { KeysAreHad(permissions[..i], key.value); }
      if !ExactRuleMembers(permission, PERMITTED) || key.None? || key.value in m {
        if Keyed(permissions, PERMITTED) { KeyedPrefix(permissions, i + 1); }
        return None;
      }
      FileOne(m, permissions[..i], permission);
      m := m[key.value := permission];
    }
    assert permissions[..|permissions|] == permissions;
    filed := Some(m);
  }

  lemma FileOne(m: map<string, Rule>, rules: seq<Rule>, rule: Rule)
    requires Files(m, rules) && Keyed(rules + [rule], PERMITTED)
    ensures RuleKey(rule).Some? && Files(m[RuleKey(rule).value := rule], rules + [rule])
  {
    var longer := rules + [rule];
    KeyedOneMore(rules, rule);
    assert longer[..|rules|] == rules && longer[|rules|] == rule;
    assert KeysOf(longer) == KeysOf(rules) + {RuleKey(rule).value};
    forall j | 0 <= j < |rules| ensures RuleKey(longer[j]) != RuleKey(rule) && longer[j] == rules[j] { }
  }

  method AllFulfilled(duties: seq<Value>, fulfilled: set<string>) returns (ok: bool)
    ensures ok <==> forall duty :: duty in duties ==> Fulfilled(duty, fulfilled)
  {
    for i := 0 to |duties|
      invariant forall j :: 0 <= j < i ==> Fulfilled(duties[j], fulfilled)
    {
      if !Fulfilled(duties[i], fulfilled) { return false; }
    }
    ok := true;
  }

  /** The Agreement's permissions against the filed ones; the keys they grant. */
  method GrantPermissions(permissions: seq<Rule>, offer: seq<Rule>, filed: map<string, Rule>, fulfilled: set<string>)
    returns (granted: Option<set<string>>)
    requires Files(filed, offer)
    ensures granted.Some? <==>
              DistinctKeys(permissions) && forall i :: 0 <= i < |permissions| ==> Granted(permissions[i], offer, fulfilled)
    ensures granted.Some? ==> granted.value == KeysOf(permissions)
  {
    var keys: set<string> := {};
    for i := 0 to |permissions|
      invariant DistinctKeys(permissions[..i]) && keys == KeysOf(permissions[..i])
      invariant forall j :: 0 <= j < i ==> Granted(permissions[j], offer, fulfilled)
    {
      var key := GrantOne(permissions[i], offer, filed, fulfilled);
      if key.None? { return None; }
      GrantStep(permissions, i);
      if key.value in keys { return None; }
      keys := keys + {key.value};
    }
    assert permissions[..|permissions|] == permissions;
    granted := Some(keys);
  }

  lemma DistinctPrefix(rules: seq<Rule>, i: nat)
    requires i <= |rules|
    ensures DistinctKeys(rules) ==> DistinctKeys(rules[..i])
  {
  }

  /** One more permission: its key was granted before, and then it repeats one, or it is new. */
  lemma GrantStep(rules: seq<Rule>, i: nat)
    requires i < |rules| && RuleKey(rules[i]).Some? && DistinctKeys(rules[..i])
    ensures var keys, key := KeysOf(rules[..i]), RuleKey(rules[i]).value;
            && (key in keys ==> !DistinctKeys(rules))
            && (key !in keys ==> DistinctKeys(rules[..i + 1]))
            && KeysOf(rules[..i + 1]) == keys + {key}
  {
    KeysAreHad(rules[..i], RuleKey(rules[i]).value);
    DistinctOneMore(rules[..i], rules[i]);
    assert rules[..i + 1] == rules[..i] + [rules[i]];
    DistinctPrefix(rules, i + 1);
    OneMoreKey(rules, i);
  }

  lemma OneMoreKey(rules: seq<Rule>, i: nat)
    requires i < |rules| && RuleKey(rules[i]).Some?
    ensures KeysOf(rules[..i + 1]) == KeysOf(rules[..i]) + {RuleKey(rules[i]).value}
  {
    assert rules[..i + 1][..i] == rules[..i] && rules[..i + 1][i] == rules[i];
  }

  /** One permission of the Agreement; its key when it is well formed, offered and paid for. */
  method GrantOne(permission: Rule, offer: seq<Rule>, filed: map<string, Rule>, fulfilled: set<string>) returns (key: Option<string>)
    requires Files(filed, offer)
    ensures key.Some? <==> Granted(permission, offer, fulfilled)
    ensures key.Some? ==> key == RuleKey(permission)
  {
    if !ExactRuleMembers(permission, BARE) { return None; }
    key := RuleKey(permission);
    if key.Some? { KeysAreHad(offer, key.value); }
    if key.None? || key.value !in filed { return None; }
    var ok := AllFulfilled(Duties(filed[key.value]), fulfilled);
    OfferedByFiled(offer, filed, key.value, fulfilled);
    if !ok { return None; }
  }

  lemma OfferedByFiled(offer: seq<Rule>, filed: map<string, Rule>, key: string, fulfilled: set<string>)
    requires Files(filed, offer) && key in filed
    ensures Offered(offer, key, fulfilled) <==> forall duty :: duty in Duties(filed[key]) ==> Fulfilled(duty, fulfilled)
  {
    KeysAreHad(offer, key);
    var j :| 0 <= j < |offer| && RuleKey(offer[j]) == Some(key);
  }

  method SomeHasKey(rules: seq<Rule>, key: Option<string>) returns (found: bool)
    ensures found <==> exists j :: 0 <= j < |rules| && RuleKey(rules[j]) == key
  {
    for i := 0 to |rules|
      invariant forall j :: 0 <= j < i ==> RuleKey(rules[j]) != key
    {
      if RuleKey(rules[i]) == key { return true; }
    }
    found := false;
  }

  /** Every prohibition of the Offer is well formed and kept. */
  method KeepsProhibitions(offered: seq<Rule>, kept: seq<Rule>) returns (ok: bool)
    ensures ok <==>
              && (forall i :: 0 <= i < |offered| ==> Kept(offered[i], kept))
              && (forall i :: 0 <= i < |kept| ==> ExactRuleMembers(kept[i], BARE))
  {
    for i := 0 to |offered|
      invariant forall h :: 0 <= h < i ==> Kept(offered[h], kept)
    {
      if !ExactRuleMembers(offered[i], BARE) { return false; }
      var key := RuleKey(offered[i]);
      if key.None? { return false; }
      var found := SomeHasKey(kept, key);
      if !found { return false; }
    }
    for i := 0 to |kept|
      invariant forall h :: 0 <= h < i ==> ExactRuleMembers(kept[h], BARE)
    {
      if !ExactRuleMembers(kept[i], BARE) { return false; }
    }
    ok := true;
  }

  /** The evaluator decides exactly what is acceptable. */
  method EvaluateReferenceAgreement(offer: Policy, agreement: Policy, action: string, target: string, fulfilled: set<string>)
    returns (ok: bool)
    ensures ok <==> Acceptable(offer, agreement, action, target, fulfilled)
  {
    var filed := FilePermissions(offer.permissions);
    if filed.None? { return false; }
    var granted := GrantPermissions(agreement.permissions, offer.permissions, filed.value, fulfilled);
    KeysAreHad(agreement.permissions, Key(action, target));
    if granted.None? || Key(action, target) !in granted.value { return false; }
    ok := KeepsProhibitions(offer.prohibitions, agreement.prohibitions);
  }

  // --------------------------------------------------------- keys as pairs

  /** `b` starts with `a` and U+0000, and so hides where `a` ends. */
  predicate Nested(a: string, b: string) { a + ['\0'] <= b }

  /** Exactly when two rules share a key: they are the same pair, or one action is nested in the other and the targets make up for it. */
  lemma SameKeyExactly(a: string, t: string, b: string, u: string)
    ensures Key(a, t) == Key(b, u)
       <==> || (a == b && t == u)
            || (Nested(a, b) && t == b[|a| + 1..] + ['\0'] + u)
            || (Nested(b, a) && u == a[|b| + 1..] + ['\0'] + t)
  {
    if |a| <= |b| { SameKeyNests(a, t, b, u); } else { SameKeyNests(b, u, a, t); }
    if Nested(a, b) { NestedKey(a, b, u); }
    if Nested(b, a) { NestedKey(b, a, t); }
  }

  lemma SameKeyNests(a: string, t: string, b: string, u: string)
    requires |a| <= |b|
    ensures Key(a, t) == Key(b, u) && |a| == |b| ==> a == b && t == u
    ensures Key(a, t) == Key(b, u) && |a| < |b| ==> Nested(a, b) && t == b[|a| + 1..] + ['\0'] + u
  {
    var k, l := Key(a, t), Key(b, u);
    if k == l {
      assert a == k[..|a|] && k[|a|] == '\0' && t == k[|a| + 1..];
      assert b == l[..|b|] && l[|b|] == '\0' && u == l[|b| + 1..];
      if |a| < |b| {
        assert a + ['\0'] == k[..|a| + 1] == b[..|a| + 1];
        assert l[|a| + 1..] == b[|a| + 1..] + ['\0'] + u;
      }
    }
  }

  lemma NestedKey(a: string, b: string, u: string)
    requires Nested(a, b)
    ensures Key(a, b[|a| + 1..] + ['\0'] + u) == Key(b, u)
  {
    assert b == a + ['\0'] + b[|a| + 1..];
  }

  /**
    Keys of two actions stand for (action, target) pairs, over all targets, exactly
    when neither action is nested in the other.
  */
  lemma KeysAreThePairs(a: string, b: string)
    ensures (forall t, u :: Key(a, t) == Key(b, u) <==> a == b && t == u) <==> !Nested(a, b) && !Nested(b, a)
  {
    if Nested(a, b) {
      NestedKey(a, b, []);
      assert Key(a, b[|a| + 1..] + ['\0'] + []) == Key(b, []) && a != b;
    } else if Nested(b, a) {
      NestedKey(b, a, []);
      assert Key(a, []) == Key(b, a[|b| + 1..] + ['\0'] + []) && a != b;
    } else {
      forall t, u ensures Key(a, t) == Key(b, u) <==> a == b && t == u { SameKeyExactly(a, t, b, u); }
    }
  }

  lemma NestedHoldsNul(a: string, b: string)
    requires Nested(a, b)
    ensures '\0' in b
  {
    assert b[|a|] == (a + ['\0'])[|a|] == '\0';
  }

  /** In particular for actions without U+0000, such as those offered. */
  lemma PlainKeysAreThePairs(a: string, t: string, b: string, u: string)
    requires '\0' !in a && '\0' !in b
    ensures Key(a, t) == Key(b, u) <==> a == b && t == u
  {
    SameKeyExactly(a, t, b, u);
    if Nested(a, b) { NestedHoldsNul(a, b); }
    if Nested(b, a) { NestedHoldsNul(b, a); }
  }

  /** With U+0000 inside an action, two different rules share a key. */
  lemma KeysCollide()
    ensures Key("a\0b", "c") == Key("a", "b\0c")
  {
    assert Key("a\0b", "c") == ['a', '\0', 'b', '\0', 'c'] == Key("a", "b\0c");
  }

  // -------------------------------------------------- the issuer's own policies

  function Duty(p: Settlement.Payee): Value {
    Object(map["uid" := Text(p.dutyUid), "action" := Text("compensate"), "compensatedParty" := Other, "payAmount" := Other])
  }

  function DutiesOf(payees: seq<Settlement.Payee>): Value {
    List(seq(|payees|, i requires 0 <= i < |payees| => Duty(payees[i])))
  }

  function Bare(action: string, target: string): Rule { map["target" := Text(target), "action" := Text(action)] }

  function OfferPolicy(target: string, payees: seq<Settlement.Payee>): Policy {
    Policy([Bare("play", target)["duty" := DutiesOf(payees)], Bare("derive", target)["duty" := DutiesOf(payees)]],
           [Bare("unwrap", target)])
  }

  function AgreementPolicy(target: string, action: string): Policy {
    Policy([Bare(action, target), Bare("derive", target)], [Bare("unwrap", target)])
  }

  /** Every Payee's duty is among the fulfilled. */
  predicate AllPaid(payees: seq<Settlement.Payee>, fulfilled: set<string>) { forall p :: p in payees ==> p.dutyUid in fulfilled }

  /**
    For the offered actions, the Agreement the issuer writes is acceptable to the client
    exactly when the request was for `play` and every Payee's duty is fulfilled: a
    `derive` request repeats a key, and one duty left open refuses both permissions.
  */
  lemma IssuedAgreementAcceptable(target: string, payees: seq<Settlement.Payee>, action: string, fulfilled: set<string>)
    requires action == "play" || action == "derive"
    ensures Acceptable(OfferPolicy(target, payees), AgreementPolicy(target, action), action, target, fulfilled)
       <==> action == "play" && AllPaid(payees, fulfilled)
  {
    var offer, agreement := OfferPolicy(target, payees), AgreementPolicy(target, action);
    if action == "derive" {
      assert RuleKey(agreement.permissions[0]) == RuleKey(agreement.permissions[1]);
    } else {
      KeysDiffer(target);
      OfferIsGranted(target, payees, fulfilled);
      assert RuleKey(agreement.permissions[0]) == Some(Key("play", target));
      assert RuleKey(agreement.permissions[1]) == Some(Key("derive", target));
      assert RuleKey(agreement.prohibitions[0]) == RuleKey(offer.prohibitions[0]);
    }
  }

  lemma OfferIsGranted(target: string, payees: seq<Settlement.Payee>, fulfilled: set<string>)
    ensures var o := OfferPolicy(target, payees).permissions;
            && Keyed(o, PERMITTED)
            && (Offered(o, Key("play", target), fulfilled) <==> AllPaid(payees, fulfilled))
            && (Offered(o, Key("derive", target), fulfilled) <==> AllPaid(payees, fulfilled))
  {
    var o := OfferPolicy(target, payees).permissions;
    KeysDiffer(target);
    assert RuleKey(o[0]) == Some(Key("play", target)) && RuleKey(o[1]) == Some(Key("derive", target));
    assert Duties(o[1]) == Duties(o[0]) == DutiesOf(payees).items;
    DutiesFulfilled(payees, fulfilled);
  }

  /** Whatever Agreement is acceptable under the issuer's Offer is for play or derive on its target, fully paid, and without unwrapping. */
  lemma OfferAllowsOnly(target: string, payees: seq<Settlement.Payee>, agreement: Policy, action: string, other: string, fulfilled: set<string>)
    requires Acceptable(OfferPolicy(target, payees), agreement, action, other, fulfilled)
    ensures Key(action, other) == Key("play", target) || Key(action, other) == Key("derive", target)
    ensures AllPaid(payees, fulfilled)
    ensures exists j :: 0 <= j < |agreement.prohibitions| && RuleKey(agreement.prohibitions[j]) == Some(Key("unwrap", target))
  {
    var offer := OfferPolicy(target, payees);
    var i :| 0 <= i < |agreement.permissions| && RuleKey(agreement.permissions[i]) == Some(Key(action, other));
    assert Granted(agreement.permissions[i], offer.permissions, fulfilled);
    OfferIsGranted(target, payees, fulfilled);
    assert Offered(offer.permissions, Key(action, other), fulfilled);
    assert Kept(offer.prohibitions[0], agreement.prohibitions);
  }

  lemma DutiesFulfilled(payees: seq<Settlement.Payee>, fulfilled: set<string>)
    ensures (forall duty :: duty in DutiesOf(payees).items ==> Fulfilled(duty, fulfilled)) <==> AllPaid(payees, fulfilled)
  {
    var items := DutiesOf(payees).items;
    if forall duty :: duty in items ==> Fulfilled(duty, fulfilled) {
      forall p | p in payees ensures p.dutyUid in fulfilled {
        var i :| 0 <= i < |payees| && payees[i] == p;
        assert items[i] == Duty(p) && items[i] in items;
      }
    }
    assert forall i :: 0 <= i < |items| ==> items[i] == Duty(payees[i]) && payees[i] in payees;
  }

  /** A rule with any other member refuses the Agreement, wherever it stands. */
  lemma OtherMembersAreRefused(offer: Policy, agreement: Policy, action: string, target: string, fulfilled: set<string>, i: nat, member: string)
    requires member != "action" && member != "target"
    ensures i < |agreement.permissions| && member in agreement.permissions[i] ==>
              !Acceptable(offer, agreement, action, target, fulfilled)
    ensures i < |agreement.prohibitions| && member in agreement.prohibitions[i] ==>
              !Acceptable(offer, agreement, action, target, fulfilled)
    ensures i < |offer.prohibitions| && member in offer.prohibitions[i] ==>
              !Acceptable(offer, agreement, action, target, fulfilled)
    ensures i < |offer.permissions| && member in offer.permissions[i] && member != "duty" ==>
              !Acceptable(offer, agreement, action, target, fulfilled)
  {
    if i < |offer.prohibitions| && member in offer.prohibitions[i] { assert !Kept(offer.prohibitions[i], agreement.prohibitions); }
    if i < |agreement.permissions| && member in agreement.permissions[i] {
      assert !Granted(agreement.permissions[i], offer.permissions, fulfilled);
    }
  }

  /** A duty is fulfilled exactly when it is an object whose `uid` is a text among the fulfilled. */
  lemma FulfilledExactly(duty: Value, fulfilled: set<string>)
    ensures Fulfilled(duty, fulfilled) <==>
              exists members, uid :: duty == Object(members) && "uid" in members && members["uid"] == Text(uid) && uid in fulfilled
  {
    if Fulfilled(duty, fulfilled) { assert duty == Object(duty.members) && duty.members["uid"] == Text(duty.members["uid"].text); }
  }

  /** The duties of a rule: none, one, or the list. */
  lemma DutiesExactly(rule: Rule)
    ensures "duty" !in rule ==> Duties(rule) == []
    ensures forall items :: "duty" in rule && rule["duty"] == List(items) ==> Duties(rule) == items
    ensures "duty" in rule && !rule["duty"].List? ==> Duties(rule) == [rule["duty"]]
  {
  }

  lemma KeysDiffer(target: string)
    ensures Key("play", target) != Key("derive", target)
  {
  }
}
