// Security groups are found by name and completed rule by rule.
module SecurityGroups {
  import opened Wrappers
  import opened World
  import opened CloudApi

  predicate HasIngress(existing: seq<Rule>, description: string) {
    exists i | 0 <= i < |existing| :: existing[i].ingress && existing[i].description == description
  }

  /** The wanted rules that have no ingress rule with their description yet, in order. */
  function Missing(existing: seq<Rule>, wanted: seq<Rule>): (missing: seq<Rule>) {
    if wanted == [] then []
    else
      (if HasIngress(existing, wanted[0].description) then [] else [wanted[0]]) + Missing(existing, wanted[1..])
  }

  lemma {:induction false} MissingExactly(existing: seq<Rule>, wanted: seq<Rule>, r: Rule)
    ensures r in Missing(existing, wanted) <==> r in wanted && !HasIngress(existing, r.description)
  {
    if wanted != [] {
      MissingExactly(existing, wanted[1..], r);
    }
  }

  lemma MissingIsIngress(existing: seq<Rule>, wanted: seq<Rule>)
    requires AllIngress(wanted)
    ensures AllIngress(Missing(existing, wanted))
  {
    forall r | r in Missing(existing, wanted) {
      MissingExactly(existing, wanted, r);
    }
  }

  /** The rules of a group after a run that was not interrupted. */
  function Converged(existing: seq<Rule>, wanted: seq<Rule>): seq<Rule> {
    existing + Missing(existing, wanted)
  }

  predicate AllIngress(rules: seq<Rule>) {
    forall r | r in rules :: r.ingress
  }

  ghost predicate Distinct(rules: seq<Rule>) {
    forall i, j | 0 <= i < j < |rules| :: rules[i].description != rules[j].description
  }

  lemma {:induction false} MissingAppend(existing: seq<Rule>, a: seq<Rule>, b: seq<Rule>)
    ensures Missing(existing, a + b) == Missing(existing, a) + Missing(existing, b)
  {
    if a == [] {
      assert a + b == b;
    } else {
      assert (a + b)[1..] == a[1..] + b;
      MissingAppend(existing, a[1..], b);
    }
  }

  /** With the first k missing rules in place, exactly the rules without such a description remain. */
  lemma {:induction false} MissingAfter(existing: seq<Rule>, wanted: seq<Rule>, more: seq<Rule>)
    ensures Missing(existing + more, wanted) == Missing(more, Missing(existing, wanted))
  {
    if wanted != [] {
      var d := wanted[0].description;
      MissingAfter(existing, wanted[1..], more);
      HasIngressAppend(existing, more, d);
      var rest := Missing(existing, wanted[1..]);
      if !HasIngress(existing, d) {
        assert ([wanted[0]] + rest)[1..] == rest;
      } else {
        assert [] + rest == rest;
      }
    }
  }

  lemma HasIngressAppend(a: seq<Rule>, b: seq<Rule>, d: string)
    ensures HasIngress(a + b, d) <==> HasIngress(a, d) || HasIngress(b, d)
  {
    if HasIngress(a, d) {
      var i :| 0 <= i < |a| && a[i].ingress && a[i].description == d;
      assert (a + b)[i] == a[i];
    }
    if HasIngress(b, d) {
      var i :| 0 <= i < |b| && b[i].ingress && b[i].description == d;
      assert (a + b)[|a| + i] == b[i];
    }
    if HasIngress(a + b, d) {
      var i :| 0 <= i < |a + b| && (a + b)[i].ingress && (a + b)[i].description == d;
      if i < |a| { assert a[i].description == d; } else { assert b[i - |a|].description == d; }
    }
  }

  lemma {:induction false} MissingFromNone(existing: seq<Rule>, wanted: seq<Rule>)
    requires forall r | r in wanted :: !HasIngress(existing, r.description)
    ensures Missing(existing, wanted) == wanted
  {
    if wanted != [] {
      assert wanted[0] in wanted;
      MissingFromNone(existing, wanted[1..]);
    }
  }

  lemma {:induction false} MissingFromAll(existing: seq<Rule>, wanted: seq<Rule>)
    requires forall r | r in wanted :: HasIngress(existing, r.description)
    ensures Missing(existing, wanted) == []
  {
    if wanted != [] {
      assert wanted[0] in wanted;
      MissingFromAll(existing, wanted[1..]);
    }
  }

  /** A converged group needs no further rule: another run creates nothing. */
  lemma ConvergedIsFixpoint(existing: seq<Rule>, wanted: seq<Rule>)
    requires AllIngress(wanted)
    ensures Missing(Converged(existing, wanted), wanted) == []
  {
    var m := Missing(existing, wanted);
    MissingIsIngress(existing, wanted);
    MissingAfter(existing, wanted, m);
    NothingMissingFromSelf(m);
  }

  /** The state a run leaves when it is stopped after creating k rules. */
  function StoppedAfter(existing: seq<Rule>, wanted: seq<Rule>, k: nat): seq<Rule>
    requires k <= |Missing(existing, wanted)|
  {
    existing + Missing(existing, wanted)[..k]
  }

  lemma NothingMissingFromSelf(rules: seq<Rule>)
    requires AllIngress(rules)
    ensures Missing(rules, rules) == []
  {
    forall r | r in rules
      ensures HasIngress(rules, r.description)
    {
      var i :| 0 <= i < |rules| && rules[i] == r;
    }
    MissingFromAll(rules, rules);
  }

  lemma SplitMissing(m: seq<Rule>, k: nat)
    requires AllIngress(m) && k <= |m|
    ensures Missing(m[..k], m) == Missing(m[..k], m[k..])
  {
    hide Missing;
    var done, rest := m[..k], m[k..];
    NothingMissingFromSelf(done);
    MissingAppend(done, done, rest);
    assert done + rest == m;
    assert [] + Missing(done, rest) == Missing(done, rest);
  }

  lemma {:induction false} MissingDropsPresent(existing: seq<Rule>, wanted: seq<Rule>)
    ensures |Missing(existing, wanted)| <= |wanted|
    ensures (exists r :: r in wanted && HasIngress(existing, r.description)) ==> |Missing(existing, wanted)| < |wanted|
  {
    if wanted != [] {
      MissingDropsPresent(existing, wanted[1..]);
    }
  }

  /** Rerunning after k rules reaches the uninterrupted state if the first k rules hide none of the rest. */
  lemma RerunAfter(existing: seq<Rule>, wanted: seq<Rule>, k: nat)
    requires AllIngress(wanted) && k <= |Missing(existing, wanted)|
    ensures var m := Missing(existing, wanted);
            Converged(StoppedAfter(existing, wanted, k), wanted) == Converged(existing, wanted)
            <==> Missing(m[..k], m[k..]) == m[k..]
  {
    var m := Missing(existing, wanted);
    MissingIsIngress(existing, wanted);
    MissingAfter(existing, wanted, m[..k]);
    SplitMissing(m, k);
    hide Missing, AllIngress;
    Cancel(existing, m, k, Missing(m[..k], m[k..]));
  }

  lemma Cancel(existing: seq<Rule>, m: seq<Rule>, k: nat, rest: seq<Rule>)
    requires k <= |m|
    ensures (existing + m[..k]) + rest == existing + m <==> rest == m[k..]
  {
    var done := existing + m[..k];
    assert m == m[..k] + m[k..];
    assert existing + m == done + m[k..];
    if done + rest == existing + m {
      assert rest == (done + rest)[|done|..] == (done + m[k..])[|done|..] == m[k..];
    }
  }

  lemma DistinctHidesNothing(m: seq<Rule>, k: nat)
    requires Distinct(m) && k <= |m|
    ensures Missing(m[..k], m[k..]) == m[k..]
  {
    forall r | r in m[k..]
      ensures !HasIngress(m[..k], r.description)
    {
      var j :| 0 <= j < |m| - k && m[k..][j] == r;
      assert m[k + j] == r;
    }
    MissingFromNone(m[..k], m[k..]);
  }

  lemma DuplicateHidesSome(m: seq<Rule>, i: nat, j: nat)
    requires AllIngress(m) && i < j < |m| && m[i].description == m[j].description
    ensures Missing(m[..j], m[j..]) != m[j..]
  {
    assert m[i] in m && m[..j][i] == m[i] && m[j..][0] == m[j];
    assert HasIngress(m[..j], m[j].description);
    MissingDropsPresent(m[..j], m[j..]);
  }

  /**
   * Stopping after any number of rules and running again gives the rules of one
   * uninterrupted run exactly when the missing rules have distinct descriptions.
   */
  lemma InterruptionIsInvisible(existing: seq<Rule>, wanted: seq<Rule>)
    requires AllIngress(wanted)
    ensures Distinct(Missing(existing, wanted)) <==>
            forall k: nat | k <= |Missing(existing, wanted)| ::
              Converged(StoppedAfter(existing, wanted, k), wanted) == Converged(existing, wanted)
  {
    var m := Missing(existing, wanted);
    MissingIsIngress(existing, wanted);
    if Distinct(m) {
      forall k: nat | k <= |m|
        ensures Converged(StoppedAfter(existing, wanted, k), wanted) == Converged(existing, wanted)
      {
        RerunAfter(existing, wanted, k);
        DistinctHidesNothing(m, k);
      }
    } else {
      var i, j :| 0 <= i < j < |m| && m[i].description == m[j].description;
      RerunAfter(existing, wanted, j);
      DuplicateHidesSome(m, i, j);
    }
  }

  /** Every wanted rule is there in the end, by its description. */
  lemma WantedIsThere(existing: seq<Rule>, wanted: seq<Rule>, r: Rule)
    requires r in wanted && r.ingress
    ensures HasIngress(Converged(existing, wanted), r.description)
  {
    HasIngressAppend(existing, Missing(existing, wanted), r.description);
    if !HasIngress(existing, r.description) {
      MissingExactly(existing, wanted, r);
      var i :| 0 <= i < |Missing(existing, wanted)| && Missing(existing, wanted)[i] == r;
    }
  }

  function AddRules(w: World, group: Id, rules: seq<Rule>): World
    requires group in w.groups
  {
    w.(groups := w.groups[group := w.groups[group].(rules := w.groups[group].rules + rules)])
  }

  lemma AddRulesStep(w: World, group: Id, rules: seq<Rule>, r: Rule)
    requires group in w.groups
    ensures AddRules(w, group, []) == w
    ensures CreateRule(AddRules(w, group, rules), group, r) == AddRules(w, group, rules + [r])
  {
    var g := w.groups[group];
    assert g.rules + [] == g.rules && (g.rules + rules) + [r] == g.rules + (rules + [r]);
    assert w.groups[group := g] == w.groups;
    assert w.groups[group := g.(rules := g.rules + rules)][group := g.(rules := g.rules + (rules + [r]))]
        == w.groups[group := g.(rules := g.rules + (rules + [r]))];
  }

  lemma GroupStays(w: World, group: Id, rules: seq<Rule>)
    requires group in w.groups
    ensures group in AddRules(w, group, rules).groups
  {
  }

  method Shown(existing: seq<Rule>, rule: Rule) returns (found: bool)
    ensures found == HasIngress(existing, rule.description)
  {
    found := false;
    var h := 0;
    while h < |existing|
      invariant 0 <= h <= |existing| && !found
      invariant forall x | 0 <= x < h :: !existing[x].ingress || existing[x].description != rule.description
    {
      if existing[h].ingress && existing[h].description == rule.description {
        found := true;
        return;
      }
      h := h + 1;
    }
  }

  /** Creates one rule on top of those created so far; the call may take effect although it fails. */
  method CreateOne(c: Cloud, group: Id, rule: Rule, ghost w0: World, ghost done: seq<Rule>) returns (ok: bool)
    requires group in w0.groups && group in c.w.groups && c.w == AddRules(w0, group, done)
    modifies c
    ensures Undisturbed(old(c.Now()), c.Now())
    ensures c.w == AddRules(w0, group, done + [rule]) || (!ok && c.w == old(c.w))
    ensures c.errors == if ok then old(c.errors) else old(c.errors) + [Unanswered]
    ensures c.answers == old(c.answers)
  {
    hide Undisturbed;
    AddRulesStep(w0, group, done, rule);
    ok := c.ChangeAccess(CreateRule(c.w, group, rule));
  }

  /**
   * Creates the wanted rules that `existing`, the rules seen in the listing,
   * does not show. The group gains a prefix of the missing rules, all of them
   * when the call succeeds; no rule is removed and no other group changes.
   */
  method EnsureRules(c: Cloud, group: Id, existing: seq<Rule>, wanted: seq<Rule>)
    returns (ok: bool, ghost created: nat)
    requires group in c.w.groups
    modifies c
    ensures Undisturbed(old(c.Now()), c.Now())
    ensures created <= |Missing(existing, wanted)| && (ok ==> created == |Missing(existing, wanted)|)
    ensures c.w == AddRules(old(c.w), group, Missing(existing, wanted)[..created])
    ensures c.errors == if ok then old(c.errors) else old(c.errors) + [Unanswered]
    ensures c.answers == old(c.answers)
  {
    Unchanged(c.Now());
    hide Undisturbed, AddRules, HasIngress, Missing;
    var i := 0;
    created := 0;
    ghost var m := Missing(existing, wanted);
    AddRulesStep(c.w, group, [], Rule(true, "", "", "", 0));
    assert wanted[0..] == wanted && m[..0] == [] && m[0..] == m;
    while i < |wanted|
      invariant 0 <= i <= |wanted| && created <= |m|
      invariant m[created..] == Missing(existing, wanted[i..])
      invariant c.w == AddRules(old(c.w), group, m[..created])
      invariant c.errors == old(c.errors) && c.answers == old(c.answers)
      invariant Undisturbed(old(c.Now()), c.Now())
    {
      var rule := wanted[i];
      MissingStep(existing, wanted, i, m, created);
      var found := Shown(existing, rule);
      if !found {
        ghost var before := c.Now();
        GroupStays(old(c.w), group, m[..created]);
        ok := CreateOne(c, group, rule, old(c.w), m[..created]);
        Trans(old(c.Now()), before, c.Now());
        if !ok {
          if c.w != before.w {
            created := created + 1;
          }
          return;
        }
        created := created + 1;
      }
      i := i + 1;
    }
    ok := true;
    MissingDone(existing, wanted, m, created);
  }

  lemma MissingStep(existing: seq<Rule>, wanted: seq<Rule>, i: nat, m: seq<Rule>, created: nat)
    requires i < |wanted| && created <= |m| && m[created..] == Missing(existing, wanted[i..])
    ensures HasIngress(existing, wanted[i].description) ==> m[created..] == Missing(existing, wanted[i + 1..])
    ensures !HasIngress(existing, wanted[i].description) ==>
              && created < |m| && m[..created + 1] == m[..created] + [wanted[i]]
              && m[created + 1..] == Missing(existing, wanted[i + 1..])
  {
    assert wanted[i..][1..] == wanted[i + 1..];
    if !HasIngress(existing, wanted[i].description) {
      assert m[created] == m[created..][0];
      assert m[created + 1..] == m[created..][1..];
    }
  }

  lemma MissingDone(existing: seq<Rule>, wanted: seq<Rule>, m: seq<Rule>, created: nat)
    requires created <= |m| && m[created..] == Missing(existing, wanted[|wanted|..])
    ensures created == |m|
  {
    assert wanted[|wanted|..] == [];
  }

  /** Groups are only added, and an existing one changes only if it has this name, by gaining rules. */
  ghost predicate GroupsGrow(a: World, b: World, p: Project, name: string) {
    forall g | g in a.groups ::
      && g in b.groups
      && b.groups[g] == a.groups[g].(rules := b.groups[g].rules)
      && a.groups[g].rules <= b.groups[g].rules
      && (b.groups[g] != a.groups[g] ==> a.groups[g].project == p && a.groups[g].name == name)
  }

  lemma RulesGrow(a: World, b: World, group: Id, rules: seq<Rule>, p: Project, name: string)
    requires forall g | g in a.groups :: g in b.groups && b.groups[g] == a.groups[g]
    requires group in b.groups && b.groups[group].project == p && b.groups[group].name == name
    ensures GroupsGrow(a, AddRules(b, group, rules), p, name)
    ensures group in AddRules(b, group, rules).groups && AddRules(b, group, rules).keypairs == b.keypairs
    ensures AddRules(b, group, rules).groups[group] == b.groups[group].(rules := b.groups[group].rules + rules)
    ensures NewGroups(a, b, p, name) ==> NewGroups(a, AddRules(b, group, rules), p, name)
  {
  }

  lemma GroupsSame(a: World, b: World, p: Project, name: string)
    requires forall g | g in a.groups :: g in b.groups && b.groups[g] == a.groups[g]
    requires forall g | g in b.groups && g !in a.groups :: b.groups[g] == Group(p, name, true, [])
    ensures GroupsGrow(a, b, p, name) && NewGroups(a, b, p, name)
  {
  }

  /** A group that was not there before has this name and the label by which it is found again. */
  ghost predicate NewGroups(a: World, b: World, p: Project, name: string) {
    forall g | g in b.groups && g !in a.groups ::
      b.groups[g].project == p && b.groups[g].name == name && b.groups[g].managed
  }

  /**
   * A group found by name is completed, otherwise it is created with the wanted rules.
   * Whatever fails, no group and no rule disappears, and a new group is labelled.
   */
  method EnsureSecurityGroup(c: Cloud, p: Project, name: string, wanted: seq<Rule>) returns (r: Result<Id>)
    modifies c
    ensures Undisturbed(old(c.Now()), c.Now())
    ensures GroupsGrow(old(c.w), c.w, p, name) && c.w.keypairs == old(c.w).keypairs
    ensures NewGroups(old(c.w), c.w, p, name)
    ensures r.Err? ==> c.errors == old(c.errors) + [Unanswered]
    ensures |c.answers| > |old(c.answers)|
    ensures r.Ok? <==> c.errors == old(c.errors)
    ensures r.Ok? ==> r.value in c.w.groups && c.w.groups[r.value].project == p && c.w.groups[r.value].name == name
    ensures r.Ok? && r.value in old(c.w).groups ==>
              c.w.groups[r.value].rules == Converged(old(c.w).groups[r.value].rules, wanted)
    ensures r.Ok? && r.value !in old(c.w).groups ==> c.w.groups[r.value].rules == Converged([], wanted)
  {
    hide Undisturbed, Grown, Missing, AddRules, GroupsGrow, NewGroups, HasIngress;
    var ok := c.Read();
    GroupsSame(old(c.w), c.w, p, name);
    if !ok {
      return Err;
    }
    ghost var seen := c.Now();
    var rest := set i | i in c.w.groups && c.w.groups[i].project == p;
    while rest != {}
      invariant forall i | i in rest :: i in c.w.groups && c.w.groups[i].project == p
      decreases rest
    {
      var g :| g in rest;
      rest := rest - {g};
      if c.w.groups[g].name == name {
        ghost var created;
        ok, created := EnsureRules(c, g, c.w.groups[g].rules, wanted);
        RulesGrow(old(c.w), seen.w, g, Missing(seen.w.groups[g].rules, wanted)[..created], p, name);
        Trans(old(c.Now()), seen, c.Now());
        assert ok ==> Missing(old(c.w).groups[g].rules, wanted)[..created] == Missing(old(c.w).groups[g].rules, wanted);
        return if ok then Ok(g) else Err;
      }
    }
    var id := Fresh(c.w.groups.Keys);
    ok := c.ChangeAccess(CreateGroup(c.w, id, Group(p, name, true, [])));
    ghost var made := c.Now();
    Trans(old(c.Now()), seen, made);
    GroupsSame(old(c.w), made.w, p, name);
    if !ok {
      return Err;
    }
    ghost var created;
    ok, created := EnsureRules(c, id, [], wanted);
    RulesGrow(old(c.w), made.w, id, Missing([], wanted)[..created], p, name);
    Trans(old(c.Now()), made, c.Now());
    assert ok ==> Missing([], wanted)[..created] == Missing([], wanted);
    return if ok then Ok(id) else Err;
  }
}
