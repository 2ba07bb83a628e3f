/** internal/steps/identity.go as it runs: an svid-exchange policy is created, found again in the listing, and
    activated. */
module IdentityStep {
  import opened Records
  import opened Ledgers
  import opened Handlers
  import opened Stores
  import opened Services
  import Cascade

  /** An entry of ListPolicies; some carry no rule. */
  datatype Listed = NoRule | Rule(name: string, scopes: seq<string>, maxTtl: int)

  predicate Named(p: Listed, name: string) {
    p.Rule? && p.name == name
  }

  predicate AsWanted(p: Listed) {
    p.Rule? && Joined(p.scopes) == Joined(["read", "write"]) && p.maxTtl == 3600
  }

  /** The first rule of that name decides. */
  method Verify(policies: seq<Listed>, name: string) returns (verified: bool)
    ensures verified <==> exists i :: 0 <= i < |policies| && Named(policies[i], name) && AsWanted(policies[i])
                                      && forall j :: 0 <= j < i ==> !Named(policies[j], name)
  {
    verified := false;
    for i := 0 to |policies|
      invariant !verified
      invariant forall j :: 0 <= j < i ==> !Named(policies[j], name)
    {
      var p := policies[i];
      if p.NoRule? || p.name != name { continue; }
      assert Named(policies[i], name);
      if Joined(p.scopes) != Joined(["read", "write"]) { return false; }
      if p.maxTtl != 3600 { return false; }
      return true;
    }
  }

  /** svid-exchange lists every policy once, in an order of its own. */
  ghost predicate Lists(policies: seq<Listed>, l: Ledger) {
    && (forall k :: k in l && k.PolicyKey? && l[k].PolicyItem? ==> Rule(k.name, l[k].scopes, l[k].maxTtl) in policies)
    && (forall p :: p in policies && p.Rule? ==> InLedger(p, l))
  }

  predicate InLedger(p: Listed, l: Ledger) {
    p.Rule? && PolicyKey(p.name) in l && l[PolicyKey(p.name)].PolicyItem?
    && p == Rule(p.name, l[PolicyKey(p.name)].scopes, l[PolicyKey(p.name)].maxTtl)
  }

  method ListPolicies(cloud: Cloud) returns (policies: seq<Listed>)
    ensures Lists(policies, cloud.ledger)
  {
    policies := [];
    var keys := cloud.ledger.Keys;
    while keys != {}
      invariant keys <= cloud.ledger.Keys
      invariant forall k :: k in cloud.ledger && k !in keys && k.PolicyKey? && cloud.ledger[k].PolicyItem?
                            ==> Rule(k.name, cloud.ledger[k].scopes, cloud.ledger[k].maxTtl) in policies
      invariant forall p :: p in policies && p.Rule? ==> InLedger(p, cloud.ledger)
      decreases |keys|
    {
      var k :| k in keys;
      keys := keys - {k};
      if k.PolicyKey? && cloud.ledger[k].PolicyItem? {
        policies := policies + [Rule(k.name, cloud.ledger[k].scopes, cloud.ledger[k].maxTtl)];
      }
    }
  }

  /** Names being unique, finding the policy as wanted in the listing is finding it so in the service. */
  lemma VerifiedIff(policies: seq<Listed>, l: Ledger, name: string)
    requires Lists(policies, l)
    ensures
      (exists i :: 0 <= i < |policies| && Named(policies[i], name) && AsWanted(policies[i])
                   && forall j :: 0 <= j < i ==> !Named(policies[j], name))
      <==> (var k := PolicyKey(name);
            k in l && l[k].PolicyItem? && Joined(l[k].scopes) == Joined(["read", "write"]) == "read,write"
            && l[k].maxTtl == 3600)
  {
    Cascade.JoinedScopes();
    var k := PolicyKey(name);
    if k in l && l[k].PolicyItem? {
      var p := Rule(name, l[k].scopes, l[k].maxTtl);
      assert p in policies;
      FirstNamed(policies, l, name);
    } else {
      forall i | 0 <= i < |policies| ensures !Named(policies[i], name) {
        if policies[i].Rule? { assert InLedger(policies[i], l); }
      }
    }
  }

  lemma FirstNamed(policies: seq<Listed>, l: Ledger, name: string)
    requires Lists(policies, l) && PolicyKey(name) in l && l[PolicyKey(name)].PolicyItem?
    ensures
      exists i :: 0 <= i < |policies| && Named(policies[i], name)
                  && forall j :: 0 <= j < i ==> !Named(policies[j], name)
    ensures forall i :: 0 <= i < |policies| && Named(policies[i], name)
                        ==> policies[i] == Rule(name, l[PolicyKey(name)].scopes, l[PolicyKey(name)].maxTtl)
  {
    var p := Rule(name, l[PolicyKey(name)].scopes, l[PolicyKey(name)].maxTtl);
    assert p in policies;
    forall i | 0 <= i < |policies| && Named(policies[i], name) ensures policies[i] == p {
      assert InLedger(policies[i], l);
    }
    var n :| 0 <= n < |policies| && policies[n] == p;
    LeastNamed(policies, name, n);
  }

  lemma {:induction false} LeastNamed(policies: seq<Listed>, name: string, n: nat)
    requires n < |policies| && Named(policies[n], name)
    ensures
      exists i :: 0 <= i < |policies| && Named(policies[i], name)
                  && forall j :: 0 <= j < i ==> !Named(policies[j], name)
  {
    if m :| 0 <= m < n && Named(policies[m], name) { LeastNamed(policies, name, m); }
  }

  method Execute(cfg: Settings, env: Environment, store: Store, cloud: Cloud, script: seq<Outcome>,
                 now: nat) returns (ok: bool)
    requires store.Valid() && |script| >= 11
    modifies env, store, cloud
    ensures store.Valid()
    ensures Ends(ExecuteCourse(cfg, Identity, old(Sight(store, cloud)), old(env.Value()), script), Sight(store, cloud),
                 ok)
    ensures ok && cfg.connected ==>
              Exchangeable(cfg.trustDomain, old(Sight(store, cloud)), old(env.Value()), Sight(store, cloud))
  {
    hide On, Ends, Sight, With, Intent, Updated, Skips, AppSpiffeId, DbProxySpiffeId, ForwardProgram, Exchangeable;
    Programs(cfg, env.Value());
    ghost var c := ExecuteCourse(cfg, Identity, Sight(store, cloud), env.Value(), script);
    if env.dryRun && !cfg.connected {
      FillFields(cfg, env);
      LocalStep(c, 1, Sight(store, cloud), old(env.Value()));
      ok := Finish(c, env, store, cloud, now, script[3]);
      return;
    }
    if !cfg.connected {
      RefuseStep(c, 1, Sight(store, cloud), env.Value());
      return false;
    }
    ok := CreateChecked(cfg, c, env, store, cloud, script[2], script[3], script[4]);
    if !ok { return; }
    NameWorkloads(cfg, c, env, store, cloud);
    ok := Finish(c, env, store, cloud, now, script[6]);
    if ok { ExecuteExchanges(cfg, old(Sight(store, cloud)), old(env.Value()), script, Sight(store, cloud)); }
  }

  /** From w to w': a new policy lets the environment's app obtain tokens for its db-proxy, not the other way round, and
      the record is stored with the policy's name and the two workloads in that order. */
  ghost predicate Exchangeable(trustDomain: string, w: World, r: Record, w': World) {
    var name := "policy-env-" + r.id[..8];
    var app := "spiffe://" + trustDomain + "/env-" + r.id[..8] + "/app";
    var proxy := "spiffe://" + trustDomain + "/env-" + r.id[..8] + "/db-proxy";
    && PolicyKey(name) !in w.ledger
    && w'.ledger == w.ledger[PolicyKey(name) := PolicyItem(app, proxy, ["read", "write"], 3600)]
    && w'.store == w.store[r.id := r.(svidExchangePolicyName := name, spireEntryIds := [app, proxy])]
  }

  lemma ExecuteExchanges(cfg: Settings, w: World, r: Record, script: seq<Outcome>, w': World)
    requires |script| >= 11 && cfg.connected && Ends(ExecuteCourse(cfg, Identity, w, r, script), w', true)
    ensures Exchangeable(cfg.trustDomain, w, r, w')
  {
    hide Carry;
    Cascade.IdentityExecuted(cfg, w, r, script);
  }

  method NameWorkloads(cfg: Settings, ghost c: Course, env: Environment, store: Store, cloud: Cloud)
    requires c.cfg == cfg && c.prog == IDENTITY_PROGRAM && On(c, 4, Sight(store, cloud), env.Value())
    modifies env
    ensures On(c, 5, Sight(store, cloud), env.Value())
  {
    hide On, Sight, AppSpiffeId, DbProxySpiffeId;
    env.spireEntryIds := [AppSpiffeId(cfg, env.id), DbProxySpiffeId(cfg, env.id)];
    LocalStep(c, 4, Sight(store, cloud), old(env.Value()));
  }

  lemma Programs(cfg: Settings, r: Record)
    ensures ForwardProgram(cfg, Identity, r)
         == if r.dryRun && !cfg.connected then [Check, Fill, Put] else if !cfg.connected then [Check, Refuse]
            else IDENTITY_PROGRAM
    ensures CompensateProgram(cfg, Identity, r)
         == if (r.dryRun && !cfg.connected) || r.svidExchangePolicyName == "" then [Wipe, Put]
            else if !cfg.connected then [Refuse] else IDENTITY_UNDO
  {
  }

  /** The requests of the step, for reference in its methods. */
  lemma Requests(cfg: Settings, r: Record, l: Ledger, v: string)
    ensures !Skips(CreatePolicy, r) && !Skips(ReloadPolicies, r) && !Skips(DeletePolicy, r)
    ensures Intent(cfg, CreatePolicy, r, l, v) == Create(PolicyKey(PolicyName(r.id)), PolicyOf(cfg, r.id))
    ensures Updated(cfg, CreatePolicy, r, l, v) == r.(svidExchangePolicyName := PolicyName(r.id))
    ensures Intent(cfg, ReloadPolicies, r, l, v) == Query && Updated(cfg, ReloadPolicies, r, l, v) == r
    ensures Intent(cfg, DeletePolicy, r, l, v) == Remove(PolicyKey(r.svidExchangePolicyName))
            && Updated(cfg, DeletePolicy, r, l, v) == r
  {
    hide Intent, Updated;
    CreateRequest(cfg, r, l, v);
    ReloadRequest(cfg, r, l, v);
    DeleteRequest(cfg, r, l, v);
  }

  lemma CreateRequest(cfg: Settings, r: Record, l: Ledger, v: string)
    ensures Intent(cfg, CreatePolicy, r, l, v) == Create(PolicyKey(PolicyName(r.id)), PolicyOf(cfg, r.id))
    ensures Updated(cfg, CreatePolicy, r, l, v) == r.(svidExchangePolicyName := PolicyName(r.id))
  {
    hide PolicyName, PolicyOf;
  }

  lemma ReloadRequest(cfg: Settings, r: Record, l: Ledger, v: string)
    ensures Intent(cfg, ReloadPolicies, r, l, v) == Query && Updated(cfg, ReloadPolicies, r, l, v) == r
  {
  }

  lemma DeleteRequest(cfg: Settings, r: Record, l: Ledger, v: string)
    ensures Intent(cfg, DeletePolicy, r, l, v) == Remove(PolicyKey(r.svidExchangePolicyName))
            && Updated(cfg, DeletePolicy, r, l, v) == r
  {
  }

  method FillFields(cfg: Settings, env: Environment)
    requires !cfg.connected
    modifies env
    ensures env.Value() == With(cfg, Identity, old(env.Value()))
  {
    env.spireEntryIds := ["entry-app-dryrun-" + Short(env.id), "entry-db-dryrun-" + Short(env.id)];
    env.svidExchangePolicyName := "policy-env-" + Short(env.id);
  }

  /** Create, verify, reload. */
  method CreateChecked(cfg: Settings, ghost c: Course, env: Environment, store: Store, cloud: Cloud, create: Outcome,
                       list: Outcome, reload: Outcome) returns (ok: bool)
    requires c.cfg == cfg && c.prog == IDENTITY_PROGRAM && On(c, 1, Sight(store, cloud), env.Value())
             && c.script[2] == create && c.script[3] == list && c.script[4] == reload
    modifies env, cloud
    ensures if ok then On(c, 4, Sight(store, cloud), env.Value()) else Ends(c, Sight(store, cloud), false)
  {
    hide On, Ends, Sight, Intent, Updated, Skips, PolicyOf, PolicyName;
    ok := CreateNamed(cfg, c, env, store, cloud, create);
    if !ok { return; }
    ok := VerifyCreated(c, env, store, cloud, list);
    if !ok { return; }
    Requests(cfg, env.Value(), cloud.ledger, Value(reload));
    ok := Ask(c, 3, ReloadPolicies, env, store, cloud, Query, reload);
  }

  method CreateNamed(cfg: Settings, ghost c: Course, env: Environment, store: Store, cloud: Cloud,
                     create: Outcome) returns (ok: bool)
    requires c.cfg == cfg && c.prog == IDENTITY_PROGRAM && On(c, 1, Sight(store, cloud), env.Value())
             && c.script[2] == create
    modifies env, cloud
    ensures if ok then On(c, 2, Sight(store, cloud), env.Value()) else Ends(c, Sight(store, cloud), false)
  {
    hide On, Ends, Sight, PolicyName, PolicyOf, Intent, Updated, Skips;
    Requests(cfg, env.Value(), cloud.ledger, Value(create));
    ok := Ask(c, 1, CreatePolicy, env, store, cloud, Create(PolicyKey(PolicyName(env.id)), PolicyOf(cfg, env.id)),
              create);
    if !ok { return; }
    env.svidExchangePolicyName := PolicyName(env.id);
  }

  method VerifyCreated(ghost c: Course, env: Environment, store: Store, cloud: Cloud, list: Outcome) returns (ok: bool)
    requires c.prog == IDENTITY_PROGRAM && On(c, 2, Sight(store, cloud), env.Value()) && c.script[3] == list
    modifies cloud
    ensures if ok then On(c, 3, Sight(store, cloud), env.Value()) else Ends(c, Sight(store, cloud), false)
  {
    hide On, Ends, Sight, Joined, Lists, Named, AsWanted;
    var policies := ListPolicies(cloud);
    var verified := Verify(policies, env.svidExchangePolicyName);
    VerifiedIff(policies, cloud.ledger, env.svidExchangePolicyName);
    Cascade.JoinedScopes();
    ok := Ask(c, 2, VerifyPolicy, env, store, cloud, if verified then Query else Reject, list);
  }

  /** Clears the entries of a record, r, whose policy name is already cleared, and stores it. */
  method Forget(ghost c: Course, ghost pc: nat, ghost r: Record, env: Environment, store: Store, cloud: Cloud, now: nat,
                o: Outcome) returns (ok: bool)
    requires store.Valid() && c.step == Identity && |c.prog| == pc + 2 && c.prog[pc] == Wipe && c.prog[pc + 1] == Put
    requires On(c, pc, Sight(store, cloud), r) && o == c.script[pc + 2]
             && env.Value() == r.(svidExchangePolicyName := "")
    modifies env, store`rows
    ensures store.Valid()
    ensures Ends(c, Sight(store, cloud), ok)
  {
    hide On, Ends, Sight, Records.Without;
    env.spireEntryIds := [];
    Cleared(r);
    LocalStep(c, pc, Sight(store, cloud), r);
    ok := Finish(c, env, store, cloud, now, o);
  }

  method Compensate(cfg: Settings, env: Environment, store: Store, cloud: Cloud, script: seq<Outcome>,
                    now: nat) returns (ok: bool)
    requires store.Valid() && |script| >= 11
    modifies env, store, cloud
    ensures store.Valid()
    ensures Ends(CompensateCourse(cfg, Identity, old(Sight(store, cloud)), old(env.Value()), script),
                 Sight(store, cloud), ok)
  {
    hide On, Ends, Sight, Records.Without, Intent, Updated, Skips, CompensateProgram;
    Programs(cfg, env.Value());
    ghost var c := CompensateCourse(cfg, Identity, Sight(store, cloud), env.Value(), script);
    if env.dryRun && !cfg.connected {
      env.svidExchangePolicyName := "";
      ok := Forget(c, 0, old(env.Value()), env, store, cloud, now, script[2]);
      return;
    }
    var pc := 0;
    if env.svidExchangePolicyName != "" {
      if !cfg.connected {
        RefuseStep(c, 0, Sight(store, cloud), env.Value());
        return false;
      }
      ok := DeleteActive(c, env, store, cloud, script[1], script[2]);
      if !ok { return; }
      pc := 2;
    }
    ok := Forget(c, pc, old(env.Value()), env, store, cloud, now, script[pc + 2]);
  }

  lemma Cleared(r: Record)
    ensures Records.Without(Identity, r) == r.(spireEntryIds := [], svidExchangePolicyName := "")
  {
  }

  /** The record forgets the policy's name, in memory, between the delete and the reload. */
  method DeleteActive(ghost c: Course, env: Environment, store: Store, cloud: Cloud, delete: Outcome,
                      reload: Outcome) returns (ok: bool)
    requires c.prog == IDENTITY_UNDO && On(c, 0, Sight(store, cloud), env.Value()) && c.script[1] == delete
             && c.script[2] == reload
    modifies env, cloud
    ensures env.Value() == if ok then old(env.Value()).(svidExchangePolicyName := "") else env.Value()
    ensures if ok then On(c, 2, Sight(store, cloud), old(env.Value())) else Ends(c, Sight(store, cloud), false)
  {
    hide On, Ends, Sight, Intent, Updated, Skips, PolicyOf, PolicyName, Short, Value;
    Requests(c.cfg, env.Value(), cloud.ledger, Value(delete));
    ok := Ask(c, 0, DeletePolicy, env, store, cloud, Remove(PolicyKey(env.svidExchangePolicyName)), delete);
    if !ok { return; }
    env.svidExchangePolicyName := "";
    Requests(c.cfg, old(env.Value()), cloud.ledger, Value(reload));
    ok := AskAs(c, 1, ReloadPolicies, old(env.Value()), Short(env.id), store, cloud, Query, reload);
  }

  method IsAlreadyDone(env: Environment) returns (done: bool)
    ensures done == Marked(Identity, env.Value())
  {
    return env.svidExchangePolicyName != "";
  }
}
