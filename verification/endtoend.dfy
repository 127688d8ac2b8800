/**
 * The broker's end-to-end test (tests/broker_test.go) as a lemma: with a healthy backend,
 * the request sequence that test sends gets the answers it expects, and a full
 * provision-bind-unbind-deprovision cycle leaves the record store and the gateway as
 * they were before it.
 */
module EndToEnd {
  import opened Outcomes
  import opened Text
  import opened Names
  import opened Records
  import opened Catalog
  import opened Radosgw
  import opened Lifecycle
  import opened Properties
  import GoConv
  import Config

  /** An oracle under which no backend call fails. */
  function Healthy(gen: Generated): Oracle {
    Oracle({}, gen)
  }

  /** After Provision, Bind and Unbind, the store holds the start's objects plus the instance record. */
  lemma NoBindsAfterUnbind(st0: Store, st3: Store, id: string)
    requires !HasBinds(st0, id)
    requires forall p :: p in st3.objects ==> p in st0.objects || p == InstanceObjName(id)
    ensures !HasBinds(st3, id)
  {
    forall p | p in st3.objects
      ensures !HasPrefix(p, BindsPrefix(id))
    {
      if p == InstanceObjName(id) {
        assert |p| < |BindsPrefix(id)|;
      }
    }
  }

  /** A user whose stored quota is `q` MB in KB reads back a quota of `q` MB. */
  lemma StoredQuotaReadsBack(g: Gateway, id: string, q: int)
    requires InstanceUid(id) in g.users && g.users[InstanceUid(id)].maxSizeKb == q * 1024
    ensures GetUserQuotaMB(g, id, CreateTenantID(id), false) == Ok(q)
  {
  }

  /** Provision on a healthy backend succeeds with the plan's quota. */
  lemma ProvisionHealthy(b: Broker, w: World, id: string, p0: string, q0: int, gen1: Generated)
    requires b.injected.provision.None?
    requires InstanceCount(w.store) < b.config.instanceLimit
    requires InstanceObjName(id) !in w.store.objects && InstanceUid(id) !in w.gateway.users
    requires GetPlanQuota(b.catalog, p0) == Ok(q0) && GoConv.IsInt64(q0 * 1024)
    ensures
      var (inst, uid) := (InstanceObjName(id), InstanceUid(id));
      var r1 := Provision(b, w, id, p0, Healthy(gen1));
      && r1.result.Ok? && GetUserQuotaMB(r1.world.gateway, id, CreateTenantID(id), false) == Ok(q0)
      && r1.world.store.objects == w.store.objects[inst := InstanceRecord]
      && uid in r1.world.gateway.users && r1.world.gateway.users - {uid} == w.gateway.users - {uid}
      && var u := r1.world.gateway.users[uid];
      && u.sizeKb == 0 && u.maxSizeKb == q0 * 1024
      && |u.keys| == 1 && u.keys[0].accessKey == gen1.accessKey && u.subusers == []
  {
    var uid := InstanceUid(id);
    var r1 := Provision(b, w, id, p0, Healthy(gen1));
    assert r1.result.Ok?;
    var u1 := r1.world.gateway.users[uid];
    assert u1 == NewUser(id, id, CreateTenantID(id), gen1).(maxSizeKb := q0 * 1024, quotaEnabled := true);
  }

  /**
   * Provision on a healthy backend succeeds with the plan's quota; with room for one more
   * instance under the limit, the repeat is refused as already existing (409).
   */
  lemma ProvisionStage(b: Broker, w: World, id: string, p0: string, q0: int, gen1: Generated)
    requires b.injected.provision.None? && '/' !in id
    requires InstanceCount(w.store) + 1 < b.config.instanceLimit
    requires InstanceObjName(id) !in w.store.objects && InstanceUid(id) !in w.gateway.users
    requires GetPlanQuota(b.catalog, p0) == Ok(q0) && GoConv.IsInt64(q0 * 1024)
    ensures
      var (inst, uid) := (InstanceObjName(id), InstanceUid(id));
      var r1 := Provision(b, w, id, p0, Healthy(gen1));
      var r2 := Provision(b, r1.world, id, p0, Healthy(gen1));
      && r1.result.Ok?
      && r2.result == Err(InstanceAlreadyExists)
      && inst in r2.world.store.objects && r2.world.store.objects - {inst} == w.store.objects - {inst}
      && uid in r2.world.gateway.users && r2.world.gateway.users - {uid} == w.gateway.users - {uid}
      && var u := r2.world.gateway.users[uid];
      && u.sizeKb == 0 && u.maxSizeKb == q0 * 1024
      && |u.keys| == 1 && u.keys[0].accessKey == gen1.accessKey && u.subusers == []
  {
    ProvisionHealthy(b, w, id, p0, q0, gen1);
    InstanceCountAdd(w.store, id, InstanceRecord);
    ProvisionTwiceRefused(b, w, id, p0, Healthy(gen1), Healthy(gen1));
  }

  /** Bind on a healthy backend succeeds; binding again, or to an unknown instance, is refused. */
  lemma BindStage(b: Broker, w: World, id: string, bid: string, gen2: Generated)
    requires b.injected.bind.None? && '/' !in id
    requires InstanceObjName(id) in w.store.objects && InstanceObjName(id + "x") !in w.store.objects
    requires BindObjName(id, bid) !in w.store.objects
    requires InstanceUid(id) in w.gateway.users
    requires forall k :: k in w.gateway.users[InstanceUid(id)].keys ==> k.accessKey != gen2.accessKey
    requires forall s :: s in w.gateway.users[InstanceUid(id)].subusers ==> s.id != SubuserId(InstanceUid(id), bid)
    ensures
      var (bp, uid) := (BindObjName(id, bid), InstanceUid(id));
      var r3 := Lifecycle.Bind(b, w, id, bid, Healthy(gen2));
      var r4 := Lifecycle.Bind(b, r3.world, id, bid, Healthy(gen2));
      var r5 := Lifecycle.Bind(b, r4.world, id + "x", bid, Healthy(gen2));
      && r3.result.Ok?
      && r3.result.value.s3User == uid && r3.result.value.swiftUser == SubuserId(uid, bid)
      && r4.result == Err(BindingAlreadyExists)
      && r5.result == Err(InstanceDoesNotExist)
      && bp in r5.world.store.objects && r5.world.store.objects - {bp} == w.store.objects - {bp}
      && r5.world.store.objects[bp]
         == BindRecord(Records.Bind(gen2.accessKey, gen2.swiftSecret, id, bid, CreateTenantID(id)))
      && uid in r5.world.gateway.users && r5.world.gateway.users - {uid} == w.gateway.users - {uid}
      && var (u, u') := (w.gateway.users[uid], r5.world.gateway.users[uid]);
      && u'.sizeKb == u.sizeKb && u'.maxSizeKb == u.maxSizeKb
      && (exists k :: k in u'.keys && k.accessKey == gen2.accessKey)
      && (exists s :: s in u'.subusers && s.id == SubuserId(uid, bid))
  {
    var (inst, bp, uid, tenant) := (InstanceObjName(id), BindObjName(id, bid), InstanceUid(id), CreateTenantID(id));
    var c1 := CreateS3Key(w.gateway, id, tenant, gen2, false);
    assert c1.Ok?;
    var c2 := CreateSubuser(c1.value.0, id, bid, tenant, gen2, false);
    assert c2.Ok?;
    var r3 := Lifecycle.Bind(b, w, id, bid, Healthy(gen2));
    assert r3.result.Ok?;
    var u3 := r3.world.gateway.users[uid];
    assert u3.keys[|u3.keys| - 1].accessKey == gen2.accessKey;
    assert u3.subusers[|u3.subusers| - 1].id == SubuserId(uid, bid);
    assert inst in r3.world.store.objects - {bp};
    BindIsNotSlashFreeInstance(id, bid, id + "x");
  }

  /**
   * A plan change sent without previous values (the previous plan id reads as empty) on a
   * healthy backend, for a user that stores nothing, sets exactly that user's quota.
   */
  lemma PlanChangeHealthy(b: Broker, w: World, id: string, p1: string, q1: int, gen1: Generated)
    requires b.injected.update.None?
    requires GetPlanQuota(b.catalog, p1) == Ok(q1) && GoConv.IsInt64(q1 * 1024) && q1 > 0 && p1 != ""
    requires InstanceUid(id) in w.gateway.users && w.gateway.users[InstanceUid(id)].sizeKb == 0
    ensures
      var uid := InstanceUid(id);
      var r := Update(b, w, id, p1, "", Healthy(gen1));
      && r.result.Ok? && r.world.store == w.store
      && uid in r.world.gateway.users
      && r.world.gateway.users[uid] == w.gateway.users[uid].(maxSizeKb := q1 * 1024, quotaEnabled := true)
      && r.world.gateway.users - {uid} == w.gateway.users - {uid}
  {
    assert GetUserUsageMB(w.gateway, id, CreateTenantID(id), false) == Ok(0);
    assert |b.catalog| > 0;
  }

  /**
   * The update requests of the end-to-end test, none carrying a previous plan: a plan
   * change, the same change again, and a change to an unknown plan. Both changes succeed,
   * the unknown plan is refused, and the quota read afterwards is the new plan's.
   */
  lemma UpdateStage(b: Broker, w: World, id: string, p1: string, q1: int, gen1: Generated)
    requires b.injected.update.None?
    requires GetPlanQuota(b.catalog, p1) == Ok(q1) && GoConv.IsInt64(q1 * 1024) && q1 > 0 && p1 != ""
    requires GetPlan(b.catalog, p1 + "x").Err?
    requires InstanceUid(id) in w.gateway.users && w.gateway.users[InstanceUid(id)].sizeKb == 0
    ensures
      var uid := InstanceUid(id);
      var r6 := Update(b, w, id, p1, "", Healthy(gen1));
      var r6b := Update(b, r6.world, id, p1, "", Healthy(gen1));
      var r7 := Update(b, r6b.world, id, p1 + "x", "", Healthy(gen1));
      && r6.result.Ok? && r6b.result.Ok?
      && r7.result == Err(PlanChangeNotSupported)
      && GetUserQuotaMB(r7.world.gateway, id, CreateTenantID(id), false) == Ok(q1)
      && r7.world.store == w.store
      && uid in r7.world.gateway.users && r7.world.gateway.users - {uid} == w.gateway.users - {uid}
      && r7.world.gateway.users[uid].keys == w.gateway.users[uid].keys
      && r7.world.gateway.users[uid].subusers == w.gateway.users[uid].subusers
  {
    var uid := InstanceUid(id);
    PlanChangeHealthy(b, w, id, p1, q1, gen1);
    var w6 := Update(b, w, id, p1, "", Healthy(gen1)).world;
    PlanChangeHealthy(b, w6, id, p1, q1, gen1);
    assert |b.catalog| > 0;
  }

  /** Unbind of a stored binding on a healthy backend succeeds; a repeat is refused. */
  lemma UnbindStage(b: Broker, w: World, id: string, bid: string, key: string, secret: string, gen1: Generated)
    requires b.injected.unbind.None?
    requires InstanceObjName(id) in w.store.objects && BindObjName(id, bid) in w.store.objects
    requires w.store.objects[BindObjName(id, bid)] == BindRecord(Records.Bind(key, secret, id, bid, CreateTenantID(id)))
    requires InstanceUid(id) in w.gateway.users
    requires exists k :: k in w.gateway.users[InstanceUid(id)].keys && k.accessKey == key
    requires exists s :: s in w.gateway.users[InstanceUid(id)].subusers && s.id == SubuserId(InstanceUid(id), bid)
    ensures
      var uid := InstanceUid(id);
      var r8 := Unbind(b, w, id, bid, Healthy(gen1));
      var r9 := Unbind(b, r8.world, id, bid, Healthy(gen1));
      && r8.result.Ok? && r9.result == Err(BindingDoesNotExist)
      && r9.world.store.objects == w.store.objects - {BindObjName(id, bid)}
      && uid in r9.world.gateway.users && r9.world.gateway.users - {uid} == w.gateway.users - {uid}
  {
    UnbindStopsAtFirstFailedDelete(b, w, id, bid, Healthy(gen1));
    UnbindTwiceRefused(b, w, id, bid, Healthy(gen1), Healthy(gen1));
  }

  /** Deprovision of an instance without bindings on a healthy backend succeeds; a repeat is refused. */
  lemma DeprovisionStage(b: Broker, w: World, id: string, gen1: Generated)
    requires b.injected.deprovision.None?
    requires InstanceObjName(id) in w.store.objects && !HasBinds(w.store, id)
    requires InstanceUid(id) in w.gateway.users
    ensures
      var uid := InstanceUid(id);
      var r10 := Deprovision(b, w, id, Healthy(gen1));
      var r11 := Deprovision(b, r10.world, id, Healthy(gen1));
      && r10.result.Ok? && r11.result == Err(InstanceDoesNotExist)
      && r10.world.store.objects == w.store.objects - {InstanceObjName(id)}
      && uid !in r10.world.gateway.users && r10.world.gateway.users - {uid} == w.gateway.users - {uid}
  {
  }

  /**
   * Provision twice, bind twice, bind to an unknown instance, change plan twice and then to
   * an unknown plan (never naming a previous plan), unbind twice, deprovision twice: every
   * answer is the one the end-to-end
   * test expects, the quotas read back are the plans' quotas, and the last deprovision
   * leaves the store and the gateway as they were at the start.
   */
  lemma BrokerTestSequence(b: Broker, w: World, id: string, bid: string, p0: string, p1: string,
                            q0: int, q1: int, gen1: Generated, gen2: Generated)
    requires b.injected == InjectedErrors(None, None, None, None, None)
    requires InstanceCount(w.store) + 1 < b.config.instanceLimit
    requires '/' !in id
    requires InstanceObjName(id) !in w.store.objects && InstanceObjName(id + "x") !in w.store.objects
    requires !HasBinds(w.store, id)
    requires InstanceUid(id) !in w.gateway.users
    requires GetPlanQuota(b.catalog, p0) == Ok(q0) && GetPlanQuota(b.catalog, p1) == Ok(q1)
    requires GoConv.IsInt64(q0 * 1024) && GoConv.IsInt64(q1 * 1024) && q1 > 0 && p1 != ""
    requires GetPlan(b.catalog, p1 + "x").Err?
    requires gen1.accessKey != gen2.accessKey
    ensures
      var o1 := Healthy(gen1);
      var o2 := Healthy(gen2);
      var tenant := CreateTenantID(id);
      var r1 := Provision(b, w, id, p0, o1);
      var r2 := Provision(b, r1.world, id, p0, o1);
      var r3 := Lifecycle.Bind(b, r2.world, id, bid, o2);
      var r4 := Lifecycle.Bind(b, r3.world, id, bid, o2);
      var r5 := Lifecycle.Bind(b, r4.world, id + "x", bid, o2);
      var r6 := Update(b, r5.world, id, p1, "", o1);
      var r6b := Update(b, r6.world, id, p1, "", o1);
      var r7 := Update(b, r6b.world, id, p1 + "x", "", o1);
      var r8 := Unbind(b, r7.world, id, bid, o1);
      var r9 := Unbind(b, r8.world, id, bid, o1);
      var r10 := Deprovision(b, r9.world, id, o1);
      var r11 := Deprovision(b, r10.world, id, o1);
      && r1.result.Ok?
      && r2.result == Err(InstanceAlreadyExists)
      && r3.result.Ok?
      && r3.result.value.s3User == InstanceUid(id)
      && r3.result.value.swiftUser == SubuserId(InstanceUid(id), bid)
      && r4.result == Err(BindingAlreadyExists)
      && r5.result == Err(InstanceDoesNotExist)
      && GetUserQuotaMB(r5.world.gateway, id, tenant, false) == Ok(q0)
      && r6.result.Ok? && r6b.result.Ok? && r7.result == Err(PlanChangeNotSupported)
      && GetUserQuotaMB(r7.world.gateway, id, tenant, false) == Ok(q1)
      && r8.result.Ok?
      && r9.result == Err(BindingDoesNotExist)
      && r10.result.Ok?
      && r10.world.store == w.store && r10.world.gateway == w.gateway
      && r11.result == Err(InstanceDoesNotExist)
  {
    FirstHalf(b, w, id, bid, p0, q0, gen1, gen2);
    var w5 := Lifecycle.Bind(b, Lifecycle.Bind(b, Lifecycle.Bind(b,
                Provision(b, Provision(b, w, id, p0, Healthy(gen1)).world, id, p0, Healthy(gen1)).world,
                id, bid, Healthy(gen2)).world, id, bid, Healthy(gen2)).world, id + "x", bid, Healthy(gen2)).world;
    StoredQuotaReadsBack(w5.gateway, id, q0);
    SecondHalf(b, w5, id, bid, p1, q1, gen2.accessKey, gen2.swiftSecret, gen1);
    var o1 := Healthy(gen1);
    var w7 := Update(b, Update(b, Update(b, w5, id, p1, "", o1).world, id, p1, "", o1).world, id, p1 + "x", "", o1).world;
    SameOutside(w.gateway.users, Deprovision(b, Unbind(b, Unbind(b, w7, id, bid, o1).world, id, bid, o1).world,
                id, o1).world.gateway.users, InstanceUid(id));
  }

  /** The provision and bind requests of the end-to-end test. */
  lemma FirstHalf(b: Broker, w: World, id: string, bid: string, p0: string, q0: int, gen1: Generated, gen2: Generated)
    requires b.injected.provision.None? && b.injected.bind.None?
    requires InstanceCount(w.store) + 1 < b.config.instanceLimit
    requires '/' !in id
    requires InstanceObjName(id) !in w.store.objects && InstanceObjName(id + "x") !in w.store.objects
    requires !HasBinds(w.store, id)
    requires InstanceUid(id) !in w.gateway.users
    requires GetPlanQuota(b.catalog, p0) == Ok(q0) && GoConv.IsInt64(q0 * 1024)
    requires gen1.accessKey != gen2.accessKey
    ensures
      var (inst, bp, uid) := (InstanceObjName(id), BindObjName(id, bid), InstanceUid(id));
      var r1 := Provision(b, w, id, p0, Healthy(gen1));
      var r2 := Provision(b, r1.world, id, p0, Healthy(gen1));
      var r3 := Lifecycle.Bind(b, r2.world, id, bid, Healthy(gen2));
      var r4 := Lifecycle.Bind(b, r3.world, id, bid, Healthy(gen2));
      var r5 := Lifecycle.Bind(b, r4.world, id + "x", bid, Healthy(gen2));
      var w5 := r5.world;
      && r1.result.Ok?
      && r2.result == Err(InstanceAlreadyExists)
      && r3.result.Ok?
      && r3.result.value.s3User == uid
      && r3.result.value.swiftUser == SubuserId(uid, bid)
      && r4.result == Err(BindingAlreadyExists)
      && r5.result == Err(InstanceDoesNotExist)
      && inst in w5.store.objects && bp in w5.store.objects
      && w5.store.objects[bp] == BindRecord(Records.Bind(gen2.accessKey, gen2.swiftSecret, id, bid, CreateTenantID(id)))
      && w5.store.objects - {bp} - {inst} == w.store.objects
      && !HasBinds(Store(w5.store.objects - {bp}), id)
      && uid in w5.gateway.users && w5.gateway.users - {uid} == w.gateway.users - {uid}
      && w5.gateway.users[uid].sizeKb == 0
      && w5.gateway.users[uid].maxSizeKb == q0 * 1024
      && (exists k :: k in w5.gateway.users[uid].keys && k.accessKey == gen2.accessKey)
      && (exists s :: s in w5.gateway.users[uid].subusers && s.id == SubuserId(uid, bid))
  {
    var o1 := Healthy(gen1);
    var inst := InstanceObjName(id);
    var bp := BindObjName(id, bid);
    assert bp !in w.store.objects by {
      assert HasPrefix(bp, BindsPrefix(id));
    }
    assert InstanceObjName(id + "x") != inst by {
      if InstanceObjName(id + "x") == inst {
        InstanceObjNameInjective(id + "x", id);
      }
    }
    ProvisionStage(b, w, id, p0, q0, gen1);
    var w2 := Provision(b, Provision(b, w, id, p0, o1).world, id, p0, o1).world;
    assert InstanceObjName(id + "x") !in w2.store.objects by {
      assert InstanceObjName(id + "x") !in w.store.objects - {inst};
    }
    assert bp !in w2.store.objects by {
      assert bp !in w.store.objects - {inst};
    }
    BindStage(b, w2, id, bid, gen2);
    var w5 := Lifecycle.Bind(b, Lifecycle.Bind(b, Lifecycle.Bind(b, w2, id, bid, Healthy(gen2)).world, id, bid, Healthy(gen2)).world,
                             id + "x", bid, Healthy(gen2)).world;
    StoreRestored(w.store.objects, w2.store.objects, w5.store.objects, w5.store.objects - {bp} - {inst}, inst, bp);
    NoBindsAfterUnbind(w.store, Store(w5.store.objects - {bp}), id);
  }

  /** The plan-change, unbind and deprovision requests of the end-to-end test. */
  lemma SecondHalf(b: Broker, w: World, id: string, bid: string, p1: string, q1: int,
                   key: string, secret: string, gen1: Generated)
    requires b.injected.update.None? && b.injected.unbind.None? && b.injected.deprovision.None?
    requires GetPlanQuota(b.catalog, p1) == Ok(q1) && GoConv.IsInt64(q1 * 1024) && q1 > 0 && p1 != ""
    requires GetPlan(b.catalog, p1 + "x").Err?
    requires InstanceObjName(id) in w.store.objects && BindObjName(id, bid) in w.store.objects
    requires w.store.objects[BindObjName(id, bid)] == BindRecord(Records.Bind(key, secret, id, bid, CreateTenantID(id)))
    requires !HasBinds(Store(w.store.objects - {BindObjName(id, bid)}), id)
    requires InstanceUid(id) in w.gateway.users && w.gateway.users[InstanceUid(id)].sizeKb == 0
    requires exists k :: k in w.gateway.users[InstanceUid(id)].keys && k.accessKey == key
    requires exists s :: s in w.gateway.users[InstanceUid(id)].subusers && s.id == SubuserId(InstanceUid(id), bid)
    ensures
      var uid := InstanceUid(id);
      var r6 := Update(b, w, id, p1, "", Healthy(gen1));
      var r6b := Update(b, r6.world, id, p1, "", Healthy(gen1));
      var r7 := Update(b, r6b.world, id, p1 + "x", "", Healthy(gen1));
      var r8 := Unbind(b, r7.world, id, bid, Healthy(gen1));
      var r9 := Unbind(b, r8.world, id, bid, Healthy(gen1));
      var r10 := Deprovision(b, r9.world, id, Healthy(gen1));
      var r11 := Deprovision(b, r10.world, id, Healthy(gen1));
      && r6.result.Ok? && r6b.result.Ok? && r7.result == Err(PlanChangeNotSupported)
      && GetUserQuotaMB(r7.world.gateway, id, CreateTenantID(id), false) == Ok(q1)
      && r8.result.Ok?
      && r9.result == Err(BindingDoesNotExist)
      && r10.result.Ok? && r11.result == Err(InstanceDoesNotExist)
      && r10.world.store.objects == w.store.objects - {BindObjName(id, bid)} - {InstanceObjName(id)}
      && uid !in r10.world.gateway.users && r10.world.gateway.users - {uid} == w.gateway.users - {uid}
  {
    var o1 := Healthy(gen1);
    UpdateStage(b, w, id, p1, q1, gen1);
    var w7 := Update(b, Update(b, Update(b, w, id, p1, "", o1).world, id, p1, "", o1).world, id, p1 + "x", "", o1).world;
    UnbindStage(b, w7, id, bid, key, secret, gen1);
    var w9 := Unbind(b, Unbind(b, w7, id, bid, o1).world, id, bid, o1).world;
    assert w9.store == Store(w.store.objects - {BindObjName(id, bid)});
    DeprovisionStage(b, w9, id, gen1);
  }

  /** Adding `a`, then `c`, then removing `c` and `a` from a map that had neither gives back that map. */
  lemma StoreRestored<V>(m0: map<string, V>, m2: map<string, V>, m5: map<string, V>, m10: map<string, V>, a: string, c: string)
    requires a !in m0 && c !in m0
    requires m2 - {a} == m0 - {a}
    requires m5 - {c} == m2 - {c}
    requires m10 == m5 - {c} - {a}
    ensures m10 == m0
  {
    assert m10 == m2 - {c} - {a};
    assert m10 == m2 - {a} - {c};
  }

  /** Two maps that agree outside `k` and both lack `k` are equal. */
  lemma SameOutside<V>(m: map<string, V>, m': map<string, V>, k: string)
    requires k !in m && k !in m' && m' - {k} == m - {k}
    ensures m' == m
  {
    assert m' == m' - {k};
    assert m == m - {k};
  }

  /** A catalog shaped like the test's: one service whose two plans have quotas of 1024 and 2048 MB. */
  function TestCatalog(): seq<Service> {
    [Service("svc", "svc", [Plan("p0", "small", QuotaText(GoConv.Itoa(1024))),
                            Plan("p1", "large", QuotaText(GoConv.Itoa(2048)))])]
  }

  /** A broker with the default limits and no injected errors, serving `TestCatalog`. */
  function TestBroker(): Broker {
    Broker(TestCatalog(),
           Config.BrokerConfig("key", "secret", "admin", "https://rgw", "https://rgw/", "https://rgw/auth/v1.0",
                               "ceph-objectstore-broker", "user", "password", 2000, "instances/", true),
           InjectedErrors(None, None, None, None, None), false, "", "succeeded", "")
  }

  /**
   * The test's setting meets every requirement of `BrokerTestSequence`: instance `789`
   * on an empty store and gateway, the two plans of `TestCatalog`, and distinct keys.
   */
  lemma TestSettingMeetsRequirements()
    ensures
      var (b, w, id) := (TestBroker(), World(Store(map[]), Gateway(map[]), None), "789");
      var (gen1, gen2) := (Generated("ak1", "sk1", "sw1"), Generated("ak2", "sk2", "sw2"));
      && b.injected == InjectedErrors(None, None, None, None, None)
      && InstanceCount(w.store) + 1 < b.config.instanceLimit
      && '/' !in id
      && InstanceObjName(id) !in w.store.objects && InstanceObjName(id + "x") !in w.store.objects
      && !HasBinds(w.store, id)
      && InstanceUid(id) !in w.gateway.users
      && GetPlanQuota(b.catalog, "p0") == Ok(1024) && GetPlanQuota(b.catalog, "p1") == Ok(2048)
      && GoConv.IsInt64(1024 * 1024) && GoConv.IsInt64(2048 * 1024)
      && GetPlan(b.catalog, "p1" + "x").Err?
      && gen1.accessKey != gen2.accessKey
  {
    var cat := TestCatalog();
    assert DirectObjects(Store(map[]), InstancePrefix) == {};
    assert GetPlan(cat, "p0") == Ok(cat[0].plans[0]);
    assert GetPlan(cat, "p1") == Ok(cat[0].plans[1]);
    PlanQuotaOfPrintedNumber(cat, "p0", 1024);
    PlanQuotaOfPrintedNumber(cat, "p1", 2048);
  }
}
