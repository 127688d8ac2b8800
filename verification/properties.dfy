/**
 * Properties that span operations: the referential invariant every operation keeps (a
 * binding record never outlives its instance record), what partial failures leave
 * behind, how repeated requests are answered, and the lifecycle the broker's end-to-end
 * test walks through.
 */
module Properties {
  import opened Outcomes
  import opened Text
  import opened Names
  import opened Records
  import opened Catalog
  import opened Radosgw
  import opened Lifecycle

  /** The binding record at `p` names its own path, an instance id without `/`, and that instance's record exists. */
  predicate BindOwned(st: Store, p: string)
    requires p in st.objects && st.objects[p].BindRecord?
  {
    var bd := st.objects[p].bind;
    && '/' !in bd.user
    && p == BindObjName(bd.user, bd.subuser)
    && InstanceObjName(bd.user) in st.objects
  }

  /** Every binding record belongs to an instance whose record is in the store. */
  predicate BindsOwned(st: Store) {
    forall p :: p in st.objects && st.objects[p].BindRecord? ==> BindOwned(st, p)
  }

  /** A request to the broker. */
  datatype Request =
    | ServicesReq
    | ProvisionReq(instanceId: string, planId: string)
    | UpdateReq(instanceId: string, planId: string, previousPlanId: string)
    | DeprovisionReq(instanceId: string)
    | BindReq(instanceId: string, bindingId: string)
    | UnbindReq(instanceId: string, bindingId: string)
    | LastOperationReq(instanceId: string, operationData: string)

  /** The world after serving `req`. */
  function Step(b: Broker, w: World, req: Request, o: Oracle): World {
    match req
    case ServicesReq => Services(b, w).world
    case ProvisionReq(i, p) => Provision(b, w, i, p, o).world
    case UpdateReq(i, p, q) => Update(b, w, i, p, q, o).world
    case DeprovisionReq(i) => Deprovision(b, w, i, o).world
    case BindReq(i, bid) => Lifecycle.Bind(b, w, i, bid, o).world
    case UnbindReq(i, bid) => Unbind(b, w, i, bid, o).world
    case LastOperationReq(i, d) => GetLastOperation(b, w, i, d).world
  }

  /** Instance ids are opaque, but the invariant is kept for bindings of ids without `/`. */
  predicate SlashFreeBind(req: Request) {
    req.BindReq? ==> '/' !in req.instanceId
  }

  /** The world after serving a sequence of requests, each with its own oracle. */
  function Run(b: Broker, w: World, reqs: seq<(Request, Oracle)>): World
    decreases |reqs|
  {
    if |reqs| == 0 then w else Run(b, Step(b, w, reqs[0].0, reqs[0].1), reqs[1..])
  }

  lemma ProvisionKeepsBindsOwned(b: Broker, w: World, instanceId: string, planId: string, o: Oracle)
    requires BindsOwned(w.store)
    ensures BindsOwned(Provision(b, w, instanceId, planId, o).world.store)
  {
    var r := Provision(b, w, instanceId, planId, o);
    if r.result.Ok? {
      var st, st', inst := w.store, r.world.store, InstanceObjName(instanceId);
      forall p | p in st'.objects && st'.objects[p].BindRecord?
        ensures BindOwned(st', p)
      {
        assert p != inst;
        assert p in st'.objects - {inst};
        assert p in st.objects && st.objects[p] == st'.objects[p];
        assert BindOwned(st, p);
        var u := InstanceObjName(st.objects[p].bind.user);
        assert u == inst || u in st.objects - {inst};
      }
    }
  }

  lemma DeprovisionKeepsBindsOwned(b: Broker, w: World, instanceId: string, o: Oracle)
    requires BindsOwned(w.store)
    ensures BindsOwned(Deprovision(b, w, instanceId, o).world.store)
  {
    var r := Deprovision(b, w, instanceId, o);
    if r.result.Ok? {
      var st, st', inst := w.store, r.world.store, InstanceObjName(instanceId);
      forall p | p in st'.objects && st'.objects[p].BindRecord?
        ensures BindOwned(st', p)
      {
        assert p in st.objects && st.objects[p] == st'.objects[p];
        assert BindOwned(st, p);
        var bd := st.objects[p].bind;
        assert HasPrefix(p, BindsPrefix(bd.user));
        assert bd.user != instanceId;
      }
    }
  }

  lemma BindKeepsBindsOwned(b: Broker, w: World, instanceId: string, bindingId: string, o: Oracle)
    requires BindsOwned(w.store)
    requires '/' !in instanceId
    ensures BindsOwned(Lifecycle.Bind(b, w, instanceId, bindingId, o).world.store)
  {
    var r := Lifecycle.Bind(b, w, instanceId, bindingId, o);
    if r.result.Ok? {
      var st, st', path := w.store, r.world.store, BindObjName(instanceId, bindingId);
      forall p | p in st'.objects && st'.objects[p].BindRecord?
        ensures BindOwned(st', p)
      {
        if p != path {
          assert p in st'.objects - {path};
          assert p in st.objects && st.objects[p] == st'.objects[p];
          assert BindOwned(st, p);
          var u := InstanceObjName(st.objects[p].bind.user);
          assert u == path || u in st.objects - {path};
        } else {
          assert instanceId == st'.objects[p].bind.user;
          var u := InstanceObjName(instanceId);
          assert u == path || u in st.objects - {path};
        }
      }
    }
  }

  lemma UnbindKeepsBindsOwned(b: Broker, w: World, instanceId: string, bindingId: string, o: Oracle)
    requires BindsOwned(w.store)
    ensures BindsOwned(Unbind(b, w, instanceId, bindingId, o).world.store)
  {
    var r := Unbind(b, w, instanceId, bindingId, o);
    if r.result.Ok? {
      var st, st', path := w.store, r.world.store, BindObjName(instanceId, bindingId);
      assert BindOwned(st, path);
      var gone := st.objects[path].bind;
      forall p | p in st'.objects && st'.objects[p].BindRecord?
        ensures BindOwned(st', p)
      {
        assert p in st.objects && st.objects[p] == st'.objects[p];
        assert BindOwned(st, p);
        BindIsNotSlashFreeInstance(gone.user, gone.subuser, st.objects[p].bind.user);
      }
    }
  }

  /** Every operation keeps every binding record's instance record in the store. */
  lemma StepKeepsBindsOwned(b: Broker, w: World, req: Request, o: Oracle)
    requires BindsOwned(w.store) && SlashFreeBind(req)
    ensures BindsOwned(Step(b, w, req, o).store)
  {
    match req
    case ServicesReq =>
    case ProvisionReq(i, p) => ProvisionKeepsBindsOwned(b, w, i, p, o);
    case UpdateReq(i, p, q) =>
    case DeprovisionReq(i) => DeprovisionKeepsBindsOwned(b, w, i, o);
    case BindReq(i, bid) => BindKeepsBindsOwned(b, w, i, bid, o);
    case UnbindReq(i, bid) => UnbindKeepsBindsOwned(b, w, i, bid, o);
    case LastOperationReq(i, d) =>
  }

  /** Along any sequence of requests and backend failures, no binding record outlives its instance record. */
  lemma {:induction false} RunKeepsBindsOwned(b: Broker, w: World, reqs: seq<(Request, Oracle)>)
    requires BindsOwned(w.store)
    requires forall k :: 0 <= k < |reqs| ==> SlashFreeBind(reqs[k].0)
    ensures BindsOwned(Run(b, w, reqs).store)
    decreases |reqs|
  {
    if |reqs| > 0 {
      StepKeepsBindsOwned(b, w, reqs[0].0, reqs[0].1);
      RunKeepsBindsOwned(b, Step(b, w, reqs[0].0, reqs[0].1), reqs[1..]);
    }
  }

  /** The error an operation returned, if any; reading the last operation changes nothing and counts as none. */
  function Outcome(b: Broker, w: World, req: Request, o: Oracle): Option<Error> {
    match req
    case ServicesReq => None
    case ProvisionReq(i, p) => ErrorOf(Provision(b, w, i, p, o).result)
    case UpdateReq(i, p, q) => ErrorOf(Update(b, w, i, p, q, o).result)
    case DeprovisionReq(i) => ErrorOf(Deprovision(b, w, i, o).result)
    case BindReq(i, bid) => ErrorOf(Lifecycle.Bind(b, w, i, bid, o).result)
    case UnbindReq(i, bid) => ErrorOf(Unbind(b, w, i, bid, o).result)
    case LastOperationReq(_, _) => None
  }

  function ErrorOf<T>(r: Result<T, Error>): Option<Error> {
    if r.Err? then Some(r.error) else None
  }

  /** Whether a failed request leaves its error for `LastOperation`: panics and a failed instance-record write do not. */
  predicate Recorded(req: Request, e: Error) {
    !e.IsPanic() && !(req.ProvisionReq? && e.StoreFailure?)
  }

  /**
   * `LastOperation` after any other request reports that request's outcome: the
   * configured state after a success, its error after a recorded failure, and whatever
   * it reported before after a panic or a failed instance-record write.
   */
  lemma LastOperationReportsOutcome(b: Broker, w: World, req: Request, o: Oracle, instanceId: string, data: string)
    requires !req.LastOperationReq?
    ensures var lo := GetLastOperation(b, Step(b, w, req, o), instanceId, data).result;
            match Outcome(b, w, req, o)
            case None => lo == Ok(LastOperation(b.lastOperationState, b.lastOperationDescription))
            case Some(e) =>
              if Recorded(req, e) then lo == Err(e)
              else lo == GetLastOperation(b, w, instanceId, data).result
  {
    match req
    case ServicesReq =>
    case ProvisionReq(i, p) =>
    case UpdateReq(i, p, q) =>
    case DeprovisionReq(i) =>
    case BindReq(i, bid) =>
    case UnbindReq(i, bid) =>
  }

  /**
   * Unbind stops at the first failing delete, in the order key, subuser, record: a failed
   * key delete changes nothing, a failed subuser delete leaves the key deleted and the
   * subuser in place, a failed record delete leaves both deleted and the record in place.
   */
  lemma UnbindStopsAtFirstFailedDelete(b: Broker, w: World, instanceId: string, bindingId: string, o: Oracle)
    requires b.injected.unbind.None?
    requires InstanceObjName(instanceId) in w.store.objects
    requires var path := BindObjName(instanceId, bindingId);
             path in w.store.objects && w.store.objects[path].BindRecord?
    requires StatInstance !in o.failing && StatBinding !in o.failing && GetRecord !in o.failing
    requires var bd := w.store.objects[BindObjName(instanceId, bindingId)].bind;
             var uid := Uid(bd.user, bd.tenant);
             && uid in w.gateway.users
             && (exists k :: k in w.gateway.users[uid].keys && k.accessKey == bd.s3AccessKey)
             && (exists s :: s in w.gateway.users[uid].subusers && s.id == SubuserId(uid, bd.subuser))
    ensures var r := Unbind(b, w, instanceId, bindingId, o);
            var path := BindObjName(instanceId, bindingId);
            var bd := w.store.objects[path].bind;
            var uid := Uid(bd.user, bd.tenant);
            && (DeleteKeyCall in o.failing ==>
                  r.result == Err(GatewayFailure(DeleteKeyCall, Unavailable)) && r.world.gateway == w.gateway)
            && (DeleteKeyCall !in o.failing && DeleteSubuserCall in o.failing ==>
                  && r.result == Err(GatewayFailure(DeleteSubuserCall, Unavailable))
                  && path in r.world.store.objects
                  && uid in r.world.gateway.users
                  && (forall k :: k in r.world.gateway.users[uid].keys ==> k.accessKey != bd.s3AccessKey)
                  && r.world.gateway.users[uid].subusers == w.gateway.users[uid].subusers)
            && (DeleteKeyCall !in o.failing && DeleteSubuserCall !in o.failing && DeleteRecord in o.failing ==>
                  && r.result == Err(StoreFailure(DeleteRecord, StoreUnavailable))
                  && path in r.world.store.objects
                  && uid in r.world.gateway.users
                  && (forall k :: k in r.world.gateway.users[uid].keys ==> k.accessKey != bd.s3AccessKey)
                  && (forall s :: s in r.world.gateway.users[uid].subusers ==> s.id != SubuserId(uid, bd.subuser)))
            && (DeleteKeyCall !in o.failing && DeleteSubuserCall !in o.failing && DeleteRecord !in o.failing ==>
                  r.result.Ok? && path !in r.world.store.objects)
  {
    var path := BindObjName(instanceId, bindingId);
    assert Unbind(b, w, instanceId, bindingId, o) == Revoke(w, path, w.store.objects[path].bind, o);
  }

  /**
   * A Bind whose record write fails leaves the new key and subuser on the gateway with
   * no binding record naming them; when the write succeeds the binding is complete.
   */
  lemma BindRecordWriteDecides(b: Broker, w: World, instanceId: string, bindingId: string, o: Oracle)
    requires b.injected.bind.None?
    requires InstanceObjName(instanceId) in w.store.objects
    requires BindObjName(instanceId, bindingId) !in w.store.objects
    requires StatInstance !in o.failing && CreateKeyCall !in o.failing
    requires CreateSubuserCall !in o.failing && GetUserCall !in o.failing
    requires var uid := InstanceUid(instanceId);
             && uid in w.gateway.users
             && (forall k :: k in w.gateway.users[uid].keys ==> k.accessKey != o.gen.accessKey)
             && (forall s :: s in w.gateway.users[uid].subusers ==> s.id != SubuserId(uid, bindingId))
    ensures var r := Lifecycle.Bind(b, w, instanceId, bindingId, o);
            var uid := InstanceUid(instanceId);
            && uid in r.world.gateway.users
            && (exists k :: k in r.world.gateway.users[uid].keys && k.accessKey == o.gen.accessKey)
            && (exists s :: s in r.world.gateway.users[uid].subusers && s.id == SubuserId(uid, bindingId))
            && (PutRecord in o.failing ==>
                  r.result == Err(StoreFailure(PutRecord, StoreUnavailable)) && r.world.store == w.store)
            && (PutRecord !in o.failing ==> r.result.Ok? && BindObjName(instanceId, bindingId) in r.world.store.objects)
  {
    var uid := InstanceUid(instanceId);
    var tenant := CreateTenantID(instanceId);
    var c1 := CreateS3Key(w.gateway, instanceId, tenant, o.gen, false);
    assert c1.Ok?;
    var g1 := c1.value.0;
    assert g1.users[uid].subusers == w.gateway.users[uid].subusers;
    var c2 := CreateSubuser(g1, instanceId, bindingId, tenant, o.gen, false);
    assert c2.Ok?;
    var u2 := c2.value.0.users[uid];
    assert u2.keys == g1.users[uid].keys;
    assert u2.keys[|u2.keys| - 1].accessKey == o.gen.accessKey;
    assert u2.subusers[|u2.subusers| - 1].id == SubuserId(uid, bindingId);
    assert |u2.swiftKeys| > 0;
  }

  /**
   * Provision with a plan that has no usable quota fails after creating the gateway user,
   * which stays behind with no instance record.
   */
  lemma ProvisionOrphansUserOnBadPlan(b: Broker, w: World, instanceId: string, planId: string, o: Oracle)
    requires b.injected.provision.None?
    requires InstanceCount(w.store) < b.config.instanceLimit
    requires InstanceObjName(instanceId) !in w.store.objects
    requires InstanceUid(instanceId) !in w.gateway.users
    requires CreateUserCall !in o.failing
    requires GetPlanQuota(b.catalog, planId).Err?
    ensures var r := Provision(b, w, instanceId, planId, o);
            && r.result == Err(PlanLookup(GetPlanQuota(b.catalog, planId).error))
            && InstanceUid(instanceId) in r.world.gateway.users
            && InstanceObjName(instanceId) !in r.world.store.objects
  {
  }

  /** A second Provision of a provisioned instance is refused and changes nothing but the last error. */
  lemma ProvisionTwiceRefused(b: Broker, w: World, instanceId: string, planId: string, o1: Oracle, o2: Oracle)
    requires Provision(b, w, instanceId, planId, o1).result.Ok?
    requires StatInstance !in o2.failing
    ensures var w1 := Provision(b, w, instanceId, planId, o1).world;
            var r := Provision(b, w1, instanceId, planId, o2);
            Refused(w1, r, InstanceAlreadyExists) || Refused(w1, r, InstanceLimitMet)
  {
  }

  /** A second Bind of the same binding is refused as already existing. */
  lemma BindTwiceRefused(b: Broker, w: World, instanceId: string, bindingId: string, o1: Oracle, o2: Oracle)
    requires Lifecycle.Bind(b, w, instanceId, bindingId, o1).result.Ok?
    requires StatInstance !in o2.failing && StatBinding !in o2.failing
    ensures var w1 := Lifecycle.Bind(b, w, instanceId, bindingId, o1).world;
            Refused(w1, Lifecycle.Bind(b, w1, instanceId, bindingId, o2), BindingAlreadyExists)
  {
    var w1 := Lifecycle.Bind(b, w, instanceId, bindingId, o1).world;
    var path := BindObjName(instanceId, bindingId);
    assert InstanceObjName(instanceId) != path;
    assert InstanceObjName(instanceId) in w1.store.objects - {path};
  }

  /** A second Unbind of the same binding is refused as gone, and changes nothing but the last error. */
  lemma UnbindTwiceRefused(b: Broker, w: World, instanceId: string, bindingId: string, o1: Oracle, o2: Oracle)
    requires Unbind(b, w, instanceId, bindingId, o1).result.Ok?
    requires StatInstance !in o2.failing
    ensures var w1 := Unbind(b, w, instanceId, bindingId, o1).world;
            Refused(w1, Unbind(b, w1, instanceId, bindingId, o2), BindingDoesNotExist)
  {
    var w1 := Unbind(b, w, instanceId, bindingId, o1).world;
    var path := BindObjName(instanceId, bindingId);
    assert InstanceObjName(instanceId) != path;
    assert InstanceObjName(instanceId) in w.store.objects - {path};
  }

  /** A second Deprovision is refused as gone, whatever the backend does. */
  lemma DeprovisionTwiceRefused(b: Broker, w: World, instanceId: string, o1: Oracle, o2: Oracle)
    requires Deprovision(b, w, instanceId, o1).result.Ok?
    ensures var w1 := Deprovision(b, w, instanceId, o1).world;
            Refused(w1, Deprovision(b, w1, instanceId, o2), InstanceDoesNotExist)
  {
  }
}
