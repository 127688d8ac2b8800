/**
 * The broker's lifecycle operations (broker/broker.go) as state transitions over the
 * record store, the gateway and the last recorded error. Every operation first runs its
 * existence checks, then a fixed sequence of gateway calls, then one record write; the
 * oracle decides which of those calls fail and what key material the gateway generates.
 */
module Lifecycle {
  import opened Outcomes
  import opened Names
  import opened Records
  import opened Catalog
  import opened Radosgw
  import Config

  /** The backend calls an operation can make; each occurs at most once per operation. */
  datatype Call =
    | StatInstance | StatBinding | PutRecord | GetRecord | DeleteRecord
    | CreateUserCall | DeleteUserCall | SetQuotaCall | GetUsageCall
    | CreateKeyCall | CreateSubuserCall | GetUserCall | DeleteKeyCall | DeleteSubuserCall

  /** Which calls fail during one operation, and what the gateway generates in it. */
  datatype Oracle = Oracle(failing: set<Call>, gen: Generated)

  datatype Error =
    | InstanceLimitMet
    | InstanceAlreadyExists
    | InstanceDoesNotExist
    | BindingAlreadyExists
    | BindingDoesNotExist
    | PlanChangeNotSupported
    | UsageExceedsNewQuota
    | FailureResponse(status: int, loggerAction: string)
    | PlanLookup(cause: PlanError)
    | GatewayFailure(call: Call, reason: GatewayError)
    | StoreFailure(call: Call, why: StoreError)
    | BindUndecodable
    | Injected(message: string)
    | SwiftKeyMissing
  {
    /** Errors that are Go panics rather than returned errors. */
    predicate IsPanic() {
      (PlanLookup? && cause.IsPanic()) || SwiftKeyMissing?
    }
  }

  /** Deprovisioning an instance that still has bindings. */
  const DeprovisionWithBinds: Error := FailureResponse(403, "deprovision-with-existing-binds")

  /** The errors a test double injects per operation; a set one is returned before anything happens. */
  datatype InjectedErrors = InjectedErrors(provision: Option<string>, update: Option<string>,
                                           deprovision: Option<string>, bind: Option<string>,
                                           unbind: Option<string>)

  /** The broker's configuration and catalog, which no operation changes. */
  datatype Broker = Broker(catalog: seq<Service>, config: Config.BrokerConfig, injected: InjectedErrors,
                           shouldReturnAsync: bool, operationData: string,
                           lastOperationState: string, lastOperationDescription: string)

  /** What operations change: the record store, the gateway and the last error. */
  datatype World = World(store: Store, gateway: Gateway, lastOpError: Option<Error>)

  datatype Reply<+T> = Reply(result: Result<T, Error>, world: World)

  /** The result of provision, update and deprovision. */
  datatype ServiceSpec = ServiceSpec(isAsync: bool, operationData: string)

  /** The credentials a binding hands out. */
  datatype BindCreds = BindCreds(s3User: string, s3AccessKey: string, s3SecretKey: string, s3Endpoint: string,
                                 swiftUser: string, swiftSecretKey: string, swiftEndpoint: string)

  datatype LastOperation = LastOperation(state: string, description: string)

  /** The gateway user that backs an instance. */
  function InstanceUid(instanceId: string): string {
    Uid(instanceId, CreateTenantID(instanceId))
  }

  /** Returns `e` and records it as the last error, unless `e` is a panic, which records nothing. */
  function Fail<T>(w: World, e: Error): Reply<T> {
    Reply(Err(e), if e.IsPanic() then w else w.(lastOpError := Some(e)))
  }

  /** The world after a refused request: only the last error differs. */
  predicate Refused<T>(w: World, r: Reply<T>, e: Error) {
    r.result == Err(e) && r.world == w.(lastOpError := Some(e))
  }

  /** `Services`: the catalog, with the last error cleared. */
  function Services(b: Broker, w: World): (r: Reply<seq<Service>>)
    ensures r.result == Ok(b.catalog)
    ensures r.world.store == w.store && r.world.gateway == w.gateway && r.world.lastOpError.None?
  {
    Reply(Ok(b.catalog), w.(lastOpError := None))
  }

  /**
   * `Provision`: limit check, existence check, then create the gateway user, resolve the
   * plan's quota, set it and write the instance record. A failing record write is not
   * recorded as the last error.
   */
  function Provision(b: Broker, w: World, instanceId: string, planId: string, o: Oracle): (r: Reply<ServiceSpec>)
    ensures b.injected.provision.Some? ==> Refused(w, r, Injected(b.injected.provision.value))
    ensures b.injected.provision.None? && InstanceCount(w.store) >= b.config.instanceLimit ==>
              Refused(w, r, InstanceLimitMet)
    ensures b.injected.provision.None? && InstanceCount(w.store) < b.config.instanceLimit
            && InstanceObjName(instanceId) in w.store.objects && StatInstance !in o.failing ==>
              Refused(w, r, InstanceAlreadyExists)
    ensures r.result.Err? ==> r.world.store == w.store
    ensures OthersUnchanged(w.gateway, r.world.gateway, InstanceUid(instanceId))
    ensures r.world.gateway != w.gateway ==>
              InstanceUid(instanceId) !in w.gateway.users && InstanceUid(instanceId) in r.world.gateway.users
    ensures r.result.Err? && r.result.error.PlanLookup? ==>
              && GetPlanQuota(b.catalog, planId) == Err(r.result.error.cause)
              && InstanceUid(instanceId) !in w.gateway.users
              && InstanceUid(instanceId) in r.world.gateway.users
              && r.world.gateway.users[InstanceUid(instanceId)]
                 == NewUser(instanceId, instanceId, CreateTenantID(instanceId), o.gen)
    ensures r.result.Ok? ==>
              && b.injected.provision.None?
              && InstanceCount(w.store) < b.config.instanceLimit
              && !InstanceExists(w.store, instanceId, StatInstance in o.failing)
              && GetPlanQuota(b.catalog, planId).Ok?
              && InstanceUid(instanceId) !in w.gateway.users
              && InstanceUid(instanceId) in r.world.gateway.users
              && r.world.gateway.users[InstanceUid(instanceId)].maxSizeKb
                 == GoConv.Wrap64(GetPlanQuota(b.catalog, planId).value * 1024)
              && r.world.gateway.users[InstanceUid(instanceId)].quotaEnabled
              && InstanceObjName(instanceId) in r.world.store.objects
              && r.world.store.objects[InstanceObjName(instanceId)] == InstanceRecord
              && r.world.store.objects - {InstanceObjName(instanceId)} == w.store.objects - {InstanceObjName(instanceId)}
              && r.world.lastOpError.None? && !r.result.value.isAsync
    ensures r.result.Err? && (r.result.error.StoreFailure? || r.result.error.IsPanic()) ==>
              r.world.lastOpError == w.lastOpError
    ensures r.result.Err? && !r.result.error.StoreFailure? && !r.result.error.IsPanic() ==>
              r.world.lastOpError == Some(r.result.error)
  {
    if b.injected.provision.Some? then Fail(w, Injected(b.injected.provision.value))
    else if InstanceCount(w.store) >= b.config.instanceLimit then Fail(w, InstanceLimitMet)
    else if InstanceExists(w.store, instanceId, StatInstance in o.failing) then Fail(w, InstanceAlreadyExists)
    else
      var tenant := CreateTenantID(instanceId);
      match CreateUser(w.gateway, instanceId, instanceId, tenant, o.gen, CreateUserCall in o.failing)
      case Err(e) => Fail(w, GatewayFailure(CreateUserCall, e))
      case Ok(g1) =>
        var w1 := w.(gateway := g1);
        match GetPlanQuota(b.catalog, planId)
        case Err(pe) => Fail(w1, PlanLookup(pe))
        case Ok(quota) =>
          match SetUserQuota(g1, instanceId, tenant, quota, SetQuotaCall in o.failing)
          case Err(e) => Fail(w1, GatewayFailure(SetQuotaCall, e))
          case Ok(g2) =>
            match Put(w.store, InstanceObjName(instanceId), InstanceRecord, PutRecord in o.failing)
            case Err(e) => Reply(Err(StoreFailure(PutRecord, e)), w.(gateway := g2))
            case Ok(st) => Reply(Ok(ServiceSpec(false, "")), World(st, g2, None))
  }

  /**
   * `Update`: check the new plan exists, succeed at once when it is the previous plan,
   * otherwise set the new plan's quota unless the live usage already reaches it. The
   * record store is never consulted and no plan is stored.
   */
  function Update(b: Broker, w: World, instanceId: string, planId: string, previousPlanId: string, o: Oracle)
    : (r: Reply<ServiceSpec>)
    ensures r.world.store == w.store
    ensures r.result.Err? ==> r.world.gateway == w.gateway
    ensures b.injected.update.Some? ==> Refused(w, r, Injected(b.injected.update.value))
    ensures b.injected.update.None? && GetPlan(b.catalog, planId).Err? && !GetPlan(b.catalog, planId).error.IsPanic() ==>
              Refused(w, r, PlanChangeNotSupported)
    ensures b.injected.update.None? && GetPlan(b.catalog, planId).Ok? && planId == previousPlanId ==>
              r.result.Ok? && r.world == w.(lastOpError := None)
    ensures var uid := InstanceUid(instanceId);
            b.injected.update.None? && planId != previousPlanId && GetPlanQuota(b.catalog, planId).Ok?
            && GetUsageCall !in o.failing && uid in w.gateway.users
            && GetUserUsageMB(w.gateway, instanceId, CreateTenantID(instanceId), false).value >= GetPlanQuota(b.catalog, planId).value
            ==> Refused(w, r, UsageExceedsNewQuota)
    ensures r.world.gateway != w.gateway || (r.result.Ok? && planId != previousPlanId) ==>
              var uid := InstanceUid(instanceId);
              && r.result.Ok? && planId != previousPlanId
              && GetPlanQuota(b.catalog, planId).Ok?
              && uid in w.gateway.users
              && GetUserUsageMB(w.gateway, instanceId, CreateTenantID(instanceId), false).value
                 < GetPlanQuota(b.catalog, planId).value
              && uid in r.world.gateway.users
              && r.world.gateway.users[uid] == w.gateway.users[uid].(
                   maxSizeKb := GoConv.Wrap64(GetPlanQuota(b.catalog, planId).value * 1024), quotaEnabled := true)
              && OthersUnchanged(w.gateway, r.world.gateway, uid)
    ensures r.result.Ok? ==> r.world.lastOpError.None?
    ensures r.result.Err? ==> r.world.lastOpError == if r.result.error.IsPanic() then w.lastOpError else Some(r.result.error)
  {
    var tenant := CreateTenantID(instanceId);
    if b.injected.update.Some? then Fail(w, Injected(b.injected.update.value))
    else
      match GetPlan(b.catalog, planId)
      case Err(pe) => if pe.IsPanic() then Fail(w, PlanLookup(pe)) else Fail(w, PlanChangeNotSupported)
      case Ok(_) =>
        if planId == previousPlanId then Reply(Ok(ServiceSpec(false, "")), w.(lastOpError := None))
        else
          match GetPlanQuota(b.catalog, planId)
          case Err(pe) => Fail(w, PlanLookup(pe))
          case Ok(quota) =>
            match GetUserUsageMB(w.gateway, instanceId, tenant, GetUsageCall in o.failing)
            case Err(e) => Fail(w, GatewayFailure(GetUsageCall, e))
            case Ok(usage) =>
              if usage >= quota then Fail(w, UsageExceedsNewQuota)
              else
                match SetUserQuota(w.gateway, instanceId, tenant, quota, SetQuotaCall in o.failing)
                case Err(e) => Fail(w, GatewayFailure(SetQuotaCall, e))
                case Ok(g) => Reply(Ok(ServiceSpec(b.shouldReturnAsync, b.operationData)), World(w.store, g, None))
  }

  /**
   * `Deprovision`: refuse an absent instance or one with bindings, otherwise delete the
   * gateway user and then the instance record.
   */
  function Deprovision(b: Broker, w: World, instanceId: string, o: Oracle): (r: Reply<ServiceSpec>)
    ensures b.injected.deprovision.Some? ==> Refused(w, r, Injected(b.injected.deprovision.value))
    ensures b.injected.deprovision.None? && !InstanceExists(w.store, instanceId, StatInstance in o.failing) ==>
              Refused(w, r, InstanceDoesNotExist)
    ensures b.injected.deprovision.None? && InstanceObjName(instanceId) !in w.store.objects ==>
              Refused(w, r, InstanceDoesNotExist)
    ensures b.injected.deprovision.None? && InstanceExists(w.store, instanceId, StatInstance in o.failing)
            && HasBinds(w.store, instanceId) ==>
              Refused(w, r, DeprovisionWithBinds)
    ensures HasBinds(w.store, instanceId) ==> r.result.Err? && r.world.gateway == w.gateway && r.world.store == w.store
    ensures r.result.Err? ==> r.world.store == w.store
    ensures OthersUnchanged(w.gateway, r.world.gateway, InstanceUid(instanceId))
    ensures r.world.gateway != w.gateway ==>
              InstanceUid(instanceId) in w.gateway.users && InstanceUid(instanceId) !in r.world.gateway.users
    ensures r.result.Ok? ==>
              && InstanceObjName(instanceId) in w.store.objects
              && !HasBinds(w.store, instanceId)
              && InstanceUid(instanceId) in w.gateway.users
              && InstanceUid(instanceId) !in r.world.gateway.users
              && r.world.store.objects == w.store.objects - {InstanceObjName(instanceId)}
              && r.world.lastOpError.None?
    ensures r.result.Err? ==> r.world.lastOpError == Some(r.result.error)
  {
    if b.injected.deprovision.Some? then Fail(w, Injected(b.injected.deprovision.value))
    else if !InstanceExists(w.store, instanceId, StatInstance in o.failing) then Fail(w, InstanceDoesNotExist)
    else if HasBinds(w.store, instanceId) then Fail(w, DeprovisionWithBinds)
    else
      match DeleteUser(w.gateway, instanceId, CreateTenantID(instanceId), DeleteUserCall in o.failing)
      case Err(e) => Fail(w, GatewayFailure(DeleteUserCall, e))
      case Ok(g) =>
        match Delete(w.store, InstanceObjName(instanceId), DeleteRecord in o.failing)
        case Err(e) => Fail(w.(gateway := g), StoreFailure(DeleteRecord, e))
        case Ok(st) => Reply(Ok(ServiceSpec(false, "")), World(st, g, None))
  }

  /**
   * What a successful binding leaves: the instance's user has one more S3 key and one more
   * subuser, named after the binding, with its Swift key; the credentials name them; the
   * binding record is stored at the binding's path and nothing else in the store changed.
   */
  predicate Granted(b: Broker, w: World, w': World, instanceId: string, bindingId: string,
                    creds: BindCreds, gen: Generated)
  {
    var uid := InstanceUid(instanceId);
    var path := BindObjName(instanceId, bindingId);
    && uid in w.gateway.users && uid in w'.gateway.users
    && var (u, u') := (w.gateway.users[uid], w'.gateway.users[uid]);
    && |u'.keys| == |u.keys| + 1 && u'.keys[..|u.keys|] == u.keys
    && u'.keys[|u.keys|] == S3Key(uid, creds.s3AccessKey, creds.s3SecretKey)
    && |u'.subusers| == |u.subusers| + 1 && u'.subusers[..|u.subusers|] == u.subusers
    && u'.subusers[|u.subusers|].id == SubuserId(uid, bindingId)
    && u'.swiftKeys == u.swiftKeys + [SwiftKey(SubuserId(uid, bindingId), creds.swiftSecretKey)]
    && u' == u.(keys := u'.keys, subusers := u'.subusers, swiftKeys := u'.swiftKeys)
    && creds.s3User == uid && creds.swiftUser == SubuserId(uid, bindingId)
    && creds.s3AccessKey == gen.accessKey && creds.swiftSecretKey == gen.swiftSecret
    && creds.s3Endpoint == b.config.s3Endpoint && creds.swiftEndpoint == b.config.swiftEndpoint
    && path in w'.store.objects
    && w'.store.objects[path]
       == BindRecord(Records.Bind(creds.s3AccessKey, creds.swiftSecretKey, instanceId, bindingId,
                                  CreateTenantID(instanceId)))
    && w'.store.objects - {path} == w.store.objects - {path}
    && w'.lastOpError.None?
  }

  /**
   * `Bind`: with the instance present and the binding absent, create an S3 key and a
   * subuser named after the binding, read the user back for the new Swift secret, then
   * store the binding record and hand out the credentials.
   */
  function Bind(b: Broker, w: World, instanceId: string, bindingId: string, o: Oracle): (r: Reply<BindCreds>)
    ensures b.injected.bind.Some? ==> Refused(w, r, Injected(b.injected.bind.value))
    ensures b.injected.bind.None? && !InstanceExists(w.store, instanceId, StatInstance in o.failing) ==>
              Refused(w, r, InstanceDoesNotExist)
    ensures b.injected.bind.None? && InstanceExists(w.store, instanceId, StatInstance in o.failing)
            && BindObjName(instanceId, bindingId) in w.store.objects && StatBinding !in o.failing ==>
              Refused(w, r, BindingAlreadyExists)
    ensures r.result.Err? ==> r.world.store == w.store
    ensures OthersUnchanged(w.gateway, r.world.gateway, InstanceUid(instanceId))
    ensures r.result.Ok? ==>
              && InstanceObjName(instanceId) in w.store.objects
              && !BindingExists(w.store, instanceId, bindingId, StatBinding in o.failing)
              && Granted(b, w, r.world, instanceId, bindingId, r.result.value, o.gen)
    ensures r.result.Err? ==> r.world.lastOpError == if r.result.error.IsPanic() then w.lastOpError else Some(r.result.error)
  {
    if b.injected.bind.Some? then Fail(w, Injected(b.injected.bind.value))
    else if !InstanceExists(w.store, instanceId, StatInstance in o.failing) then Fail(w, InstanceDoesNotExist)
    else if BindingExists(w.store, instanceId, bindingId, StatBinding in o.failing) then Fail(w, BindingAlreadyExists)
    else Grant(b, w, instanceId, bindingId, o)
  }

  /** The gateway calls and the record write of `Bind`, once its checks have passed. */
  function Grant(b: Broker, w: World, instanceId: string, bindingId: string, o: Oracle): (r: Reply<BindCreds>)
    ensures r.result.Err? ==> r.world.store == w.store
    ensures OthersUnchanged(w.gateway, r.world.gateway, InstanceUid(instanceId))
    ensures r.result.Ok? ==> Granted(b, w, r.world, instanceId, bindingId, r.result.value, o.gen)
    ensures r.result.Err? ==> r.world.lastOpError == if r.result.error.IsPanic() then w.lastOpError else Some(r.result.error)
  {
    var tenant := CreateTenantID(instanceId);
    match CreateS3Key(w.gateway, instanceId, tenant, o.gen, CreateKeyCall in o.failing)
    case Err(e) => Fail(w, GatewayFailure(CreateKeyCall, e))
    case Ok((g1, s3Key)) =>
      match CreateSubuser(g1, instanceId, bindingId, tenant, o.gen, CreateSubuserCall in o.failing)
      case Err(e) => Fail(w.(gateway := g1), GatewayFailure(CreateSubuserCall, e))
      case Ok((g2, _)) =>
        var w2 := w.(gateway := g2);
        match GetUser(g2, instanceId, tenant, GetUserCall in o.failing)
        case Err(e) => Fail(w2, GatewayFailure(GetUserCall, e))
        case Ok(info) =>
          if |info.swiftKeys| == 0 then Fail(w2, SwiftKeyMissing)
          else
            var user := tenant + "$" + instanceId;
            var creds := BindCreds(user, s3Key.accessKey, s3Key.secretKey, b.config.s3Endpoint,
                                   user + ":" + bindingId, info.swiftKeys[|info.swiftKeys| - 1].secretKey,
                                   b.config.swiftEndpoint);
            var rec := Records.Bind(creds.s3AccessKey, creds.swiftSecretKey, instanceId, bindingId, tenant);
            match Put(w.store, BindObjName(instanceId, bindingId), BindRecord(rec), PutRecord in o.failing)
            case Err(e) => Fail(w2, StoreFailure(PutRecord, e))
            case Ok(st) => Reply(Ok(creds), World(st, g2, None))
  }

  /**
   * `Unbind`: with the instance and the binding present, read the binding record, delete
   * the S3 key it names, then the subuser (with its keys), then the record itself.
   */
  function Unbind(b: Broker, w: World, instanceId: string, bindingId: string, o: Oracle): (r: Reply<()>)
    ensures b.injected.unbind.Some? ==> Refused(w, r, Injected(b.injected.unbind.value))
    ensures b.injected.unbind.None? && !InstanceExists(w.store, instanceId, StatInstance in o.failing) ==>
              Refused(w, r, InstanceDoesNotExist)
    ensures b.injected.unbind.None? && InstanceExists(w.store, instanceId, StatInstance in o.failing)
            && BindObjName(instanceId, bindingId) !in w.store.objects ==>
              Refused(w, r, BindingDoesNotExist)
    ensures r.result.Err? ==> r.world.store == w.store
    ensures r.result.Err? ==> r.world.lastOpError == Some(r.result.error)
    ensures r.world.gateway != w.gateway ==>
              BindObjName(instanceId, bindingId) in w.store.objects
              && w.store.objects[BindObjName(instanceId, bindingId)].BindRecord?
    ensures r.result.Ok? ==>
              var path := BindObjName(instanceId, bindingId);
              && InstanceObjName(instanceId) in w.store.objects
              && path in w.store.objects && w.store.objects[path].BindRecord?
              && r.world.store.objects == w.store.objects - {path}
              && var bd := w.store.objects[path].bind;
              && var uid := Uid(bd.user, bd.tenant);
              && uid in w.gateway.users && uid in r.world.gateway.users
              && OthersUnchanged(w.gateway, r.world.gateway, uid)
              && (exists k :: k in w.gateway.users[uid].keys && k.accessKey == bd.s3AccessKey)
              && (forall k :: k in r.world.gateway.users[uid].keys ==> k.accessKey != bd.s3AccessKey)
              && (exists s :: s in w.gateway.users[uid].subusers && s.id == SubuserId(uid, bd.subuser))
              && (forall s :: s in r.world.gateway.users[uid].subusers ==> s.id != SubuserId(uid, bd.subuser))
              && r.world.lastOpError.None?
  {
    var path := BindObjName(instanceId, bindingId);
    if b.injected.unbind.Some? then Fail(w, Injected(b.injected.unbind.value))
    else if !InstanceExists(w.store, instanceId, StatInstance in o.failing) then Fail(w, InstanceDoesNotExist)
    else if !BindingExists(w.store, instanceId, bindingId, StatBinding in o.failing) then Fail(w, BindingDoesNotExist)
    else
      match Get(w.store, path, GetRecord in o.failing)
      case Err(e) => Fail(w, StoreFailure(GetRecord, e))
      case Ok(InstanceRecord) => Fail(w, BindUndecodable)
      case Ok(BindRecord(bd)) => Revoke(w, path, bd, o)
  }

  /**
   * The deletes of `Unbind` for the binding `bd` stored at `path`: its S3 key, then its
   * subuser with the subuser's keys, then the record. The first failure ends it, and
   * whatever was deleted before stays deleted.
   */
  function Revoke(w: World, path: string, bd: Records.Bind, o: Oracle): (r: Reply<()>)
    ensures var uid := Uid(bd.user, bd.tenant);
            r.world.gateway != w.gateway ==>
              && uid in w.gateway.users && uid in r.world.gateway.users
              && OthersUnchanged(w.gateway, r.world.gateway, uid)
              && (exists k :: k in w.gateway.users[uid].keys && k.accessKey == bd.s3AccessKey)
              && (forall k :: k in r.world.gateway.users[uid].keys ==> k.accessKey != bd.s3AccessKey)
    ensures r.result.Err? ==> r.world.store == w.store && r.world.lastOpError == Some(r.result.error)
    ensures DeleteKeyCall in o.failing ==>
              r.result == Err(GatewayFailure(DeleteKeyCall, Unavailable)) && r.world.gateway == w.gateway
    ensures var uid := Uid(bd.user, bd.tenant);
            DeleteKeyCall !in o.failing && DeleteSubuserCall in o.failing && uid in w.gateway.users
            && (exists k :: k in w.gateway.users[uid].keys && k.accessKey == bd.s3AccessKey) ==>
              && r.result == Err(GatewayFailure(DeleteSubuserCall, Unavailable))
              && uid in r.world.gateway.users
              && (forall k :: k in r.world.gateway.users[uid].keys ==> k.accessKey != bd.s3AccessKey)
              && r.world.gateway.users[uid].subusers == w.gateway.users[uid].subusers
    ensures var uid := Uid(bd.user, bd.tenant);
            r.result.Ok? || (r.result.Err? && r.result.error == StoreFailure(DeleteRecord, StoreUnavailable)) ==>
              && uid in r.world.gateway.users
              && (forall k :: k in r.world.gateway.users[uid].keys ==> k.accessKey != bd.s3AccessKey)
              && (exists s :: s in w.gateway.users[uid].subusers && s.id == SubuserId(uid, bd.subuser))
              && (forall s :: s in r.world.gateway.users[uid].subusers ==> s.id != SubuserId(uid, bd.subuser))
    ensures var uid := Uid(bd.user, bd.tenant);
            DeleteKeyCall !in o.failing && DeleteSubuserCall !in o.failing && uid in w.gateway.users
            && (exists k :: k in w.gateway.users[uid].keys && k.accessKey == bd.s3AccessKey)
            && (exists s :: s in w.gateway.users[uid].subusers && s.id == SubuserId(uid, bd.subuser)) ==>
              r.result == if DeleteRecord in o.failing then Err(StoreFailure(DeleteRecord, StoreUnavailable)) else Ok(())
    ensures r.result.Ok? ==> r.world.store.objects == w.store.objects - {path} && r.world.lastOpError.None?
  {
    match DeleteS3Key(w.gateway, bd.user, bd.tenant, bd.s3AccessKey, DeleteKeyCall in o.failing)
    case Err(e) => Fail(w, GatewayFailure(DeleteKeyCall, e))
    case Ok(g1) => RevokeSubuser(w.(gateway := g1), path, bd, o)
  }

  /** The last two deletes of `Unbind`: the binding's subuser with its keys, then the record. */
  function RevokeSubuser(w: World, path: string, bd: Records.Bind, o: Oracle): (r: Reply<()>)
    ensures var (uid, id) := (Uid(bd.user, bd.tenant), SubuserId(Uid(bd.user, bd.tenant), bd.subuser));
            r.world.gateway != w.gateway ==>
              && uid in w.gateway.users && uid in r.world.gateway.users
              && OthersUnchanged(w.gateway, r.world.gateway, uid)
              && (forall k :: k in r.world.gateway.users[uid].keys ==> k in w.gateway.users[uid].keys)
              && (exists s :: s in w.gateway.users[uid].subusers && s.id == id)
              && (forall s :: s in r.world.gateway.users[uid].subusers ==> s.id != id)
    ensures r.result.Err? ==> r.world.store == w.store && r.world.lastOpError == Some(r.result.error)
    ensures DeleteSubuserCall in o.failing ==>
              r.result == Err(GatewayFailure(DeleteSubuserCall, Unavailable)) && r.world.gateway == w.gateway
    ensures var (uid, id) := (Uid(bd.user, bd.tenant), SubuserId(Uid(bd.user, bd.tenant), bd.subuser));
            DeleteSubuserCall !in o.failing && uid in w.gateway.users
            && (exists s :: s in w.gateway.users[uid].subusers && s.id == id) ==>
              && r.world.gateway != w.gateway
              && r.result == if DeleteRecord in o.failing then Err(StoreFailure(DeleteRecord, StoreUnavailable)) else Ok(())
    ensures r.result.Ok? ==> r.world.gateway != w.gateway
    ensures r.result.Ok? ==> r.world.store.objects == w.store.objects - {path} && r.world.lastOpError.None?
  {
    match DeleteSubuser(w.gateway, bd.user, bd.subuser, bd.tenant, DeleteSubuserCall in o.failing)
    case Err(e) => Fail(w, GatewayFailure(DeleteSubuserCall, e))
    case Ok(g2) =>
      match Delete(w.store, path, DeleteRecord in o.failing)
      case Err(e) => Fail(w.(gateway := g2), StoreFailure(DeleteRecord, e))
      case Ok(st) => Reply(Ok(()), World(st, g2, None))
  }

  /** `LastOperation`: the last recorded error, or the configured state when there is none. */
  function GetLastOperation(b: Broker, w: World, instanceId: string, operationData: string)
    : (r: Reply<LastOperation>)
    ensures r.world == w
    ensures r.result.Err? <==> w.lastOpError.Some?
    ensures r.result.Err? ==> r.result.error == w.lastOpError.value
    ensures r.result.Ok? ==> r.result.value == LastOperation(b.lastOperationState, b.lastOperationDescription)
  {
    match w.lastOpError
    case Some(e) => Reply(Err(e), w)
    case None => Reply(Ok(LastOperation(b.lastOperationState, b.lastOperationDescription)), w)
  }
}
