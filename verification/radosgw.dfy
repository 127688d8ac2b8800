/**
 * The storage gateway's admin API as the broker's wrapper (radosgw/radosgw.go) sees it:
 * tenant-scoped users with S3 keys, Swift subusers and a size quota. Each call may fail
 * (`down`), and the key material the gateway generates is supplied by the caller.
 */
module Radosgw {
  import opened Outcomes
  import opened GoConv

  datatype S3Key = S3Key(user: string, accessKey: string, secretKey: string)

  datatype SwiftKey = SwiftKey(user: string, secretKey: string)

  datatype Subuser = Subuser(id: string, permissions: string)

  /** A gateway user. `keys`, `swiftKeys` and `subusers` list the newest entry last. */
  datatype User = User(userId: string, tenant: string, displayName: string,
                       keys: seq<S3Key>, swiftKeys: seq<SwiftKey>, subusers: seq<Subuser>,
                       maxSizeKb: int, quotaEnabled: bool, sizeKb: nat)

  datatype Gateway = Gateway(users: map<string, User>)

  datatype GatewayError = Unavailable | NoSuchUser | UserExists | KeyExists | NoSuchKey | SubuserExists | NoSuchSubuser

  /** The credentials the gateway generates during one request. */
  datatype Generated = Generated(accessKey: string, secretKey: string, swiftSecret: string)

  /** Every per-user call addresses the user as `tenant$name`. */
  function Uid(name: string, tenant: string): string {
    tenant + "$" + name
  }

  /** A Swift subuser is addressed as `tenant$name:subuser`. */
  function SubuserId(uid: string, subuser: string): string {
    uid + ":" + subuser
  }

  lemma SeparatorAt(name: string, tenant: string)
    ensures Uid(name, tenant)[|tenant|] == '$'
  {
  }

  /** With `$`-free tenants a uid names exactly one (tenant, name) pair. */
  lemma UidInjective(n1: string, t1: string, n2: string, t2: string)
    requires '$' !in t1 && '$' !in t2
    requires Uid(n1, t1) == Uid(n2, t2)
    ensures n1 == n2 && t1 == t2
  {
    var u := Uid(n1, t1);
    if |t1| < |t2| {
      SeparatorAt(n1, t1);
    } else if |t2| < |t1| {
      SeparatorAt(n2, t2);
    } else {
      assert t1 == u[..|t1|] == t2;
      assert n1 == u[|t1| + 1..] == n2;
    }
  }

  /** How many elements of `s` satisfy `p`. */
  function CountWhere<T>(s: seq<T>, p: T -> bool): (n: nat)
    ensures n <= |s|
    decreases |s|
  {
    if |s| == 0 then 0 else (if p(s[0]) then 1 else 0) + CountWhere(s[1..], p)
  }

  /** `s` without the elements that satisfy `drop`, in their original order. */
  function Without<T(!new)>(s: seq<T>, drop: T -> bool): (r: seq<T>)
    ensures |r| + CountWhere(s, drop) == |s|
    ensures forall x :: x in r <==> x in s && !drop(x)
    decreases |s|
  {
    if |s| == 0 then []
    else
      var rest := Without(s[1..], drop);
      assert forall x :: x in s <==> x == s[0] || x in s[1..];
      (if drop(s[0]) then [] else [s[0]]) + rest
  }

  /** Exactly one element satisfies `p`. */
  lemma {:induction false} CountWhereOne<T>(s: seq<T>, p: T -> bool, i: nat)
    requires i < |s| && p(s[i])
    requires forall j :: 0 <= j < |s| && j != i ==> !p(s[j])
    ensures CountWhere(s, p) == 1
    decreases |s|
  {
    if i == 0 {
      CountWhereNone(s[1..], p);
    } else {
      CountWhereOne(s[1..], p, i - 1);
    }
  }

  lemma {:induction false} CountWhereNone<T>(s: seq<T>, p: T -> bool)
    requires forall j :: 0 <= j < |s| ==> !p(s[j])
    ensures CountWhere(s, p) == 0
    decreases |s|
  {
    if |s| > 0 {
      CountWhereNone(s[1..], p);
    }
  }

  function HasAccessKey(accessKey: string): S3Key -> bool {
    (k: S3Key) => k.accessKey == accessKey
  }

  function IsSubuser(id: string): Subuser -> bool {
    (s: Subuser) => s.id == id
  }

  function S3KeyOwnedBy(id: string): S3Key -> bool {
    (k: S3Key) => k.user == id
  }

  function SwiftKeyOwnedBy(id: string): SwiftKey -> bool {
    (k: SwiftKey) => k.user == id
  }

  /** No two S3 keys of one user share an access key. */
  predicate DistinctAccessKeys(keys: seq<S3Key>) {
    forall i, j :: 0 <= i < j < |keys| ==> keys[i].accessKey != keys[j].accessKey
  }

  /** No two subusers of one user share an id. */
  predicate DistinctSubusers(subs: seq<Subuser>) {
    forall i, j :: 0 <= i < j < |subs| ==> subs[i].id != subs[j].id
  }

  /** Only the entry for `uid` may differ between the two gateways. */
  predicate OthersUnchanged(g: Gateway, g': Gateway, uid: string) {
    g'.users - {uid} == g.users - {uid}
  }

  /** A fresh user: one generated S3 key, no subusers, the gateway's default (disabled, -1) quota. */
  function NewUser(name: string, displayName: string, tenant: string, gen: Generated): (u: User)
    ensures |u.keys| == 1 && u.keys[0].accessKey == gen.accessKey
    ensures u.subusers == [] && u.swiftKeys == [] && u.sizeKb == 0 && !u.quotaEnabled
  {
    User(name, tenant, displayName, [S3Key(Uid(name, tenant), gen.accessKey, gen.secretKey)], [], [], -1, false, 0)
  }

  /** `CreateUser`: refused when the uid is already taken. */
  function CreateUser(g: Gateway, name: string, displayName: string, tenant: string, gen: Generated, down: bool)
    : (r: Result<Gateway, GatewayError>)
    ensures r.Ok? <==> !down && Uid(name, tenant) !in g.users
    ensures r.Ok? ==> Uid(name, tenant) in r.value.users && r.value.users[Uid(name, tenant)] == NewUser(name, displayName, tenant, gen)
    ensures r.Ok? ==> OthersUnchanged(g, r.value, Uid(name, tenant))
  {
    var uid := Uid(name, tenant);
    if down then Err(Unavailable)
    else if uid in g.users then Err(UserExists)
    else Ok(Gateway(g.users[uid := NewUser(name, displayName, tenant, gen)]))
  }

  /** `GetUser`. */
  function GetUser(g: Gateway, name: string, tenant: string, down: bool): (r: Result<User, GatewayError>)
    ensures r.Ok? <==> !down && Uid(name, tenant) in g.users
    ensures r.Ok? ==> r.value == g.users[Uid(name, tenant)]
  {
    if down then Err(Unavailable)
    else if Uid(name, tenant) !in g.users then Err(NoSuchUser)
    else Ok(g.users[Uid(name, tenant)])
  }

  /** `DeleteUser`: the user goes with all of its keys and subusers. */
  function DeleteUser(g: Gateway, name: string, tenant: string, down: bool): (r: Result<Gateway, GatewayError>)
    ensures r.Ok? <==> !down && Uid(name, tenant) in g.users
    ensures r.Ok? ==> Uid(name, tenant) !in r.value.users && OthersUnchanged(g, r.value, Uid(name, tenant))
  {
    var uid := Uid(name, tenant);
    if down then Err(Unavailable)
    else if uid !in g.users then Err(NoSuchUser)
    else Ok(Gateway(g.users - {uid}))
  }

  /**
   * `SetUserQuota`: an enabled user quota of `sizeMB * 1024` KB, the product computed
   * in Go's 64-bit `int`. Nothing else about the user changes.
   */
  function SetUserQuota(g: Gateway, name: string, tenant: string, sizeMB: int, down: bool)
    : (r: Result<Gateway, GatewayError>)
    ensures r.Ok? <==> !down && Uid(name, tenant) in g.users
    ensures r.Ok? ==> var uid := Uid(name, tenant);
                      uid in r.value.users && OthersUnchanged(g, r.value, uid)
                      && r.value.users[uid] == g.users[uid].(maxSizeKb := Wrap64(sizeMB * 1024), quotaEnabled := true)
  {
    var uid := Uid(name, tenant);
    if down then Err(Unavailable)
    else if uid !in g.users then Err(NoSuchUser)
    else Ok(Gateway(g.users[uid := g.users[uid].(maxSizeKb := Wrap64(sizeMB * 1024), quotaEnabled := true)]))
  }

  /** `GetUserQuotaMB`: the quota in KB divided by 1024, truncated toward zero. */
  function GetUserQuotaMB(g: Gateway, name: string, tenant: string, down: bool): (r: Result<int, GatewayError>)
    ensures r.Ok? <==> !down && Uid(name, tenant) in g.users
    ensures r.Ok? ==> var kb := g.users[Uid(name, tenant)].maxSizeKb;
                      (kb >= 0 ==> 0 <= kb - r.value * 1024 < 1024) && (kb < 0 ==> -1024 < kb - r.value * 1024 <= 0)
  {
    var u :- GetUser(g, name, tenant, down);
    Ok(Quot(u.maxSizeKb, 1024))
  }

  /** `GetUserUsageMB`: the stored size in KB divided by 1024, rounded down. */
  function GetUserUsageMB(g: Gateway, name: string, tenant: string, down: bool): (r: Result<nat, GatewayError>)
    ensures r.Ok? <==> !down && Uid(name, tenant) in g.users
    ensures r.Ok? ==> r.value * 1024 <= g.users[Uid(name, tenant)].sizeKb < (r.value + 1) * 1024
  {
    var u :- GetUser(g, name, tenant, down);
    Ok(u.sizeKb / 1024)
  }

  /**
   * `CreateSubuser`: adds the subuser `tenant$user:subuser` with read-write access and
   * a generated Swift key, and returns the last subuser of the new list.
   */
  function CreateSubuser(g: Gateway, user: string, subuser: string, tenant: string, gen: Generated, down: bool)
    : (r: Result<(Gateway, Subuser), GatewayError>)
    ensures r.Ok? ==> var uid := Uid(user, tenant);
                      uid in g.users && uid in r.value.0.users && OthersUnchanged(g, r.value.0, uid)
    ensures r.Ok? ==> var uid := Uid(user, tenant);
                      var (u, u') := (g.users[uid], r.value.0.users[uid]);
                      && r.value.1.id == SubuserId(uid, subuser)
                      && |u'.subusers| == |u.subusers| + 1 && u'.subusers[..|u.subusers|] == u.subusers
                      && r.value.1 == u'.subusers[|u'.subusers| - 1]
                      && u'.swiftKeys == u.swiftKeys + [SwiftKey(SubuserId(uid, subuser), gen.swiftSecret)]
                      && u' == u.(subusers := u'.subusers, swiftKeys := u'.swiftKeys)
    ensures r.Err? && !down && Uid(user, tenant) in g.users ==>
              r.error == SubuserExists && exists s :: s in g.users[Uid(user, tenant)].subusers && s.id == SubuserId(Uid(user, tenant), subuser)
  {
    var uid := Uid(user, tenant);
    var id := SubuserId(uid, subuser);
    if down then Err(Unavailable)
    else if uid !in g.users then Err(NoSuchUser)
    else
      var u := g.users[uid];
      if exists s :: s in u.subusers && s.id == id then Err(SubuserExists)
      else
        var u' := u.(subusers := u.subusers + [Subuser(id, "readwrite")],
                     swiftKeys := u.swiftKeys + [SwiftKey(id, gen.swiftSecret)]);
        Ok((Gateway(g.users[uid := u']), u'.subusers[|u'.subusers| - 1]))
  }

  /** `DeleteSubuser` with key purging: the subuser and every key it owns are gone. */
  function DeleteSubuser(g: Gateway, user: string, subuser: string, tenant: string, down: bool)
    : (r: Result<Gateway, GatewayError>)
    ensures r.Ok? ==> var uid := Uid(user, tenant);
                      uid in g.users && uid in r.value.users && OthersUnchanged(g, r.value, uid)
    ensures r.Ok? ==> var uid := Uid(user, tenant);
                      var id := SubuserId(uid, subuser);
                      var (u, u') := (g.users[uid], r.value.users[uid]);
                      && (exists s :: s in u.subusers && s.id == id)
                      && (forall s :: s in u'.subusers <==> s in u.subusers && s.id != id)
                      && (forall k :: k in u'.swiftKeys <==> k in u.swiftKeys && k.user != id)
                      && (forall k :: k in u'.keys <==> k in u.keys && k.user != id)
                      && |u'.subusers| == |u.subusers| - CountWhere(u.subusers, IsSubuser(id))
                      && u' == u.(subusers := u'.subusers, swiftKeys := u'.swiftKeys, keys := u'.keys)
    ensures !down && Uid(user, tenant) in g.users
            && (exists s :: s in g.users[Uid(user, tenant)].subusers && s.id == SubuserId(Uid(user, tenant), subuser))
            ==> r.Ok?
  {
    var uid := Uid(user, tenant);
    var id := SubuserId(uid, subuser);
    if down then Err(Unavailable)
    else if uid !in g.users then Err(NoSuchUser)
    else
      var u := g.users[uid];
      if !exists s :: s in u.subusers && s.id == id then Err(NoSuchSubuser)
      else
        var u' := u.(subusers := Without(u.subusers, IsSubuser(id)),
                     swiftKeys := Without(u.swiftKeys, SwiftKeyOwnedBy(id)),
                     keys := Without(u.keys, S3KeyOwnedBy(id)));
        Ok(Gateway(g.users[uid := u']))
  }

  /** `CreateS3Key`: adds one generated key and returns the last key of the new list. */
  function CreateS3Key(g: Gateway, user: string, tenant: string, gen: Generated, down: bool)
    : (r: Result<(Gateway, S3Key), GatewayError>)
    ensures r.Ok? ==> var uid := Uid(user, tenant);
                      uid in g.users && uid in r.value.0.users && OthersUnchanged(g, r.value.0, uid)
    ensures r.Ok? ==> var uid := Uid(user, tenant);
                      var (u, u') := (g.users[uid], r.value.0.users[uid]);
                      && |u'.keys| == |u.keys| + 1 && u'.keys[..|u.keys|] == u.keys
                      && r.value.1 == u'.keys[|u'.keys| - 1]
                      && r.value.1 == S3Key(uid, gen.accessKey, gen.secretKey)
                      && (forall k :: k in u.keys ==> k.accessKey != gen.accessKey)
                      && u' == u.(keys := u'.keys)
    ensures !down && Uid(user, tenant) in g.users && (forall k :: k in g.users[Uid(user, tenant)].keys ==> k.accessKey != gen.accessKey)
            ==> r.Ok?
  {
    var uid := Uid(user, tenant);
    if down then Err(Unavailable)
    else if uid !in g.users then Err(NoSuchUser)
    else
      var u := g.users[uid];
      if exists k :: k in u.keys && k.accessKey == gen.accessKey then Err(KeyExists)
      else
        var u' := u.(keys := u.keys + [S3Key(uid, gen.accessKey, gen.secretKey)]);
        Ok((Gateway(g.users[uid := u']), u'.keys[|u'.keys| - 1]))
  }

  /** `DeleteS3Key`: removes the user's key with the given access key. */
  function DeleteS3Key(g: Gateway, user: string, tenant: string, accessKey: string, down: bool)
    : (r: Result<Gateway, GatewayError>)
    ensures r.Ok? ==> var uid := Uid(user, tenant);
                      uid in g.users && uid in r.value.users && OthersUnchanged(g, r.value, uid)
    ensures r.Ok? ==> var uid := Uid(user, tenant);
                      var (u, u') := (g.users[uid], r.value.users[uid]);
                      && (exists k :: k in u.keys && k.accessKey == accessKey)
                      && (forall k :: k in u'.keys <==> k in u.keys && k.accessKey != accessKey)
                      && |u'.keys| == |u.keys| - CountWhere(u.keys, HasAccessKey(accessKey))
                      && u' == u.(keys := u'.keys)
    ensures !down && Uid(user, tenant) in g.users
            && (exists k :: k in g.users[Uid(user, tenant)].keys && k.accessKey == accessKey)
            ==> r.Ok?
  {
    var uid := Uid(user, tenant);
    if down then Err(Unavailable)
    else if uid !in g.users then Err(NoSuchUser)
    else
      var u := g.users[uid];
      if !exists k :: k in u.keys && k.accessKey == accessKey then Err(NoSuchKey)
      else Ok(Gateway(g.users[uid := u.(keys := Without(u.keys, HasAccessKey(accessKey)))]))
  }

  /** A quota read back after it was set is the value set, unless `sizeMB * 1024` overflows. */
  lemma QuotaRoundTrip(g: Gateway, name: string, tenant: string, sizeMB: int)
    requires Uid(name, tenant) in g.users
    requires IsInt64(sizeMB * 1024)
    ensures SetUserQuota(g, name, tenant, sizeMB, false).Ok?
    ensures GetUserQuotaMB(SetUserQuota(g, name, tenant, sizeMB, false).value, name, tenant, false) == Ok(sizeMB)
  {
  }

  /** A user that was just created stores nothing and reports a usage of 0 MB. */
  lemma FreshUserUsesNothing(g: Gateway, name: string, displayName: string, tenant: string, gen: Generated)
    requires Uid(name, tenant) !in g.users
    ensures CreateUser(g, name, displayName, tenant, gen, false).Ok?
    ensures GetUserUsageMB(CreateUser(g, name, displayName, tenant, gen, false).value, name, tenant, false) == Ok(0)
  {
  }

  /** With unique access keys, deleting one key takes exactly one key away. */
  lemma DeleteS3KeyDropsOne(g: Gateway, user: string, tenant: string, accessKey: string)
    requires Uid(user, tenant) in g.users && DistinctAccessKeys(g.users[Uid(user, tenant)].keys)
    requires exists k :: k in g.users[Uid(user, tenant)].keys && k.accessKey == accessKey
    ensures DeleteS3Key(g, user, tenant, accessKey, false).Ok?
    ensures var uid := Uid(user, tenant);
            |DeleteS3Key(g, user, tenant, accessKey, false).value.users[uid].keys| == |g.users[uid].keys| - 1
  {
    var keys := g.users[Uid(user, tenant)].keys;
    var i :| 0 <= i < |keys| && keys[i].accessKey == accessKey;
    CountWhereOne(keys, HasAccessKey(accessKey), i);
  }

  /** With unique subuser ids, deleting one subuser takes exactly one subuser away. */
  lemma DeleteSubuserDropsOne(g: Gateway, user: string, subuser: string, tenant: string)
    requires Uid(user, tenant) in g.users && DistinctSubusers(g.users[Uid(user, tenant)].subusers)
    requires exists s :: s in g.users[Uid(user, tenant)].subusers && s.id == SubuserId(Uid(user, tenant), subuser)
    ensures DeleteSubuser(g, user, subuser, tenant, false).Ok?
    ensures var uid := Uid(user, tenant);
            |DeleteSubuser(g, user, subuser, tenant, false).value.users[uid].subusers| == |g.users[uid].subusers| - 1
  {
    var uid := Uid(user, tenant);
    var subs := g.users[uid].subusers;
    var i :| 0 <= i < |subs| && subs[i].id == SubuserId(uid, subuser);
    CountWhereOne(subs, IsSubuser(SubuserId(uid, subuser)), i);
  }

  /** Creating a key keeps the user's access keys unique. */
  lemma CreateS3KeyKeepsKeysDistinct(g: Gateway, user: string, tenant: string, gen: Generated)
    requires Uid(user, tenant) in g.users && DistinctAccessKeys(g.users[Uid(user, tenant)].keys)
    requires CreateS3Key(g, user, tenant, gen, false).Ok?
    ensures DistinctAccessKeys(CreateS3Key(g, user, tenant, gen, false).value.0.users[Uid(user, tenant)].keys)
  {
    var uid := Uid(user, tenant);
    var keys := g.users[uid].keys;
    var keys' := CreateS3Key(g, user, tenant, gen, false).value.0.users[uid].keys;
    forall i, j | 0 <= i < j < |keys'|
      ensures keys'[i].accessKey != keys'[j].accessKey
    {
      if j == |keys| {
        assert keys'[i] == keys[i] && keys[i] in keys;
      } else {
        assert keys'[i] == keys[i] && keys'[j] == keys[j];
      }
    }
  }

  /** Creating a subuser keeps the user's subuser ids unique. */
  lemma CreateSubuserKeepsSubusersDistinct(g: Gateway, user: string, subuser: string, tenant: string, gen: Generated)
    requires Uid(user, tenant) in g.users && DistinctSubusers(g.users[Uid(user, tenant)].subusers)
    requires CreateSubuser(g, user, subuser, tenant, gen, false).Ok?
    ensures DistinctSubusers(CreateSubuser(g, user, subuser, tenant, gen, false).value.0.users[Uid(user, tenant)].subusers)
  {
    var uid := Uid(user, tenant);
    var subs := g.users[uid].subusers;
    var subs' := CreateSubuser(g, user, subuser, tenant, gen, false).value.0.users[uid].subusers;
    forall i, j | 0 <= i < j < |subs'|
      ensures subs'[i].id != subs'[j].id
    {
      if j == |subs| {
        assert subs'[i] == subs[i] && subs[i] in subs;
      } else {
        assert subs'[i] == subs[i] && subs'[j] == subs[j];
      }
    }
  }
}
