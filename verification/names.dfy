/**
 * How the broker names things: the tenant derived from an instance id, and the
 * record-store object names of instances and bindings (broker/utils.go).
 */
module Names {
  import opened Text

  /** The common prefix of every instance and binding record. */
  const InstancePrefix: string := "instances/"

  /** `createTenantID`: the instance id with every `-` removed. */
  function CreateTenantID(instanceId: string): (r: string)
    ensures '-' !in r
    ensures |r| <= |instanceId|
    ensures forall c :: c != '-' ==> multiset(r)[c] == multiset(instanceId)[c]
    decreases |instanceId|
  {
    if |instanceId| == 0 then ""
    else
      var rest := CreateTenantID(instanceId[1..]);
      assert instanceId == [instanceId[0]] + instanceId[1..];
      if instanceId[0] == '-' then rest else [instanceId[0]] + rest
  }

  /** Stripping distributes over concatenation, so the kept characters stay in order. */
  lemma {:induction false} TenantOfConcat(a: string, b: string)
    ensures CreateTenantID(a + b) == CreateTenantID(a) + CreateTenantID(b)
    decreases |a|
  {
    if |a| == 0 {
      assert a + b == b;
    } else {
      assert (a + b)[0] == a[0];
      assert (a + b)[1..] == a[1..] + b;
      TenantOfConcat(a[1..], b);
    }
  }

  /** An id without `-` is its own tenant. */
  lemma {:induction false} TenantOfDashFree(id: string)
    requires '-' !in id
    ensures CreateTenantID(id) == id
    decreases |id|
  {
    if |id| > 0 {
      assert id[0] in id;
      assert forall c :: c in id[1..] ==> c in id;
      TenantOfDashFree(id[1..]);
    }
  }

  lemma TenantIdempotent(id: string)
    ensures CreateTenantID(CreateTenantID(id)) == CreateTenantID(id)
  {
    TenantOfDashFree(CreateTenantID(id));
  }

  /** `getInstanceObjName`. */
  function InstanceObjName(instanceId: string): (r: string)
    ensures HasPrefix(r, InstancePrefix)
    ensures r[|InstancePrefix|..] == instanceId
  {
    InstancePrefix + instanceId
  }

  /** The listing prefix `hasBinds` uses: every binding of the instance lives under it. */
  function BindsPrefix(instanceId: string): string {
    InstanceObjName(instanceId) + "/"
  }

  /** `getBindObjName`: built from the prefix directly, yet it nests under the instance's name. */
  function BindObjName(instanceId: string, bindingId: string): (r: string)
    ensures r == BindsPrefix(instanceId) + bindingId
    ensures HasPrefix(r, BindsPrefix(instanceId))
    ensures HasPrefix(r, InstanceObjName(instanceId)) && r != InstanceObjName(instanceId)
  {
    var r := InstancePrefix + instanceId + "/" + bindingId;
    assert r[..|BindsPrefix(instanceId)|] == BindsPrefix(instanceId);
    r
  }

  /** Distinct instances have distinct records. */
  lemma InstanceObjNameInjective(i: string, j: string)
    requires InstanceObjName(i) == InstanceObjName(j)
    ensures i == j
  {
  }

  /** Within one instance, distinct bindings have distinct records. */
  lemma BindObjNameInjective(i: string, b: string, c: string)
    requires BindObjName(i, b) == BindObjName(i, c)
    ensures b == c
  {
    var n := |BindsPrefix(i)|;
    assert b == BindObjName(i, b)[n..];
    assert c == BindObjName(i, c)[n..];
  }

  /**
   * A binding record is never an instance record of an instance whose id has no `/`:
   * the binding's name carries a `/` after the prefix.
   */
  lemma BindIsNotSlashFreeInstance(i: string, b: string, j: string)
    requires '/' !in j
    ensures BindObjName(i, b) != InstanceObjName(j)
  {
    var x, y := BindObjName(i, b), InstanceObjName(j);
    var k := |InstancePrefix| + |i|;
    assert x[k] == '/';
    if k < |y| {
      assert y[k] == j[|i|];
      assert j[|i|] in j;
    }
  }
}
