/**
 * The broker's record store: one object per instance and one per binding in the
 * broker's bucket, reached through existence probes, puts, gets, deletes and
 * non-recursive ("delimiter /") listings. Failing calls are chosen by the caller.
 */
module Records {
  import opened Outcomes
  import opened Text
  import opened Names

  /** What a binding record keeps so that the binding can be undone. */
  datatype Bind = Bind(s3AccessKey: string, swiftKey: string, user: string, subuser: string, tenant: string)

  /** An instance record has an empty body; a binding record holds a `Bind`. */
  datatype Record = InstanceRecord | BindRecord(bind: Bind)

  datatype Store = Store(objects: map<string, Record>)

  datatype StoreError = StoreUnavailable | NoSuchObject

  /** A stat call: true only when the call succeeds, so a failing probe reads as "absent". */
  function Stat(st: Store, name: string, fails: bool): (r: bool)
    ensures r ==> name in st.objects
    ensures !fails && name in st.objects ==> r
  {
    !fails && name in st.objects
  }

  function Put(st: Store, name: string, rec: Record, fails: bool): (r: Result<Store, StoreError>)
    ensures r.Err? <==> fails
    ensures r.Ok? ==> name in r.value.objects && r.value.objects[name] == rec
    ensures r.Ok? ==> r.value.objects - {name} == st.objects - {name}
  {
    if fails then Err(StoreUnavailable) else Ok(Store(st.objects[name := rec]))
  }

  function Get(st: Store, name: string, fails: bool): (r: Result<Record, StoreError>)
    ensures r.Ok? <==> !fails && name in st.objects
    ensures r.Ok? ==> r.value == st.objects[name]
  {
    if fails then Err(StoreUnavailable)
    else if name !in st.objects then Err(NoSuchObject)
    else Ok(st.objects[name])
  }

  /** Removing an object that is not there succeeds, as in S3. */
  function Delete(st: Store, name: string, fails: bool): (r: Result<Store, StoreError>)
    ensures r.Err? <==> fails
    ensures r.Ok? ==> name !in r.value.objects && r.value.objects - {name} == st.objects - {name}
  {
    if fails then Err(StoreUnavailable) else Ok(Store(st.objects - {name}))
  }

  /** The first `/` of `s` at or after position `k`. */
  function SlashFrom(s: string, k: nat): (r: Option<nat>)
    ensures r.Some? ==> k <= r.value < |s| && s[r.value] == '/'
    ensures r.Some? ==> forall j :: k <= j < r.value ==> s[j] != '/'
    ensures r.None? ==> forall j :: k <= j < |s| ==> s[j] != '/'
    decreases |s| - k
  {
    if k >= |s| then None else if s[k] == '/' then Some(k) else SlashFrom(s, k + 1)
  }

  /** Objects listed under `prefix` with no `/` after it. */
  function DirectObjects(st: Store, prefix: string): set<string> {
    set p | p in st.objects && HasPrefix(p, prefix) && SlashFrom(p, |prefix|).None?
  }

  /** The "directories" a delimiter listing reports: the prefix up to and including the next `/`. */
  function CommonPrefixes(st: Store, prefix: string): set<string> {
    set p | p in st.objects && HasPrefix(p, prefix) && SlashFrom(p, |prefix|).Some?
      :: p[..SlashFrom(p, |prefix|).value + 1]
  }

  /** The entries of a non-recursive listing under `prefix`. */
  function ListEntries(st: Store, prefix: string): set<string> {
    DirectObjects(st, prefix) + CommonPrefixes(st, prefix)
  }

  /** `instanceExists`: a failing probe reads as "no such instance". */
  function InstanceExists(st: Store, instanceId: string, probeFails: bool): (r: bool)
    ensures r <==> !probeFails && InstanceObjName(instanceId) in st.objects
  {
    Stat(st, InstanceObjName(instanceId), probeFails)
  }

  /** `bindingExists`: a failing probe reads as "no such binding". */
  function BindingExists(st: Store, instanceId: string, bindingId: string, probeFails: bool): (r: bool)
    ensures r <==> !probeFails && BindObjName(instanceId, bindingId) in st.objects
  {
    Stat(st, BindObjName(instanceId, bindingId), probeFails)
  }

  /** `hasBinds`: the listing under `instances/<id>/` yields some entry. */
  function HasBinds(st: Store, instanceId: string): (r: bool)
    ensures r <==> exists p :: p in st.objects && HasPrefix(p, BindsPrefix(instanceId))
  {
    // Every branch returns the same listing test; the case split only proves the ensures.
    var prefix := BindsPrefix(instanceId);
    if exists p :: p in st.objects && HasPrefix(p, prefix) then
      var p :| p in st.objects && HasPrefix(p, prefix);
      if SlashFrom(p, |prefix|).None? then
        assert p in DirectObjects(st, prefix);
        ListEntries(st, prefix) != {}
      else
        assert p[..SlashFrom(p, |prefix|).value + 1] in CommonPrefixes(st, prefix);
        ListEntries(st, prefix) != {}
    else
      assert DirectObjects(st, prefix) == {};
      assert CommonPrefixes(st, prefix) == {};
      ListEntries(st, prefix) != {}
  }

  /** `hasBinds` answers from the listing alone: true exactly when the listing has an entry. */
  lemma HasBindsReadsListing(st: Store, instanceId: string)
    ensures HasBinds(st, instanceId) == (ListEntries(st, BindsPrefix(instanceId)) != {})
  {
  }

  /**
   * `provisionCount` as written: the number of entries of the non-recursive listing
   * under `instances/`, which counts a "directory" for every instance that has bindings.
   */
  function ListingCount(st: Store): nat {
    |ListEntries(st, InstancePrefix)|
  }

  /** The number of provisioned instances that `provisionCount` is documented to return. */
  function InstanceCount(st: Store): (n: nat)
    ensures n <= ListingCount(st)
  {
    CardinalitySubset(DirectObjects(st, InstancePrefix), ListEntries(st, InstancePrefix));
    |DirectObjects(st, InstancePrefix)|
  }

  lemma CardinalitySubset<T>(a: set<T>, b: set<T>)
    requires a <= b
    ensures |a| <= |b|
  {
    assert b == a + (b - a);
  }

  /** Recording a new instance whose id has no `/` adds exactly one to the count. */
  lemma InstanceCountAdd(st: Store, instanceId: string, rec: Record)
    requires '/' !in instanceId
    requires InstanceObjName(instanceId) !in st.objects
    ensures InstanceCount(Store(st.objects[InstanceObjName(instanceId) := rec])) == InstanceCount(st) + 1
  {
    var name := InstanceObjName(instanceId);
    var st' := Store(st.objects[name := rec]);
    assert DirectObjects(st', InstancePrefix) == DirectObjects(st, InstancePrefix) + {name};
  }

  /** Removing the record of an instance whose id has no `/` takes exactly one off the count. */
  lemma InstanceCountRemove(st: Store, instanceId: string)
    requires '/' !in instanceId
    requires InstanceObjName(instanceId) in st.objects
    ensures InstanceCount(Store(st.objects - {InstanceObjName(instanceId)})) == InstanceCount(st) - 1
  {
    var name := InstanceObjName(instanceId);
    var st' := Store(st.objects - {name});
    assert DirectObjects(st, InstancePrefix) == DirectObjects(st', InstancePrefix) + {name};
  }

  /**
   * The listing count disagrees with the number of instances as soon as an instance
   * has a binding: one instance `a` with binding `b` is counted twice.
   */
  lemma ListingCountsBoundInstanceTwice()
    ensures var st := Store(map[InstanceObjName("a") := InstanceRecord,
                                BindObjName("a", "b") := BindRecord(Bind("k", "s", "a", "b", "a"))]);
            ListingCount(st) == 2 && InstanceCount(st) == 1
  {
    var inst, bind := InstanceObjName("a"), BindObjName("a", "b");
    var st := Store(map[inst := InstanceRecord, bind := BindRecord(Bind("k", "s", "a", "b", "a"))]);
    assert inst == "instances/a" && bind == "instances/a/b";
    assert SlashFrom(inst, |InstancePrefix|).None?;
    assert SlashFrom(bind, |InstancePrefix|) == Some(11);
    assert DirectObjects(st, InstancePrefix) == {inst};
    assert bind[..12] == "instances/a/";
    assert "instances/a/" in CommonPrefixes(st, InstancePrefix);
    assert forall p :: p in st.objects && SlashFrom(p, |InstancePrefix|).Some? ==> p == bind;
    assert CommonPrefixes(st, InstancePrefix) == {"instances/a/"};
    assert ListEntries(st, InstancePrefix) == {inst, "instances/a/"};
  }
}
