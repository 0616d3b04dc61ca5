/** The public IP service: creates, then deletes, one public IP address per
    spec of the scope, in spec order. */
module PublicIPs {
  import opened Wrappers
  import opened Errors
  import opened Resources
  import opened Provider
  import opened Text

  datatype PublicIPSpec = PublicIPSpec(name: string, dnsName: string)

  /** The address the service asks for: a static IPv4 address of the
      Standard SKU whose DNS label is the spec's name in lower case. */
  function PublicIPAddressFor(spec: PublicIPSpec, location: string): (ip: PublicIPAddress)
    ensures ip.name == spec.name && ip.location == location && ip.fqdn == spec.dnsName
    ensures ip.sku == "Standard" && ip.allocation == "Static" && ip.version == "IPv4"
    ensures |ip.domainNameLabel| == |spec.name|
    ensures forall i | 0 <= i < |spec.name| :: !('A' <= ip.domainNameLabel[i] <= 'Z')
    ensures EqualFold(ip.domainNameLabel, spec.name)
  {
    PublicIPAddress(spec.name, location, "Standard", "IPv4", "Static", ToLower(spec.name), spec.dnsName)
  }

  /** The calls that create the addresses of `specs`, in order. */
  function CreateCalls(specs: seq<PublicIPSpec>): (t: seq<Call>)
    ensures |t| == |specs|
  {
    if specs == [] then [] else CreateCalls(specs[..|specs| - 1]) + [Call(CreateOrUpdate, PublicIP, specs[|specs| - 1].name)]
  }

  /** The calls that delete the addresses of `specs`, in order. */
  function DeleteCalls(specs: seq<PublicIPSpec>): (t: seq<Call>)
    ensures |t| == |specs|
  {
    if specs == [] then [] else DeleteCalls(specs[..|specs| - 1]) + [Call(Op.Delete, PublicIP, specs[|specs| - 1].name)]
  }

  /** Every call Reconcile makes creates a public IP. */
  lemma {:induction false} CreateCallsCreatePublicIPs(specs: seq<PublicIPSpec>)
    ensures forall c | c in CreateCalls(specs) :: c.op == CreateOrUpdate && c.kind == PublicIP
  {
    if specs != [] {
      CreateCallsCreatePublicIPs(specs[..|specs| - 1]);
    }
  }

  /** Every call Delete makes deletes a public IP. */
  lemma {:induction false} DeleteCallsDeletePublicIPs(specs: seq<PublicIPSpec>)
    ensures forall c | c in DeleteCalls(specs) :: c.op == Op.Delete && c.kind == PublicIP
  {
    if specs != [] {
      DeleteCallsDeletePublicIPs(specs[..|specs| - 1]);
    }
  }

  lemma CreateCallsStep(specs: seq<PublicIPSpec>, i: nat)
    requires i < |specs|
    ensures CreateCalls(specs[..i + 1]) == CreateCalls(specs[..i]) + [Call(CreateOrUpdate, PublicIP, specs[i].name)]
  {
    assert specs[..i + 1][..i] == specs[..i];
  }

  lemma DeleteCallsStep(specs: seq<PublicIPSpec>, i: nat)
    requires i < |specs|
    ensures DeleteCalls(specs[..i + 1]) == DeleteCalls(specs[..i]) + [Call(Op.Delete, PublicIP, specs[i].name)]
  {
    assert specs[..i + 1][..i] == specs[..i];
  }

  /** The store after the addresses of `specs` were written in order. */
  function Created(store: map<Key, Record>, specs: seq<PublicIPSpec>, location: string): map<Key, Record>
  {
    if specs == [] then store
    else
      var last := specs[|specs| - 1];
      Created(store, specs[..|specs| - 1], location)[Key(PublicIP, last.name) := PublicIPRecord(PublicIPAddressFor(last, location))]
  }

  lemma CreatedStep(store: map<Key, Record>, specs: seq<PublicIPSpec>, i: nat, location: string)
    requires i < |specs|
    ensures Created(store, specs[..i + 1], location)
         == Created(store, specs[..i], location)[Key(PublicIP, specs[i].name) := PublicIPRecord(PublicIPAddressFor(specs[i], location))]
  {
    assert specs[..i + 1][..i] == specs[..i];
  }

  /** The keys of the addresses of `specs`. */
  function Keys(specs: seq<PublicIPSpec>): set<Key> {
    set i | 0 <= i < |specs| :: Key(PublicIP, specs[i].name)
  }

  lemma KeysStep(specs: seq<PublicIPSpec>, i: nat)
    requires i < |specs|
    ensures Keys(specs[..i + 1]) == Keys(specs[..i]) + {Key(PublicIP, specs[i].name)}
  {
    assert specs[..i + 1][i] == specs[i];
    forall k | k in Keys(specs[..i + 1]) ensures k in Keys(specs[..i]) + {Key(PublicIP, specs[i].name)} {
      var j :| 0 <= j < i + 1 && k == Key(PublicIP, specs[..i + 1][j].name);
      if j < i {
        assert specs[..i][j] == specs[..i + 1][j];
      }
    }
    forall k | k in Keys(specs[..i]) ensures k in Keys(specs[..i + 1]) {
      var j :| 0 <= j < i && k == Key(PublicIP, specs[..i][j].name);
      assert specs[..i][j] == specs[..i + 1][j];
    }
  }

  /** The state Reconcile leaves when a create fails: the creates so far
      were issued in spec order, only the last one failed, and the store
      holds the addresses created before it. */
  ghost predicate CreateStopped(t0: seq<Call>, trace: seq<Call>, s0: map<Key, Record>, store: map<Key, Record>,
                                faults: set<Call>, specs: seq<PublicIPSpec>, location: string)
  {
    Extends(t0, trace) &&
    var t := Since(t0, trace);
    0 < |t| <= |specs| && t == CreateCalls(specs[..|t|])
    && t[|t| - 1] in faults && (forall c | c in t[..|t| - 1] :: c !in faults)
    && store == Created(s0, specs[..|t| - 1], location)
  }

  lemma StoppedAt(t0: seq<Call>, trace: seq<Call>, s0: map<Key, Record>, store: map<Key, Record>,
                  faults: set<Call>, specs: seq<PublicIPSpec>, location: string, i: nat)
    requires i < |specs|
    requires trace == t0 + CreateCalls(specs[..i + 1])
    requires CreateCalls(specs[..i + 1]) == CreateCalls(specs[..i]) + [Call(CreateOrUpdate, PublicIP, specs[i].name)]
    requires forall c | c in CreateCalls(specs[..i]) :: c !in faults
    requires Call(CreateOrUpdate, PublicIP, specs[i].name) in faults
    requires store == Created(s0, specs[..i], location)
    ensures CreateStopped(t0, trace, s0, store, faults, specs, location)
  {
    SinceAppend(t0, CreateCalls(specs[..i + 1]));
    assert CreateCalls(specs[..i + 1])[..i] == CreateCalls(specs[..i]);
    assert specs[..i + 1][..i] == specs[..i];
  }

  /** Reconcile: one CreateOrUpdate per spec, in order; the first failure
      stops the loop with "cannot create public IP". */
  method Reconcile(cloud: Cloud, location: string, specs: seq<PublicIPSpec>) returns (err: Option<Error>)
    requires cloud.Valid()
    modifies cloud
    ensures cloud.Valid()
    ensures Extends(old(cloud.trace), cloud.trace)
    ensures var t := Since(old(cloud.trace), cloud.trace);
            err.None? ==>
              t == CreateCalls(specs) && (forall c | c in t :: c !in cloud.faults)
              && cloud.store == Created(old(cloud.store), specs, location)
    ensures err.Some? ==>
              CreateStopped(old(cloud.trace), cloud.trace, old(cloud.store), cloud.store, cloud.faults, specs, location)
              && err.value == Wrap("cannot create public IP", Provider(InternalServerError))
  {
    ghost var t0 := cloud.trace;
    ghost var s0 := cloud.store;
    var i := 0;
    err := None;
    while i < |specs| && err.None?
      invariant 0 <= i <= |specs|
      decreases |specs| - i, if err.None? then 1 else 0
      invariant cloud.Valid()
      invariant err.None? ==> cloud.trace == t0 + CreateCalls(specs[..i])
      invariant err.None? ==> forall c | c in CreateCalls(specs[..i]) :: c !in cloud.faults
      invariant err.None? ==> cloud.store == Created(s0, specs[..i], location)
      invariant err.Some? ==> CreateStopped(t0, cloud.trace, s0, cloud.store, cloud.faults, specs, location)
                              && err.value == Wrap("cannot create public IP", Provider(InternalServerError))
    {
      var spec := specs[i];
      CreatedStep(s0, specs, i, location);
      CreateCallsStep(specs, i);
      var e := cloud.CreateOrUpdate(PublicIP, spec.name, PublicIPRecord(PublicIPAddressFor(spec, location)));
      if e.Some? {
        StoppedAt(t0, cloud.trace, s0, cloud.store, cloud.faults, specs, location, i);
        err := Some(Wrap("cannot create public IP", e.value));
      } else {
        i := i + 1;
      }
    }
    if err.None? {
      assert specs[..i] == specs;
      SinceAppend(t0, CreateCalls(specs));
    }
  }

  /** The state Delete leaves when it returns without error: the deletes
      were issued in spec order and none failed with a server error, the
      addresses deleted are gone, and a stop before the last spec means the
      last address asked for was already missing. */
  ghost predicate DeleteFinished(t0: seq<Call>, trace: seq<Call>, s0: map<Key, Record>, store: map<Key, Record>,
                                 faults: set<Call>, specs: seq<PublicIPSpec>)
  {
    Extends(t0, trace) &&
    var t := Since(t0, trace);
    |t| <= |specs| && t == DeleteCalls(specs[..|t|]) && (forall c | c in t :: c !in faults)
    && store == s0 - Keys(specs[..|t|])
    && (|t| < |specs| ==> 0 < |t| && Key(PublicIP, specs[|t| - 1].name) !in s0 - Keys(specs[..|t| - 1]))
  }

  /** The state Delete leaves when a delete fails with a server error: only
      that last delete failed, and the addresses deleted before it are gone. */
  ghost predicate DeleteStopped(t0: seq<Call>, trace: seq<Call>, s0: map<Key, Record>, store: map<Key, Record>,
                                faults: set<Call>, specs: seq<PublicIPSpec>)
  {
    Extends(t0, trace) &&
    var t := Since(t0, trace);
    0 < |t| <= |specs| && t == DeleteCalls(specs[..|t|])
    && t[|t| - 1] in faults && (forall c | c in t[..|t| - 1] :: c !in faults)
    && store == s0 - Keys(specs[..|t| - 1])
  }

  lemma DeleteEndsAt(t0: seq<Call>, trace: seq<Call>, s0: map<Key, Record>, before: map<Key, Record>, store: map<Key, Record>,
                     faults: set<Call>, specs: seq<PublicIPSpec>, i: nat, failed: bool)
    requires i < |specs|
    requires trace == t0 + DeleteCalls(specs[..i + 1])
    requires DeleteCalls(specs[..i + 1]) == DeleteCalls(specs[..i]) + [Call(Op.Delete, PublicIP, specs[i].name)]
    requires Keys(specs[..i + 1]) == Keys(specs[..i]) + {Key(PublicIP, specs[i].name)}
    requires forall c | c in DeleteCalls(specs[..i]) :: c !in faults
    requires before == s0 - Keys(specs[..i]) && store == before
    requires failed <==> Call(Op.Delete, PublicIP, specs[i].name) in faults
    requires !failed ==> Key(PublicIP, specs[i].name) !in before
    ensures failed ==> DeleteStopped(t0, trace, s0, store, faults, specs)
    ensures !failed ==> DeleteFinished(t0, trace, s0, store, faults, specs)
  {
    SinceAppend(t0, DeleteCalls(specs[..i + 1]));
    assert DeleteCalls(specs[..i + 1])[..i] == DeleteCalls(specs[..i]);
    assert specs[..i + 1][..i] == specs[..i];
  }

  /** When every address of `specs` exists and their names are distinct,
      no delete finds its address missing, so a Delete that returns no error
      has deleted them all. */
  lemma DeleteFinishedRemovesAll(t0: seq<Call>, trace: seq<Call>, s0: map<Key, Record>, store: map<Key, Record>,
                                 faults: set<Call>, specs: seq<PublicIPSpec>)
    requires DeleteFinished(t0, trace, s0, store, faults, specs)
    requires forall i | 0 <= i < |specs| :: Key(PublicIP, specs[i].name) in s0
    requires forall i, j | 0 <= i < j < |specs| :: specs[i].name != specs[j].name
    ensures Since(t0, trace) == DeleteCalls(specs) && store == s0 - Keys(specs)
  {
  }

  /** Delete: one Delete per spec, in order. A missing address ends the loop
      at once with success, leaving the later specs untouched; any other
      failure ends it with an error naming the address and resource group. */
  method Delete(cloud: Cloud, resourceGroup: string, specs: seq<PublicIPSpec>) returns (err: Option<Error>)
    requires cloud.Valid()
    modifies cloud
    ensures cloud.Valid()
    ensures err.None? ==> DeleteFinished(old(cloud.trace), cloud.trace, old(cloud.store), cloud.store, cloud.faults, specs)
    ensures err.Some? ==>
              DeleteStopped(old(cloud.trace), cloud.trace, old(cloud.store), cloud.store, cloud.faults, specs)
              && var t := Since(old(cloud.trace), cloud.trace);
              err.value == Wrap("failed to delete public IP " + specs[|t| - 1].name + " in resource group " + resourceGroup,
                                Provider(InternalServerError))
  {
    ghost var t0 := cloud.trace;
    ghost var s0 := cloud.store;
    var i := 0;
    var done := false;
    err := None;
    while i < |specs| && !done
      invariant 0 <= i <= |specs|
      invariant cloud.Valid()
      invariant !done ==> err.None?
      invariant !done ==> cloud.trace == t0 + DeleteCalls(specs[..i])
      invariant !done ==> forall c | c in DeleteCalls(specs[..i]) :: c !in cloud.faults
      invariant !done ==> cloud.store == s0 - Keys(specs[..i])
      invariant done && err.None? ==> DeleteFinished(t0, cloud.trace, s0, cloud.store, cloud.faults, specs)
      invariant done && err.Some? ==>
                  DeleteStopped(t0, cloud.trace, s0, cloud.store, cloud.faults, specs)
                  && |Since(t0, cloud.trace)| == i + 1
                  && err.value == Wrap("failed to delete public IP " + specs[i].name + " in resource group " + resourceGroup,
                                       Provider(InternalServerError))
      decreases |specs| - i, if done then 0 else 1
    {
      var spec := specs[i];
      DeleteCallsStep(specs, i);
      KeysStep(specs, i);
      ghost var before := cloud.store;
      var e := cloud.Delete(PublicIP, spec.name);
      if e.Some? {
        DeleteEndsAt(t0, cloud.trace, s0, before, cloud.store, cloud.faults, specs, i, !IsNotFound(e.value));
        if !IsNotFound(e.value) {
          err := Some(Wrap("failed to delete public IP " + spec.name + " in resource group " + resourceGroup, e.value));
        }
        done := true;
      } else {
        i := i + 1;
      }
    }
    if !done {
      assert specs[..i] == specs;
      SinceAppend(t0, DeleteCalls(specs));
    }
  }
}
