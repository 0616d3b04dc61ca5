/** The cloud provider as the services see it: a store of resources keyed by
    kind and name, a log of every call made to it, and a fixed set of calls
    that fail with a server error. */
module Provider {
  import opened Wrappers
  import opened Errors
  import opened Resources

  datatype Op = Get | CreateOrUpdate | Delete

  /** One provider call, as it appears in the trace. */
  datatype Call = Call(op: Op, kind: Kind, name: string)

  datatype Key = Key(kind: Kind, name: string)

  /** The trace `after` continues the trace `before`. */
  predicate Extends(before: seq<Call>, after: seq<Call>) {
    |before| <= |after| && after[..|before|] == before
  }

  /** The calls made since `before`. */
  function Since(before: seq<Call>, after: seq<Call>): seq<Call>
    requires Extends(before, after)
  {
    after[|before|..]
  }

  lemma SinceAppend(before: seq<Call>, calls: seq<Call>)
    ensures Extends(before, before + calls) && Since(before, before + calls) == calls
  {
    assert (before + calls)[..|before|] == before;
    assert (before + calls)[|before|..] == calls;
  }

  lemma SinceSplit(before: seq<Call>, after: seq<Call>)
    requires Extends(before, after)
    ensures after == before + Since(before, after)
  {
    assert after == after[..|before|] + after[|before|..];
  }

  class Cloud {
    var store: map<Key, Record>
    var trace: seq<Call>
    /** Calls that the provider answers with a server error (status 500). */
    const faults: set<Call>
    /** What a VM looks like once the provider has provisioned it from a spec. */
    const provision: VmSpec -> Vm

    ghost predicate Valid()
      reads this
    {
      forall key | key in store :: Fits(key.kind, store[key])
    }

    constructor (store: map<Key, Record>, faults: set<Call>, provision: VmSpec -> Vm)
      requires forall key | key in store :: Fits(key.kind, store[key])
      ensures Valid()
      ensures this.store == store && this.faults == faults && this.provision == provision
      ensures trace == []
    {
      this.store := store;
      this.faults := faults;
      this.provision := provision;
      trace := [];
    }

    /** The error the provider answers a call with, if any: a faulted call
        fails with status 500; a Get or Delete of a missing resource with 404. */
    function Refusal(c: Call): Option<ProviderError>
      reads this
    {
      if c in faults then Some(InternalServerError)
      else if c.op != Op.CreateOrUpdate && Key(c.kind, c.name) !in store then Some(NotFound)
      else None
    }

    method Get(k: Kind, name: string) returns (r: Result<Record, Error>)
      requires Valid()
      modifies this`trace
      ensures trace == old(trace) + [Call(Op.Get, k, name)]
      ensures r.Failure? <==> Refusal(Call(Op.Get, k, name)).Some?
      ensures r.Failure? ==> r.error == Provider(Refusal(Call(Op.Get, k, name)).value)
      ensures r.Success? ==> Key(k, name) in store && r.value == store[Key(k, name)] && Fits(k, r.value)
    {
      var c := Call(Op.Get, k, name);
      trace := trace + [c];
      if c in faults {
        r := Failure(Provider(InternalServerError));
      } else if Key(k, name) !in store {
        r := Failure(Provider(NotFound));
      } else {
        r := Success(store[Key(k, name)]);
      }
    }

    method CreateOrUpdate(k: Kind, name: string, rec: Record) returns (err: Option<Error>)
      requires Valid() && Fits(k, rec)
      modifies this
      ensures Valid()
      ensures trace == old(trace) + [Call(Op.CreateOrUpdate, k, name)]
      ensures err.Some? <==> Call(Op.CreateOrUpdate, k, name) in faults
      ensures err.Some? ==> err.value == Provider(InternalServerError) && store == old(store)
      ensures err.None? ==> store == old(store)[Key(k, name) := rec]
    {
      var c := Call(Op.CreateOrUpdate, k, name);
      trace := trace + [c];
      if c in faults {
        err := Some(Provider(InternalServerError));
      } else {
        err := None;
        store := store[Key(k, name) := rec];
      }
    }

    method Delete(k: Kind, name: string) returns (err: Option<Error>)
      requires Valid()
      modifies this
      ensures Valid()
      ensures trace == old(trace) + [Call(Op.Delete, k, name)]
      ensures err.Some? <==> old(Refusal(Call(Op.Delete, k, name))).Some?
      ensures err.Some? ==> err.value == Provider(old(Refusal(Call(Op.Delete, k, name))).value) && store == old(store)
      ensures err.None? ==> store == old(store) - {Key(k, name)}
    {
      var c := Call(Op.Delete, k, name);
      trace := trace + [c];
      if c in faults {
        err := Some(Provider(InternalServerError));
      } else if Key(k, name) !in store {
        err := Some(Provider(NotFound));
      } else {
        err := None;
        store := store - {Key(k, name)};
      }
    }
  }
}

/** The adapters whose code is not part of this model (network interfaces,
    inbound NAT rules, role assignments, disks, the virtual machine service),
    reduced to the contract every adapter keeps: reconcile is one
    CreateOrUpdate whose error is returned as it is; delete is one Delete
    that counts a missing resource as deleted. */
module Adapters {
  import opened Wrappers
  import opened Errors
  import opened Resources
  import opened Provider

  method Ensure(cloud: Cloud, k: Kind, name: string, rec: Record) returns (err: Option<Error>)
    requires cloud.Valid() && Fits(k, rec)
    modifies cloud
    ensures cloud.Valid()
    ensures cloud.trace == old(cloud.trace) + [Call(CreateOrUpdate, k, name)]
    ensures err.Some? <==> Call(CreateOrUpdate, k, name) in cloud.faults
    ensures err.Some? ==> err.value == Provider(InternalServerError)
    ensures err.None? ==> cloud.store == old(cloud.store)[Key(k, name) := rec]
    ensures err.Some? ==> cloud.store == old(cloud.store)
  {
    err := cloud.CreateOrUpdate(k, name, rec);
  }

  method Remove(cloud: Cloud, k: Kind, name: string) returns (err: Option<Error>)
    requires cloud.Valid()
    modifies cloud
    ensures cloud.Valid()
    ensures cloud.trace == old(cloud.trace) + [Call(Delete, k, name)]
    ensures err.Some? <==> Call(Delete, k, name) in cloud.faults
    ensures err.Some? ==> err.value == Provider(InternalServerError) && !IsNotFound(err.value)
    ensures err.Some? ==> cloud.store == old(cloud.store)
    ensures err.None? ==> cloud.store == old(cloud.store) - {Key(k, name)}
  {
    err := cloud.Delete(k, name);
    if err.Some? && IsNotFound(err.value) {
      err := None;
    }
  }
}
