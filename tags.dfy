/** Resource tags and the ownership rule built on them. The tag layout
    (api/v1alpha3/tags.go, not part of this model) is the one the load
    balancer test expects: a per-cluster key whose value is the lifecycle,
    and a role key. */
module Tags {
  import opened Wrappers

  type Tags = map<string, string>

  const Prefix: string := "sigs.k8s.io_cluster-api-provider-azure_"
  const RoleTagKey: string := Prefix + "role"
  const NameTagKey: string := "Name"
  const OwnedLifecycle: string := "owned"
  const CommonRole: string := "common"
  const APIServerRole: string := "apiserver"
  const NodeOutboundRole: string := "nodeOutboundLB"

  /** The key that records a resource's lifecycle for one cluster. */
  function ClusterTagKey(clusterName: string): (k: string)
    ensures k != RoleTagKey && k != NameTagKey
  {
    var k := Prefix + "cluster_" + clusterName;
    assert k[|Prefix|] != RoleTagKey[|Prefix|];
    assert k[0] != NameTagKey[0];
    k
  }

  datatype BuildParams = BuildParams(
    clusterName: string,
    lifecycle: string,
    name: Option<string>,
    role: Option<string>,
    additional: Tags)

  /** infrav1.Build: the additional tags, overridden by the cluster lifecycle
      tag, the role tag and the name tag. */
  function Build(p: BuildParams): (t: Tags)
    ensures ClusterTagKey(p.clusterName) in t && t[ClusterTagKey(p.clusterName)] == p.lifecycle
    ensures p.role.Some? ==> RoleTagKey in t && t[RoleTagKey] == p.role.value
    ensures p.name.Some? ==> NameTagKey in t && t[NameTagKey] == p.name.value
    ensures t.Keys == p.additional.Keys + {ClusterTagKey(p.clusterName)}
                      + (if p.role.Some? then {RoleTagKey} else {})
                      + (if p.name.Some? then {NameTagKey} else {})
    ensures forall k | k in p.additional && k != ClusterTagKey(p.clusterName)
                       && (p.role.Some? ==> k != RoleTagKey) && (p.name.Some? ==> k != NameTagKey)
              :: t[k] == p.additional[k]
  {
    var withCluster := p.additional[ClusterTagKey(p.clusterName) := p.lifecycle];
    var withRole := if p.role.Some? then withCluster[RoleTagKey := p.role.value] else withCluster;
    if p.name.Some? then withRole[NameTagKey := p.name.value] else withRole
  }

  /** Tags.HasOwned: the resource carries this cluster's "owned" lifecycle. */
  predicate HasOwned(t: Tags, clusterName: string) {
    ClusterTagKey(clusterName) in t && t[ClusterTagKey(clusterName)] == OwnedLifecycle
  }

  /** Tags.Merge: every pair of `other` is written over `t`. */
  function Merge(t: Tags, other: Tags): (r: Tags)
    ensures r.Keys == t.Keys + other.Keys
    ensures forall k | k in other :: r[k] == other[k]
    ensures forall k | k in t && k !in other :: r[k] == t[k]
  {
    t + other
  }

  /** Tags built with the owned lifecycle make the resource owned by that
      cluster and by no cluster whose key is different. */
  lemma BuildOwned(p: BuildParams, other: string)
    requires p.lifecycle == OwnedLifecycle
    ensures HasOwned(Build(p), p.clusterName)
    ensures other != p.clusterName && ClusterTagKey(other) !in p.additional ==> !HasOwned(Build(p), other)
  {
    if other != p.clusterName {
      assert ClusterTagKey(other)[|Prefix| + 8..] == other;
      assert ClusterTagKey(p.clusterName)[|Prefix| + 8..] == p.clusterName;
    }
  }
}
