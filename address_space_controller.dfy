/**
 * The reconciliation decision of the controller of one address space.
 * Given the configured destinations and the broker clusters that exist, it
 * groups the destinations, rejects a group that mixes kinds of destination,
 * creates a cluster for every new group, deletes every cluster whose group
 * is gone, and replaces every destination with its refreshed status.
 *
 * Kubernetes is an input: the list of existing clusters and a readiness
 * predicate on group names. The cluster generator is an uninterpreted
 * function from a group's destinations to a cluster. The side effects are
 * returned as a list of actions.
 */
module AddressSpace {
  import opened Wrappers

  datatype Status = Status(isReady: bool)

  datatype Destination = Destination(
    address: string,
    group: string,
    storeAndForward: bool,
    multicast: bool,
    flavor: string,
    status: Status)

  /** One item of the Kubernetes resource list of a cluster. */
  type Resource = string

  datatype DestinationCluster = DestinationCluster(clusterId: string, resources: seq<Resource>)

  /** The side effects of one reconciliation, in issue order. */
  datatype Action =
    | Create(resources: seq<Resource>)
    | Delete(resources: seq<Resource>)
    | ReplaceDestination(destination: Destination)

  /** The rejection of a group holding `current` and `first`, which differ. */
  datatype ValidationError = MixedGroup(current: Destination, first: Destination)

  // ---------------------------------------------------------------------
  // Grouping

  function GroupKeys(ds: set<Destination>): set<string>
  {
    set d | d in ds :: d.group
  }

  function GroupOf(ds: set<Destination>, k: string): set<Destination>
  {
    set d | d in ds && d.group == k
  }

  /** Group the destinations by their group name. */
  function GroupBy(ds: set<Destination>): (g: map<string, set<Destination>>)
    ensures forall d :: d in ds ==> d.group in g && d in g[d.group]
    ensures forall k :: k in g ==> g[k] != {} && forall d :: d in g[k] ==> d in ds && d.group == k
  {
    map k | k in GroupKeys(ds) :: GroupOf(ds, k)
  }

  // ---------------------------------------------------------------------
  // Validation

  /** The properties every destination of one group must share. */
  predicate Compatible(a: Destination, b: Destination)
  {
    && a.storeAndForward == b.storeAndForward
    && a.multicast == b.multicast
    && a.flavor == b.flavor
    && a.group == b.group
  }

  predicate Homogeneous(s: set<Destination>)
  {
    forall a, b :: a in s && b in s ==> Compatible(a, b)
  }

  predicate ValidGroups(groups: map<string, set<Destination>>)
  {
    forall k :: k in groups ==> Homogeneous(groups[k])
  }

  /** `e` names two destinations of one group that differ. */
  ghost predicate MixedIn(groups: map<string, set<Destination>>, e: ValidationError)
  {
    exists k :: k in groups && e.current in groups[k] && e.first in groups[k] && !Compatible(e.current, e.first)
  }

  lemma HomogeneousByFirst(s: set<Destination>, first: Destination)
    requires forall d :: d in s ==> Compatible(d, first)
    ensures Homogeneous(s)
  {
  }

  /**
   * Check that each group is homogeneous: compare every member with the
   * first one the iteration meets, and report the first mismatch.
   */
  method ValidateDestinationGroups(groups: map<string, set<Destination>>) returns (error: Option<ValidationError>)
    requires forall k :: k in groups ==> groups[k] != {}
    ensures error.None? <==> ValidGroups(groups)
    ensures error.Some? ==> MixedIn(groups, error.value)
  {
    var pending := groups.Keys;
    while pending != {}
      invariant pending <= groups.Keys
      invariant forall k :: k in groups && k !in pending ==> Homogeneous(groups[k])
      decreases |pending|
    {
      var k :| k in pending;
      var members := groups[k];
      var first :| first in members;
      var rest := members - {first};
      while rest != {}
        invariant rest <= members
        invariant forall d :: d in members && d !in rest ==> Compatible(d, first)
        decreases |rest|
      {
        var current :| current in rest;
        if !Compatible(current, first) {
          return Some(MixedGroup(current, first));
        }
        rest := rest - {current};
      }
      HomogeneousByFirst(members, first);
      pending := pending - {k};
    }
    return None;
  }

  /** Validating the grouping is checking that destinations sharing a group share their kind. */
  lemma ValidGroupingIff(ds: set<Destination>)
    ensures ValidGroups(GroupBy(ds)) <==>
      forall a, b :: a in ds && b in ds && a.group == b.group ==> Compatible(a, b)
  {
  }

  // ---------------------------------------------------------------------
  // Creating and deleting clusters

  function ClusterIds(clusters: seq<DestinationCluster>): set<string>
  {
    set c | c in clusters :: c.clusterId
  }

  /** A listed cluster's id is among the list's ids. */
  lemma InIds(c: DestinationCluster, clusters: seq<DestinationCluster>)
    requires c in clusters
    ensures c.clusterId in ClusterIds(clusters)
  {
  }

  /** Look for a cluster with the given id in list order. */
  method BrokerExists(clusters: seq<DestinationCluster>, clusterId: string) returns (found: bool)
    ensures found <==> exists i :: 0 <= i < |clusters| && clusters[i].clusterId == clusterId
    ensures found <==> clusterId in ClusterIds(clusters)
  {
    for i := 0 to |clusters|
      invariant forall j :: 0 <= j < i ==> clusters[j].clusterId != clusterId
    {
      if clusters[i].clusterId == clusterId {
        return true;
      }
    }
    return false;
  }

  /** The groups that get a new cluster: no cluster has their key and the generated resources are not empty. */
  function CreatedGroups(
    clusters: seq<DestinationCluster>, groups: map<string, set<Destination>>,
    generate: set<Destination> -> DestinationCluster): set<string>
  {
    set k | k in groups && k !in ClusterIds(clusters) && generate(groups[k]).resources != []
  }

  /** The clusters whose id matches no group key, in list order. */
  function DeletedClusters(clusters: seq<DestinationCluster>, groups: map<string, set<Destination>>): (r: seq<DestinationCluster>)
    ensures forall c :: c in r <==> c in clusters && c.clusterId !in groups
    ensures |r| <= |clusters|
    decreases |clusters|
  {
    if clusters == [] then []
    else
      var last := clusters[|clusters| - 1];
      DeletedClusters(clusters[..|clusters| - 1], groups) + (if last.clusterId in groups then [] else [last])
  }

  /** The clusters that a current group still owns, in list order. */
  function KeptClusters(clusters: seq<DestinationCluster>, groups: map<string, set<Destination>>): (r: seq<DestinationCluster>)
    ensures forall c :: c in r <==> c in clusters && c.clusterId in groups
    decreases |clusters|
  {
    if clusters == [] then []
    else
      var last := clusters[|clusters| - 1];
      KeptClusters(clusters[..|clusters| - 1], groups) + (if last.clusterId in groups then [last] else [])
  }

  /** Every existing cluster is either deleted or kept, exactly once. */
  lemma {:induction false} DeletedKeptSplit(clusters: seq<DestinationCluster>, groups: map<string, set<Destination>>)
    ensures multiset(DeletedClusters(clusters, groups)) + multiset(KeptClusters(clusters, groups)) == multiset(clusters)
    decreases |clusters|
  {
    if clusters != [] {
      var p, last := clusters[..|clusters| - 1], clusters[|clusters| - 1];
      DeletedKeptSplit(p, groups);
      FiltersStep(clusters, groups);
      SplitStep(DeletedClusters(p, groups), KeptClusters(p, groups), p, last, clusters,
                DeletedClusters(clusters, groups), KeptClusters(clusters, groups));
    }
  }

  /** The last cluster of a list goes to exactly one of the two filters. */
  lemma FiltersStep(clusters: seq<DestinationCluster>, groups: map<string, set<Destination>>)
    requires clusters != []
    ensures var p, last := clusters[..|clusters| - 1], clusters[|clusters| - 1];
      clusters == p + [last] &&
      ((DeletedClusters(clusters, groups) == DeletedClusters(p, groups) + [last] && KeptClusters(clusters, groups) == KeptClusters(p, groups))
      || (DeletedClusters(clusters, groups) == DeletedClusters(p, groups) && KeptClusters(clusters, groups) == KeptClusters(p, groups) + [last]))
  {
    var p := clusters[..|clusters| - 1];
    assert DeletedClusters(p, groups) + [] == DeletedClusters(p, groups);
    assert KeptClusters(p, groups) + [] == KeptClusters(p, groups);
  }

  /** Adding one element to one side of a split list keeps it a split of the longer list. */
  lemma SplitStep<T>(d: seq<T>, k: seq<T>, p: seq<T>, x: T, s: seq<T>, d': seq<T>, k': seq<T>)
    requires multiset(d) + multiset(k) == multiset(p) && s == p + [x]
    requires (d' == d + [x] && k' == k) || (d' == d && k' == k + [x])
    ensures multiset(d') + multiset(k') == multiset(s)
  {
  }

  function CreateActions(
    groups: map<string, set<Destination>>, generate: set<Destination> -> DestinationCluster, order: seq<string>):
    (r: seq<Action>)
    requires forall i :: 0 <= i < |order| ==> order[i] in groups
    ensures |r| == |order| && forall i :: 0 <= i < |order| ==> r[i] == Create(generate(groups[order[i]]).resources)
    decreases |order|
  {
    if order == [] then []
    else CreateActions(groups, generate, order[..|order| - 1]) + [Create(generate(groups[order[|order| - 1]]).resources)]
  }

  function DeleteActions(clusters: seq<DestinationCluster>): (r: seq<Action>)
    ensures |r| == |clusters| && forall i :: 0 <= i < |clusters| ==> r[i] == Delete(clusters[i].resources)
    decreases |clusters|
  {
    if clusters == [] then []
    else DeleteActions(clusters[..|clusters| - 1]) + [Delete(clusters[|clusters| - 1].resources)]
  }

  /** The clusters generated for the groups in `order`. */
  function Generated(
    groups: map<string, set<Destination>>, generate: set<Destination> -> DestinationCluster, order: seq<string>):
    (r: seq<DestinationCluster>)
    requires forall i :: 0 <= i < |order| ==> order[i] in groups
    ensures |r| == |order| && forall i :: 0 <= i < |order| ==> r[i] == generate(groups[order[i]])
    decreases |order|
  {
    if order == [] then []
    else Generated(groups, generate, order[..|order| - 1]) + [generate(groups[order[|order| - 1]])]
  }

  /**
   * Reconciling twice changes nothing the second time: once the deleted
   * clusters are gone and the new ones exist, no group needs a cluster and
   * no cluster lacks a group. This needs the generator to name each cluster
   * after its group.
   */
  lemma ReconcileSettles(
    clusters: seq<DestinationCluster>, groups: map<string, set<Destination>>,
    generate: set<Destination> -> DestinationCluster, created: seq<string>)
    requires forall k :: k in groups ==> generate(groups[k]).clusterId == k
    requires forall i :: 0 <= i < |created| ==> created[i] in groups
    requires forall k :: k in CreatedGroups(clusters, groups, generate) ==> k in created
    ensures var after := KeptClusters(clusters, groups) + Generated(groups, generate, created);
      CreatedGroups(after, groups, generate) == {} && DeletedClusters(after, groups) == []
  {
    var after := KeptClusters(clusters, groups) + Generated(groups, generate, created);
    ReconcileCovers(clusters, groups, generate, created);
    ReconcileOwned(clusters, groups, generate, created);
    NothingDeleted(after, groups);
    assert forall k :: k !in CreatedGroups(after, groups, generate);
  }

  /** After reconciling, every group that had or was given a cluster has one. */
  lemma ReconcileCovers(
    clusters: seq<DestinationCluster>, groups: map<string, set<Destination>>,
    generate: set<Destination> -> DestinationCluster, created: seq<string>)
    requires forall k :: k in groups ==> generate(groups[k]).clusterId == k
    requires forall i :: 0 <= i < |created| ==> created[i] in groups
    requires forall k :: k in CreatedGroups(clusters, groups, generate) ==> k in created
    ensures forall k :: k in groups && (k in ClusterIds(clusters) || generate(groups[k]).resources != []) ==>
      k in ClusterIds(KeptClusters(clusters, groups) + Generated(groups, generate, created))
  {
    var kept := KeptClusters(clusters, groups);
    var made := Generated(groups, generate, created);
    var after := kept + made;
    forall k | k in groups && (k in ClusterIds(clusters) || generate(groups[k]).resources != [])
      ensures k in ClusterIds(after)
    {
      if k in ClusterIds(clusters) {
        var c :| c in clusters && c.clusterId == k;
        assert c in kept;
        InIds(c, after);
      } else {
        assert k in CreatedGroups(clusters, groups, generate);
        var i :| 0 <= i < |created| && created[i] == k;
        assert made[i].clusterId == k;
        assert after[|kept| + i] == made[i];
        InIds(made[i], after);
      }
    }
  }

  /** After reconciling, every cluster belongs to a group. */
  lemma ReconcileOwned(
    clusters: seq<DestinationCluster>, groups: map<string, set<Destination>>,
    generate: set<Destination> -> DestinationCluster, created: seq<string>)
    requires forall k :: k in groups ==> generate(groups[k]).clusterId == k
    requires forall i :: 0 <= i < |created| ==> created[i] in groups
    ensures var after := KeptClusters(clusters, groups) + Generated(groups, generate, created);
      forall j :: 0 <= j < |after| ==> after[j].clusterId in groups
  {
    var kept := KeptClusters(clusters, groups);
    var made := Generated(groups, generate, created);
    var after := kept + made;
    forall j | 0 <= j < |after|
      ensures after[j].clusterId in groups
    {
      if j < |kept| {
        assert after[j] in kept;
      } else {
        assert after[j] == made[j - |kept|];
      }
    }
  }

  /** A list whose every cluster belongs to a group loses none of them. */
  lemma {:induction false} NothingDeleted(clusters: seq<DestinationCluster>, groups: map<string, set<Destination>>)
    requires forall j :: 0 <= j < |clusters| ==> clusters[j].clusterId in groups
    ensures DeletedClusters(clusters, groups) == []
    decreases |clusters|
  {
    if clusters != [] {
      NothingDeleted(clusters[..|clusters| - 1], groups);
    }
  }

  /**
   * No create is issued for a cluster id that exists, and no deleted cluster
   * carries the key of a current group, so none is one just created.
   */
  lemma CreatesAvoidDeletes(
    clusters: seq<DestinationCluster>, groups: map<string, set<Destination>>,
    generate: set<Destination> -> DestinationCluster)
    requires forall k :: k in groups ==> generate(groups[k]).clusterId == k
    ensures forall k :: k in CreatedGroups(clusters, groups, generate) ==> generate(groups[k]).clusterId !in ClusterIds(clusters)
    ensures forall k, c :: k in CreatedGroups(clusters, groups, generate) && c in DeletedClusters(clusters, groups) ==>
      c.clusterId != k && c != generate(groups[k])
  {
  }

  /** Build the create actions for the groups without a cluster, in a set iteration order. */
  method CreateBrokers(
    clusters: seq<DestinationCluster>, groups: map<string, set<Destination>>,
    generate: set<Destination> -> DestinationCluster)
    returns (actions: seq<Action>, ghost order: seq<string>)
    ensures |actions| == |CreatedGroups(clusters, groups, generate)|
    ensures forall k :: k in CreatedGroups(clusters, groups, generate) ==> Create(generate(groups[k]).resources) in actions
    ensures forall a :: a in actions ==>
      exists k :: k in CreatedGroups(clusters, groups, generate) && a == Create(generate(groups[k]).resources)
    ensures Distinct(order)
    ensures forall k :: k in order <==> k in CreatedGroups(clusters, groups, generate)
    ensures forall i :: 0 <= i < |order| ==> order[i] in groups
    ensures actions == CreateActions(groups, generate, order)
  {
    var pending := groups.Keys;
    actions, order := [], [];
    while pending != {}
      invariant pending <= groups.Keys
      invariant Distinct(order)
      invariant forall k :: k in order <==> k in CreatedGroups(clusters, groups, generate) && k !in pending
      invariant forall i :: 0 <= i < |order| ==> order[i] in groups
      invariant actions == CreateActions(groups, generate, order)
      decreases |pending|
    {
      var k :| k in pending;
      var hasCluster := BrokerExists(clusters, k);
      if !hasCluster {
        var cluster := generate(groups[k]);
        if cluster.resources != [] {
          ghost var before := order;
          actions := actions + [Create(cluster.resources)];
          order := order + [k];
          assert order[..|order| - 1] == before;
        }
      }
      pending := pending - {k};
    }
    CreateActionsCover(groups, generate, order, CreatedGroups(clusters, groups, generate));
  }

  /** For any order that lists each chosen key once, the create actions are one Create per chosen key. */
  lemma CreateActionsCover(
    groups: map<string, set<Destination>>, generate: set<Destination> -> DestinationCluster,
    order: seq<string>, chosen: set<string>)
    requires Distinct(order)
    requires forall k :: k in order <==> k in chosen
    requires forall i :: 0 <= i < |order| ==> order[i] in groups
    ensures |CreateActions(groups, generate, order)| == |chosen|
    ensures forall k :: k in chosen ==> Create(generate(groups[k]).resources) in CreateActions(groups, generate, order)
    ensures forall a :: a in CreateActions(groups, generate, order) ==>
      exists k :: k in chosen && a == Create(generate(groups[k]).resources)
  {
    var actions := CreateActions(groups, generate, order);
    DistinctEnumerates(order, chosen);
    forall k | k in chosen
      ensures Create(generate(groups[k]).resources) in actions
    {
      var i :| 0 <= i < |order| && order[i] == k;
      assert actions[i] == Create(generate(groups[k]).resources);
    }
    forall a | a in actions
      ensures exists k :: k in chosen && a == Create(generate(groups[k]).resources)
    {
      var i :| 0 <= i < |actions| && actions[i] == a;
      assert order[i] in chosen;
    }
  }

  lemma DeleteStep(clusters: seq<DestinationCluster>, groups: map<string, set<Destination>>, i: nat)
    requires i < |clusters|
    ensures DeleteActions(DeletedClusters(clusters[..i + 1], groups))
            == DeleteActions(DeletedClusters(clusters[..i], groups))
               + (if clusters[i].clusterId in groups then [] else [Delete(clusters[i].resources)])
  {
    var p := clusters[..i + 1];
    assert p[..i] == clusters[..i] && p[i] == clusters[i];
    var d := DeletedClusters(clusters[..i], groups);
    if clusters[i].clusterId !in groups {
      assert DeletedClusters(p, groups) == d + [clusters[i]];
      DeleteActionsAppend(d, clusters[i]);
    } else {
      assert DeletedClusters(p, groups) == d + [];
      assert d + [] == d;
    }
  }

  /** Deleting one more cluster appends its delete action. */
  lemma DeleteActionsAppend(d: seq<DestinationCluster>, c: DestinationCluster)
    ensures DeleteActions(d + [c]) == DeleteActions(d) + [Delete(c.resources)]
  {
    assert (d + [c])[..|d|] == d;
  }

  /** Build the delete actions for the clusters without a group, in list order. */
  method DeleteBrokers(clusters: seq<DestinationCluster>, groups: map<string, set<Destination>>) returns (actions: seq<Action>)
    ensures actions == DeleteActions(DeletedClusters(clusters, groups))
  {
    actions := [];
    for i := 0 to |clusters|
      invariant actions == DeleteActions(DeletedClusters(clusters[..i], groups))
    {
      DeleteStep(clusters, groups, i);
      if clusters[i].clusterId !in groups {
        actions := actions + [Delete(clusters[i].resources)];
      }
    }
    assert clusters[..|clusters|] == clusters;
  }

  // ---------------------------------------------------------------------
  // Status

  /** The destination with its status refreshed: ready unless it is store-and-forward and its cluster is not. */
  function StatusUpdate(d: Destination, clusterReady: string -> bool): (u: Destination)
    ensures u.(status := d.status) == d
    ensures u.status.isReady <==> !d.storeAndForward || clusterReady(d.group)
  {
    d.(status := Status(!d.storeAndForward || clusterReady(d.group)))
  }

  function StatusActions(ds: seq<Destination>, clusterReady: string -> bool): (r: seq<Action>)
    ensures |r| == |ds| && forall i :: 0 <= i < |ds| ==> r[i] == ReplaceDestination(StatusUpdate(ds[i], clusterReady))
    decreases |ds|
  {
    if ds == [] then []
    else StatusActions(ds[..|ds| - 1], clusterReady) + [ReplaceDestination(StatusUpdate(ds[|ds| - 1], clusterReady))]
  }

  /** A destination that is not store-and-forward is always reported ready. */
  lemma DirectAlwaysReady(ds: seq<Destination>, clusterReady: string -> bool)
    requires forall i :: 0 <= i < |ds| ==> !ds[i].storeAndForward
    ensures forall a :: a in StatusActions(ds, clusterReady) ==> a.ReplaceDestination? && a.destination.status.isReady
  {
  }

  predicate Distinct<T(==)>(s: seq<T>)
  {
    forall i, j :: 0 <= i < j < |s| ==> s[i] != s[j]
  }

  /** A list without repetitions that holds exactly the elements of a set is as long as the set is large. */
  lemma {:induction false} DistinctEnumerates<T>(s: seq<T>, elements: set<T>)
    requires Distinct(s)
    requires forall x :: x in s <==> x in elements
    ensures |s| == |elements|
    decreases |s|
  {
    if s != [] {
      var last := s[|s| - 1];
      var p := s[..|s| - 1];
      forall x | x in p
        ensures x != last
      {
        var j :| 0 <= j < |p| && p[j] == x;
        assert s[j] == x;
      }
      DistinctEnumerates(p, elements - {last});
    } else {
      assert forall x :: x !in elements;
    }
  }

  /** Build one status replacement per destination, in a set iteration order. */
  method CheckStatuses(destinations: set<Destination>, clusterReady: string -> bool)
    returns (actions: seq<Action>, ghost order: seq<Destination>)
    ensures |actions| == |destinations|
    ensures forall d :: d in destinations ==> ReplaceDestination(StatusUpdate(d, clusterReady)) in actions
    ensures forall a :: a in actions ==> exists d :: d in destinations && a == ReplaceDestination(StatusUpdate(d, clusterReady))
    ensures Distinct(order)
    ensures forall d :: d in order <==> d in destinations
    ensures |order| == |destinations|
    ensures actions == StatusActions(order, clusterReady)
  {
    actions, order := [], [];
    var pending := destinations;
    while pending != {}
      invariant pending <= destinations
      invariant Distinct(order)
      invariant forall d :: d in order <==> d in destinations && d !in pending
      invariant actions == StatusActions(order, clusterReady)
      decreases |pending|
    {
      var d :| d in pending;
      ghost var before := order;
      actions := actions + [ReplaceDestination(StatusUpdate(d, clusterReady))];
      order := order + [d];
      assert order[..|order| - 1] == before;
      pending := pending - {d};
    }
    StatusActionsCover(order, destinations, clusterReady);
  }

  /** For any order that lists each destination once, the status actions are one replacement per destination. */
  lemma StatusActionsCover(order: seq<Destination>, destinations: set<Destination>, clusterReady: string -> bool)
    requires Distinct(order)
    requires forall d :: d in order <==> d in destinations
    ensures |StatusActions(order, clusterReady)| == |destinations|
    ensures forall d :: d in destinations ==> ReplaceDestination(StatusUpdate(d, clusterReady)) in StatusActions(order, clusterReady)
    ensures forall a :: a in StatusActions(order, clusterReady) ==>
      exists d :: d in destinations && a == ReplaceDestination(StatusUpdate(d, clusterReady))
  {
    var actions := StatusActions(order, clusterReady);
    DistinctEnumerates(order, destinations);
    forall d | d in destinations
      ensures ReplaceDestination(StatusUpdate(d, clusterReady)) in actions
    {
      var i :| 0 <= i < |order| && order[i] == d;
      assert actions[i] == ReplaceDestination(StatusUpdate(d, clusterReady));
    }
    forall a | a in actions
      ensures exists d :: d in destinations && a == ReplaceDestination(StatusUpdate(d, clusterReady))
    {
      var i :| 0 <= i < |actions| && actions[i] == a;
      assert order[i] in destinations;
    }
  }

  // ---------------------------------------------------------------------
  // One reconciliation

  /**
   * Reconcile the destinations with the clusters. A mixed group rejects the
   * whole input before anything is issued; otherwise the creates come
   * first, then the deletes, then one status replacement per destination.
   * `created` and `updated` record the set iteration orders used.
   */
  method CheckConfigs(
    newDestinations: set<Destination>, clusters: seq<DestinationCluster>,
    generate: set<Destination> -> DestinationCluster, clusterReady: string -> bool)
    returns (result: Result<seq<Action>, ValidationError>, ghost created: seq<string>, ghost updated: seq<Destination>)
    ensures var groups := GroupBy(newDestinations);
      && (result.Failure? <==> !ValidGroups(groups))
      && (result.Failure? ==> MixedIn(groups, result.error))
      && (result.Success? ==>
            && Distinct(created)
            && (forall k :: k in created <==> k in CreatedGroups(clusters, groups, generate))
            && (forall i :: 0 <= i < |created| ==> created[i] in groups)
            && Distinct(updated)
            && (forall d :: d in updated <==> d in newDestinations)
            && |updated| == |newDestinations|
            && result.value == CreateActions(groups, generate, created)
                               + DeleteActions(DeletedClusters(clusters, groups))
                               + StatusActions(updated, clusterReady))
    ensures result.Success? ==>
      var groups := GroupBy(newDestinations);
      var creates := CreatedGroups(clusters, groups, generate);
      var deletes := DeleteActions(DeletedClusters(clusters, groups));
      && |result.value| == |creates| + |deletes| + |newDestinations|
      && result.value[|creates|..|creates| + |deletes|] == deletes
      && (forall k :: k in creates ==> Create(generate(groups[k]).resources) in result.value[..|creates|])
      && (forall d :: d in newDestinations ==>
            ReplaceDestination(StatusUpdate(d, clusterReady)) in result.value[|creates| + |deletes|..])
  {
    var groups := GroupBy(newDestinations);
    created, updated := [], [];
    var error := ValidateDestinationGroups(groups);
    if error.Some? {
      return Failure(error.value), created, updated;
    }
    var creates;
    creates, created := CreateBrokers(clusters, groups, generate);
    var deletes := DeleteBrokers(clusters, groups);
    var statuses;
    statuses, updated := CheckStatuses(newDestinations, clusterReady);
    result := Success(creates + deletes + statuses);
    ThreeParts(creates, deletes, statuses);
  }

  /** The three parts of a concatenation are its slices at the parts' lengths. */
  lemma ThreeParts<T>(a: seq<T>, b: seq<T>, c: seq<T>)
    ensures |a + b + c| == |a| + |b| + |c|
    ensures (a + b + c)[..|a|] == a
    ensures (a + b + c)[|a|..|a| + |b|] == b
    ensures (a + b + c)[|a| + |b|..] == c
  {
  }
}
