/**
 * The KubridCluster controller, the older variant of the VirtinkCluster one:
 * no finalizer and no deletion work, a NodePort control plane Service guarded
 * by its controller reference, the endpoint read from the Service's cluster
 * IP, and a patch of the cluster only after a successful pass.
 */
module KubridClusterController {
  import opened Wrappers
  import opened Objects
  import opened Kube
  import VirtinkClusterController

  /** A KubridCluster object as the pass holds it; a successful pass patches the var fields back. */
  class KubridCluster {
    const name: string
    const namespace: string
    const uid: string
    const deleting: bool
    var endpoint: Endpoint
    var ready: bool

    constructor (name: string, namespace: string, uid: string, deleting: bool)
      ensures this.name == name && this.namespace == namespace && this.uid == uid && this.deleting == deleting
      ensures endpoint == Endpoint("", 0) && !ready
    {
      this.name, this.namespace, this.uid, this.deleting := name, namespace, uid, deleting;
      endpoint, ready := Endpoint("", 0), false;
    }

    /** The control plane Service shares the cluster's name and namespace. */
    function ServiceKey(): Key
    {
      Key(namespace, name)
    }
  }

  /** The control plane Service: a NodePort on port 6443 of the owner cluster's control plane machines. */
  function BuildControlPlaneService(owner: OwnerCluster): Service
  {
    Service(map[], map[], Some(NodePort),
            map[ClusterNameLabel := owner.name, ControlPlaneLabel := ""],
            [ServicePort(ApiServerPort, ApiServerPort)], "", [], None)
  }

  /**
   * The built Service is a NodePort with the single port 6443 to 6443, and
   * it selects exactly the control plane machines of the owner cluster.
   */
  lemma ControlPlaneServiceShape(owner: OwnerCluster, labels: map<string, string>)
    ensures BuildControlPlaneService(owner).serviceType == Some(NodePort)
    ensures BuildControlPlaneService(owner).ports == [ServicePort(ApiServerPort, ApiServerPort)]
    ensures VirtinkClusterController.Selects(BuildControlPlaneService(owner).selector, labels)
        <==> ClusterNameLabel in labels && labels[ClusterNameLabel] == owner.name
             && ControlPlaneLabel in labels && labels[ControlPlaneLabel] == ""
  {
    var sel := BuildControlPlaneService(owner).selector;
    if ClusterNameLabel in labels && labels[ClusterNameLabel] == owner.name
       && ControlPlaneLabel in labels && labels[ControlPlaneLabel] == "" {
      forall k | k in sel ensures k in labels && labels[k] == sel[k] {
      }
    }
  }

  class KubridClusterReconciler {
    const client: Store
    const recorder: Recorder

    constructor (client: Store, recorder: Recorder)
      ensures this.client == client && this.recorder == recorder
    {
      this.client, this.recorder := client, recorder;
    }

    /**
     * What one pass over a KubridCluster does. A Service at the cluster's key that the
     * cluster does not control counts as missing, so the pass tries to
     * create one and the store refuses it. On the pass that creates the
     * Service the endpoint host is read from the value the failed lookup
     * left, which is empty.
     */
    twostate predicate ClusterPass(c: KubridCluster, owner: Lookup<OwnerCluster>, out: Outcome)
      reads this, client, recorder, c
    {
      && (out.Done? || out.Error?)
      // a cluster being deleted is left alone
      && (c.deleting ==> out == Done && unchanged(c, recorder, client))
      // a missing owner is an error and no Service is created
      && (!c.deleting && !owner.Found? ==>
            out == Error(if owner.Absent? then "owner Cluster is nil" else "get owner Cluster: " + owner.message)
            && unchanged(c, recorder, client))
      && (!c.deleting && owner.Found? ==>
            var k := c.ServiceKey();
            var present := k in old(client.services);
            var controlled := present && old(client.services)[k].controller == Some(c.uid);
            // the cluster's own Service gives the endpoint
            && (controlled ==>
                  out == Done && client.services == old(client.services) && recorder.events == old(recorder.events)
                  && c.endpoint == Endpoint(old(client.services)[k].clusterIP, ApiServerPort) && c.ready)
            // another owner's Service at the key: the create is refused
            && (present && !controlled ==>
                  out == Error("create control plane Service: " + AlreadyExistsText) && unchanged(c, recorder, client))
            // no Service: create one controlled by the cluster; the endpoint host is empty
            && (!present ==>
                  out == Done
                  && client.services == old(client.services)[k := BuildControlPlaneService(owner.value).(controller := Some(c.uid))]
                  && recorder.events == old(recorder.events) + [Event("CreatedControlPlaneService", c.name)]
                  && c.endpoint == Endpoint("", ApiServerPort) && c.ready))
    }

    /** One pass over a KubridCluster. */
    method ReconcileCluster(c: KubridCluster, owner: Lookup<OwnerCluster>) returns (out: Outcome)
      modifies c`endpoint, c`ready, recorder, client`services
      ensures ClusterPass(c, owner, out)
    {
      if c.deleting {
        return Done;
      }
      match owner {
        case GetError(e) => return Error("get owner Cluster: " + e);
        case Absent => return Error("owner Cluster is nil");
        case Found(o) =>
          var k := c.ServiceKey();
          // the lookup fills `seen` only when a Service exists; the Service
          // built for creation lives in an inner scope and is not read below
          var seen := EmptyService;
          var notFound := true;
          if k in client.services {
            seen := client.services[k];
            notFound := false;
          }
          if !notFound && seen.controller != Some(c.uid) {
            notFound := true;
          }
          if notFound {
            var built := BuildControlPlaneService(o).(controller := Some(c.uid));
            var err := client.CreateService(k, built);
            match err {
              case Some(e) => return Error("create control plane Service: " + e);
              case None =>
            }
            recorder.Record("CreatedControlPlaneService", c.name);
          }
          c.endpoint := Endpoint(seen.clusterIP, ApiServerPort);
          c.ready := true;
          return Done;
      }
    }

    /**
     * Reconcile: fetch, one pass, and a patch of the cluster only when the
     * pass succeeded; `patchError` is the outcome of that patch.
     */
    method Reconcile(c: KubridCluster?, owner: Lookup<OwnerCluster>, patchError: Option<string>)
      returns (reply: Reply, patched: bool, ghost out: Outcome)
      modifies if c == null then {} else {c}, recorder, client`services
      ensures c == null ==> reply == Reply(0, None) && !patched && unchanged(recorder, client)
      ensures c != null ==> ClusterPass(c, owner, out)
      ensures reply.requeueAfter == 0
      ensures c != null ==> (patched <==> !out.Error?)
      ensures c != null && out.Error? ==> reply.error == Some(out.message)
      ensures patched ==> reply.error == if patchError.Some? then Some("patch Cluster: " + patchError.value) else None
    {
      if c == null {
        return Reply(0, None), false, Done;
      }
      var pass := ReconcileCluster(c, owner);
      out := pass;
      if pass.Error? {
        return Reply(0, Some(pass.message)), false, out;
      }
      patched := true;
      reply := if patchError.Some? then Reply(0, Some("patch Cluster: " + patchError.value)) else Reply(0, None);
    }
  }
}
