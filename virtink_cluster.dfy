/**
 * The VirtinkCluster controller: a finalizer on the first pass, a control
 * plane Service in the infrastructure cluster, and the control plane
 * endpoint read back from that Service.
 */
module VirtinkClusterController {
  import opened Wrappers
  import opened Objects
  import opened Kube

  /** The metadata and type a user may set for the control plane Service. */
  datatype ServiceTemplate = ServiceTemplate(
    labels: map<string, string>,
    annotations: map<string, string>,
    serviceType: Option<ServiceType>)

  /** A VirtinkCluster object as the pass holds it; the patch writes the var fields back. */
  class VirtinkCluster {
    const name: string
    const namespace: string
    const deleting: bool
    const serviceTemplate: ServiceTemplate
    const infraClusterSecretRef: Option<Key>
    var finalizers: seq<string>
    var endpoint: Endpoint
    var ready: bool

    constructor (name: string, namespace: string, deleting: bool, serviceTemplate: ServiceTemplate,
                 infraClusterSecretRef: Option<Key>, finalizers: seq<string>, endpoint: Endpoint, ready: bool)
      ensures this.name == name && this.namespace == namespace && this.deleting == deleting
      ensures this.serviceTemplate == serviceTemplate && this.infraClusterSecretRef == infraClusterSecretRef
      ensures this.finalizers == finalizers && this.endpoint == endpoint && this.ready == ready
    {
      this.name, this.namespace, this.deleting := name, namespace, deleting;
      this.serviceTemplate, this.infraClusterSecretRef := serviceTemplate, infraClusterSecretRef;
      this.finalizers, this.endpoint, this.ready := finalizers, endpoint, ready;
    }

    /** The control plane Service shares the cluster's name and namespace. */
    function ServiceKey(): Key
    {
      Key(namespace, name)
    }
  }

  const KubeconfigKey: string := "kubeconfig"
  const MissingKubeconfigText: string := "retrieve infra kubeconfig from Secret: 'kubeconfig' key is missing"
  const LoadBalancerNotReadyText: string := "control plane load balancer is not ready"

  /**
   * The client for the infrastructure cluster named by a kubeconfig Secret.
   * Turning the kubeconfig into a client is foreign: `remote` is its outcome.
   */
  function InfraClusterClient(client: Store, ref: Key, remote: Result<Store, string>): (r: Result<Store, string>)
    reads client
    ensures r.Ok? ==> ref in client.secrets && KubeconfigKey in client.secrets[ref] && r == remote
    ensures ref in client.secrets && KubeconfigKey in client.secrets[ref] ==> r == remote
    ensures ref !in client.secrets ==> r == Err("get infra cluster kubeconfig Secret: " + NotFoundText)
    ensures ref in client.secrets && KubeconfigKey !in client.secrets[ref] ==> r == Err(MissingKubeconfigText)
  {
    if ref !in client.secrets then Err("get infra cluster kubeconfig Secret: " + NotFoundText)
    else if KubeconfigKey !in client.secrets[ref] then Err(MissingKubeconfigText)
    else remote
  }

  /** A label selector matches labels holding every selected key with the selected value. */
  predicate Selects(selector: map<string, string>, labels: map<string, string>)
  {
    forall k :: k in selector ==> k in labels && labels[k] == selector[k]
  }

  /** The control plane Service for a cluster: port 6443 on the cluster's control plane machines. */
  function BuildControlPlaneService(template: ServiceTemplate, owner: OwnerCluster): (s: Service)
    ensures s.ports == [ServicePort(ApiServerPort, ApiServerPort)]
    ensures s.labels == template.labels && s.annotations == template.annotations
    ensures s.serviceType == template.serviceType
  {
    Service(template.labels, template.annotations, template.serviceType,
            map[ClusterNameLabel := owner.name, ControlPlaneLabel := ""],
            [ServicePort(ApiServerPort, ApiServerPort)], "", [], None)
  }

  /** The Service selects exactly the control plane machines of the owner cluster. */
  lemma ControlPlaneSelection(template: ServiceTemplate, owner: OwnerCluster, labels: map<string, string>)
    ensures Selects(BuildControlPlaneService(template, owner).selector, labels)
        <==> ClusterNameLabel in labels && labels[ClusterNameLabel] == owner.name
             && ControlPlaneLabel in labels && labels[ControlPlaneLabel] == ""
  {
    var sel := BuildControlPlaneService(template, owner).selector;
    if ClusterNameLabel in labels && labels[ClusterNameLabel] == owner.name
       && ControlPlaneLabel in labels && labels[ControlPlaneLabel] == "" {
      forall k | k in sel ensures k in labels && labels[k] == sel[k] {
      }
    }
  }

  /**
   * The endpoint read from a Service: the first load-balancer ingress IP when
   * the template asks for a LoadBalancer, the cluster IP otherwise; always port 6443.
   */
  function ControlPlaneEndpoint(serviceType: Option<ServiceType>, s: Service): (r: Result<Endpoint, string>)
    ensures r.Ok? ==> r.value.port == ApiServerPort
    ensures r.Err? <==> serviceType == Some(LoadBalancer) && s.ingressIPs == []
    ensures r.Ok? && serviceType == Some(LoadBalancer) ==> r.value.host == s.ingressIPs[0]
    ensures r.Ok? && serviceType != Some(LoadBalancer) ==> r.value.host == s.clusterIP
  {
    if serviceType == Some(LoadBalancer) then
      if |s.ingressIPs| == 0 then Err(LoadBalancerNotReadyText)
      else Ok(Endpoint(s.ingressIPs[0], ApiServerPort))
    else Ok(Endpoint(s.clusterIP, ApiServerPort))
  }

  /**
   * On the pass that creates the Service the endpoint is read from the empty
   * value the failed lookup left: the host is empty, or a LoadBalancer errors.
   */
  lemma CreatingPassEndpoint(serviceType: Option<ServiceType>)
    ensures serviceType == Some(LoadBalancer) ==> ControlPlaneEndpoint(serviceType, EmptyService).Err?
    ensures serviceType != Some(LoadBalancer) ==> ControlPlaneEndpoint(serviceType, EmptyService) == Ok(Endpoint("", ApiServerPort))
  {
  }

  function RemoteSet(remote: Result<Store, string>): set<Store>
  {
    if remote.Ok? then {remote.value} else {}
  }

  class VirtinkClusterReconciler {
    const client: Store
    const recorder: Recorder

    constructor (client: Store, recorder: Recorder)
      ensures this.client == client && this.recorder == recorder
    {
      this.client, this.recorder := client, recorder;
    }

    /**
     * The store that holds the control plane Service: the management store,
     * or, while the finalizer is held and a kubeconfig Secret is named, the
     * infrastructure cluster's.
     */
    function Infra(cluster: VirtinkCluster, remote: Result<Store, string>): (r: Result<Store, string>)
      reads this, client, cluster
      ensures Finalizer !in cluster.finalizers || cluster.infraClusterSecretRef.None? ==> r == Ok(client)
      ensures Finalizer in cluster.finalizers && cluster.infraClusterSecretRef.Some? ==>
        var c := InfraClusterClient(client, cluster.infraClusterSecretRef.value, remote);
        (c.Ok? ==> r == remote)
        && (c.Err? ==> r == Err("build infra cluster client: " + c.error))
    {
      if Finalizer in cluster.finalizers && cluster.infraClusterSecretRef.Some? then
        match InfraClusterClient(client, cluster.infraClusterSecretRef.value, remote)
        case Err(e) => Err("build infra cluster client: " + e)
        case Ok(c) => Ok(c)
      else Ok(client)
    }

    /**
     * What one pass over a VirtinkCluster does, case by case, relating the
     * state after the pass to the state before it.
     */
    twostate predicate ClusterPass(cluster: VirtinkCluster, owner: Lookup<OwnerCluster>, remote: Result<Store, string>,
                                   out: Outcome)
      reads this, client, recorder, cluster, RemoteSet(remote)
    {
      var infra := old(Infra(cluster, remote));
      && (out.Done? || out.Error?)
      // a client that cannot be built ends the pass
      && (infra.Err? ==>
            out == Error(infra.error) && unchanged(cluster, recorder, client) && unchanged(RemoteSet(remote)))
      // the store that is not used keeps its Services
      && (infra.Ok? && infra.value != client ==> client.services == old(client.services))
      && (infra.Ok? && remote.Ok? && remote.value != infra.value ==> remote.value.services == old(remote.value.services))
      // the first pass over a live cluster only adds the finalizer
      && (!cluster.deleting && Finalizer !in old(cluster.finalizers) ==>
            out == Done && cluster.finalizers == AddFinalizer(old(cluster.finalizers), Finalizer)
            && cluster.endpoint == old(cluster.endpoint) && cluster.ready == old(cluster.ready)
            && unchanged(recorder, client) && unchanged(RemoteSet(remote)))
      // deletion without the finalizer does nothing
      && (cluster.deleting && Finalizer !in old(cluster.finalizers) ==>
            out == Done && unchanged(cluster, recorder, client) && unchanged(RemoteSet(remote)))
      // deletion with the finalizer: delete the Service if present, then drop the finalizer
      && (cluster.deleting && Finalizer in old(cluster.finalizers) && infra.Ok? ==>
            var k := cluster.ServiceKey();
            out == Done
            && infra.value.services == old(infra.value.services) - {k}
            && recorder.events == old(recorder.events)
                 + (if k in old(infra.value.services) then [Event("DeletedControlPlaneService", cluster.name)] else [])
            && cluster.finalizers == RemoveFinalizer(old(cluster.finalizers), Finalizer)
            && cluster.endpoint == old(cluster.endpoint) && cluster.ready == old(cluster.ready))
      // a live cluster whose owner is missing or cannot be read is left alone
      && (!cluster.deleting && Finalizer in old(cluster.finalizers) && infra.Ok? && !owner.Found? ==>
            out == (if owner.Absent? then Done else Error("get owner Cluster: " + owner.message))
            && unchanged(cluster, recorder, client) && unchanged(RemoteSet(remote)))
      // a live cluster with its owner: create the Service when missing, then read the endpoint
      && (!cluster.deleting && Finalizer in old(cluster.finalizers) && infra.Ok? && owner.Found? ==>
            var k := cluster.ServiceKey();
            var created := k !in old(infra.value.services);
            var seen := if created then EmptyService else old(infra.value.services)[k];
            var ep := ControlPlaneEndpoint(cluster.serviceTemplate.serviceType, seen);
            infra.value.services
              == (if created then old(infra.value.services)[k := BuildControlPlaneService(cluster.serviceTemplate, owner.value)]
                  else old(infra.value.services))
            && recorder.events == old(recorder.events) + (if created then [Event("CreatedControlPlaneService", cluster.name)] else [])
            && cluster.finalizers == old(cluster.finalizers)
            && (ep.Err? ==> out == Error(ep.error) && cluster.endpoint == old(cluster.endpoint) && cluster.ready == old(cluster.ready))
            && (ep.Ok? ==> out == Done && cluster.endpoint == ep.value && cluster.ready))
    }

    /** One pass over a VirtinkCluster. */
    method ReconcileCluster(cluster: VirtinkCluster, owner: Lookup<OwnerCluster>, remote: Result<Store, string>)
      returns (out: Outcome)
      modifies cluster`finalizers, cluster`endpoint, cluster`ready, recorder, client`services, RemoteSet(remote)`services
      ensures ClusterPass(cluster, owner, remote, out)
    {
      var infra := client;
      if Finalizer in cluster.finalizers && cluster.infraClusterSecretRef.Some? {
        var c := InfraClusterClient(client, cluster.infraClusterSecretRef.value, remote);
        if c.Err? {
          return Error("build infra cluster client: " + c.error);
        }
        infra := c.value;
      }
      var k := cluster.ServiceKey();

      if cluster.deleting {
        if Finalizer in cluster.finalizers {
          if k in infra.services {
            var err := infra.DeleteService(k);
            match err {
              case Some(e) => return Error("delete control plane Service: " + e);
              case None =>
            }
            recorder.Record("DeletedControlPlaneService", cluster.name);
          }
          cluster.finalizers := RemoveFinalizer(cluster.finalizers, Finalizer);
        }
        return Done;
      }

      if Finalizer !in cluster.finalizers {
        cluster.finalizers := AddFinalizer(cluster.finalizers, Finalizer);
        return Done;
      }

      match owner {
        case GetError(m) => return Error("get owner Cluster: " + m);
        case Absent => return Done;
        case Found(o) =>
          // the lookup fills `seen` only when the Service exists; the value
          // built for creation lives in an inner scope and is not read below
          var seen := EmptyService;
          if k in infra.services {
            seen := infra.services[k];
          } else {
            var built := BuildControlPlaneService(cluster.serviceTemplate, o);
            var err := infra.CreateService(k, built);
            match err {
              case Some(e) => return Error("create control plane Service: " + e);
              case None =>
            }
            recorder.Record("CreatedControlPlaneService", cluster.name);
          }
          var ep := ControlPlaneEndpoint(cluster.serviceTemplate.serviceType, seen);
          if ep.Err? {
            return Error(ep.error);
          }
          cluster.endpoint := ep.value;
          cluster.ready := true;
          return Done;
      }
    }

    /**
     * Reconcile: fetch, one pass, and a patch of the object only when the pass
     * succeeded; `patchError` is the outcome of that patch.
     */
    method Reconcile(cluster: VirtinkCluster?, owner: Lookup<OwnerCluster>, remote: Result<Store, string>,
                     patchError: Option<string>)
      returns (reply: Reply, patched: bool, ghost out: Outcome)
      modifies if cluster == null then {} else {cluster}, recorder, client`services, RemoteSet(remote)`services
      ensures cluster == null ==> reply == Reply(0, None) && !patched && unchanged(recorder, client)
                                  && unchanged(RemoteSet(remote))
      ensures cluster != null ==> ClusterPass(cluster, owner, remote, out)
      ensures reply.requeueAfter == 0
      ensures cluster != null ==> (patched <==> !out.Error?)
      ensures cluster != null && out.Error? ==> reply.error == Some(out.message)
      ensures patched ==> reply.error == if patchError.Some? then Some("patch Cluster: " + patchError.value) else None
    {
      if cluster == null {
        return Reply(0, None), false, Done;
      }
      var pass := ReconcileCluster(cluster, owner, remote);
      out := pass;
      if pass.Error? {
        return Reply(0, Some(pass.message)), false, out;
      }
      patched := true;
      reply := if patchError.Some? then Reply(0, Some("patch Cluster: " + patchError.value)) else Reply(0, None);
    }
  }
}
