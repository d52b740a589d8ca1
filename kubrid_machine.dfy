/**
 * The KubridMachine controller, the older variant of the VirtinkMachine one:
 * no finalizer and no deletion work, prerequisites that fail the pass, one
 * Kubrid VM of fixed shape per machine guarded by its controller reference,
 * and a patch of the machine only after a successful pass.
 */
module KubridMachineController {
  import opened Wrappers
  import opened Objects
  import opened Kube

  const ProviderIdPrefix: string := "kubrid://"
  const KernelImage: string := "smartxworks/capch-kernel-5.15.12"
  const KernelCmdline: string := "console=ttyS0 root=/dev/vda rw"
  const RootfsImage: string := "smartxworks/capch-rootfs-1.24.0"
  const RootfsName: string := "rootfs"
  const CloudInitName: string := "cloud-init"
  const PodNetwork: string := "pod"

  /** A KubridMachine object as the pass holds it; a successful pass patches the var fields back. */
  class KubridMachine {
    const name: string
    const namespace: string
    const uid: string
    const deleting: bool
    const labels: map<string, string>
    const annotations: map<string, string>
    var providerId: Option<string>
    var ready: bool

    constructor (name: string, namespace: string, uid: string, deleting: bool,
                 labels: map<string, string>, annotations: map<string, string>)
      ensures this.name == name && this.namespace == namespace && this.uid == uid && this.deleting == deleting
      ensures this.labels == labels && this.annotations == annotations
      ensures providerId == None && !ready
    {
      this.name, this.namespace, this.uid, this.deleting := name, namespace, uid, deleting;
      this.labels, this.annotations := labels, annotations;
      providerId, ready := None, false;
    }

    /** The VM shares the machine's name and namespace. */
    function VmKey(): Key
    {
      Key(namespace, name)
    }
  }

  /**
   * The prerequisites of a pass, in the order they are checked: the owner
   * Machine, the owner Cluster and its infrastructure, and the bootstrap
   * data. Ok carries the name of the bootstrap data Secret.
   */
  function Prerequisites(ownerMachine: Lookup<OwnerMachine>, ownerCluster: Lookup<OwnerCluster>): (r: Result<string, string>)
    ensures r.Ok? <==> ownerMachine.Found? && ownerCluster.Found? && ownerCluster.value.infrastructureReady
                       && ownerMachine.value.dataSecretName.Some?
    ensures r.Ok? ==> r.value == ownerMachine.value.dataSecretName.value
    ensures ownerMachine.Absent? ==> r == Err("owner Machine is nil")
    ensures ownerMachine.GetError? ==> r == Err("get owner Machine: " + ownerMachine.message)
    ensures ownerMachine.Found? && ownerCluster.GetError? ==> r == Err("get owner Cluster: " + ownerCluster.message)
    ensures ownerMachine.Found? && ownerCluster.Absent? ==> r == Err("owner Cluster is nil")
    ensures ownerMachine.Found? && ownerCluster.Found? && !ownerCluster.value.infrastructureReady ==>
      r == Err("owner Cluster is not ready")
    ensures ownerMachine.Found? && ownerCluster.Found? && ownerCluster.value.infrastructureReady
            && ownerMachine.value.dataSecretName.None? ==>
      r == Err("bootstrap data is nil")
  {
    match (ownerMachine, ownerCluster)
      case (GetError(e), _) => Err("get owner Machine: " + e)
      case (Absent, _) => Err("owner Machine is nil")
      case (Found(_), GetError(e)) => Err("get owner Cluster: " + e)
      case (Found(_), Absent) => Err("owner Cluster is nil")
      case (Found(om), Found(oc)) =>
        if !oc.infrastructureReady then Err("owner Cluster is not ready")
        else if om.dataSecretName.None? then Err("bootstrap data is nil")
        else Ok(om.dataSecretName.value)
  }

  /** The Kubrid VM of a machine: a fixed shape, with the bootstrap Secret as its cloud-init source. */
  function BuildVm(labels: map<string, string>, annotations: map<string, string>, secretName: string): KubridVm
  {
    KubridVm(labels, annotations, Once, 1, 2, "2Gi", KernelImage, KernelCmdline,
             [RootfsName, CloudInitName], [PodNetwork],
             [KubridVolume(RootfsName, ContainerRootfs(RootfsImage, "4Gi")),
              KubridVolume(CloudInitName, CloudInit(secretName))],
             [PodNetwork], "", None)
  }

  /**
   * The built VM runs once on one socket of two cores with 2Gi of memory and
   * the fixed kernel; its disks are the root filesystem and cloud-init, every
   * disk is backed by the volume of the same name, cloud-init reads the
   * bootstrap Secret, and its one interface has the pod network of the same
   * name. No controller reference is set yet.
   */
  lemma BuiltVmShape(labels: map<string, string>, annotations: map<string, string>, secretName: string)
    ensures var vm := BuildVm(labels, annotations, secretName);
      && vm.runPolicy == Once && vm.sockets == 1 && vm.coresPerSocket == 2 && vm.memory == "2Gi"
      && vm.kernelImage == KernelImage && vm.kernelCmdline == KernelCmdline
      && vm.labels == labels && vm.annotations == annotations
      && vm.disks == [RootfsName, CloudInitName]
      && vm.interfaces == [PodNetwork] && vm.networks == [PodNetwork]
      && vm.volumes == [KubridVolume(RootfsName, ContainerRootfs(RootfsImage, "4Gi")),
                        KubridVolume(CloudInitName, CloudInit(secretName))]
      && vm.controller.None?
      && (forall d :: d in vm.disks ==> exists v :: v in vm.volumes && v.name == d)
      && (forall v :: v in vm.volumes && v.name == CloudInitName ==> v.source == CloudInit(secretName))
      && (forall n :: n in vm.interfaces <==> n in vm.networks)
  {
    var vm := BuildVm(labels, annotations, secretName);
    assert vm.volumes[0].name == RootfsName && vm.volumes[1].name == CloudInitName;
  }

  /** The machine controls a VM when the VM's controller reference carries the machine's UID. */
  predicate ControlledBy(vm: KubridVm, uid: string)
  {
    vm.controller == Some(uid)
  }

  class KubridMachineReconciler {
    const client: Store
    const recorder: Recorder

    constructor (client: Store, recorder: Recorder)
      ensures this.client == client && this.recorder == recorder
    {
      this.client, this.recorder := client, recorder;
    }

    /**
     * What one pass over a KubridMachine does. A VM at the machine's key that the
     * machine does not control counts as missing, so the pass tries to
     * create one and the store refuses it.
     */
    twostate predicate MachinePass(m: KubridMachine, ownerMachine: Lookup<OwnerMachine>, ownerCluster: Lookup<OwnerCluster>,
                                   out: Outcome)
      reads this, client, recorder, m
    {
      && (out.Done? || out.Error?)
      // a machine being deleted is left alone
      && (m.deleting ==> out == Done && unchanged(m, recorder, client))
      // a missing prerequisite fails the pass before any VM is touched
      && (!m.deleting && Prerequisites(ownerMachine, ownerCluster).Err? ==>
            out == Error(Prerequisites(ownerMachine, ownerCluster).error) && unchanged(m, recorder, client))
      && (!m.deleting && Prerequisites(ownerMachine, ownerCluster).Ok? ==>
            var k := m.VmKey();
            var present := k in old(client.kubridVms);
            var controlled := present && ControlledBy(old(client.kubridVms)[k], m.uid);
            // the machine's own VM gives the provider ID and readiness, whatever its phase
            && (controlled ==>
                  out == Done && client.kubridVms == old(client.kubridVms) && recorder.events == old(recorder.events)
                  && m.providerId == Some(ProviderIdPrefix + old(client.kubridVms)[k].uid) && m.ready)
            // another owner's VM at the key: the create is refused
            && (present && !controlled ==>
                  out == Error("create VM: " + AlreadyExistsText) && unchanged(m, recorder, client))
            // no VM: create one controlled by the machine, leaving the status alone
            && (!present ==>
                  out == Done
                  && client.kubridVms == old(client.kubridVms)[k := BuildVm(m.labels, m.annotations,
                                            Prerequisites(ownerMachine, ownerCluster).value).(controller := Some(m.uid))]
                  && recorder.events == old(recorder.events) + [Event("CreatedVM", m.name)]
                  && m.providerId == old(m.providerId) && m.ready == old(m.ready)))
    }

    /** One pass over a KubridMachine. */
    method ReconcileMachine(m: KubridMachine, ownerMachine: Lookup<OwnerMachine>, ownerCluster: Lookup<OwnerCluster>)
      returns (out: Outcome)
      modifies m`providerId, m`ready, recorder, client`kubridVms
      ensures MachinePass(m, ownerMachine, ownerCluster, out)
    {
      if m.deleting {
        return Done;
      }
      var pre := Prerequisites(ownerMachine, ownerCluster);
      if pre.Err? {
        return Error(pre.error);
      }
      var k := m.VmKey();
      var notFound := k !in client.kubridVms;
      if !notFound && !ControlledBy(client.kubridVms[k], m.uid) {
        notFound := true;
      }
      if notFound {
        var vm := BuildVm(m.labels, m.annotations, pre.value).(controller := Some(m.uid));
        var err := client.CreateKubridVm(k, vm);
        match err {
          case Some(e) => return Error("create VM: " + e);
          case None =>
        }
        recorder.Record("CreatedVM", m.name);
      } else {
        m.providerId := Some(ProviderIdPrefix + client.kubridVms[k].uid);
        m.ready := true;
      }
      return Done;
    }

    /**
     * Reconcile: fetch, one pass, and a patch of the machine only when the
     * pass succeeded; `patchError` is the outcome of that patch. There is
     * never a delayed requeue.
     */
    method Reconcile(m: KubridMachine?, ownerMachine: Lookup<OwnerMachine>, ownerCluster: Lookup<OwnerCluster>,
                     patchError: Option<string>)
      returns (reply: Reply, patched: bool, ghost out: Outcome)
      modifies if m == null then {} else {m}, recorder, client`kubridVms
      ensures m == null ==> reply == Reply(0, None) && !patched && unchanged(recorder, client)
      ensures m != null ==> MachinePass(m, ownerMachine, ownerCluster, out)
      ensures reply.requeueAfter == 0
      ensures m != null ==> (patched <==> !out.Error?)
      ensures m != null && out.Error? ==> reply.error == Some(out.message)
      ensures patched ==> reply.error == if patchError.Some? then Some("patch Machine: " + patchError.value) else None
    {
      if m == null {
        return Reply(0, None), false, Done;
      }
      var pass := ReconcileMachine(m, ownerMachine, ownerCluster);
      out := pass;
      if pass.Error? {
        return Reply(0, Some(pass.message)), false, out;
      }
      patched := true;
      reply := if patchError.Some? then Reply(0, Some("patch Machine: " + patchError.value)) else Reply(0, None);
    }
  }
}
