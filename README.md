# cluster-api-provider-virtink, modelled in Dafny

This project models the controllers of cluster-api-provider-virtink, a Cluster API
infrastructure provider that runs the machines of a Kubernetes cluster as Virtink
virtual machines, possibly in a separate infrastructure cluster.

- **VirtinkMachine controller** (`virtink_machine.dfy`). A reconcile pass does the following:
  - puts a finalizer on the machine;
  - resolves the owner Machine, the owner Cluster and the infrastructure cluster client;
  - claims an IP address and rewrites the `$IP_ADDRESS` / `$MAC_ADDRESS` placeholders of the machine's annotations;
  - creates the machine's DataVolumes and its VirtualMachine when they are missing;
  - projects the VM's phase and run policy onto the machine's provider ID, readiness and failure state;
  - on deletion, deletes the VM, releases the IP claim and drops the finalizer.

  Every pass ends with a deferred patch of the machine.
- **VirtinkCluster controller** (`virtink_cluster.dfy`). It keeps a control plane Service in the infrastructure cluster and reads the control plane endpoint back from it.
- **KubridMachine and KubridCluster controllers** (`kubrid_machine.dfy`, `kubrid_cluster.dfy`). These are the older variants. They have no finalizer. They guard the VM or Service by its controller reference, and they patch the object only after a successful pass.
- **IP ranges** (`iprange.dfy`). This covers parsing a single address, an `addr-addr` range or an `addr/len` CIDR block into a `[start, end]` pair of byte strings. It also covers listing the range by big-endian increment with carry.
- **Text helpers** (`text.dfy`):
  - standard base64 with padding, as in section 4 of RFC 4648, used for the cloud-init user data;
  - the colon-separated text of a MAC address;
  - the placeholder replacer.
- **Objects and store**:
  - `objects.dfy` holds the API objects as values.
  - `kube.dfy` holds the object store. It is a class with one map per kind, keyed by namespace and name. Its Create/Delete/Update calls report "already exists" or "not found".
  - `kube.dfy` also holds the event recorder, an append-only log.

## How the model is organised

**Objects and state**
- Each controller's object (machine or cluster) is a class. Its spec fields are `const`. The fields a pass writes (finalizers, annotations, provider ID, readiness, failure reason and message, endpoint) are `var`.
- A reconcile pass is a method of the reconciler class. Its `modifies` clause names exactly those fields and the store maps it writes.

**Inputs**
- Owner lookups are inputs of type `Lookup` (`Found`, `Absent`, `GetError`).
- The client built from a kubeconfig is an input `remote`. It is the outcome of the foreign client construction.
- The three random bytes of a MAC address are an input `random`.
- The outcome of the patch is an input `patchError`.

**Infrastructure store**
- The infrastructure store is the management store itself, or the `remote` store. The model lets the two alias.

**Outcomes**
- A pass ends in an `Outcome`: `Done`, `RetryAfter(seconds)`, `NoRequeue` or `Error(message)`.
- `Reconcile` turns it into a `Reply` (requeue delay, error) and says whether the object was patched.

**Control plane endpoint on the creating pass**
- On the pass that creates the control plane Service, both cluster controllers read the endpoint from the Service value the failed lookup left behind. The Service they just built lives in an inner scope (controllers/virtinkcluster_controller.go:139, controllers/kubridcluster_controller.go:101).
- The model follows the code as written:
  - the host is empty on that pass;
  - a LoadBalancer template makes the VirtinkCluster pass fail;
  - the next pass reads the stored Service.

**Machine type fields**
- The VirtinkMachine type file (api/v1beta1/virtinkmachine_types.go) declares `VMSpec` and `VolumeTemplates` and no failure fields.
- The controller code reads `Spec.VirtualMachineTemplate`, `Spec.IPPoolRef` and `Status.FailureReason`.
- The model follows the controller code.

## Model

| member | source | states |
|---|---|---|
| Objects.AddFinalizer | controllers/virtinkmachine_controller.go:190-193 | the finalizer is present afterwards; membership is the old list plus the finalizer; an existing finalizer leaves the list unchanged, otherwise it is appended at the end |
| Objects.RemoveFinalizerMembers | controllers/virtinkmachine_controller.go:187 | after removal the finalizer is absent and exactly the other finalizers remain |
| Objects.RemoveAbsentFinalizer | controllers/virtinkmachine_controller.go:180 | removing a finalizer that is not there changes nothing |
| Objects.RemoveAfterAdd | controllers/virtinkcluster_controller.go:108-112 | removing the finalizer undoes adding it to a list that lacked it |
| Kube.Store.CreateVm | controllers/virtinkmachine_controller.go:267-269 | create fails with "already exists" on a taken key and otherwise adds exactly that key |
| Kube.Store.DeleteVm | controllers/virtinkmachine_controller.go:159-161 | delete fails with "not found" on a missing key; afterwards the key is gone and nothing else changed |
| Kube.Store.CreateKubridVm | controllers/kubridmachine_controller.go:135-137 | create fails with "already exists" on a taken key and otherwise adds exactly that key |
| Kube.Store.CreateDataVolume | controllers/virtinkmachine_controller.go:237-239 | create fails with "already exists" on a taken key and otherwise adds exactly that key |
| Kube.Store.CreateService | controllers/virtinkcluster_controller.go:146-148 | create fails with "already exists" on a taken key and otherwise adds exactly that key |
| Kube.Store.DeleteService | controllers/virtinkcluster_controller.go:102-104 | delete fails with "not found" on a missing key; afterwards the key is gone |
| Kube.Store.CreateIpClaim | controllers/virtinkmachine_controller.go:335-337 | create fails with "already exists" on a taken key and otherwise adds exactly that key |
| Kube.Store.UpdateIpClaim | controllers/virtinkmachine_controller.go:181-183 | update replaces an existing claim and fails with "not found" otherwise |
| Kube.Recorder.Record | controllers/virtinkmachine_controller.go:162 | an event is appended to the log and earlier events are kept |
| Text.EncodeRoundTrip | controllers/virtinkmachine_controller.go:404 | decoding the base64 text of any bytes gives those bytes back |
| Text.EncodeLength | controllers/virtinkmachine_controller.go:404 | base64 text is 4 characters per started group of 3 bytes |
| Text.EncodeInjective | controllers/virtinkmachine_controller.go:404 | different user data never encode to the same text |
| Text.GenerateMac | controllers/virtinkmachine_controller.go:435-442 | a MAC address exists exactly when the random read succeeded; it is 52:54:00 followed by the three random bytes; a failed read gives the "rand" error |
| Text.GeneratedMacText | controllers/virtinkmachine_controller.go:360-365 | the text of a generated MAC address has 17 characters, starts with "52:54:00:" and holds no placeholder character |
| Text.MacTextLength | controllers/virtinkmachine_controller.go:365 | the colon-separated text of n bytes has 3n-1 characters |
| Text.MacTextPrefix | controllers/virtinkmachine_controller.go:436 | the text of prefix plus suffix is "52:54:00:" followed by the suffix's text |
| Text.ReplaceClean | controllers/virtinkmachine_controller.go:365-368 | a value without placeholders is left as it is |
| Text.ReplaceLeavesClean | controllers/virtinkmachine_controller.go:365-368 | with placeholder-free replacements, the result holds no placeholder anywhere |
| Text.ReplaceIdempotent | controllers/virtinkmachine_controller.go:365-368 | a second replacement, with any values, leaves a replaced value unchanged |
| Text.ReplaceAnnotations | controllers/virtinkmachine_controller.go:366-368 | the loop keeps the annotation keys and replaces the placeholders of every value |
| Text.ReplaceAllIdempotent | controllers/virtinkmachine_controller.go:365-368 | rewriting the annotations twice gives what one rewrite gives |
| IpRange.Compare | controllers/iprange/iprange.go:55 | the lexicographic byte comparison is -1, 0 or 1, and 0 exactly for equal addresses |
| IpRange.CompareByValue | controllers/iprange/iprange.go:55 | for addresses of one length, byte order is the order of big-endian values |
| IpRange.ContainsByValue | controllers/iprange/iprange.go:54-56 | an address is in the range exactly when start <= address <= end as numbers |
| IpRange.NextIP | controllers/iprange/iprange.go:83-93 | the loop returns a new address of the same length whose value is the input's plus one, modulo 256 to the length |
| IpRange.SuccValue | controllers/iprange/iprange.go:83-93 | the incremented address has value v+1, or 0 when v is the largest value of its length |
| IpRange.SuccShape | controllers/iprange/iprange.go:86-91 | increment bumps the last byte below 0xff and zeroes every 0xff byte after it |
| IpRange.List | controllers/iprange/iprange.go:40-52 | the list has end-start+1 addresses (none when start > end); all lie in the range; they strictly increase; it starts at start and ends at end |
| IpRange.EnumerationFacts | controllers/iprange/iprange.go:40-52 | consecutive values from start fill the range in increasing order, from start to end |
| IpRange.IndexOf | controllers/iprange/iprange.go:60 | the found index holds the first '-', and a missing '-' is reported |
| IpRange.ParseRange | controllers/iprange/iprange.go:58-67 | without '-' start and end are the same parsed address; otherwise they are the parts before and after the first '-' |
| IpRange.HostMaskValue | controllers/iprange/iprange.go:76-78 | the host part of a mask is 2^(host bits) - 1 |
| IpRange.BlockSpan | controllers/iprange/iprange.go:75-78 | the last address of a block is its network address plus 2^(host bits) - 1 |
| IpRange.To16Span | controllers/iprange/iprange.go:80 | the 16-byte form of an IPv4 pair keeps their distance |
| IpRange.ParseCIDR | controllers/iprange/iprange.go:69-81 | a parse failure gives no range; otherwise start is the masked network address and end has every host bit set, both in 16-byte form, so host bits of the input are ignored |
| IpRange.UnparsableRangeNeverEnds | controllers/iprange/iprange.go:25-67 | as written, "abc" matches the range pattern, its range starts at the empty address, that address is in the range and is its own successor, so listing never ends |
| IpRange.ParseRangeChecked | controllers/iprange/iprange.go:34-36 | the corrected range parse: invalid exactly when either half is no address; a valid range is the parsed pair with two non-empty addresses |
| IpRange.CheckedRangeListable | controllers/iprange/iprange.go:40-52 | with addresses parsed to 16 bytes or nothing, a checked range has two 16-byte ends and does not contain the empty address |
| IpRange.Parse | controllers/iprange/iprange.go:25-38 | as written: a range-syntax string always yields its parsed range, even when its addresses do not parse; the result is missing exactly when neither syntax matches or the CIDR parse fails; a CIDR block gives exactly its masked network and last address in 16-byte form, spanning 2^(host bits) addresses |
| IpRange.ParseChecked | controllers/iprange/iprange.go:25-38 | the corrected parse: a range-syntax string yields its checked range, missing exactly when a half is no address, and a present range has two non-empty addresses; a CIDR block gives exactly its masked network and last address, as in Parse |
| IpRange.SyntaxesDisjoint | controllers/iprange/iprange.go:21-22 | no string matches both patterns |
| IpRange.CidrExample | controllers/iprange/iprange_test.go:20-21 | 192.168.240.249/29 gives the network .248 and the last address .255, so the parsed range is .248 to .255 in 16-byte form |
| VirtinkClusterController.InfraClusterClient | controllers/virtinkcluster_controller.go:173-198 | a missing Secret and a Secret without the "kubeconfig" key are errors with the source's texts; with the Secret and its "kubeconfig" key present the result is exactly the outcome of the foreign client construction |
| VirtinkClusterController.BuildControlPlaneService | controllers/virtinkcluster_controller.go:200-219 | one port 6443 to 6443; labels and annotations from the template; the type copied only when set |
| VirtinkClusterController.ControlPlaneSelection | controllers/virtinkcluster_controller.go:203-206 | the Service selects labels exactly when they name the owner cluster and carry the control-plane label with value "" |
| VirtinkClusterController.ControlPlaneEndpoint | controllers/virtinkcluster_controller.go:152-165 | the port is always 6443; a LoadBalancer template uses the first ingress IP and fails exactly when there is none; other types use the cluster IP |
| VirtinkClusterController.CreatingPassEndpoint | controllers/virtinkcluster_controller.go:124-165 | on the creating pass the endpoint is read from the empty Service: the host is empty, or a LoadBalancer errors |
| VirtinkClusterController.VirtinkClusterReconciler.Infra | controllers/virtinkcluster_controller.go:74-83 | without the finalizer, or without a kubeconfig Secret reference, the store is the management one; otherwise it is the remote one, or the pass fails with "build infra cluster client: ..." and the client error |
| VirtinkClusterController.VirtinkClusterReconciler.ReconcileCluster | controllers/virtinkcluster_controller.go:73-171 | covers each case of the pass (listed below) |
| VirtinkClusterController.VirtinkClusterReconciler.Reconcile | controllers/virtinkcluster_controller.go:52-71 | the pass it runs is the one ReconcileCluster states; never a delayed requeue; the cluster is patched exactly when the pass did not fail; a pass error is returned as is; a patch error is returned as "patch Cluster: ..."; a cluster that is not found changes neither store |
| VirtinkMachineController.DataVolumesForMembers | controllers/virtinkmachine_controller.go:412-433 | the planned DataVolumes are exactly one per DataVolume template, named `<machine>-<template>` in the infrastructure namespace with the template's spec |
| VirtinkMachineController.PlannedNames | controllers/virtinkmachine_controller.go:413-425 | every planned DataVolume lies in the infrastructure namespace and its name starts with `<machine>-` |
| VirtinkMachineController.ProvisionCreatesOnlyMissing | controllers/virtinkmachine_controller.go:209-243 | create-once: existing DataVolumes are never replaced; every planned key ends up with a DataVolume or a claim; a key is created exactly when it was planned and held neither |
| VirtinkMachineController.DesiredVm | controllers/virtinkmachine_controller.go:373-410 | the built VM fails exactly when the bootstrap Secret is missing, with "get bootstrap Secret: not found"; otherwise it carries the machine's labels and annotations and the template's run policy, and each template volume in order with every DataVolume reference renamed to `<machine>-<name>` and other volumes kept, followed by the cloud-init volume |
| VirtinkMachineController.CloudInitAppended | controllers/virtinkmachine_controller.go:397-407 | one "cloud-init" disk and volume are appended after the template's; the volume's user data decodes back to the Secret's "value" bytes |
| VirtinkMachineController.OneCloudInit | controllers/virtinkmachine_controller.go:397-407 | when the template has no "cloud-init" disk or volume, the VM has exactly one of each |
| VirtinkMachineController.VolumeReferencesResolve | controllers/virtinkmachine_controller.go:382-386 | a volume of the built VM whose template volume refers to a DataVolume template refers to the DataVolume that template yields; the template is not rewritten, so this holds on every pass |
| VirtinkMachineController.TemplateAfterBuild | controllers/virtinkmachine_controller.go:379-386 | as written, after a build the machine's own template has every DataVolume reference prefixed with `<machine>-`, and nothing else changed |
| VirtinkMachineController.RebuildMissesDataVolume | controllers/virtinkmachine_controller.go:379-386 | as written, machine "m" with template "root" refers to the DataVolume "m-root" on the first build and to "m-m-root", which no template yields, on the next |
| VirtinkMachineController.FinalStateMeansStopped | controllers/virtinkmachine_controller.go:284-293 | the machine is marked failed exactly when the VM has stopped (Succeeded or Failed) and its run policy will not start it again |
| VirtinkMachineController.NewClaim | controllers/virtinkmachine_controller.go:318-331 | a new claim carries the finalizer, the machine's pool in the machine's namespace and the machine as owner, and has neither an error nor an address yet |
| VirtinkMachineController.ReleaseClaim | controllers/virtinkmachine_controller.go:179-183 | the released claim lacks the finalizer, keeps the other finalizers and keeps every other field |
| VirtinkMachineController.AnnotationsSettle | controllers/virtinkmachine_controller.go:360-368 | after one rewrite with a plain address, a second address pass with any MAC address changes no annotation |
| VirtinkMachineController.VirtinkMachineReconciler.Resolve | controllers/virtinkmachine_controller.go:95-135 | lookups happen only with the finalizer held; a missing owner Machine or Cluster ends the pass with success, and a failed lookup ends it with the source's error text; a missing VirtinkCluster is "get Cluster: not found"; the store is the management one when the VirtinkCluster names no kubeconfig Secret, otherwise the remote one, or the pass fails with "build infra cluster client: ..." |
| VirtinkMachineController.VirtinkMachineReconciler.BuildDataVolumes | controllers/virtinkmachine_controller.go:412-433 | the loop produces the planned DataVolumes in template order |
| VirtinkMachineController.VirtinkMachineReconciler.BuildVm | controllers/virtinkmachine_controller.go:373-410 | the renaming loop over a copy of the template's volumes and the appends produce the desired VM, or the bootstrap Secret error |
| VirtinkMachineController.VirtinkMachineReconciler.EnsureMachineAddress | controllers/virtinkmachine_controller.go:300-371 | covers each case of the address step (listed below) |
| VirtinkMachineController.VirtinkMachineReconciler.EnsureDataVolumes | controllers/virtinkmachine_controller.go:209-243 | the DataVolume store becomes the create-once provisioning of the planned volumes; one "CreatedDataVolume" event per created key, in order |
| VirtinkMachineController.VirtinkMachineReconciler.EnsureVm | controllers/virtinkmachine_controller.go:245-294 | covers the VM step (listed below) |
| VirtinkMachineController.VirtinkMachineReconciler.DeleteMachine | controllers/virtinkmachine_controller.go:142-188 | with the finalizer held, the VM is deleted if present (event "DeletedVM"), the IP claim (if any) loses the finalizer, and the machine's finalizer is dropped; otherwise nothing changes |
| VirtinkMachineController.VirtinkMachineReconciler.LiveMachine | controllers/virtinkmachine_controller.go:189-207 | covers the live pass (listed below) |
| VirtinkMachineController.VirtinkMachineReconciler.ProvisionMachine | controllers/virtinkmachine_controller.go:209-294 | the DataVolume store becomes the create-once provisioning of the planned volumes, with one "CreatedDataVolume" event per created key; then the VM step's whole case table (listed under EnsureVm), its events after the DataVolume events |
| VirtinkMachineController.VirtinkMachineReconciler.ReconcileMachine | controllers/virtinkmachine_controller.go:93-298 | covers each case of the whole pass (listed below) |
| VirtinkMachineController.VirtinkMachineReconciler.Reconcile | controllers/virtinkmachine_controller.go:63-91 | covers the deferred patch and the reply (listed below) |
| KubridMachineController.Prerequisites | controllers/kubridmachine_controller.go:83-104 | a pass can go on exactly when both owners exist, the infrastructure is ready and bootstrap data is named; otherwise the first failing check in the source's order gives its error text ("get owner Machine: ...", "owner Machine is nil", "get owner Cluster: ...", "owner Cluster is nil", "owner Cluster is not ready", "bootstrap data is nil") |
| KubridMachineController.BuiltVmShape | controllers/kubridmachine_controller.go:147-200 | covers the shape of the Kubrid VM (listed below) |
| KubridMachineController.KubridMachineReconciler.ReconcileMachine | controllers/kubridmachine_controller.go:78-145 | covers each case of the Kubrid machine pass (listed below) |
| KubridMachineController.KubridMachineReconciler.Reconcile | controllers/kubridmachine_controller.go:57-76 | the pass it runs is the one ReconcileMachine states; never a delayed requeue; patched exactly when the pass succeeded; a patch error is returned as "patch Machine: ..." |
| KubridClusterController.ControlPlaneServiceShape | controllers/kubridcluster_controller.go:125-139 | type NodePort, a single port 6443 to 6443, and a selector matching exactly the owner cluster's control plane machines |
| KubridClusterController.KubridClusterReconciler.ReconcileCluster | controllers/kubridcluster_controller.go:69-123 | covers each case of the Kubrid cluster pass (listed below) |
| KubridClusterController.KubridClusterReconciler.Reconcile | controllers/kubridcluster_controller.go:48-67 | the pass it runs is the one ReconcileCluster states; never a delayed requeue; patched exactly when the pass succeeded; a patch error is returned as "patch Cluster: ..." |

The rows marked "listed below" state the following.

**VirtinkClusterController.VirtinkClusterReconciler.ReconcileCluster**
- A client that cannot be built fails the pass and changes nothing.
- The first live pass only adds the finalizer.
- Deletion with the finalizer:
  - deletes the Service if present, with a "DeletedControlPlaneService" event;
  - issues no delete when the Service is absent;
  - drops the finalizer.
- A missing owner ends the pass with no change.
- Otherwise:
  - the Service is created only when absent, with a "CreatedControlPlaneService" event;
  - the endpoint and Ready are set from the Service that was read, or the pass fails and they stay unchanged.
- The store that is not the infrastructure store keeps its Services: the management store when the remote one is used, and the other way round.

**VirtinkMachineController.VirtinkMachineReconciler.EnsureMachineAddress**
- It is a no-op without an IP pool.
- Otherwise a missing claim is created.
- A claim error sets FailureReason InvalidConfiguration and the claim's message, and returns no-requeue.
- A claim with no address yet gives retry after 1 s.
- A missing IPAddress is the raw "not found" error.
- A failed random read is "generate MAC address: rand".
- Otherwise every annotation is rewritten with the address and the generated MAC address.
- The step returns Done, and the pass goes on, exactly in that last case or without an IP pool.

**VirtinkMachineController.VirtinkMachineReconciler.EnsureVm**
- A missing VM:
  - is built and created with a "CreatedVM" event;
  - the step returns retry after 10 s;
  - provider ID, Ready and the failure fields stay unchanged;
  - a build error is "build VM: ...".
- An existing VM:
  - the provider ID becomes "virtink://" + UID;
  - Ready holds exactly when the VM is Running;
  - Pending, Scheduling and Scheduled give retry after 10 s;
  - a final state sets UpdateMachineError with "VM has reached final state";
  - otherwise the failure fields are kept.

**VirtinkMachineController.VirtinkMachineReconciler.LiveMachine**
- The first pass only adds the finalizer.
- An owner Cluster that is not ready, or bootstrap data that is not named, gives retry after 3 s and changes nothing.
- Then the address step runs. When it stops the pass, the pass ends with the step's outcome and effect, and the provider ID, Ready, events, VM and DataVolumes are unchanged.
- When the address step goes on, its claim and its rewritten annotations are what the pass leaves, and the pass does what ProvisionMachine states:
  - the missing DataVolumes are created, with their events;
  - a missing VM is built from the rewritten annotations and created, with retry after 10 s;
  - an existing VM gives the provider ID, Ready, the retry for Pending, Scheduling and Scheduled, and the failure fields by the phase table.
- A recorded failure is never cleared.

**VirtinkMachineController.VirtinkMachineReconciler.ReconcileMachine**
- A lookup that ends the pass changes nothing, even during deletion, so the finalizer stays.
- The store that is not the infrastructure store keeps its VMs and DataVolumes.
- Deletion returns Done and leaves the annotations, provider ID, Ready, the failure fields and the DataVolumes alone.
- Deletion with the finalizer:
  - deletes the VM, with a "DeletedVM" event when it was present;
  - releases the claim;
  - drops the finalizer.
- Deletion without the finalizer does nothing.
- A live machine goes through the live pass above, with the resolved owners and store.
- A recorded failure is never cleared.

**VirtinkMachineController.VirtinkMachineReconciler.Reconcile**
- A machine that is not found changes neither store.
- The pass it runs is the one ReconcileMachine states.
- The machine is always patched.
- Requeue delay:
  - 30 s after a plain success;
  - the retry delay after a retry;
  - 0 for no-requeue and for errors.
- A pass error wins over a patch error.
- A patch error otherwise comes back as "patch Machine: ...".

**KubridMachineController.BuiltVmShape**
- Run policy Once, with 1 socket times 2 cores and 2Gi of memory.
- The kernel image "smartxworks/capch-kernel-5.15.12" with the command line "console=ttyS0 root=/dev/vda rw".
- The machine's labels and annotations, and no controller reference yet.
- The disks "rootfs" and "cloud-init", in that order.
- The volumes: "rootfs" from the container rootfs "smartxworks/capch-rootfs-1.24.0" of 4Gi, and "cloud-init" from the bootstrap Secret.
- Every disk is backed by a same-named volume.
- One interface and one network, both "pod".

**KubridMachineController.KubridMachineReconciler.ReconcileMachine**
- A machine being deleted is left alone.
- A failed prerequisite is an error and touches nothing.
- The machine's own VM (its controller is the machine) sets the provider ID "kubrid://" + UID and Ready, whatever the phase.
- Another owner's VM at the key makes the create fail with "already exists".
- With no VM:
  - one is created, named after the machine, controlled by it;
  - a "CreatedVM" event is recorded;
  - the provider ID and Ready stay unchanged.

**KubridClusterController.KubridClusterReconciler.ReconcileCluster**
- A cluster being deleted is left alone.
- A missing owner is an error ("owner Cluster is nil") and creates nothing.
- The cluster's own Service gives the endpoint (cluster IP, 6443) and Ready.
- Another owner's Service at the key makes the create fail with "already exists".
- With no Service:
  - one is created, controlled by the cluster;
  - the endpoint host is empty, port 6443, and Ready is set.

## Left out

**Foreign calls**
- Text parsing of addresses (`net.ParseIP`, the text part of `net.ParseCIDR`) is a function parameter. Addresses are byte strings.
- Building a client from a kubeconfig (`clientcmd.RESTConfigFromKubeConfig`, `client.New`) is the input `remote`. Its error texts "create REST config" and "create infra cluster client" arrive through it.
- `crypto/rand` is the input `random`: three bytes, or a failed read.
- Text.GenerateMac: a failed read gives "rand" without the read error's own text, which the source appends as "rand: <error>"; the error type of `crypto/rand` is not modelled.

**Store behaviour**
- Get errors other than "not found" are not modelled. The store never fails a lookup, so the branches "get VM", "get DataVolume", "get PVC", "get ipClaim" and "get control plane Service" are absent.
- A Create, Delete or Update issued right after a lookup that saw the key absent (or present) cannot fail in this sequential model. The Virtink paths call the store without an error branch, or with one that the store's contract rules out. Only the Kubrid ownership gate reaches a real "already exists".
- Errors of `SetOwnerReference` and `SetControllerReference` (scheme registration failures) are not modelled.
- A controller reference is the owner's UID in the object's `controller` field. The owner reference of an IP claim is the machine's UID in `owner`.
- The API server's UID assignment is not modelled. A VM or Service built by a pass has an empty UID until a later pass reads one from the store.

**Reconcile wrapper**
- The patch helper is reduced to its outcome `patchError`. Its creation error ("create ... patch helper") is not modelled. A null object models the "object not found" return of `Reconcile`; other errors from fetching the object are not modelled.

**Objects and events**
- Events keep their reason and the name their message carries: the VM's, the Service's or the DataVolume's name (the VM and the Service are named after the machine and the cluster). The object an event is attached to (always the machine or the cluster of the pass), its message text and its type are left out.
- Logging is left out.
- The VM spec is reduced to the run policy, disks and volumes, and the volume sources to DataVolume, cloud-init and other.
- Kubrid quantities ("2Gi", "4Gi") are kept as text.
- How the external IP address manager fills in a claim's status is an input (the stored claim), not behaviour.

**Out of scope**
- Concurrency of the worker pool, watches, `SetupWithManager`, the RBAC markers and `main.go` are outside the reconcile passes.

**Shared template volumes**
- VirtinkMachineController.VirtinkMachineReconciler.BuildVm: the source's VM spec shares the volume list of the machine's template, so the renaming also rewrites the template, and the deferred patch stores it. The model renames a copy and keeps the template `const`; TemplateAfterBuild and RebuildMissesDataVolume state what the shared list does (see Findings).
- VirtinkMachineController.VirtinkMachineReconciler.EnsureVm: for the same reason, the machine's template after a pass that creates the VM is not rewritten in the model.
- The VM's labels and annotations maps are shared with the machine in the source too; no later write goes through them, so the model copies them.

**Weaker contracts**
- IpRange.List: requires start and end of one length and an end that is not the all-0xff address. The source never ends on an empty start, or on an all-0xff end with a zero start. The all-0xff end with a non-zero start, which does end after wrapping, is excluded as well.
- VirtinkMachineController.AnnotationsSettle: holds for an IP address text with no placeholder character. Dotted IPv4 text and lower-case IPv6 text qualify.
- VirtinkMachineController.FinalStateMeansStopped: the phase table is also stated inside `EnsureVm`. The lemma compares it with an independent description of the run policies.

## Findings

| source | as written | input that shows it | evidently intended | confidence | as-written member | corrected member |
|---|---|---|---|---|---|---|
| controllers/virtinkmachine_controller.go:379-386 | the VM spec shares the template's volume list, so renaming a DataVolume reference to `<machine>-<name>` rewrites the machine's template, and the deferred patch stores it | machine "m", DataVolume template "root", a template volume referring to "root": a later build (for example after the VM was deleted) refers to "m-m-root" | the template stays as written and every build refers to `<machine>-<name>` | not executed | VirtinkMachineController.RebuildMissesDataVolume | VirtinkMachineController.VolumeReferencesResolve |
| controllers/iprange/iprange.go:34-36 | parseRange returns a struct, so the nil check never rejects a range-syntax string whose halves are no address; such a range starts at the empty address and listing it never ends | "abc": it matches the range pattern and net.ParseIP rejects it | an address that does not parse is "invalid syntax" | not executed | IpRange.UnparsableRangeNeverEnds | IpRange.ParseChecked |
