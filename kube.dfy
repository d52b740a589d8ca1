/**
 * The object store the controllers talk to, one map per kind keyed by
 * namespaced name, and the event recorder. A management cluster and an
 * infrastructure cluster are two Store objects, or the same one when no
 * separate infrastructure cluster is configured.
 */
module Kube {
  import opened Wrappers
  import opened Objects

  class Store {
    var vms: map<Key, VirtualMachine>
    var kubridVms: map<Key, KubridVm>
    var dataVolumes: map<Key, DataVolume>
    var pvcs: set<Key>
    var services: map<Key, Service>
    var secrets: map<Key, Secret>
    var ipClaims: map<Key, IpClaim>
    var ipAddresses: map<Key, IpAddress>
    var virtinkClusters: map<Key, VirtinkClusterRecord>

    constructor ()
      ensures vms == map[] && kubridVms == map[] && dataVolumes == map[] && pvcs == {}
      ensures services == map[] && secrets == map[] && ipClaims == map[]
      ensures ipAddresses == map[] && virtinkClusters == map[]
    {
      vms, kubridVms, dataVolumes, pvcs := map[], map[], map[], {};
      services, secrets, ipClaims := map[], map[], map[];
      ipAddresses, virtinkClusters := map[], map[];
    }

    /** Create fails when an object of that kind already has the key. */
    method CreateVm(k: Key, vm: VirtualMachine) returns (err: Option<string>)
      modifies this`vms
      ensures err == (if k in old(vms) then Some(AlreadyExistsText) else None)
      ensures vms == if k in old(vms) then old(vms) else old(vms)[k := vm]
    {
      if k in vms {
        err := Some(AlreadyExistsText);
      } else {
        err := None;
        vms := vms[k := vm];
      }
    }

    method DeleteVm(k: Key) returns (err: Option<string>)
      modifies this`vms
      ensures err == (if k in old(vms) then None else Some(NotFoundText))
      ensures vms == old(vms) - {k}
    {
      if k in vms {
        err := None;
        vms := vms - {k};
      } else {
        err := Some(NotFoundText);
      }
    }

    method CreateKubridVm(k: Key, vm: KubridVm) returns (err: Option<string>)
      modifies this`kubridVms
      ensures err == (if k in old(kubridVms) then Some(AlreadyExistsText) else None)
      ensures kubridVms == if k in old(kubridVms) then old(kubridVms) else old(kubridVms)[k := vm]
    {
      if k in kubridVms {
        err := Some(AlreadyExistsText);
      } else {
        err := None;
        kubridVms := kubridVms[k := vm];
      }
    }

    method CreateDataVolume(k: Key, dv: DataVolume) returns (err: Option<string>)
      modifies this`dataVolumes
      ensures err == (if k in old(dataVolumes) then Some(AlreadyExistsText) else None)
      ensures dataVolumes == if k in old(dataVolumes) then old(dataVolumes) else old(dataVolumes)[k := dv]
    {
      if k in dataVolumes {
        err := Some(AlreadyExistsText);
      } else {
        err := None;
        dataVolumes := dataVolumes[k := dv];
      }
    }

    method CreateService(k: Key, s: Service) returns (err: Option<string>)
      modifies this`services
      ensures err == (if k in old(services) then Some(AlreadyExistsText) else None)
      ensures services == if k in old(services) then old(services) else old(services)[k := s]
    {
      if k in services {
        err := Some(AlreadyExistsText);
      } else {
        err := None;
        services := services[k := s];
      }
    }

    method DeleteService(k: Key) returns (err: Option<string>)
      modifies this`services
      ensures err == (if k in old(services) then None else Some(NotFoundText))
      ensures services == old(services) - {k}
    {
      if k in services {
        err := None;
        services := services - {k};
      } else {
        err := Some(NotFoundText);
      }
    }

    method CreateIpClaim(k: Key, c: IpClaim) returns (err: Option<string>)
      modifies this`ipClaims
      ensures err == (if k in old(ipClaims) then Some(AlreadyExistsText) else None)
      ensures ipClaims == if k in old(ipClaims) then old(ipClaims) else old(ipClaims)[k := c]
    {
      if k in ipClaims {
        err := Some(AlreadyExistsText);
      } else {
        err := None;
        ipClaims := ipClaims[k := c];
      }
    }

    /** Update replaces an existing object; it fails when there is none. */
    method UpdateIpClaim(k: Key, c: IpClaim) returns (err: Option<string>)
      modifies this`ipClaims
      ensures err == (if k in old(ipClaims) then None else Some(NotFoundText))
      ensures ipClaims == if k in old(ipClaims) then old(ipClaims)[k := c] else old(ipClaims)
    {
      if k in ipClaims {
        err := None;
        ipClaims := ipClaims[k := c];
      } else {
        err := Some(NotFoundText);
      }
    }
  }

  /** The event recorder: an append-only log. */
  class Recorder {
    var events: seq<Event>

    constructor ()
      ensures events == []
    {
      events := [];
    }

    method Record(reason: string, subject: string)
      modifies this
      ensures events == old(events) + [Event(reason, subject)]
    {
      events := events + [Event(reason, subject)];
    }
  }
}
