/** Host leases: at most one record per host name. */
module Leases {
  import opened Wrappers

  datatype LeaseMode = Exclusive | Shared

  datatype Lease = Lease(host: string, workspaceID: string, mode: LeaseMode)

  type LeaseMap = map<string, Lease>

  predicate HeldBy(leases: LeaseMap, host: string, workspaceID: string) {
    host in leases && leases[host].workspaceID == workspaceID
  }

  /** Only the holder's own release has an effect. */
  function Released(leases: LeaseMap, host: string, workspaceID: string): LeaseMap {
    if HeldBy(leases, host, workspaceID) then leases - {host} else leases
  }

  class LeaseManager {
    var leases: LeaseMap

    constructor ()
      ensures leases == map[]
    {
      leases := map[];
    }

    /** Exclusive mode refuses a taken host, even to its holder; shared mode overwrites. */
    method Acquire(host: string, workspaceID: string, mode: LeaseMode) returns (result: Result<Lease>)
      modifies this
      ensures result.Err? <==> mode == Exclusive && host in old(leases)
      ensures result.Err? ==> leases == old(leases)
      ensures result.Ok? ==>
        result.value == Lease(host, workspaceID, mode) && leases == old(leases)[host := result.value]
    {
      if mode == Exclusive && host in leases {
        return Err("Host is already leased");
      }
      var lease := Lease(host, workspaceID, mode);
      leases := leases[host := lease];
      return Ok(lease);
    }

    method Restore(host: string, workspaceID: string, mode: LeaseMode)
      modifies this
      ensures leases == old(leases)[host := Lease(host, workspaceID, mode)]
    {
      leases := leases[host := Lease(host, workspaceID, mode)];
    }

    method Clear()
      modifies this
      ensures leases == map[]
    {
      leases := map[];
    }

    method Release(host: string, workspaceID: string)
      modifies this
      ensures leases == Released(old(leases), host, workspaceID)
      ensures
        if host in old(leases) && old(leases)[host].workspaceID == workspaceID then leases == old(leases) - {host}
        else leases == old(leases)
    {
      if host !in leases {
        return;
      }
      if leases[host].workspaceID != workspaceID {
        return;
      }
      leases := leases - {host};
    }
  }
}
