/**
 * The distributed resource store, seen from one host: for every host, the resources that host
 * currently exports. Replication and consensus are not modelled; either call may fail.
 */
module Etcd {
  import opened Resources

  class Store {
    var data: map<string, seq<Resource>>

    /** Replaces everything hostname exports by rs; on failure nothing is written. */
    method SetResources(hostname: string, rs: seq<Resource>) returns (ok: bool)
      modifies this
      ensures ok ==> data == old(data)[hostname := rs]
      ensures !ok ==> data == old(data)
    {
      ok :| true;
      if ok {
        data := data[hostname := rs];
      }
    }

    /** A read selects a host when the host filter is empty or names it, and a kind it names. */
    static predicate Selected(hostFilter: seq<string>, kindFilter: seq<string>, host: string, r: Resource) {
      (hostFilter == [] || host in hostFilter) && r.kind in kindFilter
    }

    /**
     * One read across the selected hosts: exactly the stored resources of the selected hosts
     * whose kind is in the kind filter. On failure nothing is returned.
     */
    method GetResources(hostFilter: seq<string>, kindFilter: seq<string>) returns (ok: bool, rs: seq<Resource>)
      ensures !ok ==> rs == []
      ensures ok ==> forall r :: r in rs <==>
        exists h :: h in data && r in data[h] && Selected(hostFilter, kindFilter, h, r)
    {
      rs := [];
      ok :| true;
      if !ok {
        return;
      }
      var pending := data.Keys;
      while pending != {}
        invariant pending <= data.Keys
        invariant forall r :: r in rs <==>
          exists h :: h in data && h !in pending && r in data[h] && Selected(hostFilter, kindFilter, h, r)
        decreases pending
      {
        var host :| host in pending;
        var stored := data[host];
        var j := 0;
        while j < |stored|
          invariant 0 <= j <= |stored|
          invariant forall r :: r in rs <==>
            (exists h :: h in data && h !in pending && r in data[h] && Selected(hostFilter, kindFilter, h, r))
            || (r in stored[..j] && Selected(hostFilter, kindFilter, host, r))
        {
          if Selected(hostFilter, kindFilter, host, stored[j]) {
            rs := rs + [stored[j]];
          }
          assert stored[..j + 1] == stored[..j] + [stored[j]];
          j := j + 1;
        }
        assert stored[..j] == stored;
        pending := pending - {host};
      }
    }
  }
}
