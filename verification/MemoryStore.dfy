/** The in-memory store: cloned records by ID, and leases by ID. */
module MemoryStore {
  import opened Values
  import opened Records
  import opened Executions
  import opened Leases

  /** Distinct executions under distinct IDs, sharing nothing. */
  ghost predicate Separate(list: seq<Execution>) {
    forall j, k :: 0 <= j < k < |list| ==>
      list[j] != list[k] && list[j].steps != list[k].steps && list[j].id != list[k].id
  }

  lemma SeparateSnoc(list: seq<Execution>, e: Execution)
    requires Separate(list) && forall k :: 0 <= k < |list| ==> list[k].steps != e.steps && list[k].id != e.id
    ensures Separate(list + [e])
  {
  }

  ghost predicate Includes(list: seq<Execution>, id: string) {
    exists k :: 0 <= k < |list| && list[k].id == id
  }

  lemma IncludesSnoc(list: seq<Execution>, e: Execution)
    ensures forall id :: Includes(list + [e], id) <==> Includes(list, id) || e.id == id
  {
    forall id | Includes(list, id) || e.id == id
      ensures Includes(list + [e], id)
    {
      var more := list + [e];
      assert more[|list|] == e && forall k :: 0 <= k < |list| ==> more[k] == list[k];
    }
  }

  class Store {
    var data: map<string, Execution>
    var leases: map<string, Lease>
    /** The stored records as values. */
    ghost var contents: map<string, Record>
    /** The stored objects, none of them shared with any caller. */
    ghost var records: set<Execution>
    ghost var arrays: set<array<Step>>

    constructor ()
      ensures Valid() && contents == map[] && leases == map[] && records == {} && arrays == {}
    {
      data := map[];
      leases := map[];
      contents := map[];
      records, arrays := {}, {};
    }

    /** Every execution is stored under its own ID, and `contents` is what is stored. */
    ghost predicate Valid()
      reads this`data, this`contents, this`records, this`arrays, records, arrays
    {
      && contents.Keys == data.Keys
      && forall id :: id in data ==> Holds(id)
    }

    ghost predicate Holds(id: string)
      requires id in data && id in contents
      reads this`data, this`contents, this`records, this`arrays, records, arrays
    {
      && data[id] in records && data[id].steps in arrays
      && id != "" && data[id].id == id && data[id].Snapshot() == contents[id]
    }

    /** A live execution that shares nothing with what is stored. */
    ghost predicate Apart(exec: Execution)
      reads this`records, this`arrays
    {
      exec !in records && exec.steps !in arrays
    }

    ghost function LeaseOn(id: string): Option<Lease>
      reads this`leases
    {
      if id in leases then Some(leases[id]) else None
    }

    method Save(exec: Execution?) returns (err: Option<Error>)
      requires Valid()
      modifies this`data, this`contents, this`records, this`arrays
      ensures Valid() && fresh(records - old(records)) && fresh(arrays - old(arrays))
      ensures err.None? <==> exec != null && exec.id != ""
      ensures err.None? ==> contents == old(contents)[exec.id := exec.Snapshot()]
      ensures err.Some? ==> err.value.StoreFault? && data == old(data) && contents == old(contents)
    {
      if exec == null {
        return Some(StoreFault(""));
      }
      if exec.id == "" {
        return Some(StoreFault(exec.id));
      }
      var cp := exec.Clone();
      hide Holds;
      Insert(cp);
      err := None;
    }

    /** Stores an execution that nobody else has. */
    method Insert(cp: Execution)
      requires Valid() && Apart(cp) && cp.id != ""
      modifies this`data, this`contents, this`records, this`arrays
      ensures Valid() && records == old(records) + {cp} && arrays == old(arrays) + {cp.steps}
      ensures contents == old(contents)[cp.id := cp.Snapshot()]
    {
      data, contents := data[cp.id := cp], contents[cp.id := cp.Snapshot()];
      records, arrays := records + {cp}, arrays + {cp.steps};
    }

    method Get(id: string) returns (exec: Option<Execution>)
      requires Valid()
      ensures exec.None? <==> id !in contents
      ensures exec.Some? ==> fresh(exec.value) && fresh(exec.value.steps) && exec.value.Snapshot() == contents[id]
    {
      if id !in data {
        return None;
      }
      var cp := data[id].Clone();
      exec := Some(cp);
    }

    /** An up-to-date copy of a record that is not terminal. */
    ghost predicate IsIncomplete(exec: Execution)
      reads this`contents, exec, exec.steps
    {
      exec.id in contents && exec.Snapshot() == contents[exec.id] && !exec.status.IsTerminal()
    }

    method CopyIncomplete(id: string) returns (exec: Option<Execution>)
      requires Valid() && id in data
      ensures id in contents && (exec.None? <==> contents[id].status.IsTerminal())
      ensures exec.Some? ==>
                && fresh(exec.value) && fresh(exec.value.steps)
                && IsIncomplete(exec.value) && exec.value.id == id
    {
      assert Holds(id);
      if data[id].status.IsTerminal() {
        return None;
      }
      var cp := data[id].Clone();
      exec := Some(cp);
    }

    /** All incomplete records but those under `rest` are listed, each once. */
    ghost predicate Listing(list: seq<Execution>, rest: set<string>)
      reads this`contents, list, set e | e in list :: e.steps
    {
      && (forall k :: 0 <= k < |list| ==> IsIncomplete(list[k]) && list[k].id !in rest)
      && Separate(list)
      && (forall id :: id in contents && id !in rest && !contents[id].status.IsTerminal() ==> Includes(list, id))
    }

    method ListNext(list: seq<Execution>, id: string, rest: set<string>) returns (more: seq<Execution>)
      requires Valid() && id in data && id !in rest && Listing(list, rest + {id})
      ensures Listing(more, rest)
      ensures forall e :: e in more ==> e in list || (fresh(e) && fresh(e.steps))
    {
      hide Valid, Listing;
      var cp := CopyIncomplete(id);
      if cp.None? {
        NothingToList(list, id, rest);
        more := list;
      } else {
        ListingSnoc(list, rest, cp.value);
        more := list + [cp.value];
      }
    }

    lemma NothingToList(list: seq<Execution>, id: string, rest: set<string>)
      requires Listing(list, rest + {id}) && id in contents && contents[id].status.IsTerminal()
      ensures Listing(list, rest)
    {
      hide Separate, IsIncomplete, Includes;
    }

    lemma ListingSnoc(list: seq<Execution>, rest: set<string>, e: Execution)
      requires Listing(list, rest + {e.id}) && e.id !in rest && IsIncomplete(e)
      requires forall k :: 0 <= k < |list| ==> list[k].steps != e.steps
      ensures Listing(list + [e], rest)
    {
      hide IsIncomplete;
      SeparateSnoc(list, e);
      IncludesSnoc(list, e);
    }

    /** Fresh copies of all records that are not terminal, each once, in no particular order. */
    method ListIncomplete() returns (list: seq<Execution>)
      requires Valid()
      ensures forall e :: e in list ==> fresh(e) && fresh(e.steps)
      ensures Listing(list, {})
    {
      list := [];
      var rest := data.Keys;
      assert Listing(list, rest);
      hide Valid, Listing;
      while rest != {}
        invariant rest <= data.Keys
        invariant forall e :: e in list ==> fresh(e) && fresh(e.steps)
        invariant Listing(list, rest)
        decreases rest
      {
        var id :| id in rest;
        assert rest - {id} + {id} == rest;
        rest := rest - {id};
        list := ListNext(list, id, rest);
      }
    }

    /** When every record is terminal there is nothing to list. */
    lemma NothingIncomplete(list: seq<Execution>)
      requires Listing(list, {}) && forall id :: id in contents ==> contents[id].status.IsTerminal()
      ensures list == []
    {
      assert |list| > 0 ==> IsIncomplete(list[0]);
    }

    /** Grants or renews the lease, for `ttl` from now, unless somebody else's has not expired yet. */
    method Acquire(id: string, owner: string, now: Time, ttl: int) returns (ok: bool)
      modifies this`leases
      ensures ok <==> old(LeaseOn(id)).None? || old(LeaseOn(id)).value.owner == owner
                      || old(LeaseOn(id)).value.expires <= now
      ensures ok ==> LeaseOn(id) == Some(Lease(owner, now + ttl)) && leases - {id} == old(leases) - {id}
      ensures !ok ==> leases == old(leases)
      ensures ok == !KeepsOut(old(LeaseOn(id)), owner, now)
      ensures LeaseOn(id) == Acquired(old(LeaseOn(id)), owner, now, ttl)
    {
      if id in leases && leases[id].owner != owner && now < leases[id].expires {
        return false;
      }
      leases := leases[id := Lease(owner, now + ttl)];
      return true;
    }

    /** Gives up the owner's own lease; a lease of somebody else stays, expired or not. */
    method Release(id: string, owner: string)
      modifies this`leases
      ensures old(LeaseOn(id)).Some? && old(LeaseOn(id)).value.owner != owner ==> LeaseOn(id) == old(LeaseOn(id))
      ensures old(LeaseOn(id)).Some? && old(LeaseOn(id)).value.owner == owner ==> LeaseOn(id).None?
      ensures old(LeaseOn(id)).None? ==> LeaseOn(id).None?
      ensures LeaseOn(id) == Released(old(LeaseOn(id)), owner)
      ensures leases - {id} == old(leases) - {id}
    {
      if id in leases && leases[id].owner == owner {
        leases := leases - {id};
      }
    }
  }
}
