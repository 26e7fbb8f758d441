/**
 * The part of the router the route store drives: the table of registered
 * top-level records, `addRoute` (which hands back a removal callback, here
 * the record's id), `removeRoute` by name and `hasRoute`.
 */
module RouterRecords {
  import opened Wrappers
  import opened Seqs
  import opened RouteTypes

  /** A registered record; `id` stands for the removal callback `addRoute` returned. */
  datatype Record = Record(id: nat, route: Route)

  /** Records that an added route of this name does not replace: all of them when it has no name. */
  function NameOther(name: Option<string>): Record -> bool {
    (x: Record) => name.None? || x.route.name != name
  }

  function IdOther(id: nat): Record -> bool {
    (x: Record) => x.id != id
  }

  /** `addRoute`: a record of the same name is removed first, the new one goes last. */
  function Registered(records: seq<Record>, route: Route, id: nat): seq<Record> {
    Filter(records, NameOther(route.name)) + [Record(id, route)]
  }

  /** The routes of a forest added one by one, with consecutive ids from `next`. */
  function RegisterAll(records: seq<Record>, rs: seq<Route>, next: nat): seq<Record> {
    if rs == [] then records
    else Registered(RegisterAll(records, rs[..|rs| - 1], next), rs[|rs| - 1], next + |rs| - 1)
  }

  /** The removal callbacks in `ids` run in order. */
  function RemovedAll(records: seq<Record>, ids: seq<nat>): seq<Record> {
    if ids == [] then records else Filter(RemovedAll(records, ids[..|ids| - 1]), IdOther(ids[|ids| - 1]))
  }

  /** The ids `start`, `start + 1`, ... of `n` consecutive registrations. */
  function IdRange(start: nat, n: nat): (r: seq<nat>)
    ensures |r| == n && forall i :: 0 <= i < n ==> r[i] == start + i
  {
    seq(n, i requires 0 <= i < n => start + i)
  }

  predicate IdsBelow(records: seq<Record>, bound: nat) {
    forall i :: 0 <= i < |records| ==> records[i].id < bound
  }

  lemma FilterIdsBelow(records: seq<Record>, bound: nat, p: Record -> bool)
    requires IdsBelow(records, bound)
    ensures IdsBelow(Filter(records, p), bound)
  {
    var f := Filter(records, p);
    forall i | 0 <= i < |f| ensures f[i].id < bound {
      FilterMembers(records, p, f[i]);
    }
  }

  /**
   * Adding a route keeps every other record in order, drops exactly the
   * records sharing its name (none when it is unnamed), and ends with the
   * new record; afterwards the name resolves to that one record only.
   */
  lemma RegisteredSpec(records: seq<Record>, route: Route, id: nat, x: Record)
    ensures Registered(records, route, id)[|Registered(records, route, id)| - 1] == Record(id, route)
    ensures x in Registered(records, route, id) <==>
              x == Record(id, route) || (x in records && (route.name.None? || x.route.name != route.name))
    ensures route.name.Some? ==>
              forall i :: 0 <= i < |Registered(records, route, id)| - 1 ==>
                Registered(records, route, id)[i].route.name != route.name
  {
    var f := Filter(records, NameOther(route.name));
    FilterMembers(records, NameOther(route.name), x);
    if route.name.Some? {
      forall i | 0 <= i < |f| ensures f[i].route.name != route.name {
        FilterMembers(records, NameOther(route.name), f[i]);
      }
    }
  }

  /** After the callbacks in `ids` run, exactly the records with other ids are left. */
  lemma {:induction false} RemovedAllSpec(records: seq<Record>, ids: seq<nat>, x: Record)
    ensures x in RemovedAll(records, ids) <==> x in records && x.id !in ids
  {
    if ids != [] {
      var init := ids[..|ids| - 1];
      RemovedAllSpec(records, init, x);
      FilterMembers(RemovedAll(records, init), IdOther(ids[|ids| - 1]), x);
      assert ids == init + [ids[|ids| - 1]];
    }
  }

  lemma {:induction false} RemovedAllIdsBelow(records: seq<Record>, ids: seq<nat>, bound: nat)
    requires IdsBelow(records, bound)
    ensures IdsBelow(RemovedAll(records, ids), bound)
  {
    if ids != [] {
      RemovedAllIdsBelow(records, ids[..|ids| - 1], bound);
      FilterIdsBelow(RemovedAll(records, ids[..|ids| - 1]), bound, IdOther(ids[|ids| - 1]));
    }
  }

  /**
   * Registering a forest leaves the route at position `i` in the table
   * under id `next + i` unless a later route of the forest has the same name.
   */
  lemma {:induction false} RegisterAllHolds(records: seq<Record>, rs: seq<Route>, next: nat, i: nat)
    requires i < |rs|
    requires rs[i].name.None? || forall j :: i < j < |rs| ==> rs[j].name != rs[i].name
    ensures Record(next + i, rs[i]) in RegisterAll(records, rs, next)
  {
    var init, last := rs[..|rs| - 1], rs[|rs| - 1];
    var before := RegisterAll(records, init, next);
    RegisteredSpec(before, last, next + |rs| - 1, Record(next + i, rs[i]));
    if i < |rs| - 1 {
      assert init[i] == rs[i];
      RegisterAllHolds(records, init, next, i);
    }
  }

  class RouterTable {
    var records: seq<Record>
    var nextId: nat

    /** Every id handed out so far is below `nextId`, so a fresh one names no record. */
    predicate Valid()
      reads this
    {
      IdsBelow(records, nextId)
    }

    constructor()
      ensures records == [] && nextId == 0 && Valid()
    {
      records := [];
      nextId := 0;
    }

    /** `hasRoute` */
    predicate HasRoute(name: string)
      reads this
    {
      exists i :: 0 <= i < |records| && records[i].route.name == Some(name)
    }

    /** `addRoute` */
    method AddRoute(route: Route) returns (id: nat)
      requires Valid()
      modifies this
      ensures Valid()
      ensures id == old(nextId) && nextId == old(nextId) + 1
      ensures records == Registered(old(records), route, id)
      ensures forall i :: 0 <= i < |old(records)| ==> old(records)[i].id != id
    {
      id := nextId;
      FilterIdsBelow(records, nextId, NameOther(route.name));
      records := Filter(records, NameOther(route.name)) + [Record(id, route)];
      nextId := nextId + 1;
    }

    /** The callback `addRoute` returned: the record with that id leaves the table. */
    method RemoveById(id: nat)
      requires Valid()
      modifies this
      ensures Valid()
      ensures records == Filter(old(records), IdOther(id)) && nextId == old(nextId)
    {
      FilterIdsBelow(records, nextId, IdOther(id));
      records := Filter(records, IdOther(id));
    }

    /** `removeRoute` by name */
    method RemoveRoute(name: string)
      requires Valid()
      modifies this
      ensures Valid()
      ensures records == Filter(old(records), NameOther(Some(name))) && nextId == old(nextId)
    {
      FilterIdsBelow(records, nextId, NameOther(Some(name)));
      records := Filter(records, NameOther(Some(name)));
    }
  }
}
