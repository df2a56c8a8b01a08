/**
  The entity resolver: identifiers that occur together on alerts coalesce into entities, and addresses
  are resolved at the time of the event.
*/
module Entities {
  import opened Identities
  import V = IpValidity
  import C = ClusterIds
  import Chains

  type Uid = int

  datatype Entity = Entity(domain: Domain, ids: set<Ident>, first: int, last: int)

  type Table = map<Uid, Entity>
  type Index = map<Ident, Uid>
  type Addresses = map<string, seq<V.Span>>

  /** The identifiers of one alert, normalised. */
  datatype Mentions = Mentions(host: seq<Ident>, device: V.Option<string>, user: seq<Ident>, source: V.Option<string>)

  ghost predicate OfDomain(ids: seq<Ident>, d: Domain) {
    forall i :: 0 <= i < |ids| ==> Durable(ids[i]) && DomainOf(ids[i].kind) == d
  }

  /** Host identifiers and the process on one side, user identifiers on the other. */
  ghost predicate WellFormed(m: Mentions) {
    && (forall i :: 0 <= i < |m.host| ==> m.host[i].kind in {AgentUid, Hostname, Mac, ProcessGuid})
    && (forall i :: 0 <= i < |m.user| ==> m.user[i].kind in {Upn, Username})
  }

  lemma KindsOfDomains(m: Mentions)
    ensures WellFormed(m) <==> OfDomain(m.host, Host) && OfDomain(m.user, User)
  {
  }

  // ---------------------------------------------------------------------------------------------
  // The invariant
  // ---------------------------------------------------------------------------------------------

  /** The identifier an index entry stands for in its entity. */
  predicate Holds(e: Entity, x: Ident) {
    if x.kind == BareIp then e.domain == Bare && Ident(Ip, x.value) in e.ids else x in e.ids
  }

  /** Every index entry names a live entity that has the identifier. */
  ghost predicate Pointing(entities: Table, index: Index) {
    forall x :: x in index ==> index[x] in entities && Holds(entities[index[x]], x)
  }

  /** Every durable identifier of an entity is indexed to it, and belongs to its domain. */
  ghost predicate Covered(entities: Table, index: Index) {
    forall u :: u in entities ==> OneCovered(entities[u], u, index)
  }

  ghost predicate OneCovered(e: Entity, u: Uid, index: Index) {
    forall x :: x in e.ids ==> x.kind != BareIp && (Durable(x) ==> x in index && index[x] == u && DomainOf(x.kind) == e.domain)
  }

  /** Assignments are sorted by start time and name live entities, never a user's, that have the address. */
  ghost predicate Assigned(entities: Table, ips: Addresses) {
    forall ip :: ip in ips ==> OneAssigned(entities, ip, ips[ip])
  }

  ghost predicate OneAssigned(entities: Table, ip: string, spans: seq<V.Span>) {
    && V.Sorted(spans) && spans != []
    && forall i :: 0 <= i < |spans| ==> AssignedTo(entities, ip, spans[i].uid)
  }

  predicate AssignedTo(entities: Table, ip: string, u: Uid) {
    u in entities && Ident(Ip, ip) in entities[u].ids && entities[u].domain != User
  }

  ghost predicate Numbered(entities: Table, next: int) {
    forall u :: u in entities ==> u < next
  }

  ghost predicate Core(entities: Table, index: Index, ips: Addresses, next: int) {
    Pointing(entities, index) && Covered(entities, index) && Assigned(entities, ips) && Numbered(entities, next)
  }

  function Durables(index: Index): Index {
    map x | x in index && Durable(x) :: index[x]
  }

  // ---------------------------------------------------------------------------------------------
  // What each step does to the tables
  // ---------------------------------------------------------------------------------------------

  function Min(a: int, b: int): int { if a < b then a else b }
  function Max(a: int, b: int): int { if a < b then b else a }

  function Absorb(keep: Entity, gone: Entity): Entity {
    Entity(keep.domain, keep.ids + gone.ids, Min(keep.first, gone.first), Max(keep.last, gone.last))
  }

  /** The fused record: all identifiers, the earliest first and the latest last sighting of the two. */
  predicate FusedFrom(e: Entity, a: Entity, b: Entity) {
    && e.domain == a.domain && e.ids == a.ids + b.ids
    && e.first <= a.first && e.first <= b.first && (e.first == a.first || e.first == b.first)
    && a.last <= e.last && b.last <= e.last && (e.last == a.last || e.last == b.last)
  }

  /**
    What one sighting does: entities not seen are as they were; those seen have been seen by then, no
    earlier than before, and otherwise when some entity known before was.
  */
  ghost predicate Sighted(before: Table, after: Table, seen: set<Uid>, time: int) {
    && (forall u :: u in after && u !in seen ==> u in before && after[u] == before[u])
    && (forall u :: u in seen && u in after ==> SeenBy(before, after[u], u, time))
  }

  ghost predicate SeenBy(before: Table, e: Entity, u: Uid, time: int) {
    && time <= e.last && (u in before ==> before[u].last <= e.last)
    && (e.last == time || exists v :: v in before && before[v].last == e.last)
  }

  lemma SightedTwice(e0: Table, e1: Table, e2: Table, s1: set<Uid>, s2: set<Uid>, time: int)
    requires Sighted(e0, e1, s1, time) && Sighted(e1, e2, s2, time) && forall u :: u in e2 && u in e0 ==> u in e1
    ensures Sighted(e0, e2, s1 + s2, time)
  {
    forall u | u in s1 + s2 && u in e2 ensures SeenBy(e0, e2[u], u, time) {
      if u in s2 {
        assert SeenBy(e1, e2[u], u, time);
        if e2[u].last != time {
          var v :| v in e1 && e1[v].last == e2[u].last;
          assert v in s1 ==> SeenBy(e0, e1[v], v, time);
        }
        assert u in e0 ==> u in e1;
        assert u in e1 && u in s1 ==> SeenBy(e0, e1[u], u, time);
      } else {
        assert SeenBy(e0, e1[u], u, time);
      }
    }
  }

  lemma NewcomersTwice(e0: Table, e1: Table, e2: Table, n0: int, n1: int)
    requires Newcomers(e0, e1, n0) && Newcomers(e1, e2, n1) && n0 <= n1
    ensures Newcomers(e0, e2, n0)
  {
  }

  lemma NoneRevived(e0: Table, e1: Table, e2: Table, n0: int, n1: int)
    requires Numbered(e0, n0) && n0 <= n1 && Newcomers(e1, e2, n1)
    ensures forall u :: u in e2 && u in e0 ==> u in e1
  {
  }

  lemma SeenIsSighted(before: Table, was: Table, after: Table, u: Uid, time: int)
    requires u in was && after == was[u := was[u].(last := Max(was[u].last, time))]
    requires if u in before then was[u].last == before[u].last else was[u].last == time
    requires forall v :: v in was && v != u ==> v in before && was[v] == before[v]
    ensures Sighted(before, after, {u}, time)
  {
    assert SeenBy(before, after[u], u, time);
  }

  /** Only the identifiers of `u` changed. */
  ghost predicate OnlyLabelled(before: Table, after: Table, u: Uid) {
    forall v :: v in after ==> v in before && (if v == u then after[v].last == before[v].last else after[v] == before[v])
  }

  lemma HostIsSighted(before: Table, was: Table, after: Table, u: Uid, time: int)
    requires Sighted(before, was, {u}, time)
    requires OnlyLabelled(was, after, u)
    ensures Sighted(before, after, {u}, time)
  {
    assert u in was ==> SeenBy(before, was[u], u, time);
  }

  lemma NewIsSighted(before: Table, after: Table, u: Uid, time: int)
    requires u !in before && after.Keys == before.Keys + {u} && after[u].last == time && forall v :: v in before ==> after[v] == before[v]
    ensures Sighted(before, after, {u}, time)
  {
    assert SeenBy(before, after[u], u, time);
  }

  lemma NothingSighted(e: Table, time: int)
    ensures Sighted(e, e, {}, time)
  {
  }

  /** The record of several fused ones: last seen when the latest of them was, first seen no later than any. */
  ghost predicate LatestOf(before: Table, e: Entity, found: set<Uid>) {
    && (forall f :: f in found ==> f in before && before[f].last <= e.last && e.first <= before[f].first)
    && exists f :: f in found && f in before && before[f].last == e.last
  }

  lemma LatestMore(before: Table, e: Entity, other: Entity, next: Entity, done: set<Uid>, f: Uid)
    requires LatestOf(before, e, done) && f in before && before[f] == other && (FusedFrom(next, e, other) || FusedFrom(next, other, e))
    ensures LatestOf(before, next, done + {f})
  {
    var g :| g in done && g in before && before[g].last == e.last;
    assert g in done + {f} && f in done + {f};
  }

  lemma LatestIsSeen(before: Table, was: Table, after: Table, found: set<Uid>, u: Uid, ids: set<Ident>, time: int)
    requires u in was && after == was[u := WithIds(was[u], ids, time)] && (u in before ==> u in found)
    requires (found == {} && was[u].last == time) || LatestOf(before, was[u], found)
    requires forall v :: v in was && v != u ==> v in before && was[v] == before[v]
    ensures Sighted(before, after, {u}, time)
  {
    assert SeenBy(before, after[u], u, time);
  }

  /** The older record survives; ties go to the lower number. */
  predicate Survives(entities: Table, keep: Uid, gone: Uid)
    requires keep in entities && gone in entities
  {
    entities[keep].first < entities[gone].first || (entities[keep].first == entities[gone].first && keep < gone)
  }

  lemma RemapOne(index: Index, ids: set<Ident>, x: Ident, u: Uid)
    ensures Remapped(index, ids + {x}, u) == Remapped(index, ids, u)[x := u]
  {
  }

  function RenamedAll(ips: Addresses, gone: Uid, into: Uid): Addresses {
    map ip | ip in ips :: V.Renamed(ips[ip], gone, into)
  }

  function MergedTable(entities: Table, keep: Uid, gone: Uid): Table
    requires keep in entities && gone in entities
  {
    entities[keep := Absorb(entities[keep], entities[gone])] - {gone}
  }

  lemma MergePoints(entities: Table, index: Index, keep: Uid, gone: Uid)
    requires Pointing(entities, index) && Covered(entities, index) && keep in entities && gone in entities && keep != gone
    requires entities[keep].domain == entities[gone].domain != Bare
    ensures var (e, i) := (MergedTable(entities, keep, gone), Remapped(index, entities[gone].ids, keep));
      Pointing(e, i) && Covered(e, i)
  {
    var e, i := MergedTable(entities, keep, gone), Remapped(index, entities[gone].ids, keep);
    forall x | x in i ensures i[x] in e && Holds(e[i[x]], x) {
      if x in index && x !in entities[gone].ids {
        assert Holds(entities[index[x]], x);
      }
    }
    forall u | u in e ensures OneCovered(e[u], u, i) {
      assert OneCovered(entities[u], u, index);
      assert OneCovered(entities[gone], gone, index);
    }
  }

  lemma MergeAssigns(entities: Table, ips: Addresses, keep: Uid, gone: Uid)
    requires Assigned(entities, ips) && keep in entities && gone in entities && keep != gone
    requires entities[keep].domain == entities[gone].domain
    ensures Assigned(MergedTable(entities, keep, gone), RenamedAll(ips, gone, keep))
  {
    var e := MergedTable(entities, keep, gone);
    forall ip | ip in ips ensures OneAssigned(e, ip, V.Renamed(ips[ip], gone, keep)) {
      assert OneAssigned(entities, ip, ips[ip]);
      V.MergingRenamesOwners(ips[ip], gone, keep, 0);
      var spans := V.Renamed(ips[ip], gone, keep);
      forall i | 0 <= i < |spans| ensures AssignedTo(e, ip, spans[i].uid) {
        assert AssignedTo(entities, ip, ips[ip][i].uid);
      }
    }
  }

  /** On durable identifiers a merge hands over exactly what the absorbed entity owned. */
  lemma MergeFuses(entities: Table, index: Index, keep: Uid, gone: Uid)
    requires Pointing(entities, index) && Covered(entities, index) && gone in entities
    ensures Durables(Remapped(index, entities[gone].ids, keep)) == Fused(Durables(index), {gone}, keep)
  {
    assert OneCovered(entities[gone], gone, index);
    assert forall x :: x in index && index[x] == gone && Durable(x) ==> Holds(entities[gone], x);
  }

  lemma FuseMore(owner: Index, found: set<Uid>, u: Uid, other: Uid, keep: Uid, gone: Uid)
    requires u in found && other !in found && ((keep == u && gone == other) || (keep == other && gone == u))
    ensures Fused(Fused(owner, found, u), {gone}, keep) == Fused(owner, found + {other}, keep)
  {
  }

  function WithIds(e: Entity, ids: set<Ident>, time: int): Entity {
    Entity(e.domain, e.ids + ids, Min(e.first, time), Max(e.last, time))
  }

  /** Filing new durable identifiers under an entity that owns all of them already indexed. */
  lemma FilingKeepsCore(entities: Table, index: Index, u: Uid, g: set<Ident>, time: int)
    requires Pointing(entities, index) && Covered(entities, index) && u in entities
    requires forall x :: x in g ==> Durable(x) && DomainOf(x.kind) == entities[u].domain && (x in index ==> index[x] == u)
    ensures var (e, i) := (entities[u := WithIds(entities[u], g, time)], Remapped(index, g, u));
      Pointing(e, i) && Covered(e, i)
  {
    var e, i := entities[u := WithIds(entities[u], g, time)], Remapped(index, g, u);
    forall x | x in i ensures i[x] in e && Holds(e[i[x]], x) {
      if x in index && x !in g {
        assert Holds(entities[index[x]], x);
      }
    }
    forall v | v in e ensures OneCovered(e[v], v, i) {
      assert OneCovered(entities[v], v, index);
    }
  }

  /** Entities only gained identifiers. */
  ghost predicate Enriched(before: Table, after: Table) {
    forall u :: u in before ==> u in after && after[u].domain == before[u].domain && before[u].ids <= after[u].ids
  }

  lemma EnrichedAssigned(before: Table, after: Table, ips: Addresses)
    requires Assigned(before, ips) && Enriched(before, after)
    ensures Assigned(after, ips)
  {
    forall ip | ip in ips ensures OneAssigned(after, ip, ips[ip]) {
      assert OneAssigned(before, ip, ips[ip]);
      forall i | 0 <= i < |ips[ip]| ensures AssignedTo(after, ip, ips[ip][i].uid) {
        assert AssignedTo(before, ip, ips[ip][i].uid);
      }
    }
  }

  // ---------------------------------------------------------------------------------------------
  // Ownership of addresses over time
  // ---------------------------------------------------------------------------------------------

  function OwnerAt(ips: Addresses, ip: string, t: int): V.Option<Uid> {
    if ip in ips then V.Owner(ips[ip], t) else V.None
  }

  /** Owners at times before `time` are as they were, unless they were absorbed by another entity. */
  ghost predicate PastKept(before: Addresses, entities: Table, after: Addresses, time: int) {
    forall ip, t | t < time :: SameOwner(OwnerAt(before, ip, t), OwnerAt(after, ip, t), entities)
  }

  /** Owners are as they were at all times, unless they were absorbed by another entity. */
  ghost predicate OwnersKept(before: Addresses, entities: Table, after: Addresses) {
    forall ip, t: int :: SameOwner(OwnerAt(before, ip, t), OwnerAt(after, ip, t), entities)
  }

  predicate SameOwner(was: V.Option<Uid>, now: V.Option<Uid>, entities: Table) {
    (was.None? ==> now.None?) && (was.Some? && was.value in entities ==> now == was) && (was.Some? ==> now.Some?)
  }

  lemma MergeKeepsOwners(entities: Table, ips: Addresses, keep: Uid, gone: Uid, after: Table)
    requires Assigned(entities, ips) && gone !in after
    ensures OwnersKept(ips, after, RenamedAll(ips, gone, keep))
  {
    forall ip, t: int ensures SameOwner(OwnerAt(ips, ip, t), OwnerAt(RenamedAll(ips, gone, keep), ip, t), after) {
      if ip in ips {
        assert OneAssigned(entities, ip, ips[ip]);
        V.MergingRenamesOwners(ips[ip], gone, keep, t);
      }
    }
  }

  lemma OwnerIsAssigned(entities: Table, ips: Addresses, ip: string, t: int)
    requires Assigned(entities, ips)
    ensures OwnerAt(ips, ip, t).Some? ==> AssignedTo(entities, ip, OwnerAt(ips, ip, t).value)
  {
    if ip in ips {
      assert OneAssigned(entities, ip, ips[ip]);
      var n := V.CountStarted(ips[ip], t);
      V.OwnerIsLastStarted(ips[ip], t, n);
    }
  }

  /** No address is ever assigned to a user, so merging users renames nothing. */
  lemma UsersOwnNoAddress(entities: Table, ips: Addresses, keep: Uid, gone: Uid)
    requires Assigned(entities, ips) && gone in entities && entities[gone].domain == User
    ensures RenamedAll(ips, gone, keep) == ips
  {
    forall ip | ip in ips ensures V.Renamed(ips[ip], gone, keep) == ips[ip] {
      assert OneAssigned(entities, ip, ips[ip]);
      forall i | 0 <= i < |ips[ip]| ensures V.Renamed(ips[ip], gone, keep)[i] == ips[ip][i] {
        assert AssignedTo(entities, ip, ips[ip][i].uid);
      }
    }
  }

  // ---------------------------------------------------------------------------------------------
  // The resolver
  // ---------------------------------------------------------------------------------------------

  class EntityResolver {
    var entities: Table
    var index: Index
    var ips: Addresses
    var next: nat
    /** What alerts tied together, as far as their entities are still known. */
    ghost var groups: set<Group>

    ghost predicate CoreValid()
      reads this
    {
      Core(entities, index, ips, next)
    }

    ghost predicate Valid()
      reads this
    {
      CoreValid() && Faithful(groups, Durables(index))
    }

    constructor ()
      ensures Valid() && entities == map[] && groups == {}
    {
      entities, index, ips, next := map[], map[], map[], 1;
      groups := {};
    }

    method NewEntity(domain: Domain, time: int) returns (u: Uid)
      requires CoreValid()
      modifies this`entities, this`next
      ensures CoreValid() && u == old(next) && next == u + 1 && u !in old(entities)
      ensures entities == old(entities)[u := Entity(domain, {}, time, time)]
    {
      u := next;
      next := next + 1;
      entities := entities[u := Entity(domain, {}, time, time)];
      assert Enriched(old(entities), entities);
      EnrichedAssigned(old(entities), entities, ips);
      hide Assigned;
      assert OneCovered(entities[u], u, index);
      assert forall v :: v in old(entities) ==> OneCovered(old(entities)[v], v, index);
    }

    /** Point the given identifiers at an entity. */
    method Reindex(ids: set<Ident>, u: Uid)
      modifies this`index
      ensures index == Remapped(old(index), ids, u)
    {
      var left := ids;
      while left != {}
        invariant left <= ids && index == Remapped(old(index), ids - left, u)
        decreases |left|
      {
        hide Remapped;
        var x :| x in left;
        assert ids - left == ids - (left - {x}) - {x};
        left := left - {x};
        RemapOne(old(index), ids - left - {x}, x, u);
        index := index[x := u];
        assert ids - left == (ids - left - {x}) + {x};
      }
      assert ids - left == ids;
    }

    /** Hand all assignments of `gone` to `keep`. */
    method Reassign(gone: Uid, keep: Uid)
      modifies this`ips
      ensures ips == RenamedAll(old(ips), gone, keep)
    {
      var left := ips.Keys;
      while left != {}
        invariant left <= ips.Keys == old(ips).Keys
        invariant forall ip :: ip in ips ==> ips[ip] == if ip in left then old(ips)[ip] else V.Renamed(old(ips)[ip], gone, keep)
        decreases |left|
      {
        var ip :| ip in left;
        left := left - {ip};
        ips := ips[ip := V.Renamed(ips[ip], gone, keep)];
      }
    }

    /** Fuse two records of the same real entity. */
    method Merge(a: Uid, b: Uid) returns (keep: Uid)
      requires CoreValid() && a in entities && b in entities && entities[a].domain == entities[b].domain != Bare
      modifies this`entities, this`index, this`ips
      ensures CoreValid()
      ensures a == b ==> keep == a && entities == old(entities) && index == old(index) && ips == old(ips)
      ensures a != b ==>
        && keep == (if Survives(old(entities), b, a) then b else a)
        && var gone := a + b - keep;
        && entities == MergedTable(old(entities), keep, gone)
        && keep in entities && gone !in entities && FusedFrom(entities[keep], old(entities)[a], old(entities)[b])
        && index == Remapped(old(index), old(entities)[gone].ids, keep)
        && ips == RenamedAll(old(ips), gone, keep)
    {
      keep := a;
      if a == b {
        return;
      }
      var gone := b;
      if entities[b].first < entities[a].first || (entities[b].first == entities[a].first && b < a) {
        keep, gone := b, a;
      }
      MergePoints(entities, index, keep, gone);
      MergeAssigns(entities, ips, keep, gone);
      hide Pointing, Covered, Assigned, MergedTable;
      ghost var was := entities;
      Reindex(entities[gone].ids, keep);
      Reassign(gone, keep);
      entities := entities[keep := Absorb(entities[keep], entities[gone])] - {gone};
      assert entities == MergedTable(was, keep, gone);
      assert Numbered(entities, next);
    }

    /** The entities that already own some of the identifiers, each once, in order of appearance. */
    method FindOwners(ids: seq<Ident>) returns (found: seq<Uid>)
      requires CoreValid() && forall i :: 0 <= i < |ids| ==> Durable(ids[i])
      ensures OwnersOf(Durables(index), (set x | x in ids), (set f | f in found))
      ensures forall i, j :: 0 <= i < j < |found| ==> found[i] != found[j]
      ensures forall f :: f in found ==> exists i :: 0 <= i < |ids| && ids[i] in index && index[ids[i]] == f
    {
      found := [];
      for k := 0 to |ids|
        invariant forall i :: 0 <= i < k && ids[i] in index ==> index[ids[i]] in found
        invariant forall f :: f in found ==> exists i :: 0 <= i < |ids| && ids[i] in index && index[ids[i]] == f
        invariant forall i, j :: 0 <= i < j < |found| ==> found[i] != found[j]
      {
        if ids[k] in index && index[ids[k]] !in found {
          found := found + [index[ids[k]]];
        }
      }
      forall f | f in found ensures exists x :: x in (set y | y in ids) && x in Durables(index) && Durables(index)[x] == f {
        var i :| 0 <= i < |ids| && ids[i] in index && index[ids[i]] == f;
        var x := ids[i];
        assert x in (set y | y in ids) && x in Durables(index) && Durables(index)[x] == f;
      }
    }

    /** Fuse the given entities into one. */
    method MergeAll(found: seq<Uid>, d: Domain) returns (u: Uid)
      requires CoreValid() && found != [] && d != Bare
      requires forall f :: f in found ==> f in entities && entities[f].domain == d
      requires forall i, j :: 0 <= i < j < |found| ==> found[i] != found[j]
      modifies this`entities, this`index, this`ips
      ensures CoreValid() && u in found && u in entities && entities[u].domain == d
      ensures Durables(index) == Fused(Durables(old(index)), (set f | f in found), u)
      ensures Elsewhere(old(entities), entities, (set f | f in found)) && SameBare(old(index), index)
      ensures OwnersKept(old(ips), entities, ips) && (d == User ==> ips == old(ips))
      ensures LatestOf(old(entities), entities[u], (set f | f in found)) && OnlyFused(old(entities), entities, (set f | f in found), u)
    {
      hide Pointing, Covered, Assigned, OwnersKept, SameBare, Elsewhere, LatestOf, OnlyFused;
      u := found[0];
      LatestAlone(entities, u);
      ghost var done := {u};
      NothingMerged(entities, index, ips, u);
      for k := 1 to |found|
        invariant CoreValid() && u in done && u in entities && entities[u].domain == d
        invariant done == (set i | 0 <= i < k :: found[i])
        invariant forall i :: k <= i < |found| ==> found[i] in entities && entities[found[i]].domain == d && found[i] !in done
        invariant Durables(index) == Fused(Durables(old(index)), done, u)
        invariant Elsewhere(old(entities), entities, done) && SameBare(old(index), index)
        invariant OwnersKept(old(ips), entities, ips) && (d == User ==> ips == old(ips))
        invariant LatestOf(old(entities), entities[u], done) && OnlyFused(old(entities), entities, done, u)
      {
        ghost var was: Table, wasIndex: Index, wasIps: Addresses := entities, index, ips;
        var other := found[k];
        var keep := Merge(u, other);
        ghost var gone := u + other - keep;
        MergeAlso(old(entities), old(index), was, wasIndex, done, u, other, keep, gone);
        MergeOwners(was, old(ips), wasIps, entities, keep, gone, d);
        UntouchedYet(old(entities), was, done, u, other);
        LatestMore(old(entities), was[u], was[other], entities[keep], done, other);
        OnlyFusedMore(old(entities), was, entities, done, u, other, keep, gone);
        u := keep;
        done := done + {other};
      }
      assert done == (set f | f in found);
    }

    /** One entity for all owners of the given identifiers: theirs fused, or a new one. */
    method Gather(d: Domain, ids: seq<Ident>, time: int) returns (u: Uid, ghost found: set<Uid>)
      requires CoreValid() && OfDomain(ids, d) && d != Bare && ids != []
      modifies this`entities, this`index, this`ips, this`next
      ensures CoreValid() && u in entities && entities[u].domain == d && next >= old(next)
      ensures OwnersOf(Durables(old(index)), (set x | x in ids), found)
      ensures u in found || (found == {} && u !in Durables(old(index)).Values)
      ensures Durables(index) == Fused(Durables(old(index)), found, u)
      ensures OtherDomains(old(entities), entities, d) && SameBare(old(index), index)
      ensures OwnersKept(old(ips), entities, ips) && (d == User ==> ips == old(ips))
      ensures Newcomers(old(entities), entities, old(next))
      ensures u in old(entities) ==> u in found && entities[u].first <= old(entities)[u].first
      ensures (found == {} && entities[u].last == time) || LatestOf(old(entities), entities[u], found)
      ensures forall v :: v in entities && v != u ==> v in old(entities) && entities[v] == old(entities)[v]
    {
      var owners := FindOwners(ids);
      OwnersHaveDomain(entities, index, ids, owners, d);
      found := set f | f in owners;
      hide Pointing, Covered, Assigned, OwnersKept, SameBare, Fused, OwnersOf;
      if owners != [] {
        u := MergeAll(owners, d);
        assert u in found;
        ElsewhereIsOtherDomains(old(entities), entities, found, d);
      } else {
        u := NewEntity(d, time);
        NothingFused(old(entities), index, u);
        NothingMerged(entities, index, ips, u);
        MoreKept(ips, old(entities), entities);
      }
    }

    /** File the identifiers under the entity that owns all of them that are known. */
    method FileIds(ids: seq<Ident>, u: Uid, time: int)
      requires CoreValid() && u in entities && OfDomain(ids, entities[u].domain) && entities[u].domain != Bare
      requires forall i :: 0 <= i < |ids| && ids[i] in index ==> index[ids[i]] == u
      modifies this`entities, this`index
      ensures CoreValid() && entities == old(entities)[u := WithIds(old(entities)[u], (set x | x in ids), time)]
      ensures index == Remapped(old(index), (set x | x in ids), u)
    {
      FilingKeepsCore(entities, index, u, (set x | x in ids), time);
      EnrichedAssigned(entities, entities[u := WithIds(entities[u], (set x | x in ids), time)], ips);
      hide Pointing, Covered, Assigned;
      Reindex((set x | x in ids), u);
      entities := entities[u := WithIds(entities[u], (set x | x in ids), time)];
    }

    /** Find or create the entity for durable identifiers that occur together. */
    method ResolveDurable(d: Domain, ids: seq<Ident>, time: int) returns (who: V.Option<Uid>)
      requires Valid() && OfDomain(ids, d) && d != Bare
      modifies this
      ensures Valid() && next >= old(next)
      ensures ids == [] ==> who.None? && entities == old(entities) && index == old(index) && groups == old(groups) && next == old(next)
      ensures ids != [] ==>
        && who.Some? && who.value in entities && entities[who.value].domain == d && entities[who.value].first <= time
        && (who.value in old(entities) ==> entities[who.value].first <= old(entities)[who.value].first)
        && groups == old(groups) + {set x | x in ids}
        && (forall i :: 0 <= i < |ids| ==> ids[i] in index && index[ids[i]] == who.value)
      ensures OtherDomains(old(entities), entities, d) && OtherKeys(old(index), index, d)
      ensures OwnersKept(old(ips), entities, ips) && (d == User || ids == [] ==> ips == old(ips))
      ensures Newcomers(old(entities), entities, old(next))
      ensures Sighted(old(entities), entities, if who.Some? then {who.value} else {}, time)
    {
      hide Pointing, Covered, Assigned, OwnersKept, OtherDomains, Faithful, SameBare, OtherKeys, OwnersOf, Fused, Remapped, LatestOf, Sighted;
      if ids == [] {
        NothingChanged(entities, index, ips, d);
        NothingSighted(entities, time);
        return V.None;
      }
      ghost var g, was := (set x | x in ids), Durables(index);
      assert ids[0] in g;
      var u, found := Gather(d, ids, time);
      FusedOwners(was, g, found, u, index);
      ghost var gathered, gatheredIndex := entities, index;
      FileIds(ids, u, time);
      groups := groups + {g};
      FusingIsFaithful(old(groups), was, g, found, u);
      FilingDurables(gatheredIndex, g, u);
      LatestIsSeen(old(entities), gathered, entities, found, u, g, time);
      FilingElsewhere(old(entities), gathered, entities, u, d, old(ips), ips, g, time);
      FoundHaveDomain(old(entities), old(index), g, found, d);
      FilingKeys(old(index), gatheredIndex, ids, u, d, found);
      assert forall i :: 0 <= i < |ids| ==> ids[i] in g;
      RemappedAt(gatheredIndex, g, u);
      who := V.Some(u);
    }

    /** The entity an address belonged to at `time`. */
    method AssignmentAt(ip: string, time: int) returns (owner: V.Option<Uid>)
      requires CoreValid()
      ensures owner == OwnerAt(ips, ip, time)
      ensures owner.Some? ==> AssignedTo(entities, ip, owner.value)
    {
      OwnerIsAssigned(entities, ips, ip, time);
      hide Pointing, Covered, AssignedTo;
      if ip !in ips {
        return V.None;
      }
      var spans := ips[ip];
      assert OneAssigned(entities, ip, spans);
      var n := V.Bisect(spans, time);
      V.OwnerIsLastStarted(spans, time, n);
      owner := if n == 0 then V.None else V.Some(spans[n - 1].uid);
    }

    /** Record that an address was seen belonging to an entity. */
    method ObserveIp(ip: string, u: Uid, time: int)
      requires CoreValid() && u in entities && entities[u].domain != User
      modifies this`entities, this`ips
      ensures CoreValid()
      ensures OwnerAt(old(ips), ip, time) == V.Some(u) ==> entities == old(entities) && ips == old(ips)
      ensures OwnerAt(old(ips), ip, time) != V.Some(u) ==> entities == old(entities)[u := WithIp(old(entities)[u], ip)]
      ensures PastKept(old(ips), entities, ips, time) && OwnerAt(ips, ip, time).Some? && Enriched(old(entities), entities)
      ensures NoLaterTieAt(old(ips), ip, time, u) ==> OwnerAt(ips, ip, time) == V.Some(u)
      ensures TiesOf(old(ips), ip) ==> TiesOf(ips, ip) && (OwnerAt(ips, ip, time) == V.Some(u) <==> NoLaterTieAt(old(ips), ip, time, u))
      ensures forall other, t: int :: other != ip ==> OwnerAt(ips, other, t) == OwnerAt(old(ips), other, t)
    {
      hide Pointing, Covered, Assigned, PastKept;
      var current := AssignmentAt(ip, time);
      SpansAreSorted(entities, ips, ip);
      if current == V.Some(u) {
        PastIsKept(ips, entities, time);
        if TiesOf(ips, ip) {
          OwnerHasNoLaterTie(ips, ip, time, u);
        }
        return;
      }
      ghost var was, before := ips, entities;
      var spans := if ip in ips then ips[ip] else [];
      var more, p := V.Observe(spans, V.Span(time, u));
      ips := ips[ip := more];
      entities := entities[u := WithIp(entities[u], ip)];
      IpFiled(before, index, u, ip);
      ObservedAssigned(before, was, ip, spans, p, u, time);
      ObservedOwners(was, before, entities, ip, spans, p, u, time);
    }

    /** The entity was seen at `time`. */
    method Seen(u: Uid, time: int)
      requires CoreValid() && u in entities
      modifies this`entities
      ensures CoreValid() && entities == old(entities)[u := old(entities)[u].(last := Max(old(entities)[u].last, time))]
    {
      ghost var before := entities;
      entities := entities[u := entities[u].(last := Max(entities[u].last, time))];
      SeenKeepsCore(before, entities, index, ips, u);
    }

    /** A bare address becomes an entity of its own. */
    method NewBare(address: string, time: int) returns (u: Uid)
      requires CoreValid()
      modifies this`entities, this`next
      ensures CoreValid() && u == old(next) && next == u + 1 && u !in old(entities)
      ensures entities == old(entities)[u := Entity(Bare, {Ident(Ip, address)}, time, time)]
    {
      u := NewEntity(Bare, time);
      ghost var before := entities;
      IpFiled(entities, index, u, address);
      EnrichedAssigned(entities, entities[u := WithIp(entities[u], address)], ips);
      hide Pointing, Covered, Assigned;
      assert {} + {Ident(Ip, address)} == {Ident(Ip, address)};
      entities := entities[u := WithIp(entities[u], address)];
    }

    /** The device address of an alert: seen on its host, or resolved to whoever held it then. */
    method ResolveDevice(address: string, host: V.Option<Uid>, time: int) returns (owner: V.Option<Uid>)
      requires Valid() && (host.Some? ==> host.value in entities && entities[host.value].domain == Host)
      modifies this`entities, this`ips, this`next
      ensures Valid() && next >= old(next) && Enriched(old(entities), entities) && Newcomers(old(entities), entities, old(next))
      ensures PastKept(old(ips), entities, ips, time)
      ensures host.None? ==> owner.Some? && OwnerAt(ips, address, time) == owner && owner.value in entities
      ensures host.Some? ==> owner.None?
      ensures host.None? ==> Sighted(old(entities), entities, {owner.value}, time)
      ensures host.Some? ==> OnlyLabelled(old(entities), entities, host.value)
    {
      hide Pointing, Covered, Assigned, PastKept, Faithful, Sighted;
      if host.Some? {
        ObserveIp(address, host.value, time);
        return V.None;
      }
      owner := AssignmentAt(address, time);
      if owner.None? {
        SpansAreSorted(entities, ips, address);
        NothingStarts(ips, address, time);
        var u := NewBare(address, time);
        ObserveIp(address, u, time);
        owner := V.Some(u);
      } else {
        PastIsKept(ips, entities, time);
      }
      ghost var was := entities;
      Seen(owner.value, time);
      SeenIsSighted(old(entities), was, entities, owner.value, time);
      SamePast(old(ips), ips, was, entities, time);
    }

    /** The source address of an alert: whoever held it at that time, else an entity of its own. */
    method ResolveSource(address: string, time: int) returns (owner: Uid)
      requires Valid()
      modifies this`entities, this`index, this`next
      ensures Valid() && next >= old(next) && Enriched(old(entities), entities) && Newcomers(old(entities), entities, old(next))
      ensures owner in entities && SourceOwner(index, ips, address, time) == V.Some(owner)
      ensures Durables(index) == Durables(old(index))
      ensures Sighted(old(entities), entities, {owner}, time)
    {
      hide Covered, Assigned, Faithful, Durables, Sighted;
      var held := AssignmentAt(address, time);
      hide Pointing;
      if held.Some? {
        owner := held.value;
      } else if Ident(BareIp, address) in index {
        owner := index[Ident(BareIp, address)];
        PointsToLive(entities, index, Ident(BareIp, address));
      } else {
        owner := NewBare(address, time);
        ghost var was := index;
        index := index[Ident(BareIp, address) := owner];
        BareFiled(entities, was, owner, address);
      }
      ghost var filed := entities;
      Seen(owner, time);
      SeenIsSighted(old(entities), filed, entities, owner, time);
    }

    /** The host and device side of an alert. */
    method ResolveHost(m: Mentions, time: int) returns (touched: seq<Uid>)
      requires Valid() && OfDomain(m.host, Host)
      modifies this
      ensures Valid() && next >= old(next) && Newcomers(old(entities), entities, old(next))
      ensures groups == old(groups) + GroupsOf(m.host)
      ensures touched == HostSide(index, ips, m, time) && (m.host != [] || m.device.Some? ==> touched != [])
      ensures forall i :: 0 <= i < |m.host| ==> m.host[i] in index && m.host[i] in Durables(index) && index[m.host[i]] in touched
      ensures forall u :: u in touched ==> u in entities && entities[u].domain != User
      ensures PastKept(old(ips), entities, ips, time)
      ensures Sighted(old(entities), entities, (set u | u in touched), time)
    {
      hide Pointing, Covered, Assigned, PastKept, Faithful, OtherDomains, OtherKeys, OwnersKept, Sighted;
      var host := ResolveDurable(Host, m.host, time);
      ghost var entities1, ips1, next1 := entities, ips, next;
      touched := if host.Some? then [host.value] else [];
      AllDurable(index, m.host, Host);
      if m.device.Some? {
        var held := ResolveDevice(m.device.value, host, time);
        if held.Some? {
          OwnerIsAssigned(entities, ips, m.device.value, time);
          touched := [held.value];
          NoneRevived(old(entities), entities1, entities, old(next), next1);
          SightedTwice(old(entities), entities1, entities, {}, {held.value}, time);
        } else {
          HostIsSighted(old(entities), entities1, entities, host.value, time);
        }
      } else {
        PastIsKept(ips, entities, time);
      }
      PastComposes(old(entities), entities1, entities, old(ips), ips1, ips, old(next), next1, time);
      assert {} + (set u | u in touched) == (set u | u in touched);
      assert (set u | u in touched) == if touched == [] then {} else {touched[0]};
    }

    /** The user of an alert. */
    method ResolveUser(m: Mentions, touched: seq<Uid>, time: int) returns (more: seq<Uid>)
      requires Valid() && OfDomain(m.user, User) && OfDomain(m.host, Host)
      requires forall u :: u in touched ==> u in entities && entities[u].domain != User
      requires forall i :: 0 <= i < |m.host| ==> m.host[i] in index && index[m.host[i]] in touched
      requires touched == HostSide(index, ips, m, time)
      modifies this
      ensures Valid() && next >= old(next) && Newcomers(old(entities), entities, old(next)) && ips == old(ips)
      ensures groups == old(groups) + GroupsOf(m.user)
      ensures forall i :: 0 <= i < |m.host| ==> m.host[i] in Durables(index)
      ensures forall i :: 0 <= i < |m.user| ==> m.user[i] in Durables(index)
      ensures more == UserSide(index, ips, m, time) && (touched != [] || m.user != [] ==> more != [])
      ensures forall u :: u in more ==> u in entities
      ensures exists who: set<Uid> :: Sighted(old(entities), entities, who, time) && (set u | u in more) == (set u | u in touched) + who
      ensures forall i :: 0 <= i < |m.user| ==> m.user[i] in index && index[m.user[i]] in more
      ensures forall i :: 0 <= i < |m.host| ==> m.host[i] in index && index[m.host[i]] in more
    {
      hide Pointing, Covered, Assigned, Faithful, OwnersKept, Sighted;
      var user := ResolveDurable(User, m.user, time);
      AllDurable(index, m.user, User);
      assert forall i :: 0 <= i < |m.host| ==> DomainOf(m.host[i].kind) == Host;
      assert touched == HostSide(index, ips, m, time);
      more := if user.Some? then Touch(touched, user.value) else touched;
      ghost var who := if user.Some? then {user.value} else {};
      assert (set u | u in more) == (set u | u in touched) + who;
    }

    /** The source address of an alert, and a stand-in for an alert without any identifier. */
    method ResolveRest(m: Mentions, seen: seq<Uid>, time: int, ghost start: Table, ghost first: int) returns (touched: seq<Uid>)
      requires Valid() && seen == UserSide(index, ips, m, time) && (forall u :: u in seen ==> u in entities)
      requires forall i :: 0 <= i < |m.host| ==> m.host[i] in Durables(index)
      requires forall i :: 0 <= i < |m.user| ==> m.user[i] in Durables(index)
      requires Sighted(start, entities, (set u | u in seen), time) && Numbered(start, first) && first <= next
      modifies this`entities, this`index, this`next
      ensures Valid() && next >= old(next) && Newcomers(old(entities), entities, old(next))
      ensures Durables(index) == Durables(old(index)) && seen <= touched && touched != []
      ensures forall i, j :: 0 <= i < j < |touched| ==> touched[i] != touched[j]
      ensures m.source.Some? ==> touched == Lookup(index, ips, m, time)
      ensures m.source.Some? ==> SourceOwner(index, ips, m.source.value, time).Some? && SourceOwner(index, ips, m.source.value, time).value in touched
      ensures m.source.None? && seen != [] ==> touched == seen && index == old(index)
      ensures m.source.None? && seen == [] ==> |touched| == 1 && touched[0] == old(next)
      ensures forall u :: u in touched ==> u in entities
      ensures Sighted(start, entities, (set u | u in touched), time)
    {
      hide Pointing, Covered, Assigned, Faithful, Durables, Sighted;
      LookupDistinct(index, ips, m, time);
      touched := seen;
      ghost var was, before, number := index, entities, next;
      if m.source.Some? {
        var owner := ResolveSource(m.source.value, time);
        UserSideSame(was, index, ips, m, time);
        touched := Touch(touched, owner);
        NoneRevived(start, before, entities, first, number);
        SightedTwice(start, before, entities, (set u | u in seen), {owner}, time);
        assert (set u | u in touched) == (set u | u in seen) + {owner};
      }
      if touched == [] {
        assert (set u | u in seen) == {};
        var orphan := NewBare("unidentified-" + C.Decimal(next), time);
        NewIsSighted(before, entities, orphan, time);
        NoneRevived(start, before, entities, first, number);
        SightedTwice(start, before, entities, {}, {orphan}, time);
        touched := [orphan];
        assert (set u | u in touched) == {} + {orphan};
      }
    }

    /** Resolve one alert to the entities it touches, at its own timestamp. */
    method Resolve(m: Mentions, time: int) returns (touched: seq<Uid>)
      requires Valid() && WellFormed(m)
      modifies this
      ensures Valid()
      ensures groups == old(groups) + GroupsOf(m.host) + GroupsOf(m.user)
      ensures Blank(m) ==> |touched| == 1 && touched[0] !in old(entities)
      ensures !Blank(m) ==> touched == Lookup(index, ips, m, time) && touched != []
      ensures forall u :: u in touched ==> u in entities
      ensures forall i, j :: 0 <= i < j < |touched| ==> touched[i] != touched[j]
      ensures forall x :: x in m.host + m.user ==> x in index && index[x] in touched
      ensures m.source.Some? ==> SourceOwner(index, ips, m.source.value, time).Some? && SourceOwner(index, ips, m.source.value, time).value in touched
      ensures PastKept(old(ips), entities, ips, time)
      ensures Sighted(old(entities), entities, (set u | u in touched), time)
    {
      hide Pointing, Covered, Assigned, PastKept, Faithful, Durables, Sighted, Newcomers;
      KindsOfDomains(m);
      touched := ResolveHost(m, time);
      ghost var entities2, ips2, next2, host := entities, ips, next, touched;
      touched := ResolveUser(m, touched, time);
      ghost var who: set<Uid> :| Sighted(entities2, entities, who, time) && (set u | u in touched) == (set u | u in host) + who;
      NoneRevived(old(entities), entities2, entities, old(next), next2);
      SightedTwice(old(entities), entities2, entities, (set u | u in host), who, time);
      ghost var durables, held := Durables(index), touched;
      IndexedBefore(index, m, held);
      ghost var entities3, next3 := entities, next;
      touched := ResolveRest(m, touched, time, old(entities), old(next));
      NewcomersTwice(entities2, entities3, entities, next2, next3);
      IndexedAfter(durables, index, m, held, touched);
      PastRemains(old(entities), entities2, entities, old(ips), ips, old(next), next2, time);
    }

    /** Remove the index entries of one entity, found through its identifiers. */
    method DropIds(u: Uid, e: Entity)
      requires forall x :: x in index && index[x] == u ==> Holds(e, x)
      modifies this`index
      ensures index == Without(old(index), {u})
    {
      var left := e.ids;
      NothingStripped(index, u);
      while left != {}
        invariant left <= e.ids && index == Stripped(old(index), u, e.ids - left)
        decreases |left|
      {
        ghost var done := e.ids - left;
        var x :| x in left;
        left := left - {x};
        assert e.ids - left == done + {x};
        OneStripped(old(index), u, done, x);
        hide Stripped;
        if x in index && index[x] == u {
          index := index - {x};
        }
        var bare := Ident(BareIp, x.value);
        if bare in index && index[bare] == u {
          index := index - {bare};
        }
      }
      assert e.ids - left == e.ids;
      assert forall x :: Holds(e, x) ==> Reached(e.ids, x);
    }

    /** Remove the index entries of all given entities. */
    method DropAllIds(stale: set<Uid>)
      requires Pointing(entities, index) && stale <= entities.Keys
      modifies this`index
      ensures index == Without(old(index), stale)
    {
      var left := stale;
      while left != {}
        invariant left <= stale && index == Without(old(index), stale - left)
        decreases |left|
      {
        ghost var done := stale - left;
        Chains.NonEmpty(left);
        var u :| u in left;
        left := left - {u};
        assert stale - left == done + {u};
        DropIds(u, entities[u]);
      }
      assert stale - left == stale;
    }

    /** Remove the assignments of entities that are gone, and addresses left without any. */
    method DropAssignments(live: set<Uid>)
      modifies this`ips
      ensures ips == KeptAll(old(ips), live)
    {
      var left := ips.Keys;
      while left != {}
        invariant left <= old(ips).Keys && ips.Keys <= old(ips).Keys
        invariant forall ip :: ip in left ==> ip in ips && ips[ip] == old(ips)[ip]
        invariant forall ip :: ip in old(ips) && ip !in left ==> (ip in ips <==> V.Kept(old(ips)[ip], live) != [])
        invariant forall ip :: ip in ips && ip !in left ==> ips[ip] == V.Kept(old(ips)[ip], live)
        decreases |left|
      {
        var ip :| ip in left;
        left := left - {ip};
        var kept := V.Kept(ips[ip], live);
        if kept != [] {
          ips := ips[ip := kept];
        } else {
          ips := ips - {ip};
        }
      }
    }

    /** Drop the entities idle since before `cutoff`, with everything that refers to them. */
    method FlushStale(cutoff: int) returns (count: nat)
      requires Valid()
      modifies this
      ensures Valid()
      ensures forall u :: u in entities <==> u in old(entities) && old(entities)[u].last >= cutoff
      ensures forall u :: u in entities ==> entities[u] == old(entities)[u]
      ensures entities == Recent(old(entities), cutoff) && count == |old(entities).Keys - entities.Keys|
      ensures index == Surviving(old(index), entities.Keys)
      ensures forall ip, t: int :: OwnerKeptOrGone(OwnerAt(old(ips), ip, t), OwnerAt(ips, ip, t), entities)
      ensures groups == Remembered(old(groups), Durables(index))
    {
      hide Faithful;
      var live := set u | u in entities && entities[u].last >= cutoff;
      FlushKeepsCore(entities, index, ips, live);
      FlushKeepsFaithful(entities, index, groups, live);
      FlushedOwners(entities, ips, live);
      hide Covered, Assigned, OwnerKeptOrGone, Pointing;
      count := |entities.Keys - live|;
      DropAllIds(entities.Keys - live);
      WithoutIsSurviving(entities, old(index), live);
      DropAssignments(live);
      entities := map u | u in live :: entities[u];
      assert entities == Recent(old(entities), cutoff) && entities.Keys == live;
      groups := Remembered(groups, Durables(index));
    }
  }

  /** An entity that an alert touches survives every flush that reaches back no further than the alert. */
  method SeenSurvives(r: EntityResolver, m: Mentions, time: int, cutoff: int) returns (touched: seq<Uid>)
    requires r.Valid() && WellFormed(m) && cutoff <= time
    modifies r
    ensures r.Valid() && forall u :: u in touched ==> u in r.entities
    ensures forall u :: u in old(r.entities) && u !in touched && old(r.entities)[u].last < cutoff ==> u !in r.entities
  {
    hide Core, Faithful, Blank, Lookup, PastKept, Durables;
    touched := r.Resolve(m, time);
    ghost var after := r.entities;
    forall u | u in touched ensures after[u].last >= time {
      assert SeenBy(old(r.entities), after[u], u, time);
    }
    var _ := r.FlushStale(cutoff);
  }

  /** What a run of alerts ties together. */
  ghost function AlertGroups(alerts: seq<(Mentions, int)>): set<Group> {
    if alerts == [] then {}
    else AlertGroups(alerts[..|alerts| - 1]) + GroupsOf(alerts[|alerts| - 1].0.host) + GroupsOf(alerts[|alerts| - 1].0.user)
  }

  /** Resolving alerts in the given order, without a flush in between. */
  method ResolveAll(r: EntityResolver, alerts: seq<(Mentions, int)>)
    requires r.Valid() && r.groups == {} && forall i :: 0 <= i < |alerts| ==> WellFormed(alerts[i].0)
    modifies r
    ensures r.Valid() && r.groups == AlertGroups(alerts)
    ensures forall a, b :: a in Durables(r.index) && b in Durables(r.index) ==>
      (r.index[a] == r.index[b] <==> Linked(AlertGroups(alerts), a, b))
    ensures forall i, x :: 0 <= i < |alerts| && x in alerts[i].0.host + alerts[i].0.user ==> x in r.index
  {
    hide Core, Faithful, Blank, Lookup, PastKept, Linked, Durables;
    for k := 0 to |alerts|
      invariant r.Valid() && r.groups == AlertGroups(alerts[..k])
    {
      var touched := r.Resolve(alerts[k].0, alerts[k].1);
      assert alerts[..k + 1][..k] == alerts[..k];
    }
    assert alerts[..|alerts|] == alerts;
    SameEntityIffLinked(r.entities, r.index, r.groups);
    forall i, x | 0 <= i < |alerts| && x in alerts[i].0.host + alerts[i].0.user ensures x in r.index {
      AlertIsGrouped(alerts, i, x);
      GroupedIsIndexed(r.index, r.groups, x);
    }
  }

  lemma {:induction false} AlertIsGrouped(alerts: seq<(Mentions, int)>, i: nat, x: Ident)
    requires i < |alerts| && x in alerts[i].0.host + alerts[i].0.user
    ensures exists g :: g in AlertGroups(alerts) && x in g
  {
    var n := |alerts| - 1;
    if i < n {
      AlertIsGrouped(alerts[..n], i, x);
      var g :| g in AlertGroups(alerts[..n]) && x in g;
      assert g in AlertGroups(alerts);
    } else if x in alerts[n].0.host {
      assert (set y | y in alerts[n].0.host) in AlertGroups(alerts);
    } else {
      assert (set y | y in alerts[n].0.user) in AlertGroups(alerts);
    }
  }

  ghost predicate FromAlert(alert: (Mentions, int), g: Group) {
    g in GroupsOf(alert.0.host) || g in GroupsOf(alert.0.user)
  }

  ghost predicate FromSome(alerts: seq<(Mentions, int)>, g: Group) {
    exists a :: a in alerts && FromAlert(a, g)
  }

  lemma {:induction false} GroupsAreFromAlerts(alerts: seq<(Mentions, int)>, g: Group)
    ensures g in AlertGroups(alerts) <==> FromSome(alerts, g)
  {
    if alerts != [] {
      var init, last := alerts[..|alerts| - 1], alerts[|alerts| - 1];
      GroupsAreFromAlerts(init, g);
      assert alerts == init + [last];
      if FromSome(init, g) {
        var a :| a in init && FromAlert(a, g);
        assert a in alerts;
      }
      if FromSome(alerts, g) {
        var a :| a in alerts && FromAlert(a, g);
        assert a in init || a == last;
      }
      assert FromAlert(last, g) ==> last in alerts;
    }
  }

  lemma SameAlerts(alerts: seq<(Mentions, int)>, other: seq<(Mentions, int)>, g: Group)
    requires forall a :: a in alerts <==> a in other
    ensures FromSome(alerts, g) <==> FromSome(other, g)
  {
  }

  /** The order in which alerts arrive, and repeated delivery, do not change what belongs together. */
  lemma OrderDoesNotMatter(alerts: seq<(Mentions, int)>, other: seq<(Mentions, int)>)
    requires forall a :: a in alerts <==> a in other
    ensures AlertGroups(alerts) == AlertGroups(other)
  {
    forall g ensures g in AlertGroups(alerts) <==> g in AlertGroups(other) {
      GroupsAreFromAlerts(alerts, g);
      GroupsAreFromAlerts(other, g);
      SameAlerts(alerts, other, g);
    }
  }

  lemma GroupedIsIndexed(index: Index, groups: set<Group>, x: Ident)
    requires Faithful(groups, Durables(index)) && exists g :: g in groups && x in g
    ensures x in index
  {
    var g :| g in groups && x in g;
    assert x in Durables(index);
  }

  /** Two durable identifiers name one entity if and only if a chain of alerts links them. */
  lemma SameEntityIffLinked(entities: Table, index: Index, groups: set<Group>)
    requires Faithful(groups, Durables(index))
    ensures forall a, b :: a in Durables(index) && b in Durables(index) ==>
      (index[a] == index[b] <==> Linked(groups, a, b))
  {
    forall a, b | a in Durables(index) && b in Durables(index)
      ensures index[a] == index[b] <==> Linked(groups, a, b)
    {
      SameOwnerIffLinked(groups, Durables(index), a, b);
    }
  }

  /** The index and the identifier sets are inverse to each other, and no entity mixes domains. */
  lemma IndexIsInverse(r: EntityResolver, x: Ident, u: Uid)
    requires r.Valid() && Durable(x)
    ensures (x in r.index && r.index[x] == u) <==> (u in r.entities && x in r.entities[u].ids)
    ensures x in r.index ==> r.entities[r.index[x]].domain == DomainOf(x.kind)
    ensures forall y :: Durable(y) && x in r.index && y in r.index && r.index[x] == r.index[y] ==> DomainOf(x.kind) == DomainOf(y.kind)
  {
    assert u in r.entities ==> OneCovered(r.entities[u], u, r.index);
    if x in r.index {
      assert Holds(r.entities[r.index[x]], x);
      assert OneCovered(r.entities[r.index[x]], r.index[x], r.index);
      forall y | Durable(y) && y in r.index && r.index[x] == r.index[y] ensures DomainOf(x.kind) == DomainOf(y.kind) {
        assert Holds(r.entities[r.index[y]], y);
      }
    }
  }

  /** What is left of the fused entities is one of them; every other entity is as it was. */
  ghost predicate OnlyFused(before: Table, after: Table, found: set<Uid>, u: Uid) {
    && u in found && u in after && (forall v :: v in after && v != u ==> v in before && after[v] == before[v])
    && (forall f :: f in found && f != u ==> f !in after)
  }

  lemma LatestAlone(entities: Table, u: Uid)
    requires u in entities
    ensures LatestOf(entities, entities[u], {u}) && OnlyFused(entities, entities, {u}, u)
  {
    assert u in {u};
  }

  lemma UntouchedYet(before: Table, was: Table, done: set<Uid>, u: Uid, other: Uid)
    requires OnlyFused(before, was, done, u) && other in was && other !in done
    ensures other in before && was[other] == before[other]
  {
  }

  lemma OnlyFusedMore(before: Table, was: Table, after: Table, done: set<Uid>, u: Uid, other: Uid, keep: Uid, gone: Uid)
    requires OnlyFused(before, was, done, u) && other in was && other !in done
    requires (keep == u && gone == other) || (keep == other && gone == u)
    requires u in was && after == MergedTable(was, keep, gone)
    ensures OnlyFused(before, after, done + {other}, keep)
  {
  }

  lemma NothingMerged(entities: Table, index: Index, ips: Addresses, u: Uid)
    ensures Durables(index) == Fused(Durables(index), {u}, u)
    ensures Elsewhere(entities, entities, {u}) && SameBare(index, index) && OwnersKept(ips, entities, ips)
  {
  }

  /** Fusing one more entity, seen from the tables before the first. */
  lemma MergeAlso(entities: Table, index: Index, was: Table, wasIndex: Index, done: set<Uid>, u: Uid, other: Uid, keep: Uid, gone: Uid)
    requires Pointing(was, wasIndex) && Covered(was, wasIndex) && u in was && other in was
    requires u in done && other !in done && ((keep == u && gone == other) || (keep == other && gone == u))
    requires Durables(wasIndex) == Fused(Durables(index), done, u)
    requires Elsewhere(entities, was, done) && SameBare(index, wasIndex)
    ensures Durables(Remapped(wasIndex, was[gone].ids, keep)) == Fused(Durables(index), done + {other}, keep)
    ensures Elsewhere(entities, MergedTable(was, keep, gone), done + {other})
    ensures SameBare(index, Remapped(wasIndex, was[gone].ids, keep))
  {
    MergeFuses(was, wasIndex, keep, gone);
    FuseMore(Durables(index), done, u, other, keep, gone);
    assert OneCovered(was[gone], gone, wasIndex);
    hide Fused, Durables, Pointing, Covered;
  }

  lemma MergeOwners(was: Table, ips: Addresses, wasIps: Addresses, after: Table, keep: Uid, gone: Uid, d: Domain)
    requires Assigned(was, wasIps) && gone in was && keep in was && keep != gone && was[gone].domain == d
    requires OwnersKept(ips, was, wasIps) && (d == User ==> wasIps == ips)
    requires after == MergedTable(was, keep, gone)
    ensures OwnersKept(ips, after, RenamedAll(wasIps, gone, keep))
    ensures d == User ==> RenamedAll(wasIps, gone, keep) == ips
  {
    MergeKeepsOwners(was, wasIps, keep, gone, after);
    if d == User {
      UsersOwnNoAddress(was, wasIps, keep, gone);
    }
    forall ip, t: int ensures SameOwner(OwnerAt(ips, ip, t), OwnerAt(RenamedAll(wasIps, gone, keep), ip, t), after) {
      assert SameOwner(OwnerAt(ips, ip, t), OwnerAt(wasIps, ip, t), was);
      assert SameOwner(OwnerAt(wasIps, ip, t), OwnerAt(RenamedAll(wasIps, gone, keep), ip, t), after);
    }
  }

  /** Entities not in `found` are as they were, and only those in `found` may be gone. */
  ghost predicate Elsewhere(before: Table, after: Table, found: set<Uid>) {
    && after.Keys <= before.Keys
    && forall u :: u in before && u !in found ==> u in after && after[u] == before[u]
  }

  ghost predicate SameBare(before: Index, after: Index) {
    forall x: Ident :: x.kind == BareIp ==> (x in after <==> x in before) && (x in before ==> after[x] == before[x])
  }

  /** Whatever was not there before is new: no entity comes back. */
  ghost predicate Newcomers(before: Table, after: Table, next: int) {
    forall u :: u in after ==> u in before || u >= next
  }

  /** Entities of other domains are as they were. */
  ghost predicate OtherDomains(before: Table, after: Table, d: Domain) {
    forall u :: u in before && before[u].domain != d ==> u in after && after[u] == before[u]
  }

  /** Bare addresses and the durable identifiers of other domains are indexed as they were. */
  ghost predicate OtherKeys(before: Index, after: Index, d: Domain) {
    forall x: Ident :: x.kind == BareIp || (Durable(x) && DomainOf(x.kind) != d) ==>
      (x in after <==> x in before) && (x in before ==> after[x] == before[x])
  }

  lemma OwnersHaveDomain(entities: Table, index: Index, ids: seq<Ident>, owners: seq<Uid>, d: Domain)
    requires Pointing(entities, index) && Covered(entities, index) && OfDomain(ids, d)
    requires forall f :: f in owners ==> exists i :: 0 <= i < |ids| && ids[i] in index && index[ids[i]] == f
    ensures forall f :: f in owners ==> f in entities && entities[f].domain == d
  {
    forall f | f in owners ensures f in entities && entities[f].domain == d {
      var i :| 0 <= i < |ids| && ids[i] in index && index[ids[i]] == f;
      assert Holds(entities[f], ids[i]) && OneCovered(entities[f], f, index);
    }
  }

  lemma ElsewhereIsOtherDomains(before: Table, after: Table, found: set<Uid>, d: Domain)
    requires Elsewhere(before, after, found) && forall f :: f in found ==> f in before && before[f].domain == d
    ensures OtherDomains(before, after, d)
  {
  }

  lemma NothingFused(entities: Table, index: Index, u: Uid)
    requires Pointing(entities, index) && u !in entities
    ensures Durables(index) == Fused(Durables(index), {}, u) && u !in Durables(index).Values
  {
  }

  lemma MoreKept(ips: Addresses, before: Table, after: Table)
    ensures OwnersKept(ips, after, ips)
  {
  }

  lemma NothingChanged(entities: Table, index: Index, ips: Addresses, d: Domain)
    ensures OtherDomains(entities, entities, d) && OtherKeys(index, index, d) && OwnersKept(ips, entities, ips)
  {
  }

  lemma FusedOwners(was: Index, g: Group, found: set<Uid>, u: Uid, index: Index)
    requires OwnersOf(was, g, found) && Durables(index) == Fused(was, found, u) && forall x :: x in g ==> Durable(x)
    ensures forall x :: x in g && x in index ==> index[x] == u
  {
    forall x | x in g && x in index ensures index[x] == u {
      assert x in Durables(index) && Durables(index)[x] == index[x];
    }
  }

  lemma FilingDurables(index: Index, g: Group, u: Uid)
    requires forall x :: x in g ==> Durable(x)
    ensures Durables(Remapped(index, g, u)) == Remapped(Durables(index), g, u)
  {
  }

  lemma RemappedAt(index: Index, g: Group, u: Uid)
    ensures forall x :: x in g ==> x in Remapped(index, g, u) && Remapped(index, g, u)[x] == u
  {
  }

  lemma FilingElsewhere(before: Table, was: Table, after: Table, u: Uid, d: Domain, ips: Addresses, now: Addresses, g: Group, time: int)
    requires OtherDomains(before, was, d) && u in was && was[u].domain == d && after == was[u := WithIds(was[u], g, time)]
    requires OwnersKept(ips, was, now)
    ensures OtherDomains(before, after, d) && OwnersKept(ips, after, now)
  {
    forall ip, t: int ensures SameOwner(OwnerAt(ips, ip, t), OwnerAt(now, ip, t), after) {
      assert SameOwner(OwnerAt(ips, ip, t), OwnerAt(now, ip, t), was);
    }
  }

  lemma OwnedBy(owner: Index, g: Group, found: set<Uid>, f: Uid) returns (x: Ident)
    requires OwnersOf(owner, g, found) && f in found
    ensures x in g && x in owner && owner[x] == f
  {
    x :| x in g && x in owner && owner[x] == f;
  }

  lemma FoundHaveDomain(entities: Table, index: Index, g: Group, found: set<Uid>, d: Domain)
    requires Pointing(entities, index) && Covered(entities, index) && OwnersOf(Durables(index), g, found)
    requires forall x :: x in g ==> Durable(x) && DomainOf(x.kind) == d
    ensures forall x :: x in index && Durable(x) && DomainOf(x.kind) != d ==> index[x] !in found
  {
    forall x | x in index && Durable(x) && index[x] in found ensures DomainOf(x.kind) == d {
      var y := OwnedBy(Durables(index), g, found, index[x]);
      assert Holds(entities[index[x]], x) && Holds(entities[index[x]], y) && OneCovered(entities[index[x]], index[x], index);
    }
  }

  lemma FilingKeys(before: Index, was: Index, ids: seq<Ident>, u: Uid, d: Domain, found: set<Uid>)
    requires SameBare(before, was) && Durables(was) == Fused(Durables(before), found, u) && OfDomain(ids, d)
    requires forall x :: x in before && Durable(x) && DomainOf(x.kind) != d ==> before[x] !in found
    ensures OtherKeys(before, Remapped(was, (set x | x in ids), u), d)
  {
    var after := Remapped(was, (set x | x in ids), u);
    forall x: Ident | Durable(x) && DomainOf(x.kind) != d ensures (x in after <==> x in before) && (x in before ==> after[x] == before[x]) {
      assert x in was <==> x in Durables(was);
      assert x in before <==> x in Durables(before);
    }
  }

  function WithIp(e: Entity, ip: string): Entity {
    e.(ids := e.ids + {Ident(Ip, ip)})
  }

  /** No assignment of the address that starts at `time` names a later entity. */
  ghost predicate NoLaterTieAt(ips: Addresses, ip: string, time: int, u: Uid) {
    ip in ips ==> V.NoLaterTie(ips[ip], time, u)
  }

  /** Assignments of the address that start together are in order of entity. */
  ghost predicate TiesOf(ips: Addresses, ip: string) {
    ip in ips ==> V.TiesInOrder(ips[ip])
  }

  lemma OwnerHasNoLaterTie(ips: Addresses, ip: string, time: int, u: Uid)
    requires OwnerAt(ips, ip, time) == V.Some(u) && V.Sorted(if ip in ips then ips[ip] else []) && TiesOf(ips, ip)
    ensures NoLaterTieAt(ips, ip, time, u)
  {
    var spans := ips[ip];
    var n := V.CountStarted(spans, time);
    V.OwnerIsLastStarted(spans, time, n);
    assert forall i :: 0 <= i < |spans| && spans[i].start == time ==> i < n && (i == n - 1 || !V.PairLess(spans[n - 1], spans[i]));
  }

  lemma SpansAreSorted(entities: Table, ips: Addresses, ip: string)
    requires Assigned(entities, ips)
    ensures V.Sorted(if ip in ips then ips[ip] else [])
  {
    assert ip in ips ==> OneAssigned(entities, ip, ips[ip]);
  }

  lemma PastIsKept(ips: Addresses, entities: Table, time: int)
    ensures PastKept(ips, entities, ips, time)
  {
  }

  lemma IpFiled(entities: Table, index: Index, u: Uid, ip: string)
    requires Pointing(entities, index) && Covered(entities, index) && u in entities
    ensures var e := entities[u := WithIp(entities[u], ip)]; Pointing(e, index) && Covered(e, index)
  {
    var e := entities[u := WithIp(entities[u], ip)];
    forall x | x in index ensures index[x] in e && Holds(e[index[x]], x) {
      assert Holds(entities[index[x]], x);
    }
    forall v | v in e ensures OneCovered(e[v], v, index) {
      assert OneCovered(entities[v], v, index);
    }
  }

  lemma ObservedAssigned(entities: Table, ips: Addresses, ip: string, spans: seq<V.Span>, p: nat, u: Uid, time: int)
    requires Assigned(entities, ips) && u in entities && entities[u].domain != User
    requires spans == (if ip in ips then ips[ip] else []) && V.Fits(spans, time, p)
    requires V.Sorted(V.Inserted(spans, p, V.Span(time, u)))
    ensures Assigned(entities[u := WithIp(entities[u], ip)], ips[ip := V.Inserted(spans, p, V.Span(time, u))])
  {
    var e := entities[u := WithIp(entities[u], ip)];
    var more := V.Inserted(spans, p, V.Span(time, u));
    EnrichedAssigned(entities, e, ips);
    assert ip in ips ==> OneAssigned(e, ip, spans);
    forall i | 0 <= i < |more| ensures AssignedTo(e, ip, more[i].uid) {
      assert more[i] == if i < p then spans[i] else if i == p then V.Span(time, u) else spans[i - 1];
      if i != p {
        assert AssignedTo(e, ip, spans[if i < p then i else i - 1].uid);
      }
    }
    assert OneAssigned(e, ip, more);
    assert forall other :: other in ips ==> OneAssigned(e, other, ips[other]);
  }

  lemma ObservedOwners(ips: Addresses, before: Table, entities: Table, ip: string, spans: seq<V.Span>, p: nat, u: Uid, time: int)
    requires spans == (if ip in ips then ips[ip] else []) && V.Sorted(spans) && V.Fits(spans, time, p)
    ensures var after := ips[ip := V.Inserted(spans, p, V.Span(time, u))];
      PastKept(ips, entities, after, time) && OwnerAt(after, ip, time).Some?
  {
    var s := V.Span(time, u);
    var after := ips[ip := V.Inserted(spans, p, s)];
    forall other, t | t < time ensures SameOwner(OwnerAt(ips, other, t), OwnerAt(after, other, t), entities) {
      V.ObservingKeepsThePast(spans, p, s, t);
    }
    V.ObservingOwnsUntilTheNext(spans, p, s, time);
    var n := V.CountStarted(spans, time);
    V.OwnerIsLastStarted(spans, time, n);
  }

  /** The entity a source address resolves to. */
  function SourceOwner(index: Index, ips: Addresses, address: string, time: int): V.Option<Uid> {
    if OwnerAt(ips, address, time).Some? then OwnerAt(ips, address, time)
    else if Ident(BareIp, address) in index then V.Some(index[Ident(BareIp, address)])
    else V.None
  }

  lemma SeenKeepsCore(before: Table, after: Table, index: Index, ips: Addresses, u: Uid)
    requires Pointing(before, index) && Covered(before, index) && Assigned(before, ips) && u in before
    requires exists t :: after == before[u := before[u].(last := t)]
    ensures Pointing(after, index) && Covered(after, index) && Assigned(after, ips)
  {
    EnrichedAssigned(before, after, ips);
    forall x | x in index ensures index[x] in after && Holds(after[index[x]], x) {
      assert Holds(before[index[x]], x);
    }
    forall v | v in after ensures OneCovered(after[v], v, index) {
      assert OneCovered(before[v], v, index);
    }
  }

  lemma NothingStarts(ips: Addresses, ip: string, time: int)
    requires OwnerAt(ips, ip, time).None? && (ip in ips ==> V.Sorted(ips[ip]))
    ensures forall u :: NoLaterTieAt(ips, ip, time, u)
  {
    if ip in ips {
      var n := V.CountStarted(ips[ip], time);
      V.OwnerIsLastStarted(ips[ip], time, n);
    }
  }

  lemma SamePast(before: Addresses, after: Addresses, was: Table, entities: Table, time: int)
    requires PastKept(before, was, after, time) && entities.Keys == was.Keys
    ensures PastKept(before, entities, after, time)
  {
    forall ip, t | t < time ensures SameOwner(OwnerAt(before, ip, t), OwnerAt(after, ip, t), entities) {
      assert SameOwner(OwnerAt(before, ip, t), OwnerAt(after, ip, t), was);
    }
  }

  lemma PointsToLive(entities: Table, index: Index, x: Ident)
    requires Pointing(entities, index) && x in index
    ensures index[x] in entities
  {
  }

  lemma BareFiled(entities: Table, index: Index, u: Uid, address: string)
    requires Pointing(entities, index) && Covered(entities, index) && u in entities
    requires entities[u].domain == Bare && Ident(Ip, address) in entities[u].ids && Ident(BareIp, address) !in index
    ensures var i := index[Ident(BareIp, address) := u];
      Pointing(entities, i) && Covered(entities, i) && Durables(i) == Durables(index)
  {
    var i := index[Ident(BareIp, address) := u];
    forall v | v in entities ensures OneCovered(entities[v], v, i) {
      assert OneCovered(entities[v], v, index);
    }
  }

  // ---------------------------------------------------------------------------------------------
  // What an alert resolves to
  // ---------------------------------------------------------------------------------------------

  predicate Blank(m: Mentions) {
    m.host == [] && m.device.None? && m.user == [] && m.source.None?
  }

  function GroupsOf(ids: seq<Ident>): set<Group> {
    if ids == [] then {} else {set x | x in ids}
  }

  function Touch(touched: seq<Uid>, u: Uid): seq<Uid> {
    if u in touched then touched else touched + [u]
  }

  /** The host, or failing that whoever held the device address at the time. */
  function HostSide(index: Index, ips: Addresses, m: Mentions, time: int): seq<Uid> {
    if m.host != [] then (if m.host[0] in index then [index[m.host[0]]] else [])
    else if m.device.Some? && OwnerAt(ips, m.device.value, time).Some? then [OwnerAt(ips, m.device.value, time).value]
    else []
  }

  function UserSide(index: Index, ips: Addresses, m: Mentions, time: int): seq<Uid> {
    var touched := HostSide(index, ips, m, time);
    if m.user != [] && m.user[0] in index then Touch(touched, index[m.user[0]]) else touched
  }

  /** The entities of an alert, read off the tables. */
  function Lookup(index: Index, ips: Addresses, m: Mentions, time: int): seq<Uid> {
    var touched := UserSide(index, ips, m, time);
    if m.source.Some? && SourceOwner(index, ips, m.source.value, time).Some?
    then Touch(touched, SourceOwner(index, ips, m.source.value, time).value)
    else touched
  }

  lemma LookupDistinct(index: Index, ips: Addresses, m: Mentions, time: int)
    ensures var seen := UserSide(index, ips, m, time);
      forall i, j :: 0 <= i < j < |seen| ==> seen[i] != seen[j]
  {
  }

  lemma IndexedBefore(index: Index, m: Mentions, touched: seq<Uid>)
    requires forall i :: 0 <= i < |m.host| ==> m.host[i] in Durables(index) && m.host[i] in index && index[m.host[i]] in touched
    requires forall i :: 0 <= i < |m.user| ==> m.user[i] in Durables(index) && m.user[i] in index && index[m.user[i]] in touched
    ensures forall x :: x in m.host + m.user ==> x in Durables(index) && Durables(index)[x] in touched
  {
  }

  lemma IndexedAfter(durables: Index, index: Index, m: Mentions, before: seq<Uid>, touched: seq<Uid>)
    requires durables == Durables(index) && before <= touched
    requires forall x :: x in m.host + m.user ==> x in durables && durables[x] in before
    ensures forall x :: x in m.host + m.user ==> x in index && index[x] in touched
  {
  }

  lemma AllDurable(index: Index, ids: seq<Ident>, d: Domain)
    requires OfDomain(ids, d) && forall i :: 0 <= i < |ids| ==> ids[i] in index
    ensures forall i :: 0 <= i < |ids| ==> ids[i] in Durables(index)
  {
  }

  lemma UserSideSame(was: Index, index: Index, ips: Addresses, m: Mentions, time: int)
    requires Durables(was) == Durables(index)
    requires forall i :: 0 <= i < |m.host| ==> m.host[i] in Durables(was)
    requires forall i :: 0 <= i < |m.user| ==> m.user[i] in Durables(was)
    ensures UserSide(index, ips, m, time) == UserSide(was, ips, m, time)
  {
    assert forall x :: x in Durables(was) ==> was[x] == Durables(was)[x] == index[x];
  }

  lemma PastComposes(e0: Table, e1: Table, e2: Table, p0: Addresses, p1: Addresses, p2: Addresses, n0: int, n1: int, time: int)
    requires OwnersKept(p0, e1, p1) && PastKept(p1, e2, p2, time)
    requires Numbered(e0, n0) && Assigned(e0, p0) && n0 <= n1 && Newcomers(e1, e2, n1)
    ensures PastKept(p0, e2, p2, time)
  {
    forall ip, t | t < time ensures SameOwner(OwnerAt(p0, ip, t), OwnerAt(p2, ip, t), e2) {
      OwnerIsAssigned(e0, p0, ip, t);
      assert SameOwner(OwnerAt(p0, ip, t), OwnerAt(p1, ip, t), e1);
      assert SameOwner(OwnerAt(p1, ip, t), OwnerAt(p2, ip, t), e2);
    }
  }

  lemma PastRemains(e0: Table, e1: Table, e2: Table, p0: Addresses, p1: Addresses, n0: int, n1: int, time: int)
    requires PastKept(p0, e1, p1, time) && Numbered(e0, n0) && Assigned(e0, p0) && n0 <= n1 && Newcomers(e1, e2, n1)
    ensures PastKept(p0, e2, p1, time)
  {
    forall ip, t | t < time ensures SameOwner(OwnerAt(p0, ip, t), OwnerAt(p1, ip, t), e2) {
      OwnerIsAssigned(e0, p0, ip, t);
      assert SameOwner(OwnerAt(p0, ip, t), OwnerAt(p1, ip, t), e1);
    }
  }

  // ---------------------------------------------------------------------------------------------
  // Flushing
  // ---------------------------------------------------------------------------------------------

  /** The key itself, or the bare address of the same value, is among the identifiers gone through. */
  ghost predicate Reached(ids: set<Ident>, x: Ident) {
    x in ids || (x.kind == BareIp && exists y :: y in ids && y.value == x.value)
  }

  /** The index without what points at `u` and was reached through the given identifiers. */
  ghost function Stripped(index: Index, u: Uid, done: set<Ident>): Index {
    map x | x in index && !(index[x] == u && Reached(done, x)) :: index[x]
  }

  lemma NothingStripped(index: Index, u: Uid)
    ensures Stripped(index, u, {}) == index
  {
  }

  lemma OneStripped(index: Index, u: Uid, done: set<Ident>, x: Ident)
    ensures var was := Stripped(index, u, done);
      var first := if x in was && was[x] == u then was - {x} else was;
      var bare := Ident(BareIp, x.value);
      Stripped(index, u, done + {x}) == if bare in first && first[bare] == u then first - {bare} else first
  {
    ReachedMore(done, x);
  }

  lemma ReachedMore(done: set<Ident>, x: Ident)
    ensures forall y :: Reached(done + {x}, y) <==> Reached(done, y) || y == x || y == Ident(BareIp, x.value)
  {
    forall y ensures Reached(done + {x}, y) <==> Reached(done, y) || y == x || y == Ident(BareIp, x.value) {
      if y.kind == BareIp && y.value == x.value {
        assert x in done + {x};
      }
      if Reached(done, y) && y !in done {
        var z :| z in done && z.value == y.value;
        assert z in done + {x};
      }
    }
  }

  function Without(index: Index, gone: set<Uid>): Index {
    map x | x in index && index[x] !in gone :: index[x]
  }

  function KeptAll(ips: Addresses, live: set<Uid>): Addresses {
    map ip | ip in ips && V.Kept(ips[ip], live) != [] :: V.Kept(ips[ip], live)
  }

  function Recent(entities: Table, cutoff: int): Table {
    map u | u in entities && entities[u].last >= cutoff :: entities[u]
  }

  /** A flush changes the owner at a time only if that owner is dropped. */
  predicate OwnerKeptOrGone(was: V.Option<Uid>, now: V.Option<Uid>, entities: Table) {
    (now == was <==> was.None? || was.value in entities) && (now.Some? ==> now.value in entities)
  }

  lemma WithoutIsSurviving(entities: Table, index: Index, live: set<Uid>)
    requires forall x :: x in index ==> index[x] in entities
    ensures Without(index, entities.Keys - live) == Surviving(index, live)
  {
  }

  lemma FlushKeepsCore(entities: Table, index: Index, ips: Addresses, live: set<Uid>)
    requires Pointing(entities, index) && Covered(entities, index) && Assigned(entities, ips) && live <= entities.Keys
    ensures var e := (map u | u in live :: entities[u]);
      Pointing(e, Surviving(index, live)) && Covered(e, Surviving(index, live)) && Assigned(e, KeptAll(ips, live))
  {
    var e := map u | u in live :: entities[u];
    var i := Surviving(index, live);
    forall u | u in e ensures OneCovered(e[u], u, i) {
      assert OneCovered(entities[u], u, index);
    }
    forall ip | ip in KeptAll(ips, live) ensures OneAssigned(e, ip, V.Kept(ips[ip], live)) {
      assert OneAssigned(entities, ip, ips[ip]);
      V.KeptIsSorted(ips[ip], live);
      var kept := V.Kept(ips[ip], live);
      forall k | 0 <= k < |kept| ensures AssignedTo(e, ip, kept[k].uid) {
        assert kept[k] in kept;
        var n :| 0 <= n < |ips[ip]| && ips[ip][n] == kept[k];
        assert AssignedTo(entities, ip, ips[ip][n].uid);
      }
    }
  }

  lemma FlushKeepsFaithful(entities: Table, index: Index, groups: set<Group>, live: set<Uid>)
    requires Faithful(groups, Durables(index))
    ensures Faithful(Remembered(groups, Durables(Surviving(index, live))), Durables(Surviving(index, live)))
  {
    ForgettingIsFaithful(groups, Durables(index), live);
    assert Durables(Surviving(index, live)) == Surviving(Durables(index), live);
  }

  lemma FlushedOwners(entities: Table, ips: Addresses, live: set<Uid>)
    requires Assigned(entities, ips) && live <= entities.Keys
    ensures var e := (map u | u in live :: entities[u]);
      forall ip, t: int :: OwnerKeptOrGone(OwnerAt(ips, ip, t), OwnerAt(KeptAll(ips, live), ip, t), e)
  {
    var e := map u | u in live :: entities[u];
    forall ip, t: int ensures OwnerKeptOrGone(OwnerAt(ips, ip, t), OwnerAt(KeptAll(ips, live), ip, t), e) {
      if ip in ips {
        assert OneAssigned(entities, ip, ips[ip]);
        V.DroppingKeepsOwner(ips[ip], live, t);
      }
    }
  }
}
