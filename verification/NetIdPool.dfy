/** The pool of network ids (members/nullnet-server/src/net_id_pool.rs).

    A net id names every kernel object of a tunnel, so the pool hands freed ids
    out oldest first and never queues one twice. `Pool` is the value the
    lifecycle protocol carries; `NetIdPool` is the mutable object refining it. */
module NetIdPools {
  import opened Basics

  datatype NetType = Vlan | Vxlan

  const MIN_NET_ID: nat := 101

  /** 802.1Q ids are 12 bits wide; VXLAN ids map to /29 blocks of 10.0.0.0/8. */
  function MaxNetId(kind: NetType): nat {
    match kind
    case Vlan => 4094
    case Vxlan => 2_097_151
  }

  datatype Pool = Pool(nextFresh: nat, freed: seq<nat>)

  const EMPTY_POOL := Pool(MIN_NET_ID, [])

  function Allocate(kind: NetType, p: Pool): (Option<nat>, Pool) {
    if |p.freed| > 0 then (Some(p.freed[0]), p.(freed := p.freed[1..]))
    else if p.nextFresh <= MaxNetId(kind) then (Some(p.nextFresh), p.(nextFresh := p.nextFresh + 1))
    else (None, p)
  }

  function Free(kind: NetType, p: Pool, id: nat): Pool {
    if MIN_NET_ID <= id <= MaxNetId(kind) && id !in p.freed then p.(freed := p.freed + [id])
    else p
  }

  ghost predicate Distinct(s: seq<nat>) {
    forall i, j :: 0 <= i < j < |s| ==> s[i] != s[j]
  }

  /** Every id below `nextFresh` is either queued once or outstanding. */
  ghost predicate Partitions(kind: NetType, p: Pool, outstanding: set<nat>) {
    && MIN_NET_ID <= p.nextFresh <= MaxNetId(kind) + 1
    && Distinct(p.freed)
    && (forall id :: id in p.freed ==> id !in outstanding)
    && (forall id :: MIN_NET_ID <= id < p.nextFresh <==> id in p.freed || id in outstanding)
  }

  /** Allocation hands out an id nobody holds, and fails only when all are held. */
  lemma AllocateKeepsPartition(kind: NetType, p: Pool, outstanding: set<nat>)
    requires Partitions(kind, p, outstanding)
    ensures var (id, p') := Allocate(kind, p);
            match id
            case Some(i) => i !in outstanding && MIN_NET_ID <= i <= MaxNetId(kind)
                            && Partitions(kind, p', outstanding + {i})
            case None => p' == p && (forall i :: MIN_NET_ID <= i <= MaxNetId(kind) ==> i in outstanding)
  {
  }

  /** A free keeps the partition exactly when the id had been handed out before:
      the pool itself accepts any id in range, so freeing one that is still
      fresh would later hand it out twice. */
  lemma FreeKeepsPartitionIff(kind: NetType, p: Pool, outstanding: set<nat>, id: nat)
    requires Partitions(kind, p, outstanding)
    ensures Partitions(kind, Free(kind, p, id), outstanding - {id})
            <==> id < p.nextFresh || id > MaxNetId(kind)
  {
  }

  /** Freeing 102 before it was ever handed out: it is handed out twice. */
  lemma FreshFreeIsHandedOutTwice()
    ensures Partitions(Vxlan, EMPTY_POOL, {}) && !Partitions(Vxlan, Free(Vxlan, EMPTY_POOL, 102), {})
    ensures
      var (first, p1) := Allocate(Vxlan, Free(Vxlan, EMPTY_POOL, 102));
      var (second, p2) := Allocate(Vxlan, p1);
      first == Some(102) && second == Some(101) && Allocate(Vxlan, p2).0 == Some(102)
  {
    assert 102 in Free(Vxlan, EMPTY_POOL, 102).freed;
  }

  /** `n` allocations in a row. */
  function AllocateMany(kind: NetType, p: Pool, n: nat): Pool
    decreases n
  {
    if n == 0 then p else AllocateMany(kind, Allocate(kind, p).1, n - 1)
  }

  /** Reuse is first in, first out: the id queued at position `n` comes back
      after exactly the `n` ids freed before it. */
  lemma {:induction false} ReuseIsOldestFirst(kind: NetType, p: Pool, n: nat)
    requires n < |p.freed|
    ensures Allocate(kind, AllocateMany(kind, p, n)).0 == Some(p.freed[n])
    decreases n
  {
    if n > 0 {
      ReuseIsOldestFirst(kind, Allocate(kind, p).1, n - 1);
    }
  }

  class NetIdPool {
    const kind: NetType
    var nextFresh: nat
    var freed: seq<nat>
    /** Membership index over `freed`, which cannot deduplicate on its own. */
    var freedSet: set<nat>

    ghost predicate Valid()
      reads this
    {
      Distinct(freed) && (forall id :: id in freed <==> id in freedSet)
    }

    ghost function View(): Pool
      reads this
    {
      Pool(nextFresh, freed)
    }

    constructor (kind: NetType)
      ensures Valid() && View() == EMPTY_POOL && this.kind == kind
    {
      this.kind := kind;
      nextFresh := MIN_NET_ID;
      freed := [];
      freedSet := {};
    }

    method Take() returns (id: Option<nat>)
      requires Valid()
      modifies this
      ensures Valid()
      ensures (id, View()) == Allocate(kind, old(View()))
    {
      if |freed| > 0 {
        var i := freed[0];
        assert freed == [i] + freed[1..];
        freed := freed[1..];
        freedSet := freedSet - {i};
        return Some(i);
      }
      if nextFresh <= MaxNetId(kind) {
        id := Some(nextFresh);
        nextFresh := nextFresh + 1;
      } else {
        id := None;
      }
    }

    method Return(id: nat)
      requires Valid()
      modifies this
      ensures Valid()
      ensures View() == Free(kind, old(View()), id)
    {
      if MIN_NET_ID <= id <= MaxNetId(kind) && id !in freedSet {
        freedSet := freedSet + {id};
        freed := freed + [id];
      }
    }
  }
}
