/** Which overlay addresses a net id stands for (members/nullnet-server/src/net.rs:140-288),
    and the ids of the transports tunnels are encrypted on
    (members/nullnet-server/src/orchestrator.rs:26-27, :1132-1160). */
module Overlay {
  import opened Basics
  import NetIdPools
  import opened Flows

  const U32: nat := 0x1_0000_0000

  predicate PoolId(kind: NetIdPools.NetType, id: nat) {
    NetIdPools.MIN_NET_ID <= id <= NetIdPools.MaxNetId(kind)
  }

  /** An id owns a block of 4 or of 8 addresses. */
  function BlockSize(kind: NetIdPools.NetType): nat {
    match kind case Vlan => 4 case Vxlan => 8
  }

  lemma LastByteHasRoom(kind: NetIdPools.NetType, id: nat)
    ensures id * BlockSize(kind) % 0x100 <= 0x100 - BlockSize(kind)
  {
  }

  /** The last three bytes of the id's offset, and the `k`th address there. */
  function Address(kind: NetIdPools.NetType, id: nat, k: byte): Ipv4
    requires PoolId(kind, id) && k as nat < BlockSize(kind) - 1
  {
    var offset := id * BlockSize(kind);
    LastByteHasRoom(kind, id);
    Ipv4(10, (offset / 0x1_0000 % 0x100) as byte, (offset / 0x100 % 0x100) as byte,
         (offset % 0x100) as byte + k)
  }

  function Number(ip: Ipv4): nat {
    0x100_0000 * ip.a as nat + 0x1_0000 * ip.b as nat + 0x100 * ip.c as nat + ip.d as nat
  }

  const TEN_NET: nat := 10 * 0x100_0000

  /** No byte overflows and nothing of the offset is cut off: the address is the
      id's block plus `k`. */
  lemma AddressIsInBlock(kind: NetIdPools.NetType, id: nat, k: byte)
    requires PoolId(kind, id) && k as nat < BlockSize(kind) - 1
    ensures Number(Address(kind, id, k)) == TEN_NET + id * BlockSize(kind) + k as nat
    ensures id * BlockSize(kind) + k as nat < 0x100_0000
  {
  }

  // ------------------------------------------------------------------- both setups

  datatype Setup = Setup(local: Ipv4, remote: Option<Ipv4>, ns: Option<Ipv4>, br: Option<Ipv4>, hostMapping: Option<Ipv4>)

  /** The message to one end of a VLAN: the client end also maps the server's name. */
  function VlanSetup(id: nat, forClient: bool): Setup
    requires PoolId(NetIdPools.Vlan, id)
  {
    var server, client := Address(NetIdPools.Vlan, id, 1), Address(NetIdPools.Vlan, id, 2);
    if forClient then Setup(client, Some(server), None, None, Some(server))
    else Setup(server, Some(client), None, None, None)
  }

  /** The message to one end of a VXLAN. An end with a container answers on its
      namespace address, one without on its bridge. */
  function VxlanSetup(id: nat, forClient: bool, clientDocker: bool, serverDocker: bool): Setup
    requires PoolId(NetIdPools.Vxlan, id)
  {
    var nsServer, brServer := Address(NetIdPools.Vxlan, id, 1), Address(NetIdPools.Vxlan, id, 2);
    var ns := if forClient then Address(NetIdPools.Vxlan, id, 3) else nsServer;
    var br := if forClient then Address(NetIdPools.Vxlan, id, 4) else brServer;
    var docker := if forClient then clientDocker else serverDocker;
    Setup(if docker then ns else br, None, Some(ns), Some(br),
          if forClient then Some(if serverDocker then nsServer else brServer) else None)
  }

  function Addresses(s: Setup): set<Ipv4> {
    {s.local} + (if s.ns.Some? then {s.ns.value} else {}) + (if s.br.Some? then {s.br.value} else {})
  }

  /** The name the client is told to map is the address the server end answers on,
      and the two ends of a tunnel share no address. */
  lemma EndsAgree(id: nat, clientDocker: bool, serverDocker: bool)
    requires PoolId(NetIdPools.Vxlan, id)
    ensures
      var c, s := VxlanSetup(id, true, clientDocker, serverDocker), VxlanSetup(id, false, clientDocker, serverDocker);
      && c.hostMapping == Some(s.local) && s.hostMapping == None
      && Addresses(c) !! Addresses(s) && |Addresses(c) + Addresses(s)| == 4
  {
  }

  lemma VlanEndsAgree(id: nat)
    requires PoolId(NetIdPools.Vlan, id)
    ensures
      var c, s := VlanSetup(id, true), VlanSetup(id, false);
      && c.hostMapping == Some(s.local) && c.remote == Some(s.local) && s.remote == Some(c.local)
      && c.local != s.local
  {
  }

  /** Every address a setup uses lies strictly inside its id's block, so it is
      neither the network nor the broadcast address, and distinct ids share none. */
  ghost predicate InBlock(kind: NetIdPools.NetType, id: nat, ip: Ipv4) {
    var first := TEN_NET + id * BlockSize(kind);
    first < Number(ip) < first + BlockSize(kind) - 1
  }

  lemma SetupsStayInBlock(id: nat, forClient: bool, clientDocker: bool, serverDocker: bool, ip: Ipv4)
    requires PoolId(NetIdPools.Vxlan, id)
    requires ip in Addresses(VxlanSetup(id, forClient, clientDocker, serverDocker))
    ensures InBlock(NetIdPools.Vxlan, id, ip)
  {
    AddressIsInBlock(NetIdPools.Vxlan, id, 1);
    AddressIsInBlock(NetIdPools.Vxlan, id, 2);
    AddressIsInBlock(NetIdPools.Vxlan, id, 3);
    AddressIsInBlock(NetIdPools.Vxlan, id, 4);
  }

  lemma VlanSetupsStayInBlock(id: nat, forClient: bool, ip: Ipv4)
    requires PoolId(NetIdPools.Vlan, id) && ip in Addresses(VlanSetup(id, forClient))
    ensures InBlock(NetIdPools.Vlan, id, ip)
  {
    AddressIsInBlock(NetIdPools.Vlan, id, 1);
    AddressIsInBlock(NetIdPools.Vlan, id, 2);
  }

  lemma BlocksAreDisjoint(kind: NetIdPools.NetType, i: nat, j: nat, ip: Ipv4)
    requires InBlock(kind, i, ip) && InBlock(kind, j, ip)
    ensures i == j
  {
  }

  // -------------------------------------------------------------------- transports

  const SHARED_START: nat := 0x10_0000
  const POLICY_START: nat := 0x20_0000

  type Ip = nat

  function Pair(x: Ip, y: Ip): (Ip, Ip) {
    if x < y then (x, y) else (y, x)
  }

  function GroupId(netId: nat): nat {
    POLICY_START + netId
  }

  /** The id of the `n`th pair of hosts; the counter is 32 bits wide and wraps. */
  function SharedId(n: nat): nat {
    (SHARED_START + n) % U32
  }

  class Transports {
    var ids: map<(Ip, Ip), nat>
    ghost var pairs: seq<(Ip, Ip)>
    var next: nat

    /** The pairs were given their ids in order. */
    ghost predicate Valid()
      reads this
    {
      && next == SharedId(|pairs|)
      && (forall p :: p in ids <==> p in pairs)
      && (forall i :: 0 <= i < |pairs| ==> pairs[i] in ids && ids[pairs[i]] == SharedId(i))
      && (forall i, j :: 0 <= i < j < |pairs| ==> pairs[i] != pairs[j])
    }

    constructor ()
      ensures Valid() && pairs == []
    {
      ids, pairs, next := map[], [], SHARED_START;
    }

    /** The id two hosts share, whichever asks, for ever after. */
    method Transport(x: Ip, y: Ip) returns (id: nat)
      requires Valid()
      modifies this
      ensures Valid() && Pair(x, y) in ids && ids[Pair(x, y)] == id
      ensures pairs == if Pair(x, y) in old(ids) then old(pairs) else old(pairs) + [Pair(x, y)]
      ensures forall p :: p in old(ids) ==> p in ids && ids[p] == old(ids)[p]
    {
      var p := Pair(x, y);
      if p !in ids {
        ids, next := ids[p := next], (next + 1) % U32;
        pairs := pairs + [p];
        WrapOnce(|pairs| - 1);
      }
      id := ids[p];
    }
  }

  lemma WrapOnce(n: nat)
    ensures (SharedId(n) + 1) % U32 == SharedId(n + 1)
  {
  }

  lemma EitherOrder(x: Ip, y: Ip)
    ensures Pair(x, y) == Pair(y, x)
    ensures forall u, v :: Pair(u, v) == Pair(x, y) <==> (u == x && v == y) || (u == y && v == x)
  {
  }

  /** Two pairs of hosts get different ids while there are fewer than 2^32 of them. */
  lemma SharedIdsDiffer(m: nat, n: nat)
    requires m < n < U32
    ensures SharedId(m) != SharedId(n)
  {
  }

  /** A shared id meets no edge's group id, whatever net id the pool gave it, exactly
      as long as the pairs stay below 2^20 and 101 more (or past the ids of the pool,
      until the counter wraps). */
  lemma SharedMeetsNoGroupIff(n: nat)
    requires n < U32 - SHARED_START
    ensures
      (forall id :: PoolId(NetIdPools.Vxlan, id) ==> SharedId(n) != GroupId(id))
      <==> n < 0x10_0000 + NetIdPools.MIN_NET_ID || n > 0x10_0000 + NetIdPools.MaxNetId(NetIdPools.Vxlan)
  {
    var id := n - 0x10_0000;
    if NetIdPools.MIN_NET_ID <= id <= NetIdPools.MaxNetId(NetIdPools.Vxlan) {
      assert PoolId(NetIdPools.Vxlan, id) && SharedId(n) == GroupId(id);
    }
  }
}
