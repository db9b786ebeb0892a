/** The stateful packet filter of the host NIC (ebpf/src/main.rs:97-264). */
module Firewalls {
  import opened Flows

  type Frame = seq<byte>
  type u32 = n: nat | n < 0x1_0000_0000
  type u16 = n: nat | n < 0x1_0000

  const ETH_LEN: nat := 14
  const IPV4_LEN: nat := 20
  const TCP_LEN: nat := 20
  const UDP_LEN: nat := 8
  const ETHERTYPE_IPV4: nat := 0x0800
  const ETHERTYPE_ARP: nat := 0x0806

  const ICMP: byte := 1
  const TCP: byte := 6
  const UDP: byte := 17
  const ESP: byte := 50

  const VXLAN_PORT: u16 := 47890
  const FORWARD_PORT: u16 := 9999

  datatype Tuple = Tuple(proto: byte, src: u32, srcPort: u16, dst: u32, dstPort: u16)

  /** What the headers say: let through untracked, drop, or decide by the tuple. */
  datatype Parsed = Pass | Shot | Tracked(tuple: Tuple)

  datatype Config = Config(serverIp: u32, controlPort: u16, gateway: bool, peers: set<u32>, allow: set<u32>)

  datatype CtKey = CtKey(ipA: u32, portA: u16, ipB: u32, portB: u16, proto: byte)

  function U16At(f: Frame, i: nat): u16
    requires i + 2 <= |f|
  {
    256 * f[i] as nat + f[i + 1] as nat
  }

  function U32At(f: Frame, i: nat): u32
    requires i + 4 <= |f|
  {
    65536 * U16At(f, i) + U16At(f, i + 2)
  }

  /** A header that does not fit in the frame drops it. Options are not looked at:
      ports are read right after a 20-byte IPv4 header. */
  function Parse(f: Frame): Parsed {
    if |f| < ETH_LEN then Shot
    else if U16At(f, 12) == ETHERTYPE_ARP then Pass
    else if U16At(f, 12) != ETHERTYPE_IPV4 || |f| < ETH_LEN + IPV4_LEN then Shot
    else
      var proto, src, dst := f[ETH_LEN + 9], U32At(f, ETH_LEN + 12), U32At(f, ETH_LEN + 16);
      var l4 := ETH_LEN + IPV4_LEN;
      if proto == TCP || proto == UDP then
        if |f| < l4 + (if proto == TCP then TCP_LEN else UDP_LEN) then Shot
        else Tracked(Tuple(proto, src, U16At(f, l4), dst, U16At(f, l4 + 2)))
      else if proto == ICMP then Pass
      else if proto == ESP then Tracked(Tuple(ESP, src, 0, dst, 0))
      else Shot
  }

  function Be16(n: u16): (r: seq<byte>)
    ensures |r| == 2 && U16At(r, 0) == n
  {
    [(n / 256) as byte, (n % 256) as byte]
  }

  function Be32(n: u32): (r: seq<byte>)
    ensures |r| == 4 && U32At(r, 0) == n
  {
    Be16(n / 65536) + Be16(n % 65536)
  }

  /** An IPv4 frame of a TCP, UDP or ESP packet: addresses of the link, the rest of
      the IPv4 header and whatever follows the ports can be anything. */
  function Encode(macs: Frame, ip: Frame, checksum: Frame, t: Tuple, rest: Frame): Frame {
    macs + Be16(ETHERTYPE_IPV4) + ip + [t.proto] + checksum + Be32(t.src) + Be32(t.dst)
    + (if t.proto == ESP then [] else Be16(t.srcPort) + Be16(t.dstPort)) + rest
  }

  /** The filter sees in a frame the tuple that was put there, ports and addresses
      the right way round. */
  lemma ParseReadsTuple(macs: Frame, ip: Frame, checksum: Frame, t: Tuple, rest: Frame)
    requires |macs| == 12 && |ip| == 9 && |checksum| == 2
    requires t.proto == TCP || t.proto == UDP || (t.proto == ESP && t.srcPort == t.dstPort == 0)
    requires t.proto == TCP ==> |rest| >= TCP_LEN - 4
    requires t.proto == UDP ==> |rest| >= UDP_LEN - 4
    ensures Parse(Encode(macs, ip, checksum, t, rest)) == Tracked(t)
  {
  }

  predicate ControlPlane(c: Config, t: Tuple) {
    (t.dst == c.serverIp && t.dstPort == c.controlPort) || (t.src == c.serverIp && t.srcPort == c.controlPort)
  }

  predicate DataPlane(c: Config, t: Tuple) {
    && (t.dstPort == VXLAN_PORT || t.srcPort == VXLAN_PORT || t.dstPort == FORWARD_PORT || t.srcPort == FORWARD_PORT)
    && PeerEnd(c, t)
  }

  predicate PeerEnd(c: Config, t: Tuple) {
    t.src in c.peers || t.dst in c.peers
  }

  /** Direction, protocol and port packed into one word. */
  function AllowKey(egress: bool, proto: byte, port_: u16): u32 {
    (if egress then 0x100_0000 else 0) + 0x1_0000 * proto as nat + port_
  }

  lemma AllowKeyIsInjective(e1: bool, p1: byte, d1: u16, e2: bool, p2: byte, d2: u16)
    requires AllowKey(e1, p1, d1) == AllowKey(e2, p2, d2)
    ensures e1 == e2 && p1 == p2 && d1 == d2
  {
  }

  predicate BaseAllow(c: Config, egress: bool, t: Tuple) {
    || (t.proto == TCP && ControlPlane(c, t))
    || (t.proto == UDP && DataPlane(c, t))
    || (t.proto == ESP && PeerEnd(c, t))
    || (c.gateway && egress)
    || AllowKey(egress, t.proto, t.dstPort) in c.allow
  }

  /** The plumbing rules do not care about direction: a strict node with an empty
      allowlist admits a packet exactly when it admits its reverse. */
  lemma PlumbingIsSymmetric(c: Config, egress: bool, t: Tuple)
    requires !c.gateway && c.allow == {}
    ensures BaseAllow(c, egress, t) == BaseAllow(c, !egress, Reverse(t))
  {
  }

  /** The endpoints in a fixed order, so both directions have one key. */
  function Key(t: Tuple): CtKey {
    if t.src < t.dst || (t.src == t.dst && t.srcPort <= t.dstPort)
    then CtKey(t.src, t.srcPort, t.dst, t.dstPort, t.proto)
    else CtKey(t.dst, t.dstPort, t.src, t.srcPort, t.proto)
  }

  function Reverse(t: Tuple): Tuple {
    Tuple(t.proto, t.dst, t.dstPort, t.src, t.srcPort)
  }

  /** A key stands for a flow in both directions, and for nothing else. */
  lemma KeyIsFlow(t: Tuple, u: Tuple)
    ensures Key(t) == Key(u) <==> u == t || u == Reverse(t)
  {
  }

  // ------------------------------------------------------------------- the filter

  predicate Accepts(c: Config, ct: set<CtKey>, f: Frame, egress: bool) {
    match Parse(f)
    case Pass => true
    case Shot => false
    case Tracked(t) => Key(t) in ct || BaseAllow(c, egress, t)
  }

  function CtAfter(c: Config, ct: set<CtKey>, f: Frame, egress: bool): set<CtKey> {
    if Parse(f).Tracked? && Accepts(c, ct, f, egress) then ct + {Key(Parse(f).tuple)} else ct
  }

  class Firewall {
    var config: Config
    var ct: set<CtKey>

    constructor (c: Config)
      ensures config == c && ct == {}
    {
      config, ct := c, {};
    }

    method Filter(f: Frame, egress: bool) returns (ok: bool)
      modifies this
      ensures ok == Accepts(config, old(ct), f, egress)
      ensures config == old(config) && ct == CtAfter(config, old(ct), f, egress)
    {
      var p := Parse(f);
      match p {
        case Pass => ok := true;
        case Shot => ok := false;
        case Tracked(t) =>
          var key := Key(t);
          ok := key in ct || BaseAllow(config, egress, t);
          if ok {
            ct := ct + {key};
          }
      }
    }
  }

  // --------------------------------------------------------------------- every run

  /** Packets in either direction, with evictions from the table and changes of the
      configuration at any time. */
  datatype Event =
    | Packet(frame: Frame, egress: bool)
    | Evict(keys: set<CtKey>)
    | Configure(config: Config)

  datatype State = State(config: Config, ct: set<CtKey>)

  ghost function Step(s: State, e: Event): State {
    match e
    case Packet(f, egress) => s.(ct := CtAfter(s.config, s.ct, f, egress))
    case Evict(keys) => s.(ct := s.ct - keys)
    case Configure(c) => s.(config := c)
  }

  /** The filter before event `n`. */
  ghost function At(c: Config, es: seq<Event>, n: nat): State
    requires n <= |es|
  {
    if n == 0 then State(c, {}) else Step(At(c, es, n - 1), es[n - 1])
  }

  ghost predicate AcceptedAt(c: Config, es: seq<Event>, i: nat) {
    i < |es| && es[i].Packet? && Accepts(At(c, es, i).config, At(c, es, i).ct, es[i].frame, es[i].egress)
  }

  ghost predicate TrackedAt(es: seq<Event>, i: nat) {
    i < |es| && es[i].Packet? && Parse(es[i].frame).Tracked?
  }

  ghost function TupleAt(es: seq<Event>, i: nat): Tuple
    requires TrackedAt(es, i)
  {
    Parse(es[i].frame).tuple
  }

  /** Packet `j` was one the rules themselves allow, as they were then. */
  ghost predicate BaseAllowedAt(c: Config, es: seq<Event>, j: nat) {
    TrackedAt(es, j) && BaseAllow(At(c, es, j).config, es[j].egress, TupleAt(es, j))
  }

  ghost predicate Origin(c: Config, es: seq<Event>, n: nat, key: CtKey, j: nat) {
    j < n && BaseAllowedAt(c, es, j) && Key(TupleAt(es, j)) == key
  }

  lemma {:induction false} KeysHaveOrigins(c: Config, es: seq<Event>, n: nat, key: CtKey)
    requires n <= |es| && key in At(c, es, n).ct
    ensures exists j :: Origin(c, es, n, key, j)
  {
    if key in At(c, es, n - 1).ct {
      KeysHaveOrigins(c, es, n - 1, key);
      var j :| Origin(c, es, n - 1, key, j);
      assert Origin(c, es, n, key, j);
    } else {
      assert Origin(c, es, n, key, n - 1);
    }
  }

  /** On every run, each TCP, UDP or ESP packet let through is, up to swapping its
      endpoints, one that the rules allowed then or had allowed before. */
  lemma AcceptedWasAllowed(c: Config, es: seq<Event>, i: nat)
    requires AcceptedAt(c, es, i) && TrackedAt(es, i)
    ensures
      exists j :: 0 <= j <= i && BaseAllowedAt(c, es, j)
                  && (TupleAt(es, j) == TupleAt(es, i) || TupleAt(es, j) == Reverse(TupleAt(es, i)))
  {
    var key := Key(TupleAt(es, i));
    if key in At(c, es, i).ct {
      KeysHaveOrigins(c, es, i, key);
      var j :| Origin(c, es, i, key, j);
      KeyIsFlow(TupleAt(es, i), TupleAt(es, j));
    } else {
      assert BaseAllowedAt(c, es, i);
    }
  }

  ghost predicate Survives(es: seq<Event>, i: nat, n: nat, key: CtKey) {
    forall j :: i < j < n && j < |es| && es[j].Evict? ==> key !in es[j].keys
  }

  lemma {:induction false} KeyStays(c: Config, es: seq<Event>, i: nat, n: nat)
    requires AcceptedAt(c, es, i) && TrackedAt(es, i) && i < n <= |es| && Survives(es, i, n, Key(TupleAt(es, i)))
    ensures Key(TupleAt(es, i)) in At(c, es, n).ct
  {
    if n > i + 1 {
      KeyStays(c, es, i, n - 1);
      assert es[n - 1].Evict? ==> Key(TupleAt(es, i)) !in es[n - 1].keys;
    }
  }

  /** The reply to a packet let through is let through, in either direction and
      whatever the configuration has become, as long as its key is not evicted. */
  lemma RepliesAreAccepted(c: Config, es: seq<Event>, i: nat, n: nat)
    requires AcceptedAt(c, es, i) && TrackedAt(es, i) && i < n
    requires TrackedAt(es, n) && TupleAt(es, n) == Reverse(TupleAt(es, i))
    requires Survives(es, i, n, Key(TupleAt(es, i)))
    ensures AcceptedAt(c, es, n)
  {
    KeyStays(c, es, i, n);
    KeyIsFlow(TupleAt(es, i), TupleAt(es, n));
  }
}
