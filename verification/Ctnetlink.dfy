/** The hand-written ctnetlink parser (members/nullnet-client/src/conntrack.rs:51-140):
    netlink messages framed as in section 2.3.2 of RFC 3549, holding nested
    type-length-value attributes. `le` is the byte order of the host, which the
    headers use; addresses and ports inside are big-endian. */
module Ctnetlink {
  import opened Basics
  import opened Flows

  type Bytes = seq<byte>

  const CTA_TUPLE_ORIG: nat := 1
  const CTA_TUPLE_IP: nat := 1
  const CTA_TUPLE_PROTO: nat := 2
  const CTA_IP_V4_SRC: nat := 1
  const CTA_IP_V4_DST: nat := 2
  const CTA_PROTO_NUM: nat := 1
  const CTA_PROTO_SRC_PORT: nat := 2
  const CTA_PROTO_DST_PORT: nat := 3

  /** `ty & NLA_TYPE_MASK` with NLA_TYPE_MASK = 0x3fff keeps the low 14 bits. */
  const NLA_TYPES: nat := 0x4000

  const NLMSG_HDR_LEN: nat := 16
  const NFGENMSG_LEN: nat := 4
  const IPCTNL_MSG_CT_DELETE: nat := 2

  function U16(le: bool, x: byte, y: byte): nat {
    if le then x as nat + 256 * y as nat else 256 * x as nat + y as nat
  }

  function U32(le: bool, x: byte, y: byte, z: byte, w: byte): nat {
    if le then U16(le, x, y) + 65536 * U16(le, z, w) else 65536 * U16(le, x, y) + U16(le, z, w)
  }

  /** `(len + 3) & !3`. */
  function Align(len: nat): nat {
    (len + 3) / 4 * 4
  }

  /** What is left after `n` bytes, nothing when they run past the end. */
  function Drop(b: Bytes, n: nat): Bytes {
    if n <= |b| then b[n..] else []
  }

  /** `t` is what `b` holds from offset `off` on. */
  ghost predicate Rest(t: Bytes, b: Bytes, off: nat) {
    if off <= |b|
    then |t| == |b| - off && forall k {:trigger t[k]} :: 0 <= k < |t| ==> t[k] == b[off + k]
    else t == []
  }

  lemma RestSlice(t: Bytes, b: Bytes, off: nat, lo: nat, hi: nat)
    requires Rest(t, b, off) && lo <= hi && off + hi <= |b|
    ensures hi <= |t| && t[lo..hi] == b[off + lo..off + hi]
  {
  }

  lemma RestDrop(t: Bytes, b: Bytes, off: nat, n: nat)
    requires Rest(t, b, off)
    ensures Rest(Drop(t, n), b, off + n)
  {
  }

  // ---------------------------------------------------------------- attributes

  /** The payload of the first attribute of type `want`; a malformed length ends
      the walk. */
  function Find(le: bool, b: Bytes, want: nat): Option<Bytes>
    decreases |b|
  {
    if |b| < 4 then None
    else
      var len := U16(le, b[0], b[1]);
      if len < 4 || len > |b| then None
      else if U16(le, b[2], b[3]) % NLA_TYPES == want then Some(b[4..len])
      else Find(le, Drop(b, Align(len)), want)
  }

  /** The walk as the source does it, advancing an offset into one buffer. */
  method FindAttr(le: bool, b: Bytes, want: nat) returns (r: Option<Bytes>)
    ensures r == Find(le, b, want)
  {
    var off := 0;
    ghost var t := b;
    while off + 4 <= |b|
      invariant Rest(t, b, off) && Find(le, t, want) == Find(le, b, want)
      decreases |b| - off
    {
      var len := U16(le, b[off], b[off + 1]);
      var ty := U16(le, b[off + 2], b[off + 3]) % NLA_TYPES;
      assert len == U16(le, t[0], t[1]) && ty == U16(le, t[2], t[3]) % NLA_TYPES;
      if len < 4 || off + len > |b| {
        return None;
      }
      RestSlice(t, b, off, 4, len);
      if ty == want {
        return Some(b[off + 4..off + len]);
      }
      RestDrop(t, b, off, Align(len));
      t := Drop(t, Align(len));
      off := off + Align(len);
    }
    r := None;
  }

  function BeU16(b: Bytes): Option<port> {
    if |b| < 2 then None else Some(256 * b[0] as port + b[1] as port)
  }

  function BeIpv4(b: Bytes): Option<Ipv4> {
    if |b| < 4 then None else Some(Ipv4(b[0], b[1], b[2], b[3]))
  }

  function BindAddr(b: Option<Bytes>): Option<Ipv4> {
    if b.None? then None else BeIpv4(b.value)
  }

  function BindPort(b: Option<Bytes>): Option<port> {
    if b.None? then None else BeU16(b.value)
  }

  /** Assemble the tuple from its five fields; only TCP and UDP are tracked. */
  function Tuple(num: Option<Bytes>, src: Option<Bytes>, dst: Option<Bytes>,
                 srcPort: Option<Bytes>, dstPort: Option<Bytes>): Option<Flow>
  {
    if num.None? || |num.value| == 0 then None
    else if num.value[0] != PROTO_TCP && num.value[0] != PROTO_UDP then None
    else
      match (BindAddr(src), BindAddr(dst), BindPort(srcPort), BindPort(dstPort))
      case (Some(s), Some(d), Some(sp), Some(dp)) => Some(Flow(s, sp, d, dp, num.value[0]))
      case _ => None
  }

  /** The tuple in an address attribute and a protocol attribute. */
  function TupleIn(le: bool, ip: Bytes, proto: Bytes): Option<Flow> {
    Tuple(Find(le, proto, CTA_PROTO_NUM), Find(le, ip, CTA_IP_V4_SRC), Find(le, ip, CTA_IP_V4_DST),
          Find(le, proto, CTA_PROTO_SRC_PORT), Find(le, proto, CTA_PROTO_DST_PORT))
  }

  /** The original-direction tuple of one message body. */
  function OrigTuple(le: bool, body: Bytes): Option<Flow> {
    var tuple := Find(le, body, CTA_TUPLE_ORIG);
    if tuple.None? then None
    else
      var ip := Find(le, tuple.value, CTA_TUPLE_IP);
      var proto := Find(le, tuple.value, CTA_TUPLE_PROTO);
      if ip.None? || proto.None? then None else TupleIn(le, ip.value, proto.value)
  }

  method ParseOrigTuple(le: bool, body: Bytes) returns (flow: Option<Flow>)
    ensures flow == OrigTuple(le, body)
  {
    var tuple := FindAttr(le, body, CTA_TUPLE_ORIG);
    if tuple.None? { return None; }
    var ip := FindAttr(le, tuple.value, CTA_TUPLE_IP);
    if ip.None? { return None; }
    var src := FindAttr(le, ip.value, CTA_IP_V4_SRC);
    var dst := FindAttr(le, ip.value, CTA_IP_V4_DST);
    var proto := FindAttr(le, tuple.value, CTA_TUPLE_PROTO);
    if proto.None? { return None; }
    var num := FindAttr(le, proto.value, CTA_PROTO_NUM);
    var srcPort := FindAttr(le, proto.value, CTA_PROTO_SRC_PORT);
    var dstPort := FindAttr(le, proto.value, CTA_PROTO_DST_PORT);
    flow := Tuple(num, src, dst, srcPort, dstPort);
  }

  // ------------------------------------------------------------------ messages

  function ToSeq(f: Option<Flow>): seq<Flow> {
    if f.None? then [] else [f.value]
  }

  /** What one message of type `ty` closes, `body` being what follows its header. */
  function Closes(le: bool, ty: nat, body: Bytes): seq<Flow> {
    if ty % 256 == IPCTNL_MSG_CT_DELETE && NFGENMSG_LEN <= |body|
    then ToSeq(OrigTuple(le, body[NFGENMSG_LEN..]))
    else []
  }

  function Batch(le: bool, b: Bytes): seq<Flow>
    decreases |b|
  {
    if |b| < NLMSG_HDR_LEN then []
    else
      var len := U32(le, b[0], b[1], b[2], b[3]);
      if len < NLMSG_HDR_LEN || len > |b| then []
      else Closes(le, U16(le, b[4], b[5]), b[NLMSG_HDR_LEN..len]) + Batch(le, Drop(b, Align(len)))
  }

  method Close(le: bool, ty: nat, body: Bytes) returns (out: seq<Flow>)
    ensures out == Closes(le, ty, body)
  {
    out := [];
    if ty % 256 == IPCTNL_MSG_CT_DELETE && NFGENMSG_LEN <= |body| {
      var flow := ParseOrigTuple(le, body[NFGENMSG_LEN..]);
      if flow.Some? {
        out := [flow.value];
      }
    }
  }

  /** `out` is what the first `off` bytes of `b` close, `t` what is left of them. */
  ghost predicate Parsed(le: bool, b: Bytes, off: nat, t: Bytes, out: seq<Flow>) {
    Rest(t, b, off) && out + Batch(le, t) == Batch(le, b)
  }

  lemma BatchUnfolds(le: bool, t: Bytes, len: nat)
    requires NLMSG_HDR_LEN <= len <= |t| && len == U32(le, t[0], t[1], t[2], t[3])
    ensures
      Batch(le, t) == Closes(le, U16(le, t[4], t[5]), t[NLMSG_HDR_LEN..len]) + Batch(le, Drop(t, Align(len)))
  {
  }

  lemma Reassociate(out: seq<Flow>, flows: seq<Flow>, rest: seq<Flow>)
    ensures out + flows + rest == out + (flows + rest)
  {
  }

  /** Read the message at an offset, `t` being what is left there: its length and what
      it closes, or zero if it is malformed and the walk must end. */
  method ReadMessage(le: bool, b: Bytes, off: nat, ghost t: Bytes) returns (len: nat, flows: seq<Flow>)
    requires Rest(t, b, off) && off + NLMSG_HDR_LEN <= |b|
    ensures len == 0 ==> Batch(le, t) == []
    ensures len > 0 ==> Batch(le, t) == flows + Batch(le, Drop(t, Align(len)))
  {
    len, flows := U32(le, b[off], b[off + 1], b[off + 2], b[off + 3]), [];
    var ty := U16(le, b[off + 4], b[off + 5]);
    assert len == U32(le, t[0], t[1], t[2], t[3]) && ty == U16(le, t[4], t[5]);
    if len < NLMSG_HDR_LEN || off + len > |b| {
      return 0, [];
    }
    RestSlice(t, b, off, NLMSG_HDR_LEN, len);
    flows := Close(le, ty, b[off + NLMSG_HDR_LEN..off + len]);
    BatchUnfolds(le, t, len);
  }

  lemma ParsedMore(le: bool, b: Bytes, off: nat, t: Bytes, out: seq<Flow>, len: nat, flows: seq<Flow>)
    requires Parsed(le, b, off, t, out) && Batch(le, t) == flows + Batch(le, Drop(t, Align(len)))
    ensures Parsed(le, b, off + Align(len), Drop(t, Align(len)), out + flows)
  {
    Reassociate(out, flows, Batch(le, Drop(t, Align(len))));
    RestDrop(t, b, off, Align(len));
  }

  lemma ParsedAll(le: bool, b: Bytes, off: nat, t: Bytes, out: seq<Flow>)
    requires Parsed(le, b, off, t, out) && Batch(le, t) == []
    ensures out == Batch(le, b)
  {
  }

  lemma ParsedShort(le: bool, b: Bytes, off: nat, t: Bytes, out: seq<Flow>)
    requires Parsed(le, b, off, t, out) && |b| < off + NLMSG_HDR_LEN
    ensures out == Batch(le, b)
  {
    assert Batch(le, t) == [];
  }

  /** Every DESTROY tuple of one datagram. */
  method ParseDestroyBatch(le: bool, b: Bytes) returns (out: seq<Flow>)
    ensures out == Batch(le, b)
  {
    out := [];
    var off := 0;
    ghost var t := b;
    while off + NLMSG_HDR_LEN <= |b|
      invariant Parsed(le, b, off, t, out)
      decreases |b| - off
    {
      var len, flows := ReadMessage(le, b, off, t);
      if len == 0 {
        ParsedAll(le, b, off, t, out);
        return;
      }
      ParsedMore(le, b, off, t, out, len, flows);
      t := Drop(t, Align(len));
      out := out + flows;
      off := off + Align(len);
    }
    ParsedShort(le, b, off, t, out);
  }
}
