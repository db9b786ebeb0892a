/** What the kernel sends, as trees, and the proof that the parser reads every
    encoding of them back: exactly the original-direction TCP and UDP tuples of
    the DELETE messages, in order. */
module CtnetlinkRoundTrip {
  import opened Basics
  import opened Flows
  import opened Ctnetlink

  /** One attribute. `flags` are the two high type bits, `pad` the bytes (of any
      value) up to the next multiple of four. */
  datatype Attr =
    | Data(ty: nat, flags: nat, bytes: Bytes, pad: Bytes)
    | Nest(ty: nat, flags: nat, kids: seq<Attr>, pad: Bytes)

  function E16(le: bool, n: nat): (r: Bytes)
    requires n < 0x1_0000
    ensures |r| == 2 && U16(le, r[0], r[1]) == n
  {
    if le then [(n % 256) as byte, (n / 256) as byte] else [(n / 256) as byte, (n % 256) as byte]
  }

  function E32(le: bool, n: nat): (r: Bytes)
    requires n < 0x1_0000_0000
    ensures |r| == 4 && U32(le, r[0], r[1], r[2], r[3]) == n
  {
    if le then E16(le, n % 0x1_0000) + E16(le, n / 0x1_0000)
    else E16(le, n / 0x1_0000) + E16(le, n % 0x1_0000)
  }

  function Payload(le: bool, a: Attr): Bytes
    decreases a
  {
    match a
    case Data(_, _, bytes, _) => bytes
    case Nest(_, _, kids, _) => EncodeAll(le, kids)
  }

  function EncodeAll(le: bool, attrs: seq<Attr>): Bytes
    decreases attrs
  {
    if attrs == [] then []
    else
      Frame(le, Payload(le, attrs[0]), attrs[0].flags, attrs[0].ty, attrs[0].pad)
      + EncodeAll(le, attrs[1..])
  }

  function Header(le: bool, len: nat, ty: nat): Bytes {
    E16(le, len % 0x1_0000) + E16(le, ty % 0x1_0000)
  }

  /** Header, payload and padding; lengths and types are cut to sixteen bits. */
  function Frame(le: bool, payload: Bytes, flags: nat, ty: nat, pad: Bytes): Bytes {
    Header(le, 4 + |payload|, flags * NLA_TYPES + ty) + payload + pad
  }

  ghost predicate Padded(len: nat, pad: Bytes) {
    len + |pad| == Align(len)
  }

  ghost predicate Fits(le: bool, a: Attr)
    decreases a
  {
    && a.ty < NLA_TYPES
    && a.flags < 4
    && 4 + |Payload(le, a)| < 0x1_0000
    && Padded(4 + |Payload(le, a)|, a.pad)
    && (a.Nest? ==> FitsAll(le, a.kids))
  }

  ghost predicate FitsAll(le: bool, attrs: seq<Attr>)
    decreases attrs
  {
    forall i :: 0 <= i < |attrs| ==> Fits(le, attrs[i])
  }

  function First(attrs: seq<Attr>, want: nat): (r: Option<Attr>)
    ensures r.Some? ==> r.value in attrs && r.value.ty == want
  {
    if attrs == [] then None
    else if attrs[0].ty == want then Some(attrs[0])
    else First(attrs[1..], want)
  }

  function PayloadOf(le: bool, a: Option<Attr>): Option<Bytes> {
    if a.None? then None else Some(Payload(le, a.value))
  }

  // ---------------------------------------------------------- reading attributes

  /** Where the parts of header, payload, padding and what follows lie. */
  lemma Layout(header: Bytes, payload: Bytes, pad: Bytes, rest: Bytes)
    ensures
      var b := header + payload + pad + rest;
      var len := |header| + |payload|;
      && b[..|header|] == header
      && b[|header|..len] == payload
      && b[len + |pad|..] == rest
  {
  }

  lemma FindFramed(le: bool, b: Bytes, payload: Bytes, ty: nat, rest: Bytes, want: nat)
    requires |b| >= Align(4 + |payload|)
    requires U16(le, b[0], b[1]) == 4 + |payload| && U16(le, b[2], b[3]) % NLA_TYPES == ty
    requires b[4..4 + |payload|] == payload && b[Align(4 + |payload|)..] == rest
    ensures Find(le, b, want) == if ty == want then Some(payload) else Find(le, rest, want)
  {
  }

  lemma FindFrame(le: bool, payload: Bytes, flags: nat, ty: nat, pad: Bytes, rest: Bytes, want: nat)
    requires 4 + |payload| < 0x1_0000 && flags < 4 && ty < NLA_TYPES && Padded(4 + |payload|, pad)
    ensures
      Find(le, Frame(le, payload, flags, ty, pad) + rest, want)
      == if ty == want then Some(payload) else Find(le, rest, want)
  {
    var header := Header(le, 4 + |payload|, flags * NLA_TYPES + ty);
    HeaderReads(le, 4 + |payload|, flags * NLA_TYPES + ty);
    FindParts(le, header, payload, ty, pad, rest, want);
  }

  lemma HeaderReads(le: bool, len: nat, ty: nat)
    requires len < 0x1_0000 && ty < 0x1_0000
    ensures
      var h := Header(le, len, ty);
      |h| == 4 && U16(le, h[0], h[1]) == len && U16(le, h[2], h[3]) == ty
  {
  }

  lemma FindParts(le: bool, header: Bytes, payload: Bytes, ty: nat, pad: Bytes, rest: Bytes, want: nat)
    requires |header| == 4 && Padded(4 + |payload|, pad)
    requires U16(le, header[0], header[1]) == 4 + |payload| && U16(le, header[2], header[3]) % NLA_TYPES == ty
    ensures
      Find(le, header + payload + pad + rest, want) == if ty == want then Some(payload) else Find(le, rest, want)
  {
    var b := header + payload + pad + rest;
    Layout(header, payload, pad, rest);
    assert forall k :: 0 <= k < 4 ==> b[k] == header[k];
    FindFramed(le, b, payload, ty, rest, want);
  }

  /** Looking for a type in encoded attributes finds the first of that type, and
      otherwise goes on in what follows them. */
  lemma {:induction false} FindInEncoded(le: bool, attrs: seq<Attr>, tail: Bytes, want: nat)
    requires FitsAll(le, attrs)
    ensures
      Find(le, EncodeAll(le, attrs) + tail, want)
      == match First(attrs, want) case Some(a) => Some(Payload(le, a)) case None => Find(le, tail, want)
  {
    if attrs == [] {
      assert EncodeAll(le, attrs) + tail == tail;
    } else {
      var a, rest := attrs[0], EncodeAll(le, attrs[1..]);
      var head := Frame(le, Payload(le, a), a.flags, a.ty, a.pad);
      assert EncodeAll(le, attrs) + tail == head + (rest + tail);
      FindFrame(le, Payload(le, a), a.flags, a.ty, a.pad, rest + tail, want);
      FindInEncoded(le, attrs[1..], tail, want);
    }
  }

  lemma FindInPayload(le: bool, a: Attr, want: nat)
    requires a.Nest? && Fits(le, a)
    ensures Find(le, Payload(le, a), want) == PayloadOf(le, First(a.kids, want))
  {
    FindInEncoded(le, a.kids, [], want);
    assert EncodeAll(le, a.kids) + [] == Payload(le, a);
  }

  // -------------------------------------------------------------- one message body

  ghost predicate NestIfAny(a: Option<Attr>) {
    a.Some? ==> a.value.Nest?
  }

  /** The attributes the tuple is nested in are nests. */
  ghost predicate Shaped(attrs: seq<Attr>) {
    var orig := First(attrs, CTA_TUPLE_ORIG);
    && NestIfAny(orig)
    && (orig.Some? ==>
          && NestIfAny(First(orig.value.kids, CTA_TUPLE_IP))
          && NestIfAny(First(orig.value.kids, CTA_TUPLE_PROTO)))
  }

  ghost function TreeTupleIn(le: bool, ip: Attr, proto: Attr): Option<Flow>
    requires ip.Nest? && proto.Nest?
  {
    Tuple(PayloadOf(le, First(proto.kids, CTA_PROTO_NUM)),
          PayloadOf(le, First(ip.kids, CTA_IP_V4_SRC)), PayloadOf(le, First(ip.kids, CTA_IP_V4_DST)),
          PayloadOf(le, First(proto.kids, CTA_PROTO_SRC_PORT)), PayloadOf(le, First(proto.kids, CTA_PROTO_DST_PORT)))
  }

  /** The original tuple read off the tree. */
  ghost function TreeTuple(le: bool, attrs: seq<Attr>): Option<Flow>
    requires Shaped(attrs)
  {
    var orig := First(attrs, CTA_TUPLE_ORIG);
    if orig.None? then None
    else
      var ip := First(orig.value.kids, CTA_TUPLE_IP);
      var proto := First(orig.value.kids, CTA_TUPLE_PROTO);
      if ip.None? || proto.None? then None else TreeTupleIn(le, ip.value, proto.value)
  }

  lemma FitsInside(le: bool, attrs: seq<Attr>, want: nat)
    requires FitsAll(le, attrs)
    ensures First(attrs, want).Some? ==> Fits(le, First(attrs, want).value)
  {
  }

  lemma TupleInEncoded(le: bool, ip: Attr, proto: Attr)
    requires ip.Nest? && proto.Nest? && Fits(le, ip) && Fits(le, proto)
    ensures TupleIn(le, Payload(le, ip), Payload(le, proto)) == TreeTupleIn(le, ip, proto)
  {
    FindInPayload(le, ip, CTA_IP_V4_SRC);
    FindInPayload(le, ip, CTA_IP_V4_DST);
    FindInPayload(le, proto, CTA_PROTO_NUM);
    FindInPayload(le, proto, CTA_PROTO_SRC_PORT);
    FindInPayload(le, proto, CTA_PROTO_DST_PORT);
  }

  lemma OrigTupleOfEncoded(le: bool, attrs: seq<Attr>)
    requires FitsAll(le, attrs) && Shaped(attrs)
    ensures OrigTuple(le, EncodeAll(le, attrs)) == TreeTuple(le, attrs)
  {
    var orig := First(attrs, CTA_TUPLE_ORIG);
    FindInEncoded(le, attrs, [], CTA_TUPLE_ORIG);
    assert EncodeAll(le, attrs) + [] == EncodeAll(le, attrs);
    if orig.Some? {
      FitsInside(le, attrs, CTA_TUPLE_ORIG);
      FindInPayload(le, orig.value, CTA_TUPLE_IP);
      FindInPayload(le, orig.value, CTA_TUPLE_PROTO);
      var ip := First(orig.value.kids, CTA_TUPLE_IP);
      var proto := First(orig.value.kids, CTA_TUPLE_PROTO);
      if ip.Some? && proto.Some? {
        FitsInside(le, orig.value.kids, CTA_TUPLE_IP);
        FitsInside(le, orig.value.kids, CTA_TUPLE_PROTO);
        TupleInEncoded(le, ip.value, proto.value);
      }
    }
  }

  /** The tree's original tuple holds exactly the fields of `f`. */
  ghost predicate Holds(attrs: seq<Attr>, f: Flow) {
    && Shaped(attrs)
    && var orig := First(attrs, CTA_TUPLE_ORIG);
    && orig.Some?
    && var ip := First(orig.value.kids, CTA_TUPLE_IP);
    && var proto := First(orig.value.kids, CTA_TUPLE_PROTO);
    && ip.Some? && proto.Some?
    && HoldsBytes(ip.value.kids, CTA_IP_V4_SRC, [f.srcIp.a, f.srcIp.b, f.srcIp.c, f.srcIp.d])
    && HoldsBytes(ip.value.kids, CTA_IP_V4_DST, [f.dstIp.a, f.dstIp.b, f.dstIp.c, f.dstIp.d])
    && HoldsBytes(proto.value.kids, CTA_PROTO_NUM, [f.proto])
    && HoldsBytes(proto.value.kids, CTA_PROTO_SRC_PORT, E16(false, f.srcPort as nat))
    && HoldsBytes(proto.value.kids, CTA_PROTO_DST_PORT, E16(false, f.dstPort as nat))
  }

  ghost predicate HoldsBytes(attrs: seq<Attr>, ty: nat, bytes: Bytes) {
    var a := First(attrs, ty);
    a.Some? && a.value.Data? && a.value.bytes == bytes
  }

  lemma TreeTupleOfHeld(le: bool, attrs: seq<Attr>, f: Flow)
    requires Holds(attrs, f)
    ensures
      TreeTuple(le, attrs)
      == if f.proto == PROTO_TCP || f.proto == PROTO_UDP then Some(f) else None
  {
    PortBytes(f.srcPort);
    PortBytes(f.dstPort);
  }

  lemma PortBytes(p: port)
    ensures BeU16(E16(false, p as nat)) == Some(p)
  {
  }

  // ------------------------------------------------------------------ the datagram

  /** A message: a conntrack event, or anything else a datagram may carry. `mid`
      is the rest of the header: flags, sequence number and port id. */
  datatype Message =
    | Event(ty: nat, mid: Bytes, gen: Bytes, attrs: seq<Attr>, pad: Bytes)
    | Other(ty: nat, mid: Bytes, body: Bytes, pad: Bytes)

  function Body(le: bool, m: Message): Bytes {
    match m
    case Event(_, _, gen, attrs, _) => gen + EncodeAll(le, attrs)
    case Other(_, _, body, _) => body
  }

  function MessageHeader(le: bool, len: nat, ty: nat, mid: Bytes): Bytes {
    E32(le, len % 0x1_0000_0000) + E16(le, ty % 0x1_0000) + mid
  }

  function EncodeMessage(le: bool, m: Message): Bytes {
    MessageHeader(le, NLMSG_HDR_LEN + |Body(le, m)|, m.ty, m.mid) + Body(le, m) + m.pad
  }

  function EncodeBatch(le: bool, batch: seq<Message>): Bytes {
    if batch == [] then [] else EncodeMessage(le, batch[0]) + EncodeBatch(le, batch[1..])
  }

  ghost predicate FitsMessage(le: bool, m: Message) {
    && m.ty < 0x1_0000
    && |m.mid| == 10
    && NLMSG_HDR_LEN + |Body(le, m)| < 0x1_0000_0000
    && Padded(NLMSG_HDR_LEN + |Body(le, m)|, m.pad)
    && (m.Event? ==> |m.gen| == NFGENMSG_LEN && FitsAll(le, m.attrs) && Shaped(m.attrs))
    && (m.Other? ==> m.ty % 256 != IPCTNL_MSG_CT_DELETE || |m.body| < NFGENMSG_LEN)
  }

  ghost predicate FitsBatch(le: bool, batch: seq<Message>) {
    forall m :: m in batch ==> FitsMessage(le, m)
  }

  ghost function ClosedByOne(le: bool, m: Message): seq<Flow>
    requires FitsMessage(le, m)
  {
    if m.Event? && m.ty % 256 == IPCTNL_MSG_CT_DELETE then ToSeq(TreeTuple(le, m.attrs)) else []
  }

  /** What a batch closes: the tuples of its DELETE events, in order. */
  ghost function ClosedBy(le: bool, batch: seq<Message>): seq<Flow>
    requires FitsBatch(le, batch)
  {
    if batch == [] then [] else ClosedByOne(le, batch[0]) + ClosedBy(le, batch[1..])
  }

  lemma BatchFramed(le: bool, b: Bytes, ty: nat, body: Bytes, rest: Bytes)
    requires |b| >= Align(NLMSG_HDR_LEN + |body|)
    requires U32(le, b[0], b[1], b[2], b[3]) == NLMSG_HDR_LEN + |body| && U16(le, b[4], b[5]) == ty
    requires b[NLMSG_HDR_LEN..NLMSG_HDR_LEN + |body|] == body
    requires b[Align(NLMSG_HDR_LEN + |body|)..] == rest
    ensures Batch(le, b) == Closes(le, ty, body) + Batch(le, rest)
  {
  }

  lemma MessageHeaderReads(le: bool, len: nat, ty: nat, mid: Bytes)
    requires len < 0x1_0000_0000 && ty < 0x1_0000
    ensures
      var h := MessageHeader(le, len, ty, mid);
      && |h| == 6 + |mid|
      && U32(le, h[0], h[1], h[2], h[3]) == len
      && U16(le, h[4], h[5]) == ty
  {
  }

  lemma BatchOfParts(le: bool, header: Bytes, ty: nat, body: Bytes, pad: Bytes, rest: Bytes)
    requires |header| == NLMSG_HDR_LEN && Padded(NLMSG_HDR_LEN + |body|, pad)
    requires U32(le, header[0], header[1], header[2], header[3]) == NLMSG_HDR_LEN + |body|
    requires U16(le, header[4], header[5]) == ty
    ensures Batch(le, header + body + pad + rest) == Closes(le, ty, body) + Batch(le, rest)
  {
    var b := header + body + pad + rest;
    Layout(header, body, pad, rest);
    assert forall k :: 0 <= k < 6 ==> b[k] == header[k];
    BatchFramed(le, b, ty, body, rest);
  }

  lemma BatchOfMessage(le: bool, m: Message, body: Bytes, rest: Bytes)
    requires FitsMessage(le, m) && body == Body(le, m)
    ensures Batch(le, EncodeMessage(le, m) + rest) == Closes(le, m.ty, body) + Batch(le, rest)
  {
    var header := MessageHeader(le, NLMSG_HDR_LEN + |body|, m.ty, m.mid);
    MessageHeaderReads(le, NLMSG_HDR_LEN + |body|, m.ty, m.mid);
    BatchOfParts(le, header, m.ty, body, m.pad, rest);
  }

  lemma ClosesMessage(le: bool, m: Message)
    requires FitsMessage(le, m)
    ensures Closes(le, m.ty, Body(le, m)) == ClosedByOne(le, m)
  {
    if m.Event? {
      assert Body(le, m)[NFGENMSG_LEN..] == EncodeAll(le, m.attrs);
      OrigTupleOfEncoded(le, m.attrs);
    }
  }

  /** Reading an encoded batch gives exactly what it closes, then whatever the
      bytes after it hold. */
  lemma {:induction false} BatchRoundTrip(le: bool, batch: seq<Message>, tail: Bytes)
    requires FitsBatch(le, batch)
    ensures Batch(le, EncodeBatch(le, batch) + tail) == ClosedBy(le, batch) + Batch(le, tail)
  {
    if batch == [] {
      assert EncodeBatch(le, batch) + tail == tail;
    } else {
      var encoded, closed := EncodeBatch(le, batch[1..]), ClosedBy(le, batch[1..]);
      BatchRoundTrip(le, batch[1..], tail);
      BatchRoundTripStep(le, batch[0], encoded, tail, closed, Batch(le, tail));
      assert EncodeBatch(le, batch) == EncodeMessage(le, batch[0]) + encoded;
      assert ClosedBy(le, batch) == ClosedByOne(le, batch[0]) + closed;
    }
  }

  lemma Prepend(le: bool, msg: Bytes, one: seq<Flow>, encoded: Bytes, tail: Bytes, closed: seq<Flow>, after: seq<Flow>)
    requires Batch(le, msg + (encoded + tail)) == one + (closed + after)
    ensures Batch(le, msg + encoded + tail) == one + closed + after
  {
    assert msg + encoded + tail == msg + (encoded + tail);
    assert one + closed + after == one + (closed + after);
  }

  lemma BatchRoundTripStep(le: bool, m: Message, encoded: Bytes, tail: Bytes, closed: seq<Flow>, after: seq<Flow>)
    requires FitsMessage(le, m) && Batch(le, encoded + tail) == closed + after
    ensures Batch(le, EncodeMessage(le, m) + encoded + tail) == ClosedByOne(le, m) + closed + after
  {
    BatchOfMessage(le, m, Body(le, m), encoded + tail);
    ClosesMessage(le, m);
    Prepend(le, EncodeMessage(le, m), ClosedByOne(le, m), encoded, tail, closed, after);
  }

  /** Whatever the bytes, every tuple read is TCP or UDP and costs a header. */
  lemma {:induction false} BatchIsSane(le: bool, b: Bytes)
    ensures NLMSG_HDR_LEN * |Batch(le, b)| <= |b|
    ensures forall f :: f in Batch(le, b) ==> f.proto == PROTO_TCP || f.proto == PROTO_UDP
    decreases |b|
  {
    if NLMSG_HDR_LEN <= |b| {
      var len := U32(le, b[0], b[1], b[2], b[3]);
      if NLMSG_HDR_LEN <= len && len <= |b| {
        BatchIsSane(le, Drop(b, Align(len)));
      }
    }
  }
}
