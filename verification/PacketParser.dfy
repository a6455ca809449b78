/** The classification of one captured Ethernet frame as proxy traffic. */
module PacketParser {
  import opened Prelude

  type byte = x: int | 0 <= x < 256
  type word = x: int | 0 <= x < 65536

  type Octets = seq<byte>

  const PACKET_OUTGOING := 4
  const VLAN_TYPES: set<int> := {0x8100, 0x88A8, 0x9100}
  const IPV4 := 0x0800
  const IPV6 := 0x86DD
  const TCP := 6
  const UDP := 17
  const FRAGMENT := 44

  /** Hop-by-hop options, routing, destination options. */
  const EXTENSIONS: set<int> := {0, 43, 60}

  datatype Direction = In | Out
  datatype Sample = Sample(direction: Direction, byteCount: int)

  /** The big-endian word at `i`. */
  function Word(p: Octets, i: nat): word
    requires i + 2 <= |p|
  {
    At(p, i) * 256 + At(p, i + 1)
  }

  /** The octet at `i`, as a number to compute with. */
  function At(p: Octets, i: nat): (x: int)
    requires i < |p|
    ensures 0 <= x < 256
  {
    p[i]
  }

  function Min(x: int, y: int): int { if x <= y then x else y }

  // ---- parsing --------------------------------------------------------------------------------

  /** Past every VLAN tag: the type that follows, and where the network header starts. */
  function SkipTags(p: Octets, etherType: word, offset: nat): (r: Option<(word, nat)>)
    ensures r.Some? ==> r.value.0 !in VLAN_TYPES && r.value.1 >= offset
    ensures r.Some? && offset <= |p| ==> r.value.1 <= |p|
    decreases |p| - offset
  {
    if etherType !in VLAN_TYPES then Some((etherType, offset))
    else if |p| < offset + 4 then None
    else SkipTags(p, Word(p, offset + 2), offset + 4)
  }

  /** Past every extension header: the protocol that follows, and where its header starts, perhaps beyond the end. */
  function SkipExtensions(p: Octets, protocol: byte, offset: nat): (r: Option<(byte, nat)>)
    ensures r.Some? ==> r.value.0 !in EXTENSIONS && r.value.1 >= offset
    decreases |p| - offset
  {
    if protocol !in EXTENSIONS then Some((protocol, offset))
    else if |p| < offset + 2 then None
    else SkipExtensions(p, p[offset], offset + (At(p, offset + 1) + 1) * 8)
  }

  function Ports(p: Octets, offset: nat): Option<(word, word)> {
    if |p| < offset + 4 then None else Some((Word(p, offset), Word(p, offset + 2)))
  }

  /** What both IP versions yield: protocol, ports and size. */
  datatype Datagram = Datagram(protocol: byte, ports: Option<(word, word)>, byteCount: int)

  function ParseV4(p: Octets, n: nat): Option<Datagram> {
    if |p| < n + 20 then None
    else if At(p, n) / 16 != 4 then None
    else
      var headerLength := At(p, n) % 16 * 4;
      if headerLength < 20 || |p| < n + headerLength then None
      else if Word(p, n + 6) % 0x2000 != 0 then None
      else Some(Datagram(p[n + 9], Ports(p, n + headerLength), Min(Word(p, n + 2), |p| - n)))
  }

  function SkipFragment(p: Octets, protocol: byte, offset: nat): Option<(byte, nat)> {
    if protocol != FRAGMENT then Some((protocol, offset))
    else if |p| < offset + 8 then None
    else if Word(p, offset + 2) / 8 != 0 then None
    else Some((p[offset], offset + 8))
  }

  function ParseV6(p: Octets, n: nat): Option<Datagram> {
    if |p| < n + 40 || At(p, n) / 16 != 6 then None
    else
      var skipped := SkipExtensions(p, p[n + 6], n + 40);
      if skipped.None? then None
      else
        var whole := SkipFragment(p, skipped.value.0, skipped.value.1);
        if whole.None? then None
        else Some(Datagram(whole.value.0, Ports(p, whole.value.1), Min(40 + Word(p, n + 4), |p| - n)))
  }

  function Classify(d: Datagram, packetType: int, monitorPort: int): Option<Sample> {
    if (d.protocol != TCP && d.protocol != UDP) || d.ports.None? then None
    else if packetType == PACKET_OUTGOING && d.ports.value.0 == monitorPort then Some(Sample(Out, d.byteCount))
    else if packetType != PACKET_OUTGOING && d.ports.value.1 == monitorPort then Some(Sample(In, d.byteCount))
    else None
  }

  function ParseNetwork(p: Octets, etherType: word, n: nat): Option<Datagram> {
    if etherType == IPV4 then ParseV4(p, n) else if etherType == IPV6 then ParseV6(p, n) else None
  }

  function Parse(p: Octets, packetType: int, monitorPort: int): Option<Sample> {
    if |p| < 14 then None
    else
      var untagged := SkipTags(p, Word(p, 12), 14);
      if untagged.None? then None
      else
        var d := ParseNetwork(p, untagged.value.0, untagged.value.1);
        if d.None? then None else Classify(d.value, packetType, monitorPort)
  }

  method ReadIPv4(p: Octets, n: nat) returns (r: Option<Datagram>)
    ensures r == ParseV4(p, n)
  {
    if |p| < n + 20 { return None; }
    if At(p, n) / 16 != 4 { return None; }
    var headerLength := At(p, n) % 16 * 4;
    if headerLength < 20 || |p| < n + headerLength { return None; }
    var totalLength, fragment := Word(p, n + 2), Word(p, n + 6);
    if fragment % 0x2000 != 0 { return None; }
    return Some(Datagram(p[n + 9], Ports(p, n + headerLength), Min(totalLength, |p| - n)));
  }

  method ReadIPv6(p: Octets, n: nat) returns (r: Option<Datagram>)
    ensures r == ParseV6(p, n)
  {
    if |p| < n + 40 || At(p, n) / 16 != 6 { return None; }
    var payloadLength: int := Word(p, n + 4);
    var protocol, offset := p[n + 6], n + 40;
    while protocol in EXTENSIONS
      invariant SkipExtensions(p, protocol, offset) == SkipExtensions(p, p[n + 6], n + 40)
      decreases |p| - offset
    {
      if |p| < offset + 2 { return None; }
      var next := p[offset];
      offset := offset + (At(p, offset + 1) + 1) * 8;
      protocol := next;
    }
    if protocol == FRAGMENT {
      if |p| < offset + 8 { return None; }
      if Word(p, offset + 2) / 8 != 0 { return None; }
      protocol := p[offset];
      offset := offset + 8;
    }
    return Some(Datagram(protocol, Ports(p, offset), Min(40 + payloadLength, |p| - n)));
  }

  /** The parser itself: no read out of range and no endless header chain on any bytes. */
  method ParsePacket(p: Octets, packetType: int, monitorPort: int) returns (r: Option<Sample>)
    ensures r == Parse(p, packetType, monitorPort)
  {
    if |p| < 14 { return None; }
    var etherType, n := Word(p, 12), 14;
    while etherType in VLAN_TYPES
      invariant SkipTags(p, etherType, n) == SkipTags(p, Word(p, 12), 14)
      decreases |p| - n
    {
      if |p| < n + 4 { return None; }
      etherType := Word(p, n + 2);
      n := n + 4;
    }

    var d: Option<Datagram> := None;
    if etherType == IPV4 {
      d := ReadIPv4(p, n);
    } else if etherType == IPV6 {
      d := ReadIPv6(p, n);
    }
    if d.None? { return None; }

    var Datagram(protocol, ports, byteCount) := d.value;
    if (protocol != TCP && protocol != UDP) || ports.None? { return None; }
    var (source, destination) := ports.value;
    if packetType == PACKET_OUTGOING && source == monitorPort { return Some(Sample(Out, byteCount)); }
    if packetType != PACKET_OUTGOING && destination == monitorPort { return Some(Sample(In, byteCount)); }
    return None;
  }

  // ---- frames ---------------------------------------------------------------------------------

  datatype Tag = Tag(kind: word, control: Octets)

  datatype Extension = Extension(kind: byte, body: Octets)

  /** A fragment header of the first fragment: offset zero, three low bits free. */
  datatype FirstFragment = FirstFragment(reserved: byte, flags: int, identification: Octets)

  datatype Transport = Transport(protocol: byte, source: word, destination: word, rest: Octets)

  datatype Network =
    | V4(tos: byte, totalLength: word, identification: Octets, flags: int, ttl: byte, checksumAndAddresses: Octets,
        options: Octets)
    | V6(trafficClass: int, flow: Octets, payloadLength: word, hopLimit: byte, addresses: Octets,
         extensions: seq<Extension>, fragment: Option<FirstFragment>)

  datatype Frame = Frame(macs: Octets, tags: seq<Tag>, network: Network, transport: Transport)

  /** The frames of section 3.1 of RFC 791 and sections 3, 4 and 4.5 of RFC 8200 under any stack of VLAN tags:
      any options, any chain of extension headers of whole 8-octet units, at most one first-fragment header. */
  predicate WellFormed(f: Frame) {
    && |f.macs| == 12
    && WellFormedTags(f.tags)
    && WellFormedNetwork(f.network, f.transport.protocol)
  }

  predicate WellFormedTags(tags: seq<Tag>) {
    forall k :: 0 <= k < |tags| ==> tags[k].kind in VLAN_TYPES && |tags[k].control| == 2
  }

  predicate WellFormedNetwork(h: Network, protocol: byte) {
    match h
    case V4(_, _, identification, flags, _, tail, options) =>
      |identification| == 2 && 0 <= flags < 8 && |tail| == 10 && |options| % 4 == 0 && |options| <= 40
    case V6(trafficClass, flow, _, _, addresses, extensions, fragment) =>
      && 0 <= trafficClass < 16 && |flow| == 3 && |addresses| == 32
      && WellFormedExtensions(extensions)
      && (fragment.None? ==> protocol !in EXTENSIONS && protocol != FRAGMENT)
      && (fragment.Some? ==> 0 <= fragment.value.flags < 8 && |fragment.value.identification| == 4)
  }

  predicate WellFormedExtensions(extensions: seq<Extension>) {
    forall k :: 0 <= k < |extensions| ==>
      extensions[k].kind in EXTENSIONS && (|extensions[k].body| + 2) % 8 == 0 && |extensions[k].body| + 2 <= 2048
  }

  function WordOctets(w: word): (p: Octets)
    ensures |p| == 2 && Word(p, 0) == w
  {
    [w / 256, w % 256]
  }

  function TypeOf(h: Network): word { if h.V4? then IPV4 else IPV6 }

  /** The type field in front of a stack of tags. */
  function TypeField(tags: seq<Tag>, inner: word): word { if tags == [] then inner else tags[0].kind }

  /** One encoded tag. */
  function TagOctets(tag: Tag, field: word): (p: Octets)
    requires |tag.control| == 2
    ensures |p| == 4 && Word(p, 2) == field
  {
    tag.control + WordOctets(field)
  }

  function EncodeTags(tags: seq<Tag>, inner: word): Octets
    requires WellFormedTags(tags)
  {
    if tags == [] then [] else TagOctets(tags[0], TypeField(tags[1..], inner)) + EncodeTags(tags[1..], inner)
  }

  /** The next-header field in front of a chain of extensions. */
  function NextField(extensions: seq<Extension>, last: byte): byte
  {
    if extensions == [] then last else extensions[0].kind
  }

  /** One encoded extension header. */
  function Unit(e: Extension, next: byte): (p: Octets)
    requires (|e.body| + 2) % 8 == 0 && |e.body| + 2 <= 2048
    ensures |p| == 2 + |e.body| && p[0] == next && (At(p, 1) + 1) * 8 == |p|
  {
    [next, (|e.body| + 2) / 8 - 1] + e.body
  }

  function EncodeExtensions(extensions: seq<Extension>, last: byte): Octets
    requires WellFormedExtensions(extensions)
  {
    if extensions == [] then []
    else Unit(extensions[0], NextField(extensions[1..], last)) + EncodeExtensions(extensions[1..], last)
  }

  /** What follows the extensions: the fragment header, if there is one, or the transport protocol. */
  function AfterExtensions(h: Network, protocol: byte): byte
    requires h.V6?
  {
    if h.fragment.Some? then FRAGMENT else protocol
  }

  function EncodeFragment(h: Network, protocol: byte): Octets
    requires h.V6? && WellFormedNetwork(h, protocol)
  {
    if h.fragment.None? then []
    else [protocol, h.fragment.value.reserved] + WordOctets(h.fragment.value.flags) + h.fragment.value.identification
  }

  /** The fixed 20 octets of an IPv4 header. */
  function FixedV4(h: Network, protocol: byte): (fixed: Octets)
    requires h.V4? && WellFormedNetwork(h, protocol)
    ensures |fixed| == 20
    ensures fixed[0] == 0x45 + |h.options| / 4 && fixed[9] == protocol
    ensures Word(fixed, 2) == h.totalLength && Word(fixed, 6) == h.flags * 0x2000
  {
    [0x45 + |h.options| / 4, h.tos] + WordOctets(h.totalLength) + h.identification + WordOctets(h.flags * 0x2000)
    + [h.ttl, protocol] + h.checksumAndAddresses
  }

  /** The fixed 40 octets of an IPv6 header. */
  function FixedV6(h: Network, protocol: byte): (fixed: Octets)
    requires h.V6? && WellFormedNetwork(h, protocol)
    ensures |fixed| == 40
    ensures fixed[0] == 0x60 + h.trafficClass && fixed[6] == NextField(h.extensions, AfterExtensions(h, protocol))
    ensures Word(fixed, 4) == h.payloadLength
  {
    [0x60 + h.trafficClass] + h.flow + WordOctets(h.payloadLength)
    + [NextField(h.extensions, AfterExtensions(h, protocol)), h.hopLimit] + h.addresses
  }

  function EncodeHeader(h: Network, protocol: byte): Octets
    requires WellFormedNetwork(h, protocol)
  {
    if h.V4? then FixedV4(h, protocol) + h.options
    else FixedV6(h, protocol) + (EncodeExtensions(h.extensions, AfterExtensions(h, protocol)) + EncodeFragment(h,
      protocol))
  }

  function EncodeTransport(t: Transport): Octets { WordOctets(t.source) + WordOctets(t.destination) + t.rest }

  function EncodeDatagram(h: Network, t: Transport): Octets
    requires WellFormedNetwork(h, t.protocol)
  {
    EncodeHeader(h, t.protocol) + EncodeTransport(t)
  }

  function Encode(f: Frame): Octets
    requires WellFormed(f)
  {
    f.macs + WordOctets(TypeField(f.tags, TypeOf(f.network))) + EncodeTags(f.tags, TypeOf(f.network))
    + EncodeDatagram(f.network, f.transport)
  }

  /** What the IP header says of the datagram's length. */
  function IpLength(h: Network): int { if h.V4? then h.totalLength else 40 + h.payloadLength }

  /** What a frame counts as. */
  function Verdict(f: Frame, packetType: int, monitorPort: int): Option<Sample>
    requires WellFormed(f)
  {
    var bytes := Min(IpLength(f.network), |EncodeDatagram(f.network, f.transport)|);
    if f.transport.protocol != TCP && f.transport.protocol != UDP then None
    else if packetType == PACKET_OUTGOING then
      if f.transport.source == monitorPort then Some(Sample(Out, bytes)) else None
    else
      if f.transport.destination == monitorPort then Some(Sample(In, bytes)) else None
  }

  // ---- every frame is classified as it should be ----------------------------------------------

  /** A shift of every position by `n`. */
  function Shifted<T>(r: Option<(T, nat)>, n: nat): Option<(T, nat)> {
    if r.None? then None else Some((r.value.0, n + r.value.1))
  }

  lemma {:induction false} TagsMove(before: Octets, d: Octets, etherType: word, offset: nat)
    ensures SkipTags(before + d, etherType, |before| + offset) == Shifted(SkipTags(d, etherType, offset), |before|)
    decreases |d| - offset
  {
    if etherType in VLAN_TYPES && offset + 4 <= |d| { TagsMove(before, d, Word(d, offset + 2), offset + 4); }
  }

  lemma TagIsSkipped(tag: Tag, field: word, after: Octets)
    requires tag.kind in VLAN_TYPES && |tag.control| == 2
    ensures SkipTags(TagOctets(tag, field) + after, tag.kind, 0) == Shifted(SkipTags(after, field, 0), 4)
  {
    var head := TagOctets(tag, field);
    hide TagOctets;
    assert Word(head + after, 2) == field;
    TagsMove(head, after, field, 0);
  }

  lemma {:induction false} TagsAreSkipped(tags: seq<Tag>, inner: word, after: Octets)
    requires WellFormedTags(tags) && inner !in VLAN_TYPES
    ensures SkipTags(EncodeTags(tags, inner) + after, TypeField(tags, inner), 0)
      == Some((inner, |EncodeTags(tags, inner)|))
    decreases |tags|
  {
    if tags != [] {
      var field, stack := TypeField(tags[1..], inner), EncodeTags(tags[1..], inner);
      TagIsSkipped(tags[0], field, stack + after);
      TagsAreSkipped(tags[1..], inner, after);
      Assoc(TagOctets(tags[0], field), stack, after);
      hide SkipTags, TagOctets;
      assert EncodeTags(tags, inner) == TagOctets(tags[0], field) + stack;
    }
  }

  lemma Assoc(a: Octets, b: Octets, c: Octets)
    ensures a + (b + c) == (a + b) + c
  {
  }

  lemma WordIn(p: Octets, i: nat, w: word)
    requires i + 2 <= |p| && p[i..i + 2] == WordOctets(w)
    ensures Word(p, i) == w
  {
    assert p[i] == WordOctets(w)[0] && p[i + 1] == WordOctets(w)[1];
  }

  lemma {:induction false} ExtensionsMove(before: Octets, d: Octets, protocol: byte, offset: nat)
    ensures SkipExtensions(before + d, protocol, |before| + offset)
      == Shifted(SkipExtensions(d, protocol, offset), |before|)
    decreases |d| - offset
  {
    if protocol in EXTENSIONS && offset + 2 <= |d| {
      ExtensionsMove(before, d, d[offset], offset + (At(d, offset + 1) + 1) * 8);
    }
  }

  lemma OneExtension(p: Octets, kind: byte)
    requires kind in EXTENSIONS && |p| >= 2
    ensures SkipExtensions(p, kind, 0) == SkipExtensions(p, p[0], (At(p, 1) + 1) * 8)
  {
  }

  lemma ExtensionIsSkipped(e: Extension, next: byte, after: Octets)
    requires e.kind in EXTENSIONS && (|e.body| + 2) % 8 == 0 && |e.body| + 2 <= 2048
    ensures SkipExtensions(Unit(e, next) + after, e.kind, 0) == Shifted(SkipExtensions(after, next, 0), |Unit(e, next)|)
  {
    var unit := Unit(e, next);
    hide Unit, SkipExtensions;
    var p := unit + after;
    assert p[0] == unit[0] && p[1] == unit[1];
    OneExtension(p, e.kind);
    ExtensionsMove(unit, after, next, 0);
  }

  lemma {:induction false} ExtensionsAreSkipped(extensions: seq<Extension>, last: byte, after: Octets)
    requires WellFormedExtensions(extensions) && last !in EXTENSIONS
    ensures SkipExtensions(EncodeExtensions(extensions, last) + after, NextField(extensions, last), 0)
         == Some((last, |EncodeExtensions(extensions, last)|))
    decreases |extensions|
  {
    if extensions != [] {
      var next, chain := NextField(extensions[1..], last), EncodeExtensions(extensions[1..], last);
      ExtensionIsSkipped(extensions[0], next, chain + after);
      ExtensionsAreSkipped(extensions[1..], last, after);
      Assoc(Unit(extensions[0], next), chain, after);
      hide SkipExtensions, Unit;
      assert EncodeExtensions(extensions, last) == Unit(extensions[0], next) + chain;
    }
  }

  /** What comes before the network header has no influence on what it says. */
  lemma NetworkMoves(before: Octets, d: Octets, etherType: word)
    ensures ParseNetwork(before + d, etherType, |before|) == ParseNetwork(d, etherType, 0)
  {
    if etherType == IPV6 && |d| >= 40 { ExtensionsMove(before, d, d[6], 40); }
  }

  lemma V4IsParsed(h: Network, t: Transport)
    requires h.V4? && WellFormedNetwork(h, t.protocol)
    ensures var d := EncodeDatagram(h, t);
      ParseV4(d, 0) == Some(Datagram(t.protocol, Some((t.source, t.destination)), Min(h.totalLength, |d|)))
  {
    hide FixedV4;
    var d, fixed := EncodeDatagram(h, t), FixedV4(h, t.protocol);
    assert d == fixed + (h.options + EncodeTransport(t));
    assert forall i :: 0 <= i < 20 ==> d[i] == fixed[i];
    PortsAreRead(EncodeHeader(h, t.protocol), t);
  }

  lemma PortsAreRead(header: Octets, t: Transport)
    ensures Ports(header + EncodeTransport(t), |header|) == Some((t.source, t.destination))
  {
    var d, n := header + EncodeTransport(t), |header|;
    assert d[n..n + 2] == WordOctets(t.source) && d[n + 2..n + 4] == WordOctets(t.destination);
    WordIn(d, n, t.source);
    WordIn(d, n + 2, t.destination);
  }

  lemma FragmentIsSkipped(before: Octets, h: Network, protocol: byte, after: Octets)
    requires h.V6? && WellFormedNetwork(h, protocol)
    ensures SkipFragment(before + EncodeFragment(h, protocol) + after, AfterExtensions(h, protocol), |before|)
         == Some((protocol, |before| + |EncodeFragment(h, protocol)|))
  {
    if h.fragment.Some? {
      var p := before + EncodeFragment(h, protocol) + after;
      assert p[|before|] == protocol;
      assert p[|before| + 2..|before| + 4] == WordOctets(h.fragment.value.flags);
      WordIn(p, |before| + 2, h.fragment.value.flags);
    }
  }

  lemma V6IsParsed(h: Network, t: Transport)
    requires h.V6? && WellFormedNetwork(h, t.protocol)
    ensures var d := EncodeDatagram(h, t);
      ParseV6(d, 0) == Some(Datagram(t.protocol, Some((t.source, t.destination)), Min(40 + h.payloadLength, |d|)))
  {
    hide FixedV6, EncodeExtensions, EncodeFragment, NextField, SkipExtensions, SkipFragment;
    var d, fixed, last := EncodeDatagram(h, t), FixedV6(h, t.protocol), AfterExtensions(h, t.protocol);
    var chain, fragment, transport := EncodeExtensions(h.extensions, last), EncodeFragment(h, t.protocol),
      EncodeTransport(t);
    assert d == fixed + (chain + (fragment + transport));
    assert forall i :: 0 <= i < 40 ==> d[i] == fixed[i];
    ExtensionsAreSkipped(h.extensions, last, fragment + transport);
    ExtensionsMove(fixed, chain + (fragment + transport), NextField(h.extensions, last), 0);
    assert d == (fixed + chain) + fragment + transport;
    FragmentIsSkipped(fixed + chain, h, t.protocol, transport);
    PortsAreRead(fixed + chain + fragment, t);
  }

  lemma DatagramIsParsed(h: Network, t: Transport)
    requires WellFormedNetwork(h, t.protocol)
    ensures var d := EncodeDatagram(h, t);
      ParseNetwork(d, TypeOf(h), 0) == Some(Datagram(t.protocol, Some((t.source, t.destination)),
        Min(IpLength(h), |d|)))
  {
    hide ParseV4, ParseV6, EncodeDatagram;
    if h.V4? { V4IsParsed(h, t); } else { V6IsParsed(h, t); }
  }

  /** Parsing inverts encoding: any well-formed frame gets exactly its verdict, whichever way it travels. */
  lemma EncodedFramesAreClassified(f: Frame, packetType: int, monitorPort: int)
    requires WellFormed(f)
    ensures Parse(Encode(f), packetType, monitorPort) == Verdict(f, packetType, monitorPort)
  {
    hide SkipTags, ParseNetwork, EncodeDatagram, EncodeTags, IpLength;
    var p := Encode(f);
    var inner := TypeOf(f.network);
    var d, stack := EncodeDatagram(f.network, f.transport), EncodeTags(f.tags, inner);
    var field := WordOctets(TypeField(f.tags, inner));
    assert p == f.macs + field + stack + d;
    assert p[12..14] == field;
    WordIn(p, 12, TypeField(f.tags, inner));
    assert p == (f.macs + field) + (stack + d);
    TagsMove(f.macs + field, stack + d, TypeField(f.tags, inner), 0);
    TagsAreSkipped(f.tags, inner, d);
    NetworkMoves(f.macs + field + stack, d, inner);
    DatagramIsParsed(f.network, f.transport);
  }

  lemma {:induction false} TagsLength(tags: seq<Tag>, inner: word)
    requires WellFormedTags(tags)
    ensures |EncodeTags(tags, inner)| == 4 * |tags|
  {
    if tags != [] { TagsLength(tags[1..], inner); }
  }

  /** A frame counts for the octets behind its tags, but not for more than its IP header announces. */
  lemma CountedOctets(f: Frame, packetType: int, monitorPort: int)
    requires WellFormed(f) && Parse(Encode(f), packetType, monitorPort).Some?
    ensures var count := Parse(Encode(f), packetType, monitorPort).value.byteCount;
      var announced := match f.network
        case V4(_, totalLength, _, _, _, _, _) => totalLength as int
        case V6(_, _, payloadLength, _, _, _, _) => 40 + payloadLength;
      var captured := |Encode(f)| - 14 - 4 * |f.tags|;
      count <= announced && count <= captured && (count == announced || count == captured)
  {
    hide Parse, EncodeDatagram, EncodeTags;
    EncodedFramesAreClassified(f, packetType, monitorPort);
    TagsLength(f.tags, TypeOf(f.network));
  }

  const MACS: Octets := [0x02, 0, 0, 0, 0, 1, 0x02, 0, 0, 0, 0, 2]

  /** An IPv4 header of 20 octets for TCP and the ports 51234 to 8443. */
  const KNOWN_V4: Octets :=
    [0x45, 0, 0x00, 0x28, 0x1C, 0x46, 0x40, 0, 64, 6, 0, 0, 192, 0, 2, 1, 198, 51, 100, 7, 0xC8, 0x22, 0x20, 0xFB]

  const ADDRESS: Octets := [0x20, 0x01, 0x0D, 0xB8, 0, 0, 0, 0, 0, 0, 0, 0, 0, 0, 0, 1]

  /** An IPv6 header, a hop-by-hop header of 8 octets, and the ports 51234 to 8443 of a UDP header. */
  const KNOWN_V6: Octets :=
    [0x60, 0, 0, 0, 0x00, 0x0C, 0, 64] + ADDRESS + ADDRESS
    + [17, 0, 1, 4, 0, 0, 0, 0, 0xC8, 0x22, 0x20, 0xFB]

  /** Two frames octet by octet, the first under an IEEE 802.1Q tag: both are seen coming in to port 8443, and only the
      second, whose sending port is asked for, going out. */
  lemma KnownFrames()
    ensures var p := MACS + [0x81, 0x00, 0x00, 0x05, 0x08, 0x00] + KNOWN_V4;
      Parse(p, 0, 8443) == Some(Sample(In, 24)) && Parse(p, 4, 8443) == None
    ensures var p := MACS + [0x86, 0xDD] + KNOWN_V6;
      Parse(p, 0, 8443) == Some(Sample(In, 52)) && Parse(p, 4, 51234) == Some(Sample(Out, 52))
  {
    hide KNOWN_V4, KNOWN_V6, ParseNetwork;
    var tagged, plain: Octets := MACS + [0x81, 0x00, 0x00, 0x05, 0x08, 0x00], MACS + [0x86, 0xDD];
    KnownV4();
    KnownV6();
    NetworkMoves(tagged, KNOWN_V4, 0x0800);
    NetworkMoves(plain, KNOWN_V6, 0x86DD);
    var p := tagged + KNOWN_V4;
    assert Word(p, 12) == 0x8100 && Word(p, 16) == 0x0800;
    assert SkipTags(p, 0x0800, 18) == Some((0x0800, 18));
    assert Word(plain + KNOWN_V6, 12) == 0x86DD;
  }

  lemma KnownV4()
    ensures |KNOWN_V4| == 24 && ParseNetwork(KNOWN_V4, 0x0800, 0) == Some(Datagram(6, Some((51234, 8443)), 24))
  {
    var p := KNOWN_V4;
    assert p[0] == 0x45 && p[2] == 0 && p[3] == 0x28 && p[6] == 0x40 && p[7] == 0 && p[9] == 6;
    assert p[20] == 0xC8 && p[21] == 0x22 && p[22] == 0x20 && p[23] == 0xFB;
  }

  lemma KnownV6()
    ensures |KNOWN_V6| == 52 && ParseNetwork(KNOWN_V6, 0x86DD, 0) == Some(Datagram(17, Some((51234, 8443)), 52))
  {
    var p := KNOWN_V6;
    assert p[0] == 0x60 && p[4] == 0 && p[5] == 0x0C && p[6] == 0 && p[40] == 17 && p[41] == 0;
    assert SkipExtensions(p, 17, 48) == Some((17, 48));
    assert p[48] == 0xC8 && p[49] == 0x22 && p[50] == 0x20 && p[51] == 0xFB;
  }

  // ---- nothing else is counted ----------------------------------------------------------------

  lemma OctetsOfWord(p: Octets, i: nat)
    requires i + 2 <= |p|
    ensures WordOctets(Word(p, i)) == p[i..i + 2]
  {
  }

  lemma Cut(d: Octets, a: nat, b: nat, c: nat)
    requires a <= b <= c <= |d|
    ensures d[a..b] + d[b..c] == d[a..c]
  {
  }

  lemma {:induction false} SkippedTags(d: Octets, etherType: word) returns (tags: seq<Tag>)
    requires SkipTags(d, etherType, 0).Some?
    ensures var (inner, n) := SkipTags(d, etherType, 0).value;
      && WellFormedTags(tags) && TypeField(tags, inner) == etherType
      && n <= |d| && EncodeTags(tags, inner) == d[..n]
    decreases |d|
  {
    if etherType !in VLAN_TYPES { return []; }
    var tag, field, rest := Tag(etherType, d[..2]), Word(d, 2), d[4..];
    OctetsOfWord(d, 2);
    assert d == TagOctets(tag, field) + rest;
    TagIsSkipped(tag, field, rest);
    hide SkipTags, TagOctets;
    var others := SkippedTags(rest, field);
    tags := [tag] + others;
    assert tags[1..] == others;
    var n := SkipTags(d, etherType, 0).value.1;
    assert d[..n] == TagOctets(tag, field) + rest[..n - 4];
  }

  lemma TakeExtension(d: Octets, kind: byte) returns (e: Extension, next: byte, rest: Octets)
    requires kind in EXTENSIONS && SkipExtensions(d, kind, 0).Some? && SkipExtensions(d, kind, 0).value.1 <= |d|
    ensures e.kind == kind && (|e.body| + 2) % 8 == 0 && |e.body| + 2 <= 2048
    ensures d == Unit(e, next) + rest
  {
    NeedsTwo(d, kind);
    hide SkipExtensions;
    OneExtension(d, kind);
    var u := (At(d, 1) + 1) * 8;
    e, next, rest := Extension(kind, d[2..u]), d[0], d[u..];
  }

  lemma NeedsTwo(d: Octets, protocol: byte)
    requires protocol in EXTENSIONS && SkipExtensions(d, protocol, 0).Some?
    ensures |d| >= 2
  {
  }

  lemma {:induction false} SkippedExtensions(d: Octets, protocol: byte) returns (extensions: seq<Extension>)
    requires SkipExtensions(d, protocol, 0).Some? && SkipExtensions(d, protocol, 0).value.1 <= |d|
    ensures var (last, n) := SkipExtensions(d, protocol, 0).value;
      && WellFormedExtensions(extensions) && NextField(extensions, last) == protocol
      && EncodeExtensions(extensions, last) == d[..n]
    decreases |d|
  {
    if protocol !in EXTENSIONS { return []; }
    hide SkipExtensions, Unit;
    var e, next, rest := TakeExtension(d, protocol);
    ExtensionIsSkipped(e, next, rest);
    var others := SkippedExtensions(rest, next);
    extensions := [e] + others;
    assert extensions[1..] == others;
    var n, unit := SkipExtensions(d, protocol, 0).value.1, Unit(e, next);
    assert d[..n] == unit + rest[..n - |unit|];
  }

  lemma ReadTransport(d: Octets, protocol: byte, n: nat) returns (t: Transport)
    requires Ports(d, n).Some?
    ensures t.protocol == protocol && n <= |d| && EncodeTransport(t) == d[n..]
  {
    t := Transport(protocol, Word(d, n), Word(d, n + 2), d[n + 4..]);
    OctetsOfWord(d, n);
    OctetsOfWord(d, n + 2);
    assert d[n..] == d[n..n + 2] + d[n + 2..n + 4] + d[n + 4..];
  }

  lemma ReadV4(d: Octets) returns (h: Network, t: Transport)
    requires ParseV4(d, 0).Some? && ParseV4(d, 0).value.ports.Some?
    ensures h.V4? && WellFormedNetwork(h, t.protocol) && EncodeDatagram(h, t) == d
  {
    var n := At(d, 0) % 16 * 4;
    t := ReadTransport(d, d[9], n);
    h := V4(d[1], Word(d, 2), d[4..6], Word(d, 6) / 0x2000, d[8], d[10..20], d[20..n]);
    ReadFixedV4(d, h, t.protocol);
    hide FixedV4, ParseV4, EncodeTransport, WellFormedNetwork;
    Cut(d, 0, 20, n);
    Cut(d, 0, n, |d|);
    assert d[0..20] == d[..20] && d[0..|d|] == d && d[n..] == d[n..|d|];
  }

  lemma ReadFixedV4(d: Octets, h: Network, protocol: byte)
    requires |d| >= 20 && h.V4? && WellFormedNetwork(h, protocol)
    requires At(d, 0) == 0x45 + |h.options| / 4 && h.tos == d[1] && h.totalLength == Word(d, 2)
    requires h.identification == d[4..6]
    requires h.flags * 0x2000 == Word(d, 6) && h.ttl == d[8] && protocol == d[9] && h.checksumAndAddresses == d[10..20]
    ensures FixedV4(h, protocol) == d[..20]
  {
    hide WellFormedNetwork, WordOctets;
    OctetsOfWord(d, 2);
    OctetsOfWord(d, 6);
    assert d[0..2] == [d[0], d[1]] && d[8..10] == [d[8], d[9]];
    Cut(d, 0, 2, 4);
    Cut(d, 0, 4, 6);
    Cut(d, 0, 6, 8);
    Cut(d, 0, 8, 10);
    Cut(d, 0, 10, 20);
    assert d[0..20] == d[..20];
  }

  lemma ReadFragment(d: Octets, protocol: byte, n: nat) returns (f: Option<FirstFragment>)
    requires SkipFragment(d, protocol, n).Some? && n <= |d|
    ensures f.None? <==> protocol != FRAGMENT
    ensures f.Some? ==>
      && 0 <= f.value.flags < 8 && |f.value.identification| == 4 && n + 8 <= |d|
      && [d[n], f.value.reserved] + WordOctets(f.value.flags) + f.value.identification == d[n..n + 8]
  {
    if protocol != FRAGMENT { return None; }
    OctetsOfWord(d, n + 2);
    f := Some(FirstFragment(d[n + 1], Word(d, n + 2), d[n + 4..n + 8]));
    assert d[n..n + 8] == [d[n], d[n + 1]] + d[n + 2..n + 4] + d[n + 4..n + 8];
  }

  /** The extension headers of a datagram. */
  lemma ReadChain(d: Octets) returns (extensions: seq<Extension>, last: byte, n: nat)
    requires |d| >= 40 && SkipExtensions(d, d[6], 40).Some? && SkipExtensions(d, d[6], 40).value.1 <= |d|
    ensures SkipExtensions(d, d[6], 40) == Some((last, n)) && 40 <= n <= |d| && last !in EXTENSIONS
    ensures WellFormedExtensions(extensions) && NextField(extensions, last) == d[6]
    ensures EncodeExtensions(extensions, last) == d[40..n]
  {
    var fixed, rest := d[..40], d[40..];
    assert d == fixed + rest;
    ExtensionsMove(fixed, rest, d[6], 0);
    var skipped := SkipExtensions(rest, d[6], 0).value;
    last, n := skipped.0, 40 + skipped.1;
    extensions := SkippedExtensions(rest, d[6]);
    assert rest[..n - 40] == d[40..n];
  }

  lemma ReadV6(d: Octets) returns (h: Network, t: Transport)
    requires ParseV6(d, 0).Some? && ParseV6(d, 0).value.ports.Some?
    ensures h.V6? && WellFormedNetwork(h, t.protocol) && EncodeDatagram(h, t) == d
  {
    hide SkipExtensions, EncodeExtensions, NextField;
    var extensions, last, n := ReadChain(d);
    var (protocol, end) := SkipFragment(d, last, n).value;
    var fragment := ReadFragment(d, last, n);
    t := ReadTransport(d, protocol, end);
    h := V6(At(d, 0) % 16, d[1..4], Word(d, 4), d[7], d[8..40], extensions, fragment);
    hide ParseV6, EncodeTransport;
    ComposeV6(d, h, t, n, end);
  }

  lemma ComposeV6(d: Octets, h: Network, t: Transport, n: nat, end: nat)
    requires |d| >= 40 && h.V6? && At(d, 0) == 0x60 + h.trafficClass && WellFormedNetwork(h, t.protocol)
    requires h.flow == d[1..4] && h.payloadLength == Word(d, 4) && h.hopLimit == d[7] && h.addresses == d[8..40]
    requires 40 <= n <= end <= |d| && NextField(h.extensions, AfterExtensions(h, t.protocol)) == d[6]
    requires EncodeExtensions(h.extensions, AfterExtensions(h, t.protocol)) == d[40..n]
    requires EncodeFragment(h, t.protocol) == d[n..end]
    requires EncodeTransport(t) == d[end..]
    ensures EncodeDatagram(h, t) == d
  {
    hide FixedV6, EncodeExtensions, EncodeFragment, NextField, EncodeTransport, WellFormedNetwork;
    ReadFixedV6(d, h, t.protocol);
    Cut(d, 40, n, end);
    Cut(d, 0, 40, end);
    Cut(d, 0, end, |d|);
    assert d == d[0..|d|] && d[0..40] == d[..40] && d[end..] == d[end..|d|];
  }

  lemma ReadFixedV6(d: Octets, h: Network, protocol: byte)
    requires |d| >= 40 && h.V6? && WellFormedNetwork(h, protocol)
    requires At(d, 0) == 0x60 + h.trafficClass && h.flow == d[1..4] && h.payloadLength == Word(d, 4)
    requires NextField(h.extensions, AfterExtensions(h, protocol)) == d[6] && h.hopLimit == d[7]
    requires h.addresses == d[8..40]
    ensures FixedV6(h, protocol) == d[..40]
  {
    hide WellFormedNetwork, WordOctets, NextField, AfterExtensions;
    OctetsOfWord(d, 4);
    assert d[0..1] == [d[0]] && d[6..8] == [d[6], d[7]];
    Cut(d, 0, 1, 4);
    Cut(d, 0, 4, 6);
    Cut(d, 0, 6, 8);
    Cut(d, 0, 8, 40);
    assert d[0..40] == d[..40];
  }

  /** Whatever is counted is a well-formed frame: its every octet is accounted for. */
  lemma CountedFramesAreWellFormed(p: Octets, packetType: int, monitorPort: int) returns (f: Frame)
    requires Parse(p, packetType, monitorPort).Some?
    ensures WellFormed(f) && Encode(f) == p
  {
    hide ParseV4, ParseV6, EncodeDatagram;
    var field, rest := Word(p, 12), p[14..];
    assert p == p[..14] + rest;
    TagsMove(p[..14], rest, field, 0);
    var (inner, m) := SkipTags(rest, field, 0).value;
    var tags := SkippedTags(rest, field);
    var n := 14 + m;
    assert p == p[..n] + p[n..];
    NetworkMoves(p[..n], p[n..], inner);
    var h, t;
    if inner == IPV4 { h, t := ReadV4(p[n..]); } else { h, t := ReadV6(p[n..]); }
    f := Frame(p[..12], tags, h, t);
    OctetsOfWord(p, 12);
    assert p == p[..12] + p[12..14] + rest[..m] + p[n..];
  }

  /** The parser counts exactly the well-formed frames its verdict counts, and counts them at that verdict. */
  lemma ParseMeans(p: Octets, packetType: int, monitorPort: int, sample: Sample)
    ensures Parse(p, packetType, monitorPort) == Some(sample)
      <==> exists f :: WellFormed(f) && Encode(f) == p && Verdict(f, packetType, monitorPort) == Some(sample)
  {
    hide Parse, Verdict, Encode, WellFormed;
    if Parse(p, packetType, monitorPort) == Some(sample) {
      var f := CountedFramesAreWellFormed(p, packetType, monitorPort);
      EncodedFramesAreClassified(f, packetType, monitorPort);
    }
    forall f | WellFormed(f) && Encode(f) == p && Verdict(f, packetType, monitorPort) == Some(sample)
      ensures Parse(p, packetType, monitorPort) == Some(sample)
    {
      EncodedFramesAreClassified(f, packetType, monitorPort);
    }
  }
}
