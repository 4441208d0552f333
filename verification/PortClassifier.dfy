/** The traffic-control program that reports TCP packets to armed ports
    (autoscaler/bpf_port_listen/bpf/tc-port-monitor.c). */
module PortClassifier {
  import opened Prelude
  import opened Bytes
  import opened PortListener

  const ETH_HEADER: nat := 14
  const IP_HEADER: nat := 20
  const TCP_HEADER: nat := 20
  const ETH_P_IP: uint16 := 0x0800
  const IPPROTO_TCP: uint8 := 6

  /** The perf event sent for a frame, if any. Offsets are those of `struct ethhdr`, `struct iphdr`
      without options and `struct tcphdr`; every access is checked against the end of the frame. */
  function Classify(frame: seq<uint8>, armed: set<uint32>): Option<seq<uint8>> {
    if ETH_HEADER > |frame| then None
    else if Load16(frame, 12) != ByteSwap16(ETH_P_IP) then None
    else if ETH_HEADER + IP_HEADER > |frame| then None
    else if frame[ETH_HEADER + 9] != IPPROTO_TCP then None
    else if ETH_HEADER + IP_HEADER + TCP_HEADER > |frame| then None
    else
      var port: uint32 := ByteSwap16(Load16(frame, ETH_HEADER + IP_HEADER + 2));
      if port in armed then Some(StoreLong(port)) else None
  }

  // ----- the standards' view of the frame -----

  /** Internet header length in octets (section 3.1 of RFC 791), after the 14 octets of Ethernet. */
  function HeaderLength(frame: seq<uint8>): nat
    requires |frame| > 14
  {
    4 * (frame[14] % 16)
  }

  /** Fragment offset (section 3.1 of RFC 791). */
  function FragmentOffset(frame: seq<uint8>): nat
    requires |frame| >= 22
  {
    Network16(frame, 20) % 0x2000
  }

  /** An IPv4 frame that carries the first octets of a TCP segment, its fixed header complete: the
      EtherType, protocol and offset fields stand at octets 12, 23 and 20. */
  predicate IsTcpSegment(frame: seq<uint8>) {
    && |frame| >= 34 && HeaderLength(frame) >= 20
    && Network16(frame, 12) == 0x0800 && frame[23] == 6
    && FragmentOffset(frame) == 0
    && |frame| >= 14 + HeaderLength(frame) + 20
  }

  /** Destination port (section 3.1 of RFC 9293), after the whole IP header. */
  function DestinationPort(frame: seq<uint8>): uint16
    requires IsTcpSegment(frame)
  {
    Network16(frame, 14 + HeaderLength(frame) + 2)
  }

  lemma EtherTypeTest(frame: seq<uint8>)
    requires |frame| >= ETH_HEADER
    ensures Load16(frame, 12) == ByteSwap16(ETH_P_IP) <==> Network16(frame, 12) == ETH_P_IP
  {
    assert ByteSwap16(ETH_P_IP) == 0x0008;
  }

  /** Without IP options a segment raises an event exactly when its destination port is armed, and
      the listener decodes that very port, whatever follows in the record. */
  lemma SegmentToPort(frame: seq<uint8>, armed: set<uint32>, padding: seq<uint8>)
    requires IsTcpSegment(frame) && HeaderLength(frame) == 20
    ensures var event := Classify(frame, armed);
      && (event.Some? <==> DestinationPort(frame) in armed)
      && (event.Some? ==>
        |event.value| == 8 && LittleEndianUint32(event.value + padding) == DestinationPort(frame))
  {
    EtherTypeTest(frame);
    SwappedLoad(frame, ETH_HEADER + IP_HEADER + 2);
    StoreLongReadsBack(DestinationPort(frame), padding);
  }

  /** ... so on a node whose maps agree the event wakes the service that was put on that port. */
  lemma SegmentToService(frame: seq<uint8>, p: Ports, padding: seq<uint8>)
    requires IsTcpSegment(frame) && HeaderLength(frame) == 20 && Agree(p)
    ensures var port := DestinationPort(frame);
      var event := Classify(frame, p.bpf);
      && (event.Some? <==> port in p.bpf)
      && (port in p.bpf ==>
        port in p.services && WakeOf(p, event.value + padding) == Some(Wake(port, p.services[port])))
  {
    SegmentToPort(frame, p.bpf, padding);
  }

  /** A frame that is not IPv4 TCP, or too short for the fixed headers, never raises an event. */
  lemma OthersPass(frame: seq<uint8>, armed: set<uint32>)
    requires |frame| < 54 || Network16(frame, 12) != 0x0800 || frame[23] != 6
    ensures Classify(frame, armed).None?
  {
    if |frame| >= ETH_HEADER { EtherTypeTest(frame); }
  }

  /** What the program reports, read in network order: of every frame that is long enough and says
      IPv4 and TCP, first fragment or not, the port in octets 36 and 37, if it is armed. */
  lemma ReportsExactly(frame: seq<uint8>, armed: set<uint32>, padding: seq<uint8>)
    ensures var event := Classify(frame, armed);
      && (event.Some? <==>
        |frame| >= 54 && Network16(frame, 12) == 0x0800 && frame[23] == 6 && Network16(frame, 36) in armed)
      && (event.Some? ==>
        |event.value| == 8 && LittleEndianUint32(event.value + padding) == Network16(frame, 36))
  {
    if |frame| >= 54 {
      EtherTypeTest(frame);
      SwappedLoad(frame, 36);
      StoreLongReadsBack(Network16(frame, 36), padding);
    }
  }

  /** A segment to port `actual` whose header of `ihl` words carries, as its first option word,
      the port `shown` where a header without options would be followed by the TCP ports. */
  function SegmentWithOptions(ihl: nat, actual: uint16, shown: uint16): seq<uint8>
    requires 6 <= ihl <= 15
  {
    var tcp := ETH_HEADER + 4 * ihl;
    seq(tcp + TCP_HEADER, i =>
      if i == 12 then 0x08
      else if i == ETH_HEADER then 0x40 + ihl
      else if i == ETH_HEADER + 9 then IPPROTO_TCP
      else if i == ETH_HEADER + IP_HEADER + 2 then shown / 0x100
      else if i == ETH_HEADER + IP_HEADER + 3 then shown % 0x100
      else if i == tcp + 2 then actual / 0x100
      else if i == tcp + 3 then actual % 0x100
      else 0)
  }

  /** With IP options the program looks in the wrong place: it reports an armed port the segment is
      not for, and misses the one it is for. */
  lemma OptionsMisleadTheClassifier(ihl: nat, actual: uint16, shown: uint16)
    requires 6 <= ihl <= 15 && actual != shown
    ensures var frame := SegmentWithOptions(ihl, actual, shown);
      && IsTcpSegment(frame) && HeaderLength(frame) == 4 * ihl && DestinationPort(frame) == actual
      && Classify(frame, {actual}).None? && Classify(frame, {shown}).Some?
  {
    var frame := SegmentWithOptions(ihl, actual, shown);
    assert frame[ETH_HEADER] == 0x40 + ihl && frame[ETH_HEADER] % 16 == ihl;
    assert frame[ETH_HEADER + 6] == 0 && frame[ETH_HEADER + 7] == 0;
    EtherTypeTest(frame);
    SwappedLoad(frame, ETH_HEADER + IP_HEADER + 2);
  }

  /** Exactly: among the header lengths a segment can have, the program finds the destination port
      of every segment, whatever is armed, for the one without options only. */
  lemma ClassifiesExactlyWithoutOptions(ihl: nat)
    requires 5 <= ihl <= 15
    ensures ihl == 5 <==>
      forall frame: seq<uint8>, armed: set<uint32> | IsTcpSegment(frame) && HeaderLength(frame) == 4 * ihl ::
        Classify(frame, armed).Some? <==> DestinationPort(frame) in armed
  {
    if ihl == 5 {
      forall frame: seq<uint8>, armed: set<uint32> | IsTcpSegment(frame) && HeaderLength(frame) == 4 * ihl
        ensures Classify(frame, armed).Some? <==> DestinationPort(frame) in armed
      {
        SegmentToPort(frame, armed, []);
      }
    } else {
      OptionsMisleadTheClassifier(ihl, 1, 2);
      assert Classify(SegmentWithOptions(ihl, 1, 2), {2}).Some?;
    }
  }
}
