/** The sensor's own classic BPF program (cbpf.py), an interpreter for it, and its agreement with
    the decoder's link layer. */
module Cbpf {
  import opened Basics
  import opened Models
  import opened Bytes
  import opened Decode
  import opened DecodeBytes

  datatype CaptureDirection = In | Out | Both

  const PACKET_OUTGOING: nat := 4

  /** Absolute offset of the packet-type ancillary load, as an unsigned 32-bit value. */
  const AD_PKTTYPE: nat := 0x1_0000_0000 - 0x1000 + 4

  datatype Insn =
    | LdB(k: nat)
    | LdH(k: nat)
    | Jeq(k: nat, jt: nat, jf: nat)
    | Ret(k: nat)

  // ---------------------------------------------------------------- the machine

  /** Execute from `pc` with accumulator `a`.  A load outside the packet rejects it, as does running
      off the program. */
  function Run(prog: seq<Insn>, pc: nat, a: nat, f: seq<byte>, packetType: byte): nat
    decreases |prog| - pc
  {
    if pc >= |prog| then 0
    else match prog[pc]
      case LdB(k) =>
        if k == AD_PKTTYPE then Run(prog, pc + 1, packetType, f, packetType)
        else if k < |f| then Run(prog, pc + 1, f[k], f, packetType) else 0
      case LdH(k) => if k + 2 <= |f| then Run(prog, pc + 1, Be16(f, k), f, packetType) else 0
      case Jeq(k, jt, jf) => Run(prog, pc + 1 + (if a == k then jt else jf), a, f, packetType)
      case Ret(k) => k
  }

  // ---------------------------------------------------------------- the program

  function Gate(direction: CaptureDirection): seq<Insn> {
    match direction
    case In => [LdB(AD_PKTTYPE), Jeq(PACKET_OUTGOING, 0, 1), Ret(0)]
    case Out => [LdB(AD_PKTTYPE), Jeq(PACKET_OUTGOING, 1, 0), Ret(0)]
    case Both => [LdB(AD_PKTTYPE)]
  }

  /** Load a type field; accept IP, fall through on a VLAN tag, reject the rest. */
  function TagBlock(offset: nat, snap: nat): seq<Insn> {
    [LdH(offset), Jeq(0x0800, 0, 1), Ret(snap), Jeq(0x86DD, 0, 1), Ret(snap),
     Jeq(0x8100, 3, 0), Jeq(0x88A8, 2, 0), Jeq(0x9100, 1, 0), Ret(0)]
  }

  function LastBlock(offset: nat, snap: nat): seq<Insn> {
    [LdH(offset), Jeq(0x0800, 0, 1), Ret(snap), Jeq(0x86DD, 0, 1), Ret(snap), Ret(0)]
  }

  function Program(direction: CaptureDirection, snap: nat): seq<Insn> {
    Gate(direction) + (TagBlock(12, snap) + (TagBlock(16, snap) + LastBlock(20, snap)))
  }

  datatype SnapError = SnapLenOutOfRange

  method BuildFilter(direction: CaptureDirection, snap: int) returns (result: Result<seq<Insn>, SnapError>)
    ensures result.Err? <==> !(1 <= snap <= 512)
    ensures result.Ok? ==> result.value == Program(direction, snap)
  {
    if !(1 <= snap <= 512) {
      return Err(SnapLenOutOfRange);
    }
    var prog := StartGate(direction);
    ghost var gate := prog;
    prog := AppendBlock(prog, 12, snap);
    prog := AppendBlock(prog, 16, snap);
    prog := AppendLastBlock(prog, 20, snap);
    Regroup(gate, TagBlock(12, snap), TagBlock(16, snap), LastBlock(20, snap));
    return Ok(prog);
  }

  lemma Regroup(a: seq<Insn>, b: seq<Insn>, c: seq<Insn>, d: seq<Insn>)
    ensures a + b + c + d == a + (b + (c + d))
  {
  }

  method StartGate(direction: CaptureDirection) returns (prog: seq<Insn>)
    ensures prog == Gate(direction)
  {
    prog := [LdB(AD_PKTTYPE)];
    if direction == In {
      prog := prog + [Jeq(PACKET_OUTGOING, 0, 1)];
      prog := prog + [Ret(0)];
    } else if direction == Out {
      prog := prog + [Jeq(PACKET_OUTGOING, 1, 0)];
      prog := prog + [Ret(0)];
    }
  }

  method AppendLastBlock(before: seq<Insn>, offset: nat, snap: nat) returns (prog: seq<Insn>)
    ensures prog == before + LastBlock(offset, snap)
  {
    prog := before + [LdH(offset)];
    prog := prog + [Jeq(0x0800, 0, 1)];
    prog := prog + [Ret(snap)];
    prog := prog + [Jeq(0x86DD, 0, 1)];
    prog := prog + [Ret(snap)];
    prog := prog + [Ret(0)];
  }

  method AppendBlock(before: seq<Insn>, offset: nat, snap: nat) returns (prog: seq<Insn>)
    ensures prog == before + TagBlock(offset, snap)
  {
    prog := before + [LdH(offset)];
    prog := prog + [Jeq(0x0800, 0, 1)];
    prog := prog + [Ret(snap)];
    prog := prog + [Jeq(0x86DD, 0, 1)];
    prog := prog + [Ret(snap)];
    prog := prog + [Jeq(0x8100, 3, 0)];
    prog := prog + [Jeq(0x88A8, 2, 0)];
    prog := prog + [Jeq(0x9100, 1, 0)];
    prog := prog + [Ret(0)];
  }

  // ---------------------------------------------------------------- what it computes

  /** All jumps land inside the program, strictly forward. */
  predicate JumpsInRange(prog: seq<Insn>) {
    forall i :: 0 <= i < |prog| && prog[i].Jeq? ==> i + 1 + prog[i].jt < |prog| && i + 1 + prog[i].jf < |prog|
  }

  lemma ProgramJumps(direction: CaptureDirection, snap: nat)
    ensures JumpsInRange(Program(direction, snap))
    ensures |Program(direction, snap)| <= 27
  {
  }

  function IpType(t: nat): bool {
    t == ETHERTYPE_IPV4 || t == ETHERTYPE_IPV6
  }

  predicate At(prog: seq<Insn>, pc: nat, block: seq<Insn>) {
    pc + |block| <= |prog| && prog[pc..pc + |block|] == block
  }

  lemma AtInsn(prog: seq<Insn>, pc: nat, block: seq<Insn>, i: nat)
    requires At(prog, pc, block) && i < |block|
    ensures pc + i < |prog| && prog[pc + i] == block[i]
  {
  }

  lemma AcceptIp(prog: seq<Insn>, pc: nat, offset: nat, snap: nat, tail: seq<Insn>, a: nat, f: seq<byte>,
      packetType: byte)
    requires At(prog, pc, [LdH(offset), Jeq(0x0800, 0, 1), Ret(snap), Jeq(0x86DD, 0, 1), Ret(snap)] + tail)
    ensures Run(prog, pc, a, f, packetType) ==
      if offset + 2 > |f| then 0
      else if IpType(Be16(f, offset)) then snap
      else Run(prog, pc + 5, Be16(f, offset), f, packetType)
  {
    var block := [LdH(offset), Jeq(0x0800, 0, 1), Ret(snap), Jeq(0x86DD, 0, 1), Ret(snap)] + tail;
    AtInsn(prog, pc, block, 0);
    AtInsn(prog, pc, block, 1);
    AtInsn(prog, pc, block, 2);
    AtInsn(prog, pc, block, 3);
    AtInsn(prog, pc, block, 4);
    if offset + 2 <= |f| {
      var t := Be16(f, offset);
      assert Run(prog, pc, a, f, packetType) == Run(prog, pc + 1, t, f, packetType);
      if t == 0x0800 {
        assert Run(prog, pc + 1, t, f, packetType) == Run(prog, pc + 2, t, f, packetType) == snap;
      } else {
        assert Run(prog, pc + 1, t, f, packetType) == Run(prog, pc + 3, t, f, packetType);
      }
    }
  }

  lemma FollowVlan(prog: seq<Insn>, pc: nat, a: nat, f: seq<byte>, packetType: byte)
    requires At(prog, pc, [Jeq(0x8100, 3, 0), Jeq(0x88A8, 2, 0), Jeq(0x9100, 1, 0), Ret(0)])
    ensures Run(prog, pc, a, f, packetType) == if IsVlan(a) then Run(prog, pc + 4, a, f, packetType) else 0
  {
    var block := [Jeq(0x8100, 3, 0), Jeq(0x88A8, 2, 0), Jeq(0x9100, 1, 0), Ret(0)];
    AtInsn(prog, pc, block, 0);
    AtInsn(prog, pc, block, 1);
    AtInsn(prog, pc, block, 2);
    AtInsn(prog, pc, block, 3);
    if a != 0x8100 {
      assert Run(prog, pc, a, f, packetType) == Run(prog, pc + 1, a, f, packetType);
      if a != 0x88A8 {
        assert Run(prog, pc + 1, a, f, packetType) == Run(prog, pc + 2, a, f, packetType);
        assert a != 0x9100 ==> Run(prog, pc + 2, a, f, packetType) == Run(prog, pc + 3, a, f, packetType) == 0;
      }
    }
  }

  lemma RunTagBlock(prog: seq<Insn>, pc: nat, offset: nat, snap: nat, a: nat, f: seq<byte>, packetType: byte)
    requires At(prog, pc, TagBlock(offset, snap))
    ensures Run(prog, pc, a, f, packetType) ==
      if offset + 2 > |f| then 0
      else if IpType(Be16(f, offset)) then snap
      else if IsVlan(Be16(f, offset)) then Run(prog, pc + 9, Be16(f, offset), f, packetType)
      else 0
  {
    var tail := [Jeq(0x8100, 3, 0), Jeq(0x88A8, 2, 0), Jeq(0x9100, 1, 0), Ret(0)];
    assert TagBlock(offset, snap) == [LdH(offset), Jeq(0x0800, 0, 1), Ret(snap), Jeq(0x86DD, 0, 1), Ret(snap)] + tail;
    AcceptIp(prog, pc, offset, snap, tail, a, f, packetType);
    assert prog[pc + 5..pc + 9] == prog[pc..pc + 9][5..] == tail;
    if offset + 2 <= |f| {
      FollowVlan(prog, pc + 5, Be16(f, offset), f, packetType);
    }
  }

  lemma RunLastBlock(prog: seq<Insn>, pc: nat, offset: nat, snap: nat, a: nat, f: seq<byte>, packetType: byte)
    requires At(prog, pc, LastBlock(offset, snap))
    ensures Run(prog, pc, a, f, packetType) == if offset + 2 <= |f| && IpType(Be16(f, offset)) then snap else 0
  {
    assert LastBlock(offset, snap)
      == [LdH(offset), Jeq(0x0800, 0, 1), Ret(snap), Jeq(0x86DD, 0, 1), Ret(snap)] + [Ret(0)];
    AcceptIp(prog, pc, offset, snap, [Ret(0)], a, f, packetType);
    AtInsn(prog, pc, LastBlock(offset, snap), 5);
  }

  /** The packet types a direction lets through. */
  predicate Admits(direction: CaptureDirection, packetType: byte) {
    direction == Both || (direction == Out <==> packetType == PACKET_OUTGOING)
  }

  /** The user-space test used when the program could not be attached. */
  predicate FallbackAdmits(direction: CaptureDirection, packetType: byte) {
    direction == Both || direction == (if packetType == PACKET_OUTGOING then Out else In)
  }

  lemma GateIsFallback(direction: CaptureDirection, packetType: byte)
    ensures Admits(direction, packetType) <==> FallbackAdmits(direction, packetType)
  {
  }

  lemma RunGate(prog: seq<Insn>, direction: CaptureDirection, f: seq<byte>, packetType: byte)
    requires At(prog, 0, Gate(direction))
    ensures Run(prog, 0, 0, f, packetType) ==
      if Admits(direction, packetType) then Run(prog, |Gate(direction)|, packetType, f, packetType) else 0
  {
    var gate := Gate(direction);
    AtInsn(prog, 0, gate, 0);
    assert Run(prog, 0, 0, f, packetType) == Run(prog, 1, packetType, f, packetType);
    if direction != Both {
      AtInsn(prog, 0, gate, 1);
      AtInsn(prog, 0, gate, 2);
      assert Run(prog, 2, packetType, f, packetType) == 0;
    }
  }

  lemma ProgramBlocks(direction: CaptureDirection, snap: nat)
    ensures var prog, g := Program(direction, snap), |Gate(direction)|;
      && At(prog, 0, Gate(direction))
      && At(prog, g, TagBlock(12, snap)) && At(prog, g + 9, TagBlock(16, snap)) && At(prog, g + 18, LastBlock(20, snap))
  {
    var gate, t1, t2, last := Gate(direction), TagBlock(12, snap), TagBlock(16, snap), LastBlock(20, snap);
    var prog := Program(direction, snap);
    assert prog == gate + t1 + t2 + last;
  }

  /** What the program returns: the snap length for an IP frame behind at most two VLAN tags. */
  function Accepts(f: seq<byte>): bool {
    |f| >= 14 &&
    (var a := Be16(f, 12);
     IpType(a) || (IsVlan(a) && |f| >= 18 &&
       (var b := Be16(f, 16);
        IpType(b) || (IsVlan(b) && |f| >= 22 && IpType(Be16(f, 20))))))
  }

  lemma ProgramAccepts(direction: CaptureDirection, snap: nat, f: seq<byte>, packetType: byte)
    ensures Run(Program(direction, snap), 0, 0, f, packetType)
         == if Admits(direction, packetType) && Accepts(f) then snap else 0
  {
    var prog, g := Program(direction, snap), |Gate(direction)|;
    ProgramBlocks(direction, snap);
    RunGate(prog, direction, f, packetType);
    RunTagBlock(prog, g, 12, snap, packetType, f, packetType);
    if |f| >= 14 {
      RunTagBlock(prog, g + 9, 16, snap, Be16(f, 12), f, packetType);
      if |f| >= 18 {
        RunLastBlock(prog, g + 18, 20, snap, Be16(f, 16), f, packetType);
      }
    }
  }

  predicate LinkIsIp(r: Parse<(nat, nat)>) {
    r.Done? && IpType(r.value.1)
  }

  lemma LinkAccepts(f: seq<byte>)
    ensures LinkIsIp(Link(f, DLT_EN10MB, 0)) <==> Accepts(f)
  {
    if |f| >= 14 {
      assert Be16(f[..14], 12) == Be16(f, 12);
      VlanStep(f, 14, Be16(f, 12), 0, 14);
      if |f| >= 18 {
        VlanStep(f, 18, Be16(f, 16), 1, 18);
        if |f| >= 22 {
          VlanStep(f, 22, Be16(f, 20), 2, 22);
        }
      }
    }
  }

  /** One turn of the decoder's VLAN loop. */
  lemma VlanStep(f: seq<byte>, offset: nat, ethertype: nat, depth: nat, hi: nat)
    requires depth <= 2 && hi <= offset <= 22
    ensures Vlans(f, offset, ethertype, depth, hi) ==
      if !IsVlan(ethertype) then Done((offset, ethertype), hi)
      else if depth == 2 then Failed(VlanDepthLimit, hi)
      else if |f| < offset + 4 then Failed(TruncatedHeader, offset + 4)
      else Vlans(f, offset + 4, Be16(f, offset + 2), depth + 1, offset + 4)
  {
    if offset + 4 <= |f| {
      assert Be16(f[..offset + 4], offset + 2) == Be16(f, offset + 2);
    }
  }

  /** For every frame of any length and every packet type the program returns the snap length iff
      the direction admits the packet type and the decoder's link layer finds IPv4 or IPv6 in the
      frame, and otherwise zero. */
  lemma FilterRefinesLink(direction: CaptureDirection, snap: nat, f: seq<byte>, packetType: byte)
    requires 1 <= snap <= 512
    ensures var r := Run(Program(direction, snap), 0, 0, f, packetType);
      && (r == snap <==> FallbackAdmits(direction, packetType) && LinkIsIp(Link(f, DLT_EN10MB, 0)))
      && (r == 0 || r == snap)
  {
    ProgramAccepts(direction, snap, f, packetType);
    LinkAccepts(f);
    GateIsFallback(direction, packetType);
  }

  /** The same read off the bytes: outbound is packet type 4, and the frame has at most two VLAN tags and
      then IPv4 or IPv6. */
  lemma FilterOnBytes(direction: CaptureDirection, snap: nat, f: seq<byte>, packetType: byte)
    requires 1 <= snap <= 512
    ensures Run(Program(direction, snap), 0, 0, f, packetType) ==
      if && (match direction case In => packetType != 4 case Out => packetType == 4 case Both => true)
         && exists at: nat, ethertype: nat ::
           LinkEnds(f, 1, at, ethertype) && (ethertype == 0x0800 || ethertype == 0x86DD)
      then snap else 0
  {
    FilterRefinesLink(direction, snap, f, packetType);
    LinkOnBytes(f, 1);
    var r := Link(f, 1, 0);
    if LinkIsIp(r) {
      assert LinkEnds(f, 1, r.value.0, r.value.1);
    }
  }
}
