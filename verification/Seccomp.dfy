/** The seccomp filter generator of internal/machine/local/sandbox_linux.go.

    `CompileFilter` follows `sandboxFilter`: it appends classic-BPF instructions
    with relative jumps.  `Run` is the kernel's interpreter for the five opcodes
    the generator uses, and `Verdict` is the plain rule table. */
module Seccomp {
  import opened Basics

  type Word = x: int | 0 <= x < 0x1_0000_0000
  type Byte = x: int | 0 <= x < 0x100
  type Half = x: int | 0 <= x < 0x1_0000

  datatype SockFilter = SockFilter(code: Half, jt: Byte, jf: Byte, k: Word)

  /** The instruction set of the host, with its system call numbers. */
  datatype Abi = Abi(auditArch: Word, hasX32: bool, socket: Word, socketpair: Word,
                     deniedAlways: seq<Word>, deniedOffline: seq<Word>)

  datatype GoArch = Amd64 | Arm64 | OtherArch

  // ---------- constants of the Linux ABI ----------

  const LD_W_ABS: Half := 0x20
  const JEQ: Half := 0x15
  const JSET: Half := 0x45
  const AND: Half := 0x54
  const RET: Half := 0x06

  const KILL_PROCESS: Word := 0x8000_0000
  const ALLOW: Word := 0x7fff_0000
  const ERRNO_EPERM: Word := 0x0005_0001

  const X32_BIT: Word := 0x4000_0000
  const SOCK_STREAM: Word := 1
  const AF_UNIX: Word := 1
  const AF_INET: Word := 2
  const AF_INET6: Word := 10

  // Word positions in struct seccomp_data: nr, arch, ip (2), args[0..6] (2 each, low word first).
  const NR: nat := 0
  const ARCH: nat := 1
  const ARG0: nat := 4
  const ARG1: nat := 6

  const amd64: Abi := Abi(0xC000_003E, true, 41, 53,
    [101, 310, 311, 425, 426, 427, 165, 166, 155, 308, 272, 430, 431, 432, 433, 428, 429, 442],
    [42, 49, 50, 43, 288, 44, 46, 307])

  const arm64: Abi := Abi(0xC000_00B7, false, 198, 199,
    [117, 270, 271, 425, 426, 427, 40, 39, 41, 268, 97, 430, 431, 432, 433, 428, 429, 442],
    [203, 200, 201, 202, 242, 206, 211, 269])

  // ---------- the interpreter ----------

  /** `Fault` stands for anything the kernel would refuse to load. */
  datatype Outcome = Return(action: Word) | Fault

  /** Bitwise and, bit by bit. */
  function BitAnd(a: nat, b: nat): (r: nat)
    ensures r <= a
  {
    if a == 0 then 0 else 2 * BitAnd(a / 2, b / 2) + (a % 2) * (b % 2)
  }

  function Bit(a: nat, k: nat): nat {
    if k == 0 then a % 2 else Bit(a / 2, k - 1)
  }

  lemma {:induction false} NoBits(k: nat)
    ensures Bit(0, k) == 0
  {
    if k > 0 { NoBits(k - 1); }
  }

  /** A bit is set exactly when it is set on both sides. */
  lemma {:induction false} AndBits(a: nat, b: nat, k: nat)
    ensures Bit(BitAnd(a, b), k) == if Bit(a, k) == 1 && Bit(b, k) == 1 then 1 else 0
    decreases k
  {
    var r := BitAnd(a, b);
    if a == 0 {
      NoBits(k);
    } else {
      ProductOfBits(a, b);
      assert r % 2 == (a % 2) * (b % 2) && r / 2 == BitAnd(a / 2, b / 2);
      if k > 0 { AndBits(a / 2, b / 2, k - 1); }
    }
  }

  lemma ProductOfBits(a: nat, b: nat)
    ensures (a % 2) * (b % 2) == if a % 2 == 1 && b % 2 == 1 then 1 else 0
  {}

  lemma OneMoreBit(a: nat, b: nat)
    ensures BitAnd(a, 2 * b + 1) == 2 * BitAnd(a / 2, b) + a % 2
  {
    assert (2 * b + 1) / 2 == b && (2 * b + 1) % 2 == 1;
  }

  lemma LowestTwo(a: nat)
    ensures BitAnd(a, 3) == a % 4
  {
    AndNothing(a / 2 / 2);
    OneMoreBit(a / 2, 0);
    OneMoreBit(a, 1);
  }

  lemma LowestThree(a: nat)
    ensures BitAnd(a, 7) == a % 8
  {
    hide BitAnd;
    LowestTwo(a / 2);
    OneMoreBit(a, 3);
  }

  /** The mask of the socket type keeps the last four bits. */
  lemma LowBits(a: nat)
    ensures BitAnd(a, 0xf) == a % 16
  {
    hide BitAnd;
    LowestThree(a / 2);
    OneMoreBit(a, 7);
  }

  lemma {:induction false} AndNothing(a: nat)
    ensures BitAnd(a, 0) == 0
  {
    if a > 0 { AndNothing(a / 2); }
  }

  function Run(prog: seq<SockFilter>, pc: nat, acc: Word, data: seq<Word>): Outcome
    requires |data| == 16
    decreases |prog| - pc
  {
    if pc >= |prog| then Fault
    else
      var i := prog[pc];
      if i.code == LD_W_ABS then
        if i.k % 4 == 0 && i.k < 64 then Run(prog, pc + 1, data[i.k / 4], data) else Fault
      else if i.code == AND then Run(prog, pc + 1, BitAnd(acc, i.k), data)
      else if i.code == JEQ then Run(prog, pc + 1 + (if acc == i.k then i.jt else i.jf), acc, data)
      else if i.code == JSET then Run(prog, pc + 1 + (if BitAnd(acc, i.k) != 0 then i.jt else i.jf), acc, data)
      else if i.code == RET then Return(i.k)
      else Fault
  }

  // ---------- the generator ----------

  function Load(offset: Word): SockFilter { SockFilter(LD_W_ABS, 0, 0, offset) }

  function IfEqual(k: Word, jt: Byte, jf: Byte): SockFilter { SockFilter(JEQ, jt, jf, k) }

  function Answer(action: Word): SockFilter { SockFilter(RET, 0, 0, action) }

  function Prologue(abi: Abi): seq<SockFilter> {
    [Load(4), IfEqual(abi.auditArch, 1, 0), Answer(KILL_PROCESS), Load(0)]
    + if abi.hasX32 then [SockFilter(JSET, 0, 1, X32_BIT), Answer(KILL_PROCESS)] else []
  }

  function DenyBlock(number: Word): seq<SockFilter> {
    [IfEqual(number, 0, 1), Answer(ERRNO_EPERM)]
  }

  function DenyBlocks(denied: seq<Word>): seq<SockFilter> {
    if denied == [] then [] else DenyBlocks(denied[..|denied|-1]) + DenyBlock(denied[|denied|-1])
  }

  function StreamBlock(socketpair: Word): seq<SockFilter> {
    [IfEqual(socketpair, 0, 5), Load(24), SockFilter(AND, 0, 0, 0xf),
     IfEqual(SOCK_STREAM, 1, 0), Answer(ERRNO_EPERM), Load(0)]
  }

  function FamilyTests(allowed: seq<Word>): seq<SockFilter>
    requires |allowed| < 0x100
    ensures |FamilyTests(allowed)| == |allowed|
  {
    if allowed == [] then [] else [IfEqual(allowed[0], |allowed|, 0)] + FamilyTests(allowed[1..])
  }

  function FamilyBlock(number: Word, allowed: seq<Word>): seq<SockFilter>
    requires |allowed| < 0xfd
  {
    [IfEqual(number, 0, |allowed| + 3), Load(16)] + FamilyTests(allowed) + [Answer(ERRNO_EPERM), Answer(ALLOW)]
  }

  function Families(abi: Abi, network: bool, number: Word): seq<Word> {
    if network && number == abi.socket then [AF_INET, AF_INET6] else [AF_UNIX]
  }

  function Program(abi: Abi, denied: seq<Word>, network: bool): seq<SockFilter> {
    Prologue(abi) + (DenyBlocks(denied) + (StreamBlock(abi.socketpair)
      + (FamilyBlock(abi.socket, Families(abi, network, abi.socket))
         + (FamilyBlock(abi.socketpair, Families(abi, network, abi.socketpair)) + [Answer(ALLOW)]))))
  }

  /** The inner loop of the socket rules: one test per family, each jumping over the refusal. */
  method AppendFamilyBlock(start: seq<SockFilter>, number: Word, allowed: seq<Word>) returns (instructions: seq<SockFilter>)
    requires |allowed| < 0xfd
    ensures instructions == start + FamilyBlock(number, allowed)
  {
    ghost var head := start + [IfEqual(number, 0, |allowed| + 3), Load(16)];
    instructions := start + [IfEqual(number, 0, |allowed| + 3), Load(16)];
    for i := 0 to |allowed|
      invariant instructions + FamilyTests(allowed[i..]) == head + FamilyTests(allowed)
    {
      assert FamilyTests(allowed[i..]) == [IfEqual(allowed[i], |allowed| - i, 0)] + FamilyTests(allowed[i+1..]);
      instructions := instructions + [IfEqual(allowed[i], |allowed| - i, 0)];
    }
    assert FamilyTests(allowed[|allowed|..]) == [];
    assert instructions == head + FamilyTests(allowed);
    instructions := instructions + [Answer(ERRNO_EPERM), Answer(ALLOW)];
  }

  method AppendDenied(start: seq<SockFilter>, denied: seq<Word>) returns (instructions: seq<SockFilter>)
    ensures instructions == start + DenyBlocks(denied)
  {
    instructions := start;
    for d := 0 to |denied|
      invariant instructions == start + DenyBlocks(denied[..d])
    {
      assert denied[..d+1][..d] == denied[..d];
      instructions := instructions + [IfEqual(denied[d], 0, 1), Answer(ERRNO_EPERM)];
    }
    assert denied[..|denied|] == denied;
  }

  method AppendSocketRules(start: seq<SockFilter>, abi: Abi, network: bool) returns (instructions: seq<SockFilter>)
    ensures instructions == start + FamilyBlock(abi.socket, Families(abi, network, abi.socket))
                            + FamilyBlock(abi.socketpair, Families(abi, network, abi.socketpair))
  {
    instructions := start;
    var numbers := [abi.socket, abi.socketpair];
    for n := 0 to 2
      invariant n == 0 ==> instructions == start
      invariant n == 1 ==> instructions == start + FamilyBlock(abi.socket, Families(abi, network, abi.socket))
      invariant n == 2 ==> instructions == start + FamilyBlock(abi.socket, Families(abi, network, abi.socket))
                                           + FamilyBlock(abi.socketpair, Families(abi, network, abi.socketpair))
    {
      var allowed := [AF_UNIX];
      if network && numbers[n] == abi.socket {
        allowed := [AF_INET, AF_INET6];
      }
      assert allowed == Families(abi, network, numbers[n]);
      instructions := AppendFamilyBlock(instructions, numbers[n], allowed);
    }
  }

  lemma Regroup(a: seq<SockFilter>, b: seq<SockFilter>, c: seq<SockFilter>, d: seq<SockFilter>, e: seq<SockFilter>, f: seq<SockFilter>)
    ensures a + b + c + d + e + f == a + (b + (c + (d + (e + f))))
  {}

  method CompileFilter(abi: Abi, denied: seq<Word>, network: bool) returns (instructions: seq<SockFilter>)
    ensures instructions == Program(abi, denied, network)
  {
    instructions := [Load(4), IfEqual(abi.auditArch, 1, 0), Answer(KILL_PROCESS), Load(0)];
    if abi.hasX32 {
      instructions := instructions + [SockFilter(JSET, 0, 1, X32_BIT), Answer(KILL_PROCESS)];
    }
    assert instructions == Prologue(abi);
    instructions := AppendDenied(instructions, denied);
    instructions := instructions
      + [IfEqual(abi.socketpair, 0, 5), Load(24), SockFilter(AND, 0, 0, 0xf),
         IfEqual(SOCK_STREAM, 1, 0), Answer(ERRNO_EPERM), Load(0)];
    instructions := AppendSocketRules(instructions, abi, network);
    instructions := instructions + [Answer(ALLOW)];
    Regroup(Prologue(abi), DenyBlocks(denied), StreamBlock(abi.socketpair),
            FamilyBlock(abi.socket, Families(abi, network, abi.socket)),
            FamilyBlock(abi.socketpair, Families(abi, network, abi.socketpair)), [Answer(ALLOW)]);
  }

  // ---------- running a block in front of the rest ----------

  /** Jumps are relative and forward, so a run depends only on what lies ahead. */
  lemma {:induction false} RunAhead(front: seq<SockFilter>, rest: seq<SockFilter>, pc: nat, acc: Word, data: seq<Word>)
    requires |data| == 16
    ensures Run(front + rest, |front| + pc, acc, data) == Run(rest, pc, acc, data)
    decreases |rest| - pc
  {
    if pc < |rest| {
      var i := rest[pc];
      assert (front + rest)[|front| + pc] == i;
      if i.code == LD_W_ABS {
        if i.k % 4 == 0 && i.k < 64 { RunAhead(front, rest, pc + 1, data[i.k / 4], data); }
      } else if i.code == AND {
        RunAhead(front, rest, pc + 1, BitAnd(acc, i.k), data);
      } else if i.code == JEQ {
        RunAhead(front, rest, pc + 1 + (if acc == i.k then i.jt else i.jf), acc, data);
      } else if i.code == JSET {
        RunAhead(front, rest, pc + 1 + (if BitAnd(acc, i.k) != 0 then i.jt else i.jf), acc, data);
      }
    }
  }

  lemma RunPrologue(abi: Abi, rest: seq<SockFilter>, acc: Word, data: seq<Word>)
    requires |data| == 16
    ensures Run(Prologue(abi) + rest, 0, acc, data)
            == if data[ARCH] != abi.auditArch || (abi.hasX32 && BitAnd(data[NR], X32_BIT) != 0)
               then Return(KILL_PROCESS) else Run(rest, 0, data[NR], data)
  {
    var p := Prologue(abi) + rest;
    assert p[0] == Load(4) && p[1] == IfEqual(abi.auditArch, 1, 0) && p[2] == Answer(KILL_PROCESS) && p[3] == Load(0);
    assert Run(p, 0, acc, data) == Run(p, 1, data[ARCH], data);
    RunAhead(Prologue(abi), rest, 0, data[NR], data);
    if data[ARCH] != abi.auditArch {
      assert Run(p, 1, data[ARCH], data) == Run(p, 2, data[ARCH], data) == Return(KILL_PROCESS);
    } else {
      assert Run(p, 1, data[ARCH], data) == Run(p, 3, data[ARCH], data) == Run(p, 4, data[NR], data);
      if abi.hasX32 {
        assert p[4] == SockFilter(JSET, 0, 1, X32_BIT) && p[5] == Answer(KILL_PROCESS);
        if BitAnd(data[NR], X32_BIT) != 0 {
          assert Run(p, 4, data[NR], data) == Run(p, 5, data[NR], data) == Return(KILL_PROCESS);
        } else {
          assert Run(p, 4, data[NR], data) == Run(p, 6, data[NR], data);
        }
      }
    }
  }

  lemma RunDeny(number: Word, rest: seq<SockFilter>, acc: Word, data: seq<Word>)
    requires |data| == 16
    ensures Run(DenyBlock(number) + rest, 0, acc, data)
            == if acc == number then Return(ERRNO_EPERM) else Run(rest, 0, acc, data)
  {
    var p := DenyBlock(number) + rest;
    assert p[0] == IfEqual(number, 0, 1) && p[1] == Answer(ERRNO_EPERM);
    RunAhead(DenyBlock(number), rest, 0, acc, data);
  }

  lemma {:induction false} RunDenyAll(denied: seq<Word>, rest: seq<SockFilter>, acc: Word, data: seq<Word>)
    requires |data| == 16
    ensures Run(DenyBlocks(denied) + rest, 0, acc, data)
            == if acc in denied then Return(ERRNO_EPERM) else Run(rest, 0, acc, data)
  {
    if denied == [] {
      assert DenyBlocks(denied) + rest == rest;
    } else {
      var front, last := denied[..|denied|-1], denied[|denied|-1];
      assert DenyBlocks(denied) + rest == DenyBlocks(front) + (DenyBlock(last) + rest);
      RunDenyAll(front, DenyBlock(last) + rest, acc, data);
      RunDeny(last, rest, acc, data);
      assert denied == front + [last];
    }
  }

  lemma RunStream(socketpair: Word, rest: seq<SockFilter>, data: seq<Word>)
    requires |data| == 16
    ensures Run(StreamBlock(socketpair) + rest, 0, data[NR], data)
            == if data[NR] == socketpair && BitAnd(data[ARG1], 0xf) != SOCK_STREAM
               then Return(ERRNO_EPERM) else Run(rest, 0, data[NR], data)
  {
    var p := StreamBlock(socketpair) + rest;
    assert p[0] == IfEqual(socketpair, 0, 5) && p[1] == Load(24) && p[2] == SockFilter(AND, 0, 0, 0xf)
        && p[3] == IfEqual(SOCK_STREAM, 1, 0) && p[4] == Answer(ERRNO_EPERM) && p[5] == Load(0);
    RunAhead(StreamBlock(socketpair), rest, 0, data[NR], data);
    if data[NR] == socketpair {
      assert Run(p, 0, data[NR], data) == Run(p, 1, data[NR], data) == Run(p, 2, data[ARG1], data);
      var kind := BitAnd(data[ARG1], 0xf);
      assert Run(p, 2, data[ARG1], data) == Run(p, 3, kind, data);
      if kind == SOCK_STREAM {
        assert Run(p, 3, kind, data) == Run(p, 5, kind, data) == Run(p, 6, data[NR], data);
      } else {
        assert Run(p, 3, kind, data) == Run(p, 4, kind, data) == Return(ERRNO_EPERM);
      }
    }
  }

  lemma {:induction false} RunFamilyTests(allowed: seq<Word>, rest: seq<SockFilter>, acc: Word, data: seq<Word>)
    requires |data| == 16 && |allowed| < 0x100
    ensures Run(FamilyTests(allowed) + ([Answer(ERRNO_EPERM), Answer(ALLOW)] + rest), 0, acc, data)
            == Return(if acc in allowed then ALLOW else ERRNO_EPERM)
  {
    var tail := [Answer(ERRNO_EPERM), Answer(ALLOW)] + rest;
    var p := FamilyTests(allowed) + tail;
    if allowed == [] {
      assert p[0] == Answer(ERRNO_EPERM);
    } else {
      assert p[0] == IfEqual(allowed[0], |allowed|, 0);
      if acc == allowed[0] {
        assert p[|allowed| + 1] == tail[1] == Answer(ALLOW);
        assert Run(p, 0, acc, data) == Run(p, |allowed| + 1, acc, data);
      } else {
        RunFamilyTests(allowed[1..], rest, acc, data);
        var first := [IfEqual(allowed[0], |allowed|, 0)];
        assert p == first + (FamilyTests(allowed[1..]) + tail);
        RunAhead(first, FamilyTests(allowed[1..]) + tail, 0, acc, data);
        assert acc in allowed <==> acc in allowed[1..] by { assert allowed == [allowed[0]] + allowed[1..]; }
      }
    }
  }

  lemma RunFamily(number: Word, allowed: seq<Word>, rest: seq<SockFilter>, data: seq<Word>)
    requires |data| == 16 && |allowed| < 0xfd
    ensures Run(FamilyBlock(number, allowed) + rest, 0, data[NR], data)
            == if data[NR] == number then Return(if data[ARG0] in allowed then ALLOW else ERRNO_EPERM)
               else Run(rest, 0, data[NR], data)
  {
    var p := FamilyBlock(number, allowed) + rest;
    assert p[0] == IfEqual(number, 0, |allowed| + 3) && p[1] == Load(16);
    if data[NR] == number {
      var head := [IfEqual(number, 0, |allowed| + 3), Load(16)];
      var body := FamilyTests(allowed) + ([Answer(ERRNO_EPERM), Answer(ALLOW)] + rest);
      assert p == head + body;
      assert Run(p, 0, data[NR], data) == Run(p, 1, data[NR], data) == Run(p, 2, data[ARG0], data);
      RunAhead(head, body, 0, data[ARG0], data);
      RunFamilyTests(allowed, rest, data[ARG0], data);
    } else {
      assert |FamilyBlock(number, allowed)| == |allowed| + 4;
      RunAhead(FamilyBlock(number, allowed), rest, 0, data[NR], data);
    }
  }

  // ---------- the rule table ----------

  /** What the sandbox promises about one system call. */
  function Verdict(abi: Abi, denied: seq<Word>, network: bool, data: seq<Word>): Word
    requires |data| == 16
  {
    if data[ARCH] != abi.auditArch then KILL_PROCESS
    else if abi.hasX32 && BitAnd(data[NR], X32_BIT) != 0 then KILL_PROCESS
    else if data[NR] in denied then ERRNO_EPERM
    else if data[NR] == abi.socketpair then
      if data[ARG0] == AF_UNIX && BitAnd(data[ARG1], 0xf) == SOCK_STREAM then ALLOW else ERRNO_EPERM
    else if data[NR] == abi.socket then
      if if network then data[ARG0] == AF_INET || data[ARG0] == AF_INET6 else data[ARG0] == AF_UNIX
      then ALLOW else ERRNO_EPERM
    else ALLOW
  }

  /** The generated program decides every call as the rule table does, whatever the
      denied list, the start value of the accumulator and the sixteen data words are. */
  lemma ProgramMeetsVerdict(abi: Abi, denied: seq<Word>, network: bool, acc: Word, data: seq<Word>)
    requires |data| == 16 && abi.socket != abi.socketpair
    ensures Run(Program(abi, denied, network), 0, acc, data) == Return(Verdict(abi, denied, network, data))
  {
    var last := [Answer(ALLOW)];
    var pairs := FamilyBlock(abi.socketpair, Families(abi, network, abi.socketpair)) + last;
    var sockets := FamilyBlock(abi.socket, Families(abi, network, abi.socket)) + pairs;
    var stream := StreamBlock(abi.socketpair) + sockets;
    RunPrologue(abi, DenyBlocks(denied) + stream, acc, data);
    RunDenyAll(denied, stream, data[NR], data);
    RunStream(abi.socketpair, sockets, data);
    RunFamily(abi.socket, Families(abi, network, abi.socket), pairs, data);
    RunFamily(abi.socketpair, Families(abi, network, abi.socketpair), last, data);
  }

  // ---------- the loader's checks ----------

  predicate IsJump(i: SockFilter) { i.code == JEQ || i.code == JSET }

  /** Every jump of the block lands inside it or just behind it, and every load is in bounds. */
  predicate BlockClosed(block: seq<SockFilter>) {
    forall p :: 0 <= p < |block| ==>
      && (IsJump(block[p]) ==> p + 1 + block[p].jt <= |block| && p + 1 + block[p].jf <= |block|)
      && (block[p].code == LD_W_ABS ==> block[p].k % 4 == 0 && block[p].k < 64)
  }

  /** What the kernel asks before it attaches a filter: no jump leaves the program and it ends in a return. */
  predicate Loadable(prog: seq<SockFilter>) {
    && prog != [] && prog[|prog|-1].code == RET
    && forall p :: 0 <= p < |prog| ==>
         && (IsJump(prog[p]) ==> p + 1 + prog[p].jt < |prog| && p + 1 + prog[p].jf < |prog|)
         && (prog[p].code == LD_W_ABS ==> prog[p].k % 4 == 0 && prog[p].k < 64)
  }

  lemma ClosedConcat(a: seq<SockFilter>, b: seq<SockFilter>)
    requires BlockClosed(a) && BlockClosed(b)
    ensures BlockClosed(a + b)
  {
    forall p | 0 <= p < |a + b|
      ensures IsJump((a + b)[p]) ==> p + 1 + (a + b)[p].jt <= |a + b| && p + 1 + (a + b)[p].jf <= |a + b|
      ensures (a + b)[p].code == LD_W_ABS ==> (a + b)[p].k % 4 == 0 && (a + b)[p].k < 64
    {
      if p >= |a| { assert (a + b)[p] == b[p - |a|]; }
    }
  }

  lemma ClosedThenAnswer(body: seq<SockFilter>, action: Word)
    requires BlockClosed(body)
    ensures Loadable(body + [Answer(action)])
  {
    var prog := body + [Answer(action)];
    forall p | 0 <= p < |prog|
      ensures IsJump(prog[p]) ==> p + 1 + prog[p].jt < |prog| && p + 1 + prog[p].jf < |prog|
      ensures prog[p].code == LD_W_ABS ==> prog[p].k % 4 == 0 && prog[p].k < 64
    {
      if p < |body| { assert prog[p] == body[p]; }
    }
  }

  lemma FixedBlocksClosed(abi: Abi)
    ensures BlockClosed(Prologue(abi)) && BlockClosed(StreamBlock(abi.socketpair))
  {}

  lemma {:induction false} DenyBlocksClosed(denied: seq<Word>)
    ensures BlockClosed(DenyBlocks(denied))
  {
    if denied != [] {
      DenyBlocksClosed(denied[..|denied|-1]);
      ClosedConcat(DenyBlocks(denied[..|denied|-1]), DenyBlock(denied[|denied|-1]));
    }
  }

  lemma {:induction false} FamilyTestsReach(allowed: seq<Word>, p: nat)
    requires p < |allowed| < 0x100
    ensures FamilyTests(allowed)[p] == IfEqual(allowed[p], |allowed| - p, 0)
  {
    if p > 0 { FamilyTestsReach(allowed[1..], p - 1); }
  }

  lemma FamilyBlockClosed(number: Word, allowed: seq<Word>)
    requires |allowed| < 0xfd
    ensures BlockClosed(FamilyBlock(number, allowed))
  {
    var b := FamilyBlock(number, allowed);
    forall p | 0 <= p < |b|
      ensures IsJump(b[p]) ==> p + 1 + b[p].jt <= |b| && p + 1 + b[p].jf <= |b|
      ensures b[p].code == LD_W_ABS ==> b[p].k % 4 == 0 && b[p].k < 64
    {
      if 2 <= p < 2 + |allowed| {
        FamilyTestsReach(allowed, p - 2);
        assert b[p] == FamilyTests(allowed)[p - 2];
      }
    }
  }

  lemma ClosedChain(a: seq<SockFilter>, b: seq<SockFilter>, c: seq<SockFilter>, d: seq<SockFilter>, e: seq<SockFilter>, action: Word)
    requires BlockClosed(a) && BlockClosed(b) && BlockClosed(c) && BlockClosed(d) && BlockClosed(e)
    ensures Loadable(a + (b + (c + (d + (e + [Answer(action)])))))
  {
    ClosedConcat(a, b);
    ClosedConcat(a + b, c);
    ClosedConcat(a + b + c, d);
    ClosedConcat(a + b + c + d, e);
    ClosedThenAnswer(a + b + c + d + e, action);
    Regroup(a, b, c, d, e, [Answer(action)]);
  }

  lemma ProgramLoads(abi: Abi, denied: seq<Word>, network: bool)
    ensures Loadable(Program(abi, denied, network))
  {
    FixedBlocksClosed(abi);
    DenyBlocksClosed(denied);
    FamilyBlockClosed(abi.socket, Families(abi, network, abi.socket));
    FamilyBlockClosed(abi.socketpair, Families(abi, network, abi.socketpair));
    ClosedChain(Prologue(abi), DenyBlocks(denied), StreamBlock(abi.socketpair),
                FamilyBlock(abi.socket, Families(abi, network, abi.socket)),
                FamilyBlock(abi.socketpair, Families(abi, network, abi.socketpair)), ALLOW);
  }

  // ---------- the bytes handed to the kernel ----------

  function EncodeWord(w: Word): seq<Byte> {
    [w % 0x100, w / 0x100 % 0x100, w / 0x1_0000 % 0x100, w / 0x100_0000]
  }

  function EncodeOne(i: SockFilter): seq<Byte> {
    [i.code % 0x100, i.code / 0x100, i.jt, i.jf] + EncodeWord(i.k)
  }

  function Encode(prog: seq<SockFilter>): seq<Byte> {
    if prog == [] then [] else EncodeOne(prog[0]) + Encode(prog[1..])
  }

  function DecodeOne(b: seq<Byte>): SockFilter
    requires |b| == 8
  {
    var code: int := b[0] as int + 0x100 * b[1] as int;
    var k: int := b[4] as int + 0x100 * b[5] as int + 0x1_0000 * b[6] as int + 0x100_0000 * b[7] as int;
    SockFilter(code, b[2], b[3], k)
  }

  /** How the kernel reads an array of `struct sock_filter`. */
  function Decode(b: seq<Byte>): Option<seq<SockFilter>> {
    if b == [] then Some([])
    else if |b| < 8 then None
    else match Decode(b[8..])
      case None => None
      case Some(rest) => Some([DecodeOne(b[..8])] + rest)
  }

  lemma EncodeOneDecodes(i: SockFilter)
    ensures DecodeOne(EncodeOne(i)) == i
  {
    var w := i.k;
    assert w == w % 0x100 + 0x100 * (w / 0x100);
    var w1 := w / 0x100;
    assert w1 == w1 % 0x100 + 0x100 * (w1 / 0x100);
    assert w / 0x1_0000 == w1 / 0x100;
    var w2 := w / 0x1_0000;
    assert w2 == w2 % 0x100 + 0x100 * (w2 / 0x100);
    assert w / 0x100_0000 == w2 / 0x100;
  }

  lemma {:induction false} EncodeDecodes(prog: seq<SockFilter>)
    ensures Decode(Encode(prog)) == Some(prog)
  {
    if prog != [] {
      var b := Encode(prog);
      assert b[..8] == EncodeOne(prog[0]) && b[8..] == Encode(prog[1..]);
      EncodeOneDecodes(prog[0]);
      EncodeDecodes(prog[1..]);
      assert [prog[0]] + prog[1..] == prog;
      assert Decode(b) == Some([DecodeOne(b[..8])] + prog[1..]);
    }
  }

  method SandboxFilter(goarch: GoArch, network: bool) returns (bytes: Option<seq<Byte>>)
    ensures bytes.None? <==> goarch == OtherArch
    ensures bytes.Some? ==>
              var abi := if goarch == Amd64 then amd64 else arm64;
              var denied := abi.deniedAlways + if network then [] else abi.deniedOffline;
              && Decode(bytes.value).Some?
              && Loadable(Decode(bytes.value).value)
              && forall acc: Word, data: seq<Word> | |data| == 16 ::
                   Run(Decode(bytes.value).value, 0, acc, data) == Return(Verdict(abi, denied, network, data))
  {
    if goarch == OtherArch {
      return None;
    }
    var abi := if goarch == Amd64 then amd64 else arm64;
    var denied := abi.deniedAlways;
    if !network {
      denied := denied + abi.deniedOffline;
    }
    assert denied == abi.deniedAlways + if network then [] else abi.deniedOffline;
    var instructions := CompileFilter(abi, denied, network);
    bytes := Some(Encode(instructions));
    EncodeDecodes(instructions);
    ProgramLoads(abi, denied, network);
    forall acc: Word, data: seq<Word> | |data| == 16
      ensures Run(instructions, 0, acc, data) == Return(Verdict(abi, denied, network, data))
    {
      ProgramMeetsVerdict(abi, denied, network, acc, data);
    }
  }
}
