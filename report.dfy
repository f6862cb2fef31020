/** The report driven by `main` in dumper.c: read the two leaf-range
    maxima, then emit six sections in a fixed order, each either decoded from
    a CPUID query or replaced by a placeholder that carries the maximum that
    ruled it out. The CPUID instruction is a parameter `cpu`; every query the
    report issues is recorded in a ghost trace. */
module Dumper {
  import opened Registry
  import opened Decoding
  import opened Gating

  /** The four registers one CPUID query returns. */
  datatype Regs = Regs(eax: bv32, ebx: bv32, ecx: bv32, edx: bv32)

  /** The processor, seen as a total function from (leaf, subleaf) to the
      registers it answers with. */
  type Cpu = (Word32, Word32) -> Regs

  /** One section of the report. The decoded sections keep the lines of
      `print_features`; the raw dumps keep the register values printed. */
  datatype Section =
    | BasicFeatures(edx: seq<Judgement>, ecx: seq<Judgement>)
    | StructuredFeatures(ebx: seq<Judgement>, ecx: seq<Judgement>, edx: seq<Judgement>,
                         rawEbx: bv32, rawEcx: bv32, rawEdx: bv32)
    | AmdFeatures(ecx: seq<Judgement>, edx: seq<Judgement>)
    | AddressSizes(physBits: bv32, linBits: bv32)
    | XsaveInfo(xcr0: bv32)
    | TraceInfo(caps: bv32)
    | NotSupported(leaf: Word32, max: Word32)
  {
    /** The CPUID leaf the section reports on. */
    function Leaf(): Word32
    {
      match this
      case BasicFeatures(_, _) => 1
      case StructuredFeatures(_, _, _, _, _, _) => 7
      case AmdFeatures(_, _) => 0x8000_0001
      case AddressSizes(_, _) => 0x8000_0008
      case XsaveInfo(_) => 0xD
      case TraceInfo(_) => 0x14
      case NotSupported(l, _) => l
    }
  }

  /** What a run of the dumper produces: its sections and its queries. */
  datatype Run = Run(sections: seq<Section>, trace: seq<Query>)

  /** Leaf 0 answers the highest basic leaf in EAX. */
  function MaxBasic(cpu: Cpu): (max: Word32)
    ensures max as int == cpu(0, 0).eax as int
  {
    cpu(0, 0).eax as Word32
  }

  /** Leaf 0x80000000 answers the highest extended leaf in EAX. */
  function MaxExt(cpu: Cpu): (max: Word32)
    ensures max as int == cpu(0x8000_0000, 0).eax as int
  {
    cpu(0x8000_0000, 0).eax as Word32
  }

  /** `phys_bits = eax & 0xFF`: the physical address width, byte 0 of the
      EAX answer of leaf 0x80000008. */
  function PhysBits(eax: bv32): (bits: bv32)
    ensures bits <= 0xFF && ((eax >> 8) << 8) | bits == eax
  {
    eax & 0xFF
  }

  /** `lin_bits = (eax >> 8) & 0xFF`: the linear address width, byte 1 of
      the same answer. */
  function LinBits(eax: bv32): (bits: bv32)
    ensures bits <= 0xFF && ((eax >> 16) << 16) | (bits << 8) | (eax & 0xFF) == eax
  {
    (eax >> 8) & 0xFF
  }

  /** Reference packing of the two widths into the low half of EAX. */
  function PackAddressBits(phys: bv32, lin: bv32): bv32
  {
    (lin << 8) | phys
  }

  /** Both widths are single bytes, and together they are exactly the low
      16 bits of EAX: extracting then packing loses only the upper half. */
  lemma AddressBitsAreLowBytes(eax: bv32)
    ensures PhysBits(eax) <= 0xFF && LinBits(eax) <= 0xFF
    ensures PackAddressBits(PhysBits(eax), LinBits(eax)) == eax & 0xFFFF
  {
  }

  /** Packing two byte-sized widths and extracting them gives them back. */
  lemma AddressBitsRoundTrip(phys: bv32, lin: bv32)
    requires phys <= 0xFF && lin <= 0xFF
    ensures PhysBits(PackAddressBits(phys, lin)) == phys
    ensures LinBits(PackAddressBits(phys, lin)) == lin
  {
  }

  /** Section 1, always decoded: leaf 1, EDX then ECX. */
  function BasicPart(cpu: Cpu, tables: FeatureTables): (s: Section)
    requires tables.Valid()
    ensures s.BasicFeatures? && s.Leaf() == 1
  {
    var r := cpu(1, 0);
    BasicFeatures(Decode(r.edx, tables.cpuid1Edx), Decode(r.ecx, tables.cpuid1Ecx))
  }

  /** Section 2: leaf 7 subleaf 0 decoded (EBX, ECX, EDX), then the raw
      registers of subleaf 1, when `max_basic >= 7`. */
  function StructuredPart(cpu: Cpu, tables: FeatureTables, maxBasic: Word32): (s: Section)
    requires tables.Valid()
    ensures s.Leaf() == 7
    ensures s.StructuredFeatures? <==> 7 <= maxBasic
    ensures s.NotSupported? <==> !(7 <= maxBasic)
    ensures s.NotSupported? ==> s.max == maxBasic
  {
    if maxBasic >= 7 then
      var r := cpu(7, 0);
      var s := cpu(7, 1);
      StructuredFeatures(Decode(r.ebx, tables.cpuid7Ebx), Decode(r.ecx, tables.cpuid7Ecx),
                         Decode(r.edx, tables.cpuid7Edx), s.ebx, s.ecx, s.edx)
    else
      NotSupported(7, maxBasic)
  }

  /** Section 3: leaf 0x80000001, ECX then EDX, when
      `max_ext >= 0x80000001`. */
  function AmdPart(cpu: Cpu, tables: FeatureTables, maxExt: Word32): (s: Section)
    requires tables.Valid()
    ensures s.Leaf() == 0x8000_0001
    ensures s.AmdFeatures? <==> 0x8000_0001 <= maxExt
    ensures s.NotSupported? <==> !(0x8000_0001 <= maxExt)
    ensures s.NotSupported? ==> s.max == maxExt
  {
    if maxExt >= 0x8000_0001 then
      var r := cpu(0x8000_0001, 0);
      AmdFeatures(Decode(r.ecx, tables.cpuid80000001Ecx), Decode(r.edx, tables.cpuid80000001Edx))
    else
      NotSupported(0x8000_0001, maxExt)
  }

  /** Section 4: the two address widths of leaf 0x80000008, when
      `max_ext >= 0x80000008`. */
  function AddressPart(cpu: Cpu, maxExt: Word32): (s: Section)
    ensures s.Leaf() == 0x8000_0008
    ensures s.AddressSizes? <==> 0x8000_0008 <= maxExt
    ensures s.AddressSizes? ==> s.physBits == PhysBits(cpu(0x8000_0008, 0).eax)
                                && s.linBits == LinBits(cpu(0x8000_0008, 0).eax)
    ensures s.NotSupported? <==> !(0x8000_0008 <= maxExt)
    ensures s.NotSupported? ==> s.max == maxExt
  {
    if maxExt >= 0x8000_0008 then
      var eax := cpu(0x8000_0008, 0).eax;
      AddressSizes(PhysBits(eax), LinBits(eax))
    else
      NotSupported(0x8000_0008, maxExt)
  }

  /** Section 5: EAX of leaf 0xD subleaf 0, when `max_basic >= 0xD`. */
  function XsavePart(cpu: Cpu, maxBasic: Word32): (s: Section)
    ensures s.Leaf() == 0xD
    ensures s.XsaveInfo? <==> 0xD <= maxBasic
    ensures s.XsaveInfo? ==> s.xcr0 == cpu(0xD, 0).eax
    ensures s.NotSupported? <==> !(0xD <= maxBasic)
    ensures s.NotSupported? ==> s.max == maxBasic
  {
    if maxBasic >= 0xD then XsaveInfo(cpu(0xD, 0).eax) else NotSupported(0xD, maxBasic)
  }

  /** Section 6: EAX of leaf 0x14 subleaf 0, when `max_basic >= 0x14`. */
  function TracePart(cpu: Cpu, maxBasic: Word32): (s: Section)
    ensures s.Leaf() == 0x14
    ensures s.TraceInfo? <==> 0x14 <= maxBasic
    ensures s.TraceInfo? ==> s.caps == cpu(0x14, 0).eax
    ensures s.NotSupported? <==> !(0x14 <= maxBasic)
    ensures s.NotSupported? ==> s.max == maxBasic
  {
    if maxBasic >= 0x14 then TraceInfo(cpu(0x14, 0).eax) else NotSupported(0x14, maxBasic)
  }

  /** The six sections of the report, in print order. */
  function SectionsOf(cpu: Cpu, tables: FeatureTables): (ss: seq<Section>)
    requires tables.Valid()
    ensures |ss| == |SectionLeaves|
    ensures forall i :: 0 <= i < |ss| ==> ss[i].Leaf() == SectionLeaves[i]
  {
    var maxBasic := MaxBasic(cpu);
    var maxExt := MaxExt(cpu);
    [BasicPart(cpu, tables), StructuredPart(cpu, tables, maxBasic), AmdPart(cpu, tables, maxExt),
     AddressPart(cpu, maxExt), XsavePart(cpu, maxBasic), TracePart(cpu, maxBasic)]
  }

  /** The whole report for a processor: its sections, and its queries
      starting with the two bounds queries. */
  function ReportOf(cpu: Cpu, tables: FeatureTables): (run: Run)
    requires tables.Valid()
    ensures |run.sections| == |SectionLeaves|
    ensures |run.trace| > 2 && run.trace[..2] == BoundsQueries
  {
    Run(SectionsOf(cpu, tables), TraceOf(MaxBasic(cpu), MaxExt(cpu)))
  }

  /** `cpuid(leaf, subleaf, &eax, &ebx, &ecx, &edx)`: ask the processor and
      record the query. */
  method Cpuid(cpu: Cpu, leaf: Word32, subleaf: Word32, ghost trace: seq<Query>)
    returns (eax: bv32, ebx: bv32, ecx: bv32, edx: bv32, ghost trace': seq<Query>)
    ensures Regs(eax, ebx, ecx, edx) == cpu(leaf, subleaf)
    ensures trace' == trace + [Query(leaf, subleaf)]
  {
    var r := cpu(leaf, subleaf);
    eax, ebx, ecx, edx := r.eax, r.ebx, r.ecx, r.edx;
    trace' := trace + [Query(leaf, subleaf)];
  }

  /* `main` is one C function; its six report blocks are written below as
     one method each, so that each block is verified on its own. The
     register locals `eax`, `ebx`, `ecx` and `edx` are overwritten by every
     query exactly as in the C code. */

  /** The CPUID(1) block: always queried, EDX decoded, then ECX. */
  method BasicSection(cpu: Cpu, tables: FeatureTables, ghost trace: seq<Query>)
    returns (section: Section, ghost trace': seq<Query>)
    requires tables.Valid()
    ensures section == BasicPart(cpu, tables)
    ensures trace' == trace + [Query(1, 0)]
  {
    var eax, ebx, ecx, edx;
    eax, ebx, ecx, edx, trace' := Cpuid(cpu, 1, 0, trace);
    var edxLines := PrintFeatures(edx, tables.cpuid1Edx, |tables.cpuid1Edx|);
    var ecxLines := PrintFeatures(ecx, tables.cpuid1Ecx, |tables.cpuid1Ecx|);
    section := BasicFeatures(edxLines, ecxLines);
  }

  /** The CPUID(7,0) block, gated on `max_basic >= 7`: subleaf 0 decoded
      (EBX, ECX, EDX), then subleaf 1 queried and its registers kept raw. */
  method StructuredSection(cpu: Cpu, tables: FeatureTables, maxBasic: Word32, ghost trace: seq<Query>)
    returns (section: Section, ghost trace': seq<Query>)
    requires tables.Valid()
    ensures section == StructuredPart(cpu, tables, maxBasic)
    ensures trace' == trace + BlockQueries(7, maxBasic)
  {
    var eax, ebx, ecx, edx;
    trace' := trace;
    if maxBasic >= 7 {
      eax, ebx, ecx, edx, trace' := Cpuid(cpu, 7, 0, trace');
      var ebxLines := PrintFeatures(ebx, tables.cpuid7Ebx, |tables.cpuid7Ebx|);
      var ecxLines := PrintFeatures(ecx, tables.cpuid7Ecx, |tables.cpuid7Ecx|);
      var edxLines := PrintFeatures(edx, tables.cpuid7Edx, |tables.cpuid7Edx|);
      eax, ebx, ecx, edx, trace' := Cpuid(cpu, 7, 1, trace');
      section := StructuredFeatures(ebxLines, ecxLines, edxLines, ebx, ecx, edx);
    } else {
      section := NotSupported(7, maxBasic);
    }
  }

  /** The CPUID(0x80000001) block, gated on `max_ext >= 0x80000001`: ECX
      decoded, then EDX. */
  method AmdSection(cpu: Cpu, tables: FeatureTables, maxExt: Word32, ghost trace: seq<Query>)
    returns (section: Section, ghost trace': seq<Query>)
    requires tables.Valid()
    ensures section == AmdPart(cpu, tables, maxExt)
    ensures trace' == trace + BlockQueries(0x8000_0001, maxExt)
  {
    var eax, ebx, ecx, edx;
    trace' := trace;
    if maxExt >= 0x8000_0001 {
      eax, ebx, ecx, edx, trace' := Cpuid(cpu, 0x8000_0001, 0, trace');
      var ecxLines := PrintFeatures(ecx, tables.cpuid80000001Ecx, |tables.cpuid80000001Ecx|);
      var edxLines := PrintFeatures(edx, tables.cpuid80000001Edx, |tables.cpuid80000001Edx|);
      section := AmdFeatures(ecxLines, edxLines);
    } else {
      section := NotSupported(0x8000_0001, maxExt);
    }
  }

  /** The CPUID(0x80000008) block, gated on `max_ext >= 0x80000008`: the
      physical and linear address widths taken from EAX. */
  method AddressSection(cpu: Cpu, maxExt: Word32, ghost trace: seq<Query>)
    returns (section: Section, ghost trace': seq<Query>)
    ensures section == AddressPart(cpu, maxExt)
    ensures trace' == trace + BlockQueries(0x8000_0008, maxExt)
  {
    var eax, ebx, ecx, edx;
    trace' := trace;
    if maxExt >= 0x8000_0008 {
      eax, ebx, ecx, edx, trace' := Cpuid(cpu, 0x8000_0008, 0, trace');
      var physBits := eax & 0xFF;
      var linBits := (eax >> 8) & 0xFF;
      section := AddressSizes(physBits, linBits);
    } else {
      section := NotSupported(0x8000_0008, maxExt);
    }
  }

  /** The CPUID(0xD,0) block, gated on `max_basic >= 0xD`: EAX kept raw. */
  method XsaveSection(cpu: Cpu, maxBasic: Word32, ghost trace: seq<Query>)
    returns (section: Section, ghost trace': seq<Query>)
    ensures section == XsavePart(cpu, maxBasic)
    ensures trace' == trace + BlockQueries(0xD, maxBasic)
  {
    var eax, ebx, ecx, edx;
    trace' := trace;
    if maxBasic >= 0xD {
      eax, ebx, ecx, edx, trace' := Cpuid(cpu, 0xD, 0, trace');
      section := XsaveInfo(eax);
    } else {
      section := NotSupported(0xD, maxBasic);
    }
  }

  /** The CPUID(0x14,0) block, gated on `max_basic >= 0x14`: EAX kept raw. */
  method TraceSection(cpu: Cpu, maxBasic: Word32, ghost trace: seq<Query>)
    returns (section: Section, ghost trace': seq<Query>)
    ensures section == TracePart(cpu, maxBasic)
    ensures trace' == trace + BlockQueries(0x14, maxBasic)
  {
    var eax, ebx, ecx, edx;
    trace' := trace;
    if maxBasic >= 0x14 {
      eax, ebx, ecx, edx, trace' := Cpuid(cpu, 0x14, 0, trace');
      section := TraceInfo(eax);
    } else {
      section := NotSupported(0x14, maxBasic);
    }
  }

  /** `main`: read the two maxima, then run the six blocks in print order
      and collect the sections they would print. */
  method Report(cpu: Cpu, tables: FeatureTables) returns (sections: seq<Section>, ghost trace: seq<Query>)
    requires tables.Valid()
    ensures sections == ReportOf(cpu, tables).sections
    ensures trace == ReportOf(cpu, tables).trace
  {
    var eax, ebx, ecx, edx: bv32;
    trace := [];

    eax, ebx, ecx, edx, trace := Cpuid(cpu, 0, 0, trace);
    var maxBasic := eax as Word32;
    eax, ebx, ecx, edx, trace := Cpuid(cpu, 0x8000_0000, 0, trace);
    var maxExt := eax as Word32;
    assert maxBasic == MaxBasic(cpu) && maxExt == MaxExt(cpu);
    assert trace == BoundsQueries;

    var basic, structured, amd, address, xsave, pt;
    basic, trace := BasicSection(cpu, tables, trace);
    structured, trace := StructuredSection(cpu, tables, maxBasic, trace);
    amd, trace := AmdSection(cpu, tables, maxExt, trace);
    address, trace := AddressSection(cpu, maxExt, trace);
    xsave, trace := XsaveSection(cpu, maxBasic, trace);
    pt, trace := TraceSection(cpu, maxBasic, trace);
    assert trace == TraceOf(maxBasic, maxExt);
    sections := [basic, structured, amd, address, xsave, pt];
    assert sections == SectionsOf(cpu, tables);
  }

  /** The dumper run on the tables of dumper.c. */
  method Dump(cpu: Cpu) returns (sections: seq<Section>, ghost trace: seq<Query>)
    ensures Tables.Valid()
    ensures sections == ReportOf(cpu, Tables).sections
    ensures trace == ReportOf(cpu, Tables).trace
  {
    RegistryWellFormed();
    sections, trace := Report(cpu, Tables);
  }
}
