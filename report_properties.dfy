/** What the report of dumper.c guarantees about its sections and about the
    CPUID queries it issues, proved of the specification `ReportOf`, whose
    trace is `TraceOf(MaxBasic(cpu), MaxExt(cpu))` (`Report` and `Dump` are
    proved to compute it). */
module ReportProperties {
  import opened Registry
  import opened Decoding
  import opened Gating
  import opened Dumper

  /** Leaf 1 is queried and decoded whatever the two maxima say: the first
      section always carries the EDX and ECX lines of leaf 1. */
  lemma {:induction false} BasicAlwaysDecoded(cpu: Cpu, tables: FeatureTables)
    requires tables.Valid()
    ensures Query(1, 0) in ReportOf(cpu, tables).trace
    ensures ReportOf(cpu, tables).sections[0].BasicFeatures?
    ensures DecodedFrom(ReportOf(cpu, tables).sections[0].edx, cpu(1, 0).edx, tables.cpuid1Edx)
    ensures DecodedFrom(ReportOf(cpu, tables).sections[0].ecx, cpu(1, 0).ecx, tables.cpuid1Ecx)
  {
    var r := ReportOf(cpu, tables);
    BoundsQueriedFirst(MaxBasic(cpu), MaxExt(cpu));
    assert r.trace[2] == Query(1, 0);
    DecodeIsOnlyDecoding(r.sections[0].edx, cpu(1, 0).edx, tables.cpuid1Edx);
    DecodeIsOnlyDecoding(r.sections[0].ecx, cpu(1, 0).ecx, tables.cpuid1Ecx);
  }

  /** The gating rule, for each of the five gated sections (positions 1 to
      5): the section is a placeholder iff its leaf is beyond the maximum
      that governs it, the placeholder then carries that maximum, and the
      leaf is queried iff it is not a placeholder. */
  lemma {:induction false} GatingRule(cpu: Cpu, tables: FeatureTables, i: int)
    requires tables.Valid() && 1 <= i < 6
    ensures ReportOf(cpu, tables).sections[i].NotSupported?
            <==> !Supported(SectionLeaves[i], MaxBasic(cpu), MaxExt(cpu))
    ensures ReportOf(cpu, tables).sections[i].NotSupported? ==>
              ReportOf(cpu, tables).sections[i]
              == NotSupported(SectionLeaves[i], Bound(SectionLeaves[i], MaxBasic(cpu), MaxExt(cpu)))
    ensures Queried(ReportOf(cpu, tables).trace, SectionLeaves[i])
            <==> !ReportOf(cpu, tables).sections[i].NotSupported?
  {
    var mb, me := MaxBasic(cpu), MaxExt(cpu);
    var ss := ReportOf(cpu, tables).sections;
    if i == 1 {
      assert ss[1] == StructuredPart(cpu, tables, mb);
      QueriedIffSupported(mb, me, 7);
    } else if i == 2 {
      assert ss[2] == AmdPart(cpu, tables, me);
      QueriedIffSupported(mb, me, 0x8000_0001);
    } else if i == 3 {
      assert ss[3] == AddressPart(cpu, me);
      QueriedIffSupported(mb, me, 0x8000_0008);
    } else if i == 4 {
      assert ss[4] == XsavePart(cpu, mb);
      QueriedIffSupported(mb, me, 0xD);
    } else {
      assert ss[5] == TracePart(cpu, mb);
      QueriedIffSupported(mb, me, 0x14);
    }
  }

  /** A supported leaf-7 section holds the decoded lines of subleaf 0 and
      the raw registers of subleaf 1. */
  lemma {:induction false} StructuredDecoded(cpu: Cpu, tables: FeatureTables)
    requires tables.Valid() && MaxBasic(cpu) >= 7
    ensures var s := ReportOf(cpu, tables).sections[1];
            && s.StructuredFeatures?
            && DecodedFrom(s.ebx, cpu(7, 0).ebx, tables.cpuid7Ebx)
            && DecodedFrom(s.ecx, cpu(7, 0).ecx, tables.cpuid7Ecx)
            && DecodedFrom(s.edx, cpu(7, 0).edx, tables.cpuid7Edx)
            && s.rawEbx == cpu(7, 1).ebx && s.rawEcx == cpu(7, 1).ecx && s.rawEdx == cpu(7, 1).edx
  {
    var s := ReportOf(cpu, tables).sections[1];
    DecodeIsOnlyDecoding(s.ebx, cpu(7, 0).ebx, tables.cpuid7Ebx);
    DecodeIsOnlyDecoding(s.ecx, cpu(7, 0).ecx, tables.cpuid7Ecx);
    DecodeIsOnlyDecoding(s.edx, cpu(7, 0).edx, tables.cpuid7Edx);
  }

  /** A supported leaf-0x80000001 section holds the decoded ECX and EDX
      lines of that leaf. */
  lemma {:induction false} AmdDecoded(cpu: Cpu, tables: FeatureTables)
    requires tables.Valid() && MaxExt(cpu) >= 0x8000_0001
    ensures var s := ReportOf(cpu, tables).sections[2];
            && s.AmdFeatures?
            && DecodedFrom(s.ecx, cpu(0x8000_0001, 0).ecx, tables.cpuid80000001Ecx)
            && DecodedFrom(s.edx, cpu(0x8000_0001, 0).edx, tables.cpuid80000001Edx)
  {
    var s := ReportOf(cpu, tables).sections[2];
    DecodeIsOnlyDecoding(s.ecx, cpu(0x8000_0001, 0).ecx, tables.cpuid80000001Ecx);
    DecodeIsOnlyDecoding(s.edx, cpu(0x8000_0001, 0).edx, tables.cpuid80000001Edx);
  }

  /** A supported leaf-0x80000008 section reports byte 0 of EAX as the
      physical and byte 1 as the linear address width, each in [0, 255]. */
  lemma {:induction false} AddressWidths(cpu: Cpu, tables: FeatureTables)
    requires tables.Valid() && MaxExt(cpu) >= 0x8000_0008
    ensures var s := ReportOf(cpu, tables).sections[3];
            && s.AddressSizes?
            && s.physBits <= 0xFF && s.linBits <= 0xFF
            && PackAddressBits(s.physBits, s.linBits) == cpu(0x8000_0008, 0).eax & 0xFFFF
  {
    AddressBitsAreLowBytes(cpu(0x8000_0008, 0).eax);
  }

  /** With leaf 0 answering 6, the leaf-7 section is the placeholder
      "max leaf = 6" and neither subleaf of leaf 7 is queried; with 7 it is
      decoded and both subleaves are queried. */
  lemma Leaf7GateExample(cpu: Cpu, tables: FeatureTables)
    requires tables.Valid() && 6 <= MaxBasic(cpu) <= 7
    ensures MaxBasic(cpu) == 6 ==>
              && ReportOf(cpu, tables).sections[1] == NotSupported(7, 6)
              && !Queried(ReportOf(cpu, tables).trace, 7)
    ensures MaxBasic(cpu) == 7 ==>
              && ReportOf(cpu, tables).sections[1].StructuredFeatures?
              && Query(7, 0) in ReportOf(cpu, tables).trace
              && Query(7, 1) in ReportOf(cpu, tables).trace
  {
    var r := ReportOf(cpu, tables);
    assert r.sections[1] == StructuredPart(cpu, tables, MaxBasic(cpu));
    QueriedIffSupported(MaxBasic(cpu), MaxExt(cpu), 7);
    Leaf7SubleavesQueried(MaxBasic(cpu), MaxExt(cpu));
  }

  /** With leaf 0x80000000 answering 0x80000004, the leaf-0x80000008
      section is one placeholder carrying 0x80000004 and that leaf is never
      queried, while the leaf-0x80000001 section is still decoded. */
  lemma AddressGateExample(cpu: Cpu, tables: FeatureTables)
    requires tables.Valid() && cpu(0x8000_0000, 0).eax == 0x8000_0004
    ensures ReportOf(cpu, tables).sections[3] == NotSupported(0x8000_0008, 0x8000_0004)
    ensures !Queried(ReportOf(cpu, tables).trace, 0x8000_0008)
    ensures ReportOf(cpu, tables).sections[2].AmdFeatures?
  {
    assert MaxExt(cpu) == 0x8000_0004;
    GatingRule(cpu, tables, 3);
  }
}
