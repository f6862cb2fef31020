# CPUID feature dumper, modelled in Dafny

`dumper.c` is a command-line tool that asks the processor which CPUID
capabilities it has and prints a report. The report has six sections, always
in the same order: leaf 1, leaf 7, leaf 0x80000001, leaf 0x80000008, leaf 0xD
and leaf 0x14. First the tool reads the highest basic leaf (leaf 0) and the
highest extended leaf (leaf 0x80000000). A section whose leaf is above its
maximum becomes a one-line placeholder that shows that maximum. A decoded
section prints one line per capability-table entry, and absent capabilities
are highlighted.

The model has four modules:

- `Registry` (registry.dfy) holds the seven constant capability tables exactly
  as `dumper.c` declares them. It also holds their well-formedness predicates,
  with lemmas proving that every table has bits in [0, 31], pairwise distinct
  and strictly ascending.
- `Decoding` (decoding.dfy) models `print_features`:
  - `Decode` is a specification function giving one `Judgement` (entry,
    present, highlighted) per entry, in table order.
  - `PrintFeatures` is a method with the C loop and its invariant.
  - `DecodedFrom` is an independent, entry-by-entry description of the same
    output.
- `Gating` (gating.dfy) holds the CPUID queries `main` issues, as a function
  of the two maxima:
  - `TraceOf` follows the code block by block;
  - `QueriesOf` is a reference rule applied leaf by leaf;
  - soundness and completeness lemmas relate the two.
- `Dumper` (report.dfy) models `main`:
  - the processor is a parameter `cpu: (Word32, Word32) -> Regs`;
  - each of the six blocks is a method that overwrites the register locals
    through `Cpuid` and extends a ghost query trace;
  - `Report` runs them in order and is proved to produce `ReportOf`.

  `ReportProperties` (report_properties.dfy) proves the report's guarantees
  from `ReportOf`.

Leaf numbers and the two maxima are `Word32`, an integer in [0, 2^32), so that
the comparisons `max_basic >= 7` etc. are the unsigned comparisons of the C
code. Register values are `bv32`, because the decoder tests their bits.

The code does no validation of the registry at run time and has no error
path. Well-formedness is a proved fact about the constants
(`RegistryWellFormed`), not an error case. The seven tables themselves are
constants (`Cpuid1Edx` ... `Cpuid80000001Edx`, dumper.c:14-106); the rows for
`Cpuid1EdxWellFormed` ... `Cpuid80000001EdxWellFormed` cite each of them.

## Model

| member | source | states |
|---|---|---|
| Registry.AscendingIsSorted | dumper.c:14-106 | a table listed in neighbour-wise ascending bit order has every pair of entries in strictly ascending order |
| Registry.AscendingBoundedIsWellFormed | dumper.c:14-106 | an ascending table whose first bit is at least 0 and last bit below 32 has all bits in [0, 31], pairwise distinct and sorted |
| Registry.RegistryWellFormed | dumper.c:14-106 | all seven tables have bits in [0, 31] that are pairwise distinct, so every `1u << bit` the decoder evaluates is defined |
| Registry.Cpuid1EdxWellFormed | dumper.c:14-38 | `cpuid1_edx` has bits in [0, 31], pairwise distinct, strictly ascending |
| Registry.Cpuid1EcxWellFormed | dumper.c:41-51 | `cpuid1_ecx` has bits in [0, 31], pairwise distinct, strictly ascending |
| Registry.Cpuid7EbxWellFormed | dumper.c:54-69 | `cpuid7_ebx` has bits in [0, 31], pairwise distinct, strictly ascending |
| Registry.Cpuid7EcxWellFormed | dumper.c:72-81 | `cpuid7_ecx` has bits in [0, 31], pairwise distinct, strictly ascending |
| Registry.Cpuid7EdxWellFormed | dumper.c:84-92 | `cpuid7_edx` has bits in [0, 31], pairwise distinct, strictly ascending |
| Registry.Cpuid80000001EcxWellFormed | dumper.c:95-100 | `cpuid80000001_ecx` has bits in [0, 31], pairwise distinct, strictly ascending |
| Registry.Cpuid80000001EdxWellFormed | dumper.c:103-106 | `cpuid80000001_edx` has bits in [0, 31], pairwise distinct, strictly ascending |
| Decoding.ShiftOf | dumper.c:118 | the shift count of `1u << bit` is the entry's bit position, for positions in [0, 31] |
| Decoding.BitTest | dumper.c:118 | the dumper's test `reg & (1u << bit) != 0` holds iff `(reg >> bit) & 1 == 1`, for every register value and bit |
| Decoding.Judge | dumper.c:118-119 | the line for one entry keeps the entry, is present iff its bit of `reg` is 1, and is highlighted (YELLOW) iff it is absent |
| Decoding.Decode | dumper.c:116-128 | decoding yields exactly one line per table entry, in table order, each present iff its bit is 1 and highlighted iff absent |
| Decoding.DecodeIsOnlyDecoding | dumper.c:116-128 | `Decode` meets the entry-by-entry description `DecodedFrom`, and any output meeting it equals `Decode`; decoding depends only on the register value and the table |
| Decoding.PrintFeatures | dumper.c:116-128 | the loop over the first `n` entries emits `Decode` of those entries; nothing for `n <= 0`; with `n` the table length it emits the whole table's decoding |
| Decoding.DecodeFpuApicExample | dumper.c:116-128 | with FPU at bit 0 and APIC at bit 9, 0x201 gives both present; 0x1 gives FPU present and APIC absent and highlighted |
| Gating.BlockQueries | dumper.c:138-193 | a block asks only for its own leaf; it asks something iff its leaf is 1 or at most its maximum, and then first subleaf 0 |
| Gating.TraceOf | dumper.c:134-193 | the trace has at least three queries: leaf 0, leaf 0x80000000, then leaf 1 |
| Gating.TraceIsQueriesOf | dumper.c:134-193 | the block-by-block query trace of `main` is the two bounds queries followed by the leaf-by-leaf rule applied to leaves 1, 7, 0x80000001, 0x80000008, 0xD, 0x14 in that order |
| Gating.QueriesOfLeaves | dumper.c:138-193 | every query of the blocks asks for one of the blocks' leaves |
| Gating.QueriesOfSupported | dumper.c:143-193 | every query for a leaf other than 1 asks for a leaf within the maximum governing it |
| Gating.QueriesOfComplete | dumper.c:138-193 | leaf 1, and every other block leaf within its maximum, is queried with subleaf 0 |
| Gating.BoundsQueriedFirst | dumper.c:135-139 | the trace starts with leaf 0, leaf 0x80000000, then leaf 1, and no later query reads either bound again |
| Gating.OnlySupportedLeavesQueried | dumper.c:138-193 | every query after the bounds asks for a section leaf, and for a leaf other than 1 only one within its maximum |
| Gating.QueriedIffSupported | dumper.c:143-193 | a section leaf other than 1 is queried iff it is at most the maximum governing it (basic leaves against `max_basic`, extended against `max_ext`) |
| Gating.SupportedIsQueried | dumper.c:143-193 | every section leaf within its maximum is queried with subleaf 0 |
| Gating.QueriedIsSupported | dumper.c:138-193 | every query other than the two bounds asks for leaf 1 or for a leaf within its maximum |
| Gating.Leaf7SubleavesQueried | dumper.c:144-153 | (7, 0) is queried iff `max_basic >= 7`, and so is (7, 1) |
| Dumper.MaxBasic | dumper.c:135 | `max_basic` is EAX of leaf 0 read as an unsigned number, with no sign or wrap-around |
| Dumper.MaxExt | dumper.c:136 | `max_ext` is EAX of leaf 0x80000000 read as an unsigned number |
| Dumper.PhysBits | dumper.c:170 | `phys_bits` is at most 0xFF and, with the upper 24 bits of EAX, rebuilds EAX: it is byte 0 |
| Dumper.LinBits | dumper.c:171 | `lin_bits` is at most 0xFF and, between the upper 16 bits and byte 0 of EAX, rebuilds EAX: it is byte 1 |
| Dumper.AddressBitsAreLowBytes | dumper.c:170-171 | `eax & 0xFF` and `(eax >> 8) & 0xFF` are each in [0, 255] and together are exactly the low 16 bits of EAX |
| Dumper.AddressBitsRoundTrip | dumper.c:170-171 | packing two byte-sized widths and extracting them with the two expressions of the code gives them back |
| Dumper.BasicPart | dumper.c:138-141 | the leaf-1 section is always decoded and reports leaf 1 |
| Dumper.StructuredPart | dumper.c:143-156 | the leaf-7 section is decoded iff `max_basic >= 7`, else it is a placeholder carrying `max_basic` |
| Dumper.AmdPart | dumper.c:158-165 | the leaf-0x80000001 section is decoded iff `max_ext >= 0x80000001`, else a placeholder carrying `max_ext` |
| Dumper.AddressPart | dumper.c:167-176 | the leaf-0x80000008 section holds the two widths of that leaf's EAX iff `max_ext >= 0x80000008`, else a placeholder carrying `max_ext` |
| Dumper.XsavePart | dumper.c:179-185 | the leaf-0xD section holds EAX of (0xD, 0) iff `max_basic >= 0xD`, else a placeholder carrying `max_basic` |
| Dumper.TracePart | dumper.c:187-193 | the leaf-0x14 section holds EAX of (0x14, 0) iff `max_basic >= 0x14`, else a placeholder carrying `max_basic` |
| Dumper.SectionsOf | dumper.c:138-193 | there are six sections, about leaves 1, 7, 0x80000001, 0x80000008, 0xD, 0x14 in that order |
| Dumper.ReportOf | dumper.c:130-196 | a run prints one section per section leaf, and its first two queries read the two maxima |
| Dumper.Cpuid | dumper.c:108-114 | a query returns the processor's answer for (leaf, subleaf) and appends exactly that query to the trace |
| Dumper.BasicSection | dumper.c:138-141 | the leaf-1 block produces `BasicPart` and issues exactly the query (1, 0) |
| Dumper.StructuredSection | dumper.c:143-156 | the leaf-7 block produces `StructuredPart` and issues (7, 0) and (7, 1) only when `max_basic >= 7` |
| Dumper.AmdSection | dumper.c:158-165 | the leaf-0x80000001 block produces `AmdPart` and issues its one query only when supported |
| Dumper.AddressSection | dumper.c:167-176 | the leaf-0x80000008 block produces `AddressPart` and issues its one query only when supported |
| Dumper.XsaveSection | dumper.c:179-185 | the leaf-0xD block produces `XsavePart` and issues its one query only when supported |
| Dumper.TraceSection | dumper.c:187-193 | the leaf-0x14 block produces `TracePart` and issues its one query only when supported |
| Dumper.Report | dumper.c:130-196 | `main` produces the sections and the query trace of `ReportOf` for the given processor and tables |
| Dumper.Dump | dumper.c:130-196 | run on the tables of dumper.c, whose validity it establishes, `main` produces `ReportOf` |
| ReportProperties.BasicAlwaysDecoded | dumper.c:138-141 | whatever the maxima, leaf 1 is queried and the first section holds the EDX and ECX lines of leaf 1 as `DecodedFrom` describes them |
| ReportProperties.GatingRule | dumper.c:143-193 | for each gated section: it is a placeholder iff its leaf exceeds its maximum, the placeholder carries that maximum, and the leaf is queried iff the section is not a placeholder |
| ReportProperties.StructuredDecoded | dumper.c:144-153 | with `max_basic >= 7` the leaf-7 section holds the decoded EBX, ECX, EDX lines of subleaf 0 and the raw registers of subleaf 1 |
| ReportProperties.AmdDecoded | dumper.c:159-162 | with `max_ext >= 0x80000001` that section holds the decoded ECX and EDX lines of leaf 0x80000001 |
| ReportProperties.AddressWidths | dumper.c:168-173 | with `max_ext >= 0x80000008` the section reports byte 0 of EAX as physical and byte 1 as linear width, each in [0, 255] |
| ReportProperties.Leaf7GateExample | dumper.c:144-156 | `max_basic` 6 gives the placeholder "max leaf = 6" and no leaf-7 query; 7 gives the decoded section and both subleaf queries |
| ReportProperties.AddressGateExample | dumper.c:159-176 | `max_ext` 0x80000004 gives the leaf-0x80000008 placeholder carrying 0x80000004 and no query for it, while leaf 0x80000001 is decoded |

## Left out

- The `cpuid` inline-assembly wrapper (dumper.c:108-114) is hardware access. The model takes the processor as a function parameter from (leaf, subleaf) to four registers, and `Cpuid` only applies it and records the query.
- Terminal output is not modelled:
  - `printf` format strings, field widths and the section headings;
  - the ANSI colour macros, including the RESET that ends every line.
  Only the boolean highlight flag of each line is kept.
- The raw hexadecimal dumps of leaf 7 subleaf 1, leaf 0xD and leaf 0x14 are kept as the register values they print, not as text.
- Whether the table contents match the Intel 64 and IA-32 Architectures Software Developer's Manual is not modelled. The tables are reproduced exactly as written, including the entries that differ from the manual.
- `main` is one C function. Its six blocks are one method each, called in order by `Report`. The register locals are overwritten by every query just as in the C code.
- PrintFeatures: requires that `n` does not exceed the table length and that every entry it walks has a bit in [0, 31]. In C, reading past the array or shifting by 32 or more is undefined. Every call in `main` passes the table length, and `RegistryWellFormed` proves the bit range for all seven tables.
- Leaf 1 is queried without a range check, even when leaf 0 answers 0. The model follows the code, and `BasicAlwaysDecoded` states it.
