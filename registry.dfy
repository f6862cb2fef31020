/** The capability registry of the CPUID dumper: one constant table per
    CPUID output register, each an ordered list of feature entries.

    The tables are reproduced exactly as dumper.c declares them, including the
    entries whose bit positions differ from the Intel 64 and IA-32 Architectures
    Software Developer's Manual (Vol. 2A, "CPUID—CPU Identification"). */
module Registry {

  /** One entry of a table: the bit position in its register, a mnemonic,
      a long name and a usage note (C `struct Feature`). The C field `bit` is a
      signed `int`, so the type here is `int`; its range is a proved fact about
      the tables, not a property of the type. */
  datatype Feature = Feature(bit: int, name: string, desc: string, usecase: string)

  type Table = seq<Feature>

  /** Every bit position can be shifted into a 32-bit unsigned value:
      `1u << bit` is defined in C only for 0 <= bit < 32. */
  predicate BitsInRange(t: Table) {
    forall i :: 0 <= i < |t| ==> 0 <= t[i].bit < 32
  }

  /** No two entries of one table claim the same bit. */
  predicate DistinctBits(t: Table) {
    forall i, j :: 0 <= i < j < |t| ==> t[i].bit != t[j].bit
  }

  /** Neighbouring entries are listed in strictly ascending bit order. */
  predicate Ascending(t: Table) {
    forall i :: 0 < i < |t| ==> t[i - 1].bit < t[i].bit
  }

  /** Any two entries, not only neighbours, are in strictly ascending order. */
  predicate SortedBits(t: Table) {
    forall i, j :: 0 <= i < j < |t| ==> t[i].bit < t[j].bit
  }

  /** The registry invariant of a table: every bit is a valid shift count
      for a 32-bit register (all the decoder needs, see `BitsInRange`) and
      no two entries name the same bit. */
  predicate WellFormed(t: Table) {
    BitsInRange(t) && DistinctBits(t)
  }

  /** Neighbour-wise ascending order extends to every pair of entries. */
  lemma {:induction false} AscendingIsSorted(t: Table)
    requires Ascending(t)
    ensures SortedBits(t)
  {
    if |t| > 1 {
      var tail := t[1..];
      assert Ascending(tail) by {
        forall i | 0 < i < |tail| ensures tail[i - 1].bit < tail[i].bit {
          assert tail[i - 1] == t[i] && tail[i] == t[i + 1];
        }
      }
      AscendingIsSorted(tail);
      forall i, j | 0 <= i < j < |t| ensures t[i].bit < t[j].bit {
        if i == 0 {
          if j > 1 {
            assert tail[0] == t[1] && tail[j - 1] == t[j];
          }
        } else {
          assert tail[i - 1] == t[i] && tail[j - 1] == t[j];
        }
      }
    }
  }

  /** An ascending table whose first bit is at least 0 and whose last bit is
      below 32 is well formed: its bits lie in [0, 31] and are pairwise
      distinct. This is how each constant table is checked below. */
  lemma AscendingBoundedIsWellFormed(t: Table)
    requires Ascending(t)
    requires |t| > 0 ==> 0 <= t[0].bit && t[|t| - 1].bit < 32
    ensures WellFormed(t) && SortedBits(t)
  {
    AscendingIsSorted(t);
    forall i | 0 <= i < |t| ensures 0 <= t[i].bit < 32 {
      assert t[0].bit <= t[i].bit <= t[|t| - 1].bit;
    }
  }

  /* CPUID(1).EDX features */
  const Cpuid1Edx: Table := [
    Feature(0,  "FPU",    "Floating Point Unit",                "Required for all floating-point math operations."),
    Feature(1,  "VME",    "Virtual 8086 Mode Enhancements",     "Legacy 16-bit mode virtualization support."),
    Feature(2,  "DE",     "Debug Extensions",                   "Enhanced debugging capabilities for trap handling."),
    Feature(3,  "PSE",    "Page Size Extension",                "4MB pages support to reduce TLB pressure."),
    Feature(4,  "TSC",    "Timestamp Counter",                  "High-res cycle counter for profiling and timing."),
    Feature(5,  "MSR",    "Model Specific Registers",           "Access to performance and control registers."),
    Feature(6,  "PAE",    "Physical Address Extension",         ">4GB RAM addressing on 32-bit systems."),
    Feature(7,  "MCE",    "Machine Check Exception",            "Hardware error detection and reporting."),
    Feature(8,  "CX8",    "CMPXCHG8 Instruction",               "Atomic compare-and-swap on 64-bit values."),
    Feature(9,  "APIC",   "Advanced Programmable Interrupt Controller", "SMP interrupt routing and management."),
    Feature(11, "SEP",    "SYSENTER/SYSEXIT",                   "Fast system calls for low-overhead transitions."),
    Feature(12, "MTRR",   "Memory Type Range Registers",        "Cache policy control per memory region."),
    Feature(13, "PGE",    "Page Global Enable",                 "Global TLB entries persist across context switches."),
    Feature(14, "MCA",    "Machine Check Architecture",         "Advanced machine-check error reporting."),
    Feature(15, "CMOV",   "Conditional Move",                   "Branch-free data-dependent moves for pipelining."),
    Feature(16, "PAT",    "Page Attribute Table",               "Extended cache attribute control."),
    Feature(17, "PSE-36", "36-bit Page Size Extension",         "Large pages on >4GB RAM for legacy systems."),
    Feature(19, "CLFLUSH", "CLFLUSH Instruction",               "Explicit cache line flush—used in device drivers."),
    Feature(23, "MMX",    "MMX Instructions",                   "Legacy 64-bit SIMD for multimedia workloads."),
    Feature(24, "FXSR",   "FXSAVE/FXRSTOR Instructions",        "Fast FPU/SIMD context save/restore."),
    Feature(25, "SSE",    "Streaming SIMD Extensions",          "128-bit float SIMD for graphics and audio."),
    Feature(26, "SSE2",   "Streaming SIMD Extensions 2",        "Double-precision SIMD and integer SIMD ops."),
    Feature(28, "HTT",    "Hyper-Threading Technology",         "Logical cores per physical core for parallelism.")
  ]

  /* CPUID(1).ECX features */
  const Cpuid1Ecx: Table := [
    Feature(0,  "SSE3",      "Streaming SIMD Extensions 3",   "Horizontal add/sub and complex arithmetic enhancements."),
    Feature(1,  "PCLMULQDQ", "Carry-less Multiplication",     "Crypto acceleration (GCM/AES-GCM)."),
    Feature(9,  "SSSE3",     "Supplemental SSE3",             "Sub-byte shuffles and improved vector math."),
    Feature(12, "FMA",       "Fused Multiply-Add",            "Single-instruction multiply-and-add for ML/DSP."),
    Feature(19, "SSE4.1",    "Streaming SIMD Extensions 4.1", "Dot-product and blend ops for media processing."),
    Feature(20, "SSE4.2",    "Streaming SIMD Extensions 4.2", "String and CRC32 acceleration."),
    Feature(23, "POPCNT",    "Population Count",              "Fast bit-counting used in compression and crypto."),
    Feature(25, "AES",       "AES Instructions",              "Hardware AES encryption for secure communications."),
    Feature(28, "AVX",       "Advanced Vector Extensions",    "256-bit float SIMD for heavy numeric/ML workloads.")
  ]

  /* CPUID(7,0).EBX features */
  const Cpuid7Ebx: Table := [
    Feature(0,  "FSGSBASE",   "RDFSBASE/WRFSBASE Instructions",       "User-mode FS/GS base access for faster TLS and context switching."),
    Feature(1,  "TSC_ADJUST", "TSC Adjustment MSR",                   "Adjust timestamp counter for hypervisor sync."),
    Feature(2,  "SGX",        "Software Guard Extensions",            "Hardware enclaves for secure computation."),
    Feature(3,  "BMI1",       "Bit Manipulation Instructions 1",      "ANDN/BEXTR/T1MSK for fast bitfield operations."),
    Feature(4,  "HLE",        "Hardware Lock Elision",                "Transactional memory hint for optimistic concurrency."),
    Feature(5,  "AVX2",       "Advanced Vector Extensions 2",         "256-bit integer SIMD—graphics, ML, crypto."),
    Feature(7,  "SMEP",       "Supervisor Mode Execution Protection", "Prevents kernel from executing user-mode code."),
    Feature(8,  "BMI2",       "Bit Manipulation Instructions 2",      "PEXT/PDEP for parallel bitfield extract/deposit."),
    Feature(9,  "ERMS",       "Enhanced REP MOVSB/STOSB",             "Optimized block memory copy/set instructions."),
    Feature(10, "INVPCID",    "Invalidate Process-Context ID",        "Fine-grained TLB invalidation for virtualization."),
    Feature(11, "RTM",        "Restricted Transactional Memory",      "User-level Intel TSX transactional support."),
    Feature(18, "RDSEED",     "Hardware Random Seed",                 "Secure seed generation for RNG initialization."),
    Feature(19, "ADX",        "Multi-Precision Add-Carry",            "ADDX/ADCX for fast big-integer arithmetic."),
    Feature(29, "SHA",        "SHA Instruction Extensions",           "Hardware SHA-1/SHA-256 hashing acceleration.")
  ]

  /* CPUID(7,0).ECX features, listed in the dumper as AVX-512 subsets */
  const Cpuid7Ecx: Table := [
    Feature(0, "AVX512F",    "AVX-512 Foundation",       "512-bit SIMD for HPC and ML."),
    Feature(1, "AVX512DQ",   "AVX-512 Double/Quad",      "Extended vector integer ops for data crunching."),
    Feature(3, "AVX512IFMA", "Integer FMA",              "Multiprecision math and deep learning integer kernels."),
    Feature(4, "AVX512PF",   "Prefetch",                 "Prefetch hints for large-data streaming workloads."),
    Feature(5, "AVX512ER",   "Exponential & Reciprocal", "Specialized math functions for scientific computation."),
    Feature(6, "AVX512CD",   "Conflict Detection",       "Cache conflict hints for gather/scatter operations."),
    Feature(8, "AVX512BW",   "Byte & Word",              "8/16-bit data operations in 512-bit registers."),
    Feature(9, "AVX512VL",   "Vector Length Extensions", "128/256-bit variants of AVX-512 instructions.")
  ]

  /* CPUID(7,0).EDX features */
  const Cpuid7Edx: Table := [
    Feature(1,  "AVX512VBMI", "Vector Bit Manipulation",          "Byte/word permute and mask operations in 512-bit registers."),
    Feature(3,  "UMIP",       "User Mode Instruction Prevention", "Prevents certain privileged instructions in user mode."),
    Feature(8,  "PKU",        "Protection Keys for Userspace",    "Memory protection domains in user-space without syscalls."),
    Feature(10, "OSPKE",      "OS-Based PKU Enable",              "OS permission for user-space PKU usage."),
    Feature(26, "CLWB",       "Cache Line Write Back",            "Writes back cache lines to memory without invalidation."),
    Feature(27, "CLFLUSHOPT", "Optimized Cache Flush",            "Non-blocking cache flush for high-performance persistence."),
    Feature(29, "PTWRITE",    "Patched Write",                    "Writes memory/page-table patches for virtualization.")
  ]

  /* CPUID(0x80000001).ECX features (AMD) */
  const Cpuid80000001Ecx: Table := [
    Feature(5,  "LZCNT",     "Leading Zero Count",        "Counts leading zeros for bit scanning in compression/crypto."),
    Feature(6,  "SSE4a",     "SSE4a Instructions (AMD)",  "AMD-specific SIMD instructions with unique shuffle ops."),
    Feature(8,  "PREFETCHW", "Prefetch Write Hint",       "Prefetch data into cache for write-heavy workloads."),
    Feature(21, "TBM",       "Trailing Bit Manipulation", "Advanced bitfield ops for crypto and data structures.")
  ]

  /* CPUID(0x80000001).EDX features (AMD) */
  const Cpuid80000001Edx: Table := [
    Feature(29, "LM",      "Long Mode (64-bit)", "Enables 64-bit mode—required for modern OS and apps."),
    Feature(31, "3DNOWEX", "3DNow! Extensions",  "Legacy AMD SIMD—mostly obsolete but present on older CPUs.")
  ]

  /** The seven tables of the dumper, one per CPUID output register it
      decodes. The report takes them as one value, so that what it proves
      holds of any tables with this shape and not only of the ones below. */
  datatype FeatureTables = FeatureTables(
    cpuid1Edx: Table, cpuid1Ecx: Table,
    cpuid7Ebx: Table, cpuid7Ecx: Table, cpuid7Edx: Table,
    cpuid80000001Ecx: Table, cpuid80000001Edx: Table)
  {
    /** Every table keeps the registry invariant `WellFormed`. */
    predicate Valid()
    {
      && WellFormed(cpuid1Edx) && WellFormed(cpuid1Ecx)
      && WellFormed(cpuid7Ebx) && WellFormed(cpuid7Ecx) && WellFormed(cpuid7Edx)
      && WellFormed(cpuid80000001Ecx) && WellFormed(cpuid80000001Edx)
    }
  }

  /** The registry as dumper.c declares it. */
  const Tables: FeatureTables :=
    FeatureTables(Cpuid1Edx, Cpuid1Ecx, Cpuid7Ebx, Cpuid7Ecx, Cpuid7Edx,
                  Cpuid80000001Ecx, Cpuid80000001Edx)

  /** The registry is valid: in each of the seven tables the bits lie in
      [0, 31] and are pairwise distinct, so every `1u << bit` the decoder
      evaluates is defined and no two entries of one table report the same
      bit. The lemmas after it add that each table is strictly ascending. */
  lemma RegistryWellFormed()
    ensures Tables.Valid()
  {
    Cpuid1EdxWellFormed();
    Cpuid1EcxWellFormed();
    Cpuid7EbxWellFormed();
    Cpuid7EcxWellFormed();
    Cpuid7EdxWellFormed();
    Cpuid80000001EcxWellFormed();
    Cpuid80000001EdxWellFormed();
  }

  /* One lemma per table: its bits lie in [0, 31] and are strictly
     ascending, hence pairwise distinct. */

  lemma Cpuid1EdxWellFormed()
    ensures WellFormed(Cpuid1Edx) && SortedBits(Cpuid1Edx)
  {
    AscendingBoundedIsWellFormed(Cpuid1Edx);
  }

  lemma Cpuid1EcxWellFormed()
    ensures WellFormed(Cpuid1Ecx) && SortedBits(Cpuid1Ecx)
  {
    AscendingBoundedIsWellFormed(Cpuid1Ecx);
  }

  lemma Cpuid7EbxWellFormed()
    ensures WellFormed(Cpuid7Ebx) && SortedBits(Cpuid7Ebx)
  {
    AscendingBoundedIsWellFormed(Cpuid7Ebx);
  }

  lemma Cpuid7EcxWellFormed()
    ensures WellFormed(Cpuid7Ecx) && SortedBits(Cpuid7Ecx)
  {
    AscendingBoundedIsWellFormed(Cpuid7Ecx);
  }

  lemma Cpuid7EdxWellFormed()
    ensures WellFormed(Cpuid7Edx) && SortedBits(Cpuid7Edx)
  {
    AscendingBoundedIsWellFormed(Cpuid7Edx);
  }

  lemma Cpuid80000001EcxWellFormed()
    ensures WellFormed(Cpuid80000001Ecx) && SortedBits(Cpuid80000001Ecx)
  {
    AscendingBoundedIsWellFormed(Cpuid80000001Ecx);
  }

  lemma Cpuid80000001EdxWellFormed()
    ensures WellFormed(Cpuid80000001Edx) && SortedBits(Cpuid80000001Edx)
  {
    AscendingBoundedIsWellFormed(Cpuid80000001Edx);
  }
}
