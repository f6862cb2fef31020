/** Bit decoding: testing one register value against a capability table
    (`print_features` in dumper.c). Terminal output is not modelled; each
    printed line becomes a `Judgement` carrying the entry, whether its bit is
    set and whether the line is highlighted. */
module Decoding {
  import opened Registry

  /** The shift amount a table entry stands for: C converts the `int` bit
      position of the entry to the shift count of `1u << bit`, which for a
      32-bit operand is meaningful only in [0, 31], i.e. a 5-bit value. */
  function ShiftOf(f: Feature): (k: bv5)
    requires 0 <= f.bit < 32
    ensures k as int == f.bit
  {
    f.bit as bv5
  }

  /** Reference definition of "bit `k` of `reg` is 1": shift it down to
      position 0 and mask. */
  predicate BitIsOne(reg: bv32, k: bv5)
  {
    (reg >> k) & 1 == 1
  }

  /** The presence test of the dumper, `(reg & (1u << bit)) != 0`. It agrees
      with the reference definition on every register value and every bit
      position in [0, 31]. */
  predicate BitTest(reg: bv32, k: bv5): (isSet: bool)
    ensures isSet <==> BitIsOne(reg, k)
  {
    MaskIsShift(reg, k);
    Masked(reg, k)
  }

  /** The masking expression of the test. */
  predicate Masked(reg: bv32, k: bv5)
  {
    reg & (1 << k) != 0
  }

  /** Masking with `1 << k` and shifting down by `k` see the same bit. */
  lemma MaskIsShift(reg: bv32, k: bv5)
    ensures Masked(reg, k) <==> BitIsOne(reg, k)
  {
  }

  /** One printed line: the entry, whether its bit is set, and whether the
      line is drawn highlighted (YELLOW) rather than in the default style. */
  datatype Judgement = Judgement(feature: Feature, present: bool, highlighted: bool)

  /** The line for one entry: absent entries are highlighted, present
      entries use the default style. */
  function Judge(reg: bv32, f: Feature): (j: Judgement)
    requires 0 <= f.bit < 32
    ensures j.feature == f
    ensures j.present <==> BitIsOne(reg, ShiftOf(f))
    ensures j.highlighted <==> !BitIsOne(reg, ShiftOf(f))
  {
    var isSet := BitTest(reg, ShiftOf(f));
    Judgement(f, isSet, !isSet)
  }

  /** The lines printed for a whole table: one per entry, in table order.
      Decoding only reads its two arguments, so the same register value and
      table always give the same lines. */
  function Decode(reg: bv32, t: Table): (r: seq<Judgement>)
    requires BitsInRange(t)
    ensures |r| == |t|
    ensures forall i :: 0 <= i < |t| ==> r[i].feature == t[i]
    ensures forall i :: 0 <= i < |t| ==> (r[i].present <==> BitIsOne(reg, ShiftOf(t[i])))
    ensures forall i :: 0 <= i < |t| ==> (r[i].highlighted <==> !r[i].present)
  {
    seq(|t|, i requires 0 <= i < |t| => Judge(reg, t[i]))
  }

  /** `lines` is what decoding `t` against `reg` must print, stated entry by
      entry without reference to how it is computed: one line per entry in
      table order, present exactly when the entry names a bit in [0, 31]
      that is 1 in `reg`, highlighted exactly when absent. */
  predicate DecodedFrom(lines: seq<Judgement>, reg: bv32, t: Table)
  {
    && |lines| == |t|
    && (forall i :: 0 <= i < |t| ==> lines[i].feature == t[i])
    && (forall i :: 0 <= i < |t| ==>
          (lines[i].present <==> 0 <= t[i].bit < 32 && BitIsOne(reg, ShiftOf(t[i]))))
    && (forall i :: 0 <= i < |t| ==> (lines[i].highlighted <==> !lines[i].present))
  }

  /** Decoding meets that description, and nothing else does: for a table
      whose bits are in range there is exactly one admissible output, so the
      same register value and table always yield the same lines. */
  lemma {:induction false} DecodeIsOnlyDecoding(lines: seq<Judgement>, reg: bv32, t: Table)
    requires BitsInRange(t)
    ensures DecodedFrom(Decode(reg, t), reg, t)
    ensures DecodedFrom(lines, reg, t) ==> lines == Decode(reg, t)
  {
    var d := Decode(reg, t);
    if DecodedFrom(lines, reg, t) {
      forall i | 0 <= i < |t| ensures lines[i] == d[i] {
        assert lines[i].feature == d[i].feature;
        assert lines[i].present == d[i].present;
      }
    }
  }

  /** `print_features(reg, features, n)`: walks the first `n` entries in
      order and emits one line per entry. A negative `n` prints nothing, as
      the C loop `for (i = 0; i < n; i++)` does; `n` beyond the table would
      read past the array, so callers may not pass it. */
  method PrintFeatures(reg: bv32, features: Table, n: int) returns (lines: seq<Judgement>)
    requires n <= |features|
    requires forall i :: 0 <= i < n ==> 0 <= features[i].bit < 32
    ensures n <= 0 ==> lines == []
    ensures n > 0 ==> lines == Decode(reg, features[..n])
    ensures n == |features| ==> lines == Decode(reg, features)
  {
    lines := [];
    var i := 0;
    while i < n
      invariant 0 <= i <= if n < 0 then 0 else n
      invariant lines == Decode(reg, features[..i])
    {
      var isSet := BitTest(reg, ShiftOf(features[i]));
      var highlighted := !isSet;
      lines := lines + [Judgement(features[i], isSet, highlighted)];
      i := i + 1;
    }
    assert features[..|features|] == features;
  }

  /** The end-to-end example on a table with FPU at bit 0 and APIC at
      bit 9: value 0x201 has both present; value 0x1 has FPU present and
      APIC absent, so only the APIC line is highlighted. */
  lemma DecodeFpuApicExample()
    ensures var t := [Feature(0, "FPU", "", ""), Feature(9, "APIC", "", "")];
      && Decode(0x201, t) == [Judgement(t[0], true, false), Judgement(t[1], true, false)]
      && Decode(0x1, t) == [Judgement(t[0], true, false), Judgement(t[1], false, true)]
  {
  }
}
