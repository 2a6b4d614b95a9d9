/**
 * A 16-bit register word seen through the C bit-field unions of the driver:
 * each named field is `width` bits starting at bit `offset`, bit 0 being the
 * least significant.  A field is read as `(w >> offset) & mask` and written
 * as a masked splice; both are written here with division and remainder by
 * powers of two, so that the word stays an ordinary number (the `.raw` view).
 */
module BitField {
  import opened Arith

  /** A `uint16_t`, the `.raw` view of a register. */
  type Word = x: nat | x < 0x1_0000

  /** A `uint8_t`. */
  type Byte = x: nat | x < 0x100

  function Pow2(n: nat): (r: nat)
    ensures r >= 1
  {
    if n == 0 then 1 else 2 * Pow2(n - 1)
  }

  lemma {:induction false} Pow2Add(a: nat, b: nat)
    ensures Pow2(a + b) == Pow2(a) * Pow2(b)
  {
    if a > 0 {
      Pow2Add(a - 1, b);
      assert Pow2(a + b) == 2 * Pow2(a - 1 + b);
    }
  }

  /** The powers of two that the register layouts use. */
  lemma Pow2Table()
    ensures Pow2(0) == 1 && Pow2(1) == 2 && Pow2(2) == 4 && Pow2(3) == 8
    ensures Pow2(4) == 16 && Pow2(5) == 32 && Pow2(6) == 64 && Pow2(7) == 128
    ensures Pow2(8) == 256 && Pow2(9) == 512 && Pow2(10) == 1024
    ensures Pow2(11) == 2048 && Pow2(12) == 4096 && Pow2(13) == 8192
    ensures Pow2(14) == 16384 && Pow2(15) == 32768 && Pow2(16) == 0x1_0000
  {
  }

  /** A named bit-field of a register. */
  datatype Field = Field(offset: nat, width: nat)
  {
    /** The field lies inside a 16-bit word. */
    predicate Fits() {
      offset + width <= 16
    }
  }

  /** Two fields share no bit. */
  predicate Disjoint(f: Field, g: Field) {
    f.offset + f.width <= g.offset || g.offset + g.width <= f.offset
  }

  /** Reading `.refined.f`. */
  function Get(w: Word, f: Field): (v: nat)
    ensures v < Pow2(f.width)
  {
    (w / Pow2(f.offset)) % Pow2(f.width)
  }

  /** The bits above the field, the new field value and the bits below it, put together. */
  function Splice(w: nat, f: Field, v: nat): (r: int) {
    var P, Q := Pow2(f.offset), Pow2(f.width);
    (w / (P * Q) * Q + v % Q) * P + w % P
  }

  lemma SpliceFacts(w: Word, f: Field, v: nat)
    requires f.Fits()
    ensures 0 <= Splice(w, f, v) < 0x1_0000
    ensures Splice(w, f, v) % Pow2(f.offset) == w % Pow2(f.offset)
    ensures Splice(w, f, v) / (Pow2(f.offset) * Pow2(f.width)) == w / (Pow2(f.offset) * Pow2(f.width))
    ensures (Splice(w, f, v) / Pow2(f.offset)) % Pow2(f.width) == v % Pow2(f.width)
  {
    var P, Q, R := Pow2(f.offset), Pow2(f.width), Pow2(16 - f.offset - f.width);
    assert P * Q * R == 0x1_0000 by {
      Pow2Add(f.offset, f.width);
      Pow2Add(f.offset + f.width, 16 - f.offset - f.width);
      Pow2Table();
    }
    SpliceArith(w, v, P, Q, R);
  }

  /** Writing `.refined.f = v`: the field keeps `v` modulo `2^width`, as a C bit-field store does. */
  function Set(w: Word, f: Field, v: nat): (r: Word)
    requires f.Fits()
    ensures Get(r, f) == v % Pow2(f.width)
  {
    SpliceFacts(w, f, v);
    Splice(w, f, v)
  }

  /** A field above bit `k` is read from the bits above `k` only. */
  lemma GetAbove(w1: Word, w2: Word, k: nat, g: Field)
    requires k <= g.offset && w1 / Pow2(k) == w2 / Pow2(k)
    ensures Get(w1, g) == Get(w2, g)
  {
    var K := Pow2(g.offset - k);
    Pow2Add(k, g.offset - k);
    DivModNested(w1, Pow2(k), K);
    DivModNested(w2, Pow2(k), K);
  }

  /** A field below bit `k` is read from the bits below `k` only. */
  lemma GetBelow(w1: Word, w2: Word, k: nat, g: Field)
    requires g.offset + g.width <= k && w1 % Pow2(k) == w2 % Pow2(k)
    ensures Get(w1, g) == Get(w2, g)
  {
    GetFromLowBits(w1, k, g);
    GetFromLowBits(w2, k, g);
  }

  lemma GetFromLowBits(n: Word, k: nat, g: Field)
    requires g.offset + g.width <= k
    ensures Get(n, g) == ((n % Pow2(k)) / Pow2(g.offset)) % Pow2(g.width)
  {
    var Pg, Qg, L := Pow2(g.offset), Pow2(g.width), Pow2(k - g.offset - g.width);
    assert Pow2(k) == Pg * Qg * L by {
      Pow2Add(g.offset, g.width);
      Pow2Add(g.offset + g.width, k - g.offset - g.width);
    }
    LowDigits(n, Pg, Qg, L);
  }

  /** Writing one field leaves every field that shares no bit with it unchanged. */
  lemma SetKeepsDisjoint(w: Word, f: Field, v: nat, g: Field)
    requires f.Fits() && Disjoint(f, g)
    ensures Get(Set(w, f, v), g) == Get(w, g)
  {
    SpliceFacts(w, f, v);
    Pow2Add(f.offset, f.width);
    if f.offset + f.width <= g.offset {
      GetAbove(Set(w, f, v), w, f.offset + f.width, g);
    } else {
      GetBelow(Set(w, f, v), w, f.offset, g);
    }
  }

  /** Writing back the value just read changes nothing. */
  lemma SetOwnValue(w: Word, f: Field)
    requires f.Fits()
    ensures Set(w, f, Get(w, f)) == w
  {
    SpliceOwn(w, Pow2(f.offset), Pow2(f.width));
  }

  /** Of two writes to the same field, the second wins. */
  lemma SetTwice(w: Word, f: Field, v: nat, u: nat)
    requires f.Fits()
    ensures Set(Set(w, f, v), f, u) == Set(w, f, u)
  {
    SpliceFacts(w, f, v);
    SpliceOuter(Set(w, f, v), w, f, u);
  }

  /** A splice depends only on the bits outside the field. */
  lemma SpliceOuter(r: Word, w: Word, f: Field, u: nat)
    requires r % Pow2(f.offset) == w % Pow2(f.offset)
    requires r / (Pow2(f.offset) * Pow2(f.width)) == w / (Pow2(f.offset) * Pow2(f.width))
    ensures Splice(r, f, u) == Splice(w, f, u)
  {
  }

  // ---------------------------------------------------------------------------
  // Layouts: the field list of one union, in declaration order.

  /** `fs` lays its fields side by side, in order, from bit `lo` up to bit `hi`. */
  predicate Tiles(fs: seq<Field>, lo: nat, hi: nat)
    decreases |fs|
  {
    if fs == [] then lo == hi
    else fs[0].offset == lo && fs[0].width >= 1 && Tiles(fs[1..], lo + fs[0].width, hi)
  }

  function Sum(ws: seq<nat>): (total: nat) {
    if ws == [] then 0 else ws[0] + Sum(ws[1..])
  }

  /**
   * How the compiler places the bit-fields of a struct whose widths are
   * `widths`: from the least significant bit up, in declaration order.
   */
  function Allocate(widths: seq<nat>, lo: nat): (fs: seq<Field>)
    ensures |fs| == |widths|
  {
    if widths == [] then [] else [Field(lo, widths[0])] + Allocate(widths[1..], lo + widths[0])
  }

  /** Every declared width is at least one bit. */
  predicate Positive(widths: seq<nat>) {
    widths == [] || (widths[0] >= 1 && Positive(widths[1..]))
  }

  /** Allocating non-empty fields one after another tiles exactly the bits their widths add up to. */
  lemma {:induction false} AllocateTiles(widths: seq<nat>, lo: nat)
    requires Positive(widths)
    ensures Tiles(Allocate(widths, lo), lo, lo + Sum(widths))
  {
    if widths != [] {
      AllocateTiles(widths[1..], lo + widths[0]);
      assert Allocate(widths, lo)[1..] == Allocate(widths[1..], lo + widths[0]);
    }
  }

  /**
   * The field does not cross a byte boundary, so it fits one `uint8_t`
   * allocation unit and the `uint8_t` and `uint16_t` declarations agree.
   */
  predicate InOneByte(f: Field) {
    f.width >= 1 && f.offset / 8 == (f.offset + f.width - 1) / 8
  }

  /** A layout that is the allocation of positive widths adding up to 16 tiles the word. */
  lemma AllocationTiles(fs: seq<Field>, widths: seq<nat>)
    requires fs == Allocate(widths, 0) && Sum(widths) == 16 && Positive(widths)
    ensures Tiles(fs, 0, 16)
  {
    AllocateTiles(widths, 0);
  }

  /** In a tiling, every field lies in the tiled range and comes wholly after the fields before it. */
  lemma {:induction false} TilesOrdered(fs: seq<Field>, lo: nat, hi: nat)
    requires Tiles(fs, lo, hi)
    ensures forall i :: 0 <= i < |fs| ==>
      lo <= fs[i].offset && fs[i].offset + fs[i].width <= hi && fs[i].width >= 1
    ensures forall i, j :: 0 <= i < j < |fs| ==> fs[i].offset + fs[i].width <= fs[j].offset
  {
    if fs != [] {
      TilesOrdered(fs[1..], lo + fs[0].width, hi);
      assert forall i :: 1 <= i < |fs| ==> fs[i] == fs[1..][i - 1];
    }
  }

  /** Distinct fields of a tiling are disjoint, and each fits in the word. */
  lemma TilesDisjoint(fs: seq<Field>, lo: nat)
    requires Tiles(fs, lo, 16)
    ensures forall f :: f in fs ==> f.Fits()
    ensures forall f, g :: f in fs && g in fs && f != g ==> Disjoint(f, g)
  {
    TilesOrdered(fs, lo, 16);
    forall f, g | f in fs && g in fs && f != g
      ensures Disjoint(f, g)
    {
      var i :| 0 <= i < |fs| && fs[i] == f;
      var j :| 0 <= j < |fs| && fs[j] == g;
      assert i != j;
    }
  }

  /** For a tiling of bits `lo..hi`, words agreeing on every field agree on all of those bits. */
  lemma {:induction false} FieldsDetermineBits(fs: seq<Field>, lo: nat, hi: nat, w1: Word, w2: Word)
    requires Tiles(fs, lo, hi)
    requires forall f :: f in fs ==> Get(w1, f) == Get(w2, f)
    ensures lo <= hi
    ensures (w1 / Pow2(lo)) % Pow2(hi - lo) == (w2 / Pow2(lo)) % Pow2(hi - lo)
  {
    if fs == [] {
      ModSmall(0, 1);
      assert Pow2(hi - lo) == 1;
    } else {
      var d := fs[0].width;
      assert fs[0] in fs;
      assert forall f :: f in fs[1..] ==> f in fs;
      FieldsDetermineBits(fs[1..], lo + d, hi, w1, w2);
      Pow2Add(lo, d);
      Pow2Add(d, hi - lo - d);
      assert hi - lo == d + (hi - (lo + d));
      DivModNested(w1 / Pow2(lo), Pow2(d), Pow2(hi - lo - d));
      DivModNested(w2 / Pow2(lo), Pow2(d), Pow2(hi - lo - d));
      DivModNested(w1, Pow2(lo), Pow2(d));
      DivModNested(w2, Pow2(lo), Pow2(d));
    }
  }

  /** The fields of a layout that tiles all 16 bits determine the word: no bit is left out. */
  lemma FieldsDetermineWord(fs: seq<Field>, w1: Word, w2: Word)
    requires Tiles(fs, 0, 16)
    requires forall f :: f in fs ==> Get(w1, f) == Get(w2, f)
    ensures w1 == w2
  {
    FieldsDetermineBits(fs, 0, 16, w1, w2);
    Pow2Table();
    ModSmall(w1, 0x1_0000);
    ModSmall(w2, 0x1_0000);
  }

  // ---------------------------------------------------------------------------
  // The union as a whole: struct of field values <-> raw word.

  function Decode(fs: seq<Field>, w: Word): (vs: seq<nat>) {
    seq(|fs|, i requires 0 <= i < |fs| => Get(w, fs[i]))
  }

  predicate AllFit(fs: seq<Field>) {
    forall i :: 0 <= i < |fs| ==> fs[i].Fits()
  }

  /** Every value fits in its field's width. */
  predicate InRange(fs: seq<Field>, vs: seq<nat>) {
    |vs| == |fs| && forall i :: 0 <= i < |fs| ==> vs[i] < Pow2(fs[i].width)
  }

  /** Storing each value in its field, starting from an all-zero word. */
  function Encode(fs: seq<Field>, vs: seq<nat>): (w: Word)
    requires |vs| == |fs| && AllFit(fs)
  {
    if fs == [] then 0 else Set(Encode(fs[1..], vs[1..]), fs[0], vs[0])
  }

  /** Encoding in-range field values and decoding the word gives the values back. */
  lemma {:induction false} DecodeEncode(fs: seq<Field>, lo: nat, vs: seq<nat>)
    requires Tiles(fs, lo, 16) && InRange(fs, vs)
    ensures AllFit(fs) && Decode(fs, Encode(fs, vs)) == vs
  {
    TilesOrdered(fs, lo, 16);
    if fs != [] {
      var rest := Encode(fs[1..], vs[1..]);
      DecodeEncode(fs[1..], lo + fs[0].width, vs[1..]);
      var w := Set(rest, fs[0], vs[0]);
      assert w == Encode(fs, vs);
      ModSmall(vs[0], Pow2(fs[0].width));
      forall i | 1 <= i < |fs|
        ensures Get(w, fs[i]) == vs[i]
      {
        SetKeepsDisjoint(rest, fs[0], vs[0], fs[i]);
        assert Get(rest, fs[i]) == Decode(fs[1..], rest)[i - 1];
      }
    }
  }

  /** Decoding a word and encoding the field values gives the word back. */
  lemma EncodeDecode(fs: seq<Field>, w: Word)
    requires Tiles(fs, 0, 16)
    ensures AllFit(fs) && Encode(fs, Decode(fs, w)) == w
  {
    DecodeEncode(fs, 0, Decode(fs, w));
    var w' := Encode(fs, Decode(fs, w));
    forall f | f in fs
      ensures Get(w', f) == Get(w, f)
    {
      var i :| 0 <= i < |fs| && fs[i] == f;
      assert Get(w', fs[i]) == Decode(fs, w')[i];
    }
    FieldsDetermineWord(fs, w', w);
  }

  // ---------------------------------------------------------------------------
  // Read-modify-write of a shadow register.

  /** `after` differs from `before` at most in the fields of `changed`. */
  predicate ChangedOnly(before: Word, after: Word, fs: seq<Field>, changed: set<Field>) {
    forall g :: g in fs && g !in changed ==> Get(after, g) == Get(before, g)
  }

  /** A write to one field of a tiled layout changes that field alone. */
  lemma SetInLayout(w: Word, f: Field, v: nat, fs: seq<Field>)
    requires Tiles(fs, 0, 16) && f in fs
    ensures f.Fits()
    ensures Get(Set(w, f, v), f) == v % Pow2(f.width)
    ensures ChangedOnly(w, Set(w, f, v), fs, {f})
  {
    TilesDisjoint(fs, 0);
    forall g | g in fs && g !in {f}
      ensures Get(Set(w, f, v), g) == Get(w, g)
    {
      SetKeepsDisjoint(w, f, v, g);
    }
  }

  /** Two writes to two different fields of a tiled layout change those two fields alone. */
  lemma SetPairInLayout(w: Word, f: Field, v: nat, g: Field, u: nat, fs: seq<Field>)
    requires Tiles(fs, 0, 16) && f in fs && g in fs && f != g
    requires f.Fits() && g.Fits()
    ensures Get(Set(Set(w, f, v), g, u), f) == v % Pow2(f.width)
    ensures Get(Set(Set(w, f, v), g, u), g) == u % Pow2(g.width)
    ensures ChangedOnly(w, Set(Set(w, f, v), g, u), fs, {f, g})
  {
    SetInLayout(w, f, v, fs);
    SetInLayout(Set(w, f, v), g, u, fs);
  }
}
