/**
 The gene records of the image-evolving genetic algorithm (src/genes.py).

 A `ColorGene` is one RGBA colour packed into a 32-bit unsigned word, red in
 the most significant byte and alpha in the least significant one. Its
 constructor rejects any integer outside [0, 0xFFFFFFFF]; its four channel
 accessors take one byte each out of the word with a shift and a mask.
 A `TriangleGene` is a plain record of three integer vertices.
 */
module Genes {
  import opened Wrappers

  /** The largest value a 32-bit unsigned word holds. */
  const MaxRgba: int := 0xFFFF_FFFF

  /** The values the constructor accepts. */
  type Word32 = x: int | 0 <= x <= MaxRgba

  /** The error the constructor raises (a `ValueError` in the source). */
  datatype GeneError = RgbaOutOfRange(rgba: int)

  function Pow2(k: nat): (p: nat)
    ensures p >= 1
  {
    if k == 0 then 1 else 2 * Pow2(k - 1)
  }

  /** Python's `x >> k` on an integer: floor division by 2^k
      (Dafny's `/` by a positive divisor also rounds down). */
  function ShiftRight(x: int, k: nat): int {
    x / Pow2(k)
  }

  /** Python's `x & 0xFF` on an integer: the low eight bits, never negative. */
  function LowByte(x: int): int {
    x % 256
  }

  predicate IsByte(x: int) {
    0 <= x <= 0xFF
  }

  /**
   A packed RGBA colour. The field is a `Word32`: an object only exists once
   the constructor's range check has passed, and nothing ever assigns the
   field again, so every accessor reads the value the constructor stored.
   */
  datatype ColorGene = ColorGene(rgba: Word32) {

    /** `(rgba >> 24) & 0xFF`: the most significant byte. */
    function Red(): (r: int)
      ensures IsByte(r)
    {
      LowByte(ShiftRight(rgba, 24))
    }

    /** `(rgba >> 16) & 0xFF`: the second byte from the top. */
    function Green(): (g: int)
      ensures IsByte(g)
    {
      LowByte(ShiftRight(rgba, 16))
    }

    /** `(rgba >> 8) & 0xFF`: the third byte from the top. */
    function Blue(): (b: int)
      ensures IsByte(b)
    {
      LowByte(ShiftRight(rgba, 8))
    }

    /** `rgba & 0xFF`: the least significant byte. */
    function Alpha(): (a: int)
      ensures IsByte(a)
    {
      LowByte(rgba)
    }
  }

  /**
   The constructor `ColorGene(rgba)`: fails for an integer outside
   [0, 0xFFFFFFFF] and otherwise stores the integer unchanged.
   */
  function NewColorGene(rgba: int): (r: Result<ColorGene, GeneError>)
    ensures r.Success? <==> 0 <= rgba <= MaxRgba
    ensures r.Success? ==> r.value.rgba == rgba
    ensures r.Failure? ==> r.error == RgbaOutOfRange(rgba)
  {
    if !(0 <= rgba <= MaxRgba) then
      Failure(RgbaOutOfRange(rgba))
    else
      Success(ColorGene(rgba))
  }

  /**
   The big-endian R, G, B, A byte layout written as arithmetic: the word
   whose bytes, from the most significant down, are the four arguments.
   It is the reference the accessors are checked against.
   */
  function Pack(red: int, green: int, blue: int, alpha: int): (w: int)
    requires IsByte(red) && IsByte(green) && IsByte(blue) && IsByte(alpha)
    ensures 0 <= w <= MaxRgba
  {
    ((red * 256 + green) * 256 + blue) * 256 + alpha
  }

  /** Writing `x` as `q * 256 + b` with `b` a byte pins down both parts. */
  lemma DivModByte(x: int, q: int, b: int)
    requires IsByte(b) && x == q * 256 + b
    ensures x / 256 == q && x % 256 == b
  {
  }

  /** Floor division by 2^16 and 2^24 is repeated floor division by 256. */
  lemma DivBy256Twice(x: int)
    requires 0 <= x
    ensures x / 0x1_0000 == x / 256 / 256
    ensures x / 0x100_0000 == x / 256 / 256 / 256
  {
    DivModByte(x / 256, x / 256 / 256, (x / 256) % 256);
    var y := x / 256 / 256;
    assert x == y * 0x1_0000 + ((x / 256) % 256) * 256 + x % 256;
    assert x / 0x1_0000 == y;
    assert x == (y / 256) * 0x100_0000 + (y % 256) * 0x1_0000 + ((x / 256) % 256) * 256 + x % 256;
  }

  /** The four channels are the base-256 digits of the word. */
  lemma ChannelsAreDigits(c: ColorGene)
    ensures c.Alpha() == c.rgba % 256
    ensures c.Blue() == (c.rgba / 256) % 256
    ensures c.Green() == (c.rgba / 256 / 256) % 256
    ensures c.Red() == c.rgba / 256 / 256 / 256
  {
    assert Pow2(8) == 256 && Pow2(16) == 0x1_0000 && Pow2(24) == 0x100_0000;
    DivBy256Twice(c.rgba);
  }

  /**
   Red needs no mask: below 2^32 the shift alone leaves a byte, so red is the
   quotient by 2^24; alpha is the remainder by 2^8.
   */
  lemma RedIsTopByte(c: ColorGene)
    ensures c.Red() == c.rgba / 0x100_0000
    ensures c.Alpha() == c.rgba % 0x100
  {
    ChannelsAreDigits(c);
    DivBy256Twice(c.rgba);
  }

  /**
   Round trip, channels to word: putting the four channels of a colour back
   together as `red * 2^24 + green * 2^16 + blue * 2^8 + alpha` gives the
   word the constructor stored.
   */
  lemma PackChannels(c: ColorGene)
    ensures Pack(c.Red(), c.Green(), c.Blue(), c.Alpha()) == c.rgba
    ensures c.Red() * 0x100_0000 + c.Green() * 0x1_0000 + c.Blue() * 0x100 + c.Alpha() == c.rgba
  {
    ChannelsAreDigits(c);
    var x := c.rgba;
    assert x == (x / 256) * 256 + x % 256;
    assert x / 256 == (x / 256 / 256) * 256 + (x / 256) % 256;
    assert x / 256 / 256 == (x / 256 / 256 / 256) * 256 + (x / 256 / 256) % 256;
  }

  /**
   Round trip, word to channels: the colour packed from four bytes hands the
   same four bytes back through its accessors.
   */
  lemma ChannelsOfPack(red: int, green: int, blue: int, alpha: int)
    requires IsByte(red) && IsByte(green) && IsByte(blue) && IsByte(alpha)
    ensures var c := ColorGene(Pack(red, green, blue, alpha));
      c.Red() == red && c.Green() == green && c.Blue() == blue && c.Alpha() == alpha
  {
    var c := ColorGene(Pack(red, green, blue, alpha));
    ChannelsAreDigits(c);
    var x := c.rgba;
    DivModByte(x, (red * 256 + green) * 256 + blue, alpha);
    DivModByte(x / 256, red * 256 + green, blue);
    DivModByte(x / 256 / 256, red, green);
  }

  /** Packing is injective: two colours with the same four channels are the same colour. */
  lemma ChannelsDetermineColor(c: ColorGene, d: ColorGene)
    requires c.Red() == d.Red() && c.Green() == d.Green()
    requires c.Blue() == d.Blue() && c.Alpha() == d.Alpha()
    ensures c == d
  {
    PackChannels(c);
    PackChannels(d);
  }

  /** The constructor accepts every stored word again and rebuilds the same colour. */
  lemma NewColorGeneOfStored(c: ColorGene)
    ensures NewColorGene(c.rgba) == Success(c)
  {
  }

  /** An integer vertex `(x, y)`. */
  type Vertex = (int, int)

  /** The record `TriangleGene(vertices)`: three vertices, kept in the order given. */
  datatype TriangleGene = TriangleGene(vertices: (Vertex, Vertex, Vertex))

  /** The record keeps each vertex in its place, and different vertex triples give different records. */
  lemma TriangleGeneKeepsVertices(vs: (Vertex, Vertex, Vertex), ws: (Vertex, Vertex, Vertex))
    ensures TriangleGene(vs).vertices.0 == vs.0
    ensures TriangleGene(vs).vertices.1 == vs.1
    ensures TriangleGene(vs).vertices.2 == vs.2
    ensures TriangleGene(vs) == TriangleGene(ws) <==> vs == ws
  {
  }
}
