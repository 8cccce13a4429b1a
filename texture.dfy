/**
 * `Loader::Trexture`: the procedural checker texture, the pixel format a
 * loaded image is uploaded with, and the size record of the shadow-map
 * framebuffer. Image decoding and every GL call are left out; a texture or
 * framebuffer id is a value supplied by the caller.
 */
module Textures {
  import opened Wrappers
  import opened Grids

  // ---------------------------------------------------------------------
  // Checker texture

  /** C++ `int` division: the quotient truncates toward zero. */
  function CDiv(a: int, b: int): (q: int)
    requires b != 0
    ensures a >= 0 && b > 0 ==> q == a / b
  {
    var m := (if a < 0 then -a else a) / (if b < 0 then -b else b);
    if (a < 0) != (b < 0) then -m else m
  }

  /** Whether `(n & 1) != 0` on a two's complement `int`: n is odd, for negative n too. */
  predicate Odd(n: int) {
    n % 2 == 1
  }

  /** The checker cell parity of pixel (x, y): `(x * checks) / size + (y * checks) / size` is odd. */
  predicate OddCell(size: int, checks: int, x: int, y: int)
    requires size != 0
  {
    Odd(CDiv(x * checks, size) + CDiv(y * checks, size))
  }

  const OddColour: seq<Byte> := [230, 80, 80]
  const EvenColour: seq<Byte> := [40, 200, 240]

  /** The three bytes of pixel (x, y). */
  function CheckerPixel(size: int, checks: int, x: nat, y: nat): (p: seq<Byte>)
    requires size != 0
    ensures |p| == 3
  {
    if OddCell(size, checks, x, y) then OddColour else EvenColour
  }

  function CheckerCell(size: int, checks: int): (nat, nat) -> seq<Byte> {
    (y: nat, x: nat) => if size != 0 then CheckerPixel(size, checks, x, y) else []
  }

  lemma SquareNonneg(size: int)
    ensures size * size >= 0
  {
    if size < 0 {
      assert size * size == (-size) * (-size);
    }
  }

  /** The size * size * 3 zero bytes of `std::vector<unsigned char> data(size * size * 3)`. */
  function ZeroBuffer(size: int): (z: seq<Byte>)
    ensures size * size >= 0 && |z| == size * size * 3
  {
    SquareNonneg(size);
    seq(size * size * 3, _ => 0)
  }

  /**
   * The buffer `makeCheckerTex` uploads: rows y, pixels x, 3 bytes each at
   * (y * size + x) * 3. With size <= 0 the loops do not run and the buffer
   * keeps its size * size * 3 zero bytes.
   */
  function CheckerImage(size: int, checks: int): seq<Byte> {
    if size > 0 then Grid(size, size, CheckerCell(size, checks)) else ZeroBuffer(size)
  }

  lemma CheckerUniform(size: nat, checks: int)
    ensures Uniform(size, size, CheckerCell(size, checks), 3)
  {
    var f := CheckerCell(size, checks);
    forall y: nat, x: nat | y < size && x < size ensures |f(y, x)| == 3 {
      assert f(y, x) == CheckerPixel(size, checks, x, y);
    }
  }

  /** The checker buffer has size * size * 3 bytes. */
  lemma CheckerLength(size: int, checks: int)
    ensures |CheckerImage(size, checks)| == size * size * 3
  {
    if size > 0 {
      CheckerUniform(size, checks);
      GridLength(size, size, CheckerCell(size, checks), 3);
    }
  }

  /**
   * Pixel (x, y) is the three bytes at (y * size + x) * 3: (230, 80, 80)
   * when its cell parity is odd, (40, 200, 240) otherwise.
   */
  lemma CheckerPixelAt(size: nat, checks: int, x: nat, y: nat)
    requires x < size && y < size
    ensures var im := CheckerImage(size, checks); var b := (y * size + x) * 3;
      b + 3 <= |im| &&
      im[b..b + 3] == (if OddCell(size, checks, x, y) then [230, 80, 80] else [40, 200, 240])
  {
    CheckerUniform(size, checks);
    BlockAt(size, size, CheckerCell(size, checks), 3, y, x);
  }

  /** With a single check (or none), (x * checks) / size is 0 on the whole image: every pixel has the even colour. */
  lemma SingleCheckIsUniform(size: nat, checks: int, x: nat, y: nat)
    requires 0 <= checks <= 1 && x < size && y < size
    ensures !OddCell(size, checks, x, y)
  {
    if checks == 0 {
      assert x * checks == 0 && y * checks == 0;
    } else {
      assert x * checks == x && y * checks == y;
    }
  }

  /**
   * `makeCheckerTex`'s pixel loops over the zero-filled buffer (the GL
   * upload is left out).
   */
  method MakeCheckerTex(size: int := 256, checks: int := 8) returns (data: array<Byte>)
    ensures data[..] == CheckerImage(size, checks)
  {
    ghost var im := CheckerImage(size, checks);
    CheckerLength(size, checks);
    SquareNonneg(size);
    data := new Byte[size * size * 3](_ => 0);
    var y := 0;
    while y < size
      invariant 0 <= y && (size > 0 ==> y <= size)
      invariant size <= 0 ==> data[..] == im
      invariant size > 0 ==> Painted(data, im, y * size * 3)
    {
      CheckerRow(data, size, checks, y);
      y := y + 1;
    }
    if size > 0 {
      assert y * size * 3 == data.Length;
      assert data[..] == im;
    }
  }

  /** The first n bytes of the buffer are those of the image. */
  ghost predicate Painted(data: array<Byte>, im: seq<Byte>, n: int)
    reads data
  {
    0 <= n <= data.Length == |im| && forall p :: 0 <= p < n ==> data[p] == im[p]
  }

  /** One pass of the outer loop: row y's pixels, x = 0 .. size - 1. */
  method CheckerRow(data: array<Byte>, size: nat, checks: int, y: nat)
    requires y < size && data.Length == size * size * 3
    requires Painted(data, CheckerImage(size, checks), y * size * 3)
    modifies data
    ensures Painted(data, CheckerImage(size, checks), (y + 1) * size * 3)
  {
    ghost var im := CheckerImage(size, checks);
    CheckerLength(size, checks);
    RowBound(size, y);
    var x := 0;
    while x < size
      invariant 0 <= x <= size
      invariant (y * size + x) * 3 <= data.Length
      invariant forall p :: 0 <= p < (y * size + x) * 3 ==> data[p] == im[p]
    {
      var cx := CDiv(x * checks, size);
      var cy := CDiv(y * checks, size);
      var odd := Odd(cx + cy);
      var v: Byte := if odd then 230 else 40;
      CheckerPixelAt(size, checks, x, y);
      CellBound(size, x, y);
      var b: nat := (y * size + x) * 3;
      assert im[b..b + 3] == (if odd then OddColour else EvenColour);
      WritePixel(data, b, v, if odd then 80 else 200, if odd then 80 else 240);
      assert (y * size + (x + 1)) * 3 == b + 3;
      forall p | 0 <= p < b + 3 ensures data[p] == im[p] {
        if p >= b {
          assert im[p] == im[b..b + 3][p - b];
        }
      }
      x := x + 1;
    }
    MulSucc(y, size);
  }

  /** `data[b + 0]`, `data[b + 1]`, `data[b + 2]` of one pixel. */
  method WritePixel(data: array<Byte>, b: nat, c0: Byte, c1: Byte, c2: Byte)
    requires b + 3 <= data.Length
    modifies data
    ensures data[b] == c0 && data[b + 1] == c1 && data[b + 2] == c2
    ensures forall p :: 0 <= p < b ==> data[p] == old(data[p])
  {
    data[b + 0] := c0;
    data[b + 1] := c1;
    data[b + 2] := c2;
  }

  lemma RowBound(size: int, y: nat)
    requires y < size
    ensures (y + 1) * size * 3 <= size * size * 3
  {
    MulLe(y + 1, size, size);
  }

  lemma CellBound(size: nat, x: nat, y: nat)
    requires x < size && y < size
    ensures (y * size + x) * 3 + 3 <= size * size * 3
  {
    MulLe(y + 1, size, size);
    MulSucc(y, size);
  }

  // ---------------------------------------------------------------------
  // Pixel formats

  datatype Format = Red | RG | RGB | RGBA

  /** The bytes per pixel a GL upload of this format reads. */
  function Channels(f: Format): nat {
    match f
    case Red => 1
    case RG => 2
    case RGB => 3
    case RGBA => 4
  }

  /** `loadTexture`'s choice as written: 1 component gives GL_RED, 4 give GL_RGBA, anything else GL_RGB. */
  function LoadFormat(nrComponents: int): (f: Format)
    ensures f == Red <==> nrComponents == 1
    ensures f == RGBA <==> nrComponents == 4
    ensures f == RGB <==> nrComponents != 1 && nrComponents != 4
  {
    if nrComponents == 1 then Red
    else if nrComponents == 4 then RGBA
    else RGB
  }

  /** A grey-and-alpha image (2 components) is uploaded as GL_RGB, which reads 3 bytes per 2-byte pixel. */
  lemma GreyAlphaMismatch()
    ensures Channels(LoadFormat(2)) != 2
  {
  }

  /** The format whose pixel size is the image's component count, for every count stb_image reports. */
  function LoadFormatCorrected(nrComponents: int): (f: Format)
    requires 1 <= nrComponents <= 4
    ensures Channels(f) == nrComponents
    ensures nrComponents != 2 ==> f == LoadFormat(nrComponents)
  {
    if nrComponents == 1 then Red
    else if nrComponents == 2 then RG
    else if nrComponents == 4 then RGBA
    else RGB
  }

  /** For 1, 3 and 4 components the source's choice already reads exactly the image's bytes. */
  lemma LoadFormatMatches(nrComponents: int)
    requires nrComponents == 1 || nrComponents == 3 || nrComponents == 4
    ensures Channels(LoadFormat(nrComponents)) == nrComponents
  {
  }

  // ---------------------------------------------------------------------
  // Shadow map

  /** `DepthMap`: the framebuffer and texture ids and the recorded size. */
  datatype DepthMap = DepthMap(fbo: UInt32, texture: UInt32, width: UInt32, height: UInt32)

  /**
   * `createDepthMapFBO`: the record carries the requested size, 4096 x 4096
   * unless given; the ids are the ones GL generated.
   */
  function CreateDepthMapFBO(fbo: UInt32, texture: UInt32, width: UInt32 := 4096, height: UInt32 := 4096): (d: DepthMap)
    ensures d.width == width && d.height == height
    ensures d.fbo == fbo && d.texture == texture
  {
    DepthMap(fbo, texture, width, height)
  }

  /** Without a size argument the shadow map is 4096 x 4096. */
  lemma DefaultShadowSize(fbo: UInt32, texture: UInt32)
    ensures CreateDepthMapFBO(fbo, texture).width == 4096 && CreateDepthMapFBO(fbo, texture).height == 4096
  {
  }
}
