/** The Dazzler's video memory decoding, as pure functions: how a (video mode,
    address, byte) triple maps to a block of pixels in the fixed 128x128
    framebuffer, and the inverse map from a pixel to the address and bit that
    determine it. The framebuffer object that applies these lives in module
    Dazzler. */
module Vram {
  import opened Bytes

  const WIDTH := 128
  const HEIGHT := 128
  /** Bytes of raw video memory per buffer. */
  const VRAM_SIZE := 2048

  /** The four addressing schemes, in the order of the source's enum. */
  datatype VideoMode = Colour32x32 | Mono64x64 | Colour64x64 | Mono128x128

  /** Which of the two 16-entry colour tables `clr_table` points at. */
  datatype Palette = Colours | Greys

  /** A framebuffer cell holds the palette entry it was drawn from; the 16-bit
      RGB value behind the entry is not modelled. */
  datatype Pixel = Entry(palette: Palette, index: int)

  /** What a cleared framebuffer holds: black, entry 0 of the grey table. */
  const Blank := Entry(Greys, 0)

  predicate OnScreen(x: int, y: int)
  {
    0 <= x < WIDTH && 0 <= y < HEIGHT
  }

  predicate IsMono(m: VideoMode)
  {
    m == Mono64x64 || m == Mono128x128
  }

  // ---------------------------------------------------------------------
  // Picture-control register (bits 6 and 5 pick the mode, bit 4 the table,
  // bits 3..0 the monochrome foreground colour)
  // ---------------------------------------------------------------------

  function ModeOf(pic: byte): VideoMode
  {
    if Bit(pic, 6) then (if Bit(pic, 5) then Mono128x128 else Mono64x64)
    else (if Bit(pic, 5) then Colour64x64 else Colour32x32)
  }

  function PaletteOf(pic: byte): Palette
  {
    if Bit(pic, 4) then Colours else Greys
  }

  function Foreground(pic: byte): int
  {
    pic % 16
  }

  /** The picture-control byte a host sends to select a mode, a table and a
      foreground colour (bit 7 clear). */
  function PictureCtrlFor(m: VideoMode, pal: Palette, fg: int): (pic: byte)
    requires 0 <= fg < 16
  {
    (match m
     case Mono128x128 => 0x60
     case Mono64x64 => 0x40
     case Colour64x64 => 0x20
     case Colour32x32 => 0x00)
    + (if pal == Colours then 0x10 else 0) + fg
  }

  /** Decoding a picture-control byte recovers the mode, table and colour it
      was built from. */
  lemma PictureCtrlRoundTrip(m: VideoMode, pal: Palette, fg: int)
    requires 0 <= fg < 16
    ensures ModeOf(PictureCtrlFor(m, pal, fg)) == m
    ensures PaletteOf(PictureCtrlFor(m, pal, fg)) == pal
    ensures Foreground(PictureCtrlFor(m, pal, fg)) == fg
  {
    var pic := PictureCtrlFor(m, pal, fg);
    var hi := pic / 16;
    assert Pow2(4) == 16 && Pow2(5) == 32 && Pow2(6) == 64;
    assert pic / 16 == hi && pic / 32 == hi / 2 && pic / 64 == hi / 4;
  }

  // ---------------------------------------------------------------------
  // Forward map: the cell a byte is drawn into (the coordinates set_vram
  // computes before calling a pixel setter)
  // ---------------------------------------------------------------------

  /** Each logical pixel is drawn as a Scale x Scale block. */
  function Scale(m: VideoMode): int
  {
    match m
    case Mono128x128 => 1
    case Mono64x64 => 2
    case Colour64x64 => 2
    case Colour32x32 => 4
  }

  /** A byte covers 4x2 logical pixels in the monochrome modes (one per bit)
      and 2x1 in the colour modes (one per nibble). */
  function CellWidth(m: VideoMode): int
  {
    if IsMono(m) then 4 else 2
  }

  function CellHeight(m: VideoMode): int
  {
    if IsMono(m) then 2 else 1
  }

  /** Logical top-left corner of the cell of address addr. The 2048-byte modes
      split memory into four 512-byte quadrants; the 512-byte modes are flat. */
  function CellOrigin(m: VideoMode, addr: int): (xy: (int, int))
    requires 0 <= addr < VRAM_SIZE
  {
    match m
    case Mono128x128 =>
      if addr < 512 then ((addr * 4) % 64, addr / 16 * 2)
      else if addr < 1024 then ((((addr - 512) * 4) % 64) + 64, (addr - 512) / 16 * 2)
      else if addr < 1536 then (((addr - 1024) * 4) % 64, (addr - 1024) / 16 * 2 + 64)
      else ((((addr - 1536) * 4) % 64) + 64, (addr - 1536) / 16 * 2 + 64)
    case Mono64x64 =>
      ((addr * 4) % 64, addr / 16 * 2)
    case Colour64x64 =>
      if addr < 512 then (addr * 2 % 32, addr * 2 / 32)
      else if addr < 1024 then (((addr - 512) * 2 % 32) + 32, (addr - 512) * 2 / 32)
      else if addr < 1536 then ((addr - 1024) * 2 % 32, ((addr - 1024) * 2 / 32) + 32)
      else (((addr - 1536) * 2 % 32) + 32, ((addr - 1536) * 2 / 32) + 32)
    case Colour32x32 =>
      ((addr * 2) % 32, addr * 2 / 32)
  }

  /** The bit of the byte shown at offset (dx, dy) of a monochrome cell:
      D0 D1 D4 D5 on the first row, D2 D3 D6 D7 on the second. */
  function MonoBitAt(dx: int, dy: int): int
  {
    (dx / 2) * 4 + dy * 2 + dx % 2
  }

  /** Physical pixel (px, py) lies in the cell of addr. */
  predicate InCell(m: VideoMode, addr: int, px: int, py: int)
    requires 0 <= addr < VRAM_SIZE
  {
    var (ox, oy) := CellOrigin(m, addr);
    var s := Scale(m);
    s * ox <= px < s * (ox + CellWidth(m)) && s * oy <= py < s * (oy + CellHeight(m))
  }

  // ---------------------------------------------------------------------
  // Inverse map: the address and the bit (or nibble) behind a pixel
  // ---------------------------------------------------------------------

  /** Address of the byte at (row, col) of the 16-byte-wide grid of
      quadrant (qx, qy), each quadrant holding 512 bytes. */
  function QuadrantAddr(qx: int, qy: int, row: int, col: int): (a: int)
    requires 0 <= qx < 2 && 0 <= qy < 2 && 0 <= row < 32 && 0 <= col < 16
    ensures 0 <= a < VRAM_SIZE
  {
    (2 * qy + qx) * 512 + row * 16 + col
  }

  /** Address of the byte at (row, col) of a flat 16-byte-wide grid. */
  function RowAddr(row: int, col: int): (a: int)
    requires 0 <= row < 32 && 0 <= col < 16
    ensures 0 <= a < 512
  {
    row * 16 + col
  }

  /** The raw-memory address whose byte colours pixel (x, y). */
  function SourceAddr(m: VideoMode, x: int, y: int): (a: int)
    requires OnScreen(x, y)
    ensures 0 <= a < VRAM_SIZE
    ensures (m == Mono64x64 || m == Colour32x32) ==> a < 512
  {
    match m
    case Mono128x128 => QuadrantAddr(x / 64, y / 64, (y % 64) / 2, (x % 64) / 4)
    case Mono64x64 => RowAddr((y / 2) / 2, (x / 2) / 4)
    case Colour64x64 => QuadrantAddr(x / 64, y / 64, y / 2 % 32, (x / 2 % 32) / 2)
    case Colour32x32 => RowAddr(y / 4, (x / 4) / 2)
  }

  /** The bit (monochrome modes, 0..7) or nibble (colour modes, 0 = low,
      1 = high) of the source byte that colours pixel (x, y). */
  function SourceSlot(m: VideoMode, x: int, y: int): int
    requires OnScreen(x, y)
  {
    match m
    case Mono128x128 => MonoBitAt(x % 4, y % 2)
    case Mono64x64 => MonoBitAt((x / 2) % 4, (y / 2) % 2)
    case Colour64x64 => (x / 2) % 2
    case Colour32x32 => (x / 4) % 2
  }

  /** Palette index a byte gives to the pixel in the given slot: a set bit is
      the foreground colour and a clear bit colour 0; a nibble is the index. */
  function SlotColour(m: VideoMode, fg: int, v: byte, slot: int): int
    requires 0 <= slot
  {
    if IsMono(m) then (if Bit(v, slot) then fg else 0)
    else if slot == 0 then LowNibble(v) else HighNibble(v)
  }

  /** The entry pixel (x, y) gets when its source byte has value v. */
  function PixelFor(m: VideoMode, pal: Palette, fg: int, v: byte, x: int, y: int): Pixel
    requires OnScreen(x, y)
  {
    Entry(pal, SlotColour(m, fg, v, SourceSlot(m, x, y)) % 16)
  }

  /** The whole picture a raw memory image decodes to, pixel by pixel. */
  function RenderAt(m: VideoMode, pal: Palette, fg: int, raw: seq<byte>, x: int, y: int): Pixel
    requires |raw| == VRAM_SIZE && OnScreen(x, y)
  {
    PixelFor(m, pal, fg, raw[SourceAddr(m, x, y)], x, y)
  }

  // ---------------------------------------------------------------------
  // Arithmetic facts about division by a positive constant
  // ---------------------------------------------------------------------

  lemma MulMonotone(d: int, a: int, b: int)
    requires d > 0 && a <= b
    ensures d * a <= d * b
  {
    var k := b - a;
    assert d * b == d * a + d * k;
  }

  /** n / d == c exactly when n lies in the c-th run of d values. */
  lemma DivRange(n: int, d: int, c: int)
    requires d > 0
    ensures n / d == c <==> d * c <= n < d * c + d
  {
    var q, m := n / d, n % d;
    assert n == d * q + m && 0 <= m < d;
    if c < q {
      MulMonotone(d, c + 1, q);
    } else if q < c {
      MulMonotone(d, q + 1, c);
    }
  }

  /** a * k + b == r with b < k splits r uniquely into quotient and remainder. */
  lemma SplitUnique(a: int, b: int, k: int, r: int)
    requires k > 0 && 0 <= b < k && 0 <= a && 0 <= r
    ensures a * k + b == r <==> a == r / k && b == r % k
  {
    if a * k + b == r {
      DivRange(r, k, a);
      assert r / k == a;
    }
  }

  /** Offsets within a 512-byte block: 16 bytes per row. */
  lemma RowColumn(r: int)
    requires 0 <= r
    ensures (r * 4) % 64 == (r % 16) * 4 && (r * 2) % 32 == (r % 16) * 2
    ensures r / 16 * 2 == (r / 16) * 2 && r * 2 / 32 == r / 16
  {
    SplitUnique(r / 16, r % 16, 16, r);
    assert r * 4 == (r / 16) * 64 + (r % 16) * 4;
    assert r * 2 == (r / 16) * 32 + (r % 16) * 2;
  }

  // ---------------------------------------------------------------------
  // The cell origins in closed form
  // ---------------------------------------------------------------------

  lemma QuadrantOf(addr: int)
    requires 0 <= addr < VRAM_SIZE
    ensures var q, r := addr / 512, addr % 512;
            0 <= q < 4 && addr == 512 * q + r &&
            (addr < 512 ==> q == 0 && r == addr) &&
            (512 <= addr < 1024 ==> q == 1 && r == addr - 512) &&
            (1024 <= addr < 1536 ==> q == 2 && r == addr - 1024) &&
            (1536 <= addr ==> q == 3 && r == addr - 1536)
  {
  }

  lemma Mono128Origin(addr: int)
    requires 0 <= addr < VRAM_SIZE
    ensures var q, r := addr / 512, addr % 512;
            CellOrigin(Mono128x128, addr) == ((q % 2) * 64 + (r % 16) * 4, (q / 2) * 64 + (r / 16) * 2)
  {
    QuadrantOf(addr);
    RowColumn(addr % 512);
  }

  lemma Mono64Origin(addr: int)
    requires 0 <= addr < VRAM_SIZE
    ensures CellOrigin(Mono64x64, addr) == ((addr % 16) * 4, (addr / 16) * 2)
  {
    RowColumn(addr);
  }

  lemma Colour64Origin(addr: int)
    requires 0 <= addr < VRAM_SIZE
    ensures var q, r := addr / 512, addr % 512;
            CellOrigin(Colour64x64, addr) == ((q % 2) * 32 + (r % 16) * 2, (q / 2) * 32 + r / 16)
  {
    QuadrantOf(addr);
    RowColumn(addr % 512);
  }

  lemma Colour32Origin(addr: int)
    requires 0 <= addr < VRAM_SIZE
    ensures CellOrigin(Colour32x32, addr) == ((addr % 16) * 2, addr / 16)
  {
    RowColumn(addr);
  }

  // ---------------------------------------------------------------------
  // The forward and inverse maps agree
  // ---------------------------------------------------------------------

  /** A pixel lies in the cell of address addr exactly when addr is its
      source address. Together with SlotInCell this says that the cells of the
      2048 addresses tile the screen without overlap, except that in the two
      512-byte modes the addresses from 512 on have cells wholly off screen. */
  lemma {:induction false} CellIsSource(m: VideoMode, addr: int, px: int, py: int)
    requires 0 <= addr < VRAM_SIZE && OnScreen(px, py)
    ensures InCell(m, addr, px, py) <==> SourceAddr(m, px, py) == addr
  {
    match m
    case Mono128x128 => Mono128Cell(addr, px, py);
    case Mono64x64 => Mono64Cell(addr, px, py);
    case Colour64x64 => Colour64Cell(addr, px, py);
    case Colour32x32 => Colour32Cell(addr, px, py);
  }

  /** Within one 64x64 quadrant of the 128x128 monochrome mode. */
  lemma Mono128Local(r: int, lx: int, ly: int)
    requires 0 <= r < 512 && 0 <= lx < 64 && 0 <= ly < 64
    ensures (ly / 2) * 16 + lx / 4 == r <==>
            (r % 16) * 4 <= lx < (r % 16) * 4 + 4 && (r / 16) * 2 <= ly < (r / 16) * 2 + 2
  {
    SplitUnique(ly / 2, lx / 4, 16, r);
    DivRange(lx, 4, r % 16);
    DivRange(ly, 2, r / 16);
  }

  /** A screen coordinate splits into a quadrant and an offset within it. */
  lemma QuadrantSplit(p: int, qp: int, lo: int, hi: int)
    requires 0 <= p < 128 && 0 <= qp < 2 && 0 <= lo <= hi <= 64
    ensures 64 * qp + lo <= p < 64 * qp + hi <==> p / 64 == qp && lo <= p % 64 < hi
  {
  }

  /** Pixel (px, py) is in quadrant q, in the 4x2-pixel cell at column
      r % 16 and row r / 16 of that quadrant. In both 2048-byte modes a cell
      covers 4x2 physical pixels. */
  predicate AtQuadrantCell(q: int, r: int, px: int, py: int)
  {
    px / 64 == q % 2 && py / 64 == q / 2 &&
    (r % 16) * 4 <= px % 64 < (r % 16) * 4 + 4 &&
    (r / 16) * 2 <= py % 64 < (r / 16) * 2 + 2
  }

  lemma Mono128InCell(addr: int, px: int, py: int)
    requires 0 <= addr < VRAM_SIZE && OnScreen(px, py)
    ensures InCell(Mono128x128, addr, px, py) <==> AtQuadrantCell(addr / 512, addr % 512, px, py)
  {
    var q, r := addr / 512, addr % 512;
    Mono128Origin(addr);
    QuadrantSplit(px, q % 2, (r % 16) * 4, (r % 16) * 4 + 4);
    QuadrantSplit(py, q / 2, (r / 16) * 2, (r / 16) * 2 + 2);
  }

  lemma Mono128Source(addr: int, px: int, py: int)
    requires 0 <= addr < VRAM_SIZE && OnScreen(px, py)
    ensures SourceAddr(Mono128x128, px, py) == addr <==> AtQuadrantCell(addr / 512, addr % 512, px, py)
  {
    var q, r := addr / 512, addr % 512;
    var qx, qy := px / 64, py / 64;
    var lx, ly := px % 64, py % 64;
    var local := (ly / 2) * 16 + lx / 4;
    assert SourceAddr(Mono128x128, px, py) == addr <==> 2 * qy + qx == q && local == r by {
      assert 0 <= ly / 2 < 32 && 0 <= lx / 4 < 16;
      assert SourceAddr(Mono128x128, px, py) == (2 * qy + qx) * 512 + local;
      SplitUnique(2 * qy + qx, local, 512, addr);
    }
    assert 2 * qy + qx == q <==> qx == q % 2 && qy == q / 2 by {
      SplitUnique(qy, qx, 2, q);
    }
    assert local == r <==> (r % 16) * 4 <= lx < (r % 16) * 4 + 4 && (r / 16) * 2 <= ly < (r / 16) * 2 + 2 by {
      Mono128Local(r, lx, ly);
    }
  }

  lemma Mono128Cell(addr: int, px: int, py: int)
    requires 0 <= addr < VRAM_SIZE && OnScreen(px, py)
    ensures InCell(Mono128x128, addr, px, py) <==> SourceAddr(Mono128x128, px, py) == addr
  {
    Mono128InCell(addr, px, py);
    Mono128Source(addr, px, py);
  }

  lemma Mono64Cell(addr: int, px: int, py: int)
    requires 0 <= addr < VRAM_SIZE && OnScreen(px, py)
    ensures InCell(Mono64x64, addr, px, py) <==> SourceAddr(Mono64x64, px, py) == addr
  {
    var xl, yl := px / 2, py / 2;
    var (ox, oy) := CellOrigin(Mono64x64, addr);
    assert ox == (addr % 16) * 4 && oy == (addr / 16) * 2 by {
      Mono64Origin(addr);
    }
    assert InCell(Mono64x64, addr, px, py) <==> ox <= xl < ox + 4 && oy <= yl < oy + 2 by {
      DivRange(px, 2, xl);
      DivRange(py, 2, yl);
    }
    assert SourceAddr(Mono64x64, px, py) == addr <==> yl / 2 == addr / 16 && xl / 4 == addr % 16 by {
      SplitUnique(yl / 2, xl / 4, 16, addr);
    }
    DivRange(xl, 4, addr % 16);
    DivRange(yl, 2, addr / 16);
  }

  lemma Colour64InCell(addr: int, px: int, py: int)
    requires 0 <= addr < VRAM_SIZE && OnScreen(px, py)
    ensures InCell(Colour64x64, addr, px, py) <==> AtQuadrantCell(addr / 512, addr % 512, px, py)
  {
    var q, r := addr / 512, addr % 512;
    Colour64Origin(addr);
    QuadrantSplit(px, q % 2, (r % 16) * 4, (r % 16) * 4 + 4);
    QuadrantSplit(py, q / 2, (r / 16) * 2, (r / 16) * 2 + 2);
  }

  /** Both 2048-byte modes address the screen the same way. */
  lemma QuadrantModesShareAddress(px: int, py: int)
    requires OnScreen(px, py)
    ensures SourceAddr(Colour64x64, px, py) == SourceAddr(Mono128x128, px, py)
  {
    assert px / 2 % 32 == (px % 64) / 2 && py / 2 % 32 == (py % 64) / 2;
  }

  lemma Colour64Cell(addr: int, px: int, py: int)
    requires 0 <= addr < VRAM_SIZE && OnScreen(px, py)
    ensures InCell(Colour64x64, addr, px, py) <==> SourceAddr(Colour64x64, px, py) == addr
  {
    Colour64InCell(addr, px, py);
    QuadrantModesShareAddress(px, py);
    Mono128Source(addr, px, py);
  }

  lemma Colour32Cell(addr: int, px: int, py: int)
    requires 0 <= addr < VRAM_SIZE && OnScreen(px, py)
    ensures InCell(Colour32x32, addr, px, py) <==> SourceAddr(Colour32x32, px, py) == addr
  {
    var xl, yl := px / 4, py / 4;
    Colour32Origin(addr);
    var (ox, oy) := CellOrigin(Colour32x32, addr);
    assert InCell(Colour32x32, addr, px, py) <==> ox <= xl < ox + 2 && yl == oy;
  }

  /** The bit (monochrome) or nibble (colour) of a byte shown at logical
      offset (dx, dy) of its cell. */
  function CellSlot(m: VideoMode, dx: int, dy: int): int
  {
    if IsMono(m) then MonoBitAt(dx, dy) else dx
  }

  /** Logical pixel (lx, ly) is at offset (dx, dy) of the cell of addr, and
      physical pixel (px, py) belongs to it. */
  predicate AtCellOffset(m: VideoMode, addr: int, dx: int, dy: int, px: int, py: int)
    requires 0 <= addr < VRAM_SIZE
  {
    var (ox, oy) := CellOrigin(m, addr);
    var s := Scale(m);
    0 <= dx < CellWidth(m) && 0 <= dy < CellHeight(m) &&
    s * (ox + dx) <= px < s * (ox + dx) + s && s * (oy + dy) <= py < s * (oy + dy) + s
  }

  /** Inside the cell of addr, the pixel drawn at logical offset (dx, dy)
      from the cell origin shows slot CellSlot(m, dx, dy): the slot the
      forward map writes there is the slot the inverse map reads back. */
  lemma {:induction false} SlotInCell(m: VideoMode, addr: int, dx: int, dy: int, px: int, py: int)
    requires 0 <= addr < VRAM_SIZE && OnScreen(px, py)
    requires AtCellOffset(m, addr, dx, dy, px, py)
    ensures SourceSlot(m, px, py) == CellSlot(m, dx, dy)
  {
    match m
    case Mono128x128 => Mono128Slot(addr, dx, dy, px, py);
    case Mono64x64 => Mono64Slot(addr, dx, dy, px, py);
    case Colour64x64 => Colour64Slot(addr, dx, dy, px, py);
    case Colour32x32 => Colour32Slot(addr, dx, dy, px, py);
  }

  lemma Mono128Slot(addr: int, dx: int, dy: int, px: int, py: int)
    requires 0 <= addr < VRAM_SIZE && OnScreen(px, py)
    requires AtCellOffset(Mono128x128, addr, dx, dy, px, py)
    ensures px % 4 == dx && py % 2 == dy
  {
    var q, r := addr / 512, addr % 512;
    var kx, ky := (q % 2) * 16 + r % 16, (q / 2) * 32 + r / 16;
    assert px == kx * 4 + dx && py == ky * 2 + dy && 0 <= kx && 0 <= ky && 0 <= dx < 4 && 0 <= dy < 2 by {
      Mono128Origin(addr);
    }
    OffsetInGroup(kx, dx, 4, px);
    OffsetInGroup(ky, dy, 2, py);
  }

  /** The offset of p within its group of k. */
  lemma OffsetInGroup(g: int, d: int, k: int, p: int)
    requires k > 0 && 0 <= g && 0 <= d < k && p == g * k + d
    ensures p % k == d
  {
    SplitUnique(g, d, k, p);
  }

  lemma Mono64Slot(addr: int, dx: int, dy: int, px: int, py: int)
    requires 0 <= addr < VRAM_SIZE && OnScreen(px, py)
    requires AtCellOffset(Mono64x64, addr, dx, dy, px, py)
    ensures (px / 2) % 4 == dx && (py / 2) % 2 == dy
  {
    Mono64Origin(addr);
    var (ox, oy) := CellOrigin(Mono64x64, addr);
    DivRange(px, 2, ox + dx);
    DivRange(py, 2, oy + dy);
    assert px / 2 == 4 * (addr % 16) + dx;
    assert py / 2 == 2 * (addr / 16) + dy;
  }

  lemma Colour64Slot(addr: int, dx: int, dy: int, px: int, py: int)
    requires 0 <= addr < VRAM_SIZE && OnScreen(px, py)
    requires AtCellOffset(Colour64x64, addr, dx, dy, px, py)
    ensures (px / 2) % 2 == dx
  {
    var q, r := addr / 512, addr % 512;
    Colour64Origin(addr);
    var (ox, oy) := CellOrigin(Colour64x64, addr);
    DivRange(px, 2, ox + dx);
    assert px / 2 == 2 * ((q % 2) * 16 + r % 16) + dx;
  }

  lemma Colour32Slot(addr: int, dx: int, dy: int, px: int, py: int)
    requires 0 <= addr < VRAM_SIZE && OnScreen(px, py)
    requires AtCellOffset(Colour32x32, addr, dx, dy, px, py)
    ensures (px / 4) % 2 == dx
  {
    Colour32Origin(addr);
    var (ox, oy) := CellOrigin(Colour32x32, addr);
    DivRange(px, 4, ox + dx);
    assert px / 4 == 2 * (addr % 16) + dx;
  }

  // ---------------------------------------------------------------------
  // The pixel-setter calls of set_vram, block by block
  // ---------------------------------------------------------------------

  /** Physical pixel (px, py) lies in the s x s block a pixel setter draws
      for logical pixel (lx, ly), and that block is drawn: its top-left
      corner is on screen. */
  predicate Block(s: int, lx: int, ly: int, px: int, py: int)
  {
    OnScreen(s * lx, s * ly) && s * lx <= px < s * lx + s && s * ly <= py < s * ly + s
  }

  /** The eight setter calls of a monochrome cell with origin (x, y), in the
      source's order, cover exactly the pixels whose source address is addr,
      and each shows the bit the call passes: D0 D1 D2 D3 at (x, y),
      (x+1, y), (x, y+1), (x+1, y+1) and D4 D5 D6 D7 two columns right. */
  predicate MonoBlocks(m: VideoMode, addr: int, x: int, y: int, px: int, py: int)
    requires OnScreen(px, py)
  {
    var s := Scale(m);
    (SourceAddr(m, px, py) == addr <==>
      Block(s, x, y, px, py) || Block(s, x + 1, y, px, py) ||
      Block(s, x, y + 1, px, py) || Block(s, x + 1, y + 1, px, py) ||
      Block(s, x + 2, y, px, py) || Block(s, x + 3, y, px, py) ||
      Block(s, x + 2, y + 1, px, py) || Block(s, x + 3, y + 1, px, py)) &&
    (Block(s, x, y, px, py) ==> SourceSlot(m, px, py) == 0) &&
    (Block(s, x + 1, y, px, py) ==> SourceSlot(m, px, py) == 1) &&
    (Block(s, x, y + 1, px, py) ==> SourceSlot(m, px, py) == 2) &&
    (Block(s, x + 1, y + 1, px, py) ==> SourceSlot(m, px, py) == 3) &&
    (Block(s, x + 2, y, px, py) ==> SourceSlot(m, px, py) == 4) &&
    (Block(s, x + 3, y, px, py) ==> SourceSlot(m, px, py) == 5) &&
    (Block(s, x + 2, y + 1, px, py) ==> SourceSlot(m, px, py) == 6) &&
    (Block(s, x + 3, y + 1, px, py) ==> SourceSlot(m, px, py) == 7)
  }

  /** The two setter calls of a colour cell with origin (x, y) cover exactly
      the pixels whose source address is addr: the low nibble at (x, y), the
      high nibble at (x+1, y). */
  predicate ColourBlocks(m: VideoMode, addr: int, x: int, y: int, px: int, py: int)
    requires OnScreen(px, py)
  {
    var s := Scale(m);
    (SourceAddr(m, px, py) == addr <==> Block(s, x, y, px, py) || Block(s, x + 1, y, px, py)) &&
    (Block(s, x, y, px, py) ==> SourceSlot(m, px, py) == 0) &&
    (Block(s, x + 1, y, px, py) ==> SourceSlot(m, px, py) == 1)
  }

  /** Cell origins are never negative. */
  lemma OriginNonNegative(m: VideoMode, addr: int)
    requires 0 <= addr < VRAM_SIZE
    ensures CellOrigin(m, addr).0 >= 0 && CellOrigin(m, addr).1 >= 0
  {
  }

  /** A block drawn for logical offset (dx, dy) of the cell of addr lies in
      that cell and shows slot CellSlot(m, dx, dy). */
  lemma BlockInCell(m: VideoMode, addr: int, dx: int, dy: int, px: int, py: int)
    requires 0 <= addr < VRAM_SIZE && OnScreen(px, py)
    requires 0 <= dx < CellWidth(m) && 0 <= dy < CellHeight(m)
    requires Block(Scale(m), CellOrigin(m, addr).0 + dx, CellOrigin(m, addr).1 + dy, px, py)
    ensures SourceAddr(m, px, py) == addr && SourceSlot(m, px, py) == CellSlot(m, dx, dy)
  {
    var (x, y) := CellOrigin(m, addr);
    assert AtCellOffset(m, addr, dx, dy, px, py);
    SlotInCell(m, addr, dx, dy, px, py);
    assert InCell(m, addr, px, py) by {
      match m
      case Mono128x128 =>
      case Mono64x64 =>
      case Colour64x64 =>
      case Colour32x32 =>
    }
    CellIsSource(m, addr, px, py);
  }

  /** BlockInCell, as an implication. */
  lemma BlockSlot(m: VideoMode, addr: int, dx: int, dy: int, px: int, py: int)
    requires 0 <= addr < VRAM_SIZE && OnScreen(px, py)
    requires 0 <= dx < CellWidth(m) && 0 <= dy < CellHeight(m)
    ensures Block(Scale(m), CellOrigin(m, addr).0 + dx, CellOrigin(m, addr).1 + dy, px, py) ==>
            SourceAddr(m, px, py) == addr && SourceSlot(m, px, py) == CellSlot(m, dx, dy)
  {
    if Block(Scale(m), CellOrigin(m, addr).0 + dx, CellOrigin(m, addr).1 + dy, px, py) {
      BlockInCell(m, addr, dx, dy, px, py);
    }
  }

  /** A pixel of the cell of addr lies in the block drawn for logical
      offset (dx, dy) of that cell. */
  lemma CellOffsetOf(m: VideoMode, addr: int, px: int, py: int) returns (dx: int, dy: int)
    requires 0 <= addr < VRAM_SIZE && OnScreen(px, py) && InCell(m, addr, px, py)
    ensures 0 <= dx < CellWidth(m) && 0 <= dy < CellHeight(m)
    ensures Block(Scale(m), CellOrigin(m, addr).0 + dx, CellOrigin(m, addr).1 + dy, px, py)
  {
    var (x, y) := CellOrigin(m, addr);
    OriginNonNegative(m, addr);
    var s := Scale(m);
    match m
    case Mono128x128 =>
      dx, dy := px - x, py - y;
    case Mono64x64 =>
      dx, dy := px / 2 - x, py / 2 - y;
      DivRange(px, 2, px / 2);
      DivRange(py, 2, py / 2);
    case Colour64x64 =>
      dx, dy := px / 2 - x, py / 2 - y;
      DivRange(px, 2, px / 2);
      DivRange(py, 2, py / 2);
    case Colour32x32 =>
      dx, dy := px / 4 - x, py / 4 - y;
      DivRange(px, 4, px / 4);
      DivRange(py, 4, py / 4);
      assert 4 * y <= py < 4 * y + 4;
  }

  /** Every pixel whose source address is addr lies in one of the eight
      blocks of the cell. */
  lemma MonoBlocksCover(m: VideoMode, addr: int, px: int, py: int)
    requires IsMono(m) && 0 <= addr < VRAM_SIZE && OnScreen(px, py)
    requires SourceAddr(m, px, py) == addr
    ensures var (x, y) := CellOrigin(m, addr);
            var s := Scale(m);
            Block(s, x, y, px, py) || Block(s, x + 1, y, px, py) ||
            Block(s, x, y + 1, px, py) || Block(s, x + 1, y + 1, px, py) ||
            Block(s, x + 2, y, px, py) || Block(s, x + 3, y, px, py) ||
            Block(s, x + 2, y + 1, px, py) || Block(s, x + 3, y + 1, px, py)
  {
    CellIsSource(m, addr, px, py);
    var dx, dy := CellOffsetOf(m, addr, px, py);
  }

  lemma ColourBlocksCover(m: VideoMode, addr: int, px: int, py: int)
    requires !IsMono(m) && 0 <= addr < VRAM_SIZE && OnScreen(px, py)
    requires SourceAddr(m, px, py) == addr
    ensures var (x, y) := CellOrigin(m, addr);
            var s := Scale(m);
            Block(s, x, y, px, py) || Block(s, x + 1, y, px, py)
  {
    CellIsSource(m, addr, px, py);
    var dx, dy := CellOffsetOf(m, addr, px, py);
  }

  /** Bits D0..D3, the left two columns of a cell in Mono128x128. */
  lemma Mono128LeftSlots(addr: int, px: int, py: int)
    requires 0 <= addr < VRAM_SIZE && OnScreen(px, py)
    ensures var (x, y) := CellOrigin(Mono128x128, addr);
            var s := Scale(Mono128x128);
            (Block(s, x, y, px, py) ==> SourceAddr(Mono128x128, px, py) == addr && SourceSlot(Mono128x128, px, py) == 0) &&
            (Block(s, x + 1, y, px, py) ==> SourceAddr(Mono128x128, px, py) == addr && SourceSlot(Mono128x128, px, py) == 1) &&
            (Block(s, x, y + 1, px, py) ==> SourceAddr(Mono128x128, px, py) == addr && SourceSlot(Mono128x128, px, py) == 2) &&
            (Block(s, x + 1, y + 1, px, py) ==> SourceAddr(Mono128x128, px, py) == addr && SourceSlot(Mono128x128, px, py) == 3)
  {
    BlockSlot(Mono128x128, addr, 0, 0, px, py);
    BlockSlot(Mono128x128, addr, 1, 0, px, py);
    BlockSlot(Mono128x128, addr, 0, 1, px, py);
    BlockSlot(Mono128x128, addr, 1, 1, px, py);
  }

  /** Bits D4..D7, the right two columns of a cell in Mono128x128. */
  lemma Mono128RightSlots(addr: int, px: int, py: int)
    requires 0 <= addr < VRAM_SIZE && OnScreen(px, py)
    ensures var (x, y) := CellOrigin(Mono128x128, addr);
            var s := Scale(Mono128x128);
            (Block(s, x + 2, y, px, py) ==> SourceAddr(Mono128x128, px, py) == addr && SourceSlot(Mono128x128, px, py) == 4) &&
            (Block(s, x + 3, y, px, py) ==> SourceAddr(Mono128x128, px, py) == addr && SourceSlot(Mono128x128, px, py) == 5) &&
            (Block(s, x + 2, y + 1, px, py) ==> SourceAddr(Mono128x128, px, py) == addr && SourceSlot(Mono128x128, px, py) == 6) &&
            (Block(s, x + 3, y + 1, px, py) ==> SourceAddr(Mono128x128, px, py) == addr && SourceSlot(Mono128x128, px, py) == 7)
  {
    BlockSlot(Mono128x128, addr, 2, 0, px, py);
    BlockSlot(Mono128x128, addr, 3, 0, px, py);
    BlockSlot(Mono128x128, addr, 2, 1, px, py);
    BlockSlot(Mono128x128, addr, 3, 1, px, py);
  }

  /** The eight setter calls of a Mono128x128 cell draw exactly its pixels,
      each with its bit. */
  lemma {:induction false} Mono128Blocks(addr: int, px: int, py: int)
    requires 0 <= addr < VRAM_SIZE && OnScreen(px, py)
    ensures MonoBlocks(Mono128x128, addr, CellOrigin(Mono128x128, addr).0, CellOrigin(Mono128x128, addr).1, px, py)
  {
    if SourceAddr(Mono128x128, px, py) == addr {
      MonoBlocksCover(Mono128x128, addr, px, py);
    }
    Mono128LeftSlots(addr, px, py);
    Mono128RightSlots(addr, px, py);
  }

  /** Bits D0..D3, the left two columns of a cell in Mono64x64. */
  lemma Mono64LeftSlots(addr: int, px: int, py: int)
    requires 0 <= addr < VRAM_SIZE && OnScreen(px, py)
    ensures var (x, y) := CellOrigin(Mono64x64, addr);
            var s := Scale(Mono64x64);
            (Block(s, x, y, px, py) ==> SourceAddr(Mono64x64, px, py) == addr && SourceSlot(Mono64x64, px, py) == 0) &&
            (Block(s, x + 1, y, px, py) ==> SourceAddr(Mono64x64, px, py) == addr && SourceSlot(Mono64x64, px, py) == 1) &&
            (Block(s, x, y + 1, px, py) ==> SourceAddr(Mono64x64, px, py) == addr && SourceSlot(Mono64x64, px, py) == 2) &&
            (Block(s, x + 1, y + 1, px, py) ==> SourceAddr(Mono64x64, px, py) == addr && SourceSlot(Mono64x64, px, py) == 3)
  {
    BlockSlot(Mono64x64, addr, 0, 0, px, py);
    BlockSlot(Mono64x64, addr, 1, 0, px, py);
    BlockSlot(Mono64x64, addr, 0, 1, px, py);
    BlockSlot(Mono64x64, addr, 1, 1, px, py);
  }

  /** Bits D4..D7, the right two columns of a cell in Mono64x64. */
  lemma Mono64RightSlots(addr: int, px: int, py: int)
    requires 0 <= addr < VRAM_SIZE && OnScreen(px, py)
    ensures var (x, y) := CellOrigin(Mono64x64, addr);
            var s := Scale(Mono64x64);
            (Block(s, x + 2, y, px, py) ==> SourceAddr(Mono64x64, px, py) == addr && SourceSlot(Mono64x64, px, py) == 4) &&
            (Block(s, x + 3, y, px, py) ==> SourceAddr(Mono64x64, px, py) == addr && SourceSlot(Mono64x64, px, py) == 5) &&
            (Block(s, x + 2, y + 1, px, py) ==> SourceAddr(Mono64x64, px, py) == addr && SourceSlot(Mono64x64, px, py) == 6) &&
            (Block(s, x + 3, y + 1, px, py) ==> SourceAddr(Mono64x64, px, py) == addr && SourceSlot(Mono64x64, px, py) == 7)
  {
    BlockSlot(Mono64x64, addr, 2, 0, px, py);
    BlockSlot(Mono64x64, addr, 3, 0, px, py);
    BlockSlot(Mono64x64, addr, 2, 1, px, py);
    BlockSlot(Mono64x64, addr, 3, 1, px, py);
  }

  /** The eight setter calls of a Mono64x64 cell draw exactly its pixels,
      each with its bit. */
  lemma {:induction false} Mono64Blocks(addr: int, px: int, py: int)
    requires 0 <= addr < VRAM_SIZE && OnScreen(px, py)
    ensures MonoBlocks(Mono64x64, addr, CellOrigin(Mono64x64, addr).0, CellOrigin(Mono64x64, addr).1, px, py)
  {
    if SourceAddr(Mono64x64, px, py) == addr {
      MonoBlocksCover(Mono64x64, addr, px, py);
    }
    Mono64LeftSlots(addr, px, py);
    Mono64RightSlots(addr, px, py);
  }

  /** The two setter calls of a Colour64x64 cell draw exactly its pixels, the
      low nibble on the left. */
  lemma {:induction false} Colour64Blocks(addr: int, px: int, py: int)
    requires 0 <= addr < VRAM_SIZE && OnScreen(px, py)
    ensures ColourBlocks(Colour64x64, addr, CellOrigin(Colour64x64, addr).0, CellOrigin(Colour64x64, addr).1, px, py)
  {
    if SourceAddr(Colour64x64, px, py) == addr {
      ColourBlocksCover(Colour64x64, addr, px, py);
    }
    BlockSlot(Colour64x64, addr, 0, 0, px, py);
    BlockSlot(Colour64x64, addr, 1, 0, px, py);
  }

  /** The two setter calls of a Colour32x32 cell draw exactly its pixels, the
      low nibble on the left. */
  lemma {:induction false} Colour32Blocks(addr: int, px: int, py: int)
    requires 0 <= addr < VRAM_SIZE && OnScreen(px, py)
    ensures ColourBlocks(Colour32x32, addr, CellOrigin(Colour32x32, addr).0, CellOrigin(Colour32x32, addr).1, px, py)
  {
    if SourceAddr(Colour32x32, px, py) == addr {
      ColourBlocksCover(Colour32x32, addr, px, py);
    }
    BlockSlot(Colour32x32, addr, 0, 0, px, py);
    BlockSlot(Colour32x32, addr, 1, 0, px, py);
  }
}
