/** The See3CAM_CU40 camera's pixel pipeline (common/see3cam_cu40.h): the
    resolution encoding, the 10-bit to 8-bit channel converters, the
    super-pixel demosaic loops and the clamped control setters.

    The V4L2 device is not modelled: the captured frame is a given array of
    16-bit Bayer samples together with a flag saying whether the capture
    succeeded, and a control setter returns the request it would send. */
module See3CamCu40 {
  import opened IntTypes
  import opened NatArith

  // ---------------------------------------------------------------------
  // Resolution: width in the low 32 bits, height in the high 32 bits
  // ---------------------------------------------------------------------

  /** `w | (h << 32)` on 64 bits. */
  function Pack(w: bv64, h: bv64): bv64
  {
    w | (h << 32)
  }

  /** The low 32 bits, as `getWidth` reads them. */
  function Low32(v: bv64): nat
  {
    (v & 0xFFFF_FFFF) as int
  }

  /** The high 32 bits, as `getHeight` reads them. */
  function High32(v: bv64): nat
  {
    ((v >> 32) & 0xFFFF_FFFF) as int
  }

  /** Unpacking a packed pair gives the pair back, for any two 32-bit values. */
  lemma UnpackPack(w: bv64, h: bv64)
    requires w < 0x1_0000_0000 && h < 0x1_0000_0000
    ensures Pack(w, h) & 0xFFFF_FFFF == w
    ensures (Pack(w, h) >> 32) & 0xFFFF_FFFF == h
  {
  }

  /** `See3CAM_CU40::Resolution`, whose enumerator names give width x height. */
  datatype Resolution = R672x380 | R1280x720 | R1920x1080 | R2688x1520 {
    /** The underlying `uint64_t` value of the enumerator. */
    function Value(): bv64
    {
      match this
      case R672x380 => Pack(672, 380)
      case R1280x720 => Pack(1280, 720)
      case R1920x1080 => Pack(1920, 1080)
      case R2688x1520 => Pack(2688, 1520)
    }

    /** The width and height the enumerator's name announces. */
    function NamedWidth(): nat
    {
      match this
      case R672x380 => 672
      case R1280x720 => 1280
      case R1920x1080 => 1920
      case R2688x1520 => 2688
    }

    function NamedHeight(): nat
    {
      match this
      case R672x380 => 380
      case R1280x720 => 720
      case R1920x1080 => 1080
      case R2688x1520 => 1520
    }
  }

  /** `getWidth`/`getHeight` of a camera opened at `res`: the decoded
      value is the one in the enumerator's name, and it is even. */
  function Width(res: Resolution): (w: nat)
    ensures w == res.NamedWidth() && w % 2 == 0 && w > 0
  {
    Low32(res.Value())
  }

  function Height(res: Resolution): (h: nat)
    ensures h == res.NamedHeight() && h % 2 == 0 && h > 0
  {
    High32(res.Value())
  }

  // ---------------------------------------------------------------------
  // 10-bit to 8-bit channel converters
  // ---------------------------------------------------------------------

  /** A sample with at most 10 significant bits, as the sensor delivers. */
  predicate Is10Bit(v: u16)
  {
    v < 1024
  }

  /** `PixelScale::getScaled`: `(uint8_t)(v >> 2)`. For a 10-bit sample it
      is the sample divided by 4, rounded down, with no truncation. */
  function Scaled(v: u16): (r: u8)
    ensures Is10Bit(v) ==> 4 * r <= v < 4 * r + 4
  {
    ToU8(v / 4)
  }

  /** Above 10 bits the `uint8_t` cast of `Scaled` keeps the low 8 bits of
      v >> 2. */
  lemma ScaledTruncates(v: u16)
    ensures Scaled(v) == (v / 4) % TwoTo8
  {
  }

  /** `PixelClamp::getClamped`: `min(255, v)`. */
  function Clamped(v: u16): (r: u8)
    ensures r <= v
    ensures v <= 255 ==> r == v
    ensures v >= 255 ==> r == 255
  {
    if v < 255 then v else 255
  }

  /** `(uint8_t)(((uint32_t)v * k) >> 16)`: v times the fixed-point
      factor k / 65536. The product fits in 32 bits for every 16-bit sample
      and every k below 65536, so only the final cast can truncate. */
  function FixedPointScaled(v: u16, k: nat): (r: u8)
    requires k < TwoTo16
    ensures v * k < TwoTo32
    ensures (v * k) / TwoTo16 < TwoTo8 ==> r * TwoTo16 <= v * k < (r + 1) * TwoTo16
  {
    ProductFits(v, k);
    ToU8((v * k) / TwoTo16)
  }

  /** Above a byte's range the `uint8_t` cast of `FixedPointScaled` keeps
      the low 8 bits of the quotient. */
  lemma FixedPointScaledTruncates(v: u16, k: nat)
    requires k < TwoTo16
    ensures FixedPointScaled(v, k) == ((v * k) / TwoTo16) % TwoTo8
  {
  }

  /** `(uint8_t)std::min<uint32_t>(((uint32_t)v * k) >> 16, 255)`. */
  function FixedPointClamped(v: u16, k: nat): (r: u8)
    requires k < TwoTo16
    ensures r <= 255
    ensures r < 255 ==> r * TwoTo16 <= v * k < (r + 1) * TwoTo16
    ensures (v * k) / TwoTo16 >= 255 ==> r == 255
    ensures (v * k) / TwoTo16 < 255 ==> r == (v * k) / TwoTo16
  {
    ProductFits(v, k);
    var q := (v * k) / TwoTo16;
    if q < 255 then q else 255
  }

  lemma ProductFits(v: u16, k: nat)
    requires k < TwoTo16
    ensures 0 <= v * k < TwoTo32
  {
    assert v * k <= v * TwoTo16 by { MulMonotone(v, k, TwoTo16); }
    assert v * TwoTo16 < TwoTo16 * TwoTo16;
  }

  /** The white-balance gains, as 16-bit fixed-point factors. */
  const CoolWhiteRed: nat := 15729   // 0.96 of the plain 1/4 scale
  const CoolWhiteBlue: nat := 28508  // 1.74 of the plain 1/4 scale
  const U30Red: nat := 15073         // 0.92 of the plain 1/4 scale
  const U30Blue: nat := 25068        // 1.53 of the plain 1/4 scale

  /** The four template arguments of `captureSuperPixel<T>`. */
  datatype PixelConverter = PixelScale | PixelClamp | WhiteBalanceCoolWhite | WhiteBalanceU30 {
    function GetR(r: u16, g: u16, b: u16): (o: u8)
      ensures this == PixelScale ==> o == Scaled(r)
      ensures this == PixelClamp ==> o == Clamped(r)
      ensures this == WhiteBalanceCoolWhite ==> o == FixedPointScaled(r, CoolWhiteRed)
      ensures this == WhiteBalanceU30 ==> o == FixedPointScaled(r, U30Red)
    {
      match this
      case PixelScale => Scaled(r)
      case PixelClamp => Clamped(r)
      case WhiteBalanceCoolWhite => FixedPointScaled(r, CoolWhiteRed)
      case WhiteBalanceU30 => FixedPointScaled(r, U30Red)
    }

    function GetG(r: u16, g: u16, b: u16): (o: u8)
      ensures this == PixelScale ==> o == Scaled(g)
      ensures this == PixelClamp ==> o == Clamped(g)
      ensures this == WhiteBalanceCoolWhite ==> o == Scaled(g)
      ensures this == WhiteBalanceU30 ==> o == Scaled(g)
    {
      match this
      case PixelScale => Scaled(g)
      case PixelClamp => Clamped(g)
      case WhiteBalanceCoolWhite => Scaled(g)
      case WhiteBalanceU30 => Scaled(g)
    }

    function GetB(r: u16, g: u16, b: u16): (o: u8)
      ensures this == PixelScale ==> o == Scaled(b)
      ensures this == PixelClamp ==> o == Clamped(b)
      ensures this == WhiteBalanceCoolWhite ==> o == FixedPointClamped(b, CoolWhiteBlue)
      ensures this == WhiteBalanceU30 ==> o == FixedPointClamped(b, U30Blue)
    {
      match this
      case PixelScale => Scaled(b)
      case PixelClamp => Clamped(b)
      case WhiteBalanceCoolWhite => FixedPointClamped(b, CoolWhiteBlue)
      case WhiteBalanceU30 => FixedPointClamped(b, U30Blue)
    }

    /** Output byte c of a BGR super-pixel: 0 is blue, 1 green, 2 red. */
    function Channel(c: nat, r: u16, g: u16, b: u16): (o: u8)
      ensures c == 0 ==> o == GetB(r, g, b)
      ensures c == 1 ==> o == GetG(r, g, b)
      ensures c >= 2 ==> o == GetR(r, g, b)
    {
      if c == 0 then GetB(r, g, b) else if c == 1 then GetG(r, g, b) else GetR(r, g, b)
    }
  }

  /** Each converter reads only its own channel's sample. */
  lemma ConverterChannelsIndependent(t: PixelConverter, r: u16, g: u16, b: u16, r': u16, g': u16, b': u16)
    ensures t.GetR(r, g, b) == t.GetR(r, g', b')
    ensures t.GetG(r, g, b) == t.GetG(r', g, b')
    ensures t.GetB(r, g, b) == t.GetB(r', g', b)
  {
  }

  /** For 10-bit samples both white balances damp red and boost blue
      relative to the plain `PixelScale`, and leave green as it is. */
  lemma WhiteBalanceAgainstScale(t: PixelConverter, r: u16, g: u16, b: u16)
    requires t == WhiteBalanceCoolWhite || t == WhiteBalanceU30
    requires Is10Bit(r) && Is10Bit(g) && Is10Bit(b)
    ensures t.GetR(r, g, b) <= Scaled(r)
    ensures t.GetG(r, g, b) == Scaled(g)
    ensures t.GetB(r, g, b) >= Scaled(b)
  {
    var kr := if t == WhiteBalanceCoolWhite then CoolWhiteRed else U30Red;
    var kb := if t == WhiteBalanceCoolWhite then CoolWhiteBlue else U30Blue;
    MulMonotone(r, kr, 16384);
    assert r * 16384 == (r / 4) * TwoTo16 + (r % 4) * 16384;
    DivMonotone(r * kr, r * 16384, TwoTo16);
    assert (r * 16384) / TwoTo16 == r / 4;
    MulMonotone(b, 16384, kb);
    assert b * 16384 == (b / 4) * TwoTo16 + (b % 4) * 16384;
    DivMonotone(b * 16384, b * kb, TwoTo16);
    assert (b * 16384) / TwoTo16 == b / 4;
    ProductFits(r, kr);
    MulMonotone(r, kr, 16384);
  }

  /** `(b + g + r) / (3 * 4)` cast to `uint8_t`: the mean of the three
      samples rescaled by 1/4. For 10-bit samples the quotient is at most
      255, so the cast loses nothing. */
  function Grey(r: u16, g: u16, b: u16): (v: u8)
    ensures Is10Bit(r) && Is10Bit(g) && Is10Bit(b) ==> 12 * v <= b + g + r < 12 * v + 12
  {
    ToU8((b + g + r) / 12)
  }

  /** Above 10 bits the `uint8_t` cast of `Grey` keeps the low 8 bits of
      the quotient. */
  lemma GreyTruncates(r: u16, g: u16, b: u16)
    ensures Grey(r, g, b) == ((b + g + r) / 12) % TwoTo8
  {
  }

  // ---------------------------------------------------------------------
  // Super-pixel layout
  // ---------------------------------------------------------------------

  /** Sample `i` of a frame, or 0 outside it. The capture methods only read
      inside the frame; the default keeps the specification total. */
  function Sample(bayer: seq<u16>, i: int): u16
  {
    if 0 <= i < |bayer| then bayer[i] else 0
  }

  /** Index, in a continuous 3-channel image `sw` pixels wide, of byte c of
      pixel (sy, sx). */
  function BgrOffset(sw: nat, sy: nat, sx: nat, c: nat): nat
  {
    (sy * sw + sx) * 3 + c
  }

  /** Index, in a continuous single-channel image `sw` pixels wide, of pixel
      (sy, sx). */
  function GreyOffset(sw: nat, sy: nat, sx: nat): nat
  {
    sy * sw + sx
  }

  /** Byte k of the super-pixel image of a frame `w` samples wide: super-pixel
      (sy, sx) is the 2x2 Bayer block at (2 sy, 2 sx), whose blue, green and
      red samples are at (y, x), (y, x + 1) and (y + 1, x + 1). */
  function SuperPixelByte(t: PixelConverter, bayer: seq<u16>, w: nat, k: nat): u8
  {
    var sw := w / 2;
    if sw == 0 then 0 else
    var p, c := k / 3, k % 3;
    var y, x := 2 * (p / sw), 2 * (p % sw);
    t.Channel(c, Sample(bayer, (y + 1) * w + x + 1), Sample(bayer, y * w + x + 1), Sample(bayer, y * w + x))
  }

  /** Pixel k of the greyscale super-pixel image of a frame `w` samples wide. */
  function GreyPixel(bayer: seq<u16>, w: nat, k: nat): u8
  {
    var sw := w / 2;
    if sw == 0 then 0 else
    var y, x := 2 * (k / sw), 2 * (k % sw);
    Grey(Sample(bayer, (y + 1) * w + x + 1), Sample(bayer, y * w + x + 1), Sample(bayer, y * w + x))
  }

  /** The whole BGR super-pixel image of a `w` x `h` frame. */
  function SuperPixelImage(t: PixelConverter, bayer: seq<u16>, w: nat, h: nat): (img: seq<u8>)
    ensures |img| == (w / 2) * (h / 2) * 3
  {
    seq((w / 2) * (h / 2) * 3, k requires 0 <= k => SuperPixelByte(t, bayer, w, k))
  }

  /** The whole greyscale super-pixel image of a `w` x `h` frame. */
  function GreyImage(bayer: seq<u16>, w: nat, h: nat): (img: seq<u8>)
    ensures |img| == (w / 2) * (h / 2)
  {
    seq((w / 2) * (h / 2), k requires 0 <= k => GreyPixel(bayer, w, k))
  }

  /** Byte c of super-pixel (sy, sx) is converted from the samples of the
      2x2 Bayer block at (2 sy, 2 sx). */
  lemma SuperPixelByteAt(t: PixelConverter, bayer: seq<u16>, w: nat, sy: nat, sx: nat, c: nat)
    requires w % 2 == 0 && sx < w / 2 && c < 3
    ensures SuperPixelByte(t, bayer, w, BgrOffset(w / 2, sy, sx, c))
            == t.Channel(c, Sample(bayer, (2 * sy + 1) * w + 2 * sx + 1),
                            Sample(bayer, 2 * sy * w + 2 * sx + 1), Sample(bayer, 2 * sy * w + 2 * sx))
  {
    DecodeBgrOffset(w / 2, sy, sx, c);
  }

  /** Pixel (sy, sx) of the greyscale image is the grey of the samples of the
      2x2 Bayer block at (2 sy, 2 sx). */
  lemma GreyPixelAt(bayer: seq<u16>, w: nat, sy: nat, sx: nat)
    requires w % 2 == 0 && sx < w / 2
    ensures GreyPixel(bayer, w, GreyOffset(w / 2, sy, sx))
            == Grey(Sample(bayer, (2 * sy + 1) * w + 2 * sx + 1),
                    Sample(bayer, 2 * sy * w + 2 * sx + 1), Sample(bayer, 2 * sy * w + 2 * sx))
  {
    DivModUnique(GreyOffset(w / 2, sy, sx), w / 2, sy, sx);
  }

  /** The samples of super-pixel (sy, sx) lie inside a `w` x `h` frame, and
      its bytes inside the `w / 2` x `h / 2` image. */
  lemma SuperPixelInside(w: nat, h: nat, sy: nat, sx: nat)
    requires w % 2 == 0 && h % 2 == 0
    requires sy < h / 2 && sx < w / 2
    ensures (2 * sy + 1) * w + 2 * sx + 1 < w * h
    ensures 2 * sy * w + 2 * sx + 1 < w * h
    ensures GreyOffset(w / 2, sy, sx) < (w / 2) * (h / 2)
    ensures BgrOffset(w / 2, sy, sx, 2) < (w / 2) * (h / 2) * 3
  {
    GridIndex(2 * sy + 1, 2 * sx + 1, w, h);
    GridIndex(sy, sx, w / 2, h / 2);
  }

  /** In the super-pixel image, super-pixel (sy, sx) holds, in that order,
      `T::getB`, `T::getG` and `T::getR` of the blue sample at (2 sy, 2 sx),
      the green one at (2 sy, 2 sx + 1) and the red one at (2 sy + 1, 2 sx + 1),
      all of which lie inside the frame. */
  lemma SuperPixelImageAt(t: PixelConverter, bayer: seq<u16>, w: nat, h: nat, sy: nat, sx: nat)
    requires w % 2 == 0 && h % 2 == 0 && |bayer| == w * h
    requires sy < h / 2 && sx < w / 2
    ensures (2 * sy + 1) * w + 2 * sx + 1 < |bayer| && 2 * sy * w + 2 * sx + 1 < |bayer|
    ensures BgrOffset(w / 2, sy, sx, 2) < |SuperPixelImage(t, bayer, w, h)|
    ensures var b, g, r := bayer[2 * sy * w + 2 * sx], bayer[2 * sy * w + 2 * sx + 1], bayer[(2 * sy + 1) * w + 2 * sx + 1];
            var img := SuperPixelImage(t, bayer, w, h);
            img[BgrOffset(w / 2, sy, sx, 0)] == t.GetB(r, g, b) &&
            img[BgrOffset(w / 2, sy, sx, 1)] == t.GetG(r, g, b) &&
            img[BgrOffset(w / 2, sy, sx, 2)] == t.GetR(r, g, b)
  {
    SuperPixelInside(w, h, sy, sx);
    var iB, iG, iR := 2 * sy * w + 2 * sx, 2 * sy * w + 2 * sx + 1, (2 * sy + 1) * w + 2 * sx + 1;
    assert Sample(bayer, iB) == bayer[iB] && Sample(bayer, iG) == bayer[iG] && Sample(bayer, iR) == bayer[iR];
    SuperPixelImageByte(t, bayer, w, h, sy, sx, 0);
    SuperPixelImageByte(t, bayer, w, h, sy, sx, 1);
    SuperPixelImageByte(t, bayer, w, h, sy, sx, 2);
  }

  /** Byte c of super-pixel (sy, sx) in the whole image. */
  lemma SuperPixelImageByte(t: PixelConverter, bayer: seq<u16>, w: nat, h: nat, sy: nat, sx: nat, c: nat)
    requires w % 2 == 0 && h % 2 == 0
    requires sy < h / 2 && sx < w / 2 && c < 3
    ensures BgrOffset(w / 2, sy, sx, c) < |SuperPixelImage(t, bayer, w, h)|
    ensures SuperPixelImage(t, bayer, w, h)[BgrOffset(w / 2, sy, sx, c)]
            == t.Channel(c, Sample(bayer, (2 * sy + 1) * w + 2 * sx + 1),
                            Sample(bayer, 2 * sy * w + 2 * sx + 1), Sample(bayer, 2 * sy * w + 2 * sx))
  {
    SuperPixelInside(w, h, sy, sx);
    SuperPixelByteAt(t, bayer, w, sy, sx, c);
  }

  lemma DecodeBgrOffset(sw: nat, sy: nat, sx: nat, c: nat)
    requires sx < sw && c < 3
    ensures BgrOffset(sw, sy, sx, c) / 3 == sy * sw + sx
    ensures BgrOffset(sw, sy, sx, c) % 3 == c
    ensures (sy * sw + sx) / sw == sy && (sy * sw + sx) % sw == sx
  {
    DivModUnique(BgrOffset(sw, sy, sx, c), 3, sy * sw + sx, c);
    DivModUnique(sy * sw + sx, sw, sy, sx);
  }

  /** V4L2 control range, as queried with `queryControl`. */
  datatype Control = Control(minimum: i32, maximum: i32)

  datatype ControlId = Brightness | ExposureAbsolute

  /** A `setControlValue(id, value)` request sent to the device. */
  datatype ControlRequest = ControlRequest(id: ControlId, value: i32)

  /** `std::max(minimum, std::min(maximum, v))`: v moved into the control's
      range; with an empty range (minimum above maximum) the minimum wins. */
  function ClampToControl(control: Control, v: i32): (r: i32)
    ensures control.minimum <= control.maximum ==> control.minimum <= r <= control.maximum
    ensures control.minimum <= v <= control.maximum ==> r == v
    ensures v < control.minimum ==> r == control.minimum
    ensures control.minimum <= control.maximum < v ==> r == control.maximum
    ensures control.maximum < control.minimum ==> r == control.minimum
  {
    var capped := if control.maximum < v then control.maximum else v;
    if control.minimum < capped then capped else control.minimum
  }

  /** The state `See3CAM_CU40::open` caches: the resolution and the queried
      brightness and exposure controls. */
  class See3CamCu40 {
    var resolution: Resolution
    var brightnessControl: Control
    var exposureControl: Control

    /** The camera after a successful `open(device, res)`. */
    constructor (res: Resolution, brightness: Control, exposure: Control)
      ensures resolution == res && brightnessControl == brightness && exposureControl == exposure
    {
      resolution := res;
      brightnessControl := brightness;
      exposureControl := exposure;
    }

    function GetWidth(): (w: nat)
      reads this
      ensures w == resolution.NamedWidth()
    {
      Width(resolution)
    }

    function GetHeight(): (h: nat)
      reads this
      ensures h == resolution.NamedHeight()
    {
      Height(resolution)
    }

    /** One super-pixel covers a 2x2 Bayer block, so the super-pixel image
        has exactly half the width and half the height. */
    function GetSuperPixelWidth(): (sw: nat)
      reads this
      ensures 2 * sw == GetWidth()
    {
      GetWidth() / 2
    }

    function GetSuperPixelHeight(): (sh: nat)
      reads this
      ensures 2 * sh == GetHeight()
    {
      GetHeight() / 2
    }

    /** `setBrightness`: request the brightness clamped into the control's range. */
    method SetBrightness(brightness: i32) returns (request: ControlRequest)
      ensures request.id == Brightness
      ensures request.value == ClampToControl(brightnessControl, brightness)
    {
      request := ControlRequest(Brightness, ClampToControl(brightnessControl, brightness));
    }

    /** `setExposure`: request the exposure clamped into the control's range. */
    method SetExposure(exposure: i32) returns (request: ControlRequest)
      ensures request.id == ExposureAbsolute
      ensures request.value == ClampToControl(exposureControl, exposure)
    {
      request := ControlRequest(ExposureAbsolute, ClampToControl(exposureControl, exposure));
    }

    /** `captureSuperPixel<T>`: demosaic one captured frame into a BGR image
        of half the width and half the height, writing the output bytes in
        order. `captured` says whether the V4L2 capture succeeded; if it did
        not, nothing is written. */
    method CaptureSuperPixel(t: PixelConverter, captured: bool, bayer: array<u16>, output: array<u8>)
      returns (ok: bool)
      requires captured ==> bayer.Length == GetWidth() * GetHeight()
      requires output.Length == GetSuperPixelWidth() * GetSuperPixelHeight() * 3
      modifies output
      ensures ok == captured
      ensures ok ==> output[..] == SuperPixelImage(t, bayer[..], GetWidth(), GetHeight())
      ensures !ok ==> output[..] == old(output[..])
    {
      if !captured {
        return false;
      }
      var w, h := GetWidth(), GetHeight();
      ghost var sw, sh := GetSuperPixelWidth(), GetSuperPixelHeight();
      assert sw == w / 2;
      ghost var sy, done := 0, 0;
      var y := 0;
      while y < h
        invariant y == 2 * sy && sy <= sh
        invariant done == sy * sw * 3
        invariant SuperPixelsDone(t, bayer[..], w, output[..], done)
      {
        assert y / 2 == sy;
        DemosaicRow(t, bayer, w, h, y, output);
        MulSucc(sy, sw, 3);
        y := y + 2;
        sy, done := sy + 1, done + sw * 3;
      }
      SuperPixelsDoneIsImage(t, bayer[..], w, h, output[..], sy);
      return true;
    }

    /** `captureSuperPixelGreyscale`: the same walk over the frame, writing
        one grey byte per super-pixel. */
    method CaptureSuperPixelGreyscale(captured: bool, bayer: array<u16>, output: array<u8>)
      returns (ok: bool)
      requires captured ==> bayer.Length == GetWidth() * GetHeight()
      requires output.Length == GetSuperPixelWidth() * GetSuperPixelHeight()
      modifies output
      ensures ok == captured
      ensures ok ==> output[..] == GreyImage(bayer[..], GetWidth(), GetHeight())
      ensures !ok ==> output[..] == old(output[..])
    {
      if !captured {
        return false;
      }
      var w, h := GetWidth(), GetHeight();
      ghost var sw, sh := GetSuperPixelWidth(), GetSuperPixelHeight();
      assert sw == w / 2;
      ghost var sy, done := 0, 0;
      var y := 0;
      while y < h
        invariant y == 2 * sy && sy <= sh
        invariant done == sy * sw
        invariant GreyPixelsDone(bayer[..], w, output[..], done)
      {
        assert y / 2 == sy;
        GreyRow(bayer, w, h, y, output);
        MulSucc(sy, sw, 1);
        y := y + 2;
        sy, done := sy + 1, done + sw;
      }
      GreyPixelsDoneIsImage(bayer[..], w, h, output[..], sy);
      return true;
    }
  }

  /** The first n bytes of `out` are those of the super-pixel image. */
  ghost predicate SuperPixelsDone(t: PixelConverter, bayer: seq<u16>, w: nat, out: seq<u8>, n: nat)
  {
    n <= |out| && forall k :: 0 <= k < n ==> out[k] == SuperPixelByte(t, bayer, w, k)
  }

  /** The first n bytes of `out` are those of the greyscale image. */
  ghost predicate GreyPixelsDone(bayer: seq<u16>, w: nat, out: seq<u8>, n: nat)
  {
    n <= |out| && forall k :: 0 <= k < n ==> out[k] == GreyPixel(bayer, w, k)
  }

  /** Once all h / 2 rows of super-pixels are written, the output is the image. */
  lemma SuperPixelsDoneIsImage(t: PixelConverter, bayer: seq<u16>, w: nat, h: nat, out: seq<u8>, sy: nat)
    requires 2 * sy == h && |out| == (w / 2) * (h / 2) * 3
    requires SuperPixelsDone(t, bayer, w, out, sy * (w / 2) * 3)
    ensures out == SuperPixelImage(t, bayer, w, h)
  {
    assert sy == h / 2;
  }

  /** Once all h / 2 rows of grey super-pixels are written, the output is the image. */
  lemma GreyPixelsDoneIsImage(bayer: seq<u16>, w: nat, h: nat, out: seq<u8>, sy: nat)
    requires 2 * sy == h && |out| == (w / 2) * (h / 2)
    requires GreyPixelsDone(bayer, w, out, sy * (w / 2))
    ensures out == GreyImage(bayer, w, h)
  {
    assert sy == h / 2;
  }

  /** The inner loop of `captureSuperPixel<T>` for the Bayer rows y and
      y + 1: read blue and green from row y and red from row y + 1, stepping
      two samples at a time, and write B, G, R to output row y / 2. */
  method DemosaicRow(t: PixelConverter, bayer: array<u16>, w: nat, h: nat, y: nat, output: array<u8>)
    requires w % 2 == 0 && h % 2 == 0 && y % 2 == 0 && y < h
    requires bayer.Length == w * h && output.Length == (w / 2) * (h / 2) * 3
    requires SuperPixelsDone(t, bayer[..], w, output[..], (y / 2) * (w / 2) * 3)
    modifies output
    ensures SuperPixelsDone(t, bayer[..], w, output[..], (y / 2) * (w / 2) * 3 + (w / 2) * 3)
  {
    ghost var sw, sy := w / 2, y / 2;
    assert w == 2 * sw && y == 2 * sy && sy < h / 2;
    assert y * w == 2 * sy * w && (y + 1) * w == (2 * sy + 1) * w;
    var inBG := y * w;
    var inR := (y + 1) * w + 1;
    var out := (y / 2) * (w / 2) * 3;
    ghost var sx := 0;
    var x := 0;
    while x < w
      invariant x == 2 * sx && sx <= sw
      invariant inBG == 2 * sy * w + 2 * sx && inR == (2 * sy + 1) * w + 2 * sx + 1
      invariant out == BgrOffset(sw, sy, sx, 0)
      invariant SuperPixelsDone(t, bayer[..], w, output[..], out)
      decreases w - x
    {
      SuperPixelInside(w, h, sy, sx);
      var b := bayer[inBG];
      inBG := inBG + 1;
      var g := bayer[inBG];
      inBG := inBG + 1;
      var r := bayer[inR];
      inR := inR + 2;
      WriteSuperPixel(t, bayer, w, sy, sx, r, g, b, output, out);
      out := out + 3;
      x := x + 2;
      sx := sx + 1;
    }
  }

  /** The three `*(outRGBStart++) = ...` writes of one super-pixel. */
  method WriteSuperPixel(t: PixelConverter, bayer: array<u16>, w: nat, ghost sy: nat, ghost sx: nat,
                         r: u16, g: u16, b: u16, output: array<u8>, out: nat)
    requires w % 2 == 0 && sx < w / 2
    requires b == Sample(bayer[..], 2 * sy * w + 2 * sx)
    requires g == Sample(bayer[..], 2 * sy * w + 2 * sx + 1)
    requires r == Sample(bayer[..], (2 * sy + 1) * w + 2 * sx + 1)
    requires out == BgrOffset(w / 2, sy, sx, 0) && out + 2 < output.Length
    requires SuperPixelsDone(t, bayer[..], w, output[..], out)
    modifies output
    ensures SuperPixelsDone(t, bayer[..], w, output[..], out + 3)
  {
    ghost var frame := bayer[..];
    assert BgrOffset(w / 2, sy, sx, 1) == out + 1 && BgrOffset(w / 2, sy, sx, 2) == out + 2;
    SuperPixelByteAt(t, frame, w, sy, sx, 0);
    SuperPixelByteAt(t, frame, w, sy, sx, 1);
    SuperPixelByteAt(t, frame, w, sy, sx, 2);
    WriteSuperPixelByte(t, frame, w, output, out, t.GetB(r, g, b));
    WriteSuperPixelByte(t, frame, w, output, out + 1, t.GetG(r, g, b));
    WriteSuperPixelByte(t, frame, w, output, out + 2, t.GetR(r, g, b));
  }

  /** One `*(outRGBStart++) = v`: writing the next byte of the image keeps
      the prefix done. */
  method WriteSuperPixelByte(t: PixelConverter, ghost bayer: seq<u16>, w: nat, output: array<u8>, n: nat, v: u8)
    requires SuperPixelsDone(t, bayer, w, output[..], n) && n < output.Length
    requires v == SuperPixelByte(t, bayer, w, n)
    modifies output
    ensures output[..] == old(output[..])[n := v]
    ensures SuperPixelsDone(t, bayer, w, output[..], n + 1)
  {
    output[n] := v;
  }

  /** The inner loop of `captureSuperPixelGreyscale` for the Bayer rows y
      and y + 1, writing one grey byte per super-pixel of output row y / 2. */
  method GreyRow(bayer: array<u16>, w: nat, h: nat, y: nat, output: array<u8>)
    requires w % 2 == 0 && h % 2 == 0 && y % 2 == 0 && y < h
    requires bayer.Length == w * h && output.Length == (w / 2) * (h / 2)
    requires GreyPixelsDone(bayer[..], w, output[..], (y / 2) * (w / 2))
    modifies output
    ensures GreyPixelsDone(bayer[..], w, output[..], (y / 2) * (w / 2) + w / 2)
  {
    ghost var sw, sy := w / 2, y / 2;
    assert y * w == 2 * sy * w && (y + 1) * w == (2 * sy + 1) * w;
    var inBG := y * w;
    var inR := (y + 1) * w + 1;
    var out := (y / 2) * (w / 2);
    ghost var sx := 0;
    var x := 0;
    while x < w
      invariant x == 2 * sx && sx <= sw
      invariant inBG == 2 * sy * w + 2 * sx && inR == (2 * sy + 1) * w + 2 * sx + 1
      invariant out == GreyOffset(sw, sy, sx)
      invariant GreyPixelsDone(bayer[..], w, output[..], out)
      decreases w - x
    {
      SuperPixelInside(w, h, sy, sx);
      var b := bayer[inBG];
      inBG := inBG + 1;
      var g := bayer[inBG];
      inBG := inBG + 1;
      var r := bayer[inR];
      inR := inR + 2;
      WriteGreyPixel(bayer, w, sy, sx, r, g, b, output, out);
      out := out + 1;
      x := x + 2;
      sx := sx + 1;
    }
  }

  /** The `*(outStart++) = ...` write of one greyscale super-pixel. */
  method WriteGreyPixel(bayer: array<u16>, w: nat, ghost sy: nat, ghost sx: nat,
                        r: u16, g: u16, b: u16, output: array<u8>, out: nat)
    requires w % 2 == 0 && sx < w / 2
    requires b == Sample(bayer[..], 2 * sy * w + 2 * sx)
    requires g == Sample(bayer[..], 2 * sy * w + 2 * sx + 1)
    requires r == Sample(bayer[..], (2 * sy + 1) * w + 2 * sx + 1)
    requires out == GreyOffset(w / 2, sy, sx) && out < output.Length
    requires GreyPixelsDone(bayer[..], w, output[..], out)
    modifies output
    ensures GreyPixelsDone(bayer[..], w, output[..], out + 1)
  {
    GreyPixelAt(bayer[..], w, sy, sx);
    output[out] := Grey(r, g, b);
  }

  /** Greyscale super-pixel (sy, sx) is the rescaled mean of the same three
      samples the colour capture reads; for a 10-bit frame it fits a byte
      without truncation. */
  lemma GreyImageAt(bayer: seq<u16>, w: nat, h: nat, sy: nat, sx: nat)
    requires w % 2 == 0 && h % 2 == 0 && |bayer| == w * h
    requires sy < h / 2 && sx < w / 2
    ensures (2 * sy + 1) * w + 2 * sx + 1 < |bayer| && 2 * sy * w + 2 * sx + 1 < |bayer|
    ensures GreyOffset(w / 2, sy, sx) < |GreyImage(bayer, w, h)|
    ensures var b, g, r := bayer[2 * sy * w + 2 * sx], bayer[2 * sy * w + 2 * sx + 1], bayer[(2 * sy + 1) * w + 2 * sx + 1];
            var v := GreyImage(bayer, w, h)[GreyOffset(w / 2, sy, sx)];
            v == Grey(r, g, b) && (Is10Bit(r) && Is10Bit(g) && Is10Bit(b) ==> v == (b + g + r) / 12)
  {
    SuperPixelInside(w, h, sy, sx);
    GreyPixelAt(bayer, w, sy, sx);
  }
}
