/** Colours of the NeoPixel strip: an (R, G, B) triple of 8-bit intensities and
    the named presets the controller uses. */
module Colors {

  /** One 8-bit colour channel. */
  type Channel = x: int | 0 <= x <= 255

  datatype Color = Rgb(r: Channel, g: Channel, b: Channel)

  const RED: Color := Rgb(200, 0, 0)
  const GREEN: Color := Rgb(0, 200, 0)
  const BLUE: Color := Rgb(0, 0, 200)
  const PURPLE: Color := Rgb(120, 0, 160)
  const YELLOW: Color := Rgb(100, 100, 0)
  const AQUA: Color := Rgb(0, 100, 100)
  const BLACK: Color := Rgb(0, 0, 0)

  /** The strip has ten cells. */
  const NumPixels := 10

  /** The contents of the strip: exactly one colour per cell. */
  type Strip = s: seq<Color> | |s| == NumPixels witness seq(10, k => Rgb(0, 0, 0))

  /** The strip after `fill(c)`: every cell holds `c`. */
  function Filled(c: Color): (s: Strip)
    ensures forall k :: 0 <= k < NumPixels ==> s[k] == c
  {
    seq(NumPixels, k => c)
  }
}
