/** The background-clearing step of the image-edit script
    (test_dall_e_2.py): every pure-white pixel of an RGBA image becomes
    fully transparent white; every other pixel is kept. Loading the JPEG,
    converting it to RGBA and saving the PNG are not part of this model. */
module Transparency {

  /** One 8-bit channel. */
  type Byte = x: int | 0 <= x < 256

  /** An RGBA pixel as `getdata` yields it. */
  datatype Pixel = Pixel(r: Byte, g: Byte, b: Byte, a: Byte)

  /** `item[:3] == (255, 255, 255)`. */
  predicate IsWhite(p: Pixel) {
    p.r == 255 && p.g == 255 && p.b == 255
  }

  /** What the loop appends for one pixel: the colour is kept, and the
      alpha drops to 0 exactly for white pixels. */
  function Transparentize(p: Pixel): (q: Pixel)
    ensures q.r == p.r && q.g == p.g && q.b == p.b
    ensures q.a == if IsWhite(p) then 0 else p.a
  {
    if IsWhite(p) then Pixel(255, 255, 255, 0) else p
  }

  /** The map over a whole pixel list, position by position. */
  function TransparentizeAll(pixels: seq<Pixel>): (r: seq<Pixel>)
    ensures |r| == |pixels|
    ensures forall k :: 0 <= k < |pixels| ==> r[k] == Transparentize(pixels[k])
  {
    seq(|pixels|, k requires 0 <= k < |pixels| => Transparentize(pixels[k]))
  }

  /** Clearing the white background twice is clearing it once. */
  lemma TransparentizeIdempotent(pixels: seq<Pixel>)
    ensures TransparentizeAll(TransparentizeAll(pixels)) == TransparentizeAll(pixels)
  {
    var once := TransparentizeAll(pixels);
    forall k | 0 <= k < |pixels|
      ensures Transparentize(once[k]) == once[k]
    {
      if IsWhite(pixels[k]) {
        assert IsWhite(once[k]);
      }
    }
  }

  /** The map acts on each pixel alone: the result on a concatenation is
      the concatenation of the results. */
  lemma TransparentizeAppend(a: seq<Pixel>, b: seq<Pixel>)
    ensures TransparentizeAll(a + b) == TransparentizeAll(a) + TransparentizeAll(b)
  {
  }

  /** The loop that builds `newData` from the pixels of the image. */
  method MakeWhiteTransparent(datas: seq<Pixel>) returns (newData: seq<Pixel>)
    ensures newData == TransparentizeAll(datas)
  {
    newData := [];
    var i := 0;
    while i < |datas|
      invariant 0 <= i <= |datas|
      invariant |newData| == i
      invariant forall k :: 0 <= k < i ==> newData[k] == Transparentize(datas[k])
    {
      var item := datas[i];
      if IsWhite(item) {
        newData := newData + [Pixel(255, 255, 255, 0)];
      } else {
        newData := newData + [item];
      }
      i := i + 1;
    }
  }

  /** `getdata`, the loop, then `putdata`: the image's pixel buffer is
      replaced by the new pixel list, in place. */
  method ClearWhiteBackground(img: array<Pixel>)
    modifies img
    ensures img[..] == TransparentizeAll(old(img[..]))
  {
    var datas := img[..];
    var newData := MakeWhiteTransparent(datas);
    var i := 0;
    while i < img.Length
      invariant 0 <= i <= img.Length
      invariant img[..i] == newData[..i]
    {
      img[i] := newData[i];
      i := i + 1;
    }
    assert img[..] == img[..i];
  }
}
