/**
 * The image descriptors the lightbox navigates over, and how they are read
 * off the thumbnail cards of a gallery section.
 */
module Images {
  import opened Wrappers

  /** One entry of the lightbox's image list: full-size source, alt text, title. */
  datatype ImageRef = ImageRef(src: string, alt: string, title: string)

  /** The `<img>` inside a card, as far as the lightbox reads it. */
  datatype Thumb = Thumb(alt: string, title: string)

  /** A thumbnail card: its full-size source and, when present, its `<img>`. */
  datatype Card = Card(src: string, img: Option<Thumb>)

  const DefaultAlt := "Gallery image"

  /** The descriptor of one card: the alt text falls back to DefaultAlt and the title to "". */
  function ImageRefOf(c: Card): (r: ImageRef)
    ensures r.src == c.src
    ensures r.alt != ""
    ensures c.img.Some? && c.img.value.alt != "" ==> r.alt == c.img.value.alt
    ensures c.img.None? || c.img.value.alt == "" ==> r.alt == DefaultAlt
    ensures r.title == if c.img.Some? then c.img.value.title else ""
  {
    match c.img
    case None => ImageRef(c.src, DefaultAlt, "")
    case Some(t) => ImageRef(c.src, if t.alt != "" then t.alt else DefaultAlt, t.title)
  }

  /** The image list of a section: one descriptor per card, in document order. */
  function ImagesOf(cards: seq<Card>): (r: seq<ImageRef>)
    ensures |r| == |cards|
    ensures forall i :: 0 <= i < |cards| ==> r[i] == ImageRefOf(cards[i])
  {
    if cards == [] then [] else [ImageRefOf(cards[0])] + ImagesOf(cards[1..])
  }

  /** The position of the first image whose source is `src`, or -1 when there is none. */
  function FirstIndexOf(images: seq<ImageRef>, src: string): (r: int)
    ensures -1 <= r < |images|
    ensures r == -1 <==> forall j :: 0 <= j < |images| ==> images[j].src != src
    ensures r != -1 ==> images[r].src == src
    ensures forall j :: 0 <= j < r ==> images[j].src != src
  {
    if images == [] then -1
    else if images[0].src == src then 0
    else
      var k := FirstIndexOf(images[1..], src);
      if k == -1 then -1 else k + 1
  }

  /** The index `openModal` opens at: the first image with source `src`, or 0 when none has it. */
  function StartIndex(images: seq<ImageRef>, src: string): (k: nat)
    ensures images != [] ==> k < |images|
    ensures (exists j :: 0 <= j < |images| && images[j].src == src) ==>
      images[k].src == src && forall j :: 0 <= j < k ==> images[j].src != src
    ensures (forall j :: 0 <= j < |images| ==> images[j].src != src) ==> k == 0
  {
    var i := FirstIndexOf(images, src);
    if i == -1 then 0 else i
  }
}
