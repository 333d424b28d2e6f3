// What the pose preprocessors draw with: the colour names they accept, the
// canvas a rendering starts from, and the marks (lines and filled dots)
// drawn onto it.  Rasterisation itself is not modelled.

module Drawing {
  import opened Text

  datatype Rgb = Rgb(r: int, g: int, b: int)

  predicate IsByteColor(c: Rgb)
  {
    0 <= c.r <= 255 && 0 <= c.g <= 255 && 0 <= c.b <= 255
  }

  const White := Rgb(255, 255, 255)
  const Black := Rgb(0, 0, 0)

  /** The eight colour names `_get_color` knows, in lower case. */
  const ColorTable: map<string, Rgb> := map[
    "white" := White, "black" := Black, "red" := Rgb(255, 0, 0), "green" := Rgb(0, 255, 0),
    "blue" := Rgb(0, 0, 255), "yellow" := Rgb(255, 255, 0), "cyan" := Rgb(0, 255, 255),
    "magenta" := Rgb(255, 0, 255)]

  /**
   * `_get_color`: the table entry of the lower-cased name; any other name
   * is white.
   */
  function ColorOf(name: string): (c: Rgb)
    ensures IsByteColor(c)
    ensures Lower(name) in ColorTable ==> c == ColorTable[Lower(name)]
    ensures Lower(name) !in ColorTable ==> c == White
  {
    var key := Lower(name);
    if key in ColorTable then ColorTable[key] else White
  }

  /** The case of a colour name does not matter. */
  lemma ColorIgnoresCase(name: string)
    ensures ColorOf(Lower(name)) == ColorOf(name)
  {
    LowerIdempotent(name);
  }

  /** Every colour the table can yield, white included, is a byte triple. */
  lemma ColorTableIsBytes()
    ensures forall k :: k in ColorTable ==> IsByteColor(ColorTable[k])
  {
  }

  datatype Point = Point(x: int, y: int)

  /** `cv2.line` between two points and `cv2.circle` filled around one. */
  datatype Mark = Line(a: Point, b: Point) | Dot(p: Point)

  /** The pen: skeleton and point colours, line width and point radius. */
  datatype Style = Style(skeleton: Rgb, point: Rgb, lineWidth: int, pointRadius: int)

  /**
   * An output image: its size and number of channels, the colour it was
   * filled with, the pen and the marks drawn on it in order.
   */
  datatype Canvas = Canvas(width: nat, height: nat, channels: nat, background: Rgb, style: Style, marks: seq<Mark>)

  /**
   * The empty output canvas: the exact name 'transparent' gives a zeroed
   * four-channel image, any other name a three-channel image filled with
   * that colour.
   */
  function NewCanvas(width: nat, height: nat, background: string, style: Style): (c: Canvas)
    ensures c.width == width && c.height == height && c.style == style && c.marks == []
    ensures c.channels == 4 <==> background == "transparent"
    ensures c.channels == 3 <==> background != "transparent"
    ensures background != "transparent" ==> c.background == ColorOf(background)
  {
    if background == "transparent" then Canvas(width, height, 4, Black, style, [])
    else Canvas(width, height, 3, ColorOf(background), style, [])
  }

  /**
   * Only the exact lower-case spelling asks for transparency: 'Transparent'
   * is an unknown colour name and so a white background.
   */
  lemma CapitalisedTransparentIsWhite(width: nat, height: nat, background: string, style: Style)
    requires background == "Transparent"
    ensures NewCanvas(width, height, background, style).channels == 3
    ensures NewCanvas(width, height, background, style).background == White
  {
    assert background[0] != 't';
    assert Lower(background) == "transparent";
    assert "transparent" !in ColorTable;
  }

  /** Marks appended after the ones already drawn. */
  function Draw(c: Canvas, more: seq<Mark>): (d: Canvas)
    ensures d.marks == c.marks + more
    ensures d.(marks := c.marks) == c
  {
    c.(marks := c.marks + more)
  }
}
