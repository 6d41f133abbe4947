/**
 * The layout builder the composer writes into, abstracted from the PDF
 * library: a fragment records WHAT is placed (text, rows, nested columns,
 * titled sections, an image or a placeholder) and nothing about sizes,
 * fonts or colours.
 */
module Layout {

  datatype Fragment =
    | Text(text: string)                                // one text item
    | Bullet(text: string)                              // a "• " marker cell and a text cell
    | Row(cells: seq<Fragment>)                         // items side by side
    | Stack(items: seq<Fragment>)                       // a nested column of items
    | Section(title: string, content: seq<Fragment>)    // heading above a content column
    | Category(title: string, content: seq<Fragment>)   // label cell beside a content column
    | Image(path: string)                               // a picture loaded from `path`
    | Placeholder(caption: string)                      // a grey box with a caption
    | Paragraph(spans: seq<Fragment>)                   // one text run made of spans
    | PageNumber                                        // span filled in by pagination
    | PageCount                                         // span filled in by pagination
    | Divider                                           // a horizontal line
    | AccentBar                                         // the coloured vertical bar
    | Spacer                                            // a fixed empty gap

  /** A column descriptor: items are appended in call order and never removed. */
  class Column {
    var items: seq<Fragment>

    constructor ()
      ensures items == []
    {
      items := [];
    }

    /** `column.Item()` filled with `f`. */
    method Item(f: Fragment)
      modifies this
      ensures items == old(items) + [f]
    {
      items := items + [f];
    }
  }

  /** The operator console; only ever written to. */
  class Console {
    var lines: seq<string>

    constructor ()
      ensures lines == []
    {
      lines := [];
    }

    method WriteLine(s: string)
      modifies this
      ensures lines == old(lines) + [s]
    {
      lines := lines + [s];
    }
  }
}
