/** The word-processor document as the generator builds it: a growing sequence
    of body elements, plus the text put in the page header and footer. Fonts,
    sizes and alignment are not part of the model; each element keeps its style
    name and its text. */
module Docx {

  /** The paragraph styles the generator names. */
  datatype Style = Normal | Heading1 | Heading2 | ListBullet

  datatype Element =
    /** `doc.add_paragraph(text, style=...)`, or an empty paragraph given one run of `text`. */
    | Para(style: Style, text: string)
    /** A `Normal` paragraph holding a bold run `number` followed by a run `text`: one numbered step. */
    | Step(number: string, text: string)
    /** The document title: a centred bold paragraph. */
    | Title(text: string)
    /** An empty paragraph holding one line break. */
    | Break
    /** A table, row by row, with the text of each cell. */
    | Table(rows: seq<seq<string>>)

  class Document {
    /** The body, in document order. */
    var body: seq<Element>
    /** The rows of the table placed in the page header. */
    var header: seq<seq<string>>
    /** The paragraphs written in the page footer. */
    var footer: seq<string>

    /** `Document()`: a new, empty document. */
    constructor ()
      ensures body == [] && header == [] && footer == []
    {
      body, header, footer := [], [], [];
    }

    method AddParagraph(style: Style, text: string)
      modifies this
      ensures body == old(body) + [Para(style, text)]
      ensures header == old(header) && footer == old(footer)
    {
      body := body + [Para(style, text)];
    }

    method AddStep(number: string, text: string)
      modifies this
      ensures body == old(body) + [Step(number, text)]
      ensures header == old(header) && footer == old(footer)
    {
      body := body + [Step(number, text)];
    }

    method AddTitle(text: string)
      modifies this
      ensures body == old(body) + [Title(text)]
      ensures header == old(header) && footer == old(footer)
    {
      body := body + [Title(text)];
    }

    method AddBreak()
      modifies this
      ensures body == old(body) + [Break]
      ensures header == old(header) && footer == old(footer)
    {
      body := body + [Break];
    }

    method AddTable(rows: seq<seq<string>>)
      modifies this
      ensures body == old(body) + [Table(rows)]
      ensures header == old(header) && footer == old(footer)
    {
      body := body + [Table(rows)];
    }

    method SetHeaderTable(rows: seq<seq<string>>)
      modifies this
      ensures header == rows
      ensures body == old(body) && footer == old(footer)
    {
      header := rows;
    }

    method AddFooterParagraph(text: string)
      modifies this
      ensures footer == old(footer) + [text]
      ensures body == old(body) && header == old(header)
    {
      footer := footer + [text];
    }
  }
}
