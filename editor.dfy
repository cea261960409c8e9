/**
 * The document editor page: the rule-based auto-formatter, the strings handed
 * to the PDF and plain-text exporters, and the page state they work on.
 */
module EditorPage {
  import opened Wrappers
  import opened JsText

  // ---------------------------------------------------------------------------
  // Rule-based formatter
  // ---------------------------------------------------------------------------

  /** Raw content is cut into chunks at every blank line. */
  const ParagraphBreak := "\n\n"
  /** The formatted pieces are put back together with a single line feed. */
  const PieceBreak := "\n"
  /** A chunk must be shorter than this (in code units) to become a heading. */
  const HeadingLengthLimit := 100

  /** An HTML element with a tag name and its text, not escaped. */
  datatype Element = Element(tag: string, text: string)

  /** The heading rule: short, and without a full stop anywhere. */
  predicate LooksLikeHeading(chunk: string) {
    |chunk| < HeadingLengthLimit && '.' !in chunk
  }

  /**
   * The element a chunk becomes: a level-two heading when it looks like a
   * heading, a paragraph otherwise; its text is the chunk itself, untrimmed.
   */
  function Classify(chunk: string): (e: Element)
    ensures e.text == chunk
    ensures e.tag == "h2" || e.tag == "p"
    ensures e.tag == "h2" <==> LooksLikeHeading(chunk)
  {
    Element(if LooksLikeHeading(chunk) then "h2" else "p", chunk)
  }

  /** The markup of an element: opening tag, text verbatim, closing tag. */
  function Render(e: Element): (r: string)
    ensures |r| == |e.text| + 2 * |e.tag| + 5
  {
    "<" + e.tag + ">" + e.text + "</" + e.tag + ">"
  }

  /**
   * One chunk of raw content as formatted markup: nine code units of tags
   * around a heading, seven around a paragraph.
   */
  function FormatChunk(chunk: string): (r: string)
    ensures |r| == |chunk| + (if LooksLikeHeading(chunk) then 9 else 7)
  {
    Render(Classify(chunk))
  }

  /** Reads a formatted piece back: the tag and the text it wraps. */
  function ParsePiece(piece: string): Option<Element> {
    if |piece| >= 9 && piece[..4] == "<h2>" && piece[|piece| - 5..] == "</h2>" then
      Some(Element("h2", piece[4..|piece| - 5]))
    else if |piece| >= 7 && piece[..3] == "<p>" && piece[|piece| - 4..] == "</p>" then
      Some(Element("p", piece[3..|piece| - 4]))
    else
      None
  }

  /** A formatted chunk reads back as its classification: tag and verbatim text. */
  lemma ParseFormatChunk(chunk: string)
    ensures ParsePiece(FormatChunk(chunk)) == Some(Classify(chunk))
  {
    var e := Classify(chunk);
    var piece := FormatChunk(chunk);
    if e.tag == "h2" {
      assert piece == "<h2>" + chunk + "</h2>";
      assert piece[..4] == "<h2>";
      assert piece[|piece| - 5..] == "</h2>";
      assert piece[4..|piece| - 5] == chunk;
    } else {
      assert piece == "<p>" + chunk + "</p>";
      assert piece[..4] != "<h2>" by { assert piece[1] == 'p'; }
      assert piece[..3] == "<p>";
      assert piece[|piece| - 4..] == "</p>";
      assert piece[3..|piece| - 4] == chunk;
    }
  }

  /** The chunks of raw content, as `content.split("\n\n")` gives them. */
  function Chunks(content: string): (r: seq<string>)
    ensures |r| >= 1 && Join(r, ParagraphBreak) == content
  {
    Split(content, ParagraphBreak)
  }

  /** Each chunk formatted on its own, in order: one piece per chunk, each holding tags. */
  function Pieces(content: string): (r: seq<string>)
    ensures |r| == |Chunks(content)| >= 1
    ensures forall i :: 0 <= i < |r| ==> |r[i]| >= 7
  {
    var chunks := Chunks(content);
    seq(|chunks|, i requires 0 <= i < |chunks| => FormatChunk(chunks[i]))
  }

  /**
   * The auto-formatter's output for raw content. It always holds markup: it
   * starts with the first formatted piece.
   */
  function Format(content: string): (r: string)
    ensures Pieces(content)[0] <= r
    ensures |r| >= 7
  {
    JoinStartsWithFirst(Pieces(content), PieceBreak);
    Join(Pieces(content), PieceBreak)
  }

  /** The text a formatted piece wraps (the piece itself if it is not one). */
  function PieceText(piece: string): string {
    match ParsePiece(piece)
    case Some(e) => e.text
    case None => piece
  }

  /** The texts of a sequence of formatted pieces. */
  function PieceTexts(pieces: seq<string>): seq<string> {
    seq(|pieces|, i requires 0 <= i < |pieces| => PieceText(pieces[i]))
  }

  /**
   * The formatter maps chunks to pieces one to one and in order: there are as
   * many pieces as chunks (at least one), and piece `i` is chunk `i` wrapped in
   * the tag the heading rule chooses.
   */
  lemma FormatIsChunkwise(content: string)
    ensures |Pieces(content)| == |Chunks(content)| >= 1
    ensures forall i :: 0 <= i < |Pieces(content)| ==>
              ParsePiece(Pieces(content)[i]) == Some(Classify(Chunks(content)[i]))
  {
    forall i | 0 <= i < |Pieces(content)|
      ensures ParsePiece(Pieces(content)[i]) == Some(Classify(Chunks(content)[i]))
    {
      ParseFormatChunk(Chunks(content)[i]);
    }
  }

  /**
   * Nothing of the content is lost or altered: the texts of the pieces, joined
   * with the paragraph break again, are the raw content.
   */
  lemma FormatRecoversContent(content: string)
    ensures Join(PieceTexts(Pieces(content)), ParagraphBreak) == content
  {
    var chunks := Chunks(content);
    FormatIsChunkwise(content);
    assert PieceTexts(Pieces(content)) == chunks;
  }

  /** A join starts with its first piece. */
  lemma JoinStartsWithFirst(pieces: seq<string>, sep: string)
    requires |pieces| >= 1
    ensures pieces[0] <= Join(pieces, sep)
  {
  }

  /** Overlapping separators are matched left to right: `"a\n\n\nb"` has chunks `"a"` and `"\nb"`. */
  lemma ChunksOverlapExample()
    ensures Chunks("a\n\n\nb") == ["a", "\nb"]
  {
    var s := "a\n\n\nb";
    assert s[0..2][0] == 'a' && OccursAt(s, ParagraphBreak, 1);
    assert IndexOf(s, ParagraphBreak, 0) == 1;
    assert s[..1] == "a" && s[3..] == "\nb";
    assert "\nb"[0..2][1] == 'b';
    assert IndexOf("\nb", ParagraphBreak, 0) == -1;
  }

  /** Two blank lines in a row leave an empty chunk behind. */
  lemma ChunksEmptyExample()
    ensures Chunks("a\n\n\n\nb") == ["a", "", "b"]
  {
    var t := "a\n\n\n\nb";
    assert t[0..2][0] == 'a' && OccursAt(t, ParagraphBreak, 1);
    assert IndexOf(t, ParagraphBreak, 0) == 1;
    assert t[..1] == "a" && t[3..] == "\n\nb";
    assert OccursAt("\n\nb", ParagraphBreak, 0);
    assert "\n\nb"[..0] == "" && "\n\nb"[2..] == "b";
    assert IndexOf("b", ParagraphBreak, 0) == -1;
    assert Split("b", ParagraphBreak) == ["b"];
    assert Split("\n\nb", ParagraphBreak) == ["", "b"];
  }

  /** Joining three pieces puts the separator between each neighbouring pair. */
  lemma JoinThree(a: string, b: string, c: string, sep: string)
    ensures Join([a, b, c], sep) == a + sep + b + sep + c
  {
    assert [a, b, c][1..] == [b, c];
    assert [b, c][1..] == [c];
    assert Join([b, c], sep) == b + sep + c;
    assert a + sep + (b + sep + c) == a + sep + b + sep + c;
  }

  /** One-letter chunks and the empty chunk become headings. */
  lemma HeadingExample()
    ensures FormatChunk("a") == "<h2>a</h2>"
    ensures FormatChunk("") == "<h2></h2>"
    ensures FormatChunk("b") == "<h2>b</h2>"
  {
  }

  /** The three chunks of `"a\n\n\n\nb"` are all short and without a full stop. */
  lemma PiecesEmptyExample(content: string)
    requires content == "a\n\n\n\nb"
    ensures Pieces(content) == ["<h2>a</h2>", "<h2></h2>", "<h2>b</h2>"]
  {
    ChunksEmptyExample();
    var ps := Pieces(content);
    HeadingExample();
    assert ps[0] == "<h2>a</h2>";
    assert ps[1] == "<h2></h2>";
    assert ps[2] == "<h2>b</h2>";
  }

  /** The empty chunk is short and has no full stop, so it becomes an empty heading. */
  lemma FormatEmptyChunkExample(content: string)
    requires content == "a\n\n\n\nb"
    ensures Format(content) == "<h2>a</h2>\n<h2></h2>\n<h2>b</h2>"
  {
    PiecesEmptyExample(content);
    var ps := Pieces(content);
    assert Format(content) == Join(ps, PieceBreak);
    JoinThree(ps[0], ps[1], ps[2], PieceBreak);
  }

  // ---------------------------------------------------------------------------
  // Export payloads
  // ---------------------------------------------------------------------------

  /** The heading of an untitled PDF. */
  const DefaultHeading := "Document"
  /** The file name stem of an untitled export. */
  const DefaultFileStem := "document"

  /** JavaScript's `text || fallback` on strings: only the empty string is falsy. */
  function OrElse(text: string, fallback: string): (r: string)
    ensures text != "" ==> r == text
    ensures text == "" ==> r == fallback
    ensures r == "" <==> text == "" && fallback == ""
  {
    if text != "" then text else fallback
  }

  /** The markup around the heading and the body handed to the PDF converter. */
  const PdfHtmlOpen := "\n      <div style=\"padding: 40px; font-family: Arial, sans-serif;\">\n        <h1 style=\"color: #333; margin-bottom: 30px;\">"
  const PdfHtmlMiddle := "</h1>\n        "
  const PdfHtmlClose := "\n      </div>\n    "

  /** The fixed conversion options, with the file name the only variable one. */
  datatype PdfOptions = PdfOptions(
    margin: int, filename: string, imageType: string, imageQuality: real,
    canvasScale: int, unit: string, pageFormat: string, orientation: string)

  /** What the PDF converter is given: the markup to render and the options. */
  datatype PdfJob = PdfJob(html: string, options: PdfOptions)

  /** What the plain-text download is made of. */
  datatype TextFile = TextFile(contents: string, mimeType: string, filename: string)

  function PdfHtml(heading: string, body: string): string {
    PdfHtmlOpen + heading + PdfHtmlMiddle + body + PdfHtmlClose
  }

  /** The body inside PDF markup whose heading is `heading`. */
  function PdfBodyIn(html: string, heading: string): string
    requires |PdfHtmlOpen| + |heading| + |PdfHtmlMiddle| + |PdfHtmlClose| <= |html|
  {
    html[|PdfHtmlOpen| + |heading| + |PdfHtmlMiddle|..|html| - |PdfHtmlClose|]
  }

  /** The PDF export of a document with this title, raw content and formatted content. */
  function PdfJobFor(title: string, content: string, formatted: string): PdfJob {
    PdfJob(
      PdfHtml(OrElse(title, DefaultHeading), OrElse(formatted, content)),
      PdfOptions(1, OrElse(title, DefaultFileStem) + ".pdf", "jpeg", 0.98, 2, "in", "letter", "portrait"))
  }

  /** The plain-text export of a document with this title and raw content. */
  function TextFileFor(title: string, content: string): TextFile {
    TextFile(title + ParagraphBreak + content, "text/plain", OrElse(title, DefaultFileStem) + ".txt")
  }

  /**
   * The PDF markup carries the title as its heading ("Document" only for the
   * empty title; a whitespace-only title is kept) and, as its body, the
   * formatted content when there is any and the raw content otherwise; the
   * file is the title, or "document", with ".pdf" appended.
   */
  lemma PdfJobContents(title: string, content: string, formatted: string)
    ensures var job := PdfJobFor(title, content, formatted);
            var heading := if title == "" then "Document" else title;
            && |PdfHtmlOpen| + |heading| + |PdfHtmlMiddle| + |PdfHtmlClose| <= |job.html|
            && job.html[..|PdfHtmlOpen|] == PdfHtmlOpen
            && job.html[|PdfHtmlOpen|..|PdfHtmlOpen| + |heading|] == heading
            && PdfBodyIn(job.html, heading) == (if formatted != "" then formatted else content)
            && job.options.filename == (if title == "" then "document" else title) + ".pdf"
  {
    ConcatParts(PdfHtmlOpen, OrElse(title, DefaultHeading), PdfHtmlMiddle, OrElse(formatted, content), PdfHtmlClose);
  }

  /**
   * The plain-text payload is the title, a blank line and the raw content,
   * even when the title is empty; the file is the title, or "document", with
   * ".txt" appended.
   */
  lemma TextFileContents(title: string, content: string)
    ensures var file := TextFileFor(title, content);
            && |file.contents| == |title| + 2 + |content|
            && file.contents[..|title|] == title
            && file.contents[|title|..|title| + 2] == "\n\n"
            && file.contents[|title| + 2..] == content
            && file.mimeType == "text/plain"
            && file.filename == (if title == "" then "document" else title) + ".txt"
  {
    var c := TextFileFor(title, content).contents;
    assert c == title + ("\n\n" + content);
  }

  /**
   * For a one-line title, splitting the plain-text payload at blank lines the
   * way the formatter does gives the title as the first chunk and the content
   * as the rest.
   */
  lemma TextFileSplitsBack(title: string, content: string)
    requires '\n' !in title
    ensures var chunks := Split(TextFileFor(title, content).contents, ParagraphBreak);
            chunks[0] == title && Join(chunks[1..], ParagraphBreak) == content
  {
    var ext := title + ParagraphBreak[..1];
    forall j: nat ensures !OccursAt(ext, ParagraphBreak, j) {
      if j + 2 <= |ext| {
        assert ext[j] == title[j];
        assert ext[j..j + 2][0] == ext[j];
      }
    }
    SplitAfterFirst(title, ParagraphBreak, content);
    var chunks := Split(title + ParagraphBreak + content, ParagraphBreak);
    assert chunks[1..] == Split(content, ParagraphBreak);
  }

  /**
   * Once the auto-formatter has run on non-blank content, the PDF body is
   * exactly its output, never the raw content.
   */
  lemma PdfBodyAfterFormat(title: string, content: string)
    ensures var heading := if title == "" then "Document" else title;
            var job := PdfJobFor(title, content, Format(content));
            && |PdfHtmlOpen| + |heading| + |PdfHtmlMiddle| + |PdfHtmlClose| <= |job.html|
            && PdfBodyIn(job.html, heading) == Format(content)
  {
    PdfJobContents(title, content, Format(content));
  }

  // ---------------------------------------------------------------------------
  // Page state
  // ---------------------------------------------------------------------------

  /** The editor page's state: the title, the raw content and the formatted markup. */
  class Editor {
    var title: string
    var content: string
    var formattedContent: string
    /** The content the formatted markup was produced from. */
    ghost var formattedFrom: string

    /** The formatted markup is empty or the formatting of some non-blank content. */
    ghost predicate Valid()
      reads this
    {
      formattedContent == "" || (!IsBlank(formattedFrom) && formattedContent == Format(formattedFrom))
    }

    /** The page opens with everything empty. */
    constructor ()
      ensures Valid()
      ensures title == "" && content == "" && formattedContent == ""
    {
      title, content, formattedContent := "", "", "";
      formattedFrom := "";
    }

    /** Typing in the title field. */
    method SetTitle(value: string)
      requires Valid()
      modifies this`title
      ensures Valid()
      ensures title == value
      ensures content == old(content) && formattedContent == old(formattedContent)
    {
      title := value;
    }

    /** Typing in the content field; the formatted markup is left as it was. */
    method SetContent(value: string)
      requires Valid()
      modifies this`content
      ensures Valid()
      ensures content == value
      ensures title == old(title) && formattedContent == old(formattedContent)
    {
      content := value;
    }

    /**
     * The auto-format button: blank content changes nothing; otherwise the
     * formatted markup becomes the formatting of the content, and the title
     * and the content stay as they are.
     */
    method FormatContent()
      requires Valid()
      modifies this`formattedContent, this`formattedFrom
      ensures Valid()
      ensures title == old(title) && content == old(content)
      ensures IsBlank(content) ==> formattedContent == old(formattedContent)
      ensures !IsBlank(content) ==> formattedContent == Format(content) && formattedFrom == content
    {
      TrimEmptyIffBlank(content);
      if Trim(content) == "" {
        return;
      }
      formattedContent := Format(content);
      formattedFrom := content;
    }

    /** The download buttons are enabled exactly when the content is not blank. */
    predicate DownloadsEnabled()
      reads this
      ensures DownloadsEnabled() <==> !IsBlank(content)
    {
      TrimEmptyIffBlank(content);
      Trim(content) != ""
    }

    /**
     * The PDF download: the markup and options handed to the converter. While
     * the button is enabled, the markup has a non-empty body.
     */
    method DownloadPdf() returns (job: PdfJob)
      ensures job == PdfJobFor(title, content, formattedContent)
      ensures DownloadsEnabled() ==>
                var heading := OrElse(title, DefaultHeading);
                && |PdfHtmlOpen| + |heading| + |PdfHtmlMiddle| + |PdfHtmlClose| <= |job.html|
                && PdfBodyIn(job.html, heading) != ""
    {
      job := PdfJobFor(title, content, formattedContent);
      if DownloadsEnabled() {
        EnabledPdfHasBody(title, content, formattedContent);
      }
    }

    /** The TXT download: the payload, its type and its file name. */
    method DownloadTxt() returns (file: TextFile)
      ensures file == TextFileFor(title, content)
    {
      file := TextFileFor(title, content);
    }
  }

  /**
   * Whenever the downloads are enabled, the PDF body is non-empty: it is
   * either the formatted markup or the (non-blank) raw content.
   */
  lemma EnabledPdfHasBody(title: string, content: string, formatted: string)
    requires Trim(content) != ""
    ensures var heading := if title == "" then "Document" else title;
            var job := PdfJobFor(title, content, formatted);
            && |PdfHtmlOpen| + |heading| + |PdfHtmlMiddle| + |PdfHtmlClose| <= |job.html|
            && PdfBodyIn(job.html, heading) != ""
  {
    PdfJobContents(title, content, formatted);
  }
}
