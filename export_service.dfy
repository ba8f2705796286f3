/**
 * The frontend's export of a generated email (src/services/exportService.ts):
 * the plain-text file's name and contents, and the placement of the text
 * blocks in the PDF file.
 *
 * The local date string (`toLocaleString`) and the PDF line wrapping
 * (`splitTextToSize`) are parameters; the Blob, the download link and the
 * PDF rendering itself are not modelled.
 */
module ExportService {
  import opened Wrappers
  import opened Strings
  import opened Schemas
  import EmailGeneratorService

  // ---------------------------------------------------------------------
  // File names
  // ---------------------------------------------------------------------

  const FileNameStem := "outreach-email-"

  function TxtFileName(id: string): string
  {
    FileNameStem + id + ".txt"
  }

  function PdfFileName(id: string): string
  {
    FileNameStem + id + ".pdf"
  }

  /** The id can be read back from a file name: two emails share a file name only when they share an id. */
  lemma FileNamesIdentify(id1: string, id2: string)
    ensures TxtFileName(id1) == TxtFileName(id2) <==> id1 == id2
    ensures PdfFileName(id1) == PdfFileName(id2) <==> id1 == id2
    ensures TxtFileName(id1) != PdfFileName(id2)
  {
    var n := |FileNameStem|;
    if TxtFileName(id1) == TxtFileName(id2) {
      assert id1 == TxtFileName(id1)[n..n + |id1|];
    }
    if PdfFileName(id1) == PdfFileName(id2) {
      assert id1 == PdfFileName(id1)[n..n + |id1|];
    }
  }

  // ---------------------------------------------------------------------
  // Plain-text export
  // ---------------------------------------------------------------------

  const AppTitle := "Outreach Pro - Generated Email"
  /** The rule under the title, up to the subject's label. */
  const SubjectHeading := "\n==============================\n\nSubject: "
  const ContentHeading := "\n\nEmail Content:\n"
  const TargetHeading := "\n\nTarget Job: "
  const At := " at "
  const GeneratedHeading := "\n\nGenerated on: "
  const LinksHeading := "\n\nPortfolio Links:"
  /** The template's own last line: a line break and the indentation of `.trim()`. */
  const TemplateTail := "\n    "

  /** The text up to the "Portfolio Links:" label, in order. */
  function TxtHead(email: GeneratedEmailData, localDate: string): seq<string>
  {
    [AppTitle, SubjectHeading, email.subject, ContentHeading, email.content,
     TargetHeading, email.jobListing.title, At, email.jobListing.company,
     GeneratedHeading, localDate, LinksHeading]
  }

  /** The template before trimming: a leading line break, the head, the bullet lines and the tail. */
  function TxtTemplate(email: GeneratedEmailData, localDate: string): string
  {
    "\n" + (Concat(TxtHead(email, localDate)) +
      ("\n" + (Join(EmailGeneratorService.Bullets(email.portfolioLinks), "\n") + TemplateTail)))
  }

  /** The text `exportToTXT` writes, `localDate` standing for the timestamp's local rendering. */
  function TxtContent(email: GeneratedEmailData, localDate: string): string
  {
    JsTrim(TxtTemplate(email, localDate))
  }

  /** The head ends with the non-space ':' of its last label and starts with the banner's 'O'. */
  lemma HeadEnds(email: GeneratedEmailData, localDate: string)
    ensures var h := Concat(TxtHead(email, localDate));
      h != [] && h[0] == 'O' && h[|h| - 1] == ':'
  {
    var parts := TxtHead(email, localDate);
    ConcatContains(parts, 0);
    assert parts == parts[..11] + [LinksHeading];
    ConcatAppend(parts[..11], [LinksHeading]);
    var h := Concat(parts);
    assert h[0] == AppTitle[0];
    assert h == Concat(parts[..11]) + LinksHeading;
    assert h[|h| - 1] == LinksHeading[|LinksHeading| - 1];
  }

  /** Trimming drops the leading line break and keeps the head whole. */
  lemma TrimmedTemplate(email: GeneratedEmailData, localDate: string)
    ensures var h := Concat(TxtHead(email, localDate));
      var tail := "\n" + (Join(EmailGeneratorService.Bullets(email.portfolioLinks), "\n") + TemplateTail);
      TxtContent(email, localDate) == TrimRight(h + tail, IsJsSpace)
  {
    var h := Concat(TxtHead(email, localDate));
    var tail := "\n" + (Join(EmailGeneratorService.Bullets(email.portfolioLinks), "\n") + TemplateTail);
    HeadEnds(email, localDate);
    assert TxtTemplate(email, localDate) == "\n" + (h + tail);
    TrimLeftAfterSpaces("\n", h + tail, IsJsSpace);
    TrimLeftNonSpaceStart(h, tail, IsJsSpace);
  }

  /** With no portfolio links the text ends at the "Portfolio Links:" label. */
  lemma TxtWithoutLinks(email: GeneratedEmailData, localDate: string)
    requires email.portfolioLinks == []
    ensures TxtContent(email, localDate) == Concat(TxtHead(email, localDate))
  {
    var h := Concat(TxtHead(email, localDate));
    TrimmedTemplate(email, localDate);
    assert "\n" + (Join(EmailGeneratorService.Bullets(email.portfolioLinks), "\n") + TemplateTail) == "\n\n    ";
    TrimRightBeforeSpaces(h, "\n\n    ", IsJsSpace);
    HeadEnds(email, localDate);
  }

  /**
   * With links, the head is followed by a line break and the bullet lines,
   * one "- " + link per line; only the last line loses trailing space.
   */
  lemma TxtWithLinks(email: GeneratedEmailData, localDate: string)
    requires email.portfolioLinks != []
    ensures var bullets := Join(EmailGeneratorService.Bullets(email.portfolioLinks), "\n");
      TxtContent(email, localDate) == Concat(TxtHead(email, localDate)) + "\n" + TrimRight(bullets, IsJsSpace)
    ensures "- " + email.portfolioLinks[0] <= Join(EmailGeneratorService.Bullets(email.portfolioLinks), "\n")
  {
    var h := Concat(TxtHead(email, localDate));
    var bullets := Join(EmailGeneratorService.Bullets(email.portfolioLinks), "\n");
    TrimmedTemplate(email, localDate);
    EmailGeneratorService.JoinStartsWith(EmailGeneratorService.Bullets(email.portfolioLinks), "\n");
    assert bullets[0] == '-';
    TrimRightShape(bullets, IsJsSpace);
    assert TrimRight(bullets, IsJsSpace) != [];
    assert h + ("\n" + (bullets + TemplateTail)) == (h + "\n" + bullets) + TemplateTail;
    TrimRightBeforeSpaces(h + "\n" + bullets, TemplateTail, IsJsSpace);
    assert h + "\n" + bullets == (h + "\n") + bullets;
    TrimRightAppend(h + "\n", bullets, IsJsSpace);
  }

  /**
   * The text starts with the title, its rule and the subject, then the
   * content, the target job "title at company", the date and the links
   * label, exactly in that order and unaltered by trimming.
   */
  lemma TxtLayout(email: GeneratedEmailData, localDate: string)
    ensures Concat(TxtHead(email, localDate)) <= TxtContent(email, localDate)
    ensures AppTitle + SubjectHeading + email.subject <= TxtContent(email, localDate)
  {
    var h := Concat(TxtHead(email, localDate));
    if email.portfolioLinks == [] {
      TxtWithoutLinks(email, localDate);
    } else {
      TxtWithLinks(email, localDate);
    }
    var parts := TxtHead(email, localDate);
    assert parts == parts[..3] + parts[3..];
    ConcatAppend(parts[..3], parts[3..]);
    var first := parts[..3];
    assert first == [AppTitle, SubjectHeading, email.subject];
    assert first[1..][1..] == [email.subject];
    assert Concat(first[1..][1..]) == email.subject;
    assert Concat(first) == AppTitle + (SubjectHeading + email.subject);
  }

  // ---------------------------------------------------------------------
  // PDF export
  // ---------------------------------------------------------------------

  /** One `doc.text` call: the lines, the position and the font size in force. */
  datatype PlacedText = PlacedText(lines: seq<string>, x: int, y: int, fontSize: nat)

  /** The part of a jsPDF document the export touches. */
  class PdfDocument {
    var fontSize: nat
    var placed: seq<PlacedText>
    var savedAs: Option<string>

    /** A new document: jsPDF's default font size of 16, nothing placed, not saved. */
    constructor ()
      ensures fontSize == 16 && placed == [] && savedAs == None
    {
      fontSize := 16;
      placed := [];
      savedAs := None;
    }

    method SetFontSize(size: nat)
      modifies this`fontSize
      ensures fontSize == size
    {
      fontSize := size;
    }

    method Text(lines: seq<string>, x: int, y: int)
      modifies this`placed
      ensures placed == old(placed) + [PlacedText(lines, x, y, fontSize)]
    {
      placed := placed + [PlacedText(lines, x, y, fontSize)];
    }

    method Save(name: string)
      modifies this`savedAs
      ensures savedAs == Some(name)
    {
      savedAs := Some(name);
    }
  }

  /** The y of the "Target Job:" heading, below the wrapped content lines. */
  function TargetJobY(lineCount: nat): int
  {
    lineCount * 4 + 90
  }

  /** The blocks `exportToPDF` places, `lines` being the wrapped content. */
  function PdfPlacements(email: GeneratedEmailData, lines: seq<string>): seq<PlacedText>
  {
    [PlacedText(["Outreach Pro - Generated Email"], 20, 20, 20),
     PlacedText(["Subject:"], 20, 40, 14),
     PlacedText([email.subject], 20, 50, 12),
     PlacedText(["Email Content:"], 20, 70, 14),
     PlacedText(lines, 20, 80, 10),
     PlacedText(["Target Job:"], 20, TargetJobY(|lines|), 14),
     PlacedText([email.jobListing.title + " at " + email.jobListing.company], 20, TargetJobY(|lines|) + 10, 12)]
  }

  /**
   * Every block sits strictly below the one placed before it, at the same
   * left margin; the target job comes 4 units per content line after the
   * content's start, plus 10.
   */
  lemma PdfTopToBottom(email: GeneratedEmailData, lines: seq<string>)
    ensures var p := PdfPlacements(email, lines);
      forall i, j :: 0 <= i < j < |p| ==> p[i].y < p[j].y
    ensures forall b :: b in PdfPlacements(email, lines) ==> b.x == 20
    ensures PdfPlacements(email, lines)[5].y == PdfPlacements(email, lines)[4].y + 4 * |lines| + 10
    ensures PdfPlacements(email, lines)[6].y == PdfPlacements(email, lines)[5].y + 10
  {
  }

  /** `exportToPDF`: places the blocks one call at a time and saves under the PDF file name. */
  method ExportToPdf(email: GeneratedEmailData, lines: seq<string>) returns (doc: PdfDocument)
    ensures fresh(doc)
    ensures doc.placed == PdfPlacements(email, lines)
    ensures doc.savedAs == Some(PdfFileName(email.id))
  {
    doc := new PdfDocument();
    doc.SetFontSize(20);
    doc.Text(["Outreach Pro - Generated Email"], 20, 20);
    doc.SetFontSize(14);
    doc.Text(["Subject:"], 20, 40);
    doc.SetFontSize(12);
    doc.Text([email.subject], 20, 50);
    doc.SetFontSize(14);
    doc.Text(["Email Content:"], 20, 70);
    doc.SetFontSize(10);
    doc.Text(lines, 20, 80);
    var contentHeight := |lines| * 4 + 90;
    doc.SetFontSize(14);
    doc.Text(["Target Job:"], 20, contentHeight);
    doc.SetFontSize(12);
    doc.Text([email.jobListing.title + " at " + email.jobListing.company], 20, contentHeight + 10);
    doc.Save(FileNameStem + email.id + ".pdf");
  }
}
