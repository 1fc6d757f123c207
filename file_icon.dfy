/**
 * `getFileIcon`, written out identically in components/documents/document-library.tsx and
 * components/documents/document-viewer.tsx: the icon shown for a file name, chosen by the
 * lower-cased text after its last dot.
 */
module FileIcon {
  import opened Text

  datatype Icon = PdfIcon | WordIcon | SheetIcon | ImageIcon | GenericIcon

  /** The lower-cased last piece of the name split at dots: the split always has a last
      piece, so the optional chaining never yields `undefined`. A name without a dot is its own extension. */
  function Extension(fileName: string): (ext: string)
    ensures '.' !in ext
    ensures forall k :: 0 <= k < |ext| ==> !('A' <= ext[k] <= 'Z')
  {
    var pieces := Split(fileName, '.');
    var last := pieces[|pieces| - 1];
    var ext := Lower(last);
    assert forall k :: 0 <= k < |ext| ==> ext[k] == LowerChar(last[k]);
    ext
  }

  function FileIcon(fileName: string): (icon: Icon)
    ensures icon == PdfIcon <==> Extension(fileName) == "pdf"
    ensures icon == WordIcon <==> Extension(fileName) in {"doc", "docx"}
    ensures icon == SheetIcon <==> Extension(fileName) in {"xls", "xlsx"}
    ensures icon == ImageIcon <==> Extension(fileName) in {"jpg", "jpeg", "png"}
  {
    var ext := Extension(fileName);
    if ext == "pdf" then PdfIcon
    else if ext == "doc" || ext == "docx" then WordIcon
    else if ext == "xls" || ext == "xlsx" then SheetIcon
    else if ext == "jpg" || ext == "jpeg" || ext == "png" then ImageIcon
    else GenericIcon
  }

  /** The extension is what follows the last dot, whatever the name before it holds. */
  lemma ExtensionAfterLastDot(base: string, ext: string)
    requires '.' !in ext
    ensures Extension(base + "." + ext) == Lower(ext)
  {
    SplitLastPiece(base, ext, '.');
    SplitNoSeparator(ext, '.');
  }

  /** Letter case does not matter: "report.PDF" shows the PDF icon. */
  lemma UpperCaseExtension()
    ensures FileIcon("report.PDF") == PdfIcon
  {
    assert "report.PDF" == "report" + "." + "PDF";
    ExtensionAfterLastDot("report", "PDF");
    assert Lower("PDF") == [LowerChar('P'), LowerChar('D'), LowerChar('F')];
  }

  /** Only the last extension counts: "archive.pdf.zip" shows the generic icon. */
  lemma OnlyLastExtensionCounts()
    ensures FileIcon("archive.pdf.zip") == GenericIcon
  {
    assert "archive.pdf.zip" == "archive.pdf" + "." + "zip";
    ExtensionAfterLastDot("archive.pdf", "zip");
    assert Lower("zip") == "zip";
  }
}
