// The PDF download button: a click is ignored while a download is running;
// otherwise the server's PDF is saved under a name built from the quote, or
// the failure is reported in a toast. The browser's blob and link handling
// is reduced to the list of file names saved.
module PdfDownload {
  import opened Wrappers
  import opened Text
  import opened Numerals
  import opened Toasts

  /** What `getQuotePDF` gave: a blob of some size, nothing, or an error with
      its message ("" when it has none). */
  datatype PdfReply = Blob(size: nat) | NoBlob | PdfThrew(message: String)

  const EmptyPdfError := "Received empty PDF data from server."
  const DefaultPdfError := "Failed to download PDF."

  /** `quote-${quote.title || quote.id}.pdf`. */
  function FileName(title: String, id: int): (r: String)
    ensures |r| >= 10
    ensures r[..6] == "quote-" && r[|r| - 4..] == ".pdf"
    ensures title != "" ==> r[6..|r| - 4] == title
    ensures title == "" ==> r[6..|r| - 4] == IntToString(id)
  {
    var middle := if title != "" then title else IntToString(id);
    "quote-" + middle + ".pdf"
  }

  /** A quote without a title is saved under its id, which can be read back
      from the name. */
  lemma {:induction false} FileNameNamesQuote(id: int)
    ensures JsParseInt(FileName("", id)[6..|FileName("", id)| - 4]) == Some(id)
  {
    JsParseIntRoundTrip(id);
  }

  /** The message of a failed download, or None when the PDF was saved. */
  function DownloadError(reply: PdfReply): (r: Option<String>)
    ensures r.None? <==> reply.Blob? && reply.size > 0
    ensures r.Some? ==> r.value != ""
    ensures reply.PdfThrew? && reply.message != "" ==> r == Some(reply.message)
  {
    match reply
    case Blob(size) => if size == 0 then Some(EmptyPdfError) else None
    case NoBlob => Some(EmptyPdfError)
    case PdfThrew(m) => Some(if m != "" then m else DefaultPdfError)
  }

  class PdfDownloadButton {
    var isDownloading: bool
    var saved: seq<String>
    var toasts: seq<ToastRequest>

    constructor()
      ensures !isDownloading && saved == [] && toasts == []
    {
      isDownloading, saved, toasts := false, [], [];
    }

    /** `handleDownload`. A click during a download does nothing; otherwise
        exactly one toast follows, a file is saved only for a non-empty
        PDF, and the button is enabled again and reads "Download PDF". */
    method HandleDownload(title: String, id: int, reply: PdfReply)
      modifies this
      ensures old(isDownloading) ==> isDownloading && saved == old(saved) && toasts == old(toasts)
      ensures !old(isDownloading) ==> !isDownloading
      ensures !old(isDownloading) && DownloadError(reply).None? ==>
                saved == old(saved) + [FileName(title, id)]
                && toasts == old(toasts) + [ToastRequest("PDF download started.", Success)]
      ensures !old(isDownloading) && DownloadError(reply).Some? ==>
                saved == old(saved)
                && toasts == old(toasts) + [ToastRequest(DownloadError(reply).value, Error)]
      ensures !old(isDownloading) ==> Label() == "Download PDF"
      ensures old(isDownloading) ==> Label() == old(Label())
    {
      if isDownloading {
        return;
      }
      isDownloading := true;
      var failure := DownloadError(reply);
      if failure.None? {
        var filename := FileName(title, id);
        saved := saved + [filename];
        toasts := toasts + [ToastRequest("PDF download started.", Success)];
      } else {
        toasts := toasts + [ToastRequest(failure.value, Error)];
      }
      isDownloading := false;
    }

    /** The button is disabled while downloading, and then shows
        "Downloading...". */
    function Label(): String
      reads this
    {
      if isDownloading then "Downloading..." else "Download PDF"
    }
  }
}
