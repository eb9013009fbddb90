// The generic file-upload control: the size and type checks of
// `validateFile`, the input and drop handlers, and `uploadFile` with its
// simulated progress. The `onUpload` callback's outcome is an input, and so
// is the number of 100 ms progress ticks that fire before it settles.
module FileUpload {
  import opened Wrappers
  import opened Text
  import opened Numerals

  const MiB := 1024 * 1024
  const DefaultMaxSize := 5 * 1024 * 1024

  /** The parts of a browser `File` the control reads. */
  datatype FileInfo = FileInfo(name: String, size: nat, mime: String)

  /** `file.type || file.name.split('.').pop()?.toLowerCase()`. */
  function FileType(f: FileInfo): (r: String)
    ensures f.mime != "" ==> r == f.mime
    ensures f.mime == "" ==> r == Lower(LastField(f.name, '.'))
  {
    if f.mime != "" then f.mime else Lower(LastField(f.name, '.'))
  }

  /** `entries.some(type => fileType && type.trim().toLowerCase() === fileType)`. */
  predicate SomeEntryMatches(entries: seq<String>, fileType: String)
  {
    |entries| > 0
    && ((fileType != "" && Lower(Trim(entries[0])) == fileType) || SomeEntryMatches(entries[1..], fileType))
  }

  /** `some` holds exactly when one entry, trimmed and lower cased, equals
      the non-empty type. */
  lemma {:induction false} SomeEntryMatchesIff(entries: seq<String>, fileType: String)
    ensures SomeEntryMatches(entries, fileType) <==>
              fileType != "" && exists i :: 0 <= i < |entries| && Lower(Trim(entries[i])) == fileType
  {
    if |entries| > 0 {
      SomeEntryMatchesIff(entries[1..], fileType);
      if fileType != "" && Lower(Trim(entries[0])) != fileType {
        if exists i :: 0 <= i < |entries| && Lower(Trim(entries[i])) == fileType {
          var i :| 0 <= i < |entries| && Lower(Trim(entries[i])) == fileType;
          assert entries[1..][i - 1] == entries[i];
        }
      }
    }
  }

  /** `accept === '*'`, or some comma-separated entry matches the file's
      type. */
  predicate TypeAccepted(accept: String, f: FileInfo)
  {
    accept == "*" || SomeEntryMatches(Split(accept, ','), FileType(f))
  }

  /** `maxSizeMB` as the limit message shows it. */
  function MaxSizeText(maxSize: nat): String
  {
    IntToString(maxSize / MiB)
  }

  /** The limit text reads back as the whole number of MiB. */
  lemma {:induction false} MaxSizeTextReadsBack(maxSize: nat)
    ensures JsParseInt(MaxSizeText(maxSize)) == Some(maxSize / MiB)
  {
    JsParseIntRoundTrip(maxSize / MiB);
  }

  /** `validateFile`: the size check comes before the type check.
      `maxSizeMB` is the limit text the component computed from `maxSize`. */
  function ValidateFile(f: Option<FileInfo>, accept: String, maxSize: nat, maxSizeMB: String): (r: Option<String>)
    ensures r.None? <==> f.Some? && f.value.size <= maxSize && TypeAccepted(accept, f.value)
    ensures f.None? ==> r == Some("No file selected")
    ensures f.Some? && f.value.size > maxSize ==> r == Some("File size exceeds " + maxSizeMB + "MB limit")
    ensures f.Some? && f.value.size <= maxSize && !TypeAccepted(accept, f.value) ==> r == Some("Invalid file type")
  {
    if f.None? then Some("No file selected")
    else if f.value.size > maxSize then Some("File size exceeds " + maxSizeMB + "MB limit")
    else if !TypeAccepted(accept, f.value) then Some("Invalid file type")
    else None
  }

  /** With the default `accept` only the size is checked. */
  lemma {:induction false} AcceptAllChecksOnlySize(f: FileInfo, maxSize: nat)
    ensures ValidateFile(Some(f), "*", maxSize, MaxSizeText(maxSize)).None? <==> f.size <= maxSize
  {
  }

  /** The default limit is shown as 5 MB. */
  lemma {:induction false} DefaultLimitText()
    ensures MaxSizeText(DefaultMaxSize) == "5"
  {
    assert DefaultMaxSize / MiB == 5;
  }

  lemma {:induction false} LowerKeepsNoDot(s: String)
    requires '.' !in s
    ensures '.' !in Lower(s)
  {
    forall i | 0 <= i < |s| ensures Lower(s)[i] != '.' {
      assert s[i] != '.';
    }
  }

  /** Entries written the HTML way (".pdf") never match: a type read from
      the extension has no dot, and neither has a MIME type without one. */
  lemma {:induction false} DottedEntriesRejectEverything(f: FileInfo, accept: String, maxSize: nat)
    requires accept != "*" && '.' !in f.mime
    requires forall i :: 0 <= i < |Split(accept, ',')| ==> '.' in Lower(Trim(Split(accept, ',')[i]))
    ensures ValidateFile(Some(f), accept, maxSize, MaxSizeText(maxSize)).Some?
  {
    if f.mime == "" {
      LowerKeepsNoDot(LastField(f.name, '.'));
    }
    assert '.' !in FileType(f);
    SomeEntryMatchesIff(Split(accept, ','), FileType(f));
  }

  /** One tick of the simulated progress: up by ten, capped at 90. */
  function TickValue(p: nat): (r: nat)
    ensures p < 90 ==> r == p + 10
    ensures p >= 90 ==> r == 90
  {
    if p >= 90 then 90 else p + 10
  }

  function Ticks(p: nat, n: nat): nat
    decreases n
  {
    if n == 0 then p else Ticks(TickValue(p), n - 1)
  }

  /** From a multiple of ten at most 90, `n` ticks add `10 * n`, up to 90. */
  lemma {:induction false} TicksFrom(p: nat, n: nat)
    requires p <= 90 && p % 10 == 0
    ensures Ticks(p, n) == if p + 10 * n >= 90 then 90 else p + 10 * n
    decreases n
  {
    if n > 0 {
      TicksFrom(TickValue(p), n - 1);
    }
  }

  /** While the upload runs, the bar shows `10 * n` percent after `n`
      ticks and never passes 90. */
  lemma {:induction false} ProgressBeforeSettling(n: nat)
    ensures Ticks(0, n) == if n >= 9 then 90 else 10 * n
    ensures Ticks(0, n) <= 90
  {
    TicksFrom(0, n);
  }

  class FileUploader {
    const accept: String
    const maxSize: nat
    const disabled: bool
    /** `maxSizeMB`, the limit as the messages show it. */
    const maxSizeMB: String
    var isDragging: bool
    var isUploading: bool
    var error: Option<String>
    var progress: nat
    var selectedFile: Option<FileInfo>
    /** The files handed to `onUpload`, in order. */
    var uploaded: seq<FileInfo>

    constructor(accept: String := "*", maxSize: nat := DefaultMaxSize, disabled: bool := false)
      ensures this.accept == accept && this.maxSize == maxSize && this.disabled == disabled
      ensures maxSizeMB == MaxSizeText(maxSize)
      ensures !isDragging && !isUploading && error.None? && progress == 0
      ensures selectedFile.None? && uploaded == []
    {
      this.accept, this.maxSize, this.disabled := accept, maxSize, disabled;
      maxSizeMB := MaxSizeText(maxSize);
      isDragging, isUploading, error, progress := false, false, None, 0;
      selectedFile, uploaded := None, [];
    }

    /** `uploadFile`: `ticks` progress ticks fire before `onUpload` settles.
        Success shows 100 percent; failure records the error and leaves the
        bar where the ticks took it. The spinner stops either way. */
    method UploadFile(f: FileInfo, succeeded: bool, ticks: nat)
      modifies this
      ensures uploaded == old(uploaded) + [f] && !isUploading && selectedFile.None?
      ensures succeeded ==> error.None? && progress == 100
      ensures !succeeded ==> error == Some("Failed to upload file") && progress == Ticks(0, ticks) <= 90
      ensures isDragging == old(isDragging)
    {
      error := None;
      isUploading := true;
      progress := 0;
      progress := Ticks(progress, ticks);
      ProgressBeforeSettling(ticks);
      uploaded := uploaded + [f];
      if succeeded {
        progress := 100;
        selectedFile := None;
      } else {
        error := Some("Failed to upload file");
        selectedFile := None;
      }
      isUploading := false;
    }

    /** `handleFileChange`: no file does nothing; a file that fails
        validation only sets the error; a valid one is uploaded. */
    method HandleFileChange(f: Option<FileInfo>, succeeded: bool, ticks: nat)
      modifies this
      ensures f.None? ==>
                error == old(error) && selectedFile == old(selectedFile) && uploaded == old(uploaded)
                && progress == old(progress) && isUploading == old(isUploading)
      ensures f.Some? && ValidateFile(f, accept, maxSize, maxSizeMB).Some? ==>
                error == ValidateFile(f, accept, maxSize, maxSizeMB) && selectedFile.None?
                && uploaded == old(uploaded) && progress == old(progress) && isUploading == old(isUploading)
      ensures f.Some? && ValidateFile(f, accept, maxSize, maxSizeMB).None? ==>
                uploaded == old(uploaded) + [f.value] && !isUploading && selectedFile.None?
                && (succeeded ==> error.None? && progress == 100)
                && (!succeeded ==> error == Some("Failed to upload file") && progress == Ticks(0, ticks))
      ensures isDragging == old(isDragging)
    {
      if f.None? {
        return;
      }
      var validationError := ValidateFile(f, accept, maxSize, maxSizeMB);
      if validationError.Some? {
        error := validationError;
        selectedFile := None;
        return;
      }
      error := None;
      selectedFile := f;
      UploadFile(f.value, succeeded, ticks);
    }

    /** `handleDrop`: the drag highlight ends, then the dropped file is
        handled as a chosen one. */
    method HandleDrop(f: Option<FileInfo>, succeeded: bool, ticks: nat)
      modifies this
      ensures !isDragging
      ensures f.None? ==>
                error == old(error) && selectedFile == old(selectedFile) && uploaded == old(uploaded)
                && progress == old(progress) && isUploading == old(isUploading)
      ensures f.Some? && ValidateFile(f, accept, maxSize, maxSizeMB).Some? ==>
                error == ValidateFile(f, accept, maxSize, maxSizeMB) && selectedFile.None?
                && uploaded == old(uploaded) && progress == old(progress) && isUploading == old(isUploading)
      ensures f.Some? && ValidateFile(f, accept, maxSize, maxSizeMB).None? ==>
                uploaded == old(uploaded) + [f.value] && !isUploading && selectedFile.None?
                && (succeeded ==> error.None? && progress == 100)
                && (!succeeded ==> error == Some("Failed to upload file") && progress == Ticks(0, ticks))
    {
      isDragging := false;
      HandleFileChange(f, succeeded, ticks);
    }

    method HandleDragOver()
      modifies this
      ensures isDragging
      ensures error == old(error) && uploaded == old(uploaded) && isUploading == old(isUploading)
      ensures progress == old(progress) && selectedFile == old(selectedFile)
    {
      isDragging := true;
    }

    method HandleDragLeave()
      modifies this
      ensures !isDragging
      ensures error == old(error) && uploaded == old(uploaded) && isUploading == old(isUploading)
      ensures progress == old(progress) && selectedFile == old(selectedFile)
    {
      isDragging := false;
    }

    /** `triggerFileInput`: the file picker opens unless disabled. */
    method TriggerFileInput() returns (opensPicker: bool)
      ensures opensPicker <==> !disabled
    {
      opensPicker := !disabled;
    }
  }
}
