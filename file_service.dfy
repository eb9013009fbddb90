// The upload store behind `FileService`: accepted extensions and their MIME
// types, the stored-name scheme, the size limit, lookup, deletion, prefix
// listing and the choice of text extractor. The upload directory is a map
// from joined path to file content.
module FileService {
  import opened Wrappers
  import opened Text
  import opened Numerals

  newtype Byte = x: int | 0 <= x < 256

  const MaxFileSize := 10 * 1024 * 1024
  const OctetStream := "application/octet-stream"

  /** `self.allowed_types`. */
  const AllowedTypes: map<String, String> := map[
    ".pdf" := "application/pdf",
    ".jpg" := "image/jpeg",
    ".jpeg" := "image/jpeg",
    ".png" := "image/png",
    ".txt" := "text/plain"]

  /** `allowed_types.get(ext, 'application/octet-stream')`. */
  function MimeOf(ext: String): (mime: String)
    ensures ext in AllowedTypes ==> mime == AllowedTypes[ext]
    ensures ext !in AllowedTypes ==> mime == OctetStream
  {
    if ext in AllowedTypes then AllowedTypes[ext] else OctetStream
  }

  /** True when `base` holds a character other than '.' before index `d`,
      i.e. the dot at `d` is not one of the component's leading dots. */
  predicate HasNonDotBefore(base: String, d: int)
  {
    exists i :: 0 <= i < d && i < |base| && base[i] != '.'
  }

  /** The extension `os.path.splitext` splits off: from the last '.' of the
      last path component, unless everything before that dot in the
      component is dots; otherwise empty. */
  function Ext(p: String): (ext: String)
    ensures IsSuffix(ext, p)
    ensures ext != [] ==> ext[0] == '.' && '.' !in ext[1..] && '/' !in ext
  {
    var base := LastField(p, '/');
    if '.' !in base then []
    else
      var tail := LastField(base, '.');
      ExtShape(p, base, tail, ['.'] + tail);
      if HasNonDotBefore(base, |base| - |tail| - 1) then ['.'] + tail else []
  }

  /** The candidate extension is a dot and a dot-free, slash-free tail that
      ends the path. */
  lemma {:induction false} ExtShape(p: String, base: String, tail: String, ext: String)
    requires base == LastField(p, '/') && '.' in base
    requires tail == LastField(base, '.') && ext == ['.'] + tail
    ensures IsSuffix(ext, p) && ext[0] == '.' && '.' !in ext[1..] && '/' !in ext
  {
    LastFieldAfterSep(base, '.');
    assert IsSuffix(base, p);
    SuffixTrans(ext, base, p);
    assert ext[1..] == tail;
  }

  /** `os.path.splitext(p)`: the root and the extension, which concatenate
      back to `p`. */
  function SplitExt(p: String): (r: (String, String))
    ensures r.0 + r.1 == p
    ensures r.1 == Ext(p)
  {
    var e := Ext(p);
    (p[..|p| - |e|], e)
  }

  /** Only the last dot of a slash-free name starts the extension, when
      something other than a dot comes before it. */
  lemma {:induction false} ExtOfLastDot(p: String, k: int)
    requires '/' !in p && 0 <= k < |p| && p[k] == '.' && '.' !in p[k + 1..]
    requires HasNonDotBefore(p, k)
    ensures Ext(p) == p[k..]
  {
    assert p[k..] == ['.'] + p[k + 1..];
    NoSepLastField(p, '/');
    LastFieldAt(p, '.', k);
  }

  /** A name whose last dot has only dots before it has no extension. */
  lemma {:induction false} ExtOfLeadingDots(p: String, k: int)
    requires '/' !in p && 0 <= k < |p| && p[k] == '.' && '.' !in p[k + 1..]
    requires forall i :: 0 <= i < k ==> p[i] == '.'
    ensures Ext(p) == []
  {
    NoSepLastField(p, '/');
    LastFieldAt(p, '.', k);
    assert !HasNonDotBefore(p, k);
  }

  /** `os.path.join(a, b)` on POSIX. */
  function Join(a: String, b: String): (r: String)
    ensures |b| > 0 && b[0] == '/' ==> r == b
    ensures IsSuffix(b, r)
  {
    if |b| > 0 && b[0] == '/' then b
    else if |a| == 0 || a[|a| - 1] == '/' then a + b
    else a + "/" + b
  }

  /** `f"quote_{quote_id}"` when `quote_id` is truthy, else `"temp"`. */
  function StoredPrefix(quoteId: Option<int>): String
  {
    if quoteId.Some? && quoteId.value != 0 then "quote_" + IntToString(quoteId.value) else "temp"
  }

  /** `f"{prefix}_{timestamp}{ext}"`. */
  function StoredName(quoteId: Option<int>, timestamp: String, ext: String): (r: String)
    ensures quoteId.Some? && quoteId.value != 0 ==> "quote_" + IntToString(quoteId.value) + "_" <= r
    ensures quoteId.None? || quoteId.value == 0 ==> "temp_" <= r
    ensures IsSuffix(ext, r)
  {
    StoredPrefix(quoteId) + "_" + timestamp + ext
  }

  /** The prefix `list_files(quote_id)` looks for. */
  function ListPrefix(quoteId: int): String
  {
    "quote_" + IntToString(quoteId) + "_"
  }

  /** A file stored for quote `a` is listed for quote `b` exactly when
      `a == b`: the '_' after the number keeps quote 1 from matching
      quote 10, and temporary files match no quote. */
  lemma {:induction false} ListedIffSameQuote(stored: Option<int>, timestamp: String, ext: String, b: int)
    ensures ListPrefix(b) <= StoredName(stored, timestamp, ext)
            <==> stored.Some? && stored.value != 0 && stored.value == b
  {
    var name := StoredName(stored, timestamp, ext);
    if stored.Some? && stored.value != 0 {
      var a := stored.value;
      if ListPrefix(b) <= name {
        assert name == "quote_" + IntToString(a) + "_" + (timestamp + ext);
        NumeralPrefixUnique(a, b, timestamp + ext);
      }
    } else {
      assert name[1] == 'e';
    }
  }

  /** "quote_<a>_..." starts with "quote_<b>_" only when a == b. */
  lemma {:induction false} NumeralPrefixUnique(a: int, b: int, rest: String)
    requires ListPrefix(b) <= "quote_" + IntToString(a) + "_" + rest
    ensures a == b
  {
    var A := IntToString(a);
    var B := IntToString(b);
    var name := "quote_" + A + "_" + rest;
    var pre := ListPrefix(b);
    assert pre[6..] == B + "_";
    assert name[6..] == A + "_" + rest;
    assert B + "_" <= A + "_" + rest;
    FieldPrefixUnique(A, B, rest);
    IntToStringInjective(a, b);
  }

  /** Two '_'-free fields each followed by '_': one prefixes the other only
      when they are equal. */
  lemma {:induction false} FieldPrefixUnique(A: String, B: String, rest: String)
    requires '_' !in A && '_' !in B
    requires B + "_" <= A + "_" + rest
    ensures A == B
  {
    assert (B + "_")[0] == (A + "_" + rest)[0];
    if |B| == 0 {
      assert |A| == 0;
    } else {
      assert (A + "_" + rest)[0] == if |A| > 0 then A[0] else '_';
      assert |A| > 0;
      assert (B + "_")[1..] == B[1..] + "_";
      assert (A + "_" + rest)[1..] == A[1..] + "_" + rest;
      FieldPrefixUnique(A[1..], B[1..], rest);
      assert A == [A[0]] + A[1..];
      assert B == [B[0]] + B[1..];
    }
  }

  /** `extract_text_from_file`'s choice of reader by extension. */
  datatype Extractor = PdfReader | Utf8Reader | Unsupported

  function ExtractorFor(path: String): (r: Extractor)
    ensures r == PdfReader <==> Ext(Lower(path)) == ".pdf"
    ensures r == Utf8Reader <==> Ext(Lower(path)) == ".txt"
  {
    var ext := Ext(Lower(path));
    if ext == ".pdf" then PdfReader else if ext == ".txt" then Utf8Reader else Unsupported
  }

  /** One entry of the `list_files` result. */
  datatype FileInfo = FileInfo(filename: String, path: String, size: nat)

  /** The names `list_files` keeps, in directory order. */
  function MatchingNames(listing: seq<String>, quoteId: int): (r: seq<String>)
    ensures |r| <= |listing|
    ensures forall n :: n in r <==> n in listing && ListPrefix(quoteId) <= n
  {
    if |listing| == 0 then []
    else
      var rest := MatchingNames(listing[1..], quoteId);
      if ListPrefix(quoteId) <= listing[0] then [listing[0]] + rest else rest
  }

  class FileStore {
    var uploadDir: String
    var files: map<String, seq<Byte>>

    /** `FileService(upload_dir)`; the directory may already hold files. */
    constructor (dir: String, existing: map<String, seq<Byte>>)
      ensures uploadDir == dir && files == existing
    {
      uploadDir := dir;
      files := existing;
    }

    /** `save_uploaded_file`. `filename` is the upload's name (an absent
        name makes `.lower()` raise), `timestamp` is `datetime.now()`
        formatted as "%Y%m%d_%H%M%S", and `writeFails` says whether opening
        or writing the file raises. Every failure returns `None` and writes
        nothing. */
    method SaveUploadedFile(filename: Option<String>, content: seq<Byte>, quoteId: Option<int>,
                            timestamp: String, writeFails: bool) returns (r: Option<String>)
      modifies this
      ensures uploadDir == old(uploadDir)
      ensures r.None? ==> files == old(files)
      ensures r.Some? <==> filename.Some? && Ext(Lower(filename.value)) in AllowedTypes
                           && |content| <= MaxFileSize && !writeFails
      ensures r.Some? ==>
                r.value == Join(uploadDir, StoredName(quoteId, timestamp, Ext(Lower(filename.value))))
                && files == old(files)[r.value := content]
    {
      if filename.None? {
        return None;
      }
      var lowered := Lower(filename.value);
      var ext := SplitExt(lowered).1;
      if ext !in AllowedTypes {
        return None;
      }
      var name := StoredName(quoteId, timestamp, ext);
      var path := Join(uploadDir, name);
      if |content| > MaxFileSize {
        return None;
      }
      if writeFails {
        return None;
      }
      files := files[path := content];
      return Some(path);
    }

    /** `extract_text_from_file`. `decoded` is what the chosen reader yields
        for the stored bytes (`None` when it raises). */
    function ExtractText(path: String, decoded: Option<String>): (r: Option<String>)
      reads this
      ensures path !in files ==> r.None?
      ensures ExtractorFor(path) == Unsupported ==> r.None?
      ensures path in files && ExtractorFor(path) != Unsupported ==> r == decoded
    {
      if path !in files then None
      else if ExtractorFor(path) == Unsupported then None
      else decoded
    }

    /** `get_file_path`. */
    function GetFilePath(filename: String): (r: Option<(String, String)>)
      reads this
      ensures r.Some? <==> Join(uploadDir, filename) in files
      ensures r.Some? ==> r.value.0 == Join(uploadDir, filename)
                          && r.value.1 == MimeOf(Ext(Lower(filename)))
    {
      var path := Join(uploadDir, filename);
      if path in files then Some((path, MimeOf(SplitExt(Lower(filename)).1))) else None
    }

    /** `delete_file`; `removeFails` says whether `os.remove` raises. */
    method DeleteFile(filename: String, removeFails: bool) returns (removed: bool)
      modifies this
      ensures uploadDir == old(uploadDir)
      ensures removed <==> Join(uploadDir, filename) in old(files) && !removeFails
      ensures removed ==> files == old(files) - {Join(uploadDir, filename)}
      ensures !removed ==> files == old(files)
    {
      var path := Join(uploadDir, filename);
      if path in files {
        if removeFails {
          return false;
        }
        files := files - {path};
        return true;
      }
      return false;
    }

    /** `list_files`. `listing` is `os.listdir(upload_dir)` (`None` when it
        raises); a matching name that is not a stored file makes `getsize`
        raise, which turns the whole answer into `[]`. */
    method ListFiles(quoteId: int, listing: Option<seq<String>>) returns (r: seq<FileInfo>)
      ensures listing.None? ==> r == []
      ensures listing.Some? ==>
                var names := MatchingNames(listing.value, quoteId);
                if forall n :: n in names ==> Join(uploadDir, n) in files then
                  |r| == |names|
                  && forall i :: 0 <= i < |r| ==> r[i] == Info(names[i])
                else r == []
    {
      if listing.None? {
        return [];
      }
      var all := listing.value;
      var acc: seq<FileInfo> := [];
      ghost var matched: seq<String> := [];
      var i := 0;
      while i < |all|
        invariant 0 <= i <= |all|
        invariant matched == MatchingNames(all[..i], quoteId)
        invariant forall n :: n in matched ==> Join(uploadDir, n) in files
        invariant |acc| == |matched|
        invariant forall j :: 0 <= j < |acc| ==> acc[j] == Info(matched[j])
      {
        var name := all[i];
        MatchingNamesStep(all, quoteId, i);
        if ListPrefix(quoteId) <= name {
          var path := Join(uploadDir, name);
          if path !in files {
            assert name in MatchingNames(all, quoteId);
            return [];
          }
          acc := acc + [FileInfo(name, path, |files[path]|)];
          matched := matched + [name];
        }
        i := i + 1;
      }
      assert all[..i] == all;
      return acc;
    }

    /** The `list_files` entry for a stored name. */
    function Info(name: String): FileInfo
      reads this
      requires Join(uploadDir, name) in files
    {
      FileInfo(name, Join(uploadDir, name), |files[Join(uploadDir, name)]|)
    }
  }

  /** Scanning one more name of the listing. */
  lemma {:induction false} MatchingNamesStep(all: seq<String>, quoteId: int, i: int)
    requires 0 <= i < |all|
    ensures MatchingNames(all[..i + 1], quoteId) ==
              MatchingNames(all[..i], quoteId) + (if ListPrefix(quoteId) <= all[i] then [all[i]] else [])
  {
    MatchingNamesAppend(all[..i], [all[i]], quoteId);
    assert all[..i] + [all[i]] == all[..i + 1];
  }

  lemma {:induction false} MatchingNamesAppend(a: seq<String>, b: seq<String>, quoteId: int)
    ensures MatchingNames(a + b, quoteId) == MatchingNames(a, quoteId) + MatchingNames(b, quoteId)
  {
    if |a| > 0 {
      assert (a + b)[1..] == a[1..] + b;
      MatchingNamesAppend(a[1..], b, quoteId);
    } else {
      assert a + b == b;
    }
  }
}
