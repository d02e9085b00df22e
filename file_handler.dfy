/** The upload gate of utils/file_handler.py: the validation chain of validate_file, with the
    pathlib suffix rule that derives a file's extension, and the extension dispatch of
    extract_text. The PDF, DOCX, DOC and TXT readers are foreign libraries: what each one
    returns is a parameter here. */
module FileHandler {
  import opened Strings
  import opened Seqs
  import Config

  /** The upload limit in bytes: MAX_FILE_SIZE_MB megabytes. */
  const MaxFileSize: nat := Config.MaxFileSizeMB * 1024 * 1024

  /** What the checks read of an uploaded file: its name and its size in bytes. */
  datatype UploadedFile = UploadedFile(name: string, size: nat)

  // ---------------------------------------------------------------------------------------------
  // Path(name).suffix.lower()

  /** The position of the last occurrence of c in s (str.rfind), if any. */
  function LastIndex(s: string, c: char): (r: Option<nat>)
    ensures r.None? <==> c !in s
    ensures r.Some? ==> r.value < |s| && s[r.value] == c && c !in s[r.value + 1..]
  {
    if s == [] then None
    else if s[|s| - 1] == c then Some(|s| - 1)
    else
      var r := LastIndex(s[..|s| - 1], c);
      assert s == s[..|s| - 1] + [s[|s| - 1]];
      if r.Some? then
        assert s[r.value + 1..] == s[..|s| - 1][r.value + 1..] + [s[|s| - 1]];
        r
      else r
  }

  /** The last occurrence is the one with no further occurrence after it. */
  lemma LastIndexAt(s: string, c: char, i: nat)
    requires i < |s| && s[i] == c && c !in s[i + 1..]
    ensures LastIndex(s, c) == Some(i)
  {
    assert c in s;

  }

  /** Path(p).name on a POSIX path: the last component that is neither empty nor ".". Empty and "."
      components are dropped when pathlib parses a path, so trailing slashes do not count. */
  function FinalName(path: string): (r: string)
    ensures '/' !in r && r != "."
  {
    LastComponent(Split(path, '/'))
  }

  function LastComponent(parts: seq<string>): (r: string)
    requires forall k | 0 <= k < |parts| :: '/' !in parts[k]
    ensures '/' !in r && r != "."
    ensures r == "" || r in parts
  {
    if parts == [] then ""
    else
      var last := parts[|parts| - 1];
      if last != "" && last != "." then last else LastComponent(parts[..|parts| - 1])
  }

  /** PurePath.suffix: from the last dot of the name to its end, provided that dot is neither the
      first nor the last character of the name; otherwise nothing. */
  function Suffix(name: string): string {
    match LastIndex(name, '.')
    case Some(i) => if 0 < i < |name| - 1 then name[i..] else ""
    case None => ""
  }

  /** The extension validate_file and extract_text compare: the suffix of the final name, lower-cased. */
  function FileExtension(fileName: string): string {
    Lower(Suffix(FinalName(fileName)))
  }

  /** A suffix is a dot followed by at least one character and no further dot, it ends the name and
      it leaves a non-empty stem; there is none exactly when the name has no dot after its first
      character or ends in a dot. */
  lemma SuffixShape(name: string)
    ensures var x := Suffix(name);
      && (x != "" ==>
            && 2 <= |x| < |name| && x[0] == '.' && '.' !in x[1..]
            && name == name[..|name| - |x|] + x)
      && (x == "" <==> name == "" || '.' !in name[1..] || name[|name| - 1] == '.')
  {
    var x := Suffix(name);
    match LastIndex(name, '.')
    case None =>
      assert '.' !in name;
      if name != "" {
        assert forall k | 0 <= k < |name[1..]| :: name[1..][k] == name[k + 1];
      }
    case Some(i) =>
      if 0 < i < |name| - 1 {
        assert x == name[i..];
        assert x[1..] == name[i + 1..];
        assert name[..|name| - |x|] + x == name;
        assert name[1..][i - 1] == '.';
      } else if name != "" && i == 0 {
        assert forall k | 0 <= k < |name[1..]| :: name[1..][k] == name[k + 1];
        assert '.' !in name[1..];
      }
  }

  /** A path without a separator is its own single component. */
  lemma {:induction false} SplitWithoutSeparator(s: string, sep: char)
    requires sep !in s
    ensures Split(s, sep) == [s]
  {
    if s != [] {
      SplitWithoutSeparator(s[1..], sep);
      assert [s[0]] + s[1..] == s;
    }
  }

  /** A bare file name is its own final name. */
  lemma BareName(name: string)
    requires '/' !in name && name != "" && name != "."
    ensures FinalName(name) == name
  {
    SplitWithoutSeparator(name, '/');
  }

  /** The last dot wins and the case is folded: a name made of a non-empty stem and a dotted tail
      without further dots has the lower-cased tail as its extension ("cv.backup.DOCX" gives
      ".docx"). */
  lemma ExtensionIsLastDottedTail(stem: string, tail: string)
    requires stem != "" && '/' !in stem + tail
    requires |tail| >= 2 && tail[0] == '.' && '.' !in tail[1..]
    ensures FileExtension(stem + tail) == Lower(tail)
  {
    var name := stem + tail;
    var i := |stem|;
    assert name[i] == '.';
    assert name[i..] == tail;
    assert name[i + 1..] == tail[1..];
    assert name != "." by { assert |name| >= 3; }
    BareName(name);
    LastIndexAt(name, '.', i);
  }

  /** A leading dot that is the only one (".txt", a hidden name) and a trailing dot ("resume.")
      both leave a bare name without extension. */
  lemma NoExtension(name: string)
    requires '/' !in name && name != "" && name != "."
    requires '.' !in name[1..] || name[|name| - 1] == '.'
    ensures FileExtension(name) == ""
  {
    BareName(name);
    SuffixShape(name);
  }

  /** Splitting a + sep + b where b holds no separator ends with the component b. */
  lemma {:induction false} SplitEndsWith(a: string, sep: char, b: string)
    requires sep !in b
    ensures var parts := Split(a + [sep] + b, sep); |parts| >= 2 && parts[|parts| - 1] == b
  {
    var x := a + [sep] + b;
    if a == [] {
      SplitWithoutSeparator(b, sep);
      assert x[1..] == b;
    } else {
      SplitEndsWith(a[1..], sep, b);
      assert x[1..] == a[1..] + [sep] + b;
    }
  }

  /** The directory part is ignored: "uploads/cv.txt" has the final name "cv.txt". */
  lemma DirectoryIgnored(directory: string, name: string)
    requires '/' !in name && name != "" && name != "."
    ensures FinalName(directory + "/" + name) == name
    ensures FileExtension(directory + "/" + name) == FileExtension(name)
  {
    SplitEndsWith(directory, '/', name);
    BareName(name);
  }

  // ---------------------------------------------------------------------------------------------
  // validate_file

  /** validate_file's verdict and message. The upload is None, too large, of an unsupported type,
      or valid; the checks run in that order and the first failure decides the message. */
  function ValidateFile(upload: Option<UploadedFile>): (r: (bool, string))
    ensures r.0 <==> upload.Some? && upload.value.size <= MaxFileSize
                     && FileExtension(upload.value.name) in Config.AllowedExtensions
  {
    if upload.None? then (false, "No file uploaded")
    else if upload.value.size > MaxFileSize then
      (false, "File size exceeds " + NatToString(Config.MaxFileSizeMB) + "MB limit")
    else
      var extension := FileExtension(upload.value.name);
      if extension !in Config.AllowedExtensions then
        (false, "File type " + extension + " not supported. Allowed types: "
                + Join(Config.AllowedExtensions, ", "))
      else (true, "File is valid")
  }

  /** The messages for a missing, an oversized and an accepted upload, with the configured limit
      written out. */
  lemma ValidationMessages(upload: Option<UploadedFile>)
    ensures upload.None? ==> ValidateFile(upload).1 == "No file uploaded"
    ensures upload.Some? && upload.value.size > 10485760 ==>
      ValidateFile(upload).1 == "File size exceeds 10MB limit"
    ensures ValidateFile(upload).0 ==> ValidateFile(upload).1 == "File is valid"
  {
    LimitText();
  }

  /** The message for an unsupported type names the extension and lists the allowed ones. */
  lemma UnsupportedTypeMessage(upload: Option<UploadedFile>)
    requires upload.Some? && upload.value.size <= 10485760
    requires FileExtension(upload.value.name) !in [".pdf", ".docx", ".doc", ".txt"]
    ensures ValidateFile(upload).1 == "File type " + FileExtension(upload.value.name)
                                      + " not supported. Allowed types: " + ".pdf, .docx, .doc, .txt"
  {
    LimitText();
    AllowedList();
  }

  lemma LimitText()
    ensures MaxFileSize == 10485760
    ensures NatToString(Config.MaxFileSizeMB) == "10"
  {
    assert NatToString(1) == "1";
  }

  lemma AllowedList()
    ensures Join(Config.AllowedExtensions, ", ") == ".pdf, .docx, .doc, .txt"
  {
    var xs := Config.AllowedExtensions;
    assert xs[1..] == [".docx", ".doc", ".txt"];
    assert xs[1..][1..] == [".doc", ".txt"];
    assert xs[1..][1..][1..] == [".txt"];
  }

  /** The limit is inclusive: a supported file of exactly ten megabytes passes, one byte more fails
      on size, and size is checked before the extension. */
  lemma SizeLimitInclusive(name: string)
    ensures FileExtension(name) in Config.AllowedExtensions ==>
      ValidateFile(Some(UploadedFile(name, 10 * 1024 * 1024))).0
    ensures ValidateFile(Some(UploadedFile(name, 10 * 1024 * 1024 + 1))).1 == "File size exceeds 10MB limit"
  {
    ValidationMessages(Some(UploadedFile(name, 10 * 1024 * 1024 + 1)));
  }

  // ---------------------------------------------------------------------------------------------
  // extract_text

  /** The text readers extract_text chooses between. */
  datatype Extractor = PdfReader | DocxReader | DocReader | TxtReader

  /** The reader for an extension, if the extension is one of the four handled. */
  function ExtractorFor(extension: string): (r: Option<Extractor>)
    ensures r.Some? <==> extension in Config.AllowedExtensions
  {
    if extension == ".pdf" then Some(PdfReader)
    else if extension == ".docx" then Some(DocxReader)
    else if extension == ".doc" then Some(DocReader)
    else if extension == ".txt" then Some(TxtReader)
    else None
  }

  /** Each handled extension has its own reader. */
  lemma ExtractorsDistinct(a: string, b: string)
    requires ExtractorFor(a).Some? && ExtractorFor(a) == ExtractorFor(b)
    ensures a == b
  {
  }

  /** extract_text: `read(e)` is what reader e returns for this upload. No upload and an unhandled
      extension both give the empty text. */
  function ExtractText(upload: Option<UploadedFile>, read: Extractor -> string): (r: string)
    ensures upload.None? ==> r == ""
    ensures upload.Some? ==>
      match ExtractorFor(FileExtension(upload.value.name))
      case Some(e) => r == read(e)
      case None => r == ""
  {
    if upload.None? then ""
    else
      match ExtractorFor(FileExtension(upload.value.name))
      case Some(e) => read(e)
      case None => ""
  }

  /** Every upload that passes validation reaches a reader: the dispatch covers the whitelist. */
  lemma ValidUploadIsRead(upload: Option<UploadedFile>, read: Extractor -> string)
    requires ValidateFile(upload).0
    ensures ExtractorFor(FileExtension(upload.value.name)).Some?
    ensures ExtractText(upload, read) == read(ExtractorFor(FileExtension(upload.value.name)).value)
  {
  }
}
