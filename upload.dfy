/** server/middleware/uploadMiddleware.js: the multer configuration that accepts one `.txt`
    or `.docx` upload of at most 5 MB, names the stored file, and turns upload errors into
    400 responses. */
module Upload {
  import opened Text

  const TextPlainType: string := "text/plain"
  const WordDocumentType: string := "application/vnd.openxmlformats-officedocument.wordprocessingml.document"

  /** `limits.fileSize`, in bytes. */
  const MaxFileSize: nat := 5 * 1024 * 1024

  /** The message of the error `fileFilter` raises. */
  const InvalidTypeMessage: string := "Invalid file type. Only .txt and .docx files are allowed."

  // ----- path.extname -----

  /** The last index of `c` in `s`, or -1. */
  function LastIndexOf(s: string, c: char): (r: int)
    ensures -1 <= r < |s|
    ensures r >= 0 ==> s[r] == c
    ensures forall k :: r < k < |s| ==> s[k] != c
  {
    if s == [] then -1
    else if s[|s| - 1] == c then |s| - 1
    else LastIndexOf(s[..|s| - 1], c)
  }

  function StripTrailingSlashes(s: string): (r: string)
    ensures |r| <= |s| && r == s[..|r|]
    ensures r == [] || r[|r| - 1] != '/'
  {
    if s != [] && s[|s| - 1] == '/' then StripTrailingSlashes(s[..|s| - 1]) else s
  }

  /** The last path segment, after trailing slashes are dropped. */
  function LastSegment(s: string): string {
    var p := StripTrailingSlashes(s);
    p[LastIndexOf(p, '/') + 1..]
  }

  /** `path.extname` (POSIX): from the last `.` of the last segment to its end, or "" when
      the segment has no `.`, begins with its only run of leading dots, or is `..`. */
  function Extname(name: string): string {
    var seg := LastSegment(name);
    var d := LastIndexOf(seg, '.');
    if d <= 0 || seg == ".." then "" else seg[d..]
  }

  /** An extension is "" or a `.` followed by text holding neither `.` nor `/`. */
  predicate IsExtension(e: string) {
    e == [] || (e[0] == '.' && forall k :: 1 <= k < |e| ==> e[k] != '.' && e[k] != '/')
  }

  lemma ExtnameIsExtension(name: string)
    ensures IsExtension(Extname(name))
    ensures Extname(name) != [] ==> Extname(name) == LastSegment(name)[|LastSegment(name)| - |Extname(name)|..]
  {
    var p := StripTrailingSlashes(name);
    var seg := LastSegment(name);
    var d := LastIndexOf(seg, '.');
    assert forall k :: 0 <= k < |seg| ==> seg[k] == p[LastIndexOf(p, '/') + 1 + k];
  }

  predicate Avoids(s: string, c: char) {
    forall k :: 0 <= k < |s| ==> s[k] != c
  }

  /** A name without `/` is its own last segment. */
  lemma SegmentOfSlashFree(p: string)
    requires Avoids(p, '/')
    ensures LastSegment(p) == p
  {
    assert StripTrailingSlashes(p) == p;
    assert p[0..] == p;
  }

  /** A name made of a stem without `/` and a non-empty extension has that extension. */
  lemma {:induction false} ExtnameOfStemAndExtension(stem: string, ext: string)
    requires stem != [] && Avoids(stem, '/')
    requires ext != [] && IsExtension(ext)
    requires stem + ext != ".."
    ensures Extname(stem + ext) == ext
  {
    var p := stem + ext;
    assert forall k :: |stem| <= k < |p| ==> p[k] == ext[k - |stem|];
    assert Avoids(p, '/') by {
      forall k | 0 <= k < |p| ensures p[k] != '/' {
        if k < |stem| {
          assert p[k] == stem[k];
        }
      }
    }
    SegmentOfSlashFree(p);
    assert p[|stem|] == '.';
    assert LastIndexOf(p, '.') == |stem|;
    assert p[|stem|..] == ext;
  }

  // ----- fileFilter -----

  const AllowedTypes: seq<string> := [TextPlainType, WordDocumentType]
  const AllowedExtensions: seq<string> := [".txt", ".docx"]

  datatype FilterResult = Accepted | Rejected(message: string)

  function FileFilter(mimetype: string, originalname: string): FilterResult {
    if mimetype in AllowedTypes && ToLowerAscii(Extname(originalname)) in AllowedExtensions then Accepted
    else Rejected(InvalidTypeMessage)
  }

  /** A `.txt` or `.docx` name with its declared type passes, whatever the case of the
      extension. */
  lemma FileFilterAccepts(mimetype: string, stem: string, ext: string)
    requires stem != [] && Avoids(stem, '/')
    requires ext != [] && IsExtension(ext) && stem + ext != ".."
    requires (ToLowerAscii(ext) == ".txt" && mimetype == TextPlainType)
             || (ToLowerAscii(ext) == ".docx" && mimetype == WordDocumentType)
    ensures FileFilter(mimetype, stem + ext) == Accepted
  {
    ExtnameOfStemAndExtension(stem, ext);
  }

  /** Any other type is refused, whatever the name. */
  lemma FileFilterRejectsType(mimetype: string, originalname: string)
    requires mimetype != TextPlainType && mimetype != WordDocumentType
    ensures FileFilter(mimetype, originalname) == Rejected(InvalidTypeMessage)
  {
  }

  /** A name without an extension is refused, whatever the type. */
  lemma FileFilterRejectsBareName(mimetype: string, name: string)
    requires Avoids(name, '.') && Avoids(name, '/')
    ensures FileFilter(mimetype, name) == Rejected(InvalidTypeMessage)
  {
    DotFreeHasNoExtension(name);
    var lowered := ToLowerAscii(Extname(name));
    assert |lowered| == 0;
    assert lowered !in AllowedExtensions by {
      assert |AllowedExtensions[0]| == 4 && |AllowedExtensions[1]| == 5;
    }
  }

  lemma DotFreeHasNoExtension(name: string)
    requires Avoids(name, '.') && Avoids(name, '/')
    ensures Extname(name) == ""
  {
    SegmentOfSlashFree(name);
  }

  // ----- storage.filename -----

  /** The `-` and `uniqueSuffix` between the field name and the extension: the clock, a `-`
      and the rounded random number. */
  function UniqueSuffix(now: nat, random: nat): string {
    "-" + NatToString(now) + "-" + NatToString(random)
  }

  /** `file.fieldname + '-' + Date.now() + '-' + Math.round(Math.random() * 1E9) +
      path.extname(file.originalname)`, with the clock and the random draw as parameters. */
  function StoredName(fieldname: string, now: nat, random: nat, originalname: string): string
    requires random <= 1000000000
  {
    fieldname + UniqueSuffix(now, random) + Extname(originalname)
  }

  lemma DigitsAvoid(s: string, c: char)
    requires forall k :: 0 <= k < |s| ==> IsDigit(s[k])
    requires !IsDigit(c)
    ensures Avoids(s, c)
  {
  }

  lemma AvoidsConcat(a: string, b: string, c: char)
    requires Avoids(a, c) && Avoids(b, c)
    ensures Avoids(a + b, c)
  {
    forall k | 0 <= k < |a + b| ensures (a + b)[k] != c {
      if k >= |a| {
        assert (a + b)[k] == b[k - |a|];
      }
    }
  }

  /** The part of the stored name after the field name: two numbers, each after a `-`. */
  lemma {:induction false} SuffixAvoids(now: nat, random: nat, c: char)
    requires c == '/' || c == '.'
    ensures Avoids(UniqueSuffix(now, random), c)
  {
    DigitsAvoid(NatToString(now), c);
    DigitsAvoid(NatToString(random), c);
    AvoidsConcat("-", NatToString(now), c);
    AvoidsConcat("-" + NatToString(now), "-", c);
    AvoidsConcat("-" + NatToString(now) + "-", NatToString(random), c);
  }

  /** The stored file keeps the extension of the uploaded name, so a file that passed the
      filter still ends in `.txt` or `.docx`; when the field name has no `.`, this holds for
      a name without an extension too. */
  lemma {:induction false} StoredNameKeepsExtension(fieldname: string, now: nat, random: nat, originalname: string)
    requires random <= 1000000000
    requires Avoids(fieldname, '/')
    ensures Extname(originalname) != [] ==> Extname(StoredName(fieldname, now, random, originalname)) == Extname(originalname)
    ensures Avoids(fieldname, '.') ==> Extname(StoredName(fieldname, now, random, originalname)) == Extname(originalname)
  {
    var suffix := UniqueSuffix(now, random);
    var stem := fieldname + suffix;
    var ext := Extname(originalname);
    ExtnameIsExtension(originalname);
    assert StoredName(fieldname, now, random, originalname) == stem + ext;
    SuffixAvoids(now, random, '/');
    AvoidsConcat(fieldname, suffix, '/');
    if ext == [] {
      assert stem + ext == stem;
      if Avoids(fieldname, '.') {
        SuffixAvoids(now, random, '.');
        AvoidsConcat(fieldname, suffix, '.');
        SegmentOfSlashFree(stem);
      }
    } else {
      assert stem[|fieldname|] == '-';
      assert (stem + ext)[|fieldname|] == '-';
      ExtnameOfStemAndExtension(stem, ext);
    }
  }

  // ----- the configured multer instance and handleUploadError -----

  datatype UploadError = MulterError(code: string, message: string) | PlainError(message: string)

  datatype UploadResult = Stored(filename: string) | UploadFailed(error: UploadError)

  /** One file part of a `single(expected)` upload: a part under another field name is
      unexpected; otherwise the filter runs first and the size limit next. */
  function Receive(fieldname: string, expected: string, mimetype: string, originalname: string, size: nat,
                   now: nat, random: nat): UploadResult
    requires random <= 1000000000
  {
    if fieldname != expected then UploadFailed(MulterError("LIMIT_UNEXPECTED_FILE", "Unexpected field"))
    else match FileFilter(mimetype, originalname)
      case Rejected(message) => UploadFailed(PlainError(message))
      case Accepted =>
        if size > MaxFileSize then UploadFailed(MulterError("LIMIT_FILE_SIZE", "File too large"))
        else Stored(StoredName(fieldname, now, random, originalname))
  }

  datatype ErrorReply = Reply(status: nat, error: string, message: string) | PassOn(err: UploadError)

  function HandleUploadError(err: UploadError): ErrorReply {
    if err.MulterError? && err.code == "LIMIT_FILE_SIZE" then
      Reply(400, "File too large", "File size should be less than 5MB")
    else if err.MulterError? && err.code == "LIMIT_UNEXPECTED_FILE" then
      Reply(400, "Unexpected file field", "Only one file is allowed")
    else if err.message == InvalidTypeMessage then
      Reply(400, "Invalid file type", "Only .txt and .docx files are allowed")
    else PassOn(err)
  }

  /** Every error this upload configuration raises is answered with a 400 and is never
      passed on; a file that is stored passed the filter and the size limit. */
  lemma UploadOutcomes(fieldname: string, expected: string, mimetype: string, originalname: string, size: nat,
                       now: nat, random: nat)
    requires random <= 1000000000
    ensures var r := Receive(fieldname, expected, mimetype, originalname, size, now, random);
      r.UploadFailed? ==> HandleUploadError(r.error).Reply? && HandleUploadError(r.error).status == 400
    ensures var r := Receive(fieldname, expected, mimetype, originalname, size, now, random);
      r.Stored? <==> fieldname == expected && FileFilter(mimetype, originalname) == Accepted && size <= MaxFileSize
    ensures var r := Receive(fieldname, expected, mimetype, originalname, size, now, random);
      fieldname == expected && FileFilter(mimetype, originalname) == Accepted && size > MaxFileSize ==>
      HandleUploadError(r.error) == Reply(400, "File too large", "File size should be less than 5MB")
  {
  }

  /** An error raised elsewhere goes on to the next handler unchanged. */
  lemma OtherErrorsPassOn(message: string)
    requires message != InvalidTypeMessage
    ensures HandleUploadError(PlainError(message)) == PassOn(PlainError(message))
    ensures HandleUploadError(MulterError("LIMIT_PART_COUNT", message)) == PassOn(MulterError("LIMIT_PART_COUNT", message))
  {
  }
}
