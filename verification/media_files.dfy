/** The window's file-name rules for downloaded media: the MIME type and
    extension tables, name sanitising, and the choice of a name not yet taken
    in the download folder. */
module MediaFiles {
  import opened Wrappers
  import opened Text

  /** The MIME types the extension table has a row for. */
  const MimeTypes: set<string> := {
    "image/jpeg", "image/jpg", "image/png", "image/gif", "image/webp",
    "video/mp4", "video/avi", "video/mov", "video/wmv",
    "audio/mp3", "audio/wav", "audio/ogg",
    "application/pdf", "application/msword",
    "application/vnd.openxmlformats-officedocument.wordprocessingml.document"}

  /** The extensions the MIME table has a row for. */
  const Extensions: set<string> := {
    ".jpg", ".jpeg", ".png", ".gif", ".webp", ".mp4", ".avi", ".mov", ".wmv",
    ".mp3", ".wav", ".ogg", ".pdf", ".doc", ".docx"}

  /** `GetFileExtension`: the extension for a MIME type, case-insensitively;
      ".bin" exactly for a type the table has no row for. */
  function GetFileExtension(mediaType: string): (r: string)
    ensures Clean(r)
    ensures r == ".bin" <==> Lower(mediaType) !in MimeTypes
    ensures r != ".bin" ==> r in Extensions
  {
    ExtensionSwitchRange(Lower(mediaType));
    ExtensionSwitch(Lower(mediaType))
  }

  /** The switch maps the table's types into its extensions and everything
      else to ".bin". */
  lemma ExtensionSwitchRange(m: string)
    ensures ExtensionSwitch(m) == ".bin" <==> m !in MimeTypes
    ensures ExtensionSwitch(m) != ".bin" ==> ExtensionSwitch(m) in Extensions
  {
  }

  /** The switch of `GetFileExtension` over the lower-cased MIME type. */
  function ExtensionSwitch(m: string): (r: string)
    ensures Clean(r)
  {
    if m == "image/jpeg" || m == "image/jpg" then ".jpg"
    else if m == "image/png" then ".png"
    else if m == "image/gif" then ".gif"
    else if m == "image/webp" then ".webp"
    else if m == "video/mp4" then ".mp4"
    else if m == "video/avi" then ".avi"
    else if m == "video/mov" then ".mov"
    else if m == "video/wmv" then ".wmv"
    else if m == "audio/mp3" then ".mp3"
    else if m == "audio/wav" then ".wav"
    else if m == "audio/ogg" then ".ogg"
    else if m == "application/pdf" then ".pdf"
    else if m == "application/msword" then ".doc"
    else if m == "application/vnd.openxmlformats-officedocument.wordprocessingml.document" then ".docx"
    else ".bin"
  }

  /** `GetMediaTypeFromExtension`: the MIME type for an extension,
      case-insensitively; "application/octet-stream" exactly for an extension
      the table has no row for. */
  function GetMediaTypeFromExtension(extension: string): (r: string)
    ensures r == "application/octet-stream" <==> Lower(extension) !in Extensions
    ensures r != "application/octet-stream" ==> r in MimeTypes
  {
    MediaTypeSwitchRange(Lower(extension));
    MediaTypeSwitch(Lower(extension))
  }

  /** The switch maps the table's extensions into its types and everything
      else to "application/octet-stream". */
  lemma MediaTypeSwitchRange(e: string)
    ensures MediaTypeSwitch(e) == "application/octet-stream" <==> e !in Extensions
    ensures MediaTypeSwitch(e) != "application/octet-stream" ==> MediaTypeSwitch(e) in MimeTypes
  {
  }

  /** The switch of `GetMediaTypeFromExtension` over the lower-cased extension. */
  function MediaTypeSwitch(e: string): string {
    if e == ".jpg" || e == ".jpeg" then "image/jpeg"
    else if e == ".png" then "image/png"
    else if e == ".gif" then "image/gif"
    else if e == ".webp" then "image/webp"
    else if e == ".mp4" then "video/mp4"
    else if e == ".avi" then "video/avi"
    else if e == ".mov" then "video/mov"
    else if e == ".wmv" then "video/wmv"
    else if e == ".mp3" then "audio/mp3"
    else if e == ".wav" then "audio/wav"
    else if e == ".ogg" then "audio/ogg"
    else if e == ".pdf" then "application/pdf"
    else if e == ".doc" then "application/msword"
    else if e == ".docx" then "application/vnd.openxmlformats-officedocument.wordprocessingml.document"
    else "application/octet-stream"
  }

  /** Unmapped keys fall back to ".bin" and "application/octet-stream". */
  lemma UnmappedFallBack(mediaType: string, extension: string)
    ensures Lower(mediaType) !in MimeTypes ==> GetFileExtension(mediaType) == ".bin"
    ensures Lower(extension) !in Extensions ==> GetMediaTypeFromExtension(extension) == "application/octet-stream"
  {
  }

  /** "image/jpeg" and "image/jpg", in any case, share ".jpg"; ".jpg" and
      ".jpeg" share "image/jpeg". */
  lemma JpegAliases(mediaType: string, extension: string)
    ensures Lower(mediaType) in {"image/jpeg", "image/jpg"} ==> GetFileExtension(mediaType) == ".jpg"
    ensures Lower(extension) in {".jpg", ".jpeg"} ==> GetMediaTypeFromExtension(extension) == "image/jpeg"
  {
  }

  /** The MIME types of the table, in its order, without the alias
      "image/jpg". */
  function MimeRow(i: nat): string
    requires i < 14
  {
    if i == 0 then "image/jpeg"
    else if i == 1 then "image/png"
    else if i == 2 then "image/gif"
    else if i == 3 then "image/webp"
    else if i == 4 then "video/mp4"
    else if i == 5 then "video/avi"
    else if i == 6 then "video/mov"
    else if i == 7 then "video/wmv"
    else if i == 8 then "audio/mp3"
    else if i == 9 then "audio/wav"
    else if i == 10 then "audio/ogg"
    else if i == 11 then "application/pdf"
    else if i == 12 then "application/msword"
    else "application/vnd.openxmlformats-officedocument.wordprocessingml.document"
  }

  lemma RowJpeg()
    ensures ExtensionSwitch("image/jpeg") == ".jpg" && MediaTypeSwitch(Lower(".jpg")) == "image/jpeg"
  {
    assert ExtensionSwitch("image/jpeg") == ".jpg";
    LowerPointwise(".jpg");
    assert Lower(".jpg") == ".jpg";
  }
  lemma RowPng()
    ensures ExtensionSwitch("image/png") == ".png" && MediaTypeSwitch(Lower(".png")) == "image/png"
  {
    assert ExtensionSwitch("image/png") == ".png";
    LowerPointwise(".png");
    assert Lower(".png") == ".png";
  }
  lemma RowGif()
    ensures ExtensionSwitch("image/gif") == ".gif" && MediaTypeSwitch(Lower(".gif")) == "image/gif"
  {
    assert ExtensionSwitch("image/gif") == ".gif";
    LowerPointwise(".gif");
    assert Lower(".gif") == ".gif";
  }
  lemma RowWebp()
    ensures ExtensionSwitch("image/webp") == ".webp" && MediaTypeSwitch(Lower(".webp")) == "image/webp"
  {
    assert ExtensionSwitch("image/webp") == ".webp";
    LowerPointwise(".webp");
    assert Lower(".webp") == ".webp";
  }
  lemma RowMp4()
    ensures ExtensionSwitch("video/mp4") == ".mp4" && MediaTypeSwitch(Lower(".mp4")) == "video/mp4"
  {
    assert ExtensionSwitch("video/mp4") == ".mp4";
    LowerPointwise(".mp4");
    assert Lower(".mp4") == ".mp4";
  }
  lemma RowAvi()
    ensures ExtensionSwitch("video/avi") == ".avi" && MediaTypeSwitch(Lower(".avi")) == "video/avi"
  {
    assert ExtensionSwitch("video/avi") == ".avi";
    LowerPointwise(".avi");
    assert Lower(".avi") == ".avi";
  }
  lemma RowMov()
    ensures ExtensionSwitch("video/mov") == ".mov" && MediaTypeSwitch(Lower(".mov")) == "video/mov"
  {
    assert ExtensionSwitch("video/mov") == ".mov";
    LowerPointwise(".mov");
    assert Lower(".mov") == ".mov";
  }
  lemma RowWmv()
    ensures ExtensionSwitch("video/wmv") == ".wmv" && MediaTypeSwitch(Lower(".wmv")) == "video/wmv"
  {
    assert ExtensionSwitch("video/wmv") == ".wmv";
    LowerPointwise(".wmv");
    assert Lower(".wmv") == ".wmv";
  }
  lemma RowMp3()
    ensures ExtensionSwitch("audio/mp3") == ".mp3" && MediaTypeSwitch(Lower(".mp3")) == "audio/mp3"
  {
    assert ExtensionSwitch("audio/mp3") == ".mp3";
    LowerPointwise(".mp3");
    assert Lower(".mp3") == ".mp3";
  }
  lemma RowWav()
    ensures ExtensionSwitch("audio/wav") == ".wav" && MediaTypeSwitch(Lower(".wav")) == "audio/wav"
  {
    assert ExtensionSwitch("audio/wav") == ".wav";
    LowerPointwise(".wav");
    assert Lower(".wav") == ".wav";
  }
  lemma RowOgg()
    ensures ExtensionSwitch("audio/ogg") == ".ogg" && MediaTypeSwitch(Lower(".ogg")) == "audio/ogg"
  {
    assert ExtensionSwitch("audio/ogg") == ".ogg";
    LowerPointwise(".ogg");
    assert Lower(".ogg") == ".ogg";
  }
  lemma RowPdf()
    ensures ExtensionSwitch("application/pdf") == ".pdf" && MediaTypeSwitch(Lower(".pdf")) == "application/pdf"
  {
    assert ExtensionSwitch("application/pdf") == ".pdf";
    LowerPointwise(".pdf");
    assert Lower(".pdf") == ".pdf";
  }
  lemma RowDoc()
    ensures ExtensionSwitch("application/msword") == ".doc" && MediaTypeSwitch(Lower(".doc")) == "application/msword"
  {
    assert ExtensionSwitch("application/msword") == ".doc";
    LowerPointwise(".doc");
    assert Lower(".doc") == ".doc";
  }
  lemma RowDocx()
    ensures ExtensionSwitch("application/vnd.openxmlformats-officedocument.wordprocessingml.document") == ".docx" && MediaTypeSwitch(Lower(".docx")) == "application/vnd.openxmlformats-officedocument.wordprocessingml.document"
  {
    assert ExtensionSwitch("application/vnd.openxmlformats-officedocument.wordprocessingml.document") == ".docx";
    LowerPointwise(".docx");
    assert Lower(".docx") == ".docx";
  }

  /** Every MIME type of the table except the alias "image/jpg", in any
      case, comes back from the trip to an extension and back as its
      lower-case spelling. */
  lemma MimeRoundTrip(m: string, i: nat)
    requires i < 14 && Lower(m) == MimeRow(i)
    ensures GetMediaTypeFromExtension(GetFileExtension(m)) == MimeRow(i)
  {
    if i == 0 { RowJpeg(); }
    else if i == 1 { RowPng(); }
    else if i == 2 { RowGif(); }
    else if i == 3 { RowWebp(); }
    else if i == 4 { RowMp4(); }
    else if i == 5 { RowAvi(); }
    else if i == 6 { RowMov(); }
    else if i == 7 { RowWmv(); }
    else if i == 8 { RowMp3(); }
    else if i == 9 { RowWav(); }
    else if i == 10 { RowOgg(); }
    else if i == 11 { RowPdf(); }
    else if i == 12 { RowDoc(); }
    else { RowDocx(); }
  }

  /** The control characters U+0000 to U+001F, in order. */
  const Controls: seq<char> := ['\0', '\U{1}', '\U{2}', '\U{3}', '\U{4}', '\U{5}', '\U{6}', '\U{7}', '\U{8}', '\U{9}', '\U{A}', '\U{B}', '\U{C}', '\U{D}', '\U{E}', '\U{F}', '\U{10}', '\U{11}', '\U{12}', '\U{13}', '\U{14}', '\U{15}', '\U{16}', '\U{17}', '\U{18}', '\U{19}', '\U{1A}', '\U{1B}', '\U{1C}', '\U{1D}', '\U{1E}', '\U{1F}']

  /** `Path.GetInvalidFileNameChars()` on Windows, in its order. */
  const InvalidChars: seq<char> := ['"', '<', '>', '|'] + Controls + [':', '*', '?', '\\', '/']

  /** `s.Replace(c, '_')`. */
  function ReplaceChar(s: string, c: char): (r: string)
    ensures |r| == |s|
    ensures forall i :: 0 <= i < |s| ==> r[i] == if s[i] == c then '_' else s[i]
  {
    if s == [] then [] else [if s[0] == c then '_' else s[0]] + ReplaceChar(s[1..], c)
  }

  /** `chars.Aggregate(s, (current, c) => current.Replace(c, '_'))`. */
  function ReplaceEach(s: string, chars: seq<char>): string
    decreases |chars|
  {
    if chars == [] then s else ReplaceEach(ReplaceChar(s, chars[0]), chars[1..])
  }

  /** The fold replaces, position by position, exactly the characters listed. */
  lemma {:induction false} ReplaceEachPointwise(s: string, chars: seq<char>)
    ensures |ReplaceEach(s, chars)| == |s|
    ensures forall i :: 0 <= i < |s| ==> ReplaceEach(s, chars)[i] == if s[i] in chars then '_' else s[i]
    decreases |chars|
  {
    if chars != [] {
      var t := ReplaceChar(s, chars[0]);
      ReplaceEachPointwise(t, chars[1..]);
      forall i | 0 <= i < |s|
        ensures ReplaceEach(s, chars)[i] == if s[i] in chars then '_' else s[i]
      {
        assert s[i] in chars <==> s[i] == chars[0] || s[i] in chars[1..];
      }
    }
  }

  /** The characters of `InvalidChars`: the controls below U+0020 and
      `" < > | : * ? \ /`. */
  predicate InvalidChar(c: char) {
    c < '\U{20}' || c == '"' || c == '<' || c == '>' || c == '|'
    || c == ':' || c == '*' || c == '?' || c == '\\' || c == '/'
  }

  lemma ControlsAre(c: char)
    ensures c in Controls <==> c < '\U{20}'
  {
    if c < '\U{20}' {
      assert Controls[c as int] == c;
    }
  }

  lemma InvalidCharsAre(c: char)
    ensures c in InvalidChars <==> InvalidChar(c)
  {
    ControlsAre(c);
    assert c in InvalidChars <==> c in ['"', '<', '>', '|'] || c in Controls || c in [':', '*', '?', '\\', '/'];
  }

  /** A name without any invalid file-name character. */
  predicate Clean(s: string) {
    forall i :: 0 <= i < |s| ==> !InvalidChar(s[i])
  }

  /** `Sanitize(s)` is `s` with every invalid character replaced by '_'. */
  function Sanitize(s: string): (r: string)
    ensures |r| == |s| && Clean(r)
    ensures forall i :: 0 <= i < |s| ==> r[i] == if s[i] in InvalidChars then '_' else s[i]
  {
    ReplaceEachPointwise(s, InvalidChars);
    var r := ReplaceEach(s, InvalidChars);
    assert Clean(r) by {
      forall i | 0 <= i < |s| ensures !InvalidChar(r[i]) {
        InvalidCharsAre(s[i]);
      }
    }
    r
  }

  /** `GetSafeFileName`. `stamp` is the `yyyyMMdd_HHmmss` rendering of the
      clock, used only for an empty name. */
  function GetSafeFileName(fileName: string, extension: string, stamp: string): (r: string)
    ensures EndsWithIgnoreCase(r, extension)
    ensures var base := if fileName == [] then "media_" + stamp else fileName;
      && |base| <= |r|
      && (forall i :: 0 <= i < |base| ==> r[i] == if base[i] in InvalidChars then '_' else base[i])
      && (|r| == |base| || r[|base|..] == extension)
      && ((|r| == |base|) <==> EndsWithIgnoreCase(r[..|base|], extension))
    ensures Clean(extension) ==> Clean(r)
  {
    var base := if fileName == [] then "media_" + stamp else fileName;
    var clean := Sanitize(base);
    assert clean[..|clean|] == clean;
    if EndsWithIgnoreCase(clean, extension) then clean
    else
      EndsWithIgnoreCaseAppend(clean, extension);
      assert (clean + extension)[..|clean|] == clean;
      clean + extension
  }

  /** Sanitising a clean name changes nothing. */
  lemma SanitizeClean(s: string)
    requires Clean(s)
    ensures Sanitize(s) == s
  {
    forall i | 0 <= i < |s| ensures s[i] !in InvalidChars {
      InvalidCharsAre(s[i]);
    }
  }

  /** A second pass over a safe name returns it unchanged, whatever the clock
      says then, provided the extension itself is a valid name. */
  lemma GetSafeFileNameIdempotent(fileName: string, extension: string, stamp: string, later: string)
    requires Clean(extension)
    ensures var r := GetSafeFileName(fileName, extension, stamp);
      GetSafeFileName(r, extension, later) == r
  {
    var r := GetSafeFileName(fileName, extension, stamp);
    var base := if fileName == [] then "media_" + stamp else fileName;
    assert |base| > 0;
    SanitizeClean(r);
  }

  /** The position of the last '.' in `s`, if any. */
  function LastDot(s: string): (r: Option<nat>)
    ensures r.Some? ==> r.value < |s| && s[r.value] == '.'
    ensures r.Some? ==> forall i :: r.value < i < |s| ==> s[i] != '.'
    ensures r.None? ==> forall i :: 0 <= i < |s| ==> s[i] != '.'
  {
    if s == [] then None
    else if s[|s| - 1] == '.' then Some(|s| - 1)
    else LastDot(s[..|s| - 1])
  }

  /** `Path.GetFileNameWithoutExtension` of a bare file name: everything
      before the last '.'. */
  function Stem(fileName: string): (r: string)
    ensures |r| <= |fileName| && r == fileName[..|r|]
    ensures |r| < |fileName| ==> fileName[|r|] == '.'
    ensures forall i :: |r| < i < |fileName| ==> fileName[i] != '.'
  {
    match LastDot(fileName)
    case Some(i) => fileName[..i]
    case None => fileName
  }

  /** The name tried after `k` collisions: the name itself, then
      `stem_1ext`, `stem_2ext`, … with the stem always that of the original. */
  function Attempt(fileName: string, extension: string, k: nat): string {
    if k == 0 then fileName else Stem(fileName) + "_" + NatToString(k) + extension
  }

  /** Whether the folder already holds a file of that name; the file system
      compares names case-insensitively. */
  predicate Taken(existing: set<string>, name: string) {
    exists e :: e in existing && Lower(e) == Lower(name)
  }

  /** The case-folded names in the folder. */
  function Folded(existing: set<string>): set<string> {
    set e | e in existing :: Lower(e)
  }

  /** No two attempts name the same file, even ignoring case. */
  lemma {:induction false} AttemptsDistinct(fileName: string, extension: string, j: nat, k: nat)
    requires j < k
    ensures Lower(Attempt(fileName, extension, j)) != Lower(Attempt(fileName, extension, k))
  {
    var stem := Stem(fileName);
    var ak := Attempt(fileName, extension, k);
    var lk := Lower(ak);
    LowerPointwise(ak);
    assert ak[|stem|] == '_';
    assert lk[|stem|] == '_';
    if j == 0 {
      var lj := Lower(fileName);
      LowerPointwise(fileName);
      if |stem| < |fileName| {
        assert lj[|stem|] == '.';
      }
    } else {
      var aj := Attempt(fileName, extension, j);
      var lj := Lower(aj);
      LowerPointwise(aj);
      var nj, nk := NatToString(j), NatToString(k);
      if lj == lk {
        assert |nj| == |nk|;
        var p := |stem| + 1;
        forall t | 0 <= t < |nj| ensures nj[t] == nk[t] {
          assert aj[p + t] == nj[t] && ak[p + t] == nk[t];
          assert lj[p + t] == LowerChar(nj[t]) && lk[p + t] == LowerChar(nk[t]);
        }
        assert nj == nk;
        NatToStringInjective(j, k);
      }
    }
  }

  /** The case-folded names of the first `n` attempts. */
  ghost function FoldedAttempts(fileName: string, extension: string, n: nat): set<string> {
    set k | 0 <= k < n :: Lower(Attempt(fileName, extension, k))
  }

  /** The first `n` attempts fold to `n` different names. */
  lemma {:induction false} FoldedAttemptsSize(fileName: string, extension: string, n: nat)
    ensures |FoldedAttempts(fileName, extension, n)| == n
  {
    if n > 0 {
      FoldedAttemptsSize(fileName, extension, n - 1);
      FoldedAttemptsStep(fileName, extension, n - 1);
    } else {
      assert FoldedAttempts(fileName, extension, n) == {};
    }
  }

  /** Each attempt adds a name not folded from any earlier one. */
  lemma FoldedAttemptsStep(fileName: string, extension: string, n: nat)
    ensures FoldedAttempts(fileName, extension, n + 1)
         == FoldedAttempts(fileName, extension, n) + {Lower(Attempt(fileName, extension, n))}
    ensures Lower(Attempt(fileName, extension, n)) !in FoldedAttempts(fileName, extension, n)
  {
    forall y | y in FoldedAttempts(fileName, extension, n)
      ensures y != Lower(Attempt(fileName, extension, n))
    {
      var k :| 0 <= k < n && y == Lower(Attempt(fileName, extension, k));
      AttemptsDistinct(fileName, extension, k, n);
    }
  }

  /** One more taken attempt: the taken attempts still fold into the folder's
      names, so there are no more of them than files in the folder. */
  lemma NextAttempt(fileName: string, extension: string, existing: set<string>, counter: nat)
    requires counter >= 1
    requires FoldedAttempts(fileName, extension, counter - 1) <= Folded(existing)
    requires Taken(existing, Attempt(fileName, extension, counter - 1))
    ensures FoldedAttempts(fileName, extension, counter) <= Folded(existing)
    ensures counter <= |existing|
  {
    var name := Attempt(fileName, extension, counter - 1);
    var e :| e in existing && Lower(e) == Lower(name);
    assert Lower(name) in Folded(existing);
    assert FoldedAttempts(fileName, extension, counter)
        == FoldedAttempts(fileName, extension, counter - 1) + {Lower(name)};
    FoldedAttemptsSize(fileName, extension, counter);
    SubsetSmaller(FoldedAttempts(fileName, extension, counter), Folded(existing));
    FoldedSmaller(existing);
  }

  /** The unique-name loop of `DownloadMediaAsync`: the first attempt not yet
      taken in the folder. It ends because `existing` is finite. */
  method UniqueFileName(fileName: string, extension: string, existing: set<string>) returns (chosen: string, collisions: nat)
    ensures chosen == Attempt(fileName, extension, collisions)
    ensures !Taken(existing, chosen)
    ensures forall k :: 0 <= k < collisions ==> Taken(existing, Attempt(fileName, extension, k))
    ensures collisions <= |existing|
  {
    chosen := fileName;
    var counter := 1;
    while Taken(existing, chosen)
      invariant counter >= 1
      invariant chosen == Attempt(fileName, extension, counter - 1)
      invariant forall k :: 0 <= k < counter - 1 ==> Taken(existing, Attempt(fileName, extension, k))
      invariant FoldedAttempts(fileName, extension, counter - 1) <= Folded(existing)
      invariant counter - 1 <= |existing|
      decreases |existing| - counter + 1
    {
      NextAttempt(fileName, extension, existing, counter);
      chosen := Stem(fileName) + "_" + NatToString(counter) + extension;
      counter := counter + 1;
    }
    collisions := counter - 1;
  }

  /** Folding case never adds names. */
  lemma {:induction false} FoldedSmaller(existing: set<string>)
    ensures |Folded(existing)| <= |existing|
    decreases |existing|
  {
    if existing != {} {
      var e :| e in existing;
      var rest := existing - {e};
      FoldedSmaller(rest);
      assert Folded(existing) <= Folded(rest) + {Lower(e)};
      assert |Folded(rest) + {Lower(e)}| <= |Folded(rest)| + 1;
      SubsetSmaller(Folded(existing), Folded(rest) + {Lower(e)});
    }
  }

  lemma {:induction false} SubsetSmaller(a: set<string>, b: set<string>)
    requires a <= b
    ensures |a| <= |b|
  {
    assert b == a + (b - a);
  }

  /** Every attempt made from a valid name and extension is itself valid. */
  lemma AttemptClean(fileName: string, extension: string, k: nat)
    requires Clean(fileName) && Clean(extension)
    ensures Clean(Attempt(fileName, extension, k))
  {
    if k > 0 {
      var stem := Stem(fileName);
      var digits := NatToString(k);
      var r := Attempt(fileName, extension, k);
      assert r == stem + ("_" + digits) + extension;
    }
  }
}
