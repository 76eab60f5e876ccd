/** The upload check of the web front end: which file names are accepted for analysis, and which
    text extractor an accepted name is routed to. */
module Upload {
  import opened Text
  import opened PyValues

  /** The accepted extensions, compared in lower case. */
  const AllowedExtensions: set<string> := {"pdf", "docx"}

  /** The position of the last occurrence of `c` in `s`, if any. */
  function LastIndexOf(s: string, c: char): (r: Option<nat>)
    ensures r.None? <==> c !in s
    ensures r.Some? ==> r.value < |s| && s[r.value] == c && forall j :: r.value < j < |s| ==> s[j] != c
    decreases |s|
  {
    if s == [] then None
    else if s[|s| - 1] == c then Some(|s| - 1)
    else
      var r := LastIndexOf(s[..|s| - 1], c);
      assert forall j :: 0 <= j < |s| - 1 ==> s[j] == s[..|s| - 1][j];
      r
  }

  /** `filename.rsplit('.', 1)[1]`: the text after the last dot, for a name that has one. */
  function Extension(filename: string): (ext: string)
    requires '.' in filename
    ensures '.' !in ext
    ensures exists i :: 0 <= i < |filename| && filename[i] == '.' && filename[i + 1..] == ext
  {
    var i := LastIndexOf(filename, '.').value;
    assert filename[i + 1..] == filename[|filename| - |filename[i + 1..]|..];
    filename[i + 1..]
  }

  /** `allowed_file`: the name has a dot and its last extension, lower-cased, is accepted. */
  function AllowedFile(filename: string): bool {
    '.' in filename && Lower(Extension(filename)) in AllowedExtensions
  }

  /** Only the part after the last dot counts: whatever comes before it, a name ending in
      `.ext` with a dot-free `ext` is accepted exactly when `ext` is, in lower case, one of the
      accepted extensions. */
  lemma {:induction false} LastExtensionDecides(stem: string, ext: string)
    requires '.' !in ext
    ensures Extension(stem + "." + ext) == ext
    ensures AllowedFile(stem + "." + ext) <==> Lower(ext) in AllowedExtensions
  {
    var f := stem + "." + ext;
    assert f[|stem|] == '.';
    assert forall j :: |stem| < j < |f| ==> f[j] == ext[j - |stem| - 1];
    assert LastIndexOf(f, '.').value == |stem|;
    assert f[|stem| + 1..] == ext;
  }

  /** A name without a dot is never accepted. */
  lemma NoDotRejected(filename: string)
    requires '.' !in filename
    ensures !AllowedFile(filename)
  {
  }

  /** Accepted names are those ending in `.pdf` or `.docx` in any letter case, and an empty
      extension is not one of them. */
  lemma AcceptedExtensions(filename: string)
    requires '.' in filename
    ensures AllowedFile(filename) <==> Lower(Extension(filename)) == "pdf" || Lower(Extension(filename)) == "docx"
    ensures Extension(filename) == "" ==> !AllowedFile(filename)
  {
  }

  /** The last extension decides, in any letter case: "cv.tar.PDF" is accepted, whatever the
      name before the last dot is. */
  lemma UpperCaseLastExtensionAccepted(stem: string)
    ensures AllowedFile(stem + ".PDF")
  {
    LastExtensionDecides(stem, "PDF");
    assert stem + "." + "PDF" == stem + ".PDF";
    assert Lower("PDF") == "pdf";
  }

  /** An extension that is followed by another one does not count: "cv.pdf.exe" is rejected. */
  lemma InnerExtensionIgnored(stem: string)
    ensures !AllowedFile(stem + ".exe")
  {
    LastExtensionDecides(stem, "exe");
    assert stem + "." + "exe" == stem + ".exe";
    assert Lower("exe") == "exe";
    assert "exe"[0] != "pdf"[0] && |"exe"| != |"docx"|;
  }

  /** Neither a trailing dot nor the older Word extension is accepted. */
  lemma EmptyAndDocRejected(stem: string)
    ensures !AllowedFile(stem + ".")
    ensures !AllowedFile(stem + ".doc")
  {
    LastExtensionDecides(stem, "");
    assert stem + "." + "" == stem + ".";
    assert Lower("") == "" && |""| != |"pdf"| && |""| != |"docx"|;
    LastExtensionDecides(stem, "doc");
    assert stem + "." + "doc" == stem + ".doc";
    assert Lower("doc") == "doc";
    assert "doc"[0] != "pdf"[0] && |"doc"| != |"docx"|;
  }

  /** The text extractor the upload handler picks from the extension. */
  datatype Extractor = PdfExtractor | DocxExtractor | NoExtractor

  /** Dispatch on the lower-cased last extension: "pdf" goes to the PDF reader, "docx" and
      "doc" to the Word reader, anything else to none. */
  function ExtractorFor(filename: string): Extractor
    requires '.' in filename
  {
    var ext := Lower(Extension(filename));
    if ext == "pdf" then PdfExtractor
    else if ext == "docx" || ext == "doc" then DocxExtractor
    else NoExtractor
  }

  /** An accepted name, dispatched on its own extension, reaches an extractor, and never through
      the "doc" alternative: an accepted extension is never "doc", so that alternative of the
      dispatch is dead. */
  lemma AcceptedNamesReachAnExtractor(filename: string)
    requires AllowedFile(filename)
    ensures ExtractorFor(filename) != NoExtractor
    ensures Lower(Extension(filename)) != "doc"
    ensures ExtractorFor(filename) == DocxExtractor <==> Lower(Extension(filename)) == "docx"
  {
  }

  // ----- the name the upload is saved and dispatched under -----

  /** `filename.encode("ascii", "ignore").decode("ascii")`: every non-ASCII character is
      dropped. */
  function AsciiOnly(s: string): (r: string)
    ensures |r| <= |s|
    ensures forall i :: 0 <= i < |r| ==> r[i] as int < 128
    decreases |s|
  {
    if s == [] then []
    else
      var rest := AsciiOnly(s[1..]);
      if s[0] as int < 128 then [s[0]] + rest else rest
  }

  /** `filename.replace(os.sep, " ")` with the POSIX separator. */
  function SlashToSpace(s: string): (r: string)
    ensures |r| == |s| && '/' !in r
    ensures forall i :: 0 <= i < |s| && s[i] != '/' ==> r[i] == s[i]
  {
    seq(|s|, i requires 0 <= i < |s| => if s[i] == '/' then ' ' else s[i])
  }

  /** The characters a secured name may hold: `[A-Za-z0-9_.-]`. */
  predicate IsSafeChar(c: char) {
    IsLetter(c) || IsDigit(c) || c == '_' || c == '.' || c == '-'
  }

  /** `re.sub(r"[^A-Za-z0-9_.-]", "", s)`. */
  function KeepSafe(s: string): (r: string)
    ensures |r| <= |s|
    ensures forall i :: 0 <= i < |r| ==> IsSafeChar(r[i])
    decreases |s|
  {
    if s == [] then []
    else
      var rest := KeepSafe(s[1..]);
      if IsSafeChar(s[0]) then [s[0]] + rest else rest
  }

  predicate IsDotOrUnderscore(c: char) {
    c == '.' || c == '_'
  }

  /** `s.lstrip("._")`. */
  function LStripDots(s: string): (r: string)
    ensures |r| <= |s| && r == s[|s| - |r|..]
    ensures r != [] ==> !IsDotOrUnderscore(r[0])
    decreases |s|
  {
    if s != [] && IsDotOrUnderscore(s[0]) then LStripDots(s[1..]) else s
  }

  /** `s.rstrip("._")`. */
  function RStripDots(s: string): (r: string)
    ensures |r| <= |s| && r == s[..|r|]
    ensures r != [] ==> !IsDotOrUnderscore(r[|r| - 1])
    decreases |s|
  {
    if s != [] && IsDotOrUnderscore(s[|s| - 1]) then RStripDots(s[..|s| - 1]) else s
  }

  /** werkzeug's `secure_filename` on a POSIX system: non-ASCII characters dropped, the path
      separator turned into a space, runs of whitespace joined by one underscore, every
      character outside `[A-Za-z0-9_.-]` removed, and dots and underscores stripped from both
      ends.  The result is a name of safe characters that neither starts nor ends with a dot or
      an underscore. */
  function SecureFilename(filename: string): (r: string)
    ensures forall i :: 0 <= i < |r| ==> IsSafeChar(r[i])
    ensures r != [] ==> !IsDotOrUnderscore(r[0]) && !IsDotOrUnderscore(r[|r| - 1])
  {
    var joined := Join(Words(SlashToSpace(AsciiOnly(filename))), "_");
    var stripped := LStripDots(KeepSafe(joined));
    var r := RStripDots(stripped);
    assert r != [] ==> r[0] == stripped[0];
    r
  }

  /** What the upload handler does with a file name, up to the choice of a text extractor. */
  datatype UploadOutcome = NoFileSelected | Unsupported | ServerError | Dispatched(extractor: Extractor)

  /** The upload handler as written: an empty name and a name `allowed_file` rejects get a 400;
      an accepted name is secured, and the extension is read from the secured name, where
      `rsplit('.', 1)[1]` raises `IndexError` when no dot is left, which the handler turns into
      a 500. */
  function Route(filename: string): (r: UploadOutcome)
    ensures r == NoFileSelected <==> filename == ""
    ensures r == Unsupported <==> filename != "" && !AllowedFile(filename)
    ensures r == ServerError <==> filename != "" && AllowedFile(filename) && '.' !in SecureFilename(filename)
    ensures r.Dispatched? <==> filename != "" && AllowedFile(filename) && '.' in SecureFilename(filename)
  {
    if filename == "" then NoFileSelected
    else if !AllowedFile(filename) then Unsupported
    else
      var secured := SecureFilename(filename);
      if '.' !in secured then ServerError else Dispatched(ExtractorFor(secured))
  }

  /** The upload handler as intended: the extension that decides the extractor is the one
      `allowed_file` accepted. */
  function IntendedRoute(filename: string): (r: UploadOutcome)
    ensures r != ServerError
    ensures r.Dispatched? <==> filename != "" && AllowedFile(filename)
    ensures r.Dispatched? ==> r.extractor != NoExtractor
  {
    if filename == "" then NoFileSelected
    else if !AllowedFile(filename) then Unsupported
    else
      AcceptedNamesReachAnExtractor(filename);
      Dispatched(ExtractorFor(filename))
  }

  // ----- the extension survives securing, unless nothing is left before it -----

  lemma {:induction false} AsciiOnlyAppend(a: string, b: string)
    ensures AsciiOnly(a + b) == AsciiOnly(a) + AsciiOnly(b)
    decreases |a|
  {
    if a == [] {
      assert a + b == b;
    } else {
      assert (a + b)[0] == a[0] && (a + b)[1..] == a[1..] + b;
      AsciiOnlyAppend(a[1..], b);
    }
  }

  lemma {:induction false} AsciiOnlyKeeps(s: string)
    requires forall i :: 0 <= i < |s| ==> s[i] as int < 128
    ensures AsciiOnly(s) == s
    decreases |s|
  {
    if s != [] {
      AsciiOnlyKeeps(s[1..]);
    }
  }

  lemma {:induction false} KeepSafeAppend(a: string, b: string)
    ensures KeepSafe(a + b) == KeepSafe(a) + KeepSafe(b)
    decreases |a|
  {
    if a == [] {
      assert a + b == b;
    } else {
      assert (a + b)[0] == a[0] && (a + b)[1..] == a[1..] + b;
      KeepSafeAppend(a[1..], b);
    }
  }

  lemma {:induction false} KeepSafeKeeps(s: string)
    requires forall i :: 0 <= i < |s| ==> IsSafeChar(s[i])
    ensures KeepSafe(s) == s
    decreases |s|
  {
    if s != [] {
      KeepSafeKeeps(s[1..]);
    }
  }

  /** The front token of `a + d` is that of `a` when `a` has a space, and runs on into `d`
      otherwise. */
  lemma {:induction false} TokenLengthAppend(a: string, d: string)
    ensures TokenLength(a) < |a| ==> TokenLength(a + d) == TokenLength(a)
    ensures TokenLength(a) == |a| ==> TokenLength(a + d) == |a| + TokenLength(d)
    decreases |a|
  {
    if a == [] {
      assert a + d == d;
    } else {
      assert (a + d)[0] == a[0];
      if !IsSpace(a[0]) {
        assert (a + d)[1..] == a[1..] + d;
        TokenLengthAppend(a[1..], d);
      }
    }
  }

  lemma {:induction false} TokenLengthNoSpace(d: string)
    requires forall i :: 0 <= i < |d| ==> !IsSpace(d[i])
    ensures TokenLength(d) == |d|
    decreases |d|
  {
    if d != [] {
      TokenLengthNoSpace(d[1..]);
    }
  }

  /** `"_".join((y + d).split())` ends with `d` when `d` is a non-empty run without spaces. */
  lemma {:induction false} JoinWordsSuffix(y: string, d: string) returns (z: string)
    requires d != [] && forall i :: 0 <= i < |d| ==> !IsSpace(d[i])
    ensures Words(y + d) != []
    ensures Join(Words(y + d), "_") == z + d
    decreases |y|
  {
    TokenLengthNoSpace(d);
    var s := y + d;
    if y == [] {
      assert s == d && s[..|d|] == d && s[|d|..] == [];
      z := "";
    } else if IsSpace(y[0]) {
      assert s[1..] == y[1..] + d;
      z := JoinWordsSuffix(y[1..], d);
    } else {
      TokenLengthAppend(y, d);
      var n := TokenLength(s);
      if TokenLength(y) == |y| {
        assert n == |s| && s[..n] == s && s[n..] == [];
        z := y;
      } else {
        assert s[..n] == y[..n] && s[n..] == y[n..] + d;
        var z' := JoinWordsSuffix(y[n..], d);
        var ws := Words(s[n..]);
        assert Words(s) == [y[..n]] + ws;
        assert ([y[..n]] + ws)[1..] == ws;
        z := y[..n] + "_" + z';
      }
    }
  }

  /** `lstrip("._")` on `w + x` strips within `w` alone unless it strips all of `w`, and then
      goes on into `x`. */
  lemma {:induction false} LStripDotsAppend(w: string, x: string)
    ensures LStripDots(w) != [] ==> LStripDots(w + x) == LStripDots(w) + x
    ensures LStripDots(w) == [] ==> LStripDots(w + x) == LStripDots(x)
    decreases |w|
  {
    if w == [] {
      assert w + x == x;
    } else {
      assert (w + x)[0] == w[0];
      if IsDotOrUnderscore(w[0]) {
        assert (w + x)[1..] == w[1..] + x;
        LStripDotsAppend(w[1..], x);
      }
    }
  }

  /** Stripping dots and underscores in front of `"." + e`, with `e` starting with neither,
      either leaves the dot or takes everything up to `e`. */
  lemma LStripDotsSuffix(w: string, e: string)
    requires e != [] && !IsDotOrUnderscore(e[0])
    ensures LStripDots(w) != [] ==> LStripDots(w + "." + e) == LStripDots(w) + "." + e
    ensures LStripDots(w) == [] ==> LStripDots(w + "." + e) == e
  {
    var x := "." + e;
    assert w + "." + e == w + x && LStripDots(w) + "." + e == LStripDots(w) + x;
    LStripDotsAppend(w, x);
    assert x[1..] == e;
  }

  /** An accepted extension is made of letters. */
  lemma AcceptedExtensionLetters(e: string)
    requires Lower(e) in AllowedExtensions
    ensures e != [] && forall i :: 0 <= i < |e| ==> IsLetter(e[i])
  {
    forall i | 0 <= i < |e| ensures IsLetter(e[i]) {
      assert IsLetter(Lower(e)[i]);
    }
  }

  /** Up to the final strip, securing `stem + d` ends in `d` when `d` is a run of safe ASCII
      characters without spaces or slashes. */
  lemma JoinedSuffix(stem: string, d: string) returns (w: string)
    requires d != []
    requires forall i :: 0 <= i < |d| ==> d[i] as int < 128 && !IsSpace(d[i]) && d[i] != '/' && IsSafeChar(d[i])
    ensures KeepSafe(Join(Words(SlashToSpace(AsciiOnly(stem + d))), "_")) == w + d
  {
    AsciiOnlyAppend(stem, d);
    AsciiOnlyKeeps(d);
    var a := AsciiOnly(stem);
    assert SlashToSpace(a + d) == SlashToSpace(a) + d;
    var z := JoinWordsSuffix(SlashToSpace(a), d);
    KeepSafeAppend(z, d);
    KeepSafeKeeps(d);
    w := KeepSafe(z);
  }

  /** A name ending in neither a dot nor an underscore is left alone by `rstrip("._")`. */
  lemma RStripDotsKeeps(l: string)
    requires l != [] && !IsDotOrUnderscore(l[|l| - 1])
    ensures RStripDots(l) == l
  {
  }

  /** A name ending in a letter of `e`, whether `v + "." + e` or `e` itself, is left alone by
      `rstrip("._")`. */
  lemma RStripBeforeExtension(l: string, v: string, e: string)
    requires e != [] && forall i :: 0 <= i < |e| ==> IsLetter(e[i])
    requires l == v + "." + e || l == e
    ensures RStripDots(l) == l
  {
    var last := e[|e| - 1];
    assert IsLetter(last);
    if l != e {
      assert l[|l| - 1] == last;
    }
    RStripDotsKeeps(l);
  }

  /** Stripping dots and underscores from both ends of `w + "." + e`, with `e` of letters,
      keeps the dot or leaves `e` alone. */
  lemma StripBeforeExtension(w: string, e: string) returns (v: string)
    requires e != [] && forall i :: 0 <= i < |e| ==> IsLetter(e[i])
    ensures RStripDots(LStripDots(w + "." + e)) == v + "." + e || RStripDots(LStripDots(w + "." + e)) == e
  {
    assert !IsDotOrUnderscore(e[0]);
    LStripDotsSuffix(w, e);
    v := LStripDots(w);
    RStripBeforeExtension(LStripDots(w + "." + e), v, e);
  }

  /** Securing an accepted name either keeps its extension behind a dot, or leaves only the
      extension, without the dot. */
  lemma SecuredExtension(stem: string, e: string) returns (v: string)
    requires '.' !in e && Lower(e) in AllowedExtensions
    ensures SecureFilename(stem + "." + e) == v + "." + e || SecureFilename(stem + "." + e) == e
  {
    AcceptedExtensionLetters(e);
    var d := "." + e;
    assert forall i :: 0 <= i < |d| ==> d[i] as int < 128 && !IsSpace(d[i]) && d[i] != '/' && IsSafeChar(d[i]);
    assert stem + "." + e == stem + d;
    var w := JoinedSuffix(stem, d);
    assert w + d == w + "." + e;
    v := StripBeforeExtension(w, e);
  }

  /** When a dot survives securing, the secured name has the extension the check accepted. */
  lemma SecuredKeepsExtension(filename: string)
    requires AllowedFile(filename) && '.' in SecureFilename(filename)
    ensures Extension(SecureFilename(filename)) == Extension(filename)
  {
    var e := Extension(filename);
    var stem := SplitAtExtension(filename);
    var v := SecuredExtension(stem, e);
    if SecureFilename(filename) == e {
      assert false;
    }
    LastExtensionDecides(v, e);
  }

  /** A name with a dot is its stem, the dot and its extension. */
  lemma SplitAtExtension(filename: string) returns (stem: string)
    requires '.' in filename
    ensures filename == stem + "." + Extension(filename)
  {
    var i := LastIndexOf(filename, '.').value;
    assert Extension(filename) == filename[i + 1..];
    stem := filename[..i];
    assert filename == stem + [filename[i]] + filename[i + 1..];
  }

  /** The handler as written and as intended agree on every name except those the written one
      turns into a 500. */
  lemma RouteAgrees(filename: string)
    ensures Route(filename) != ServerError ==> Route(filename) == IntendedRoute(filename)
  {
    if filename != "" && AllowedFile(filename) && '.' in SecureFilename(filename) {
      SecuredKeepsExtension(filename);
    }
  }

  // ----- a name whose stem vanishes -----

  /** A character `secure_filename` drops in front of an extension: a dot, an underscore, or
      (for werkzeug, one without an ASCII compatibility decomposition) a non-ASCII character. */
  predicate Vanishes(c: char) {
    c as int >= 128 || IsDotOrUnderscore(c)
  }

  lemma {:induction false} AsciiOnlyVanishing(s: string)
    requires forall i :: 0 <= i < |s| ==> Vanishes(s[i])
    ensures forall i :: 0 <= i < |AsciiOnly(s)| ==> IsDotOrUnderscore(AsciiOnly(s)[i])
    decreases |s|
  {
    if s != [] {
      AsciiOnlyVanishing(s[1..]);
    }
  }

  lemma {:induction false} LStripDotsAll(s: string)
    requires forall i :: 0 <= i < |s| ==> IsDotOrUnderscore(s[i])
    ensures LStripDots(s) == []
    decreases |s|
  {
    if s != [] {
      LStripDotsAll(s[1..]);
    }
  }

  /** A text without spaces is one word, and joining one word gives it back. */
  lemma OneWord(x: string)
    requires x != [] && forall i :: 0 <= i < |x| ==> !IsSpace(x[i])
    ensures Join(Words(x), "_") == x
  {
    TokenLengthNoSpace(x);
    assert x[..|x|] == x && x[|x|..] == [];
    assert Words(x) == [x];
  }

  /** Up to the final strip, securing a vanishing stem followed by `d` leaves the stem's dots
      and underscores followed by `d`. */
  lemma JoinedVanishing(stem: string, d: string)
    requires d != []
    requires forall i :: 0 <= i < |d| ==> d[i] as int < 128 && !IsSpace(d[i]) && d[i] != '/' && IsSafeChar(d[i])
    requires forall i :: 0 <= i < |stem| ==> Vanishes(stem[i])
    ensures KeepSafe(Join(Words(SlashToSpace(AsciiOnly(stem + d))), "_")) == AsciiOnly(stem) + d
    ensures LStripDots(AsciiOnly(stem)) == []
  {
    AsciiOnlyAppend(stem, d);
    AsciiOnlyKeeps(d);
    var a := AsciiOnly(stem);
    AsciiOnlyVanishing(stem);
    var x := a + d;
    assert forall i :: 0 <= i < |x| ==> IsSafeChar(x[i]) && !IsSpace(x[i]) && x[i] != '/';
    assert SlashToSpace(x) == x;
    OneWord(x);
    KeepSafeKeeps(x);
    LStripDotsAll(a);
  }

  /** Securing a vanishing stem followed by an accepted extension leaves the bare extension. */
  lemma SecuredVanishing(stem: string, e: string)
    requires '.' !in e && Lower(e) in AllowedExtensions
    requires forall i :: 0 <= i < |stem| ==> Vanishes(stem[i])
    ensures SecureFilename(stem + "." + e) == e
  {
    AcceptedExtensionLetters(e);
    var d := "." + e;
    assert forall i :: 0 <= i < |d| ==> d[i] as int < 128 && !IsSpace(d[i]) && d[i] != '/' && IsSafeChar(d[i]);
    assert stem + "." + e == stem + d;
    JoinedVanishing(stem, d);
    var a := AsciiOnly(stem);
    assert a + d == a + "." + e;
    assert !IsDotOrUnderscore(e[0]);
    LStripDotsSuffix(a, e);
    RStripBeforeExtension(e, [], e);
  }

  /** When only dots, underscores and non-ASCII characters precede an accepted extension,
      `allowed_file` accepts the name, securing it leaves the bare extension without its dot,
      and the handler as written fails with a 500 where the intended one reaches an
      extractor.  Securing here drops every non-ASCII character, so for werkzeug this holds of
      the characters without an ASCII compatibility decomposition (Cyrillic, CJK and the
      like); a letter such as "é" decomposes to "e" and keeps the dot. */
  lemma VanishingStemCrashes(stem: string, e: string)
    requires '.' !in e && Lower(e) in AllowedExtensions
    requires forall i :: 0 <= i < |stem| ==> Vanishes(stem[i])
    ensures AllowedFile(stem + "." + e)
    ensures SecureFilename(stem + "." + e) == e
    ensures Route(stem + "." + e) == ServerError
    ensures IntendedRoute(stem + "." + e).Dispatched? && IntendedRoute(stem + "." + e).extractor != NoExtractor
    ensures Lower(e) == "pdf" ==> IntendedRoute(stem + "." + e) == Dispatched(PdfExtractor)
  {
    LastExtensionDecides(stem, e);
    SecuredVanishing(stem, e);
  }

  /** The characters "pdf" form an accepted extension. */
  lemma PdfExtension(ext: string)
    requires SameText(ext, "pdf")
    ensures '.' !in ext && Lower(ext) == "pdf" && Lower(ext) in AllowedExtensions
  {
    assert Lower(ext) == "pdf";
  }

  /** "резюме.pdf" passes `allowed_file`, yet the handler as written answers it with a 500
      where the intended one reads the PDF. */
  lemma NonAsciiStemExample(stem: string, ext: string)
    requires SameText(stem, "резюме") && SameText(ext, "pdf")
    ensures Route(stem + "." + ext) == ServerError && IntendedRoute(stem + "." + ext) == Dispatched(PdfExtractor)
  {
    PdfExtension(ext);
    assert forall i :: 0 <= i < |stem| ==> Vanishes(stem[i]);
    VanishingStemCrashes(stem, ext);
  }

  /** So does ".pdf". */
  lemma DotStemExample(ext: string)
    requires SameText(ext, "pdf")
    ensures Route("." + ext) == ServerError && IntendedRoute("." + ext) == Dispatched(PdfExtractor)
  {
    PdfExtension(ext);
    var none: string := [];
    VanishingStemCrashes(none, ext);
    assert none + "." + ext == "." + ext;
  }

  /** And so does "_.pdf". */
  lemma UnderscoreStemExample(ext: string)
    requires SameText(ext, "pdf")
    ensures Route("_." + ext) == ServerError && IntendedRoute("_." + ext) == Dispatched(PdfExtractor)
  {
    PdfExtension(ext);
    var under: string := ['_'];
    VanishingStemCrashes(under, ext);
    assert under + "." + ext == "_." + ext;
  }
}
