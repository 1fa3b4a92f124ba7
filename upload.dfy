/** The upload filter of textospeech/app.py: which file names the document reader accepts. */
module Upload {
  import opened Basics
  import opened JsText

  /** `ALLOWED_EXTENSIONS`. */
  const AllowedExtensions: set<string> := {"txt", "pdf", "docx"}

  /** The position of the last '.' in `name`, if there is one. */
  function LastDot(name: string): (r: Option<nat>)
    ensures r.None? <==> '.' !in name
    ensures r.Some? ==> r.value < |name| && name[r.value] == '.' && '.' !in name[r.value + 1..]
  {
    if name == [] then None
    else if name[|name| - 1] == '.' then Some(|name| - 1)
    else
      var r := LastDot(name[..|name| - 1]);
      assert name == name[..|name| - 1] + [name[|name| - 1]];
      r
  }

  /** `filename.rsplit('.', 1)[1]`: the text after the last dot. */
  function Extension(name: string): (ext: string)
    requires '.' in name
    ensures '.' !in ext && |ext| < |name|
  {
    name[LastDot(name).value + 1..]
  }

  /** `allowed_file`: a dot, and the lower-cased text after the last one is an allowed
      extension. */
  predicate AllowedFile(filename: string)
  {
    '.' in filename && ToLower(Extension(filename)) in AllowedExtensions
  }

  /** A name cut at its last dot: everything before it may hold dots, nothing after. */
  lemma {:induction false} LastDotOf(stem: string, ext: string)
    requires '.' !in ext
    ensures LastDot(stem + "." + ext) == Some(|stem|)
    decreases |ext|
  {
    var name := stem + "." + ext;
    if ext == [] {
      assert name[|name| - 1] == '.';
    } else {
      assert name[|name| - 1] == ext[|ext| - 1] && ext[|ext| - 1] in ext;
      assert name[..|name| - 1] == stem + "." + ext[..|ext| - 1];
      LastDotOf(stem, ext[..|ext| - 1]);
    }
  }

  /** Only the text after the last dot decides, whatever dots come before it. */
  lemma AllowedFileByExtension(stem: string, ext: string)
    requires '.' !in ext
    ensures AllowedFile(stem + "." + ext) <==> ToLower(ext) in AllowedExtensions
  {
    LastDotOf(stem, ext);
    assert (stem + "." + ext)[|stem| + 1..] == ext;
  }

  /** Lower-casing moves no dot. */
  lemma {:induction false} LastDotLower(name: string)
    ensures LastDot(ToLower(name)) == LastDot(name)
    decreases |name|
  {
    var low := ToLower(name);
    if name != [] {
      assert low[|low| - 1] == LowerChar(name[|name| - 1]);
      assert low[..|low| - 1] == ToLower(name[..|name| - 1]);
      LastDotLower(name[..|name| - 1]);
    }
  }

  lemma ExtensionLower(name: string)
    requires '.' in name
    ensures '.' in ToLower(name) && Extension(ToLower(name)) == ToLower(Extension(name))
  {
    LastDotLower(name);
    var i := LastDot(name).value;
    var low, ext := ToLower(name), name[i + 1..];
    assert |low[i + 1..]| == |ToLower(ext)|;
    forall k | 0 <= k < |ext|
      ensures low[i + 1..][k] == ToLower(ext)[k]
    {
      assert low[i + 1 + k] == LowerChar(name[i + 1 + k]);
    }
    assert low[i + 1..] == ToLower(ext);
  }

  /** The letter case of the name never matters. */
  lemma CaseDoesNotMatter(name: string)
    ensures AllowedFile(ToLower(name)) <==> AllowedFile(name)
  {
    if '.' in name {
      ExtensionLower(name);
      ToLowerIdempotent(Extension(name));
    } else {
      LastDotLower(name);
    }
  }

  /** A name without a dot, however it ends, is refused. */
  lemma NoDotRefused(name: string)
    requires '.' !in name
    ensures !AllowedFile(name)
  {
  }

  /** A harmless-looking first extension does not save a refused last one. */
  lemma LastExtensionRefused()
    ensures !AllowedFile("a.pdf.exe")
  {
    AllowedFileByExtension("a.pdf", "exe");
    assert "a.pdf" + "." + "exe" == "a.pdf.exe";
    assert ToLower("exe") == "exe";
  }

  /** A refused first extension does not spoil an allowed last one. */
  lemma LastExtensionAccepted()
    ensures AllowedFile("a.exe.pdf")
  {
    AllowedFileByExtension("a.exe", "pdf");
    assert "a.exe" + "." + "pdf" == "a.exe.pdf";
    assert ToLower("pdf") == "pdf";
  }

  /** An upper-case extension is accepted. */
  lemma UpperCaseExtension()
    ensures AllowedFile("REPORT.PDF")
  {
    AllowedFileByExtension("REPORT", "PDF");
    assert "REPORT" + "." + "PDF" == "REPORT.PDF";
    assert ToLower("PDF") == "pdf";
  }

  /** A trailing dot leaves an empty extension; a bare extension is a whole name. */
  lemma DotAtEitherEnd()
    ensures !AllowedFile("notes.")
    ensures AllowedFile(".txt")
  {
    AllowedFileByExtension("notes", "");
    assert "notes" + "." + "" == "notes.";
    assert ToLower("") == "";
    AllowedFileByExtension("", "txt");
    assert "" + "." + "txt" == ".txt";
    assert ToLower("txt") == "txt";
  }
}
