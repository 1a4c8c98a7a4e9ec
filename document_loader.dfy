/** Choosing a loader by file suffix and translating what loading raises
    (rag/document_loader.py). The file system and the PDF and text libraries are parameters:
    whether the path exists, and what the chosen library's `load()` returns or raises. Paths
    are POSIX paths, as `pathlib.Path` reads them on Linux. */
module DocumentLoader {
  import opened Wrappers
  import opened PyStr
  import opened Oracles

  /** `s.rfind(c)`: the last index of `c` in `s`, or -1. */
  function LastIndexOf(s: string, c: char): (i: int)
    ensures -1 <= i < |s|
    ensures i >= 0 ==> s[i] == c
    ensures forall j :: i < j < |s| ==> s[j] != c
    decreases |s|
  {
    if s == [] then -1
    else if s[|s| - 1] == c then |s| - 1
    else LastIndexOf(s[..|s| - 1], c)
  }

  /** `Path(p).name`: the last component that is neither empty nor `.`, or `""` when there is
      none (`Path` drops repeated and trailing slashes and `.` components). */
  function PathName(p: string): string
    decreases |p|
  {
    var i := LastIndexOf(p, '/');
    var last := p[i + 1..];
    if last != "" && last != "." then last
    else if i < 0 then ""
    else PathName(p[..i])
  }

  /** `PurePath.suffix` of a file name: from its last dot, provided that dot neither starts the
      name nor ends it. */
  function Suffix(name: string): (s: string)
    ensures s == "" || (2 <= |s| <= |name| && s[0] == '.' && name[|name| - |s|..] == s)
  {
    var i := LastIndexOf(name, '.');
    if 0 < i < |name| - 1 then name[i..] else ""
  }

  /** The extension `get_loader` dispatches on. */
  function Extension(path: string): string {
    Lower(Suffix(PathName(path)))
  }

  datatype LoaderKind = PdfLoader | TextLoader

  /** `DocumentLoaderFactory.get_loader`. */
  function GetLoader(path: string): Result<LoaderKind, Exc> {
    var ext := Extension(path);
    if ext == ".pdf" then Ok(PdfLoader)
    else if ext == ".txt" then Ok(TextLoader)
    else Err(ValueError("Unsupported file type: " + ext))
  }

  function KindLabel(kind: LoaderKind): string {
    match kind
    case PdfLoader => "PDF"
    case TextLoader => "text"
  }

  function NotFoundMessage(path: string): string {
    "File not found: " + path
  }

  /** A loader's `load(path)`: a missing file raises `FileNotFoundError` inside the `try`, and
      the `except` turns it, like any failure of the library, into `ValueError`. */
  function Load(kind: LoaderKind, path: string, present: bool, library: Result<seq<Document>, Exc>)
    : Result<seq<Document>, Exc>
  {
    var raised :=
      if !present then Err(FileNotFoundError(NotFoundMessage(path)))
      else library;
    match raised
    case Ok(docs) => Ok(docs)
    case Err(e) => Err(ValueError("Failed to load " + KindLabel(kind) + " document: " + e.message))
  }

  /** `load_document`'s handler: `FileNotFoundError` and `ValueError` propagate as they are,
      any other exception becomes `ValueError`. */
  function Reraise(e: Exc): (r: Exc)
    ensures e.ValueError? || e.FileNotFoundError? ==> r == e
    ensures !(e.ValueError? || e.FileNotFoundError?) ==> r == ValueError("Failed to load document: " + e.message)
  {
    match e
    case ValueError(_) => e
    case FileNotFoundError(_) => e
    case _ => ValueError("Failed to load document: " + e.message)
  }

  /** `load_document(path)`; `library` is what the library of the chosen loader gives. */
  function LoadDocument(path: string, present: bool, library: Result<seq<Document>, Exc>)
    : Result<seq<Document>, Exc>
  {
    match GetLoader(path)
    case Err(e) => Err(Reraise(e))
    case Ok(kind) =>
      match Load(kind, path, present, library)
      case Ok(docs) => Ok(docs)
      case Err(e) => Err(Reraise(e))
  }

  /** The dispatch table: `.pdf` and `.txt` in any case, anything else unsupported, with the
      lower-cased suffix in the message. */
  lemma GetLoaderSpec(path: string)
    ensures GetLoader(path) == Ok(PdfLoader) <==> Extension(path) == ".pdf"
    ensures GetLoader(path) == Ok(TextLoader) <==> Extension(path) == ".txt"
    ensures GetLoader(path).Err? <==> Extension(path) != ".pdf" && Extension(path) != ".txt"
    ensures GetLoader(path).Err? ==> GetLoader(path) == Err(ValueError("Unsupported file type: " + Extension(path)))
  {
  }

  /** The last component of `dir/name` is `name`. */
  lemma {:induction false} NameOfJoin(dir: string, name: string)
    requires name != "" && name != "." && '/' !in name
    ensures PathName(dir + "/" + name) == name
  {
    var p := dir + "/" + name;
    var i := LastIndexOf(p, '/');
    assert p[|dir|] == '/';
    assert p[i + 1..] == name;
  }

  /** Only the text after the last dot counts: `stem.ext` has suffix `.ext` whatever dots the
      stem holds, provided the stem is not empty. */
  lemma {:induction false} SuffixOfExtended(stem: string, ext: string)
    requires stem != "" && ext != "" && '.' !in ext
    ensures Suffix(stem + "." + ext) == "." + ext
  {
    var name := stem + "." + ext;
    var i := LastIndexOf(name, '.');
    assert name[|stem|] == '.';
    assert name[i..] == "." + ext;
  }

  /** A name without a slash is its own last component. */
  lemma NameOfPlain(name: string)
    requires name != "" && name != "." && '/' !in name
    ensures PathName(name) == name
  {
    assert LastIndexOf(name, '/') == -1;
    assert name[0..] == name;
  }

  /** The extension of `dir/stem.ext` is `.ext` lower-cased, whatever dots the stem holds. */
  lemma ExtensionOf(dir: string, stem: string, ext: string)
    requires stem != "" && ext != "" && '.' !in ext && '/' !in stem && '/' !in ext
    ensures Extension(dir + "/" + stem + "." + ext) == Lower("." + ext)
  {
    var name := stem + "." + ext;
    assert dir + "/" + stem + "." + ext == dir + "/" + name;
    assert '/' !in name by {
      forall k | 0 <= k < |name|
        ensures name[k] != '/'
      {
        if k < |stem| { assert name[k] == stem[k]; }
        else if k > |stem| { assert name[k] == ext[k - |stem| - 1]; }
      }
    }
    NameOfJoin(dir, name);
    SuffixOfExtended(stem, ext);
  }

  lemma LowerPdf()
    ensures Lower(".PDF") == ".pdf"
  {
    var l := Lower(".PDF");
    assert l[0] == '.' && l[1] == 'p' && l[2] == 'd' && l[3] == 'f';
  }

  lemma LowerTxt()
    ensures Lower(".txt") == ".txt"
  {
    var l := Lower(".txt");
    assert l[0] == '.' && l[1] == 't' && l[2] == 'x' && l[3] == 't';
  }

  /** An upper-case suffix dispatches too: `X.PDF` is a PDF. */
  lemma UpperCaseSuffix(dir: string, stem: string)
    requires stem != "" && '/' !in stem
    ensures GetLoader(dir + "/" + stem + ".PDF") == Ok(PdfLoader)
  {
    UpperCaseExtension(dir, stem);
    GetLoaderSpec(dir + "/" + stem + ".PDF");
  }

  lemma UpperCaseExtension(dir: string, stem: string)
    requires stem != "" && '/' !in stem
    ensures Extension(dir + "/" + stem + ".PDF") == ".pdf"
  {
    assert ".PDF" == "." + "PDF";
    Regroup(dir + "/" + stem, ".", "PDF");
    ExtensionOf(dir, stem, "PDF");
    LowerPdf();
  }

  /** Only the last suffix counts: `a.pdf.txt` is a text file. */
  lemma LastSuffixCounts(dir: string, stem: string)
    requires stem != "" && '/' !in stem
    ensures GetLoader(dir + "/" + stem + ".pdf.txt") == Ok(TextLoader)
  {
    LastSuffixExtension(dir, stem);
    GetLoaderSpec(dir + "/" + stem + ".pdf.txt");
  }

  lemma LastSuffixExtension(dir: string, stem: string)
    requires stem != "" && '/' !in stem
    ensures Extension(dir + "/" + stem + ".pdf.txt") == ".txt"
  {
    var longer, name := stem + ".pdf", stem + ".pdf.txt";
    SlashFreeJoin(stem, ".pdf");
    PdfTxtLiteral();
    assert name == longer + "." + "txt";
    Regroup(dir + "/", stem, ".pdf.txt");
    NamedExtension(dir, name, longer, "txt");
    LowerTxt();
  }

  lemma Regroup(a: string, b: string, c: string)
    ensures a + b + c == a + (b + c)
  {
  }

  lemma PdfTxtLiteral()
    ensures ".pdf.txt" == ".pdf" + "." + "txt"
    ensures "." + "txt" == ".txt"
  {
  }

  lemma SlashFreeJoin(a: string, b: string)
    requires '/' !in a && '/' !in b
    ensures '/' !in a + b
  {
    forall k | 0 <= k < |a + b|
      ensures (a + b)[k] != '/'
    {
      if k < |a| { assert (a + b)[k] == a[k]; } else { assert (a + b)[k] == b[k - |a|]; }
    }
  }

  /** `ExtensionOf` for a name given whole. */
  lemma NamedExtension(dir: string, name: string, stem: string, ext: string)
    requires name == stem + "." + ext
    requires stem != "" && ext != "" && '.' !in ext && '/' !in stem && '/' !in ext
    ensures Extension(dir + "/" + name) == Lower("." + ext)
  {
    assert dir + "/" + name == dir + "/" + stem + "." + ext;
    ExtensionOf(dir, stem, ext);
  }

  /** A name without a dot has no suffix, so it is unsupported. */
  lemma NoDotUnsupported(dir: string, name: string)
    requires name != "" && name != "." && '/' !in name && '.' !in name
    ensures GetLoader(dir + "/" + name) == Err(ValueError("Unsupported file type: "))
  {
    NameOfJoin(dir, name);
    assert LastIndexOf(name, '.') == -1;
    assert Lower("") == "";
    GetLoaderSpec(dir + "/" + name);
    assert "Unsupported file type: " + "" == "Unsupported file type: ";
  }

  /** A name whose only dot starts it (a hidden file such as `.pdf`) has no suffix either. */
  lemma HiddenFileUnsupported(dir: string, ext: string)
    requires ext != "" && '/' !in ext && '.' !in ext
    ensures GetLoader(dir + "/" + "." + ext) == Err(ValueError("Unsupported file type: "))
  {
    var name := "." + ext;
    assert dir + "/" + "." + ext == dir + "/" + name;
    assert '/' !in name by {
      forall k | 0 <= k < |name|
        ensures name[k] != '/'
      {
        if k > 0 { assert name[k] == ext[k - 1]; }
      }
    }
    NameOfJoin(dir, name);
    assert name[0] == '.';
    assert LastIndexOf(name, '.') == 0 by {
      forall k | 0 < k < |name|
        ensures name[k] != '.'
      {
        assert name[k] == ext[k - 1];
      }
    }
    assert Lower("") == "";
    GetLoaderSpec(dir + "/" + name);
    assert "Unsupported file type: " + "" == "Unsupported file type: ";
  }

  /** What `load_document` raises is always a `ValueError`, never a `FileNotFoundError`; a
      missing file of a supported type says so in the message, and an existing one gives what
      the library read. */
  lemma LoadDocumentSpec(path: string, present: bool, library: Result<seq<Document>, Exc>)
    ensures var r := LoadDocument(path, present, library);
            && (r.Err? ==> r.error.ValueError?)
            && (GetLoader(path).Ok? && !present ==>
                  r == Err(ValueError("Failed to load " + KindLabel(GetLoader(path).value) +
                                      " document: " + NotFoundMessage(path))))
            && (GetLoader(path).Ok? && present && library.Ok? ==> r == library)
            && (GetLoader(path).Ok? && present && library.Err? ==>
                  r == Err(ValueError("Failed to load " + KindLabel(GetLoader(path).value) +
                                      " document: " + library.error.message)))
            && (GetLoader(path).Err? ==> r == Err(GetLoader(path).error))
  {
  }
}
