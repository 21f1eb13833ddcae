/** `DocumentProcessorFactory.get_processor`: choosing the processor for a
    file from the lower-cased suffix of its name. */
module ProcessorFactory {
  import opened Wrappers
  import opened Text

  /** The three processors, as tags: PDF, DOCX, and plain text/markdown. */
  datatype ProcessorKind = Pdf | Docx | PlainText

  /** `s.rfind(c)`: the index of the last occurrence of `c`, -1 if none. */
  function LastIndex(s: string, c: char): (r: int)
    ensures -1 <= r < |s|
    ensures r >= 0 ==> s[r] == c
    ensures forall j :: r < j < |s| ==> s[j] != c
  {
    if s == [] then -1
    else if s[|s| - 1] == c then |s| - 1
    else LastIndex(s[..|s| - 1], c)
  }

  /** `Path(path).name`: the final component, after the last '/'. */
  function FileName(path: string): (r: string)
    ensures '/' !in r
  {
    var i := LastIndex(path, '/');
    path[i + 1..]
  }

  /** `Path.suffix`: from the last '.' of the name, provided that dot is
      neither the first nor the last character; otherwise "". */
  function Suffix(name: string): (r: string)
    ensures r == [] || (r[0] == '.' && 2 <= |r| < |name| && '.' !in r[1..])
  {
    var i := LastIndex(name, '.');
    if 0 < i < |name| - 1 then name[i..] else ""
  }

  /** The suffixes `get_processor` accepts, and the processor each gets:
      ".pdf", ".docx", and ".txt", ".md" or ".markdown". */
  function Accepted(suffix: string): (r: Option<ProcessorKind>)
    ensures r.Some? ==> 3 <= |suffix| <= 9 && suffix[0] == '.'
  {
    if suffix == ".pdf" then Some(Pdf)
    else if suffix == ".docx" then Some(Docx)
    else if suffix == ".txt" || suffix == ".md" || suffix == ".markdown" then Some(PlainText)
    else None
  }

  /** `get_processor(path)`: the processor for the lower-cased suffix, or
      the `ValueError` naming that suffix. */
  function GetProcessor(path: string): (r: Result<ProcessorKind, string>)
    ensures r.Ok? ==> Accepted(Lower(Suffix(FileName(path)))) == Some(r.value)
    ensures r.Err? ==> && Accepted(Lower(Suffix(FileName(path)))) == None
                       && r.error == "Unsupported file type: " + Lower(Suffix(FileName(path)))
  {
    var suffix := Lower(Suffix(FileName(path)));
    match Accepted(suffix)
    case Some(kind) => Ok(kind)
    case None => Err("Unsupported file type: " + suffix)
  }

  /** Lower-casing keeps '.' and '/' exactly where they were. */
  lemma LowerKeepsMarks(s: string, c: char)
    requires c == '.' || c == '/'
    ensures LastIndex(Lower(s), c) == LastIndex(s, c)
  {
    var l := Lower(s);
    var i, j := LastIndex(l, c), LastIndex(s, c);
    forall k | 0 <= k < |s| ensures (l[k] == c) == (s[k] == c) {
      assert l[k] == LowerChar(s[k]);
    }
  }

  /** The file name of the lower-cased path is the lower-cased file name. */
  lemma FileNameLower(path: string)
    ensures FileName(Lower(path)) == Lower(FileName(path))
  {
    LowerKeepsMarks(path, '/');
    LowerSlice(path, LastIndex(path, '/') + 1, |path|);
  }

  /** The suffix of the lower-cased name is the lower-cased suffix. */
  lemma SuffixLower(name: string)
    ensures Suffix(Lower(name)) == Lower(Suffix(name))
  {
    LowerKeepsMarks(name, '.');
    var d := LastIndex(name, '.');
    var l := Lower(name);
    assert LastIndex(l, '.') == d && |l| == |name|;
    if 0 < d < |name| - 1 {
      LowerSlice(name, d, |name|);
      assert Suffix(l) == l[d..];
    } else {
      assert Suffix(l) == [] && Suffix(name) == [];
    }
  }

  /** The dispatch ignores case: a path and its lower-cased form get the same
      processor or the same error. */
  lemma CaseInsensitive(path: string)
    ensures GetProcessor(Lower(path)) == GetProcessor(path)
  {
    var name := FileName(path);
    FileNameLower(path);
    SuffixLower(name);
    LowerIdempotent(Suffix(name));
    SameSuffixSameProcessor(Lower(path), path);
  }

  /** Paths with the same lower-cased suffix get the same outcome. */
  lemma SameSuffixSameProcessor(p: string, q: string)
    requires Lower(Suffix(FileName(p))) == Lower(Suffix(FileName(q)))
    ensures GetProcessor(p) == GetProcessor(q)
  {
  }

  /** A path without '/' is its own file name. */
  lemma FileNameWithoutSlash(path: string)
    requires '/' !in path
    ensures FileName(path) == path
  {
    assert LastIndex(path, '/') == -1;
  }

  /** The suffix of "stem.ext" is ".ext", for a non-empty stem and an
      extension without a dot. */
  lemma SuffixOfName(stem: string, ext: string)
    requires stem != [] && ext != [] && '.' !in ext
    ensures Suffix(stem + "." + ext) == "." + ext
  {
    var name := stem + "." + ext;
    var i := LastIndex(name, '.');
    assert name[|stem|] == '.';
    assert name[|stem|..] == "." + ext;
  }

  /** The file "stem.ext", for a non-empty stem and a lower-case extension
      without a dot, gets the processor `Accepted` assigns to ".ext", or the
      error naming ".ext". */
  lemma {:induction false} Dispatch(stem: string, ext: string)
    requires Extension(ext) && stem != [] && '/' !in stem
    ensures GetProcessor(stem + "." + ext) == match Accepted("." + ext)
                                             case Some(k) => Ok(k)
                                             case None => Err("Unsupported file type: " + ("." + ext))
  {
    FileNameWithoutSlash(stem + "." + ext);
    SuffixOfName(stem, ext);
    LowerAppend(".", ext);
    assert Lower(".") == ".";
  }

  /** A lower-case extension without dots or slashes. */
  predicate Extension(ext: string) {
    ext != [] && '.' !in ext && '/' !in ext && Lower(ext) == ext
  }

  /** A word of lower-case letters is an extension. */
  lemma LetterExtension(ext: string)
    requires ext != [] && forall i :: 0 <= i < |ext| ==> 'a' <= ext[i] <= 'z'
    ensures Extension(ext)
  {
    var l := Lower(ext);
    forall i | 0 <= i < |ext| ensures l[i] == ext[i] {
      assert !IsUpper(ext[i]);
    }
  }

  /** The extensions of the processor tests are extensions. */
  lemma TestExtensions()
    ensures Extension("pdf") && Extension("docx") && Extension("txt")
    ensures Extension("md") && Extension("xyz")
  {
    LetterExtension("pdf");
    LetterExtension("docx");
    LetterExtension("txt");
    LetterExtension("md");
    LetterExtension("xyz");
  }

  /** What the suffixes of the processor tests are given. */
  lemma TestSuffixes()
    ensures Accepted("." + "pdf") == Some(Pdf)
    ensures Accepted("." + "docx") == Some(Docx)
    ensures Accepted("." + "txt") == Some(PlainText)
    ensures Accepted("." + "md") == Some(PlainText)
    ensures Accepted("." + "xyz") == None
  {
  }

  /** The processor tests with any stem: "stem.pdf", "stem.docx", "stem.txt"
      and "stem.md" are accepted with their processors, and "stem.xyz" is
      refused with the error naming ".xyz". */
  lemma FactoryTests(stem: string)
    requires stem != [] && '/' !in stem
    ensures GetProcessor(stem + "." + "pdf") == Ok(Pdf)
    ensures GetProcessor(stem + "." + "docx") == Ok(Docx)
    ensures GetProcessor(stem + "." + "txt") == Ok(PlainText)
    ensures GetProcessor(stem + "." + "md") == Ok(PlainText)
    ensures GetProcessor(stem + "." + "xyz") == Err("Unsupported file type: " + ("." + "xyz"))
  {
    TestExtensions();
    TestSuffixes();
    Dispatch(stem, "pdf");
    Dispatch(stem, "docx");
    Dispatch(stem, "txt");
    Dispatch(stem, "md");
    Dispatch(stem, "xyz");
  }

  /** A dot-file such as ".pdf" has no suffix, so it is refused. */
  lemma DotFileRefused(ext: string)
    requires '.' !in ext && '/' !in ext
    ensures GetProcessor("." + ext) == Err("Unsupported file type: ")
  {
    DotFileNoSuffix(ext);
    var suffix := Lower(Suffix(FileName("." + ext)));
    assert suffix == "" && Accepted(suffix) == None;
    assert "Unsupported file type: " + suffix == "Unsupported file type: ";
  }

  /** The name of a dot-file is the whole path, and its suffix is empty. */
  lemma DotFileNoSuffix(ext: string)
    requires '.' !in ext && '/' !in ext
    ensures Suffix(FileName("." + ext)) == ""
  {
    var name := "." + ext;
    FileNameWithoutSlash(name);
    assert LastIndex(name, '.') == 0 by {
      assert name[0] == '.';
      forall j | 0 < j < |name| ensures name[j] != '.' {
        assert name[j] == ext[j - 1];
      }
    }
  }
}
