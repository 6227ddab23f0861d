/** Which loader, if any, the directory scan hands a file to, decided by its name. */
module FileTypes {
  import opened Wrappers
  import opened Text

  /** The three recognised formats, one per loader (plain text, markdown, CSV rows). */
  datatype FileKind = PlainText | Markdown | Csv

  /** The lower-case extension that selects each loader. */
  function Extension(kind: FileKind): string
  {
    match kind
    case PlainText => ".txt"
    case Markdown => ".md"
    case Csv => ".csv"
  }

  /** No file name carries two of the recognised extensions: they differ in their last character. */
  lemma ExtensionsExclusive(name: string, k1: FileKind, k2: FileKind)
    requires EndsWithIgnoringCase(name, Extension(k1))
    requires EndsWithIgnoringCase(name, Extension(k2))
    ensures k1 == k2
  {
    var e1, e2 := Extension(k1), Extension(k2);
    assert LowerChar(name[|name| - 1]) == e1[|e1| - 1];
    assert LowerChar(name[|name| - 1]) == e2[|e2| - 1];
  }

  /**
   * The dispatch on the lower-cased file name: `.txt`, then `.md`, then `.csv`;
   * every other name is skipped. A name gets a kind exactly when it ends,
   * ignoring case, with that kind's extension.
   */
  function Classify(name: string): (k: Option<FileKind>)
    ensures forall kind :: k == Some(kind) <==> EndsWithIgnoringCase(name, Extension(kind))
  {
    var fileNameLower := Lower(name);
    LowerEndsWith(name, ".txt");
    LowerEndsWith(name, ".md");
    LowerEndsWith(name, ".csv");
    assert forall k1, k2 ::
        EndsWithIgnoringCase(name, Extension(k1)) && EndsWithIgnoringCase(name, Extension(k2)) ==> k1 == k2 by {
      forall k1, k2 | EndsWithIgnoringCase(name, Extension(k1)) && EndsWithIgnoringCase(name, Extension(k2)) {
        ExtensionsExclusive(name, k1, k2);
      }
    }
    if EndsWith(fileNameLower, ".txt") then Some(PlainText)
    else if EndsWith(fileNameLower, ".md") then Some(Markdown)
    else if EndsWith(fileNameLower, ".csv") then Some(Csv)
    else None
  }

  /** Any stem followed by a recognised extension, in any letter case, is given to that loader. */
  lemma {:induction false} ClassifyWithExtension(stem: string, ext: string, kind: FileKind)
    requires Lower(ext) == Extension(kind)
    ensures Classify(stem + ext) == Some(kind)
  {
    var name := stem + ext;
    assert Lower(name)[|stem|..] == Lower(ext);
    LowerEndsWith(name, Extension(kind));
  }
}
