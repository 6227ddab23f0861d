/**
 * Directory ingestion: the walk over the knowledge-base directory, the
 * per-file load that tolerates failures, and the all-or-nothing update of
 * the vector store. Loaders, the text splitter and the vector store are
 * collaborators whose outcomes are given as function parameters.
 */
module Ingestion {
  import opened Wrappers
  import opened Text
  import opened FileTypes
  import opened Providers

  /** A loaded document: its text and its metadata (source path, row, ...). */
  datatype Document = Document(pageContent: string, metadata: map<string, string>)

  /** One directory the walk visits: its path and the names of the files directly in it. */
  datatype WalkEntry = WalkEntry(root: string, files: seq<string>)

  /** A file found by the walk; the loader receives the path built from both parts. */
  datatype FileRef = FileRef(root: string, name: string)

  /** What the chosen loader's `load()` does: return documents or raise. */
  datatype LoadResult = Loaded(docs: seq<Document>) | LoadFailed(error: string)

  /** What `split_documents` does: return the chunks or raise. */
  datatype SplitResult = Split(texts: seq<Document>) | SplitFailed(error: string)

  /** What building the vector store from the chunks does: succeed or raise. */
  datatype BuildResult = Built | BuildFailed(error: string)

  type Loader = (FileRef, FileKind) -> LoadResult
  type Splitter = seq<Document> -> SplitResult
  type StoreBuilder = (seq<Document>, Embeddings) -> BuildResult

  /** A vector store holds exactly the chunks it was built from, embedded by one client. */
  datatype VectorStore = VectorStore(chunks: seq<Document>, embeddings: Embeddings)

  /** The string `ingest_directory` returns, by case. */
  datatype IngestReport =
    | DirectoryNotFound(path: string)
    | NoDocuments
    | StoreError(error: string)
    | Ingested(chunks: nat, files: nat)

  function FilesOf(entry: WalkEntry): (fs: seq<FileRef>)
    ensures |fs| == |entry.files|
    ensures forall j :: 0 <= j < |fs| ==> fs[j] == FileRef(entry.root, entry.files[j])
  {
    seq(|entry.files|, j requires 0 <= j < |entry.files| => FileRef(entry.root, entry.files[j]))
  }

  /** The files of the walk in the order the nested loops visit them. */
  function Flatten(walk: seq<WalkEntry>): seq<FileRef>
    decreases |walk|
  {
    if walk == [] then [] else Flatten(walk[..|walk| - 1]) + FilesOf(walk[|walk| - 1])
  }

  /** What the try block makes of one file: skipped by its name, loaded, or its load raised. */
  datatype FileOutcome = Skipped | Succeeded(docs: seq<Document>) | Failed(error: string)

  function Outcome(f: FileRef, load: Loader): FileOutcome
  {
    match Classify(f.name)
    case None => Skipped
    case Some(kind) =>
      match load(f, kind)
      case Loaded(docs) => Succeeded(docs)
      case LoadFailed(e) => Failed(e)
  }

  function Outcomes(files: seq<FileRef>, load: Loader): (r: seq<FileOutcome>)
    ensures |r| == |files|
    ensures forall i :: 0 <= i < |files| ==> r[i] == Outcome(files[i], load)
  {
    seq(|files|, i requires 0 <= i < |files| => Outcome(files[i], load))
  }

  lemma OutcomesAppend(a: seq<FileRef>, b: seq<FileRef>, load: Loader)
    ensures Outcomes(a + b, load) == Outcomes(a, load) + Outcomes(b, load)
  {
    assert forall i :: 0 <= i < |a + b| ==> (a + b)[i] == if i < |a| then a[i] else b[i - |a|];
  }

  /** The two accumulators of the scan: `all_documents` and `files_processed`. */
  datatype ScanState = ScanState(documents: seq<Document>, filesProcessed: nat)

  /** The body of the inner loop for one file: skip it, extend and count, or swallow the load error. */
  function Visit(st: ScanState, o: FileOutcome): ScanState
  {
    match o
    case Skipped => st
    case Succeeded(docs) => ScanState(st.documents + docs, st.filesProcessed + 1)
    case Failed(_) => st
  }

  /** The scan as the loop runs it: a left fold of Visit over the outcomes. */
  function Scan(outs: seq<FileOutcome>): ScanState
    decreases |outs|
  {
    if outs == [] then ScanState([], 0)
    else Visit(Scan(outs[..|outs| - 1]), outs[|outs| - 1])
  }

  /** Reference count: the files that are recognised and load without raising. */
  function Successes(outs: seq<FileOutcome>): nat
  {
    if outs == [] then 0
    else (if outs[0].Succeeded? then 1 else 0) + Successes(outs[1..])
  }

  function Failures(outs: seq<FileOutcome>): nat
  {
    if outs == [] then 0
    else (if outs[0].Failed? then 1 else 0) + Failures(outs[1..])
  }

  function Unrecognised(outs: seq<FileOutcome>): nat
  {
    if outs == [] then 0
    else (if outs[0].Skipped? then 1 else 0) + Unrecognised(outs[1..])
  }

  function DocumentsOf(o: FileOutcome): seq<Document>
  {
    if o.Succeeded? then o.docs else []
  }

  /** Reference documents: the documents of each successfully loaded file, concatenated in file order. */
  function LoadedDocuments(outs: seq<FileOutcome>): seq<Document>
  {
    if outs == [] then [] else DocumentsOf(outs[0]) + LoadedDocuments(outs[1..])
  }

  lemma Associative<T>(x: seq<T>, y: seq<T>, z: seq<T>)
    ensures x + (y + z) == (x + y) + z
  {
  }

  lemma {:induction false} SuccessesAppend(a: seq<FileOutcome>, b: seq<FileOutcome>)
    ensures Successes(a + b) == Successes(a) + Successes(b)
  {
    if a != [] {
      var t := a[1..];
      assert (a + b)[1..] == t + b;
      assert (a + b)[0] == a[0];
      SuccessesAppend(t, b);
    } else {
      assert a + b == b;
    }
  }

  lemma {:induction false} LoadedDocumentsAppend(a: seq<FileOutcome>, b: seq<FileOutcome>)
    ensures LoadedDocuments(a + b) == LoadedDocuments(a) + LoadedDocuments(b)
  {
    if a != [] {
      var t := a[1..];
      assert (a + b)[1..] == t + b;
      assert (a + b)[0] == a[0];
      LoadedDocumentsAppend(t, b);
      Associative(DocumentsOf(a[0]), LoadedDocuments(t), LoadedDocuments(b));
    } else {
      assert a + b == b;
    }
  }

  /**
   * The loop's accumulators are the reference: `all_documents` is the in-order
   * concatenation of the successfully loaded files' documents, and
   * `files_processed` counts exactly those files.
   */
  lemma {:induction false} ScanIsReference(outs: seq<FileOutcome>)
    ensures Scan(outs) == ScanState(LoadedDocuments(outs), Successes(outs))
    decreases |outs|
  {
    if outs != [] {
      var init, last := outs[..|outs| - 1], outs[|outs| - 1];
      ScanIsReference(init);
      SuccessesAppend(init, [last]);
      LoadedDocumentsAppend(init, [last]);
      assert init + [last] == outs;
    }
  }

  lemma {:induction false} SkippedOutcomeIsIgnored(xs: seq<FileOutcome>, o: FileOutcome, ys: seq<FileOutcome>)
    requires !o.Succeeded?
    ensures Scan(xs + [o] + ys) == Scan(xs + ys)
    decreases |ys|
  {
    if ys == [] {
      assert xs + [o] + ys == xs + [o];
      assert (xs + [o])[..|xs|] == xs;
      assert xs + ys == xs;
    } else {
      var ys', y := ys[..|ys| - 1], ys[|ys| - 1];
      SkippedOutcomeIsIgnored(xs, o, ys');
      assert (xs + [o] + ys)[..|xs + [o] + ys| - 1] == xs + [o] + ys';
      assert (xs + ys)[..|xs + ys| - 1] == xs + ys';
    }
  }

  /**
   * A file that is skipped or whose load raises leaves the scan as if it were
   * absent: it is not counted and the files after it are still processed.
   */
  lemma FailedFileIsIgnored(before: seq<FileRef>, f: FileRef, after: seq<FileRef>, load: Loader)
    requires !Outcome(f, load).Succeeded?
    ensures Scan(Outcomes(before + [f] + after, load)) == Scan(Outcomes(before + after, load))
  {
    OutcomesAppend(before + [f], after, load);
    OutcomesAppend(before, [f], load);
    OutcomesAppend(before, after, load);
    assert Outcomes([f], load) == [Outcome(f, load)];
    SkippedOutcomeIsIgnored(Outcomes(before, load), Outcome(f, load), Outcomes(after, load));
  }

  /** Every file is exactly one of counted, failed or skipped. */
  lemma {:induction false} FilesPartition(outs: seq<FileOutcome>)
    ensures Successes(outs) + Failures(outs) + Unrecognised(outs) == |outs|
  {
    if outs != [] {
      FilesPartition(outs[1..]);
    }
  }

  /** Without a successful load there are no documents. */
  lemma {:induction false} NothingLoadedNoDocuments(outs: seq<FileOutcome>)
    ensures Successes(outs) == 0 ==> LoadedDocuments(outs) == []
  {
    if outs != [] {
      NothingLoadedNoDocuments(outs[1..]);
    }
  }

  lemma PrefixStep<T>(xs: seq<T>, ys: seq<T>, j: nat)
    requires j < |ys|
    ensures xs + ys[..j + 1] == (xs + ys[..j]) + [ys[j]]
  {
    assert ys[..j + 1] == ys[..j] + [ys[j]];
  }

  /** Scanning one more outcome is one more Visit. */
  lemma ScanSnoc(outs: seq<FileOutcome>, o: FileOutcome)
    ensures Scan(outs + [o]) == Visit(Scan(outs), o)
  {
    assert (outs + [o])[..|outs|] == outs;
  }

  lemma OutcomeStep(prefix: seq<FileRef>, file: FileRef, load: Loader)
    ensures Outcomes(prefix + [file], load) == Outcomes(prefix, load) + [Outcome(file, load)]
  {
    OutcomesAppend(prefix, [file], load);
    assert Outcomes([file], load) == [Outcome(file, load)];
  }

  /** The files of one more walk entry follow those of the entries before it. */
  lemma FlattenStep(walk: seq<WalkEntry>, i: nat)
    requires i < |walk|
    ensures Flatten(walk[..i + 1]) == Flatten(walk[..i]) + FilesOf(walk[i])
  {
    assert walk[..i + 1][..i] == walk[..i];
  }

  /**
   * The body of the try block for one file: choose the loader by the
   * lower-cased name (`.txt`, then `.md`, then `.csv`), or none; call it if
   * there is one. A raised load error is caught and the file skipped.
   */
  method TryLoad(file: FileRef, load: Loader) returns (outcome: FileOutcome)
    ensures outcome.Skipped? <==> Classify(file.name).None?
    ensures outcome.Succeeded? <==> Classify(file.name).Some? && load(file, Classify(file.name).value).Loaded?
    ensures outcome.Succeeded? ==> outcome.docs == load(file, Classify(file.name).value).docs
    ensures outcome == Outcome(file, load)
  {
    var kind := Classify(file.name);
    outcome := Skipped;
    if kind.Some? {
      var result := load(file, kind.value);
      match result
      case Loaded(docs) => outcome := Succeeded(docs);
      case LoadFailed(e) => outcome := Failed(e);
    }
  }

  /**
   * The inner loop, over the files of one directory of the walk, with the
   * try/except around each file: `all_documents` is extended in place and
   * `files_processed` incremented, continuing the scan of the files before.
   */
  method ScanDirectory(entry: WalkEntry, load: Loader, ghost visited: seq<FileRef>,
                       documents: seq<Document>, count: nat)
    returns (allDocuments: seq<Document>, filesProcessed: nat)
    requires ScanState(documents, count) == Scan(Outcomes(visited, load))
    ensures ScanState(allDocuments, filesProcessed) == Scan(Outcomes(visited + FilesOf(entry), load))
  {
    allDocuments, filesProcessed := documents, count;
    var j := 0;
    ghost var outs := Outcomes(visited, load);
    assert visited + FilesOf(entry)[..j] == visited;
    while j < |entry.files|
      invariant 0 <= j <= |entry.files|
      invariant outs == Outcomes(visited + FilesOf(entry)[..j], load)
      invariant ScanState(allDocuments, filesProcessed) == Scan(outs)
    {
      var file := FileRef(entry.root, entry.files[j]);
      var outcome := TryLoad(file, load);
      if outcome.Succeeded? {
        allDocuments := allDocuments + outcome.docs;
        filesProcessed := filesProcessed + 1;
      }
      PrefixStep(visited, FilesOf(entry), j);
      OutcomeStep(visited + FilesOf(entry)[..j], file, load);
      ScanSnoc(outs, Outcome(file, load));
      outs := outs + [Outcome(file, load)];
      j := j + 1;
    }
    assert FilesOf(entry)[..j] == FilesOf(entry);
  }

  /**
   * The walk of `ingest_directory`: the outer loop over the directories,
   * the inner one over their files. The result is the reference: the
   * documents of the successfully loaded files in walk order, and their number.
   */
  method CollectDocuments(walk: seq<WalkEntry>, load: Loader) returns (allDocuments: seq<Document>, filesProcessed: nat)
    ensures allDocuments == LoadedDocuments(Outcomes(Flatten(walk), load))
    ensures filesProcessed == Successes(Outcomes(Flatten(walk), load))
  {
    allDocuments, filesProcessed := [], 0;
    var i := 0;
    while i < |walk|
      invariant 0 <= i <= |walk|
      invariant ScanState(allDocuments, filesProcessed) == Scan(Outcomes(Flatten(walk[..i]), load))
    {
      allDocuments, filesProcessed := ScanDirectory(walk[i], load, Flatten(walk[..i]), allDocuments, filesProcessed);
      FlattenStep(walk, i);
      i := i + 1;
    }
    assert walk[..i] == walk;
    ScanIsReference(Outcomes(Flatten(walk), load));
  }

  /**
   * What one call of `ingest_directory` returns and what `vector_store`
   * becomes, given whether the path exists, the walk, the collaborators and
   * the store before the call.
   */
  function IngestOutcome(path: string, pathExists: bool, walk: seq<WalkEntry>, load: Loader, split: Splitter,
                         build: StoreBuilder, embeddings: Embeddings, current: Option<VectorStore>)
    : (r: (IngestReport, Option<VectorStore>))
    ensures !pathExists ==> r == (DirectoryNotFound(path), current)
    ensures pathExists && LoadedDocuments(Outcomes(Flatten(walk), load)) == [] ==> r == (NoDocuments, current)
    ensures pathExists && Successes(Outcomes(Flatten(walk), load)) == 0 ==> r == (NoDocuments, current)
    ensures pathExists && LoadedDocuments(Outcomes(Flatten(walk), load)) != [] ==>
      var docs := LoadedDocuments(Outcomes(Flatten(walk), load));
      (split(docs).SplitFailed? ==> r == (StoreError(split(docs).error), current)) &&
      (split(docs).Split? && build(split(docs).texts, embeddings).BuildFailed? ==>
         r == (StoreError(build(split(docs).texts, embeddings).error), current))
    ensures r.1 != current ==> r.0.Ingested?
    ensures !r.0.Ingested? ==> r.1 == current
    ensures r.0.Ingested? <==>
      pathExists && LoadedDocuments(Outcomes(Flatten(walk), load)) != [] &&
      split(LoadedDocuments(Outcomes(Flatten(walk), load))).Split? &&
      build(split(LoadedDocuments(Outcomes(Flatten(walk), load))).texts, embeddings).Built?
    ensures r.0.Ingested? ==>
      var texts := split(LoadedDocuments(Outcomes(Flatten(walk), load))).texts;
      r.1 == Some(VectorStore(texts, embeddings)) &&
      r.0.chunks == |texts| && r.0.files == Successes(Outcomes(Flatten(walk), load))
  {
    ScanIsReference(Outcomes(Flatten(walk), load));
    NothingLoadedNoDocuments(Outcomes(Flatten(walk), load));
    if !pathExists then (DirectoryNotFound(path), current)
    else
      var scan := Scan(Outcomes(Flatten(walk), load));
      if scan.documents == [] then (NoDocuments, current)
      else
        match split(scan.documents)
        case SplitFailed(e) => (StoreError(e), current)
        case Split(texts) =>
          match build(texts, embeddings)
          case BuildFailed(e) => (StoreError(e), current)
          case Built => (Ingested(|texts|, scan.filesProcessed), Some(VectorStore(texts, embeddings)))
  }

  /** The message text for each report. */
  function Render(report: IngestReport): string
  {
    match report
    case DirectoryNotFound(path) => "Directory not found: " + path
    case NoDocuments => "No valid documents found in KB directory."
    case StoreError(e) => "Error creating vector store: " + e
    case Ingested(chunks, files) =>
      "Successfully ingested " + NatToString(chunks) + " chunks from " + NatToString(files) + " files."
  }

  function Tag(report: IngestReport): char
  {
    match report
    case DirectoryNotFound(_) => 'D'
    case NoDocuments => 'N'
    case StoreError(_) => 'E'
    case Ingested(_, _) => 'S'
  }

  lemma RenderTag(report: IngestReport)
    ensures |Render(report)| > 0 && Render(report)[0] == Tag(report)
  {
  }

  lemma RenderPathInjective(p1: string, p2: string)
    requires Render(DirectoryNotFound(p1)) == Render(DirectoryNotFound(p2))
    ensures p1 == p2
  {
    var p := "Directory not found: ";
    assert p1 == Render(DirectoryNotFound(p1))[|p|..];
    assert p2 == Render(DirectoryNotFound(p2))[|p|..];
  }

  lemma RenderErrorInjective(e1: string, e2: string)
    requires Render(StoreError(e1)) == Render(StoreError(e2))
    ensures e1 == e2
  {
    var p := "Error creating vector store: ";
    assert e1 == Render(StoreError(e1))[|p|..];
    assert e2 == Render(StoreError(e2))[|p|..];
  }

  lemma PrefixCancel(p: string, x: string, y: string)
    requires p + x == p + y
    ensures x == y
  {
    assert x == (p + x)[|p|..];
    assert y == (p + y)[|p|..];
  }

  lemma Reassociate(a: string, b: string, c: string, d: string, e: string)
    ensures a + b + c + d + e == a + (b + (c + (d + e)))
  {
  }

  /** The success message determines both counts it reports. */
  lemma RenderCountsInjective(c1: nat, f1: nat, c2: nat, f2: nat)
    requires Render(Ingested(c1, f1)) == Render(Ingested(c2, f2))
    ensures c1 == c2 && f1 == f2
  {
    var p, m, q := "Successfully ingested ", " chunks from ", " files.";
    var n1, n2 := NatToString(c1), NatToString(c2);
    var g1, g2 := NatToString(f1), NatToString(f2);
    Reassociate(p, n1, m, g1, q);
    Reassociate(p, n2, m, g2, q);
    PrefixCancel(p, n1 + (m + (g1 + q)), n2 + (m + (g2 + q)));
    assert (m + (g1 + q))[0] == ' ' && (m + (g2 + q))[0] == ' ';
    NumeralPrefixUnique(c1, m + (g1 + q), c2, m + (g2 + q));
    PrefixCancel(m, g1 + q, g2 + q);
    NumeralPrefixUnique(f1, q, f2, q);
  }

  /**
   * Distinct reports render to distinct messages: the caller can read the
   * case, the path, the error, and the chunk and file counts back from the
   * string.
   */
  lemma RenderInjective(a: IngestReport, b: IngestReport)
    requires Render(a) == Render(b)
    ensures a == b
  {
    RenderTag(a);
    RenderTag(b);
    if a.DirectoryNotFound? {
      RenderPathInjective(a.path, b.path);
    } else if a.StoreError? {
      RenderErrorInjective(a.error, b.error);
    } else if a.Ingested? {
      RenderCountsInjective(a.chunks, a.files, b.chunks, b.files);
    }
  }
}
