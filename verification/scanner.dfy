/** The repository scan: a fold of the classifier over the source files, then a
    fold of the workflow detector over the data documents, both starting from the
    initial record. The walk itself is abstracted to the two sequences of files
    it would visit, in the order it would visit them. */
module Scanner {
  import opened Analysis
  import opened Classifier
  import opened Workflow

  /** A `.py` file of the walk: its path relative to the repository root and its
      text, or None when reading it raised (the scan then skips it). */
  datatype SourceFile = SourceFile(path: string, content: Option<string>)

  /** A `.yml` file of the walk: its path relative to the repository root and its
      parsed document, or None when parsing raised or produced an empty value (the
      scan then skips it). */
  datatype DataFile = DataFile(path: string, document: Option<Document>)

  /** The persona configuration, which the workflow pass never looks at. */
  const PromptPath: string := "marduk-v15.prompt.yml"

  /** The finding a source file contributes to a bucket, if any. */
  function SourceHit(s: Subsystem, f: SourceFile): Option<Finding> {
    match f.content
    case None => None
    case Some(c) => Classify(s, f.path, c)
  }

  /** The integration point a source file contributes, if any. */
  function SourcePoint(f: SourceFile): Option<IntegrationPoint> {
    match f.content
    case None => None
    case Some(c) => DetectIntegration(f.path, c)
  }

  /** Reference definition of a bucket after a scan: the findings of the matching
      files, filtered out of the file list in order. */
  function Matching(s: Subsystem, files: seq<SourceFile>): seq<Finding> {
    if |files| == 0 then [] else ToSeq(SourceHit(s, files[0])) + Matching(s, files[1..])
  }

  /** Reference definition of the integration points after a scan. */
  function Points(files: seq<SourceFile>): seq<IntegrationPoint> {
    if |files| == 0 then [] else ToSeq(SourcePoint(files[0])) + Points(files[1..])
  }

  /** The connection a data file contributes: one for a parsed, workflow-like
      document other than the persona configuration, none otherwise. */
  ghost function DocumentConnection(d: DataFile): seq<WorkflowConnection> {
    if d.path != PromptPath && d.document.Some? && LooksLikeWorkflow(d.document.value)
    then [WorkflowConnection(d.path, WorkflowKind, WorkflowPotential)]
    else []
  }

  /** Reference definition of the workflow connections after a scan. */
  ghost function Connections(docs: seq<DataFile>): seq<WorkflowConnection> {
    if |docs| == 0 then [] else DocumentConnection(docs[0]) + Connections(docs[1..])
  }

  /** One step of the source pass: an unreadable file is skipped. */
  function VisitSource(f: SourceFile, a: Record): (r: Record)
    requires HasAllSubsystems(a)
    ensures HasAllSubsystems(r)
    ensures forall s: Subsystem :: r.subsystems[s] == a.subsystems[s] + ToSeq(SourceHit(s, f))
    ensures r.integrationPoints == a.integrationPoints + ToSeq(SourcePoint(f))
    ensures r.workflowConnections == a.workflowConnections
    ensures r.emergentPatterns == a.emergentPatterns
  {
    match f.content
    case None => a
    case Some(c) => AnalyzeFile(f.path, c, a)
  }

  /** The source pass as a left fold: each bucket ends as it began followed by
      the matching files' findings in file order. */
  function ScanSources(files: seq<SourceFile>, a: Record): (r: Record)
    requires HasAllSubsystems(a)
    ensures HasAllSubsystems(r)
    ensures forall s: Subsystem :: r.subsystems[s] == a.subsystems[s] + Matching(s, files)
    ensures r.integrationPoints == a.integrationPoints + Points(files)
    ensures r.workflowConnections == a.workflowConnections
    ensures r.emergentPatterns == a.emergentPatterns
    decreases |files|
  {
    if |files| == 0 then a
    else
      var b := VisitSource(files[0], a);
      var r := ScanSources(files[1..], b);
      forall s: Subsystem ensures r.subsystems[s] == a.subsystems[s] + Matching(s, files) {
        FoldStepBucket(s, files, a.subsystems[s], b.subsystems[s], r.subsystems[s]);
      }
      FoldStepPoints(files, a.integrationPoints, b.integrationPoints, r.integrationPoints);
      r
  }

  /** One step of the document pass: the persona configuration and documents that
      did not parse to a non-empty value are skipped. */
  function VisitDocument(f: DataFile, a: Record): (r: Record)
    ensures r == a.(workflowConnections := a.workflowConnections + DocumentConnection(f))
  {
    if f.path != PromptPath && f.document.Some? then DetectWorkflow(f.path, f.document.value, a) else a
  }

  lemma Associative<T>(x: seq<T>, y: seq<T>, z: seq<T>)
    ensures (x + y) + z == x + (y + z)
  {
  }

  /** One step of the source fold for a bucket: what the first file adds,
      followed by what the rest add, is what all of them add. */
  lemma FoldStepBucket(s: Subsystem, files: seq<SourceFile>, a: seq<Finding>, b: seq<Finding>, r: seq<Finding>)
    requires |files| > 0
    requires b == a + ToSeq(SourceHit(s, files[0]))
    requires r == b + Matching(s, files[1..])
    ensures r == a + Matching(s, files)
  {
    var h, m := ToSeq(SourceHit(s, files[0])), Matching(s, files[1..]);
    assert Matching(s, files) == h + m;
    Associative(a, h, m);
  }

  /** The same step for the integration points. */
  lemma FoldStepPoints(files: seq<SourceFile>, a: seq<IntegrationPoint>, b: seq<IntegrationPoint>, r: seq<IntegrationPoint>)
    requires |files| > 0
    requires b == a + ToSeq(SourcePoint(files[0]))
    requires r == b + Points(files[1..])
    ensures r == a + Points(files)
  {
    var p, q := ToSeq(SourcePoint(files[0])), Points(files[1..]);
    assert Points(files) == p + q;
    Associative(a, p, q);
  }

  /** The same step for the workflow connections. */
  lemma FoldStepConnections(docs: seq<DataFile>, a: seq<WorkflowConnection>, b: seq<WorkflowConnection>, r: seq<WorkflowConnection>)
    requires |docs| > 0
    requires b == a + DocumentConnection(docs[0])
    requires r == b + Connections(docs[1..])
    ensures r == a + Connections(docs)
  {
    var c, rest := DocumentConnection(docs[0]), Connections(docs[1..]);
    assert Connections(docs) == c + rest;
    Associative(a, c, rest);
  }

  /** The document pass as a left fold: only the workflow connections grow. */
  function ScanDocuments(docs: seq<DataFile>, a: Record): (r: Record)
    ensures r.subsystems == a.subsystems
    ensures r.integrationPoints == a.integrationPoints
    ensures r.workflowConnections == a.workflowConnections + Connections(docs)
    ensures r.emergentPatterns == a.emergentPatterns
    decreases |docs|
  {
    if |docs| == 0 then a
    else
      var b := VisitDocument(docs[0], a);
      var r := ScanDocuments(docs[1..], b);
      FoldStepConnections(docs, a.workflowConnections, b.workflowConnections, r.workflowConnections);
      r
  }

  /** `analyze_repository_structure`: all four buckets present, each holding the
      findings of the matching source files in walk order, and the emergent
      patterns left empty, whatever the input, the empty repository included. */
  function Scan(sources: seq<SourceFile>, docs: seq<DataFile>): (r: Record)
    ensures HasAllSubsystems(r)
    ensures forall s: Subsystem :: r.subsystems[s] == Matching(s, sources)
    ensures r.integrationPoints == Points(sources)
    ensures r.workflowConnections == Connections(docs)
    ensures r.emergentPatterns == []
  {
    ScanDocuments(docs, ScanSources(sources, Initial()))
  }

  /** A bucket's findings keep the walk order: those of an earlier stretch of files
      come before those of a later one. */
  lemma {:induction false} MatchingAppend(s: Subsystem, xs: seq<SourceFile>, ys: seq<SourceFile>)
    ensures Matching(s, xs + ys) == Matching(s, xs) + Matching(s, ys)
    decreases |xs|
  {
    if |xs| > 0 {
      assert (xs + ys)[0] == xs[0];
      assert (xs + ys)[1..] == xs[1..] + ys;
      MatchingAppend(s, xs[1..], ys);
      Associative(ToSeq(SourceHit(s, xs[0])), Matching(s, xs[1..]), Matching(s, ys));
    } else {
      assert xs + ys == ys;
    }
  }

  /** The integration points keep the walk order too. */
  lemma {:induction false} PointsAppend(xs: seq<SourceFile>, ys: seq<SourceFile>)
    ensures Points(xs + ys) == Points(xs) + Points(ys)
    decreases |xs|
  {
    if |xs| > 0 {
      assert (xs + ys)[0] == xs[0];
      assert (xs + ys)[1..] == xs[1..] + ys;
      PointsAppend(xs[1..], ys);
      Associative(ToSeq(SourcePoint(xs[0])), Points(xs[1..]), Points(ys));
    } else {
      assert xs + ys == ys;
    }
  }

  /** So do the workflow connections. */
  lemma {:induction false} ConnectionsAppend(xs: seq<DataFile>, ys: seq<DataFile>)
    ensures Connections(xs + ys) == Connections(xs) + Connections(ys)
    decreases |xs|
  {
    if |xs| > 0 {
      assert (xs + ys)[0] == xs[0];
      assert (xs + ys)[1..] == xs[1..] + ys;
      ConnectionsAppend(xs[1..], ys);
      Associative(DocumentConnection(xs[0]), Connections(xs[1..]), Connections(ys));
    } else {
      assert xs + ys == ys;
    }
  }

  /** A finding is in a bucket after the scan exactly when some readable file of
      the walk produced it. */
  lemma {:induction false} MatchingMembers(s: Subsystem, files: seq<SourceFile>, x: Finding)
    ensures x in Matching(s, files) <==> exists i :: 0 <= i < |files| && SourceHit(s, files[i]) == Some(x)
    decreases |files|
  {
    if |files| > 0 {
      MatchingMembers(s, files[1..], x);
      if exists i :: 0 <= i < |files| && SourceHit(s, files[i]) == Some(x) {
        var i :| 0 <= i < |files| && SourceHit(s, files[i]) == Some(x);
        if i > 0 {
          assert SourceHit(s, files[1..][i - 1]) == Some(x);
        }
      }
      if x in Matching(s, files[1..]) {
        var i :| 0 <= i < |files[1..]| && SourceHit(s, files[1..][i]) == Some(x);
        assert SourceHit(s, files[i + 1]) == Some(x);
      }
    }
  }

  /** Every file contributes at most one finding to a bucket. */
  lemma {:induction false} MatchingAtMostOnePerFile(s: Subsystem, files: seq<SourceFile>)
    ensures |Matching(s, files)| <= |files|
    decreases |files|
  {
    if |files| > 0 {
      MatchingAtMostOnePerFile(s, files[1..]);
    }
  }

  /** Every file contributes at most one integration point. */
  lemma {:induction false} PointsAtMostOnePerFile(files: seq<SourceFile>)
    ensures |Points(files)| <= |files|
    decreases |files|
  {
    if |files| > 0 {
      PointsAtMostOnePerFile(files[1..]);
    }
  }

  /** Every document contributes at most one workflow connection. */
  lemma {:induction false} ConnectionsAtMostOnePerDocument(docs: seq<DataFile>)
    ensures |Connections(docs)| <= |docs|
    decreases |docs|
  {
    if |docs| > 0 {
      ConnectionsAtMostOnePerDocument(docs[1..]);
    }
  }

  /** The persona configuration is never reported as a workflow connection. */
  lemma {:induction false} PromptNeverConnected(docs: seq<DataFile>)
    ensures forall w :: w in Connections(docs) ==> w.file != PromptPath
    decreases |docs|
  {
    if |docs| > 0 {
      PromptNeverConnected(docs[1..]);
    }
  }

  /** A repository with nothing to read yields the initial record. */
  lemma EmptyRepository()
    ensures Scan([], []) == Initial()
  {
    var r := Scan([], []);
    assert forall s: Subsystem :: r.subsystems[s] == Initial().subsystems[s];
  }

  /** The totals are additive: scanning two stretches of the walk together counts
      what scanning them apart counts. */
  lemma ScanTotalsAdditive(xs: seq<SourceFile>, ys: seq<SourceFile>, ds: seq<DataFile>, es: seq<DataFile>)
    ensures TotalPatterns(Scan(xs + ys, ds + es)) == TotalPatterns(Scan(xs, ds)) + TotalPatterns(Scan(ys, es))
    ensures TotalIntegrations(Scan(xs + ys, ds + es)) == TotalIntegrations(Scan(xs, ds)) + TotalIntegrations(Scan(ys, es))
  {
    MatchingAppend(Memory, xs, ys);
    MatchingAppend(Task, xs, ys);
    MatchingAppend(AI, xs, ys);
    MatchingAppend(Autonomy, xs, ys);
    PointsAppend(xs, ys);
    ConnectionsAppend(ds, es);
  }

  /** Each source file adds at most four patterns; each file of either kind at most
      one integration. */
  lemma ScanTotalsBounded(xs: seq<SourceFile>, ds: seq<DataFile>)
    ensures TotalPatterns(Scan(xs, ds)) <= 4 * |xs|
    ensures TotalIntegrations(Scan(xs, ds)) <= |xs| + |ds|
  {
    MatchingAtMostOnePerFile(Memory, xs);
    MatchingAtMostOnePerFile(Task, xs);
    MatchingAtMostOnePerFile(AI, xs);
    MatchingAtMostOnePerFile(Autonomy, xs);
    PointsAtMostOnePerFile(xs);
    ConnectionsAtMostOnePerDocument(ds);
  }
}
