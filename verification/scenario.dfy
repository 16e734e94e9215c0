/** The whole scan worked through on a two-file repository: one source file whose
    only cue is a cache class, one CI document with a `jobs` key. */
module Scenario {
  import opened Text
  import opened Analysis
  import opened Classifier
  import opened Workflow
  import opened Scanner

  /** A keyword with a character the text never contains does not occur in it. */
  lemma MissingCharacter(k: string, s: string, j: nat)
    requires j < |k|
    requires k[j] !in s
    ensures !Occurs(k, s)
  {
    forall i: nat | i <= |s|
      ensures !MatchesAt(s, i, k)
    {
      if i + |k| <= |s| {
        assert s[i..i + |k|][j] == s[i + j];
        assert s[i + j] in s;
      }
    }
  }

  /** The sample text, lower-cased. */
  const SampleLower: string := "class memorycache"

  lemma SampleLowered(content: string)
    requires content == "class MemoryCache"
    ensures Lower(content) == SampleLower
  {
  }

  lemma SampleHasNoTaskKeyword()
    ensures !OccursAny(TaskKeywords, SampleLower)
  {
    var lc := SampleLower;
    MissingCharacter("execute", lc, 1);
    MissingCharacter("workflow", lc, 0);
    MissingCharacter("task", lc, 0);
    MissingCharacter("process", lc, 0);
  }

  lemma SampleHasNoAIKeyword()
    ensures !OccursAny(AIKeywords, SampleLower)
  {
    var lc := SampleLower;
    MissingCharacter("model", lc, 2);
    MissingCharacter("inference", lc, 0);
    MissingCharacter("neural", lc, 0);
    MissingCharacter("ai", lc, 1);
    // The one keyword made of letters the text has: its only `m` is followed by `e`.
    forall i: nat | i <= |lc|
      ensures !MatchesAt(lc, i, "ml")
    {
      if i + 2 <= |lc| {
        assert lc[i..i + 2] == [lc[i], lc[i + 1]];
      }
    }
  }

  lemma SampleHasNoAutonomyKeyword()
    ensures !OccursAny(AutonomyKeywords, SampleLower)
  {
    var lc := SampleLower;
    MissingCharacter("auto", lc, 1);
    MissingCharacter("self", lc, 3);
    MissingCharacter("adaptive", lc, 1);
    MissingCharacter("dynamic", lc, 0);
  }

  lemma SampleHasNoIntegrationKeyword()
    ensures !OccursAny(IntegrationKeywords, SampleLower)
  {
    var lc := SampleLower;
    MissingCharacter("atom", lc, 1);
    MissingCharacter("knowledge", lc, 0);
    MissingCharacter("reasoning", lc, 6);
    MissingCharacter("semantic", lc, 4);
  }

  /** The lower-cased sample text contains `cache` and none of the Task, AI,
      Autonomy or integration keywords. */
  lemma SampleMentionsOnlyMemory(content: string)
    requires content == "class MemoryCache"
    ensures Occurs("cache", Lower(content))
    ensures !Mentions(content, TaskKeywords)
    ensures !Mentions(content, AIKeywords)
    ensures !Mentions(content, AutonomyKeywords)
    ensures !Mentions(content, IntegrationKeywords)
  {
    SampleLowered(content);
    var lc := SampleLower;
    assert lc[12..17] == "cache";
    assert MatchesAt(lc, 12, "cache");
    SampleHasNoTaskKeyword();
    SampleHasNoAIKeyword();
    SampleHasNoAutonomyKeyword();
    SampleHasNoIntegrationKeyword();
  }

  /** The sample file alone: one HIGH Memory finding, nothing else. */
  lemma SampleFileFindings(f: SourceFile)
    requires f == SourceFile("memory_system.py", Some("class MemoryCache"))
    ensures Matching(Memory, [f]) == [Finding("memory_system.py", "Memory management detected", High)]
    ensures Matching(Task, [f]) == []
    ensures Matching(AI, [f]) == []
    ensures Matching(Autonomy, [f]) == []
    ensures Points([f]) == []
  {
    SampleMentionsOnlyMemory(f.content.value);
    CacheMeansHighMemory(f.path, f.content.value);
  }

  /** The sample repository: the memory file and one CI document. */
  function SampleScan(docPath: string, docText: string): Record {
    Scan([SourceFile("memory_system.py", Some("class MemoryCache"))], [DataFile(docPath, Some(Document({"jobs"}, docText)))])
  }

  /** The buckets of the sample scan: one HIGH Memory finding, nothing elsewhere. */
  lemma SampleScanBuckets(docPath: string, docText: string)
    ensures var r := SampleScan(docPath, docText);
      && r.subsystems[Memory] == [Finding("memory_system.py", "Memory management detected", High)]
      && r.subsystems[Task] == [] && r.subsystems[AI] == [] && r.subsystems[Autonomy] == []
      && r.integrationPoints == []
  {
    SampleFileFindings(SourceFile("memory_system.py", Some("class MemoryCache")));
  }

  /** The CI document of the sample scan gives its one connection. */
  lemma SampleScanConnections(docPath: string, docText: string)
    requires docPath != PromptPath
    ensures SampleScan(docPath, docText).workflowConnections == [WorkflowConnection(docPath, "GitHub Actions Workflow", "HIGH")]
  {
    var d := DataFile(docPath, Some(Document({"jobs"}, docText)));
    assert DocumentConnection(d) == [WorkflowConnection(docPath, WorkflowKind, WorkflowPotential)];
    assert Connections([d]) == DocumentConnection(d) + Connections([]);
  }

  /** The sample repository reports one pattern in total. */
  lemma SampleScanPatternTotal(docPath: string, docText: string)
    ensures TotalPatterns(SampleScan(docPath, docText)) == 1
  {
    SampleScanBuckets(docPath, docText);
  }

  /** The sample repository reports one integration in total: the workflow
      connection, as the file itself offers no integration point. */
  lemma SampleScanIntegrationTotal(docPath: string, docText: string)
    requires docPath != PromptPath
    ensures TotalIntegrations(SampleScan(docPath, docText)) == 1
  {
    SampleScanBuckets(docPath, docText);
    SampleScanConnections(docPath, docText);
  }
}
