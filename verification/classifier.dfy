/** The keyword classifier run on every source file: four independent bucket
    rules, each with its own strong-keyword rule for HIGH confidence, and a
    separate check for OpenCog integration keywords. Matching is substring
    search in the lower-cased text, so a keyword hidden inside an unrelated word
    counts. */
module Classifier {
  import opened Text
  import opened Analysis

  const MemoryKeywords: seq<string> := ["cache", "memory", "store", "persist"]
  const TaskKeywords: seq<string> := ["execute", "workflow", "task", "process"]
  const AIKeywords: seq<string> := ["model", "inference", "neural", "ai", "ml"]
  const AutonomyKeywords: seq<string> := ["auto", "self", "adaptive", "dynamic"]
  const IntegrationKeywords: seq<string> := ["atom", "knowledge", "reasoning", "semantic"]

  const IntegrationOpportunity: string := "OpenCog AtomSpace integration potential"
  const IntegrationDetails: string := "Semantic reasoning capabilities detected"

  /** The keywords any one of which puts a file in the bucket. */
  function Keywords(s: Subsystem): seq<string> {
    match s
    case Memory => MemoryKeywords
    case Task => TaskKeywords
    case AI => AIKeywords
    case Autonomy => AutonomyKeywords
  }

  /** The keywords any one of which makes the finding HIGH; Autonomy has none. */
  function StrongKeywords(s: Subsystem): seq<string> {
    match s
    case Memory => ["cache"]
    case Task => ["workflow"]
    case AI => ["model", "inference"]
    case Autonomy => []
  }

  /** The fixed description recorded with every finding of the bucket. */
  function PatternText(s: Subsystem): string {
    match s
    case Memory => "Memory management detected"
    case Task => "Task orchestration detected"
    case AI => "AI processing capabilities detected"
    case Autonomy => "Autonomous behavior potential detected"
  }

  /** Some keyword of `keys` occurs in the lower-cased content. */
  ghost predicate Mentions(content: string, keys: seq<string>) {
    OccursAny(keys, Lower(content))
  }

  /** Decides one bucket for one file: a finding exactly when a bucket keyword
      occurs, HIGH exactly when a strong keyword occurs. */
  function Classify(s: Subsystem, path: string, content: string): (r: Option<Finding>)
    ensures r.Some? <==> Mentions(content, Keywords(s))
    ensures r.Some? ==> r.value.file == path && r.value.pattern == PatternText(s)
    ensures r.Some? ==> (r.value.confidence == High <==> Mentions(content, StrongKeywords(s)))
  {
    var text := Lower(content);
    if ContainsAny(text, Keywords(s)) then
      Some(Finding(path, PatternText(s), if ContainsAny(text, StrongKeywords(s)) then High else Medium))
    else
      None
  }

  /** The integration check: one point exactly when an integration keyword occurs. */
  function DetectIntegration(path: string, content: string): (r: Option<IntegrationPoint>)
    ensures r.Some? <==> Mentions(content, IntegrationKeywords)
    ensures r.Some? ==> r.value == IntegrationPoint(path, IntegrationOpportunity, IntegrationDetails)
  {
    if ContainsAny(Lower(content), IntegrationKeywords) then
      Some(IntegrationPoint(path, IntegrationOpportunity, IntegrationDetails))
    else
      None
  }

  /** One file's analysis: the four bucket checks are independent of one another,
      so each bucket gains its own finding, if any, at its end; the integration
      points gain theirs; nothing else changes. */
  function AnalyzeFile(path: string, content: string, a: Record): (r: Record)
    requires HasAllSubsystems(a)
    ensures HasAllSubsystems(r)
    ensures forall s: Subsystem :: r.subsystems[s] == a.subsystems[s] + ToSeq(Classify(s, path, content))
    ensures r.integrationPoints == a.integrationPoints + ToSeq(DetectIntegration(path, content))
    ensures r.workflowConnections == a.workflowConnections
    ensures r.emergentPatterns == a.emergentPatterns
  {
    a.(subsystems := map s: Subsystem | s in a.subsystems :: a.subsystems[s] + ToSeq(Classify(s, path, content)),
       integrationPoints := a.integrationPoints + ToSeq(DetectIntegration(path, content)))
  }

  /** What one file analysis may do to a bucket: grow it by at most one entry, keep
      every earlier entry in place, and grow it exactly when a bucket keyword occurs,
      with a finding for this file whose confidence follows the strong-keyword rule. */
  lemma AnalyzeFileAppendsAtMostOne(path: string, content: string, a: Record, s: Subsystem)
    requires HasAllSubsystems(a)
    ensures var r := AnalyzeFile(path, content, a);
      var before := a.subsystems[s];
      var after := r.subsystems[s];
      && |before| <= |after| <= |before| + 1
      && after[..|before|] == before
      && (|after| == |before| + 1 <==> Mentions(content, Keywords(s)))
      && (|after| == |before| + 1 ==>
            && after[|before|].file == path
            && after[|before|].pattern == PatternText(s)
            && (after[|before|].confidence == High <==> Mentions(content, StrongKeywords(s))))
  {
    var r := AnalyzeFile(path, content, a);
    assert r.subsystems[s][..|a.subsystems[s]|] == a.subsystems[s];
  }

  /** The integration check, likewise: at most one new point, at the end, for
      exactly the files that mention an integration keyword, whatever the bucket
      rules decided. */
  lemma AnalyzeFileIntegrationIndependent(path: string, content: string, a: Record)
    requires HasAllSubsystems(a)
    ensures var r := AnalyzeFile(path, content, a);
      && r.integrationPoints[..|a.integrationPoints|] == a.integrationPoints
      && (|r.integrationPoints| == |a.integrationPoints| + 1 <==> Mentions(content, IntegrationKeywords))
      && (!Mentions(content, IntegrationKeywords) ==> r.integrationPoints == a.integrationPoints)
  {
    var r := AnalyzeFile(path, content, a);
    assert r.integrationPoints[..|a.integrationPoints|] == a.integrationPoints;
  }

  /** Memory: a finding iff cache, memory, store or persist occurs; HIGH iff cache occurs. */
  lemma MemoryRule(path: string, content: string)
    ensures var lc := Lower(content); var r := Classify(Memory, path, content);
      && (r.Some? <==> Occurs("cache", lc) || Occurs("memory", lc) || Occurs("store", lc) || Occurs("persist", lc))
      && (r.Some? ==> (r.value.confidence == High <==> Occurs("cache", lc)))
  {
    var lc := Lower(content);
    if OccursAny(MemoryKeywords, lc) {
      var k :| k in MemoryKeywords && Occurs(k, lc);
      assert k == "cache" || k == "memory" || k == "store" || k == "persist";
    }
    assert "cache" in MemoryKeywords && "memory" in MemoryKeywords && "store" in MemoryKeywords && "persist" in MemoryKeywords;
    if OccursAny(StrongKeywords(Memory), lc) {
      var k :| k in StrongKeywords(Memory) && Occurs(k, lc);
      assert k == "cache";
    }
    assert "cache" in StrongKeywords(Memory);
  }

  /** Task: a finding iff execute, workflow, task or process occurs; HIGH iff workflow occurs. */
  lemma TaskRule(path: string, content: string)
    ensures var lc := Lower(content); var r := Classify(Task, path, content);
      && (r.Some? <==> Occurs("execute", lc) || Occurs("workflow", lc) || Occurs("task", lc) || Occurs("process", lc))
      && (r.Some? ==> (r.value.confidence == High <==> Occurs("workflow", lc)))
  {
    var lc := Lower(content);
    if OccursAny(TaskKeywords, lc) {
      var k :| k in TaskKeywords && Occurs(k, lc);
      assert k == "execute" || k == "workflow" || k == "task" || k == "process";
    }
    assert "execute" in TaskKeywords && "workflow" in TaskKeywords && "task" in TaskKeywords && "process" in TaskKeywords;
    if OccursAny(StrongKeywords(Task), lc) {
      var k :| k in StrongKeywords(Task) && Occurs(k, lc);
      assert k == "workflow";
    }
    assert "workflow" in StrongKeywords(Task);
  }

  /** AI: a finding iff model, inference, neural, ai or ml occurs; HIGH iff model or inference occurs. */
  lemma AIRule(path: string, content: string)
    ensures var lc := Lower(content); var r := Classify(AI, path, content);
      && (r.Some? <==> Occurs("model", lc) || Occurs("inference", lc) || Occurs("neural", lc) || Occurs("ai", lc) || Occurs("ml", lc))
      && (r.Some? ==> (r.value.confidence == High <==> Occurs("model", lc) || Occurs("inference", lc)))
  {
    var lc := Lower(content);
    if OccursAny(AIKeywords, lc) {
      var k :| k in AIKeywords && Occurs(k, lc);
      assert k == "model" || k == "inference" || k == "neural" || k == "ai" || k == "ml";
    }
    if OccursAny(StrongKeywords(AI), lc) {
      var k :| k in StrongKeywords(AI) && Occurs(k, lc);
      assert k == "model" || k == "inference";
    }
    assert "model" in AIKeywords && "inference" in AIKeywords && "neural" in AIKeywords && "ai" in AIKeywords && "ml" in AIKeywords;
    assert "model" in StrongKeywords(AI) && "inference" in StrongKeywords(AI);
  }

  /** Autonomy: a finding iff auto, self, adaptive or dynamic occurs, and it is never HIGH. */
  lemma AutonomyRule(path: string, content: string)
    ensures var lc := Lower(content); var r := Classify(Autonomy, path, content);
      && (r.Some? <==> Occurs("auto", lc) || Occurs("self", lc) || Occurs("adaptive", lc) || Occurs("dynamic", lc))
      && (r.Some? ==> r.value.confidence == Medium)
  {
    var lc := Lower(content);
    if OccursAny(AutonomyKeywords, lc) {
      var k :| k in AutonomyKeywords && Occurs(k, lc);
      assert k == "auto" || k == "self" || k == "adaptive" || k == "dynamic";
    }
    assert "auto" in AutonomyKeywords && "self" in AutonomyKeywords && "adaptive" in AutonomyKeywords && "dynamic" in AutonomyKeywords;
  }

  /** Integration: a point iff atom, knowledge, reasoning or semantic occurs. */
  lemma IntegrationRule(path: string, content: string)
    ensures var lc := Lower(content);
      DetectIntegration(path, content).Some? <==>
        Occurs("atom", lc) || Occurs("knowledge", lc) || Occurs("reasoning", lc) || Occurs("semantic", lc)
  {
    var lc := Lower(content);
    if OccursAny(IntegrationKeywords, lc) {
      var k :| k in IntegrationKeywords && Occurs(k, lc);
      assert k == "atom" || k == "knowledge" || k == "reasoning" || k == "semantic";
    }
    assert "atom" in IntegrationKeywords && "knowledge" in IntegrationKeywords && "reasoning" in IntegrationKeywords && "semantic" in IntegrationKeywords;
  }

  /** Matching is by substring, so the two letters "ai" inside any word put a file
      in the AI bucket, and with neither model nor inference present it is MEDIUM. */
  lemma BareAiFiresAI(path: string)
    ensures Classify(AI, path, "Email") == Some(Finding(path, PatternText(AI), Medium))
  {
    var lc := Lower("Email");
    assert lc[2..4] == "ai";
    assert MatchesAt(lc, 2, "ai");
    assert "ai" in Keywords(AI);
    assert !Occurs("model", lc);
    assert !Occurs("inference", lc);
    assert !OccursAny(StrongKeywords(AI), lc) by {
      forall k | k in StrongKeywords(AI) ensures !Occurs(k, lc) {
        assert k == "model" || k == "inference";
      }
    }
  }

  /** A cache mention always yields a HIGH Memory finding, as the analyzer's tests
      expect of `class DataCache`. */
  lemma CacheMeansHighMemory(path: string, content: string)
    requires Occurs("cache", Lower(content))
    ensures Classify(Memory, path, content) == Some(Finding(path, "Memory management detected", High))
  {
    MemoryRule(path, content);
  }

  /** The analyzer's own test case: one analysis of its memory-heavy sample text
      on a fresh record leaves exactly one Memory finding, and it is HIGH. */
  lemma DataCacheIsHighMemory(path: string, content: string)
    requires content == "class DataCache:" + "\n    def store_in_memory(self, data):" + "\n        self.cache[key] = data"
    ensures var r := AnalyzeFile(path, content, Initial());
      && |r.subsystems[Memory]| == 1
      && r.subsystems[Memory][0].pattern == "Memory management detected"
      && r.subsystems[Memory][0].confidence == High
  {
    var lc := Lower(content);
    assert content[10..15] == "Cache";
    assert lc[10..15] == "cache";
    assert MatchesAt(lc, 10, "cache");
    CacheMeansHighMemory(path, content);
  }
}
