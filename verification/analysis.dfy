/** The analysis record that one scan builds and the report renders: four
    cognitive-subsystem buckets of findings, the OpenCog integration points, the
    ComfyUI workflow connections and the reserved, never-populated emergent
    patterns. */
module Analysis {

  datatype Option<T> = None | Some(value: T)

  /** The entry list an optional hit contributes: nothing, or exactly that entry. */
  function ToSeq<T>(o: Option<T>): (r: seq<T>)
    ensures |r| <= 1
    ensures o.Some? <==> |r| == 1
    ensures o.Some? ==> r[0] == o.value
  {
    match o
    case None => []
    case Some(x) => [x]
  }

  datatype Confidence = High | Medium

  datatype Subsystem = Memory | Task | AI | Autonomy

  /** The bucket names, which are the keys of `cognitive_subsystems`. */
  function Name(s: Subsystem): string {
    match s
    case Memory => "Memory"
    case Task => "Task"
    case AI => "AI"
    case Autonomy => "Autonomy"
  }

  /** The order in which the initial record lists the buckets, and so the order the
      report walks them in. */
  const SubsystemOrder: seq<Subsystem> := [Memory, Task, AI, Autonomy]

  /** One subsystem match of one file. */
  datatype Finding = Finding(file: string, pattern: string, confidence: Confidence)

  /** One file whose text suggests an OpenCog AtomSpace integration. */
  datatype IntegrationPoint = IntegrationPoint(file: string, opportunity: string, details: string)

  /** One data document recognised as a workflow definition. */
  datatype WorkflowConnection = WorkflowConnection(file: string, kind: string, integrationPotential: string)

  datatype Record = Record(
    subsystems: map<Subsystem, seq<Finding>>,
    integrationPoints: seq<IntegrationPoint>,
    workflowConnections: seq<WorkflowConnection>,
    emergentPatterns: seq<string>)

  /** Every one of the four buckets is a key of `cognitive_subsystems`. */
  predicate HasAllSubsystems(a: Record) {
    forall s: Subsystem :: s in a.subsystems
  }

  /** A map with the four buckets as keys has every subsystem as a key. */
  lemma EveryBucketListed<V>(m: map<Subsystem, V>)
    requires Memory in m && Task in m && AI in m && Autonomy in m
    ensures forall s: Subsystem :: s in m
  {
    forall s: Subsystem ensures s in m {
      match s
      case Memory =>
      case Task =>
      case AI =>
      case Autonomy =>
    }
  }

  /** The record a scan starts from: four empty buckets and three empty lists. */
  function Initial(): (a: Record)
    ensures HasAllSubsystems(a)
    ensures forall s: Subsystem :: a.subsystems[s] == []
    ensures a.integrationPoints == [] && a.workflowConnections == [] && a.emergentPatterns == []
  {
    var buckets := map[Memory := [], Task := [], AI := [], Autonomy := []];
    EveryBucketListed(buckets);
    Record(buckets, [], [], [])
  }

  /** The findings the report sees for a bucket: none when the key is absent. */
  function Findings(a: Record, s: Subsystem): seq<Finding> {
    if s in a.subsystems then a.subsystems[s] else []
  }

  function Count(a: Record, s: Subsystem): nat {
    |Findings(a, s)|
  }

  /** `total_patterns`: the sizes of the buckets added up. */
  function TotalPatterns(a: Record): nat {
    Count(a, Memory) + Count(a, Task) + Count(a, AI) + Count(a, Autonomy)
  }

  /** `total_integrations`: integration points plus workflow connections. */
  function TotalIntegrations(a: Record): nat {
    |a.integrationPoints| + |a.workflowConnections|
  }
}
