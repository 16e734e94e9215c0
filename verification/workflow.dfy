/** The workflow detector run on every parsed data document. A parsed document is
    seen only through the two questions the detector asks of it: which strings
    Python's `in` finds in it (the top-level keys of a mapping) and what its
    `str()` form is. */
module Workflow {
  import opened Text
  import opened Analysis

  datatype Document = Document(keys: set<string>, text: string)

  const WorkflowKind: string := "GitHub Actions Workflow"
  const WorkflowPotential: string := "HIGH"

  /** The detector's condition: a `jobs` key, a `steps` key, or `workflow` anywhere
      in the lower-cased string form. */
  ghost predicate LooksLikeWorkflow(d: Document) {
    "jobs" in d.keys || "steps" in d.keys || Occurs("workflow", Lower(d.text))
  }

  /** Adds one fixed connection for a workflow-like document and leaves the record
      alone otherwise; which of the three conditions fired is not recorded. */
  function DetectWorkflow(path: string, d: Document, a: Record): (r: Record)
    ensures LooksLikeWorkflow(d) ==>
      r == a.(workflowConnections := a.workflowConnections + [WorkflowConnection(path, WorkflowKind, WorkflowPotential)])
    ensures !LooksLikeWorkflow(d) ==> r == a
  {
    if "jobs" in d.keys || "steps" in d.keys || Contains(Lower(d.text), "workflow") then
      a.(workflowConnections := a.workflowConnections + [WorkflowConnection(path, WorkflowKind, WorkflowPotential)])
    else
      a
  }

  /** The detector only ever touches the workflow connections, and grows them by at
      most one entry. */
  lemma DetectWorkflowTouchesOnlyConnections(path: string, d: Document, a: Record)
    ensures var r := DetectWorkflow(path, d, a);
      && r.subsystems == a.subsystems
      && r.integrationPoints == a.integrationPoints
      && r.emergentPatterns == a.emergentPatterns
      && r.workflowConnections[..|a.workflowConnections|] == a.workflowConnections
      && |r.workflowConnections| == |a.workflowConnections| + (if LooksLikeWorkflow(d) then 1 else 0)
  {
    var r := DetectWorkflow(path, d, a);
    assert r.workflowConnections[..|a.workflowConnections|] == a.workflowConnections;
  }

  /** The analyzer's test document, a mapping with a `jobs` key, yields one GitHub
      Actions connection of HIGH potential. */
  lemma JobsDocumentIsWorkflow(path: string, text: string, a: Record)
    ensures var r := DetectWorkflow(path, Document({"jobs"}, text), a);
      && |r.workflowConnections| == |a.workflowConnections| + 1
      && r.workflowConnections[|a.workflowConnections|].kind == "GitHub Actions Workflow"
      && r.workflowConnections[|a.workflowConnections|].integrationPotential == "HIGH"
  {
  }
}
