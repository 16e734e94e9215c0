/** The theatrical report: a fixed opening, one block per non-empty bucket in the
    order Memory, Task, AI, Autonomy, an integration block, a workflow block and
    fixed conclusions carrying the two totals. The report is modelled as its list
    of lines; the timestamp is a parameter. */
module Report {
  import opened Text
  import opened Analysis

  function Min(x: nat, y: nat): nat {
    if x <= y then x else y
  }

  /** How many findings of a bucket the report lists by name. */
  const ShownFindings: nat := 3
  /** How many integration points the report lists by name. */
  const ShownPoints: nat := 5

  datatype Intensity = Emerging | Moderate | Blazing

  /** The intensity of a bucket with `count` findings: BLAZING above five,
      MODERATE above two, EMERGING otherwise. */
  function IntensityOf(count: nat): (i: Intensity)
    ensures i == Blazing <==> count > 5
    ensures i == Moderate <==> 2 < count <= 5
    ensures i == Emerging <==> count <= 2
  {
    if count > 5 then Blazing else if count > 2 then Moderate else Emerging
  }

  function Rank(i: Intensity): nat {
    match i
    case Emerging => 0
    case Moderate => 1
    case Blazing => 2
  }

  /** More findings never lower the intensity. */
  lemma IntensityMonotone(m: nat, n: nat)
    requires m <= n
    ensures Rank(IntensityOf(m)) <= Rank(IntensityOf(n))
  {
  }

  function IntensityLabel(i: Intensity): string {
    match i
    case Blazing => "🔥 BLAZING"
    case Moderate => "⚡ MODERATE"
    case Emerging => "✨ EMERGING"
  }

  /** The confidence marker: a target for HIGH, a die for anything else. */
  function Marker(c: Confidence): char {
    if c == High then '🎯' else '🎲'
  }

  const Indent: string := "   "

  function FindingLine(f: Finding): string {
    Indent + [Marker(f.confidence)] + " " + f.file + ": " + f.pattern
  }

  function HeaderLine(s: Subsystem, count: nat): string {
    "🎯 " + Name(s) + HeaderTail(count)
  }

  /** What follows the bucket's name in its header: the intensity and the count. */
  function HeaderTail(count: nat): string {
    " Subsystem: " + IntensityLabel(IntensityOf(count)) + " (" + NatToString(count) + " patterns detected)"
  }

  const MoreFindingsPrefix: string := "   📊 ... and "

  function MoreFindingsLine(extra: nat): string {
    MoreFindingsPrefix + NatToString(extra) + " more magnificent patterns!"
  }

  /** A line naming one finding: indented, then a confidence marker. */
  predicate IsFindingLine(l: string) {
    |l| > 3 && l[..3] == Indent && (l[3] == '🎯' || l[3] == '🎲')
  }

  /** The line that counts the findings left unlisted. */
  predicate IsMoreFindingsLine(l: string) {
    |l| > 3 && l[..3] == Indent && l[3] == '📊'
  }

  /** Reading a finding line back: its marker is the target exactly when the
      finding's confidence is HIGH. */
  lemma FindingLineMarker(f: Finding)
    ensures IsFindingLine(FindingLine(f))
    ensures !IsMoreFindingsLine(FindingLine(f))
    ensures FindingLine(f)[3] == '🎯' <==> f.confidence == High
  {
    assert FindingLine(f)[..3] == Indent;
  }

  /** One line per finding, in order. */
  function FindingLines(fs: seq<Finding>): (ls: seq<string>)
    ensures |ls| == |fs|
    ensures forall j :: 0 <= j < |fs| ==> ls[j] == FindingLine(fs[j])
  {
    if |fs| == 0 then [] else [FindingLine(fs[0])] + FindingLines(fs[1..])
  }

  /** The number of lines a bucket with `count` findings takes up. */
  function SubsystemBlockSize(count: nat): nat {
    if count == 0 then 0 else 3 + Min(count, ShownFindings) + (if count > ShownFindings then 1 else 0)
  }

  /** Where the parts of a block land: two header lines, the listed lines, the
      optional count of the rest, a closing blank line. */
  lemma BlockLayout(header: string, listed: seq<string>, more: seq<string>)
    ensures var b := [header, ""] + listed + more + [""];
      && |b| == 3 + |listed| + |more|
      && b[0] == header && b[1] == "" && b[|b| - 1] == ""
      && (forall j :: 0 <= j < |listed| ==> b[2 + j] == listed[j])
      && (forall j :: 0 <= j < |more| ==> b[2 + |listed| + j] == more[j])
  {
  }

  /** Which lines of a block are finding lines and which the count of the rest,
      given what each part is. */
  lemma BlockLineKinds(header: string, listed: seq<string>, more: seq<string>)
    requires !IsFindingLine(header) && !IsMoreFindingsLine(header)
    requires forall j :: 0 <= j < |listed| ==> IsFindingLine(listed[j]) && !IsMoreFindingsLine(listed[j])
    requires forall j :: 0 <= j < |more| ==> IsMoreFindingsLine(more[j]) && !IsFindingLine(more[j])
    ensures var b := [header, ""] + listed + more + [""];
      forall j :: 0 <= j < |b| ==>
        && (IsFindingLine(b[j]) <==> 2 <= j < 2 + |listed|)
        && (IsMoreFindingsLine(b[j]) <==> 2 + |listed| <= j < 2 + |listed| + |more|)
  {
    BlockLayout(header, listed, more);
  }

  /** A header line is neither a finding line nor the count of the rest. */
  lemma HeaderLineKind(s: Subsystem, count: nat)
    ensures !IsFindingLine(HeaderLine(s, count)) && !IsMoreFindingsLine(HeaderLine(s, count))
  {
    assert HeaderLine(s, count)[0] == '🎯';
  }

  /** The count of the rest is not a finding line. */
  lemma MoreFindingsLineKind(extra: nat)
    ensures IsMoreFindingsLine(MoreFindingsLine(extra)) && !IsFindingLine(MoreFindingsLine(extra))
  {
    assert MoreFindingsLine(extra)[..4] == MoreFindingsPrefix[..4];
  }

  /** Every line of a list of finding lines is a finding line. */
  lemma FindingLinesKind(fs: seq<Finding>)
    ensures forall j :: 0 <= j < |fs| ==>
      IsFindingLine(FindingLines(fs)[j]) && !IsMoreFindingsLine(FindingLines(fs)[j])
  {
    forall j | 0 <= j < |fs|
      ensures IsFindingLine(FindingLines(fs)[j]) && !IsMoreFindingsLine(FindingLines(fs)[j])
    {
      FindingLineMarker(fs[j]);
    }
  }

  /** A bucket's block: nothing for an empty bucket; otherwise a header with the
      intensity and count, the first three findings in order and no others, a line
      counting the rest exactly when there are more than three, and a blank line. */
  function SubsystemBlock(s: Subsystem, fs: seq<Finding>): (b: seq<string>)
    ensures |b| == SubsystemBlockSize(|fs|)
    ensures |fs| > 0 ==> b[0] == HeaderLine(s, |fs|) && b[1] == "" && b[|b| - 1] == ""
    ensures forall j :: 0 <= j < Min(|fs|, ShownFindings) ==> b[2 + j] == FindingLine(fs[j])
    ensures forall j :: 0 <= j < |b| ==> (IsFindingLine(b[j]) <==> 2 <= j < 2 + Min(|fs|, ShownFindings))
    ensures forall j :: 0 <= j < |b| ==> (IsMoreFindingsLine(b[j]) <==> |fs| > ShownFindings && j == 2 + ShownFindings)
    ensures |fs| > ShownFindings ==> b[2 + ShownFindings] == MoreFindingsLine(|fs| - ShownFindings)
  {
    if |fs| == 0 then []
    else
      var count := |fs|;
      var listed := FindingLines(fs[..Min(count, ShownFindings)]);
      var extra := if count > ShownFindings then count - ShownFindings else 0;
      var more := if count > ShownFindings then [MoreFindingsLine(extra)] else [];
      BlockLayout(HeaderLine(s, count), listed, more);
      HeaderLineKind(s, count);
      FindingLinesKind(fs[..Min(count, ShownFindings)]);
      MoreFindingsLineKind(extra);
      BlockLineKinds(HeaderLine(s, count), listed, more);
      [HeaderLine(s, count), ""] + listed + more + [""]
  }

  /** Each listed finding carries the target marker exactly when it is HIGH. */
  lemma FindingMarkersFollowConfidence(s: Subsystem, fs: seq<Finding>)
    ensures forall j :: 0 <= j < Min(|fs|, ShownFindings) ==>
      (SubsystemBlock(s, fs)[2 + j][3] == '🎯' <==> fs[j].confidence == High)
  {
    forall j | 0 <= j < Min(|fs|, ShownFindings)
      ensures SubsystemBlock(s, fs)[2 + j][3] == '🎯' <==> fs[j].confidence == High
    {
      FindingLineMarker(fs[j]);
    }
  }

  /** The unlisted count a bucket block reports, added to the listed findings,
      gives back the size of the bucket. */
  lemma SubsystemBlockAccountsForAll(s: Subsystem, fs: seq<Finding>)
    requires |fs| > ShownFindings
    ensures var line := SubsystemBlock(s, fs)[2 + ShownFindings];
      && |MoreFindingsPrefix| <= |line|
      && line[..|MoreFindingsPrefix|] == MoreFindingsPrefix
      && exists digits :: AllDigits(digits)
           && line == MoreFindingsPrefix + digits + " more magnificent patterns!"
           && ShownFindings + ParseNat(digits) == |fs|
  {
    var digits := NatToString(|fs| - ShownFindings);
    ParseNatToString(|fs| - ShownFindings);
    var line := SubsystemBlock(s, fs)[2 + ShownFindings];
    assert line == MoreFindingsPrefix + digits + " more magnificent patterns!";
    assert line[..|MoreFindingsPrefix|] == MoreFindingsPrefix;
  }

  const IntegrationTitle: string := "🌌 OPENCOG INTEGRATION NEXUS POINTS 🌌"
  const WorkflowTitle: string := "⚙️  COMFYUI WORKFLOW SYMPHONY ⚙️"

  function PointLine(p: IntegrationPoint): string {
    "   🔮 " + p.file + ": " + p.opportunity
  }

  function PointLines(ps: seq<IntegrationPoint>): (ls: seq<string>)
    ensures |ls| == |ps|
    ensures forall j :: 0 <= j < |ps| ==> ls[j] == PointLine(ps[j])
  {
    if |ps| == 0 then [] else [PointLine(ps[0])] + PointLines(ps[1..])
  }

  function MorePointsLine(extra: nat): string {
    "   🌠 ... and " + NatToString(extra) + " more cosmic connections!"
  }

  function IntegrationBlockSize(count: nat): nat {
    if count == 0 then 0 else 7 + Min(count, ShownPoints) + (if count > ShownPoints then 1 else 0)
  }

  /** A line naming one integration point: indented, then a crystal ball. */
  predicate IsPointLine(l: string) {
    |l| > 3 && l[..3] == Indent && l[3] == '🔮'
  }

  /** The line that counts the integration points left unlisted. */
  predicate IsMorePointsLine(l: string) {
    |l| > 3 && l[..3] == Indent && l[3] == '🌠'
  }

  const AtomSpaceLine: string := "   The AtomSpace " + "beckons with infinite possibility!"

  /** The integration block's title and count, ahead of the listed points. */
  function IntegrationHead(count: nat): (ls: seq<string>)
    ensures |ls| == 6
    ensures forall j :: 0 <= j < 6 ==> !IsPointLine(ls[j]) && !IsMorePointsLine(ls[j])
  {
    var countLine := "🚀 EXTRAORDINARY! " + NatToString(count) + " integration opportunities discovered!";
    assert countLine[0] == '🚀';
    assert AtomSpaceLine[3] == 'T';
    [IntegrationTitle, Repeat('=', 42), "", countLine, AtomSpaceLine, ""]
  }

  /** Every line of a list of point lines is a point line. */
  lemma PointLinesKind(ps: seq<IntegrationPoint>)
    ensures forall j :: 0 <= j < |ps| ==>
      IsPointLine(PointLines(ps)[j]) && !IsMorePointsLine(PointLines(ps)[j])
  {
    forall j | 0 <= j < |ps|
      ensures IsPointLine(PointLines(ps)[j]) && !IsMorePointsLine(PointLines(ps)[j])
    {
      assert PointLines(ps)[j][..4] == "   🔮";
    }
  }

  /** The count of the rest is not a point line. */
  lemma MorePointsLineKind(extra: nat)
    ensures IsMorePointsLine(MorePointsLine(extra)) && !IsPointLine(MorePointsLine(extra))
  {
    assert MorePointsLine(extra)[..4] == "   🌠";
  }

  /** Where the parts of the integration block land, and which of its lines are
      point lines and which the count of the rest, given what each part is. */
  lemma PointBlockLayout(head: seq<string>, listed: seq<string>, more: seq<string>)
    requires |head| == 6
    requires forall j :: 0 <= j < 6 ==> !IsPointLine(head[j]) && !IsMorePointsLine(head[j])
    requires forall j :: 0 <= j < |listed| ==> IsPointLine(listed[j]) && !IsMorePointsLine(listed[j])
    requires forall j :: 0 <= j < |more| ==> IsMorePointsLine(more[j]) && !IsPointLine(more[j])
    ensures var b := head + listed + more + [""];
      && |b| == 7 + |listed| + |more|
      && b[..6] == head && b[|b| - 1] == ""
      && (forall j :: 0 <= j < |listed| ==> b[6 + j] == listed[j])
      && (forall j :: 0 <= j < |more| ==> b[6 + |listed| + j] == more[j])
      && (forall j :: 0 <= j < |b| ==> (IsPointLine(b[j]) <==> 6 <= j < 6 + |listed|))
      && (forall j :: 0 <= j < |b| ==> (IsMorePointsLine(b[j]) <==> 6 + |listed| <= j < 6 + |listed| + |more|))
  {
    var b := head + listed + more + [""];
    assert b[..6] == head;
    assert forall j :: 0 <= j < 6 ==> b[j] == head[j];
    assert forall j :: 0 <= j < |listed| ==> b[6 + j] == listed[j];
    assert forall j :: 0 <= j < |more| ==> b[6 + |listed| + j] == more[j];
    assert !IsPointLine(b[|b| - 1]) && !IsMorePointsLine(b[|b| - 1]);
  }

  /** Where each part of `head + listed + more + [last]` lands. */
  lemma Layout<T>(head: seq<T>, listed: seq<T>, more: seq<T>, last: T)
    ensures var b := head + listed + more + [last];
      && |b| == |head| + |listed| + |more| + 1
      && (forall j :: 0 <= j < |head| ==> b[j] == head[j])
      && (forall j :: 0 <= j < |listed| ==> b[|head| + j] == listed[j])
      && (forall j :: 0 <= j < |more| ==> b[|head| + |listed| + j] == more[j])
      && b[|b| - 1] == last
  {
  }

  /** The integration block: nothing without points; otherwise a title, the count,
      the first five points in order, a line counting the rest exactly when there
      are more than five, and a blank line. */
  function IntegrationBlock(ps: seq<IntegrationPoint>): (b: seq<string>)
    ensures |b| == IntegrationBlockSize(|ps|)
    ensures |ps| > 0 ==> b[0] == IntegrationTitle && b[1] == Repeat('=', 42) && b[2] == ""
    ensures |ps| > 0 ==> b[3] == "🚀 EXTRAORDINARY! " + NatToString(|ps|) + " integration opportunities discovered!"
    ensures |ps| > 0 ==> b[4] == AtomSpaceLine && b[5] == "" && b[|b| - 1] == ""
    ensures forall j :: 0 <= j < Min(|ps|, ShownPoints) ==> b[6 + j] == PointLine(ps[j])
    ensures |ps| > ShownPoints ==> b[6 + ShownPoints] == MorePointsLine(|ps| - ShownPoints)
  {
    if |ps| == 0 then []
    else
      var count := |ps|;
      var head := IntegrationHead(count);
      var listed := PointLines(ps[..Min(count, ShownPoints)]);
      var more := if count > ShownPoints then [MorePointsLine(count - ShownPoints)] else [];
      Layout(head, listed, more, "");
      head + listed + more + [""]
  }

  /** The integration block lists the first five points and no others, and has a
      line counting the rest exactly when there are more than five. */
  lemma IntegrationBlockLineKinds(ps: seq<IntegrationPoint>)
    ensures var b := IntegrationBlock(ps);
      && (forall j :: 0 <= j < |b| ==> (IsPointLine(b[j]) <==> 6 <= j < 6 + Min(|ps|, ShownPoints)))
      && (forall j :: 0 <= j < |b| ==> (IsMorePointsLine(b[j]) <==> |ps| > ShownPoints && j == 6 + ShownPoints))
  {
    if |ps| > 0 {
      var count := |ps|;
      var listed := PointLines(ps[..Min(count, ShownPoints)]);
      var extra := if count > ShownPoints then count - ShownPoints else 0;
      var more := if count > ShownPoints then [MorePointsLine(extra)] else [];
      PointLinesKind(ps[..Min(count, ShownPoints)]);
      MorePointsLineKind(extra);
      PointBlockLayout(IntegrationHead(count), listed, more);
    }
  }

  function WorkflowLine(w: WorkflowConnection): string {
    "   🎵 " + w.file + ": " + w.kind
  }

  function WorkflowLines(ws: seq<WorkflowConnection>): (ls: seq<string>)
    ensures |ls| == |ws|
    ensures forall j :: 0 <= j < |ws| ==> ls[j] == WorkflowLine(ws[j])
  {
    if |ws| == 0 then [] else [WorkflowLine(ws[0])] + WorkflowLines(ws[1..])
  }

  function WorkflowBlockSize(count: nat): nat {
    if count == 0 then 0 else 6 + count
  }

  /** The workflow block's title and count, ahead of the connections. */
  function WorkflowHead(count: nat): (ls: seq<string>)
    ensures |ls| == 5
  {
    [ WorkflowTitle,
      Repeat('=', 33),
      "",
      "🎼 MAGNIFICENT! " + NatToString(count) + " workflow orchestration points identified!",
      "" ]
  }

  /** The workflow block: nothing without connections; otherwise a title, the count
      and every connection in order, with no cut-off, then a blank line. */
  function WorkflowBlock(ws: seq<WorkflowConnection>): (b: seq<string>)
    ensures |b| == WorkflowBlockSize(|ws|)
    ensures |ws| > 0 ==> b[0] == WorkflowTitle && b[1] == Repeat('=', 33) && b[2] == ""
    ensures |ws| > 0 ==> b[3] == "🎼 MAGNIFICENT! " + NatToString(|ws|) + " workflow orchestration points identified!"
    ensures |ws| > 0 ==> b[4] == "" && b[|b| - 1] == ""
    ensures forall j :: 0 <= j < |ws| ==> b[5 + j] == WorkflowLine(ws[j])
  {
    if |ws| == 0 then [] else WorkflowHead(|ws|) + WorkflowLines(ws) + [""]
  }

  const TimestampPrefix: string := "🕰️  Analysis Timestamp: "

  /** The banner the report opens with. */
  const Banner: seq<string> := [
    Repeat('🌟', 60),
    "🧠⚡ MARDUK'S MIND-BENDING OPENCOG INTEGRATION ANALYSIS ⚡🧠",
    Repeat('🌟', 60),
    ""]

  /** The fixed prose between the timestamp and the first bucket block. */
  const OpeningProse: seq<string> := [
    "🔬  Cognitive Architecture Scan: COMPLETE",
    "🎭  Theatrical Mode: MAXIMUM OVERDRIVE",
    "",
    "💭 *Maniacal laughter echoes through the digital corridors* 💭",
    "",
    "BEHOLD! The intricate patterns of cognitive architecture have been",
    "laid bare before the penetrating gaze of systematic analysis!",
    "Prepare yourself for revelations that shall shake the very",
    "foundations of your understanding! *adjusts lab goggles dramatically*",
    "",
    "🧠 COGNITIVE SUBSYSTEMS ORCHESTRATION ANALYSIS 🧠",
    Repeat('=', 55),
    ""]

  /** The opening: banner, timestamp line, prose and the subsystem section title. */
  function Opening(timestamp: string): (ls: seq<string>)
    ensures |ls| == 18
    ensures ls[4] == TimestampPrefix + timestamp
  {
    Banner + [TimestampPrefix + timestamp] + OpeningProse
  }

  const PatternsPrefix: string := "📊 Total Cognitive Patterns Detected: "
  const IntegrationsPrefix: string := "🌌 Total Integration Opportunities: "

  /** The fixed prose that follows the two totals. */
  const ClosingProse: seq<string> := [
    "",
    "🧙‍♂️ *Adjusts laboratory coat with a dramatic flourish* 🧙‍♂️",
    "",
    "BEHOLD! The cognitive architecture reveals itself in all its",
    "magnificent complexity! The patterns dance before us like",
    "symphonic equations in the grand theater of computation!",
    "",
    "The integration of OpenCog's AtomSpace with ComfyUI's workflow",
    "orchestration capabilities presents opportunities so profound",
    "that even the most seasoned developers must steady themselves",
    "upon the furniture of their understanding!",
    "",
    "🌟 RECOMMENDATION: Proceed with the implementation of these",
    "   integration patterns, for they shall birth a new era of",
    "   cognitive computing that transcends the mundane boundaries",
    "   of traditional architecture! 🌟",
    "",
    "💫 *Maniacal scientist laughter intensifies* 💫",
    "",
    Repeat('🌟', 60),
    "🎭 END OF MARDUK'S MIND-BENDING ANALYSIS 🎭",
    Repeat('🌟', 60)]

  /** The conclusions, which carry the two totals on their fourth and fifth lines. */
  function Closing(totalPatterns: nat, totalIntegrations: nat): (ls: seq<string>)
    ensures |ls| == 27
    ensures ls[3] == PatternsPrefix + NatToString(totalPatterns)
    ensures ls[4] == IntegrationsPrefix + NatToString(totalIntegrations)
  {
    [ "🎭 MARDUK'S THEATRICAL CONCLUSIONS 🎭",
      Repeat('=', 38),
      "",
      PatternsPrefix + NatToString(totalPatterns),
      IntegrationsPrefix + NatToString(totalIntegrations) ]
    + ClosingProse
  }

  /** The bucket blocks in the fixed bucket order. */
  function SubsystemSection(a: Record): (ls: seq<string>)
    ensures |ls| == SubsystemBlockSize(Count(a, Memory)) + SubsystemBlockSize(Count(a, Task))
      + SubsystemBlockSize(Count(a, AI)) + SubsystemBlockSize(Count(a, Autonomy))
  {
    SubsystemBlock(Memory, Findings(a, Memory))
    + SubsystemBlock(Task, Findings(a, Task))
    + SubsystemBlock(AI, Findings(a, AI))
    + SubsystemBlock(Autonomy, Findings(a, Autonomy))
  }

  /** Everything between the opening and the conclusions: the bucket blocks, the
      integration block and the workflow block. */
  function Middle(a: Record): (ls: seq<string>)
    ensures |ls| == SubsystemBlockSize(Count(a, Memory)) + SubsystemBlockSize(Count(a, Task))
      + SubsystemBlockSize(Count(a, AI)) + SubsystemBlockSize(Count(a, Autonomy))
      + IntegrationBlockSize(|a.integrationPoints|)
      + WorkflowBlockSize(|a.workflowConnections|)
  {
    SubsystemSection(a) + IntegrationBlock(a.integrationPoints) + WorkflowBlock(a.workflowConnections)
  }

  /** A report's opening and closing stay where they are whatever lies between. */
  lemma Framed(opening: seq<string>, middle: seq<string>, closing: seq<string>)
    ensures |opening + middle + closing| == |opening| + |middle| + |closing|
    ensures (opening + middle + closing)[..|opening|] == opening
    ensures (opening + middle + closing)[|opening|..|opening| + |middle|] == middle
    ensures (opening + middle + closing)[|opening| + |middle|..] == closing
  {
    assert (opening + middle + closing)[|opening|..|opening| + |middle|] == middle;
  }

  /** `generate_theatrical_analysis`, as its list of lines: it always opens with the
      banner and the timestamp, always closes with the conclusions carrying the
      totals computed from the record, and its length depends on the counts only. */
  function Render(a: Record, timestamp: string): (r: seq<string>)
    ensures |r| == 18
      + SubsystemBlockSize(Count(a, Memory)) + SubsystemBlockSize(Count(a, Task))
      + SubsystemBlockSize(Count(a, AI)) + SubsystemBlockSize(Count(a, Autonomy))
      + IntegrationBlockSize(|a.integrationPoints|)
      + WorkflowBlockSize(|a.workflowConnections|)
      + 27
    ensures r[..18] == Opening(timestamp)
    ensures r[4] == TimestampPrefix + timestamp
    ensures r[18..|r| - 27] == Middle(a)
    ensures r[|r| - 27..] == Closing(TotalPatterns(a), TotalIntegrations(a))
  {
    var opening := Opening(timestamp);
    var middle := Middle(a);
    var closing := Closing(TotalPatterns(a), TotalIntegrations(a));
    Framed(opening, middle, closing);
    opening + middle + closing
  }

  /** Where a bucket's block starts in the report: after the opening and the
      blocks of the buckets before it in the order Memory, Task, AI, Autonomy. */
  function SectionStart(a: Record, s: Subsystem): nat {
    var memory := 18;
    var task := memory + SubsystemBlockSize(Count(a, Memory));
    var ai := task + SubsystemBlockSize(Count(a, Task));
    var autonomy := ai + SubsystemBlockSize(Count(a, AI));
    match s
    case Memory => memory
    case Task => task
    case AI => ai
    case Autonomy => autonomy
  }

  /** Where the integration block starts: right after the Autonomy block. */
  function IntegrationStart(a: Record): nat {
    SectionStart(a, Autonomy) + SubsystemBlockSize(Count(a, Autonomy))
  }

  /** Where the workflow block starts: right after the integration block. */
  function WorkflowStart(a: Record): nat {
    IntegrationStart(a) + IntegrationBlockSize(|a.integrationPoints|)
  }

  /** A stretch of `r` made of `x` then `y` splits where `x` ends. */
  lemma SplitSlice<T>(r: seq<T>, lo: nat, hi: nat, x: seq<T>, y: seq<T>)
    requires lo <= hi <= |r|
    requires r[lo..hi] == x + y
    ensures r[lo..lo + |x|] == x
    ensures r[lo + |x|..hi] == y
  {
    assert r[lo..lo + |x|] == r[lo..hi][..|x|];
    assert r[lo + |x|..hi] == r[lo..hi][|x|..];
  }

  /** `r` holds `b` from position `lo` up to, not including, `hi`. */
  predicate Sliced<T(==)>(r: seq<T>, lo: nat, hi: nat, b: seq<T>) {
    lo <= hi <= |r| && r[lo..hi] == b
  }

  /** Six pieces framed between an 18-line opening and a 27-line closing each
      start where the one before them ends. */
  lemma SixInFrame<T>(r: seq<T>, m: seq<T>, t: seq<T>, i: seq<T>, u: seq<T>, ib: seq<T>, wb: seq<T>,
                          o1: nat, o2: nat, o3: nat, o4: nat, o5: nat, o6: nat)
    requires |r| == 18 + |m| + |t| + |i| + |u| + |ib| + |wb| + 27
    requires r[18..|r| - 27] == m + t + i + u + ib + wb
    requires o1 == 18 && o2 == o1 + |m| && o3 == o2 + |t| && o4 == o3 + |i| && o5 == o4 + |u| && o6 == o5 + |ib|
    ensures Sliced(r, o1, o2, m) && Sliced(r, o2, o3, t) && Sliced(r, o3, o4, i) && Sliced(r, o4, o5, u)
    ensures Sliced(r, o5, o6, ib) && Sliced(r, o6, |r| - 27, wb)
  {
    var hi := |r| - 27;
    SplitSlice(r, 18, hi, m + t + i + u + ib, wb);
    SplitSlice(r, 18, hi - |wb|, m + t + i + u, ib);
    SplitSlice(r, 18, hi - |wb| - |ib|, m + t + i, u);
    SplitSlice(r, 18, hi - |wb| - |ib| - |u|, m + t, i);
    SplitSlice(r, 18, hi - |wb| - |ib| - |u| - |i|, m, t);
  }

  /** Each section starts where the one before it ends. */
  lemma StartsFollowSizes(a: Record)
    ensures SectionStart(a, Memory) == 18
    ensures SectionStart(a, Task) == SectionStart(a, Memory) + |SubsystemBlock(Memory, Findings(a, Memory))|
    ensures SectionStart(a, AI) == SectionStart(a, Task) + |SubsystemBlock(Task, Findings(a, Task))|
    ensures SectionStart(a, Autonomy) == SectionStart(a, AI) + |SubsystemBlock(AI, Findings(a, AI))|
    ensures IntegrationStart(a) == SectionStart(a, Autonomy) + |SubsystemBlock(Autonomy, Findings(a, Autonomy))|
    ensures WorkflowStart(a) == IntegrationStart(a) + |IntegrationBlock(a.integrationPoints)|
  {
  }

  /** Between any `pre` and `post`, `Middle(a)` is the six blocks in order. */
  lemma FramesBlocks(a: Record, pre: seq<string>, post: seq<string>)
    ensures var r := pre + Middle(a) + post;
      r[|pre|..|r| - |post|] == SubsystemBlock(Memory, Findings(a, Memory)) + SubsystemBlock(Task, Findings(a, Task))
      + SubsystemBlock(AI, Findings(a, AI)) + SubsystemBlock(Autonomy, Findings(a, Autonomy))
      + IntegrationBlock(a.integrationPoints) + WorkflowBlock(a.workflowConnections)
  {
    Framed(pre, Middle(a), post);
  }

  /** Framing `Middle(a)` between an 18-line opening and a 27-line closing lays
      out the six blocks in order, each starting where the one before it ends. */
  lemma BlocksInOrder(a: Record, pre: seq<string>, post: seq<string>)
    requires |pre| == 18 && |post| == 27
    ensures var r := pre + Middle(a) + post;
      && Sliced(r, SectionStart(a, Memory), SectionStart(a, Task), SubsystemBlock(Memory, Findings(a, Memory)))
      && Sliced(r, SectionStart(a, Task), SectionStart(a, AI), SubsystemBlock(Task, Findings(a, Task)))
      && Sliced(r, SectionStart(a, AI), SectionStart(a, Autonomy), SubsystemBlock(AI, Findings(a, AI)))
      && Sliced(r, SectionStart(a, Autonomy), IntegrationStart(a), SubsystemBlock(Autonomy, Findings(a, Autonomy)))
      && Sliced(r, IntegrationStart(a), WorkflowStart(a), IntegrationBlock(a.integrationPoints))
      && Sliced(r, WorkflowStart(a), |r| - 27, WorkflowBlock(a.workflowConnections))
  {
    var r := pre + Middle(a) + post;
    StartsFollowSizes(a);
    FramesBlocks(a, pre, post);
    SixInFrame(r, SubsystemBlock(Memory, Findings(a, Memory)), SubsystemBlock(Task, Findings(a, Task)),
      SubsystemBlock(AI, Findings(a, AI)), SubsystemBlock(Autonomy, Findings(a, Autonomy)),
      IntegrationBlock(a.integrationPoints), WorkflowBlock(a.workflowConnections),
      SectionStart(a, Memory), SectionStart(a, Task), SectionStart(a, AI), SectionStart(a, Autonomy),
      IntegrationStart(a), WorkflowStart(a));
  }

  /** The report's sections in order: after the 18-line opening come the Memory,
      Task, AI and Autonomy blocks, the integration block and the workflow block,
      each starting where the one before it ends, and then the conclusions. */
  lemma SectionsInOrder(a: Record, timestamp: string)
    ensures var r := Render(a, timestamp);
      && Sliced(r, SectionStart(a, Memory), SectionStart(a, Task), SubsystemBlock(Memory, Findings(a, Memory)))
      && Sliced(r, SectionStart(a, Task), SectionStart(a, AI), SubsystemBlock(Task, Findings(a, Task)))
      && Sliced(r, SectionStart(a, AI), SectionStart(a, Autonomy), SubsystemBlock(AI, Findings(a, AI)))
      && Sliced(r, SectionStart(a, Autonomy), IntegrationStart(a), SubsystemBlock(Autonomy, Findings(a, Autonomy)))
      && Sliced(r, IntegrationStart(a), WorkflowStart(a), IntegrationBlock(a.integrationPoints))
      && Sliced(r, WorkflowStart(a), |r| - 27, WorkflowBlock(a.workflowConnections))
  {
    BlocksInOrder(a, Opening(timestamp), Closing(TotalPatterns(a), TotalIntegrations(a)));
  }

  /** A non-empty stretch of `r` opens with its own first line. */
  lemma SlicedHead<T>(r: seq<T>, lo: nat, hi: nat, b: seq<T>)
    requires Sliced(r, lo, hi, b) && |b| > 0
    ensures lo < |r| && r[lo] == b[0]
  {
    assert r[lo] == r[lo..hi][0];
  }

  /** With `Middle(a)` between an 18-line opening and a 27-line closing, a
      non-empty bucket's block opens with its header at the bucket's start. */
  lemma BucketHeadAt(a: Record, pre: seq<string>, post: seq<string>, s: Subsystem)
    requires |pre| == 18 && |post| == 27
    requires Count(a, s) > 0
    ensures var r := pre + Middle(a) + post;
      SectionStart(a, s) < |r| && r[SectionStart(a, s)] == HeaderLine(s, Count(a, s))
  {
    var r := pre + Middle(a) + post;
    BlocksInOrder(a, pre, post);
    var b := SubsystemBlock(s, Findings(a, s));
    match s
    case Memory => SlicedHead(r, SectionStart(a, s), SectionStart(a, Task), b);
    case Task => SlicedHead(r, SectionStart(a, s), SectionStart(a, AI), b);
    case AI => SlicedHead(r, SectionStart(a, s), SectionStart(a, Autonomy), b);
    case Autonomy => SlicedHead(r, SectionStart(a, s), IntegrationStart(a), b);
  }

  /** With `Middle(a)` between an 18-line opening and a 27-line closing, the
      integration block, when not empty, opens with its title at its start. */
  lemma IntegrationTitleAt(a: Record, pre: seq<string>, post: seq<string>)
    requires |pre| == 18 && |post| == 27
    requires |a.integrationPoints| > 0
    ensures var r := pre + Middle(a) + post;
      IntegrationStart(a) < |r| && r[IntegrationStart(a)] == IntegrationTitle
  {
    var r := pre + Middle(a) + post;
    BlocksInOrder(a, pre, post);
    SlicedHead(r, IntegrationStart(a), WorkflowStart(a), IntegrationBlock(a.integrationPoints));
  }

  /** With `Middle(a)` between an 18-line opening and a 27-line closing, the
      workflow block, when not empty, opens with its title at its start. */
  lemma WorkflowTitleAt(a: Record, pre: seq<string>, post: seq<string>)
    requires |pre| == 18 && |post| == 27
    requires |a.workflowConnections| > 0
    ensures var r := pre + Middle(a) + post;
      WorkflowStart(a) < |r| && r[WorkflowStart(a)] == WorkflowTitle
  {
    var r := pre + Middle(a) + post;
    BlocksInOrder(a, pre, post);
    SlicedHead(r, WorkflowStart(a), |r| - 27, WorkflowBlock(a.workflowConnections));
  }

  /** In the report, every non-empty bucket block opens with its header at the
      bucket's start, and the integration and workflow blocks with their titles. */
  lemma HeadsInReport(a: Record, timestamp: string)
    ensures var r := Render(a, timestamp);
      && (forall s :: Count(a, s) > 0 ==> SectionStart(a, s) < |r| && r[SectionStart(a, s)] == HeaderLine(s, Count(a, s)))
      && (|a.integrationPoints| > 0 ==> IntegrationStart(a) < |r| && r[IntegrationStart(a)] == IntegrationTitle)
      && (|a.workflowConnections| > 0 ==> WorkflowStart(a) < |r| && r[WorkflowStart(a)] == WorkflowTitle)
  {
    var r := Render(a, timestamp);
    var pre := Opening(timestamp);
    var post := Closing(TotalPatterns(a), TotalIntegrations(a));
    forall s | Count(a, s) > 0
      ensures SectionStart(a, s) < |r| && r[SectionStart(a, s)] == HeaderLine(s, Count(a, s))
    {
      BucketHeadAt(a, pre, post, s);
    }
    if |a.integrationPoints| > 0 {
      IntegrationTitleAt(a, pre, post);
    }
    if |a.workflowConnections| > 0 {
      WorkflowTitleAt(a, pre, post);
    }
  }

  /** The section starts increase in the order Memory, Task, AI, Autonomy,
      integration, workflow, strictly past every non-empty section. */
  lemma StartsIncrease(a: Record)
    ensures 18 == SectionStart(a, Memory)
    ensures SectionStart(a, Memory) <= SectionStart(a, Task) <= SectionStart(a, AI) <= SectionStart(a, Autonomy)
    ensures SectionStart(a, Autonomy) <= IntegrationStart(a) <= WorkflowStart(a)
    ensures Count(a, Memory) > 0 ==> SectionStart(a, Memory) < SectionStart(a, Task)
    ensures Count(a, Task) > 0 ==> SectionStart(a, Task) < SectionStart(a, AI)
    ensures Count(a, AI) > 0 ==> SectionStart(a, AI) < SectionStart(a, Autonomy)
    ensures Count(a, Autonomy) > 0 ==> SectionStart(a, Autonomy) < IntegrationStart(a)
    ensures |a.integrationPoints| > 0 ==> IntegrationStart(a) < WorkflowStart(a)
  {
  }

  /** `l` begins with `p`. */
  predicate Starts(l: string, p: string) {
    |p| <= |l| && l[..|p|] == p
  }

  /** A bucket header: the target mark first and the closing parenthesis of the
      pattern count last. */
  predicate IsHeader(l: string) {
    |l| > 1 && l[0] == '🎯' && l[|l| - 1] == ')'
  }

  /** `l` is neither a bucket header nor one of the two block titles. */
  predicate PlainLine(l: string) {
    !IsHeader(l) && l != IntegrationTitle && l != WorkflowTitle
  }

  /** No line of `ls` is a bucket header, the integration title or the workflow title. */
  predicate Plain(ls: seq<string>) {
    forall l :: l in ls ==> PlainLine(l)
  }

  lemma InAppend<T>(x: seq<T>, y: seq<T>, e: T)
    ensures e in x + y <==> e in x || e in y
  {
    if e in x + y {
      var k :| 0 <= k < |x + y| && (x + y)[k] == e;
      if k >= |x| {
        assert y[k - |x|] == e;
      }
    }
    if e in y {
      var k :| 0 <= k < |y| && y[k] == e;
      assert (x + y)[|x| + k] == e;
    }
  }

  lemma PlainAppend(x: seq<string>, y: seq<string>)
    requires Plain(x) && Plain(y)
    ensures Plain(x + y)
  {
    forall l | l in x + y ensures PlainLine(l) {
      InAppend(x, y, l);
    }
  }

  /** Every header line is recognised as one. */
  lemma HeaderLineIsHeader(s: Subsystem, count: nat)
    ensures IsHeader(HeaderLine(s, count))
  {
    assert HeaderLine(s, count)[0] == '🎯';
  }

  /** How a fixed line is told apart from headers and titles: by its last
      character, and for a line ending in a variation selector by the one before. */
  predicate EndsPlainly(l: string) {
    |l| == 0 ||
      (l[|l| - 1] != ')' && l[|l| - 1] != '🌌' && (l[|l| - 1] == '\U{FE0F}' ==> |l| > 1 && l[|l| - 2] != '⚙'))
  }

  lemma EndsPlainlyIsPlain(l: string)
    requires EndsPlainly(l)
    ensures PlainLine(l)
  {
    assert IntegrationTitle[|IntegrationTitle| - 1] == '🌌';
    assert WorkflowTitle[|WorkflowTitle| - 1] == '\U{FE0F}';
    assert WorkflowTitle[|WorkflowTitle| - 2] == '⚙';
  }

  /** Lines that all end plainly contain no header and no title. */
  lemma FixedLinesArePlain(ls: seq<string>)
    requires forall j :: 0 <= j < |ls| ==> EndsPlainly(ls[j])
    ensures Plain(ls)
  {
    forall l | l in ls ensures PlainLine(l) {
      EndsPlainlyIsPlain(l);
    }
  }

  lemma OpeningIsPlain(timestamp: string)
    ensures Plain(Opening(timestamp))
  {
    FixedLinesArePlain(Banner);
    FixedLinesArePlain(OpeningProse);
    var line := TimestampPrefix + timestamp;
    assert line[0] == TimestampPrefix[0];
    assert PlainLine(line) by {
      assert IntegrationTitle[0] != line[0];
      assert WorkflowTitle[0] != line[0];
    }
    PlainAppend(Banner, [line]);
    PlainAppend(Banner + [line], OpeningProse);
  }

  /** A line made of a fixed prefix and a rendered count ends with a digit. */
  lemma EndsWithDigit(prefix: string, n: nat)
    ensures var l := prefix + NatToString(n); |l| > 0 && IsDigit(l[|l| - 1])
  {
    var d := NatToString(n);
    assert (prefix + d)[|prefix + d| - 1] == d[|d| - 1];
  }

  lemma ClosingIsPlain(totalPatterns: nat, totalIntegrations: nat)
    ensures Plain(Closing(totalPatterns, totalIntegrations))
  {
    var head := [ "🎭 MARDUK'S THEATRICAL CONCLUSIONS 🎭",
      Repeat('=', 38),
      "",
      PatternsPrefix + NatToString(totalPatterns),
      IntegrationsPrefix + NatToString(totalIntegrations) ];
    EndsWithDigit(PatternsPrefix, totalPatterns);
    EndsWithDigit(IntegrationsPrefix, totalIntegrations);
    FixedLinesArePlain(head);
    FixedLinesArePlain(ClosingProse);
    PlainAppend(head, ClosingProse);
  }

  /** An indented line is none of the three. */
  lemma IndentedIsPlain(l: string)
    requires |l| > 0 && l[0] == ' '
    ensures !IsHeader(l) && l != IntegrationTitle && l != WorkflowTitle
  {
  }

  /** Lines that are all indented or blank contain no header and no title. */
  lemma IndentedLinesArePlain(ls: seq<string>)
    requires forall j :: 0 <= j < |ls| ==> ls[j] == "" || ls[j][0] == ' '
    ensures Plain(ls)
  {
    forall l | l in ls ensures PlainLine(l) {
      if l != "" {
        IndentedIsPlain(l);
      }
    }
  }

  /** The integration block's only notable line is its title. */
  lemma IntegrationBlockLines(ps: seq<IntegrationPoint>)
    ensures forall l :: l in IntegrationBlock(ps) ==> !IsHeader(l) && l != WorkflowTitle
    ensures IntegrationTitle in IntegrationBlock(ps) <==> |ps| > 0
  {
    if |ps| > 0 {
      var count := |ps|;
      var head := IntegrationHead(count);
      forall l | l in head ensures !IsHeader(l) && l != WorkflowTitle {
        var k :| 0 <= k < |head| && head[k] == l;
        if k == 0 {
          assert l[|l| - 1] == '🌌';
        } else if k == 3 {
          assert l[0] == '🚀';
        } else {
          assert EndsPlainly(l);
          EndsPlainlyIsPlain(l);
        }
      }
      var listed := PointLines(ps[..Min(count, ShownPoints)]);
      var more := if count > ShownPoints then [MorePointsLine(count - ShownPoints)] else [];
      IndentedLinesArePlain(listed + more + [""]);
      assert IntegrationBlock(ps) == head + (listed + more + [""]);
      forall l | l in IntegrationBlock(ps) ensures !IsHeader(l) && l != WorkflowTitle {
        InAppend(head, listed + more + [""], l);
      }
    }
  }

  /** The workflow block's only notable line is its title. */
  lemma WorkflowBlockLines(ws: seq<WorkflowConnection>)
    ensures forall l :: l in WorkflowBlock(ws) ==> !IsHeader(l) && l != IntegrationTitle
    ensures WorkflowTitle in WorkflowBlock(ws) <==> |ws| > 0
  {
    if |ws| > 0 {
      var head := WorkflowHead(|ws|);
      forall l | l in head ensures !IsHeader(l) && l != IntegrationTitle {
        var k :| 0 <= k < |head| && head[k] == l;
        if k == 0 {
          assert l[0] == '⚙';
        } else if k == 3 {
          assert l[0] == '🎼';
        } else {
          assert EndsPlainly(l);
          EndsPlainlyIsPlain(l);
        }
      }
      IndentedLinesArePlain(WorkflowLines(ws) + [""]);
      assert WorkflowBlock(ws) == head + (WorkflowLines(ws) + [""]);
      forall l | l in WorkflowBlock(ws) ensures !IsHeader(l) && l != IntegrationTitle {
        InAppend(head, WorkflowLines(ws) + [""], l);
      }
    }
  }

  /** A bucket block's only notable line is its own header. */
  lemma SubsystemBlockLines(t: Subsystem, fs: seq<Finding>)
    ensures forall l :: l in SubsystemBlock(t, fs) ==>
      l != IntegrationTitle && l != WorkflowTitle && (IsHeader(l) ==> l == HeaderLine(t, |fs|))
  {
    var b := SubsystemBlock(t, fs);
    forall l | l in b
      ensures l != IntegrationTitle && l != WorkflowTitle && (IsHeader(l) ==> l == HeaderLine(t, |fs|))
    {
      var k :| 0 <= k < |b| && b[k] == l;
      if k == 0 {
        assert l[0] == '🎯';
      } else if IsFindingLine(l) || IsMoreFindingsLine(l) {
        IndentedIsPlain(l);
      }
    }
  }

  /** Headers of different buckets differ: the bucket's name follows the mark. */
  lemma HeaderLineNamesBucket(s: Subsystem, t: Subsystem, n: nat, m: nat)
    requires HeaderLine(s, n) == HeaderLine(t, m)
    ensures s == t
  {
    HeaderLineName(s, n);
    HeaderLineName(t, m);
  }

  /** The two characters after the mark and its space are the first two of the
      bucket's name. */
  lemma HeaderLineName(s: Subsystem, n: nat)
    ensures HeaderLine(s, n)[2] == Name(s)[0] && HeaderLine(s, n)[3] == Name(s)[1]
  {
    assert HeaderLine(s, n) == "🎯 " + (Name(s) + HeaderTail(n));
  }

  /** Membership in a report is membership in one of its parts. */
  lemma InReport(a: Record, timestamp: string, l: string)
    ensures l in Render(a, timestamp) <==>
      || l in Opening(timestamp)
      || l in SubsystemBlock(Memory, Findings(a, Memory))
      || l in SubsystemBlock(Task, Findings(a, Task))
      || l in SubsystemBlock(AI, Findings(a, AI))
      || l in SubsystemBlock(Autonomy, Findings(a, Autonomy))
      || l in IntegrationBlock(a.integrationPoints)
      || l in WorkflowBlock(a.workflowConnections)
      || l in Closing(TotalPatterns(a), TotalIntegrations(a))
  {
    var m, t, i, u := SubsystemBlock(Memory, Findings(a, Memory)), SubsystemBlock(Task, Findings(a, Task)),
      SubsystemBlock(AI, Findings(a, AI)), SubsystemBlock(Autonomy, Findings(a, Autonomy));
    var ib, wb := IntegrationBlock(a.integrationPoints), WorkflowBlock(a.workflowConnections);
    var opening, closing := Opening(timestamp), Closing(TotalPatterns(a), TotalIntegrations(a));
    InAppend(m, t, l);
    InAppend(m + t, i, l);
    InAppend(m + t + i, u, l);
    assert SubsystemSection(a) == m + t + i + u;
    InAppend(SubsystemSection(a), ib, l);
    InAppend(SubsystemSection(a) + ib, wb, l);
    var middle := SubsystemSection(a) + ib + wb;
    InAppend(opening, middle, l);
    InAppend(opening + middle, closing, l);
    assert Render(a, timestamp) == opening + middle + closing;
  }

  /** A non-empty bucket's header, naming its size, is in the report. */
  lemma HeaderShownWhenNonEmpty(a: Record, timestamp: string, s: Subsystem)
    requires Count(a, s) > 0
    ensures HeaderLine(s, Count(a, s)) in Render(a, timestamp)
  {
    assert HeaderLine(s, Count(a, s)) == SubsystemBlock(s, Findings(a, s))[0];
    InReport(a, timestamp, HeaderLine(s, Count(a, s)));
  }

  /** The lines before the first block and after the last are plain. */
  lemma FrameIsPlain(a: Record, timestamp: string, l: string)
    requires l in Opening(timestamp) || l in Closing(TotalPatterns(a), TotalIntegrations(a))
    ensures PlainLine(l)
  {
    OpeningIsPlain(timestamp);
    ClosingIsPlain(TotalPatterns(a), TotalIntegrations(a));
  }

  /** A header found in a bucket block is that bucket's, and the bucket is not empty. */
  lemma HeaderInBlock(s: Subsystem, n: nat, t: Subsystem, fs: seq<Finding>)
    requires HeaderLine(s, n) in SubsystemBlock(t, fs)
    ensures s == t && |fs| > 0
  {
    SubsystemBlockLines(t, fs);
    HeaderLineIsHeader(s, n);
    HeaderLineNamesBucket(s, t, n, |fs|);
  }

  /** An empty bucket has no header anywhere in the report, whatever count one
      might look for. */
  lemma HeaderAbsentWhenEmpty(a: Record, timestamp: string, s: Subsystem, n: nat)
    requires Count(a, s) == 0
    ensures HeaderLine(s, n) !in Render(a, timestamp)
  {
    var h := HeaderLine(s, n);
    HeaderLineIsHeader(s, n);
    InReport(a, timestamp, h);
    if h in Opening(timestamp) || h in Closing(TotalPatterns(a), TotalIntegrations(a)) {
      FrameIsPlain(a, timestamp, h);
    }
    IntegrationBlockLines(a.integrationPoints);
    WorkflowBlockLines(a.workflowConnections);
    if h in SubsystemBlock(Memory, Findings(a, Memory)) {
      HeaderInBlock(s, n, Memory, Findings(a, Memory));
    }
    if h in SubsystemBlock(Task, Findings(a, Task)) {
      HeaderInBlock(s, n, Task, Findings(a, Task));
    }
    if h in SubsystemBlock(AI, Findings(a, AI)) {
      HeaderInBlock(s, n, AI, Findings(a, AI));
    }
    if h in SubsystemBlock(Autonomy, Findings(a, Autonomy)) {
      HeaderInBlock(s, n, Autonomy, Findings(a, Autonomy));
    }
  }

  /** A bucket's header is in the report exactly when the bucket has findings. */
  lemma SubsystemBlockShownIffNonEmpty(a: Record, timestamp: string, s: Subsystem)
    ensures Count(a, s) > 0 <==> exists n :: HeaderLine(s, n) in Render(a, timestamp)
  {
    if Count(a, s) > 0 {
      HeaderShownWhenNonEmpty(a, timestamp, s);
    } else {
      forall n ensures HeaderLine(s, n) !in Render(a, timestamp) {
        HeaderAbsentWhenEmpty(a, timestamp, s, n);
      }
    }
  }

  /** The integration block is in the report exactly when there are integration
      points, and the workflow block exactly when there are workflow connections. */
  lemma BlocksShownIffNonEmpty(a: Record, timestamp: string)
    ensures IntegrationTitle in Render(a, timestamp) <==> |a.integrationPoints| > 0
    ensures WorkflowTitle in Render(a, timestamp) <==> |a.workflowConnections| > 0
  {
    IntegrationTitleShownIffPoints(a, timestamp);
    WorkflowTitleShownIffConnections(a, timestamp);
  }

  lemma IntegrationTitleShownIffPoints(a: Record, timestamp: string)
    ensures IntegrationTitle in Render(a, timestamp) <==> |a.integrationPoints| > 0
  {
    TitlesOnlyInTheirBlocks(a, timestamp, IntegrationTitle);
    IntegrationBlockLines(a.integrationPoints);
    WorkflowBlockLines(a.workflowConnections);
  }

  lemma WorkflowTitleShownIffConnections(a: Record, timestamp: string)
    ensures WorkflowTitle in Render(a, timestamp) <==> |a.workflowConnections| > 0
  {
    TitlesOnlyInTheirBlocks(a, timestamp, WorkflowTitle);
    IntegrationBlockLines(a.integrationPoints);
    WorkflowBlockLines(a.workflowConnections);
  }

  /** A title in the report comes from the integration or the workflow block. */
  lemma TitlesOnlyInTheirBlocks(a: Record, timestamp: string, l: string)
    requires l == IntegrationTitle || l == WorkflowTitle
    ensures l in Render(a, timestamp) <==> l in IntegrationBlock(a.integrationPoints) || l in WorkflowBlock(a.workflowConnections)
  {
    InReport(a, timestamp, l);
    if l in Opening(timestamp) || l in Closing(TotalPatterns(a), TotalIntegrations(a)) {
      FrameIsPlain(a, timestamp, l);
    }
    SubsystemBlockLines(Memory, Findings(a, Memory));
    SubsystemBlockLines(Task, Findings(a, Task));
    SubsystemBlockLines(AI, Findings(a, AI));
    SubsystemBlockLines(Autonomy, Findings(a, Autonomy));
  }

  /** The workflow block is never cut off: every connection has its line. */
  lemma WorkflowsNeverTruncated(a: Record, timestamp: string)
    ensures forall j :: 0 <= j < |a.workflowConnections| ==> WorkflowLine(a.workflowConnections[j]) in Render(a, timestamp)
  {
    var ws := a.workflowConnections;
    forall j | 0 <= j < |ws| ensures WorkflowLine(ws[j]) in Render(a, timestamp) {
      assert WorkflowBlock(ws)[5 + j] == WorkflowLine(ws[j]);
      InReport(a, timestamp, WorkflowLine(ws[j]));
    }
  }

  /** `line` is `prefix` followed by the decimal digits of `n` and nothing else. */
  predicate ReadsBack(line: string, prefix: string, n: nat) {
    Starts(line, prefix) && AllDigits(line[|prefix|..]) && ParseNat(line[|prefix|..]) == n
  }

  lemma CountLineReadsBack(prefix: string, n: nat)
    ensures ReadsBack(prefix + NatToString(n), prefix, n)
  {
    var line := prefix + NatToString(n);
    assert line[..|prefix|] == prefix;
    assert line[|prefix|..] == NatToString(n);
    ParseNatToString(n);
  }

  /** The totals printed in the conclusions read back as the sum of the four bucket
      sizes and as integration points plus workflow connections. */
  lemma TotalsReadBack(a: Record, timestamp: string)
    ensures var r := Render(a, timestamp);
      && ReadsBack(r[|r| - 24], PatternsPrefix, Count(a, Memory) + Count(a, Task) + Count(a, AI) + Count(a, Autonomy))
      && ReadsBack(r[|r| - 23], IntegrationsPrefix, |a.integrationPoints| + |a.workflowConnections|)
  {
    var r := Render(a, timestamp);
    var c := Closing(TotalPatterns(a), TotalIntegrations(a));
    assert r[|r| - 24] == c[3] && r[|r| - 23] == c[4] by {
      assert r[|r| - 27..] == c;
      assert r[|r| - 24] == r[|r| - 27..][3];
      assert r[|r| - 23] == r[|r| - 27..][4];
    }
    CountLineReadsBack(PatternsPrefix, TotalPatterns(a));
    CountLineReadsBack(IntegrationsPrefix, TotalIntegrations(a));
  }
}
