/**
 * The Deal Master Bible: fifteen department views assembled from phase artifacts, the
 * section content shapes they hold, and the per-department display configuration with its
 * lookup getters.
 */
module Bible {
  import opened Wrappers
  import Records
  import Json

  /** The members of the `DepartmentId` union, in declaration order. */
  const DepartmentIds: seq<string> := [
    "executive", "product", "brand", "market", "customer", "revenue", "gtm", "content",
    "technical", "analytics", "launch", "risks", "evidence", "agent-json", "phase-trace"
  ]

  datatype TableData = TableData(headers: seq<string>, rows: seq<seq<string>>)

  datatype KeyValueScalar = KvText(s: string) | KvNumber(n: int) | KvBool(b: bool)

  datatype KeyValueKind = Text | Number | Boolean | Currency | Percentage

  datatype KeyValuePair = KeyValuePair(key: string, value: KeyValueScalar, kind: Option<KeyValueKind>)

  datatype ContentBlock = TextBlock(content: string) | ListBlock(items: seq<string>) | TableBlock(data: TableData)

  /** The five shapes of section content. */
  datatype SectionContent =
    | Markdown(text: string)
    | Table(data: TableData)
    | List(items: seq<string>)
    | KeyValue(pairs: seq<KeyValuePair>)
    | Mixed(blocks: seq<ContentBlock>)

  /** Which field of which phase a section was built from; the field is `undefined` for a path without a dot. */
  datatype PhaseSourceReference = PhaseSourceReference(phase: string, field: Option<string>, extracted: Json.JValue)

  datatype Placement = Inline | Appendix

  datatype MermaidDiagram = MermaidDiagram(title: string, diagram: string, placement: Placement)

  datatype DepartmentSection = DepartmentSection(
    name: string,
    content: SectionContent,
    sources: seq<PhaseSourceReference>,
    diagrams: Option<seq<MermaidDiagram>>)

  datatype DepartmentView = DepartmentView(
    id: string,
    title: string,
    summary: string,
    sections: seq<DepartmentSection>,
    completeness: int,
    lastUpdated: int)

  /** A section of a department and the dotted source paths (`phase.field`) it draws on. */
  datatype SectionMapping = SectionMapping(name: string, sources: seq<string>)

  datatype DepartmentMapping = DepartmentMapping(
    primaryPhases: seq<string>,
    secondaryPhases: seq<string>,
    sections: seq<SectionMapping>)

  datatype DepartmentConfig = DepartmentConfig(id: string, title: string, description: string, icon: string, color: string)

  const DepartmentConfigs: Records.Record<DepartmentConfig> := [
    ("executive", DepartmentConfig("executive", "Executive Summary", "High-level strategic overview and recommendations", "\U{1F4CA}", "blue")),
    ("product", DepartmentConfig("product", "Product", "Product vision, features, and roadmap", "\U{1F4E6}", "purple")),
    ("brand", DepartmentConfig("brand", "Brand & Positioning", "Brand identity, messaging, and market positioning", "\U{2728}", "pink")),
    ("market", DepartmentConfig("market", "Market Analysis", "Market size, trends, and competitive landscape", "\U{1F4C8}", "green")),
    ("customer", DepartmentConfig("customer", "Customer Intelligence", "Target customers, personas, and insights", "\U{1F465}", "cyan")),
    ("revenue", DepartmentConfig("revenue", "Revenue & Business Model", "Pricing, revenue streams, and business model", "\U{1F4B0}", "yellow")),
    ("gtm", DepartmentConfig("gtm", "Go-to-Market", "Marketing strategy, channels, and tactics", "\U{1F680}", "orange")),
    ("content", DepartmentConfig("content", "Content Engine", "Content strategy, workflows, and distribution", "\U{1F4DD}", "teal")),
    ("technical", DepartmentConfig("technical", "Technical Architecture", "System design, stack, and infrastructure", "\U{2699}\U{FE0F}", "indigo")),
    ("analytics", DepartmentConfig("analytics", "Analytics & KPIs", "Metrics, tracking, and success criteria", "\U{1F4CA}", "violet")),
    ("launch", DepartmentConfig("launch", "Launch & Operations", "Go-live plan, operations, and execution", "\U{1F3AF}", "red")),
    ("risks", DepartmentConfig("risks", "Risks & Unknowns", "Risk factors, assumptions, and open questions", "\U{26A0}\U{FE0F}", "amber")),
    ("evidence", DepartmentConfig("evidence", "Evidence Library", "Sources, citations, and supporting data", "\U{1F4DA}", "gray")),
    ("agent-json", DepartmentConfig("agent-json", "Agent JSON", "Ralph Loop implementation payload", "\U{1F916}", "emerald")),
    ("phase-trace", DepartmentConfig("phase-trace", "Phase Trace", "Audit trail of all 16 planning phases", "\U{1F50D}", "slate"))
  ]

  /** The icon shown for a department without a configuration. */
  const FallbackIcon: string := "\U{1F4C4}"

  function GetDepartmentTitle(id: string): string {
    match Records.Lookup(DepartmentConfigs, id)
    case Some(c) => if c.title != "" then c.title else id
    case None => id
  }

  function GetDepartmentDescription(id: string): string {
    match Records.Lookup(DepartmentConfigs, id)
    case Some(c) => c.description
    case None => ""
  }

  function GetDepartmentIcon(id: string): string {
    match Records.Lookup(DepartmentConfigs, id)
    case Some(c) => if c.icon != "" then c.icon else FallbackIcon
    case None => FallbackIcon
  }

  function GetDepartmentColor(id: string): string {
    match Records.Lookup(DepartmentConfigs, id)
    case Some(c) => if c.color != "" then c.color else "gray"
    case None => "gray"
  }

  /** Entry by entry: the table's keys are the department ids, and each entry names its own key. */
  lemma ConfigEntries()
    ensures |DepartmentConfigs| == |DepartmentIds|
    ensures forall i :: 0 <= i < |DepartmentConfigs| ==> DepartmentConfigs[i].0 == DepartmentIds[i]
    ensures forall i :: 0 <= i < |DepartmentConfigs| ==> DepartmentConfigs[i].1.id == DepartmentConfigs[i].0
  {
  }

  /** No configured field is empty, so no getter falls back for a configured department. */
  lemma ConfigFieldsNonEmpty()
    ensures forall i :: 0 <= i < |DepartmentConfigs| ==>
      var c := DepartmentConfigs[i].1; c.title != "" && c.description != "" && c.icon != "" && c.color != ""
  {
  }

  lemma ConfigKeysDistinct()
    ensures Records.DistinctKeys(DepartmentConfigs)
  {
  }

  /** The configuration table has exactly the department ids as keys, in the union's order. */
  lemma ConfigsKeyedByDepartmentId()
    ensures Records.Keys(DepartmentConfigs) == DepartmentIds
  {
    ConfigEntries();
  }

  /** For a known department every getter returns the configured field, and none is empty. */
  lemma {:induction false} KnownDepartmentGetters(id: string)
    requires id in DepartmentIds
    ensures Records.Lookup(DepartmentConfigs, id).Some?
    ensures var c := Records.Lookup(DepartmentConfigs, id).value;
      c.id == id &&
      GetDepartmentTitle(id) == c.title != "" &&
      GetDepartmentDescription(id) == c.description != "" &&
      GetDepartmentIcon(id) == c.icon != "" &&
      GetDepartmentColor(id) == c.color != ""
  {
    ConfigEntries();
    ConfigFieldsNonEmpty();
    ConfigKeysDistinct();
    var i :| 0 <= i < |DepartmentIds| && DepartmentIds[i] == id;
    assert DepartmentConfigs[i].0 == id;
    Records.LookupDistinct(DepartmentConfigs, i);
  }

  /** For any other name the getters fall back to the name itself, `""`, the page icon and gray. */
  lemma UnknownDepartmentGetters(id: string)
    requires id !in DepartmentIds
    ensures GetDepartmentTitle(id) == id
    ensures GetDepartmentDescription(id) == ""
    ensures GetDepartmentIcon(id) == FallbackIcon
    ensures GetDepartmentColor(id) == "gray"
  {
    ConfigEntries();
    assert forall i :: 0 <= i < |DepartmentConfigs| ==> DepartmentConfigs[i].0 != id;
  }
}
