/**
 * The technical group of the build-handoff payload, read from the technical architecture
 * artifact: services, Cloudflare bindings, the data model and the API endpoints (the
 * authentication reading is in `RalphSchema`).
 */
module RalphTechnical {
  import opened Wrappers
  import Text
  import Seqs
  import opened Json
  import opened RalphSchema

  // ─── Services ────────────────────────────────────────────────────────────

  /**
   * An entry of a service list: an object gives its `name` and `description` (or the
   * defaults), a bare string is the name with the default description, anything else is skipped.
   */
  function ServiceEntry(kind: ServiceType, defaultName: string, defaultDescription: string, x: JValue): (r: Option<ServiceSpec>)
    ensures r.Some? <==> IsObjectLike(x) || x.JString?
    ensures r.Some? ==> r.value.kind == kind
    ensures x.JString? ==> r == Some(ServiceSpec(x.s, kind, defaultDescription))
  {
    if IsObjectLike(x) then Some(ServiceSpec(Or(Str(x, "name"), defaultName), kind, Or(Str(x, "description"), defaultDescription)))
    else if x.JString? then Some(ServiceSpec(x.s, kind, defaultDescription))
    else None
  }

  function WorkflowService(i: nat, w: JValue): Option<ServiceSpec> {
    ServiceEntry(Worker, "Unnamed Workflow", "Temporal workflow", w)
  }

  function DurableObjectService(i: nat, d: JValue): Option<ServiceSpec> {
    ServiceEntry(DurableObject, "Unnamed Durable Object", "Durable Object", d)
  }

  /** The single Pages application, present when there is at least one SvelteKit route. */
  function PagesServices(routes: seq<JValue>): seq<ServiceSpec> {
    if |routes| > 0 then
      [ServiceSpec("SvelteKit Pages Application", Pages, "SvelteKit application with " + Text.NatToString(|routes|) + " routes")]
    else []
  }

  function Services(techArch: JValue): seq<ServiceSpec> {
    Seqs.Collected(ArrayAt(techArch, "workflows"), WorkflowService) +
    Seqs.Collected(ArrayAt(techArch, "durableObjects"), DurableObjectService) +
    PagesServices(ArrayAt(techArch, "sveltekitRoutes"))
  }

  /** `extractServices`: workflows, then durable objects, then the Pages application. */
  method ExtractServices(techArch: JValue) returns (services: seq<ServiceSpec>)
    ensures services == Services(techArch)
  {
    ghost var workers := Seqs.Collected(ArrayAt(techArch, "workflows"), WorkflowService);
    ghost var objects := Seqs.Collected(ArrayAt(techArch, "durableObjects"), DurableObjectService);
    services := Seqs.PushCollected([], ArrayAt(techArch, "workflows"), WorkflowService);
    assert services == workers;
    services := Seqs.PushCollected(services, ArrayAt(techArch, "durableObjects"), DurableObjectService);
    assert services == workers + objects;
    var routes := ArrayAt(techArch, "sveltekitRoutes");
    if |routes| > 0 {
      services := services + [ServiceSpec("SvelteKit Pages Application", Pages, "SvelteKit application with " + Text.NatToString(|routes|) + " routes")];
    }
    assert services == workers + objects + PagesServices(routes);
  }

  /**
   * The services come in three runs: one worker per workflow entry that is an object or a
   * string, one durable object per such durable-object entry, and one Pages application
   * exactly when the routes list is non-empty.
   */
  lemma ServicesInThreeRuns(techArch: JValue)
    ensures var services := Services(techArch);
      var w := |Seqs.Collected(ArrayAt(techArch, "workflows"), WorkflowService)|;
      var d := |Seqs.Collected(ArrayAt(techArch, "durableObjects"), DurableObjectService)|;
      |services| == w + d + (if |ArrayAt(techArch, "sveltekitRoutes")| > 0 then 1 else 0) &&
      (forall j :: 0 <= j < w ==> services[j].kind == Worker) &&
      (forall j :: w <= j < w + d ==> services[j].kind == DurableObject) &&
      (forall j :: w + d <= j < |services| ==> services[j].kind == Pages)
  {
    var workflows, objects := ArrayAt(techArch, "workflows"), ArrayAt(techArch, "durableObjects");
    var ws, ds := Seqs.Collected(workflows, WorkflowService), Seqs.Collected(objects, DurableObjectService);
    forall j | 0 <= j < |ws| ensures ws[j].kind == Worker {
      Seqs.CollectedFrom(workflows, WorkflowService, j);
    }
    forall j | 0 <= j < |ds| ensures ds[j].kind == DurableObject {
      Seqs.CollectedFrom(objects, DurableObjectService, j);
    }
  }

  // ─── Cloudflare bindings ─────────────────────────────────────────────────

  /** An object of a binding list becomes a binding of `kind`, named by its `binding` field or the default. */
  function BindingEntry(kind: BindingType, defaultName: string, x: JValue): (r: Option<CloudflareBinding>)
    ensures r.Some? <==> IsObjectLike(x)
    ensures r.Some? ==> r.value.kind == kind && (defaultName != "" ==> r.value.name != "")
  {
    if IsObjectLike(x) then Some(CloudflareBinding(Or(Str(x, "binding"), defaultName), kind)) else None
  }

  function KvBinding(i: nat, x: JValue): Option<CloudflareBinding> { BindingEntry(Kv, "KV", x) }
  function D1Binding(i: nat, x: JValue): Option<CloudflareBinding> { BindingEntry(D1, "DB", x) }
  function R2Binding(i: nat, x: JValue): Option<CloudflareBinding> { BindingEntry(R2, "BUCKET", x) }
  function QueueBinding(i: nat, x: JValue): Option<CloudflareBinding> { BindingEntry(Queue, "QUEUE", x) }

  function AiBindings(wrangler: JValue): seq<CloudflareBinding> {
    if TruthyOpt(Get(wrangler, "ai")) then [CloudflareBinding("AI", Ai)] else []
  }

  /** The bindings read from the four binding lists, in the order KV, D1, R2, queues. */
  function ListedBindings(wrangler: JValue): seq<CloudflareBinding> {
    Seqs.Collected(ArrayAt(wrangler, "kv_namespaces"), KvBinding) +
    Seqs.Collected(ArrayAt(wrangler, "d1_databases"), D1Binding) +
    Seqs.Collected(ArrayAt(wrangler, "r2_buckets"), R2Binding) +
    Seqs.Collected(ArrayAt(wrangler, "queues"), QueueBinding)
  }

  function CloudflareBindings(techArch: JValue): seq<CloudflareBinding> {
    match Get(techArch, "wranglerChanges")
    case Some(w) => if IsObjectLike(w) then ListedBindings(w) + AiBindings(w) else []
    case None => []
  }

  /** `extractCloudflareBindings`: KV, D1, R2 and queue bindings, then the AI binding. */
  method ExtractCloudflareBindings(techArch: JValue) returns (bindings: seq<CloudflareBinding>)
    ensures bindings == CloudflareBindings(techArch)
  {
    bindings := [];
    var changes := Get(techArch, "wranglerChanges");
    if changes.Some? && IsObjectLike(changes.value) {
      var wrangler := changes.value;
      ghost var kv := Seqs.Collected(ArrayAt(wrangler, "kv_namespaces"), KvBinding);
      ghost var d1 := Seqs.Collected(ArrayAt(wrangler, "d1_databases"), D1Binding);
      ghost var r2 := Seqs.Collected(ArrayAt(wrangler, "r2_buckets"), R2Binding);
      ghost var q := Seqs.Collected(ArrayAt(wrangler, "queues"), QueueBinding);
      bindings := Seqs.PushCollected(bindings, ArrayAt(wrangler, "kv_namespaces"), KvBinding);
      assert bindings == kv;
      bindings := Seqs.PushCollected(bindings, ArrayAt(wrangler, "d1_databases"), D1Binding);
      assert bindings == kv + d1;
      bindings := Seqs.PushCollected(bindings, ArrayAt(wrangler, "r2_buckets"), R2Binding);
      assert bindings == kv + d1 + r2;
      bindings := Seqs.PushCollected(bindings, ArrayAt(wrangler, "queues"), QueueBinding);
      assert bindings == kv + d1 + r2 + q;
      assert bindings == ListedBindings(wrangler);
      if TruthyOpt(Get(wrangler, "ai")) {
        bindings := bindings + [CloudflareBinding("AI", Ai)];
      }
    }
  }

  /** A run of bindings from one list: each is named and none is the AI binding. */
  lemma BindingRun(xs: seq<JValue>, make: (nat, JValue) -> Option<CloudflareBinding>)
    requires forall i, x :: make(i, x).Some? ==> make(i, x).value.name != "" && make(i, x).value.kind != Ai
    ensures forall j :: 0 <= j < |Seqs.Collected(xs, make)| ==>
      Seqs.Collected(xs, make)[j].name != "" && Seqs.Collected(xs, make)[j].kind != Ai
  {
    forall j | 0 <= j < |Seqs.Collected(xs, make)| 
      ensures Seqs.Collected(xs, make)[j].name != "" && Seqs.Collected(xs, make)[j].kind != Ai
    {
      Seqs.CollectedFrom(xs, make, j);
    }
  }

  lemma ListedBindingsNamed(w: JValue)
    ensures forall j :: 0 <= j < |ListedBindings(w)| ==> ListedBindings(w)[j].name != "" && ListedBindings(w)[j].kind != Ai
  {
    BindingRun(ArrayAt(w, "kv_namespaces"), KvBinding);
    BindingRun(ArrayAt(w, "d1_databases"), D1Binding);
    BindingRun(ArrayAt(w, "r2_buckets"), R2Binding);
    BindingRun(ArrayAt(w, "queues"), QueueBinding);
  }

  /**
   * Every binding has a name, and the AI binding appears exactly when the wrangler changes
   * have a truthy `ai`, as the last binding.
   */
  lemma BindingsNamedAndAiLast(techArch: JValue)
    ensures var bs := CloudflareBindings(techArch);
      (forall j :: 0 <= j < |bs| ==> bs[j].name != "") &&
      ((exists j :: 0 <= j < |bs| && bs[j].kind == Ai) <==>
        Get(techArch, "wranglerChanges").Some? && IsObjectLike(Get(techArch, "wranglerChanges").value) &&
        TruthyOpt(Get(Get(techArch, "wranglerChanges").value, "ai"))) &&
      (forall j :: 0 <= j < |bs| && bs[j].kind == Ai ==> j == |bs| - 1)
  {
    var changes := Get(techArch, "wranglerChanges");
    var bs := CloudflareBindings(techArch);
    if changes.Some? && IsObjectLike(changes.value) {
      var w := changes.value;
      var listed := ListedBindings(w);
      ListedBindingsNamed(w);
      assert bs == listed + AiBindings(w);
      forall j | 0 <= j < |bs| ensures bs[j].name != "" && (bs[j].kind == Ai ==> j == |bs| - 1) {
        if j < |listed| {
          assert bs[j] == listed[j];
        }
      }
      if TruthyOpt(Get(w, "ai")) {
        assert bs[|bs| - 1].kind == Ai;
      } else {
        assert bs == listed;
      }
    } else {
      assert bs == [];
    }
  }


  // ─── Data model ──────────────────────────────────────────────────────────

  /** A column object becomes a field: text type by default, required when `required` or `notNull` is `true` itself. */
  function ColumnField(i: nat, col: JValue): (r: Option<Field>)
    ensures r.Some? <==> IsObjectLike(col)
    ensures r.Some? ==> (r.value.fieldType != "" &&
      (r.value.required <==> Get(col, "required") == Some(JBool(true)) || Get(col, "notNull") == Some(JBool(true))))
  {
    if IsObjectLike(col) then
      Some(Field(
        Str(col, "name"),
        Or(Str(col, "type"), "text"),
        Get(col, "required") == Some(JBool(true)) || Get(col, "notNull") == Some(JBool(true))))
    else None
  }

  function TableFields(table: JValue): seq<Field> {
    Seqs.Collected(ArrayAt(table, "columns"), ColumnField)
  }

  /** A table object becomes an entity, `unknown` when unnamed, with one field per column object. */
  function TableEntity(i: nat, table: JValue): (r: Option<Entity>)
    ensures r.Some? <==> IsObjectLike(table)
    ensures r.Some? ==> r.value.name != ""
  {
    if IsObjectLike(table) then Some(Entity(Or(Str(table, "name"), "unknown"), TableFields(table))) else None
  }

  function SchemaTables(techArch: JValue): seq<JValue> {
    match Get(techArch, "databaseSchema")
    case Some(schema) => if IsObjectLike(schema) then ArrayAt(schema, "tables") else []
    case None => []
  }

  /** No relationship is ever extracted: the list is always empty. */
  function DataModel(techArch: JValue): (m: DataModelSpec)
    ensures m.relationships == []
  {
    DataModelSpec(Seqs.Collected(SchemaTables(techArch), TableEntity), [])
  }

  /** `extractDataModel`: the tables one by one, each with its columns one by one. */
  method ExtractDataModel(techArch: JValue) returns (model: DataModelSpec)
    ensures model == DataModel(techArch)
  {
    var entities: seq<Entity> := [];
    var tables := SchemaTables(techArch);
    var i := 0;
    while i < |tables|
      invariant 0 <= i <= |tables|
      invariant entities == Seqs.Collected(tables[..i], TableEntity)
    {
      assert tables[..i + 1][..i] == tables[..i];
      var table := tables[i];
      if IsObjectLike(table) {
        var fields := Seqs.PushCollected([], ArrayAt(table, "columns"), ColumnField);
        assert [] + TableFields(table) == TableFields(table);
        assert Some(Entity(Or(Str(table, "name"), "unknown"), fields)) == TableEntity(i, table);
        entities := entities + [Entity(Or(Str(table, "name"), "unknown"), fields)];
      }
      i := i + 1;
    }
    assert tables[..i] == tables;
    model := DataModelSpec(entities, []);
  }

  /** Every field of every entity has a type, and is required exactly when its column says `required` or `notNull` is `true`. */
  lemma EntityFieldsTyped(techArch: JValue, e: nat, f: nat)
    requires e < |DataModel(techArch).entities| && f < |DataModel(techArch).entities[e].fields|
    ensures DataModel(techArch).entities[e].fields[f].fieldType != ""
    ensures exists col :: IsObjectLike(col) && Some(DataModel(techArch).entities[e].fields[f]) == ColumnField(0, col)
  {
    var tables := SchemaTables(techArch);
    Seqs.CollectedFrom(tables, TableEntity, e);
    var i :| 0 <= i < |tables| && TableEntity(i, tables[i]) == Some(DataModel(techArch).entities[e]);
    var cols := ArrayAt(tables[i], "columns");
    Seqs.CollectedFrom(cols, ColumnField, f);
    var k :| 0 <= k < |cols| && ColumnField(k, cols[k]) == Some(DataModel(techArch).entities[e].fields[f]);
    assert ColumnField(0, cols[k]) == ColumnField(k, cols[k]);
  }

  // ─── Endpoints ───────────────────────────────────────────────────────────

  /**
   * An API route: an object gives its `path` (default `/api/unknown`), `method` (default
   * `GET`) and `description`; a string with exactly one space is `METHOD PATH`; any other
   * string is a `GET` of the whole string.
   */
  function EndpointEntry(i: nat, route: JValue): (r: Option<ApiEndpoint>)
    ensures r.Some? <==> IsObjectLike(route) || route.JString?
  {
    if IsObjectLike(route) then
      Some(ApiEndpoint(Or(Str(route, "path"), "/api/unknown"), Or(Str(route, "method"), "GET"), Str(route, "description")))
    else if route.JString? then
      var parts := Text.Split(route.s, ' ');
      if |parts| == 2 then Some(ApiEndpoint(parts[1], parts[0], ""))
      else Some(ApiEndpoint(route.s, "GET", ""))
    else None
  }

  function Endpoints(techArch: JValue): seq<ApiEndpoint> {
    Seqs.Collected(ArrayAt(techArch, "apiRoutes"), EndpointEntry)
  }

  /** `extractEndpoints`. */
  method ExtractEndpoints(techArch: JValue) returns (endpoints: seq<ApiEndpoint>)
    ensures endpoints == Endpoints(techArch)
  {
    endpoints := Seqs.PushCollected([], ArrayAt(techArch, "apiRoutes"), EndpointEntry);
  }

  /** `"POST /api/auth/register"` is read as method `POST` and path `/api/auth/register`. */
  lemma MethodAndPathRoute(i: nat, httpMethod: string, path: string)
    requires ' ' !in httpMethod && ' ' !in path
    ensures EndpointEntry(i, JString(httpMethod + " " + path)) == Some(ApiEndpoint(path, httpMethod, ""))
  {
    Text.SplitConcat(httpMethod, path, ' ');
    Text.SplitFree(path, ' ');
  }

  /** A route string splits into method and path exactly when it holds one space; otherwise it is a `GET` of the whole string. */
  lemma StringRouteSplitsOnOneSpace(i: nat, route: string)
    ensures Text.Count(route, ' ') != 1 ==> EndpointEntry(i, JString(route)) == Some(ApiEndpoint(route, "GET", ""))
    ensures Text.Count(route, ' ') == 1 ==>
      var parts := Text.Split(route, ' ');
      |parts| == 2 && EndpointEntry(i, JString(route)) == Some(ApiEndpoint(parts[1], parts[0], "")) &&
      route == parts[0] + " " + parts[1]
  {
    Text.SplitCount(route, ' ');
    if Text.Count(route, ' ') == 1 {
      var parts := Text.Split(route, ' ');
      Text.JoinSplit(route, ' ');
      assert Text.Join(parts, " ") == parts[0] + " " + Text.Join(parts[1..], " ");
    }
  }
}
