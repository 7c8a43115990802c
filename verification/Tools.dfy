/**
 The mutation tools of the Go server: what each sends over the bridge, and that the command it
 names in SketchUp takes it for what it is.
 */
module Tools {
  import opened Basics
  import opened Json
  import opened Commands
  import Mutations
  import Names

  /** MutationEnvelope, without the session. */
  datatype Envelope = Envelope(operationId: string, modelGuid: string, revision: nat)

  /** MutationEnvelope.Validate; white space here is what strings.TrimSpace removes. */
  predicate ValidEnvelope(e: Envelope) {
    Names.Trim(e.operationId) != "" && Mutations.ByteSize(e.operationId) <= 128 && e.modelGuid != ""
  }

  /** The undo label a tool sends, and the names its payload gives the values besides the envelope. */
  datatype Tool = Tool(label_: string, parts: seq<string>)

  function ToolOf(name: string): Option<Tool> {
    match name
    case "entity.translate" => Some(Tool("SketchUp MCP: Translate", ["entity_ref", "translation_inches"]))
    case "entity.delete" => Some(Tool("SketchUp MCP: Delete Entity", ["entity_ref"]))
    case "entity.material.set" => Some(Tool("SketchUp MCP: Set Material", ["entity_ref", "material"]))
    case "entity.name.set" => Some(Tool("SketchUp MCP: Set Entity Name", ["entity_ref", "name"]))
    case "assembly.create" => Some(Tool("SketchUp MCP: Create Assembly", ["name", "children"]))
    case "geometry.create_box" => Some(Tool("SketchUp MCP: Create Box", ["origin_inches", "dimensions_inches"]))
    case "section_plane.create" =>
      Some(Tool("SketchUp MCP: Create Section Plane", ["point_mm", "normal", "name", "symbol"]))
    case "scene.create" =>
      Some(Tool("SketchUp MCP: Create Scene",
                ["name", "eye_mm", "target_mm", "up", "perspective", "orthographic_height_mm", "fov_degrees",
                 "section_plane_ref", "display_section_plane"]))
    case "changes.undo" => Some(Tool("SketchUp MCP: Undo", []))
    case "model.file.save_copy" => Some(Tool("SketchUp MCP: Save Model Copy", ["output_path"]))
    case "layout.document.create" =>
      Some(Tool("SketchUp MCP: Create LayOut Document", ["layout_path", "template_path", "page_width_mm", "page_height_mm"]))
    case "layout.viewport.add" =>
      Some(Tool("SketchUp MCP: Add LayOut Viewport",
                ["layout_path", "skp_path", "page_index", "layer_name", "bounds_mm", "scene_name", "standard_view",
                 "perspective", "scale_denominator", "render_mode", "panel_id", "require_fit", "fit_model_bounds_mm",
                 "fit_margin_mm"]))
    case "layout.dimension.add" =>
      Some(Tool("SketchUp MCP: Add LayOut Dimension",
                ["layout_path", "page_index", "layer_name", "viewport_ref", "start_point_mm", "end_point_mm",
                 "start_pid_path", "end_pid_path", "offset_mm", "alignment", "style_id", "panel_id"]))
    case "layout.text.add" =>
      Some(Tool("SketchUp MCP: Add LayOut Text",
                ["layout_path", "page_index", "layer_name", "bounds_mm", "text", "font_size_pt", "bold", "alignment",
                 "style_id", "panel_id"]))
    case "layout.line.add" =>
      Some(Tool("SketchUp MCP: Add LayOut Line",
                ["layout_path", "page_index", "layer_name", "start_mm", "end_mm", "stroke_width", "style_id", "panel_id"]))
    case "layout.rectangle.add" =>
      Some(Tool("SketchUp MCP: Add LayOut Rectangle",
                ["layout_path", "page_index", "layer_name", "bounds_mm", "stroke_width", "style_id", "panel_id"]))
    case "layout.export" => Some(Tool("SketchUp MCP: Export LayOut Document", ["layout_path", "output_path", "dpi"]))
    case _ => None
  }

  function EnvelopeFields(t: Tool, e: Envelope): seq<Field> {
    [Field("operation_id", Str(e.operationId)), Field("expected_model_guid", Str(e.modelGuid)),
     Field("expected_revision", Int(e.revision)), Field("undo_label", Str(t.label_))]
  }

  function PartFields(parts: seq<string>, values: string -> Json): seq<Field> {
    if parts == [] then [] else [Field(parts[0], values(parts[0]))] + PartFields(parts[1..], values)
  }

  /** BridgePayload of a tool's input, whatever the values are. */
  function Payload(t: Tool, e: Envelope, values: string -> Json): Json {
    Obj([Field("mutation", Obj(EnvelopeFields(t, e)))] + PartFields(t.parts, values))
  }

  function Among(parts: seq<string>): set<string> {
    set part | part in parts
  }

  lemma {:induction false} PartKeys(parts: seq<string>, values: string -> Json)
    ensures Keys(PartFields(parts, values)) == Among(parts)
  {
    if parts != [] {
      var rest := PartFields(parts[1..], values);
      PartKeys(parts[1..], values);
      assert parts == [parts[0]] + parts[1..];
      assert Keys([Field(parts[0], values(parts[0]))] + rest) == {parts[0]} + Keys(rest);
      assert Among(parts) == {parts[0]} + Among(parts[1..]);
    }
  }

  lemma {:induction false} PayloadKeys(t: Tool, e: Envelope, values: string -> Json)
    ensures Keys(Payload(t, e, values).fields) == {"mutation"} + Among(t.parts)
    ensures Keys(EnvelopeFields(t, e)) == Mutations.MUTATION_KEYS
  {
    PartKeys(t.parts, values);
  }

  lemma {:induction false} EnvelopeGets(t: Tool, e: Envelope)
    ensures var m := EnvelopeFields(t, e);
            && Get(m, "operation_id") == Some(Str(e.operationId)) && Get(m, "expected_model_guid") == Some(Str(e.modelGuid))
            && Get(m, "expected_revision") == Some(Int(e.revision)) && Get(m, "undo_label") == Some(Str(t.label_))
  {
    GetFinds(EnvelopeFields(t, e), 0);
    GetFinds(EnvelopeFields(t, e), 1);
    GetFinds(EnvelopeFields(t, e), 2);
    GetFinds(EnvelopeFields(t, e), 3);
  }

  /** The same keys and label on both sides of the bridge. */
  predicate Agrees(t: Tool, op: Mutations.Operation) {
    op.keys == {"mutation"} + Among(t.parts) && op.undoLabel == t.label_
  }

  predicate Matched(name: string) {
    ToolOf(name).Some? && Route(name).Some? && Agrees(ToolOf(name).value, Route(name).value)
  }

  const ENTITY_TOOLS := {"entity.translate", "entity.delete", "entity.material.set", "entity.name.set", "assembly.create",
                         "geometry.create_box"}

  const MODEL_TOOLS := {"section_plane.create", "scene.create", "changes.undo", "model.file.save_copy"}

  const LAYOUT_TOOLS := {"layout.document.create", "layout.viewport.add", "layout.dimension.add", "layout.text.add",
                         "layout.line.add", "layout.rectangle.add", "layout.export"}

  lemma {:induction false} EntityToolsMatch(name: string)
    requires name in ENTITY_TOOLS
    ensures Matched(name) && Route(name).value.kind == Mutations.Modelling
  {
  }

  lemma {:induction false} ModelToolsMatch(name: string)
    requires name in MODEL_TOOLS
    ensures Matched(name)
    ensures Route(name).value.kind == if name == "changes.undo" then Mutations.Undoing
                                      else if name == "model.file.save_copy" then Mutations.ModelFile else Mutations.Modelling
  {
  }

  lemma {:induction false} ViewportMatches()
    ensures Matched("layout.viewport.add")
  {
  }

  lemma {:induction false} DimensionMatches()
    ensures Matched("layout.dimension.add")
  {
  }

  lemma {:induction false} TextMatches()
    ensures Matched("layout.text.add")
  {
  }

  lemma {:induction false} DocumentMatches()
    ensures Matched("layout.document.create")
  {
  }

  lemma {:induction false} LineMatches()
    ensures Matched("layout.line.add")
  {
  }

  lemma {:induction false} ExportMatches()
    ensures Matched("layout.export")
  {
  }

  lemma {:induction false} RectangleMatches()
    ensures Matched("layout.rectangle.add")
  {
  }

  lemma {:induction false} LayoutKinds(name: string)
    requires name in LAYOUT_TOOLS
    ensures Route(name).Some? && Route(name).value.kind == Mutations.LayoutFile
  {
  }

  lemma {:induction false} LayoutToolsMatch(name: string)
    requires name in LAYOUT_TOOLS
    ensures Matched(name)
  {
    match name
    case "layout.viewport.add" => ViewportMatches();
    case "layout.dimension.add" => DimensionMatches();
    case "layout.text.add" => TextMatches();
    case "layout.document.create" => DocumentMatches();
    case "layout.line.add" => LineMatches();
    case "layout.rectangle.add" => RectangleMatches();
    case _ => ExportMatches();
  }

  /** The Go server's mutation tools are the bridge's mutating commands, and both sides agree on keys and label. */
  lemma {:induction false} ToolsMatch(name: string)
    ensures ToolOf(name).Some? <==> name in ENTITY_TOOLS + MODEL_TOOLS + LAYOUT_TOOLS
    ensures Route(name).Some? <==> name in ENTITY_TOOLS + MODEL_TOOLS + LAYOUT_TOOLS
    ensures ToolOf(name).Some? ==> Matched(name)
  {
    if name in ENTITY_TOOLS { EntityToolsMatch(name); }
    if name in MODEL_TOOLS { ModelToolsMatch(name); }
    if name in LAYOUT_TOOLS { LayoutToolsMatch(name); }
  }

  /** How each command is executed: as a bracketed write of the model, an undo, or a file operation of either kind. */
  lemma {:induction false} RouteKinds(name: string)
    requires Route(name).Some?
    ensures var kind := Route(name).value.kind;
            && (kind.Modelling? <==> name in ENTITY_TOOLS || name == "section_plane.create" || name == "scene.create")
            && (kind.Undoing? <==> name == "changes.undo")
            && (kind.ModelFile? <==> name == "model.file.save_copy")
            && (kind.LayoutFile? <==> name in LAYOUT_TOOLS)
  {
    ToolsMatch(name);
    if name in ENTITY_TOOLS { EntityToolsMatch(name); }
    else if name in LAYOUT_TOOLS { LayoutKinds(name); }
    else { ModelToolsMatch(name); }
  }

  /**
   What a tool sends with an envelope the Go server accepts parses in SketchUp, with the very
   operation_id, GUID and revision - except for an operation_id that Ruby's strip leaves
   empty: TrimSpace keeps NUL characters, strip does not.
   */
  lemma {:induction false} ToolParses(name: string, e: Envelope, values: string -> Json)
    requires ToolOf(name).Some? && ValidEnvelope(e)
    ensures Route(name).Some?
    ensures var payload := Payload(ToolOf(name).value, e, values);
            && (Mutations.Parse(Route(name).value, payload).Good? <==> !Mutations.Blank(e.operationId))
            && (!Mutations.Blank(e.operationId) ==>
                  Mutations.Parse(Route(name).value, payload) ==
                  Mutations.Good(Mutations.Arguments(payload.fields, e.operationId, e.modelGuid, e.revision)))
  {
    var t := ToolOf(name).value;
    ToolsMatch(name);
    PayloadParses(t, Route(name).value, e, values);
  }

  lemma {:induction false} PayloadParses(t: Tool, op: Mutations.Operation, e: Envelope, values: string -> Json)
    requires Agrees(t, op) && ValidEnvelope(e)
    ensures var payload := Payload(t, e, values);
            Mutations.Parse(op, payload) ==
            if Mutations.Blank(e.operationId) then Mutations.Bad(Mutations.Invalid("operation_id"))
            else Mutations.Good(Mutations.Arguments(payload.fields, e.operationId, e.modelGuid, e.revision))
  {
    PayloadKeys(t, e, values);
    EnvelopeGets(t, e);
    assert Get(Payload(t, e, values).fields, "mutation") == Some(Obj(EnvelopeFields(t, e)));
  }

  /** Such an operation_id: the Go server takes it, SketchUp refuses it. */
  lemma {:induction false} NulIsRefused()
    ensures ValidEnvelope(Envelope("\0", "guid", 0)) && Mutations.Blank("\0")
  {
    assert Mutations.ByteSize("\0") == 1 by { assert "\0"[1..] == ""; }
    assert Names.TrimLeft("\0") == "\0" && Names.TrimRight("\0") == "\0";
  }

  // ---------- what the engine accepts ----------

  /** A mutation envelope with exactly its four fields. */
  ghost predicate Bears(m: seq<Field>, args: Mutations.Arguments, undoLabel: string) {
    && Keys(m) == {"operation_id", "expected_model_guid", "expected_revision", "undo_label"}
    && Get(m, "operation_id") == Some(Str(args.operationId)) && Get(m, "expected_model_guid") == Some(Str(args.guid))
    && Get(m, "expected_revision") == Some(Int(args.revision)) && Get(m, "undo_label") == Some(Str(undoLabel))
  }

  /** A write is well formed exactly if its payload has the command's fields and its envelope the four, all in range. */
  lemma {:induction false} ParseIff(op: Mutations.Operation, payload: Json, args: Mutations.Arguments)
    ensures Mutations.Parse(op, payload) == Mutations.Good(args) <==>
            && payload == Obj(args.fields) && Keys(args.fields) == op.keys
            && !Mutations.Blank(args.operationId) && Mutations.ByteSize(args.operationId) <= 128 && args.guid != ""
            && exists m :: Get(args.fields, "mutation") == Some(Obj(m)) && Bears(m, args, op.undoLabel)
  {
    if Mutations.Parse(op, payload) == Mutations.Good(args) {
      var m := Get(args.fields, "mutation").value.fields;
      assert Bears(m, args, op.undoLabel);
    }
  }
}
