/** The routing table of the command registry: which operation a command name selects. */
module Commands {
  import opened Basics
  import opened Mutations

  const ENTITY_TRANSLATE := Operation("entity.translate",
    {"mutation", "entity_ref", "translation_inches"},
    "SketchUp MCP: Translate", Modelling)

  const ENTITY_DELETE := Operation("entity.delete",
    {"mutation", "entity_ref"},
    "SketchUp MCP: Delete Entity", Modelling)

  const ENTITY_MATERIAL_SET := Operation("entity.material.set",
    {"mutation", "entity_ref", "material"},
    "SketchUp MCP: Set Material", Modelling)

  const ENTITY_NAME_SET := Operation("entity.name.set",
    {"mutation", "entity_ref", "name"},
    "SketchUp MCP: Set Entity Name", Modelling)

  const ASSEMBLY_CREATE := Operation("assembly.create",
    {"mutation", "name", "children"},
    "SketchUp MCP: Create Assembly", Modelling)

  const GEOMETRY_CREATE_BOX := Operation("geometry.create_box",
    {"mutation", "origin_inches", "dimensions_inches"},
    "SketchUp MCP: Create Box", Modelling)

  const SECTION_PLANE_CREATE := Operation("section_plane.create",
    {"mutation", "point_mm", "normal", "name", "symbol"},
    "SketchUp MCP: Create Section Plane", Modelling)

  const SCENE_CREATE := Operation("scene.create",
    {"mutation", "name", "eye_mm", "target_mm", "up", "perspective", "orthographic_height_mm",
     "fov_degrees", "section_plane_ref", "display_section_plane"},
    "SketchUp MCP: Create Scene", Modelling)

  const CHANGES_UNDO := Operation("changes.undo",
    {"mutation"},
    "SketchUp MCP: Undo", Undoing)

  const MODEL_FILE_SAVE_COPY := Operation("model.file.save_copy",
    {"mutation", "output_path"},
    "SketchUp MCP: Save Model Copy", ModelFile)

  const LAYOUT_DOCUMENT_CREATE := Operation("layout.document.create",
    {"mutation", "layout_path", "template_path", "page_width_mm", "page_height_mm"},
    "SketchUp MCP: Create LayOut Document", LayoutFile)

  const LAYOUT_VIEWPORT_ADD := Operation("layout.viewport.add",
    {"mutation", "layout_path", "skp_path", "page_index", "layer_name", "bounds_mm", "scene_name",
     "standard_view", "perspective", "scale_denominator", "render_mode", "panel_id", "require_fit",
     "fit_model_bounds_mm", "fit_margin_mm"},
    "SketchUp MCP: Add LayOut Viewport", LayoutFile)

  const LAYOUT_DIMENSION_ADD := Operation("layout.dimension.add",
    {"mutation", "layout_path", "page_index", "layer_name", "viewport_ref", "start_point_mm",
     "end_point_mm", "start_pid_path", "end_pid_path", "offset_mm", "alignment", "style_id", "panel_id"},
    "SketchUp MCP: Add LayOut Dimension", LayoutFile)

  const LAYOUT_TEXT_ADD := Operation("layout.text.add",
    {"mutation", "layout_path", "page_index", "layer_name", "bounds_mm", "text", "font_size_pt", "bold",
     "alignment", "style_id", "panel_id"},
    "SketchUp MCP: Add LayOut Text", LayoutFile)

  const LAYOUT_LINE_ADD := Operation("layout.line.add",
    {"mutation", "layout_path", "page_index", "layer_name", "start_mm", "end_mm", "stroke_width",
     "style_id", "panel_id"},
    "SketchUp MCP: Add LayOut Line", LayoutFile)

  const LAYOUT_RECTANGLE_ADD := Operation("layout.rectangle.add",
    {"mutation", "layout_path", "page_index", "layer_name", "bounds_mm", "stroke_width", "style_id",
     "panel_id"},
    "SketchUp MCP: Add LayOut Rectangle", LayoutFile)

  const LAYOUT_EXPORT := Operation("layout.export",
    {"mutation", "layout_path", "output_path", "dpi"},
    "SketchUp MCP: Export LayOut Document", LayoutFile)

  /** Registry#call, restricted to the commands that mutate. */
  function Route(name: string): Option<Operation> {
    match name
    case "entity.translate" => Some(ENTITY_TRANSLATE)
    case "entity.delete" => Some(ENTITY_DELETE)
    case "entity.material.set" => Some(ENTITY_MATERIAL_SET)
    case "entity.name.set" => Some(ENTITY_NAME_SET)
    case "assembly.create" => Some(ASSEMBLY_CREATE)
    case "geometry.create_box" => Some(GEOMETRY_CREATE_BOX)
    case "section_plane.create" => Some(SECTION_PLANE_CREATE)
    case "scene.create" => Some(SCENE_CREATE)
    case "changes.undo" => Some(CHANGES_UNDO)
    case "model.file.save_copy" => Some(MODEL_FILE_SAVE_COPY)
    case "layout.document.create" => Some(LAYOUT_DOCUMENT_CREATE)
    case "layout.viewport.add" => Some(LAYOUT_VIEWPORT_ADD)
    case "layout.dimension.add" => Some(LAYOUT_DIMENSION_ADD)
    case "layout.text.add" => Some(LAYOUT_TEXT_ADD)
    case "layout.line.add" => Some(LAYOUT_LINE_ADD)
    case "layout.rectangle.add" => Some(LAYOUT_RECTANGLE_ADD)
    case "layout.export" => Some(LAYOUT_EXPORT)
    case _ => None
  }

  lemma {:induction false} RouteNamed(name: string)
    requires Route(name).Some?
    ensures Route(name).value.name == name
  {
  }
}
