/**
 * The Visual's update cycle, reduced to the state it changes: the scene's
 * children, the camera position, the renderer size, how often settings were
 * parsed, which label columns were requested, and how many render loops run.
 */
module Visual {
  import opened Wrappers
  import opened ChartData
  import DepthScale

  datatype Vec3 = Vec3(x: real, y: real, z: real)

  /** A camera pose: position, and scene rotation in degrees. */
  datatype CameraPose = CameraPose(position: Vec3, rotation: Vec3)

  /** BAR_SIZE and BAR_SIZE_HEIGHT, which are defined outside the modelled files. */
  datatype Dimensions = Dimensions(barSize: real, barSizeHeight: real)

  /** The arguments of createBar; `z` and `color` are optional. */
  datatype BarParams = BarParams(
    width: real, height: real, depth: real,
    x: Option<nat>, y: Option<nat>, z: Option<real>, color: Option<string>)

  /**
   * A box mesh: its size, how far its geometry is shifted along z so that it
   * stands on its position, its position and its colour.
   */
  datatype Mesh = Mesh(
    width: real, height: real, depth: real, lift: real,
    x: Option<nat>, y: Option<nat>, z: real, color: string)

  datatype SceneObject = HemisphereLight | DirectionalLight | BarMesh(mesh: Mesh)

  datatype Axis = X | Y | Z

  /** A call of create2DLabels: the axis and the category column placed along it. */
  datatype LabelRequest = LabelRequest(axis: Axis, column: nat)

  datatype Viewport = Viewport(width: real, height: real)

  datatype UpdateType = Data | Resize | All | ViewMode | Style

  datatype UpdateOptions = UpdateOptions(kind: UpdateType, viewport: Viewport, dataViews: Option<seq<DataView>>)

  datatype VisualState = VisualState(
    scene: seq<SceneObject>,
    sceneRotation: Vec3,
    camera: Vec3,
    rendererSize: Option<Viewport>,
    settingsParses: nat,
    labelRequests: seq<LabelRequest>,
    renderLoops: nat)

  /** update either returns normally or lets a TypeError escape, in the state reached by then. */
  datatype UpdateOutcome = Returned(state: VisualState) | Raised(state: VisualState)

  const CameraDefault := CameraPose(Vec3(5.0, 0.0, 10.0), Vec3(-45.0, 0.0, -45.0))

  /** The constructor: an empty scene rotated by the default angles, the camera at the default position. */
  function Construct(): (s: VisualState)
    ensures s.scene == [] && s.renderLoops == 0 && s.rendererSize.None?
    ensures s.camera == CameraDefault.position && s.sceneRotation == CameraDefault.rotation
  {
    VisualState([], CameraDefault.rotation, CameraDefault.position, None, 0, [], 0)
  }

  predicate FalsyString(s: Option<string>) {
    s.None? || s.value == ""
  }

  predicate FalsyNumber(n: Option<real>) {
    n.None? || n.value == 0.0
  }

  /** createBar: a falsy colour becomes "red", a falsy z becomes 0. */
  function CreateBar(p: BarParams): (m: Mesh)
    ensures m.color != ""
    ensures !FalsyString(p.color) ==> m.color == p.color.value
    ensures FalsyString(p.color) ==> m.color == "red"
    ensures m.z == p.z.GetOr(0.0)
    ensures m.lift * 2.0 == m.depth
    ensures (m.width, m.height, m.depth, m.x, m.y) == (p.width, p.height, p.depth, p.x, p.y)
  {
    var color := if FalsyString(p.color) then "red" else p.color.value;
    var z := if FalsyNumber(p.z) then 0.0 else p.z.value;
    Mesh(p.width, p.height, p.depth, p.depth / 2.0, p.x, p.y, z, color)
  }

  /** The mesh drawBars creates for one bar. */
  function BarMeshFor(bar: Bar, maxLocal: real, dims: Dimensions): Mesh {
    CreateBar(BarParams(dims.barSize, dims.barSize,
                        DepthScale.Depth(maxLocal, dims.barSizeHeight, bar.value),
                        bar.x, bar.y, Some(0.0), Some(bar.color)))
  }

  /** drawBars: one mesh per bar, in bar order, with depth from the linear scale over [0, maxLocal]. */
  function DrawBars(model: ChartModel, dims: Dimensions): (objs: seq<SceneObject>)
    ensures |objs| == |model.bars|
    ensures forall i :: 0 <= i < |objs| ==>
      && objs[i].BarMesh?
      && objs[i].mesh.depth == DepthScale.Depth(model.maxLocal, dims.barSizeHeight, model.bars[i].value)
      && objs[i].mesh.x == model.bars[i].x && objs[i].mesh.y == model.bars[i].y
      && objs[i].mesh.z == 0.0
      && objs[i].mesh.width == dims.barSize && objs[i].mesh.height == dims.barSize
      && (model.bars[i].color != "" ==> objs[i].mesh.color == model.bars[i].color)
  {
    seq(|model.bars|, i requires 0 <= i < |model.bars| => BarMesh(BarMeshFor(model.bars[i], model.maxLocal, dims)))
  }

  /** JavaScript `v || fallback` on a number (NaN is not modelled). */
  function OrElse(v: real, fallback: real): real {
    if v == 0.0 then fallback else v
  }

  /**
   * Where the camera goes for a computed centre: a zero coordinate falls back to the default.
   * Since the default x is non-zero the camera never lands on x = 0, and since the default y
   * is 0 the fallback on y changes nothing.
   */
  function CameraTarget(cameraX: real, cameraY: real): (p: Vec3)
    ensures p.x != 0.0
    ensures p.y == cameraY
    ensures p.z == CameraDefault.position.z
  {
    Vec3(OrElse(cameraX, CameraDefault.position.x), OrElse(cameraY, CameraDefault.position.y), CameraDefault.position.z)
  }

  /** shiftCameraToCenterOfChart: the centre is fixed at (0, 0), so the camera always returns to the default position. */
  function ShiftCameraToCenterOfChart(model: ChartModel): (p: Vec3)
    ensures p == CameraDefault.position
  {
    CameraTarget(0.0, 0.0)
  }

  predicate Redraws(kind: UpdateType) {
    kind == Data || kind == All
  }

  predicate Resizes(kind: UpdateType) {
    kind == Resize || kind == All
  }

  /** clearScene, which update runs for Data and All before anything else. */
  function Cleared(st: VisualState, kind: UpdateType): VisualState {
    if Redraws(kind) then st.(scene := []) else st
  }

  /** The drawing branch of update: lights, bars, label requests for columns 0 and 1, camera shift. */
  function Draw(st: VisualState, model: ChartModel, dims: Dimensions): VisualState {
    st.(scene := st.scene + [HemisphereLight, DirectionalLight] + DrawBars(model, dims),
        labelRequests := st.labelRequests + [LabelRequest(X, 0), LabelRequest(Y, 1)],
        camera := ShiftCameraToCenterOfChart(model))
  }

  /**
   * update: clear for Data/All, stop on an unusable data view, convert, parse
   * settings, resize for Resize/All, draw for Data/All, start a render loop.
   */
  function Update(st: VisualState, opts: UpdateOptions, palette: string -> string, dims: Dimensions): (r: UpdateOutcome)
    ensures CheckDataView(opts.dataViews) == Unusable ==> r == Returned(Cleared(st, opts.kind))
    ensures r.Raised? <==> ConvertData(opts.dataViews, palette).Threw?
    ensures r.Raised? ==> r.state == Cleared(st, opts.kind)
    ensures r.state.renderLoops == st.renderLoops + (if ConvertData(opts.dataViews, palette).Model? then 1 else 0)
    ensures r.state.settingsParses == r.state.renderLoops - st.renderLoops + st.settingsParses
    ensures !Redraws(opts.kind) ==>
      r.state.scene == st.scene && r.state.camera == st.camera && r.state.labelRequests == st.labelRequests
    ensures !Resizes(opts.kind) ==> r.state.rendererSize == st.rendererSize
    ensures r.state.sceneRotation == st.sceneRotation
  {
    var cleared := Cleared(st, opts.kind);
    match CheckDataView(opts.dataViews)
    case Unusable => Returned(cleared)
    case Throws => Raised(cleared)
    case Usable =>
      match ConvertData(opts.dataViews, palette)
      case Threw => Raised(cleared)
      case NoModel => Returned(cleared)
      case Model(model) =>
        var parsed := cleared.(settingsParses := cleared.settingsParses + 1);
        var sized := if Resizes(opts.kind) then parsed.(rendererSize := Some(opts.viewport)) else parsed;
        var drawn := if Redraws(opts.kind) then Draw(sized, model, dims) else sized;
        Returned(drawn.(renderLoops := drawn.renderLoops + 1))
  }

  /** A Data or All update with a usable data view leaves exactly the two lights and one mesh per value row in the scene, and the camera at the default position. */
  lemma UpdateDrawsModel(st: VisualState, opts: UpdateOptions, palette: string -> string, dims: Dimensions)
    requires Redraws(opts.kind)
    requires ConvertData(opts.dataViews, palette).Model?
    ensures var r := Update(st, opts, palette, dims);
      var model := ConvertData(opts.dataViews, palette).model;
      && r.Returned?
      && r.state.scene == [HemisphereLight, DirectionalLight] + DrawBars(model, dims)
      && |r.state.scene| == 2 + |opts.dataViews.value[DataViewIndex].categorical.value.values.value[ValuesIndex].values|
      && r.state.camera == CameraDefault.position
      && r.state.labelRequests == st.labelRequests + [LabelRequest(X, 0), LabelRequest(Y, 1)]
      && (opts.kind == All ==> r.state.rendererSize == Some(opts.viewport))
  {
  }

  /** A Data or All update rebuilds the scene from scratch: what it draws does not depend on the earlier state. */
  lemma UpdateRebuildsScene(st1: VisualState, st2: VisualState, opts: UpdateOptions, palette: string -> string, dims: Dimensions)
    requires Redraws(opts.kind)
    ensures Update(st1, opts, palette, dims).state.scene == Update(st2, opts, palette, dims).state.scene
  {
  }

  /** A Resize update with a usable data view resizes the renderer and leaves the scene and camera alone. */
  lemma UpdateResizeOnly(st: VisualState, opts: UpdateOptions, palette: string -> string, dims: Dimensions)
    requires opts.kind == Resize
    requires ConvertData(opts.dataViews, palette).Model?
    ensures var r := Update(st, opts, palette, dims);
      && r.Returned?
      && r.state.rendererSize == Some(opts.viewport)
      && r.state.scene == st.scene
      && r.state.camera == st.camera
  {
  }

  /** When every value lies in [0, maxLocal], every drawn bar's depth lies in [0, BAR_SIZE_HEIGHT]. */
  lemma DrawnDepthsBounded(model: ChartModel, dims: Dimensions)
    requires model.maxLocal > 0.0 && dims.barSizeHeight >= 0.0
    requires forall i :: 0 <= i < |model.bars| ==> 0.0 <= model.bars[i].value <= model.maxLocal
    ensures var objs := DrawBars(model, dims);
      forall i :: 0 <= i < |objs| ==> 0.0 <= objs[i].mesh.depth <= dims.barSizeHeight
  {
    var objs := DrawBars(model, dims);
    forall i | 0 <= i < |objs|
      ensures 0.0 <= objs[i].mesh.depth <= dims.barSizeHeight
    {
      DepthScale.DepthBounded(model.maxLocal, dims.barSizeHeight, model.bars[i].value);
    }
  }
}
