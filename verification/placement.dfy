/**
 * What `add_section` decides before and after it talks to the service: the
 * addresses it formats, the app-type and bounds checks, the section id, and
 * the section it constructs. The `Space` class performs these steps in place.
 */
module Placement {
  import opened Wrappers
  import opened Json
  import opened Text
  import opened Apps
  import opened Grid
  import opened Sections
  import opened Client

  /** The host as `Space` keeps it: "http://" is prepended unless it already starts with "http". */
  function NormalHost(host: string): (r: string)
    ensures StartsWith(r, "http")
    ensures StartsWith(host, "http") ==> r == host
    ensures !StartsWith(host, "http") ==> r == "http://" + host
  {
    if StartsWith(host, "http") then host else "http://" + host
  }

  /** Normalising a host twice changes nothing more. */
  lemma NormalHostIdempotent(host: string)
    ensures NormalHost(NormalHost(host)) == NormalHost(host)
  {
  }

  /** `"%s:%s" % (ove_host, control_port)`, the prefix of every address. */
  function Root(host: string, port: int): string {
    host + ":" + IntToString(port)
  }

  /** The app url written into `section_data`. */
  function AppUrl(root: string, appType: string): string {
    root + "/app/" + appType + "/"
  }

  /** `get_base_url` of a section of class `kind`: the app url it registers, without the trailing slash. */
  function BaseUrl(root: string, kind: AppKind): string {
    root + "/app/" + AppName(kind)
  }

  /** The app url registered for a section is its class's base url with a trailing slash. */
  lemma AppUrlIsBaseUrl(root: string, appType: string)
    requires appType in AppNames
    ensures KindOf(appType).Some?
    ensures AppUrl(root, appType) == BaseUrl(root, KindOf(appType).value) + "/"
  {
  }

  /** A section's base url is the app url it registers without the trailing slash, and ends in its app name. */
  lemma BaseUrlIsAppUrl(root: string, kind: AppKind)
    ensures AppUrl(root, AppName(kind)) == BaseUrl(root, kind) + "/"
    ensures StartsWith(BaseUrl(root, kind), root + "/app/") && BaseUrl(root, kind)[|root| + 5..] == AppName(kind)
  {
  }

  /** Sections of different classes in one space have different base urls. */
  lemma BaseUrlDistinct(root: string, k1: AppKind, k2: AppKind)
    requires BaseUrl(root, k1) == BaseUrl(root, k2)
    ensures k1 == k2
  {
    BaseUrlIsAppUrl(root, k1);
    BaseUrlIsAppUrl(root, k2);
    AppNameAccepted(k1);
    AppNameAccepted(k2);
  }

  function SectionsUrl(root: string): string {
    root + "/sections"
  }

  function NewSectionUrl(root: string): string {
    root + "/section"
  }

  function SectionUrl(root: string, id: string): string {
    root + "/sections/" + id
  }

  datatype Rejection = UnknownAppType | OutOfBounds

  /**
   * The checks of `add_section`, in its order: the app type, then (unless
   * oversized sections are allowed) the right edge, then the bottom edge.
   */
  function Admit(appType: string, w: int, h: int, x: int, y: int, g: Geometry, allowOversized: bool): (r: Result<AppKind, Rejection>)
    ensures r.Success? <==> appType in AppNames && (allowOversized || (x + w <= g.width && y + h <= g.height))
    ensures r.Success? ==> AppName(r.value) == appType
    ensures r == Failure(UnknownAppType) <==> appType !in AppNames
  {
    match KindOf(appType)
    case None => Failure(UnknownAppType)
    case Some(kind) =>
      if !allowOversized && x + w > g.width then Failure(OutOfBounds)
      else if !allowOversized && y + h > g.height then Failure(OutOfBounds)
      else Success(kind)
  }

  /** What `add_section` does with coordinates taken from a document, where `x + w` raises unless both are ints. */
  datatype Admission = Admitted(kind: AppKind) | Refused(why: Rejection) | Raises

  /**
   * The checks of `add_section` called from `load_json` (oversized sections not
   * allowed) on arbitrary JSON values: the right edge is compared only after
   * `x + w` is computed, and the bottom edge only when the right edge passed.
   */
  function AdmitValues(appType: string, w: Value, h: Value, x: Value, y: Value, g: Geometry): (r: Admission)
    ensures r.Admitted? ==> w.JInt? && h.JInt? && x.JInt? && y.JInt?
    ensures r.Admitted? ==> Admit(appType, w.i, h.i, x.i, y.i, g, false) == Success(r.kind)
    ensures r.Refused? && r.why == UnknownAppType <==> appType !in AppNames
  {
    if appType !in AppNames then Refused(UnknownAppType)
    else if !(x.JInt? && w.JInt?) then Raises
    else if x.i + w.i > g.width then Refused(OutOfBounds)
    else if !(y.JInt? && h.JInt?) then Raises
    else if y.i + h.i > g.height then Refused(OutOfBounds)
    else Admitted(KindOf(appType).value)
  }

  /** On int coordinates the document path decides exactly as the checks of a direct call. */
  lemma AdmitValuesOnInts(appType: string, w: int, h: int, x: int, y: int, g: Geometry)
    ensures var r := AdmitValues(appType, JInt(w), JInt(h), JInt(x), JInt(y), g);
            match Admit(appType, w, h, x, y, g, false)
            case Success(kind) => r == Admitted(kind)
            case Failure(why) => r == Refused(why)
  {
  }

  /** What `add_section` hands back: `False`, an exception when the service's reply has no id, or the new section. */
  datatype Added = NotCreated(why: Rejection) | ReplyUnreadable | Created(view: SectionView)

  /** The id of a new section: a fresh uuid offline, the id in the service's reply online (None when there is none). */
  function NewId(offline: bool, uuid: string, reply: Option<string>): (id: Option<string>)
    ensures offline ==> id == Some(uuid)
    ensures !offline ==> id == reply
  {
    if offline then Some(uuid) else reply
  }

  /** The place a section is asked for: the address pieces and the request itself. */
  datatype Placing = Placing(
    root: string, spaceName: string, geometry: Geometry,
    w: int, h: int, x: int, y: int, appType: string, allowOversized: bool)

  function PlacedData(p: Placing): SectionData {
    SectionData(p.spaceName, p.w, p.h, p.x, p.y, AppUrl(p.root, p.appType))
  }

  /** What `add_section` hands back once its checks have passed with class `kind`. */
  function AfterChecks(p: Placing, kind: AppKind, offline: bool, uuid: string, reply: Option<string>): (r: Added)
    ensures !r.NotCreated?
    ensures r.ReplyUnreadable? <==> !offline && reply.None?
    ensures r.Created? ==> r.view == InitialView(r.view.id, PlacedData(p), kind) && Some(r.view.id) == NewId(offline, uuid, reply)
  {
    match NewId(offline, uuid, reply)
    case None => ReplyUnreadable
    case Some(id) => Created(InitialView(id, PlacedData(p), kind))
  }

  /** `add_section`: the checks, then the id, then a freshly constructed section of the chosen class. */
  function AddEffect(p: Placing, offline: bool, uuid: string, reply: Option<string>): (r: Added)
    ensures r.NotCreated? <==> Admit(p.appType, p.w, p.h, p.x, p.y, p.geometry, p.allowOversized).Failure?
    ensures r.NotCreated? ==> r.why == Admit(p.appType, p.w, p.h, p.x, p.y, p.geometry, p.allowOversized).error
    ensures r.ReplyUnreadable? <==> Admit(p.appType, p.w, p.h, p.x, p.y, p.geometry, p.allowOversized).Success? && !offline && reply.None?
    ensures r.Created? ==> AppName(r.view.kind) == p.appType
    ensures r.Created? ==> r.view.data == PlacedData(p)
    ensures r.Created? ==> Some(r.view.id) == NewId(offline, uuid, reply)
    ensures r.Created? ==> r.view == InitialView(r.view.id, r.view.data, r.view.kind)
  {
    match Admit(p.appType, p.w, p.h, p.x, p.y, p.geometry, p.allowOversized)
    case Failure(why) => NotCreated(why)
    case Success(kind) => AfterChecks(p, kind, offline, uuid, reply)
  }

  /** What a section created by `add_section` asks for itself: a whiteboard opens its control page. */
  function SectionRequests(root: string, added: Added): (rs: seq<Request>)
    ensures |rs| <= 1
    ensures |rs| == 1 <==> added.Created? && added.view.kind == Whiteboard
  {
    if added.Created? && added.view.kind == Whiteboard then [Browse(ControlUrl(BaseUrl(root, Whiteboard), added.view.id))] else []
  }

  /**
   * The requests `add_section` asks the client for: none when a check fails;
   * otherwise the post of `section_data`, then what the new section asks for.
   */
  function AddRequests(p: Placing, added: Added): (rs: seq<Request>)
    ensures added.NotCreated? ==> rs == []
    ensures !added.NotCreated? ==> |rs| >= 1 && rs[0] == Post(NewSectionUrl(p.root), DataJson(PlacedData(p)))
    ensures |rs| == 2 <==> added.Created? && added.view.kind == Whiteboard
  {
    if added.NotCreated? then []
    else [Post(NewSectionUrl(p.root), DataJson(PlacedData(p)))] + SectionRequests(p.root, added)
  }

  /** The requests of `add_section` reach the client as the post followed by what the new section asks for. */
  lemma AddRequestsIssued(p: Placing, added: Added, offline: bool, openBrowsers: bool)
    requires !added.NotCreated?
    ensures IssuedAll(offline, openBrowsers, AddRequests(p, added)) ==
            Issued(offline, openBrowsers, Post(NewSectionUrl(p.root), DataJson(PlacedData(p)))) +
            IssuedAll(offline, openBrowsers, SectionRequests(p.root, added))
  {
    var post := Post(NewSectionUrl(p.root), DataJson(PlacedData(p)));
    IssuedAllAppend(offline, openBrowsers, [post], SectionRequests(p.root, added));
    assert [post][1..] == [];
  }

  /**
   * `add_section_by_grid`: the grid check (unless oversized sections are
   * allowed), then `add_section` on the pixel rectangle of the cells.
   */
  function GridPlacing(
    root: string, spaceName: string, geometry: Geometry, numRows: int, numCols: int, rowHeight: int, colWidth: int,
    w: int, h: int, r: int, c: int, appType: string, allowOversized: bool): (p: Option<Placing>)
    ensures p.None? <==> !allowOversized && (w + c > numCols || r + h > numRows)
    ensures p.Some? ==> p.value.w == w * colWidth && p.value.h == h * rowHeight
    ensures p.Some? ==> p.value.x == c * colWidth && p.value.y == r * rowHeight
    ensures p.Some? ==> p.value.appType == appType && p.value.allowOversized == allowOversized
  {
    if !allowOversized && (w + c > numCols || r + h > numRows) then None
    else Some(Placing(root, spaceName, geometry, w * colWidth, h * rowHeight, c * colWidth, r * rowHeight, appType, allowOversized))
  }

  /**
   * On a grid derived from the canvas by `set_grid`, a rectangle of cells that
   * passes the grid check also passes the pixel check of `add_section`: it is
   * never refused as out of bounds.
   */
  lemma GridCheckImpliesPixelCheck(
    root: string, spaceName: string, geometry: Geometry, numRows: int, numCols: int,
    w: int, h: int, r: int, c: int, appType: string, offline: bool, uuid: string, reply: Option<string>)
    requires geometry.width >= 0 && geometry.height >= 0
    requires w + c <= numCols && r + h <= numRows
    ensures var p := GridPlacing(root, spaceName, geometry, numRows, numCols,
                                 CellSize(geometry.height, numRows), CellSize(geometry.width, numCols),
                                 w, h, r, c, appType, false);
            p.Some? && AddEffect(p.value, offline, uuid, reply) != NotCreated(OutOfBounds)
  {
    GridSpanFitsCanvas(geometry.width, numCols, c, w);
    GridSpanFitsCanvas(geometry.height, numRows, r, h);
  }
}
