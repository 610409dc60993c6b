/**
 * The `Space` and its sections as objects: a space keeps its grid and its
 * list of sections and changes them in place; a section keeps its `url` or
 * `state` and its setters overwrite them. Every method is specified by the
 * pure functions of the other modules, and every request it makes goes
 * through the space's `RestClient`.
 */
module Ove {
  import opened Wrappers
  import opened Json
  import opened Apps
  import opened Grid
  import opened Sections
  import opened Client
  import opened Placement
  import opened Document

  /** The position of the first `x` in `s`. */
  function IndexOf<T(==)>(s: seq<T>, x: T): (i: nat)
    requires x in s
    ensures i < |s| && s[i] == x && x !in s[..i]
  {
    if s[0] == x then 0 else 1 + IndexOf(s[1..], x)
  }

  /** `list.remove(x)` on a list that holds `x`: the first occurrence goes, the rest keep their order. */
  function RemoveFirst<T(==)>(s: seq<T>, x: T): (r: seq<T>)
    requires x in s
    ensures |r| == |s| - 1
  {
    s[..IndexOf(s, x)] + s[IndexOf(s, x) + 1..]
  }

  predicate NoRepeats<T(==)>(s: seq<T>) {
    forall i, j :: 0 <= i < j < |s| ==> s[i] != s[j]
  }

  /** Removing an element from a list without repetitions removes it entirely and keeps everything else. */
  lemma {:induction false} RemoveFirstDistinct<T>(s: seq<T>, x: T)
    requires NoRepeats(s) && x in s
    ensures NoRepeats(RemoveFirst(s, x))
    ensures forall y :: y in RemoveFirst(s, x) <==> y in s && y != x
  {
    var k := IndexOf(s, x);
    var r := RemoveFirst(s, x);
    assert forall i :: 0 <= i < |r| ==> r[i] == s[if i < k then i else i + 1];
    forall i, j | 0 <= i < j < |r|
      ensures r[i] != r[j]
    {
      assert r[i] == s[if i < k then i else i + 1];
      assert r[j] == s[if j < k then j else j + 1];
    }
    forall y | y in r
      ensures y in s && y != x
    {
      var i :| 0 <= i < |r| && r[i] == y;
      assert s[if i < k then i else i + 1] == y;
    }
    forall y | y in s && y != x
      ensures y in r
    {
      var i :| 0 <= i < |s| && s[i] == y;
      assert r[if i < k then i else i - 1] == y;
    }
  }

  class Section {
    const id: string
    /** `section_data`: the space name, the rectangle and the app url posted on creation. */
    const data: SectionData
    /** The Python subclass the section is an instance of. */
    const kind: AppKind
    const space: Space
    var url: Value
    var state: Value

    function View(): SectionView
      reads this
    {
      SectionView(id, data, kind, url, state)
    }

    /**
     * The subclass constructors: `url` or `state` starts empty, and a
     * whiteboard opens its control page at once.
     */
    constructor(id: string, data: SectionData, kind: AppKind, space: Space)
      modifies space.client`log
      ensures View() == InitialView(id, data, kind) && this.space == space
      ensures space.client.log ==
              old(space.client.log) +
              (if kind == Whiteboard then Issued(space.client.offline, space.client.openBrowsers,
                                                 Browse(ControlUrl(Placement.BaseUrl(space.RootUrl(), kind), id)))
               else [])
    {
      this.id := id;
      this.data := data;
      this.kind := kind;
      this.space := space;
      url := InitialView(id, data, kind).url;
      state := InitialView(id, data, kind).state;
      new;
      if kind == Whiteboard {
        space.client.OpenBrowser(ControlUrl(BaseUrl(), id));
      }
    }

    /** `get_base_url`: the address of the app of the section's class. */
    function BaseUrl(): string {
      Placement.BaseUrl(space.RootUrl(), kind)
    }

    /**
     * `to_json`: the fixed space name, the rectangle of `section_data` and
     * the class's `get_app_json`; it raises only for an image whose url was
     * never set.
     */
    function ToJson(): (r: Option<Value>)
      reads this
      ensures r == SectionJson(View())
      ensures r.Some? <==> kind != Images || Lookup(state, "config").Some?
      ensures r.Some? ==> Lookup(r.value, "space") == Some(JStr("OVE_SPACE"))
      ensures r.Some? ==> Lookup(r.value, "w") == Some(JInt(data.w)) && Lookup(r.value, "h") == Some(JInt(data.h))
      ensures r.Some? ==> Lookup(r.value, "x") == Some(JInt(data.x)) && Lookup(r.value, "y") == Some(JInt(data.y))
      ensures r.Some? ==> Lookup(r.value, "app") == AppJson(View())
    {
      SectionJson(View())
    }

    /** `delete`: the delete request, then removal from the space's list, which raises when the section is not in it. */
    method Delete() returns (ok: bool)
      requires space.Valid()
      modifies space`sections, space.client`log
      ensures space.client.log == old(space.client.log) +
              Issued(space.client.offline, space.client.openBrowsers, Request.Delete(SectionUrl(space.RootUrl(), id)))
      ensures ok <==> this in old(space.sections)
      ensures ok ==> space.sections == RemoveFirst(old(space.sections), this)
      ensures !ok ==> space.sections == old(space.sections)
      ensures this !in space.sections
      ensures forall s :: s in space.sections <==> s in old(space.sections) && s != this
      ensures space.Valid()
    {
      space.client.Delete(SectionUrl(space.RootUrl(), id));
      if this in space.sections {
        RemoveFirstDistinct(space.sections, this);
        space.sections := RemoveFirst(space.sections, this);
        ok := true;
      } else {
        ok := false;
      }
    }

    /** `set_state`: posts a state to the section's app instance. */
    method SetState(data: Value)
      modifies space.client`log
      ensures space.client.log == old(space.client.log) +
              Issued(space.client.offline, space.client.openBrowsers, Post(StateUrl(BaseUrl(), id), data))
    {
      space.client.Post(StateUrl(BaseUrl(), id), data);
    }

    /**
     * `get_state`: asks for the state; `reply` is the parsed body of a
     * successful response, and the result is {} offline or without one.
     */
    method GetState(reply: Option<Value>) returns (r: Value)
      modifies space.client`log
      ensures r == if !space.client.offline && reply.Some? then reply.value else EmptyObj
      ensures space.client.log == old(space.client.log) +
              Issued(space.client.offline, space.client.openBrowsers, Request.Get(StateUrl(BaseUrl(), id)))
    {
      space.client.Get(StateUrl(BaseUrl(), id));
      if !space.client.offline && reply.Some? {
        r := reply.value;
      } else {
        r := EmptyObj;
      }
    }

    /** Pushes the current state, then opens the control page. */
    method Push()
      modifies space.client`log
      ensures space.client.log == old(space.client.log) +
              IssuedAll(space.client.offline, space.client.openBrowsers, PushRequests(BaseUrl(), View()))
    {
      SetState(state);
      space.client.OpenBrowser(ControlUrl(BaseUrl(), id));
      IssuedAllPair(space.client.offline, space.client.openBrowsers, PushRequests(BaseUrl(), View()));
    }

    /** `MapSection.set_position`, with its default arguments. */
    method SetPosition(latitude: Value := JInt(0), longitude: Value := JInt(0),
                       resolution: Value := JInt(5000), zoom: Value := JInt(5))
      requires kind == Maps
      modifies this`state, space.client`log
      ensures View() == Apply(old(View()), SetterCall.SetPosition(latitude, longitude, resolution, zoom)).value
      ensures space.client.log == old(space.client.log) +
              IssuedAll(space.client.offline, space.client.openBrowsers,
                        CallRequests(BaseUrl(), old(View()), SetterCall.SetPosition(latitude, longitude, resolution, zoom)))
    {
      state := MapState(latitude, longitude, resolution, zoom);
      Push();
    }

    /**
     * `set_url` of the classes that have one. An image section builds and
     * pushes its state; a video section rewrites watch links and raises when
     * the url is not a string (reported as `ok == false`, nothing changed).
     */
    method SetUrl(url: Value) returns (ok: bool)
      requires kind in {Html, QrCodes, Svg, Pdf, Audio, Images, Videos}
      modifies this`url, this`state, space.client`log
      ensures ok <==> Apply(old(View()), SetterCall.SetUrl(url)).Some?
      ensures ok ==> View() == Apply(old(View()), SetterCall.SetUrl(url)).value
      ensures ok ==> (space.client.log == old(space.client.log) +
                      IssuedAll(space.client.offline, space.client.openBrowsers,
                                CallRequests(BaseUrl(), old(View()), SetterCall.SetUrl(url))))
      ensures !ok ==> View() == old(View()) && space.client.log == old(space.client.log)
    {
      ok := true;
      if kind == Images {
        state := BuildImageState(url);
        Push();
      } else if kind == QrCodes {
        this.url := url;
      } else if kind == Videos {
        if !url.JStr? {
          ok := false;
          return;
        }
        this.url := EmbedUrl(url).value;
        space.client.OpenBrowser(ControlUrl(BaseUrl(), id) + "&url=" + PyStr(this.url));
      } else {
        this.url := url;
        space.client.OpenBrowser(ControlUrl(BaseUrl(), id) + "&url=" + PyStr(this.url));
      }
    }

    /**
     * `NetworkSection.set_data`, with its default arguments: the state is
     * replaced, and pushed only when no message is returned.
     */
    method SetData(jsonUrl: Value := JStr(""), gexfUrl: Value := JStr(""),
                   defaultNodeColor: Value := JStr("#ec5148"), autoRescale: Value := JBool(true))
      returns (message: Option<string>)
      requires kind == Networks
      modifies this`state, space.client`log
      ensures message == SetDataEffect(jsonUrl, gexfUrl, defaultNodeColor, autoRescale).message
      ensures View() == Apply(old(View()), SetterCall.SetData(jsonUrl, gexfUrl, defaultNodeColor, autoRescale)).value
      ensures space.client.log == old(space.client.log) +
              IssuedAll(space.client.offline, space.client.openBrowsers,
                        CallRequests(BaseUrl(), old(View()), SetterCall.SetData(jsonUrl, gexfUrl, defaultNodeColor, autoRescale)))
    {
      var update := SetDataEffect(jsonUrl, gexfUrl, defaultNodeColor, autoRescale);
      state := update.state;
      message := update.message;
      if message.None? {
        Push();
      }
    }

    /** `ChartSection.set_specification`, with its default arguments. */
    method SetSpecification(specUrl: Value := JBool(false), spec: Value := JBool(false), options: Value := JBool(false))
      requires kind == Charts
      modifies this`state, space.client`log
      ensures View() == Apply(old(View()), SetterCall.SetSpecification(specUrl, spec, options)).value
      ensures space.client.log == old(space.client.log) +
              IssuedAll(space.client.offline, space.client.openBrowsers,
                        CallRequests(BaseUrl(), old(View()), SetterCall.SetSpecification(specUrl, spec, options)))
    {
      state := ChartState(specUrl, spec, options);
      Push();
    }
  }

  /** A pair of requests goes through the client one after the other. */
  lemma IssuedAllPair(offline: bool, openBrowsers: bool, rs: seq<Request>)
    requires |rs| == 2
    ensures IssuedAll(offline, openBrowsers, rs) == Issued(offline, openBrowsers, rs[0]) + Issued(offline, openBrowsers, rs[1])
  {
    assert rs[1..][1..] == [];
  }

  lemma ConcatAssoc<T>(a: seq<T>, b: seq<T>, c: seq<T>)
    ensures a + b + c == a + (b + c)
  {
  }

  class Space {
    /** `ove_host`, with "http://" prepended when missing. */
    const host: string
    const spaceName: string
    const controlPort: int
    /** `"%s:%s" % (ove_host, control_port)`, the prefix of every address; host and port never change. */
    const rootUrl: string
    const geometry: Geometry
    const client: RestClient
    var numRows: int
    var numCols: int
    var rowHeight: int
    var colWidth: int
    var sections: seq<Section>

    /**
     * The grid is the one `set_grid` derives from the canvas; the sections
     * are distinct, belong to this space and were registered under its name
     * with the app url their class's `get_base_url` names.
     */
    ghost predicate Valid()
      reads this
    {
      rowHeight == CellSize(geometry.height, numRows) &&
      colWidth == CellSize(geometry.width, numCols) &&
      NoRepeats(sections) &&
      forall s :: s in sections ==> s.space == this && s.data.space == spaceName && s.data.appUrl == s.BaseUrl() + "/"
    }

    function RootUrl(): string {
      rootUrl
    }

    function AsTarget(): Target {
      Target(RootUrl(), spaceName, geometry)
    }

    /** The sections as values, in list order. */
    function Views(): (vs: seq<SectionView>)
      reads this, sections
      ensures |vs| == |sections| && forall i :: 0 <= i < |sections| ==> vs[i] == sections[i].View()
    {
      seq(|sections|, i reads this, sections requires 0 <= i < |sections| => sections[i].View())
    }

    /**
     * `Space(...)`: the host normalised, a client with the given flags, the
     * grid of the geometry's screens and no sections. The geometry is given;
     * fetching it from the service is not part of this model.
     */
    constructor(host: string, spaceName: string, geometry: Geometry, controlPort: int := 8080,
                offline: bool := true, openBrowsers: bool := false)
      ensures this.host == NormalHost(host) && this.spaceName == spaceName
      ensures this.geometry == geometry && this.controlPort == controlPort
      ensures RootUrl() == Root(this.host, this.controlPort)
      ensures numRows == geometry.screenRows && numCols == geometry.screenCols
      ensures fresh(client) && client.offline == offline && client.openBrowsers == openBrowsers && client.log == []
      ensures sections == []
      ensures Valid()
    {
      this.host := NormalHost(host);
      this.spaceName := spaceName;
      this.controlPort := controlPort;
      this.rootUrl := Root(NormalHost(host), controlPort);
      this.geometry := geometry;
      client := new RestClient(offline, openBrowsers);
      sections := [];
      new;
      SetGrid(geometry.screenRows, geometry.screenCols);
    }

    method EnableOnlineMode()
      modifies client`offline
      ensures !client.offline
    {
      client.offline := false;
    }

    method EnableOfflineMode()
      modifies client`offline
      ensures client.offline
    {
      client.offline := true;
    }

    method EnableBrowserOpening()
      modifies client`openBrowsers
      ensures client.openBrowsers
    {
      client.openBrowsers := true;
    }

    method DisableBrowserOpening()
      modifies client`openBrowsers
      ensures !client.openBrowsers
    {
      client.openBrowsers := false;
    }

    /** `set_grid`: the counts as given, the cell sizes by floor division of the canvas. */
    method SetGrid(rows: int, cols: int)
      requires NoRepeats(sections)
      requires forall s :: s in sections ==> s.space == this && s.data.space == spaceName && s.data.appUrl == s.BaseUrl() + "/"
      modifies this`numRows, this`numCols, this`rowHeight, this`colWidth
      ensures numRows == rows && numCols == cols
      ensures rowHeight * AtLeastOne(rows) <= geometry.height < (rowHeight + 1) * AtLeastOne(rows)
      ensures colWidth * AtLeastOne(cols) <= geometry.width < (colWidth + 1) * AtLeastOne(cols)
      ensures Valid()
    {
      numRows := rows;
      numCols := cols;
      rowHeight := CellSize(geometry.height, rows);
      colWidth := CellSize(geometry.width, cols);
    }

    /**
     * `set_quarter_grid`: twice the geometry's screen rows and columns. The
     * result depends on the geometry alone, so a second call changes nothing.
     */
    method SetQuarterGrid()
      requires Valid()
      modifies this`numRows, this`numCols, this`rowHeight, this`colWidth
      ensures numRows == 2 * geometry.screenRows && numCols == 2 * geometry.screenCols
      ensures Valid()
    {
      SetGrid(2 * geometry.screenRows, 2 * geometry.screenCols);
    }

    /**
     * `add_section`: the checks, then the post of `section_data` and the id,
     * then a new section of the chosen class appended to the list. The
     * offline id is `uuid`; online it is the id in `reply`, the service's
     * answer, and a missing one raises after the post.
     */
    method AddSection(w: int, h: int, x: int, y: int, appType: string, uuid: string, reply: Option<string>,
                      allowOversized: bool := false)
      returns (added: Added, section: Section?)
      requires Valid()
      modifies this`sections, client`log
      ensures added == AddEffect(Placing(RootUrl(), spaceName, geometry, w, h, x, y, appType, allowOversized), client.offline, uuid, reply)
      ensures added.Created? ==> section != null && fresh(section) && section.View() == added.view
      ensures added.Created? ==> sections == old(sections) + [section]
      ensures !added.Created? ==> section == null && sections == old(sections)
      ensures Views() == old(Views()) + (if added.Created? then [added.view] else [])
      ensures client.log == old(client.log) +
              IssuedAll(client.offline, client.openBrowsers,
                        AddRequests(Placing(RootUrl(), spaceName, geometry, w, h, x, y, appType, allowOversized), added))
      ensures Valid()
    {
      var kind := KindOf(appType);
      if kind.None? {
        added, section := NotCreated(UnknownAppType), null;
      } else if !allowOversized && x + w > geometry.width {
        added, section := NotCreated(OutOfBounds), null;
      } else if !allowOversized && y + h > geometry.height {
        added, section := NotCreated(OutOfBounds), null;
      } else {
        added, section := CreateSection(Placing(RootUrl(), spaceName, geometry, w, h, x, y, appType, allowOversized), kind.value, uuid, reply);
      }
    }

    /** What `add_section` does once its checks have passed for `p`, a placing in this space. */
    method CreateSection(p: Placing, kind: AppKind, uuid: string, reply: Option<string>)
      returns (added: Added, section: Section?)
      requires Valid() && p.root == RootUrl() && p.spaceName == spaceName && AppName(kind) == p.appType
      modifies this`sections, client`log
      ensures added == AfterChecks(p, kind, client.offline, uuid, reply)
      ensures added.Created? ==> section != null && fresh(section) && section.View() == added.view
      ensures added.Created? ==> sections == old(sections) + [section]
      ensures !added.Created? ==> section == null && sections == old(sections)
      ensures Views() == old(Views()) + (if added.Created? then [added.view] else [])
      ensures client.log == old(client.log) + IssuedAll(client.offline, client.openBrowsers, AddRequests(p, added))
      ensures Valid()
    {
      var post := Post(NewSectionUrl(RootUrl()), DataJson(PlacedData(p)));
      client.Post(post.url, post.body);
      added, section := AfterPost(p, kind, uuid, reply);
      ConcatAssoc(old(client.log), Issued(client.offline, client.openBrowsers, post),
                  IssuedAll(client.offline, client.openBrowsers, SectionRequests(p.root, added)));
      AddRequestsIssued(p, added, client.offline, client.openBrowsers);
    }

    /** `add_section` after its post: the id from `uuid` or from the service's `reply`, then the new section. */
    method AfterPost(p: Placing, kind: AppKind, uuid: string, reply: Option<string>)
      returns (added: Added, section: Section?)
      requires Valid() && p.root == RootUrl() && p.spaceName == spaceName && AppName(kind) == p.appType
      modifies this`sections, client`log
      ensures added == AfterChecks(p, kind, client.offline, uuid, reply)
      ensures added.Created? ==> section != null && fresh(section) && section.View() == added.view
      ensures added.Created? ==> sections == old(sections) + [section]
      ensures !added.Created? ==> section == null && sections == old(sections)
      ensures Views() == old(Views()) + (if added.Created? then [added.view] else [])
      ensures client.log == old(client.log) + IssuedAll(client.offline, client.openBrowsers, SectionRequests(p.root, added))
      ensures Valid()
    {
      if !client.offline && reply.None? {
        added, section := ReplyUnreadable, null;
      } else {
        var id := if client.offline then uuid else reply.value;
        section := AppendSection(PlacedData(p), kind, id);
        added := Created(section.View());
      }
    }

    /** A new section of class `kind` appended to the list; a whiteboard opens its control page. */
    method AppendSection(data: SectionData, kind: AppKind, id: string) returns (section: Section)
      requires Valid() && data.space == spaceName && data.appUrl == AppUrl(RootUrl(), AppName(kind))
      modifies this`sections, client`log
      ensures fresh(section) && section.View() == InitialView(id, data, kind)
      ensures sections == old(sections) + [section]
      ensures Views() == old(Views()) + [section.View()]
      ensures client.log == old(client.log) +
              IssuedAll(client.offline, client.openBrowsers, SectionRequests(RootUrl(), Created(section.View())))
      ensures Valid()
    {
      ghost var before := Views();
      section := new Section(id, data, kind, this);
      assert Views() == before;
      sections := sections + [section];
    }

    /**
     * `add_section_by_grid`: refused when the cells leave the grid (unless
     * oversized sections are allowed), otherwise `add_section` on the cells'
     * pixel rectangle.
     */
    method AddSectionByGrid(w: int, h: int, r: int, c: int, appType: string, uuid: string, reply: Option<string>,
                            allowOversized: bool := false)
      returns (added: Added, section: Section?)
      requires Valid()
      modifies this`sections, client`log
      ensures var p := GridPlacing(RootUrl(), spaceName, geometry, numRows, numCols, rowHeight, colWidth, w, h, r, c, appType, allowOversized);
              (p.None? ==> added == NotCreated(OutOfBounds) && client.log == old(client.log)) &&
              (p.Some? ==> added == AddEffect(p.value, client.offline, uuid, reply) &&
                           client.log == old(client.log) + IssuedAll(client.offline, client.openBrowsers, AddRequests(p.value, added)))
      ensures added.Created? ==> section != null && fresh(section) && section.View() == added.view
      ensures added.Created? ==> sections == old(sections) + [section]
      ensures !added.Created? ==> section == null && sections == old(sections)
      ensures Views() == old(Views()) + (if added.Created? then [added.view] else [])
      ensures Valid()
    {
      if !allowOversized && w + c > numCols {
        added, section := NotCreated(OutOfBounds), null;
      } else if !allowOversized && r + h > numRows {
        added, section := NotCreated(OutOfBounds), null;
      } else {
        added, section := AddSection(w * colWidth, h * rowHeight, c * colWidth, r * rowHeight, appType, uuid, reply, allowOversized);
      }
    }

    /** `delete_sections`: one delete request for all sections, and an empty list. */
    method DeleteSections()
      requires Valid()
      modifies this`sections, client`log
      ensures sections == []
      ensures Valid()
      ensures client.log == old(client.log) + Issued(client.offline, client.openBrowsers, Request.Delete(SectionsUrl(RootUrl())))
    {
      client.Delete(SectionsUrl(RootUrl()));
      sections := [];
    }

    /**
     * `add_section` on coordinates read from a document, where `x + w` raises
     * unless both are ints. `ok` is false when the call raises.
     */
    method PlaceValues(appType: string, rect: Rect, uuid: string, reply: Option<string>)
      returns (ok: bool, section: Section?)
      requires Valid()
      modifies this`sections, client`log
      ensures var placed := PlaceRecord(AsTarget(), appType, rect, client.offline, uuid, reply);
              ok == placed.ok && (section != null <==> placed.view.Some?) &&
              Views() == old(Views()) + Appended(placed.view) &&
              client.log == old(client.log) + IssuedAll(client.offline, client.openBrowsers, placed.requests)
      ensures section != null ==> fresh(section) && section.space == this && |sections| > 0 && sections[|sections| - 1] == section
      ensures Valid()
    {
      var admission := AdmitValues(appType, rect.w, rect.h, rect.x, rect.y, geometry);
      if admission.Raises? {
        ok, section := false, null;
      } else if admission.Refused? {
        ok, section := true, null;
      } else {
        var added;
        added, section := AddSection(rect.w.i, rect.h.i, rect.x.i, rect.y.i, appType, uuid, reply);
        ok := added.Created?;
      }
    }

    /**
     * A setter call on a section of this space, looked up on its class: false
     * when the class has no such method or the method raises, and then
     * nothing changes.
     */
    method Perform(section: Section, call: SetterCall) returns (ok: bool)
      requires section.space == this
      modifies section`url, section`state, client`log
      ensures ok == Apply(old(section.View()), call).Some?
      ensures ok ==> section.View() == Apply(old(section.View()), call).value &&
                     client.log == old(client.log) +
                       IssuedAll(client.offline, client.openBrowsers, CallRequests(section.BaseUrl(), old(section.View()), call))
      ensures !ok ==> section.View() == old(section.View()) && client.log == old(client.log)
    {
      ok := true;
      match call
      case Untouched =>
      case SetPosition(latitude, longitude, resolution, zoom) =>
        if section.kind == Maps {
          section.SetPosition(latitude, longitude, resolution, zoom);
        } else {
          ok := false;
        }
      case SetUrl(url) =>
        if section.kind in {Html, QrCodes, Svg, Pdf, Audio, Images, Videos} {
          ok := section.SetUrl(url);
        } else {
          ok := false;
        }
      case SetData(jsonUrl, gexfUrl, color, rescale) =>
        if section.kind == Networks {
          var _ := section.SetData(jsonUrl, gexfUrl, color, rescale);
        } else {
          ok := false;
        }
      case SetSpecification(specUrl, spec, options) =>
        if section.kind == Charts {
          section.SetSpecification(specUrl, spec, options);
        } else {
          ok := false;
        }
    }

    /** `Perform` on the newest section: the views of the others stay as they were. */
    method PerformLast(section: Section, call: SetterCall) returns (ok: bool)
      requires Valid() && |sections| > 0 && sections[|sections| - 1] == section
      modifies section`url, section`state, client`log
      ensures Valid()
      ensures Views() == old(Views())[..|sections| - 1] + [section.View()]
      ensures ok == Apply(old(section.View()), call).Some?
      ensures ok ==> section.View() == Apply(old(section.View()), call).value &&
                     client.log == old(client.log) +
                       IssuedAll(client.offline, client.openBrowsers, CallRequests(section.BaseUrl(), old(section.View()), call))
      ensures !ok ==> section.View() == old(section.View()) && client.log == old(client.log)
    {
      ghost var before, n := Views(), |sections|;
      ok := Perform(section, call);
      ghost var after, expected := Views(), before[..n - 1] + [section.View()];
      forall k | 0 <= k < n
        ensures after[k] == expected[k]
      {
        if k < n - 1 {
          assert sections[k] != section;
        }
      }
      assert after == expected;
    }

    /**
     * The branch of `load_json` for a record's app type, run on what
     * `add_section` returned: nothing, an exception, or a setter call, which
     * raises when the section was not created. `placed` is the effect of the
     * `add_section` call, `views0` and `log0` what there was before it.
     */
    method FinishPlaced(section: Section?, restore: Restore,
                        ghost placed: Step, ghost views0: seq<SectionView>, ghost log0: seq<Request>)
      returns (ok: bool)
      requires Valid() && placed.ok
      requires section != null <==> placed.view.Some?
      requires section != null ==> section.space == this && |sections| > 0 && sections[|sections| - 1] == section &&
                                   section.View() == placed.view.value
      requires Views() == views0 + Appended(placed.view)
      requires client.log == log0 + IssuedAll(client.offline, client.openBrowsers, placed.requests)
      modifies if section != null then {section} else {}, client`log
      ensures var r := Finish(AsTarget(), placed, restore);
              ok == r.ok && Views() == views0 + Appended(r.view) &&
              client.log == log0 + IssuedAll(client.offline, client.openBrowsers, r.requests)
      ensures Valid()
    {
      match restore
      case Skip =>
        ok := true;
      case Raise =>
        ok := false;
      case Call(call) =>
        if section == null {
          // the setter is looked up on `False`
          ok := false;
        } else {
          ok := FinishCall(section, call, placed, views0, log0);
          FinishCalled(AsTarget(), placed, call);
        }
    }

    /** `FinishPlaced` for a setter call on a section that was created. */
    method FinishCall(section: Section, call: SetterCall,
                      ghost placed: Step, ghost views0: seq<SectionView>, ghost log0: seq<Request>)
      returns (ok: bool)
      requires Valid() && placed.ok && placed.view == Some(section.View())
      requires section.space == this && |sections| > 0 && sections[|sections| - 1] == section
      requires Views() == views0 + [section.View()]
      requires client.log == log0 + IssuedAll(client.offline, client.openBrowsers, placed.requests)
      modifies section, client`log
      ensures ok == Apply(placed.view.value, call).Some?
      ensures ok ==> Views() == views0 + [Apply(placed.view.value, call).value] &&
                     client.log == log0 + IssuedAll(client.offline, client.openBrowsers,
                                                    placed.requests + CallRequests(section.BaseUrl(), placed.view.value, call))
      ensures !ok ==> Views() == views0 + [placed.view.value] &&
                      client.log == log0 + IssuedAll(client.offline, client.openBrowsers, placed.requests)
      ensures Valid()
    {
      assert views0 == Views()[..|sections| - 1];
      ok := PerformLast(section, call);
      if ok {
        ghost var callRequests := CallRequests(section.BaseUrl(), placed.view.value, call);
        IssuedAllAppend(client.offline, client.openBrowsers, placed.requests, callRequests);
        ConcatAssoc(log0, IssuedAll(client.offline, client.openBrowsers, placed.requests),
                    IssuedAll(client.offline, client.openBrowsers, callRequests));
      }
    }

    /**
     * The branch of the loop of `load_json` that runs on what `add_section`
     * returned (`placed`): nothing more when `add_section` raised, an exception
     * when the record has no load state, otherwise the setter for the app type.
     */
    method RestorePlaced(section: Section?, placedOk: bool, appType: string, state: Option<Value>,
                         ghost placed: Step, ghost views0: seq<SectionView>, ghost log0: seq<Request>,
                         ghost offline: bool, ghost openBrowsers: bool)
      returns (ok: bool)
      requires Valid() && placedOk == placed.ok
      requires client.offline == offline && client.openBrowsers == openBrowsers
      requires section != null <==> placed.view.Some?
      requires section != null ==> section.space == this && |sections| > 0 && sections[|sections| - 1] == section &&
                                   section.View() == placed.view.value
      requires Views() == views0 + Appended(placed.view)
      requires client.log == log0 + IssuedAll(offline, openBrowsers, placed.requests)
      modifies if section != null then {section} else {}, client`log
      ensures var r := AfterPlacement(AsTarget(), placed, appType, state, false);
              ok == r.ok && Views() == views0 + Appended(r.view) &&
              client.log == log0 + IssuedAll(offline, openBrowsers, r.requests)
      ensures Valid()
    {
      if !placedOk || state.None? {
        ok := false;
      } else {
        ok := FinishPlaced(section, RestoreCall(appType, state.value, false), placed, views0, log0);
      }
    }

    /**
     * One iteration of the loop of `load_json` on the fields it reads from a
     * record: the section is added, then the branch for its app type runs on
     * what `add_section` returned.
     */
    method LoadFields(appType: string, rect: Rect, state: Option<Value>, uuid: string, reply: Option<string>,
                      ghost offline: bool, ghost openBrowsers: bool)
      returns (ok: bool)
      requires Valid()
      requires client.offline == offline && client.openBrowsers == openBrowsers
      modifies this`sections, client`log
      ensures var r := AfterPlacement(AsTarget(), PlaceRecord(AsTarget(), appType, rect, offline, uuid, reply),
                                      appType, state, false);
              ok == r.ok && Views() == old(Views()) + Appended(r.view) &&
              client.log == old(client.log) + IssuedAll(offline, openBrowsers, r.requests)
      ensures Valid()
    {
      ghost var placed := PlaceRecord(AsTarget(), appType, rect, offline, uuid, reply);
      var placedOk, section := PlaceValues(appType, rect, uuid, reply);
      ok := RestorePlaced(section, placedOk, appType, state, placed, old(Views()), old(client.log), offline, openBrowsers);
    }

    /**
     * One iteration of the loop of `load_json`, as written: a record without
     * an app type or a position raises; otherwise its fields are loaded. The
     * result is false when the iteration raises, which ends the loop.
     */
    method LoadRecord(rec: Value, uuid: string, reply: Option<string>, ghost offline: bool, ghost openBrowsers: bool)
      returns (ok: bool)
      requires Valid()
      requires client.offline == offline && client.openBrowsers == openBrowsers
      modifies this`sections, client`log
      ensures var r := ReplayRecord(AsTarget(), rec, offline, uuid, reply, false);
              ok == r.ok && Views() == old(Views()) + Appended(r.view) &&
              client.log == old(client.log) + IssuedAll(offline, openBrowsers, r.requests)
      ensures Valid()
    {
      var appType := RecordAppType(rec);
      var rect := RecordRect(rec);
      if appType.None? || rect.None? {
        ok := false;
      } else {
        ok := LoadFields(appType.value, rect.value, LoadState(rec), uuid, reply, offline, openBrowsers);
      }
    }

    /**
     * `load_json` on a parsed document, as written: the records of
     * "Sections" are replayed in order until one raises. The result is false
     * when the replay raised.
     */
    method LoadJson(doc: Value, uuids: nat -> string, replies: nat -> Option<string>) returns (ok: bool)
      requires Valid()
      modifies this`sections, client`log
      ensures var r := Replay(AsTarget(), doc, client.offline, uuids, replies, false);
              ok == r.ok && Views() == old(Views()) + r.views &&
              client.log == old(client.log) + IssuedAll(client.offline, client.openBrowsers, r.requests)
      ensures Valid()
    {
      var recs := SectionRecords(doc);
      if recs.None? {
        return false;
      }
      ghost var steps := Steps(AsTarget(), recs.value, client.offline, uuids, replies, false);
      ok := LoadAll(recs.value, uuids, replies, steps, client.offline, client.openBrowsers);
    }

    /**
     * The loop of `load_json` over the records of a document, record `j`
     * having the effect `steps[j]` under the client's flags `offline` and
     * `openBrowsers`.
     */
    method LoadAll(recs: seq<Value>, uuids: nat -> string, replies: nat -> Option<string>,
                   ghost steps: seq<Step>, ghost offline: bool, ghost openBrowsers: bool)
      returns (ok: bool)
      requires Valid()
      requires client.offline == offline && client.openBrowsers == openBrowsers
      requires |steps| == |recs|
      requires forall j {:trigger uuids(j)} :: 0 <= j < |recs| ==>
                 steps[j] == ReplayRecord(AsTarget(), recs[j], offline, uuids(j), replies(j), false)
      modifies this`sections, client`log
      ensures var r := Accumulate(steps, |recs|);
              ok == r.ok && Views() == old(Views()) + r.views &&
              client.log == old(client.log) + IssuedAll(offline, openBrowsers, r.requests)
      ensures Valid()
    {
      ghost var views0, log0 := Views(), client.log;
      ghost var acc, issued := Accumulate(steps, 0), [];
      var i := 0;
      ok := true;
      while i < |recs| && ok
        invariant 0 <= i <= |recs|
        invariant Valid()
        invariant client.offline == offline && client.openBrowsers == openBrowsers
        invariant acc == Accumulate(steps, i) && ok == acc.ok
        invariant issued == IssuedAll(offline, openBrowsers, acc.requests)
        invariant Views() == views0 + acc.views && client.log == log0 + issued
      {
        ok, acc, issued := LoadNext(recs, i, uuids, replies, steps, offline, openBrowsers, views0, log0, acc, issued);
        i := i + 1;
      }
      ReplayStopped(steps, i);
    }

    /**
     * The body of the loop of `load_json`: the record with index `i` extends
     * `acc`, the replay of the records before it, whose requests the client
     * carried out as `issued`.
     */
    method LoadNext(recs: seq<Value>, i: nat, uuids: nat -> string, replies: nat -> Option<string>,
                    ghost steps: seq<Step>, ghost offline: bool, ghost openBrowsers: bool,
                    ghost views0: seq<SectionView>, ghost log0: seq<Request>, ghost acc: Replayed, ghost issued: seq<Request>)
      returns (ok: bool, ghost acc': Replayed, ghost issued': seq<Request>)
      requires Valid()
      requires client.offline == offline && client.openBrowsers == openBrowsers
      requires i < |recs| == |steps|
      requires forall j {:trigger uuids(j)} :: 0 <= j < |recs| ==>
                 steps[j] == ReplayRecord(AsTarget(), recs[j], offline, uuids(j), replies(j), false)
      requires acc == Accumulate(steps, i) && acc.ok
      requires issued == IssuedAll(offline, openBrowsers, acc.requests)
      requires Views() == views0 + acc.views && client.log == log0 + issued
      modifies this`sections, client`log
      ensures Valid()
      ensures acc' == Accumulate(steps, i + 1) && ok == acc'.ok
      ensures issued' == IssuedAll(offline, openBrowsers, acc'.requests)
      ensures Views() == views0 + acc'.views && client.log == log0 + issued'
    {
      acc' := Replayed(acc.views + Appended(steps[i].view), acc.requests + steps[i].requests, steps[i].ok);
      issued' := issued + IssuedAll(offline, openBrowsers, steps[i].requests);
      ok := LoadRecord(recs[i], uuids(i), replies(i), offline, openBrowsers);
      ConcatAssoc(views0, acc.views, Appended(steps[i].view));
      IssuedAllAppend(offline, openBrowsers, acc.requests, steps[i].requests);
      ConcatAssoc(log0, issued, IssuedAll(offline, openBrowsers, steps[i].requests));
    }

    /**
     * `to_json` before the text encoding: the title under "Attribution" and
     * each section's `to_json` under "Sections", in list order; None when a
     * section's `to_json` raises.
     */
    function ToJson(title: string): (r: Option<Value>)
      reads this, sections
      ensures r == SpaceJson(title, Views())
      ensures r.Some? <==> forall i :: 0 <= i < |sections| ==> sections[i].ToJson().Some?
      ensures r.Some? ==> Item(Item(r, "Attribution"), "Title") == Some(JStr(title))
      ensures r.Some? ==> Item(r, "Sections").Some? && Item(r, "Sections").value.JArr? &&
                          |Item(r, "Sections").value.items| == |sections| &&
                          forall i :: 0 <= i < |sections| ==> Item(r, "Sections").value.items[i] == sections[i].ToJson().value
    {
      SpaceJson(title, Views())
    }
  }
}
