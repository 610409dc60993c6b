/**
 * What each section class holds and writes: the `section_data` of a section,
 * the `url` or `state` attribute its setters overwrite, and the dictionaries
 * `get_app_json` and `Section.to_json` build from them. Pure functions; the
 * `Section` class applies them in place.
 */
module Sections {
  import opened Wrappers
  import opened Json
  import opened Text
  import opened Apps
  import opened Client

  /** The `section_data` dictionary built by `add_section`. */
  datatype SectionData = SectionData(space: string, w: int, h: int, x: int, y: int, appUrl: string)

  /** `section_data` as the dictionary posted to the service. */
  function DataJson(d: SectionData): Value {
    JObj(["space", "w", "h", "x", "y", "app"],
         map["space" := JStr(d.space), "w" := JInt(d.w), "h" := JInt(d.h), "x" := JInt(d.x), "y" := JInt(d.y),
             "app" := JObj(["url"], map["url" := JStr(d.appUrl)])])
  }

  /**
   * The fields of one section object. `url` is the attribute of the classes
   * that have one (HTML, QR code, SVG, whiteboard, PDF, audio, video) and
   * `state` that of the others (image, map, network, chart); the attribute a
   * class does not have is `JNull` here.
   */
  datatype SectionView = SectionView(id: string, data: SectionData, kind: AppKind, url: Value, state: Value)

  predicate HasUrlAttribute(k: AppKind) {
    k in {Html, QrCodes, Svg, Whiteboard, Pdf, Audio, Videos}
  }

  /** A freshly constructed section: `url` starts as "" (or {} for audio and video), `state` as {}. */
  function InitialView(id: string, data: SectionData, kind: AppKind): (r: SectionView)
    ensures r.id == id && r.data == data && r.kind == kind
  {
    var url := if kind in {Audio, Videos} then EmptyObj else if HasUrlAttribute(kind) then JStr("") else JNull;
    var state := if HasUrlAttribute(kind) then JNull else EmptyObj;
    SectionView(id, data, kind, url, state)
  }

  /** The attributes a fresh section starts with: an empty dict for the media players' url, an empty string for the other
      url-backed apps, and an empty dict of state for the apps without a url;
      only an image, whose url is still unset, has no application json yet. */
  lemma InitialAttributes(id: string, data: SectionData, kind: AppKind)
    ensures kind in {Audio, Videos} ==> InitialView(id, data, kind).url == EmptyObj && InitialView(id, data, kind).state == JNull
    ensures HasUrlAttribute(kind) && kind !in {Audio, Videos} ==> InitialView(id, data, kind).url == JStr("") && InitialView(id, data, kind).state == JNull
    ensures !HasUrlAttribute(kind) ==> InitialView(id, data, kind).url == JNull && InitialView(id, data, kind).state == EmptyObj
    ensures AppJson(InitialView(id, data, kind)).None? <==> kind == Images
  {
  }

  // ---- setters ----

  const WatchPrefix: string := "https://www.youtube.com/watch?v="
  const EmbedPrefix: string := "http://www.youtube.com/embed/"

  /** What `VideoSection.set_url` stores: watch links rewritten to the embedded player. None when `.replace` raises. */
  function EmbedUrl(url: Value): (r: Option<Value>)
    ensures r.Some? <==> url.JStr?
  {
    if url.JStr? then Some(JStr(ReplaceAll(url.s, WatchPrefix, EmbedPrefix))) else None
  }

  /** A stored video url is three characters shorter per watch link it was given. */
  lemma EmbedUrlLength(url: string)
    ensures |EmbedUrl(JStr(url)).value.s| == |url| - 3 * Occurrences(url, WatchPrefix)
  {
    EmbedPrefixLetters();
  }

  /** A watch link becomes the embedded-player link of the same video. */
  lemma WatchLinkEmbedded(videoId: string)
    requires !Contains(videoId, WatchPrefix)
    ensures EmbedUrl(JStr(WatchPrefix + videoId)) == Some(JStr(EmbedPrefix + videoId))
  {
    var s := WatchPrefix + videoId;
    assert s[..|WatchPrefix|] == WatchPrefix;
    assert s[|WatchPrefix|..] == videoId;
    ReplaceAllAbsent(videoId, WatchPrefix, EmbedPrefix);
  }

  /** The lengths of the two prefixes and the letters where the embedded-player prefix parts from a watch link. */
  lemma EmbedPrefixLetters()
    ensures |WatchPrefix| == 32 && |EmbedPrefix| == 29
    ensures WatchPrefix[0] == 'h' && WatchPrefix[4] == 's' && EmbedPrefix[4] == ':'
    ensures 'h' !in EmbedPrefix[1..]
  {
    EmbedTailLetters();
  }

  /** No `h` follows the first letter of the embedded-player prefix. */
  lemma EmbedTailLetters()
    ensures 'h' !in EmbedPrefix[1..]
  {
    assert EmbedPrefix[1..] == "ttp://www." + "youtube.com/" + "embed/";
    assert 'h' !in "ttp://www.";
    assert 'h' !in "youtube.com/";
    assert 'h' !in "embed/";
  }

  /** In the watch link after its first letter, the first two letters of the embedded-player prefix never meet. */
  lemma WatchTailLetters()
    ensures |WatchPrefix| == 32 && |EmbedPrefix| >= 2
    ensures NeverBefore(WatchPrefix[1..], EmbedPrefix[0], EmbedPrefix[1])
  {
    var tail := WatchPrefix[1..];
    assert tail == "ttps://www.youtube.com/watc" + "h?v=";
    assert 'h' !in "ttps://www.youtube.com/watc";
  }

  /** A watch link in `EmbedPrefix + rest` can only lie within `rest`. */
  lemma EmbedPrefixBeginsNoWatchLink(rest: string)
    requires !Contains(rest, WatchPrefix)
    ensures !Contains(EmbedPrefix + rest, WatchPrefix)
  {
    EmbedPrefixLetters();
    var r := EmbedPrefix + rest;
    forall k | 0 <= k <= |r|
      ensures !OccursAt(r, WatchPrefix, k)
    {
      if OccursAt(r, WatchPrefix, k) {
        if k >= |EmbedPrefix| {
          assert rest[k - |EmbedPrefix|..k - |EmbedPrefix| + |WatchPrefix|] == r[k..k + |WatchPrefix|];
          assert OccursAt(rest, WatchPrefix, k - |EmbedPrefix|);
        }
      }
    }
  }

  /** A copied first character cannot begin a watch link that the original text did not begin. */
  lemma CopiedCharStartsNoWatchLink(c: char, t: string)
    requires !StartsWith([c] + t, WatchPrefix)
    ensures !StartsWith([c] + ReplaceAll(t, WatchPrefix, EmbedPrefix), WatchPrefix)
  {
    WatchTailLetters();
    var rest := ReplaceAll(t, WatchPrefix, EmbedPrefix);
    if StartsWith([c] + rest, WatchPrefix) {
      var tail := WatchPrefix[1..];
      assert rest[..|tail|] == tail;
      ReplaceAllKeepsPrefix(t, WatchPrefix, EmbedPrefix, tail);
    }
  }

  /** A watch link in `[c] + rest` either starts at `c` or lies within `rest`. */
  lemma CopiedCharNoWatchLink(c: char, t: string)
    requires !Contains(ReplaceAll(t, WatchPrefix, EmbedPrefix), WatchPrefix)
    requires !StartsWith([c] + t, WatchPrefix)
    ensures !Contains([c] + ReplaceAll(t, WatchPrefix, EmbedPrefix), WatchPrefix)
  {
    CopiedCharStartsNoWatchLink(c, t);
    ConsContains(c, ReplaceAll(t, WatchPrefix, EmbedPrefix), WatchPrefix);
  }

  /**
   * The url a video section stores never holds a watch link: no part of the
   * embedded-player prefix can begin one, so `replace` leaves none behind.
   */
  lemma {:induction false} EmbeddedHasNoWatchLink(s: string)
    ensures !Contains(ReplaceAll(s, WatchPrefix, EmbedPrefix), WatchPrefix)
    decreases |s|
  {
    if |s| < |WatchPrefix| {
    } else if s[..|WatchPrefix|] == WatchPrefix {
      EmbeddedHasNoWatchLink(s[|WatchPrefix|..]);
      EmbedPrefixBeginsNoWatchLink(ReplaceAll(s[|WatchPrefix|..], WatchPrefix, EmbedPrefix));
    } else {
      EmbeddedHasNoWatchLink(s[1..]);
      assert s == [s[0]] + s[1..];
      CopiedCharNoWatchLink(s[0], s[1..]);
    }
  }

  /** Storing a video url twice stores the same url: a second rewrite finds nothing to rewrite. */
  lemma EmbedUrlIdempotent(url: string)
    ensures EmbedUrl(EmbedUrl(JStr(url)).value) == EmbedUrl(JStr(url))
  {
    EmbeddedHasNoWatchLink(url);
    ReplaceAllAbsent(ReplaceAll(url, WatchPrefix, EmbedPrefix), WatchPrefix, EmbedPrefix);
  }

  /** `ImageSection.build_image_state(url)`. */
  function BuildImageState(url: Value): (s: Value)
    ensures Item(Item(Item(Some(s), "config"), "tileSources"), "url") == Some(url)
    ensures Item(Item(Some(s), "config"), "visibilityRatio") == Some(JInt(1))
  {
    var tileSources := JObj(["url", "type"], map["url" := url, "type" := JStr("image")]);
    var config := JObj(
      ["panHorizontal", "wrapHorizontal", "visibilityRatio", "wrapVertical", "panVertical", "tileSources"],
      map["panHorizontal" := JBool(false), "wrapHorizontal" := JBool(true), "visibilityRatio" := JInt(1),
          "wrapVertical" := JBool(true), "panVertical" := JBool(false), "tileSources" := tileSources]);
    JObj(["config"], map["config" := config])
  }

  /** The effect of `set_url` on a section, or None when its class has no `set_url` or it raises. */
  function SetUrlEffect(v: SectionView, url: Value): (r: Option<SectionView>)
    ensures r.Some? ==> r.value.id == v.id && r.value.data == v.data && r.value.kind == v.kind
    ensures r.Some? <==> v.kind in {Html, QrCodes, Svg, Pdf, Audio, Images} || (v.kind == Videos && url.JStr?)
    ensures r.Some? && v.kind != Videos && v.kind != Images ==> r.value == v.(url := url)
    ensures r.Some? && v.kind == Videos ==> r.value == v.(url := EmbedUrl(url).value)
    ensures r.Some? && v.kind == Images ==> r.value == v.(state := BuildImageState(url))
  {
    match v.kind
    case Images => Some(v.(state := BuildImageState(url)))
    case Videos => if url.JStr? then Some(v.(url := EmbedUrl(url).value)) else None
    case Html => Some(v.(url := url))
    case QrCodes => Some(v.(url := url))
    case Svg => Some(v.(url := url))
    case Pdf => Some(v.(url := url))
    case Audio => Some(v.(url := url))
    case _ => None
  }

  /** `MapSection.set_position`: the centre, resolution and zoom, each passed through `str`. */
  function MapState(latitude: Value, longitude: Value, resolution: Value, zoom: Value): (s: Value)
    ensures Item(Some(s), "center") == Some(JArr([JStr(PyStr(latitude)), JStr(PyStr(longitude))]))
    ensures Item(Some(s), "resolution") == Some(JStr(PyStr(resolution)))
    ensures Item(Some(s), "zoom") == Some(JStr(PyStr(zoom)))
  {
    JObj(["center", "resolution", "zoom"],
         map["center" := JArr([JStr(PyStr(latitude)), JStr(PyStr(longitude))]),
             "resolution" := JStr(PyStr(resolution)),
             "zoom" := JStr(PyStr(zoom))])
  }

  /** Feeding a map state's own fields back to `set_position` rebuilds the same state. */
  lemma MapStateReplays(latitude: Value, longitude: Value, resolution: Value, zoom: Value)
    ensures var s := MapState(latitude, longitude, resolution, zoom);
            var center := Lookup(s, "center").value;
            MapState(At(center, 0).value, At(center, 1).value, Lookup(s, "resolution").value, Lookup(s, "zoom").value) == s
  {
  }

  const MissingUrlMessage: string := "Must specify either a json_url or gexf_url as argument to set_data"
  const GexfIgnoredMessage: string := "Both json and gexf URLs provided: gexf URL was ignored"

  /** What `NetworkSection.set_data` leaves in `state` and returns; the state is pushed only when nothing is returned. */
  datatype NetworkUpdate = NetworkUpdate(state: Value, message: Option<string>)

  function NetworkSettings(autoRescale: Value, defaultNodeColor: Value): Value {
    JObj(["autoRescale", "clone", "defaultNodeColor"],
         map["autoRescale" := autoRescale, "clone" := JBool(false), "defaultNodeColor" := defaultNodeColor])
  }

  /** `NetworkSection.set_data`: the json URL wins over the gexf URL; with neither, an error message. */
  function SetDataEffect(jsonUrl: Value, gexfUrl: Value, defaultNodeColor: Value, autoRescale: Value): (u: NetworkUpdate)
    ensures Lookup(u.state, "settings") == Some(NetworkSettings(autoRescale, defaultNodeColor))
    ensures Lookup(u.state, "jsonURL") == (if Truthy(jsonUrl) then Some(jsonUrl) else None)
    ensures Lookup(u.state, "gexfURL") == (if !Truthy(jsonUrl) && Truthy(gexfUrl) then Some(gexfUrl) else None)
    ensures !Truthy(jsonUrl) && !Truthy(gexfUrl) ==> u.message == Some(MissingUrlMessage)
    ensures Truthy(jsonUrl) && Truthy(gexfUrl) ==> u.message == Some(GexfIgnoredMessage)
    ensures u.message.None? <==> Truthy(jsonUrl) != Truthy(gexfUrl)
  {
    var settings := NetworkSettings(autoRescale, defaultNodeColor);
    if Truthy(jsonUrl) then
      NetworkUpdate(JObj(["settings", "jsonURL"], map["settings" := settings, "jsonURL" := jsonUrl]),
                    if Truthy(gexfUrl) then Some(GexfIgnoredMessage) else None)
    else if Truthy(gexfUrl) then
      NetworkUpdate(JObj(["settings", "gexfURL"], map["settings" := settings, "gexfURL" := gexfUrl]), None)
    else
      NetworkUpdate(JObj(["settings"], map["settings" := settings]), Some(MissingUrlMessage))
  }

  /** `ChartSection.set_specification`: `options` defaults to {}, and the spec URL wins over the inline spec. */
  function ChartState(specUrl: Value, spec: Value, options: Value): (s: Value)
    ensures Lookup(s, "options") == Some(if Truthy(options) then options else EmptyObj)
    ensures Lookup(s, "specURL") == (if Truthy(specUrl) then Some(specUrl) else None)
    ensures Lookup(s, "spec") == (if !Truthy(specUrl) && Truthy(spec) then Some(spec) else None)
  {
    var opts := if Truthy(options) then options else EmptyObj;
    if Truthy(specUrl) then JObj(["options", "specURL"], map["options" := opts, "specURL" := specUrl])
    else if Truthy(spec) then JObj(["options", "spec"], map["options" := opts, "spec" := spec])
    else JObj(["options"], map["options" := opts])
  }

  /** A call of one of the setters, with the arguments it receives. */
  datatype SetterCall =
    | Untouched
    | SetPosition(latitude: Value, longitude: Value, resolution: Value, zoom: Value)
    | SetUrl(url: Value)
    | SetData(jsonUrl: Value, gexfUrl: Value, defaultNodeColor: Value, autoRescale: Value)
    | SetSpecification(specUrl: Value, spec: Value, options: Value)

  /**
   * The section after a setter call, or None when its class has no such
   * method or the method raises. No setter changes the id, the rectangle or
   * the class of a section.
   */
  function Apply(v: SectionView, call: SetterCall): (r: Option<SectionView>)
    ensures r.Some? ==> r.value.id == v.id && r.value.data == v.data && r.value.kind == v.kind
    ensures call.Untouched? ==> r == Some(v)
    ensures call.SetPosition? ==> (r.Some? <==> v.kind == Maps)
    ensures call.SetUrl? ==> r == SetUrlEffect(v, call.url)
    ensures call.SetData? ==> (r.Some? <==> v.kind == Networks)
    ensures call.SetSpecification? ==> (r.Some? <==> v.kind == Charts)
    ensures call.SetPosition? && r.Some? ==>
              r.value == v.(state := MapState(call.latitude, call.longitude, call.resolution, call.zoom))
    ensures call.SetData? && r.Some? ==>
              r.value == v.(state := SetDataEffect(call.jsonUrl, call.gexfUrl, call.defaultNodeColor, call.autoRescale).state)
    ensures call.SetSpecification? && r.Some? ==> r.value == v.(state := ChartState(call.specUrl, call.spec, call.options))
  {
    match call
    case Untouched => Some(v)
    case SetPosition(latitude, longitude, resolution, zoom) =>
      if v.kind == Maps then Some(v.(state := MapState(latitude, longitude, resolution, zoom))) else None
    case SetUrl(url) => SetUrlEffect(v, url)
    case SetData(jsonUrl, gexfUrl, color, rescale) =>
      if v.kind == Networks then Some(v.(state := SetDataEffect(jsonUrl, gexfUrl, color, rescale).state)) else None
    case SetSpecification(specUrl, spec, options) =>
      if v.kind == Charts then Some(v.(state := ChartState(specUrl, spec, options))) else None
  }

  /** Every setter replaces the whole attribute it sets: a later call makes the section what it alone would have made it. */
  lemma SetterOverwrites(v: SectionView, first: SetterCall, last: SetterCall)
    requires Apply(v, first).Some? && !last.Untouched?
    ensures Apply(Apply(v, first).value, last) == Apply(v, last)
  {
  }

  /** A history of setter calls on one section, in order; None once one of them raises. */
  function ApplyAll(v: SectionView, calls: seq<SetterCall>): (r: Option<SectionView>)
    ensures r.Some? ==> r.value.id == v.id && r.value.data == v.data && r.value.kind == v.kind
    decreases |calls|
  {
    if |calls| == 0 then Some(v)
    else match Apply(v, calls[0])
      case None => None
      case Some(w) => ApplyAll(w, calls[1..])
  }

  /** A section that took a whole history of setter calls is the section its last call alone makes. */
  lemma {:induction false} HistoryIsLastCall(v: SectionView, calls: seq<SetterCall>)
    requires |calls| > 0 && !calls[|calls| - 1].Untouched?
    requires ApplyAll(v, calls).Some?
    ensures ApplyAll(v, calls) == Apply(v, calls[|calls| - 1])
    decreases |calls|
  {
    var w := Apply(v, calls[0]).value;
    if |calls| > 1 {
      var rest := calls[1..];
      assert rest[|rest| - 1] == calls[|calls| - 1];
      HistoryIsLastCall(w, rest);
      SetterOverwrites(v, calls[0], calls[|calls| - 1]);
    }
  }

  // ---- requests the setters ask the client for ----

  function ControlUrl(baseUrl: string, id: string): string {
    baseUrl + "/control.html?oveSectionId=" + id
  }

  function StateUrl(baseUrl: string, id: string): string {
    baseUrl + "/instances/" + id + "/state"
  }

  /** `set_state` of the new state, then the control page. */
  function PushRequests(baseUrl: string, after: SectionView): seq<Request> {
    [Post(StateUrl(baseUrl, after.id), after.state), Browse(ControlUrl(baseUrl, after.id))]
  }

  /** What `set_url` asks for: nothing for a QR code, a push for an image, the control page with the url otherwise. */
  function SetUrlRequests(baseUrl: string, after: SectionView): seq<Request> {
    match after.kind
    case QrCodes => []
    case Images => PushRequests(baseUrl, after)
    case _ => [Browse(ControlUrl(baseUrl, after.id) + "&url=" + PyStr(after.url))]
  }

  /**
   * What a setter call asks the client for, given the section's base url: a
   * push of the new state and its control page for maps, images, networks
   * (unless `set_data` returned a message) and charts; the control page with
   * the url for the other `set_url`s except the QR code's, which asks nothing.
   */
  function CallRequests(baseUrl: string, v: SectionView, call: SetterCall): (rs: seq<Request>)
    requires Apply(v, call).Some?
    ensures |rs| <= 2
    ensures call.Untouched? || v.kind == QrCodes ==> rs == []
    ensures call.SetPosition? || call.SetSpecification? || (call.SetUrl? && v.kind == Images) ==>
              rs == [Post(StateUrl(baseUrl, v.id), Apply(v, call).value.state), Browse(ControlUrl(baseUrl, v.id))]
    ensures call.SetData? ==>
              rs == if SetDataEffect(call.jsonUrl, call.gexfUrl, call.defaultNodeColor, call.autoRescale).message.None?
                    then [Post(StateUrl(baseUrl, v.id), Apply(v, call).value.state), Browse(ControlUrl(baseUrl, v.id))]
                    else []
    ensures call.SetUrl? && v.kind !in {QrCodes, Images} ==>
              rs == [Browse(ControlUrl(baseUrl, v.id) + "&url=" + PyStr(Apply(v, call).value.url))]
  {
    var after := Apply(v, call).value;
    match call
    case Untouched => []
    case SetPosition(_, _, _, _) => PushRequests(baseUrl, after)
    case SetUrl(_) => SetUrlRequests(baseUrl, after)
    case SetData(jsonUrl, gexfUrl, color, rescale) =>
      if SetDataEffect(jsonUrl, gexfUrl, color, rescale).message.None? then PushRequests(baseUrl, after) else []
    case SetSpecification(_, _, _) => PushRequests(baseUrl, after)
  }

  // ---- serialisation ----

  /** The load state of a section whose class keeps a `url`. */
  function UrlLoad(url: Value): Value {
    JObj(["url"], map["url" := url])
  }

  /** The `app` dictionary of a section with a load state. */
  function AppWithLoad(tag: string, load: Value): Value {
    JObj(["url", "states"], map["url" := JStr(tag), "states" := JObj(["load"], map["load" := load])])
  }

  /**
   * `get_app_json` of each class. None when it raises: an image section whose
   * `state` has no "config", i.e. one whose url was never set.
   */
  function AppJson(v: SectionView): (r: Option<Value>)
    ensures r.None? <==> v.kind == Images && Lookup(v.state, "config").None?
    ensures r.Some? ==> r.value.JObj? && Lookup(r.value, "url") == Some(JStr(Tag(v.kind)))
    ensures r.Some? ==> (Lookup(r.value, "states").Some? <==> v.kind != Whiteboard)
    ensures r.Some? && HasUrlAttribute(v.kind) && v.kind != Whiteboard ==>
              Item(Item(r, "states"), "load") == Some(UrlLoad(v.url))
    ensures r.Some? && v.kind in {Maps, Networks, Charts} ==> Item(Item(r, "states"), "load") == Some(v.state)
    ensures r.Some? && v.kind == Images ==>
              Item(Item(Item(r, "states"), "load"), "config") == Lookup(v.state, "config") &&
              Item(Item(Item(r, "states"), "load"), "position") == Some(EmptyObj)
  {
    var tag := Tag(v.kind);
    match v.kind
    case Whiteboard => Some(JObj(["url"], map["url" := JStr(tag)]))
    case Images =>
      (match Lookup(v.state, "config")
       case None => None
       case Some(config) => Some(AppWithLoad(tag, JObj(["config", "position"], map["config" := config, "position" := EmptyObj]))))
    case Maps => Some(AppWithLoad(tag, v.state))
    case Networks => Some(AppWithLoad(tag, v.state))
    case Charts => Some(AppWithLoad(tag, v.state))
    case _ => Some(AppWithLoad(tag, UrlLoad(v.url)))
  }

  /** `Section.to_json`: the rectangle from `section_data`, a fixed space name, and the app. */
  function SectionJson(v: SectionView): (r: Option<Value>)
    ensures r.Some? <==> AppJson(v).Some?
    ensures r.Some? ==> Lookup(r.value, "space") == Some(JStr("OVE_SPACE"))
    ensures r.Some? ==> Lookup(r.value, "w") == Some(JInt(v.data.w)) && Lookup(r.value, "h") == Some(JInt(v.data.h))
    ensures r.Some? ==> Lookup(r.value, "x") == Some(JInt(v.data.x)) && Lookup(r.value, "y") == Some(JInt(v.data.y))
    ensures r.Some? ==> Lookup(r.value, "app") == AppJson(v)
  {
    match AppJson(v)
    case None => None
    case Some(app) =>
      Some(JObj(["space", "h", "w", "x", "y", "app"],
                map["space" := JStr("OVE_SPACE"), "h" := JInt(v.data.h), "w" := JInt(v.data.w),
                    "x" := JInt(v.data.x), "y" := JInt(v.data.y), "app" := app]))
  }
}
