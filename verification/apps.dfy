/** The eleven application types a section can host, their names and their document tags. */
module Apps {
  import opened Wrappers
  import opened Text

  datatype AppKind =
    | Maps | Images | Html | Videos | Networks | Charts | Svg | Whiteboard | Pdf | Audio | QrCodes

  /** The names `add_section` accepts, in the order of `Space.apps`. */
  const AppNames: seq<string> :=
    ["maps", "images", "html", "videos", "networks", "charts", "svg", "whiteboard", "pdf", "audio", "qrcodes"]

  /** The app name of each section class (the table in `get_base_url`). */
  function AppName(k: AppKind): string {
    match k
    case Maps => "maps"
    case Images => "images"
    case Html => "html"
    case Videos => "videos"
    case Networks => "networks"
    case Charts => "charts"
    case Svg => "svg"
    case Whiteboard => "whiteboard"
    case Pdf => "pdf"
    case Audio => "audio"
    case QrCodes => "qrcodes"
  }

  /** The marker each class writes as `app.url` in `get_app_json`. */
  function Tag(k: AppKind): string {
    match k
    case Maps => "OVE_APP_MAPS"
    case Images => "OVE_APP_IMAGES"
    case Html => "OVE_APP_HTML"
    case Videos => "OVE_APP_VIDEOS"
    case Networks => "OVE_APP_NETWORKS"
    case Charts => "OVE_APP_CHARTS"
    case Svg => "OVE_APP_SVG"
    case Whiteboard => "OVE_APP_WHITEBOARD"
    case Pdf => "OVE_APP_PDF"
    case Audio => "OVE_APP_AUDIO"
    case QrCodes => "OVE_APP_QRCODES"
  }

  /** The class `add_section` instantiates for an app name: its if-chain, with None for its final else. */
  function KindOf(appType: string): (r: Option<AppKind>)
    ensures r.Some? <==> appType in AppNames
    ensures r.Some? ==> AppName(r.value) == appType
  {
    if appType == "maps" then Some(Maps)
    else if appType == "images" then Some(Images)
    else if appType == "html" then Some(Html)
    else if appType == "videos" then Some(Videos)
    else if appType == "networks" then Some(Networks)
    else if appType == "charts" then Some(Charts)
    else if appType == "svg" then Some(Svg)
    else if appType == "whiteboard" then Some(Whiteboard)
    else if appType == "pdf" then Some(Pdf)
    else if appType == "audio" then Some(Audio)
    else if appType == "qrcodes" then Some(QrCodes)
    else None
  }

  /** Every class's app name is accepted by `add_section` and selects that class again. */
  lemma AppNameAccepted(k: AppKind)
    ensures AppName(k) in AppNames
    ensures KindOf(AppName(k)) == Some(k)
  {
  }

  /** The app type `load_json` derives from a tag: lower-cased, last `_`-separated piece. */
  function TagAppType(url: string): (r: string)
    ensures '_' !in r
    ensures forall k :: 0 <= k < |r| ==> !('A' <= r[k] <= 'Z')
  {
    LowerHasNoUpper(url);
    LastSegment(Lower(url), '_')
  }

  /** A tag that lowers to "ove_app_" followed by a name splits back to that name. */
  lemma LoweredTagSplits(tag: string, name: string)
    requires Lower(tag) == "ove_app" + ['_'] + name
    requires '_' !in name
    ensures TagAppType(tag) == name
  {
    LastSegmentAfter("ove_app", '_', name);
  }

  /** Lower-casing a tag gives "ove_app_" followed by the app name. */
  lemma LoweredTag(k: AppKind)
    ensures Lower(Tag(k)) == "ove_app" + ['_'] + AppName(k)
  {
    match k
    case Maps => LowerTagMaps();
    case Images => LowerTagImages();
    case Html => LowerTagHtml();
    case Videos => LowerTagVideos();
    case Networks => LowerTagNetworks();
    case Charts => LowerTagCharts();
    case Svg => LowerTagSvg();
    case Whiteboard => LowerTagWhiteboard();
    case Pdf => LowerTagPdf();
    case Audio => LowerTagAudio();
    case QrCodes => LowerTagQrCodes();
  }

  /** Each class's tag names its own app: lowering and splitting it gives back the app name. */
  lemma TagRoundTrip(k: AppKind)
    ensures TagAppType(Tag(k)) == AppName(k)
    ensures KindOf(TagAppType(Tag(k))) == Some(k)
  {
    LoweredTag(k);
    LoweredTagSplits(Tag(k), AppName(k));
    AppNameAccepted(k);
  }

  // One lemma per tag keeps each literal computation in a proof obligation of its own.
  lemma LowerTagMaps()
    ensures Lower(Tag(Maps)) == "ove_app" + ['_'] + AppName(Maps)
  {
    assert Lower("OVE_APP_MAPS") == "ove_app_maps";
  }

  lemma LowerTagImages()
    ensures Lower(Tag(Images)) == "ove_app" + ['_'] + AppName(Images)
  {
    assert Lower("OVE_APP_IMAGES") == "ove_app_images";
  }

  lemma LowerTagHtml()
    ensures Lower(Tag(Html)) == "ove_app" + ['_'] + AppName(Html)
  {
    assert Lower("OVE_APP_HTML") == "ove_app_html";
  }

  lemma LowerTagVideos()
    ensures Lower(Tag(Videos)) == "ove_app" + ['_'] + AppName(Videos)
  {
    assert Lower("OVE_APP_VIDEOS") == "ove_app_videos";
  }

  lemma LowerTagNetworks()
    ensures Lower(Tag(Networks)) == "ove_app" + ['_'] + AppName(Networks)
  {
    assert Lower("OVE_APP_NETWORKS") == "ove_app_networks";
  }

  lemma LowerTagCharts()
    ensures Lower(Tag(Charts)) == "ove_app" + ['_'] + AppName(Charts)
  {
    assert Lower("OVE_APP_CHARTS") == "ove_app_charts";
  }

  lemma LowerTagSvg()
    ensures Lower(Tag(Svg)) == "ove_app" + ['_'] + AppName(Svg)
  {
    assert Lower("OVE_APP_SVG") == "ove_app_svg";
  }

  lemma LowerTagWhiteboard()
    ensures Lower(Tag(Whiteboard)) == "ove_app" + ['_'] + AppName(Whiteboard)
  {
    assert Lower("OVE_APP_WHITEBOARD") == "ove_app_whiteboard";
  }

  lemma LowerTagPdf()
    ensures Lower(Tag(Pdf)) == "ove_app" + ['_'] + AppName(Pdf)
  {
    assert Lower("OVE_APP_PDF") == "ove_app_pdf";
  }

  lemma LowerTagAudio()
    ensures Lower(Tag(Audio)) == "ove_app" + ['_'] + AppName(Audio)
  {
    assert Lower("OVE_APP_AUDIO") == "ove_app_audio";
  }

  lemma LowerTagQrCodes()
    ensures Lower(Tag(QrCodes)) == "ove_app" + ['_'] + AppName(QrCodes)
  {
    assert Lower("OVE_APP_QRCODES") == "ove_app_qrcodes";
  }
}
