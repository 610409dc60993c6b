/**
 * The layout document of a space: what `Space.to_json` writes and how
 * `load_json` replays it, record by record, through `add_section` and the
 * setters. The replay is given as written (`fixed == false`) and as evidently
 * intended (`fixed == true`); the `Space` class follows the former.
 */
module Document {
  import opened Wrappers
  import opened Json
  import opened Text
  import opened Apps
  import opened Grid
  import opened Sections
  import opened Client
  import opened Placement

  // ---- writing ----

  /** `[section.to_json() for section in sections]`, or None when one of them raises. */
  function SectionsJson(vs: seq<SectionView>): (r: Option<seq<Value>>)
    ensures r.Some? <==> forall i :: 0 <= i < |vs| ==> SectionJson(vs[i]).Some?
    ensures r.Some? ==> |r.value| == |vs| && forall i :: 0 <= i < |vs| ==> r.value[i] == SectionJson(vs[i]).value
  {
    if |vs| == 0 then Some([])
    else if SectionJson(vs[0]).None? then None
    else
      var rest := SectionsJson(vs[1..]);
      if rest.None? then
        assert forall i :: 0 <= i < |vs| - 1 ==> vs[1..][i] == vs[i + 1];
        None
      else Some([SectionJson(vs[0]).value] + rest.value)
  }

  /** `Space.to_json` before the text encoding: the title, and the sections in order. */
  function SpaceJson(title: string, vs: seq<SectionView>): (r: Option<Value>)
    ensures r.Some? <==> SectionsJson(vs).Some?
    ensures r.Some? ==> Item(Item(r, "Attribution"), "Title") == Some(JStr(title))
    ensures r.Some? ==> Item(r, "Sections") == Some(JArr(SectionsJson(vs).value))
  {
    match SectionsJson(vs)
    case None => None
    case Some(items) =>
      Some(JObj(["Attribution", "Sections"],
                map["Attribution" := JObj(["Title"], map["Title" := JStr(title)]), "Sections" := JArr(items)]))
  }

  /**
   * Every section of a written document carries the fixed space name and the
   * rectangle of its `section_data`, in the order of the sections.
   */
  lemma WrittenSectionsInOrder(title: string, vs: seq<SectionView>, i: int)
    requires SpaceJson(title, vs).Some?
    requires 0 <= i < |vs|
    ensures var items := Item(SpaceJson(title, vs), "Sections").value.items;
            |items| == |vs| &&
            Lookup(items[i], "space") == Some(JStr("OVE_SPACE")) &&
            Lookup(items[i], "w") == Some(JInt(vs[i].data.w)) && Lookup(items[i], "h") == Some(JInt(vs[i].data.h)) &&
            Lookup(items[i], "x") == Some(JInt(vs[i].data.x)) && Lookup(items[i], "y") == Some(JInt(vs[i].data.y))
  {
  }

  // ---- reading, one record at a time ----

  /**
   * Iterating over `data["Sections"]`: a list yields its items, a dictionary
   * its keys and a string its characters; anything else, or a document without
   * "Sections", raises.
   */
  function SectionRecords(doc: Value): (r: Option<seq<Value>>)
    ensures Lookup(doc, "Sections").None? ==> r.None?
    ensures Lookup(doc, "Sections").Some? && Lookup(doc, "Sections").value.JArr? ==> r == Some(Lookup(doc, "Sections").value.items)
    ensures r.Some? ==> forall i :: 0 <= i < |r.value| ==> r.value[i].JStr? || Lookup(doc, "Sections").value.JArr?
  {
    match Lookup(doc, "Sections")
    case None => None
    case Some(JArr(items)) => Some(items)
    case Some(JObj(keys, _)) => Some(seq(|keys|, i requires 0 <= i < |keys| => JStr(keys[i])))
    case Some(JStr(s)) => Some(seq(|s|, i requires 0 <= i < |s| => JStr([s[i]])))
    case Some(_) => None
  }

  /** `section_data["app"]["url"].lower().split("_")[-1]`; None when the url is missing or not a string. */
  function RecordAppType(rec: Value): (r: Option<string>)
    ensures r.Some? <==> Item(Item(Some(rec), "app"), "url").Some? && Item(Item(Some(rec), "app"), "url").value.JStr?
    ensures r.Some? ==> r.value == TagAppType(Item(Item(Some(rec), "app"), "url").value.s)
  {
    match Item(Item(Some(rec), "app"), "url")
    case Some(JStr(url)) => Some(TagAppType(url))
    case _ => None
  }

  /** The four coordinates `load_json` passes to `add_section`, as they are in the document. */
  datatype Rect = Rect(w: Value, h: Value, x: Value, y: Value)

  function RecordRect(rec: Value): (r: Option<Rect>)
    ensures r.Some? <==> rec.JObj? && "w" in rec.entries && "h" in rec.entries && "x" in rec.entries && "y" in rec.entries
    ensures r.Some? ==> r.value == Rect(rec.entries["w"], rec.entries["h"], rec.entries["x"], rec.entries["y"])
  {
    match (Lookup(rec, "w"), Lookup(rec, "h"), Lookup(rec, "x"), Lookup(rec, "y"))
    case (Some(w), Some(h), Some(x), Some(y)) => Some(Rect(w, h, x, y))
    case _ => None
  }

  /** `section_data["app"]["states"]["load"]`. */
  function LoadState(rec: Value): Option<Value> {
    Item(Item(Item(Some(rec), "app"), "states"), "load")
  }

  /** The address pieces of the space a document is loaded into. */
  datatype Target = Target(root: string, spaceName: string, geometry: Geometry)

  /**
   * The effect of one record: the section it appended (if any, as it stands
   * after its setter), the requests asked of the client, and whether the
   * replay goes on.
   */
  datatype Step = Step(view: Option<SectionView>, requests: seq<Request>, ok: bool)

  /** `add_section(w, h, x, y, app_type)` on coordinates from a document. */
  function PlaceRecord(t: Target, appType: string, rect: Rect, offline: bool, uuid: string, reply: Option<string>): (r: Step)
    ensures r.view.Some? ==> r.ok && AppName(r.view.value.kind) == appType
    ensures r.view.Some? ==> r.view.value == InitialView(r.view.value.id, r.view.value.data, r.view.value.kind)
    ensures r.view.Some? ==> rect == Rect(JInt(r.view.value.data.w), JInt(r.view.value.data.h), JInt(r.view.value.data.x), JInt(r.view.value.data.y))
    ensures r.view.None? && r.ok <==> AdmitValues(appType, rect.w, rect.h, rect.x, rect.y, t.geometry).Refused?
  {
    match AdmitValues(appType, rect.w, rect.h, rect.x, rect.y, t.geometry)
    case Raises => Step(None, [], false)
    case Refused(_) => Step(None, [], true)
    case Admitted(kind) =>
      var p := Placing(t.root, t.spaceName, t.geometry, rect.w.i, rect.h.i, rect.x.i, rect.y.i, appType, false);
      var added := AddEffect(p, offline, uuid, reply);
      Step(if added.Created? then Some(added.view) else None, AddRequests(p, added), added.Created?)
  }

  /** Which branch of the if-chain runs for a record: nothing, an exception, or a setter call. */
  datatype Restore = Skip | Raise | Call(call: SetterCall)

  /** `section.set_url(state["url"])`. */
  function UrlCall(state: Value): Restore {
    match Lookup(state, "url")
    case Some(url) => Call(SetUrl(url))
    case None => Raise
  }

  /**
   * The load state a section of a class with a state setter writes while that
   * setter was never called: {} for maps, networks and charts, and a video's
   * initial url {} under "url".
   */
  predicate NeverSet(appType: string, state: Value) {
    (appType in {"maps", "networks", "charts"} && state == EmptyObj) || (appType == "videos" && state == UrlLoad(EmptyObj))
  }

  /**
   * The if-chain of `load_json` on the lower-cased app type, with the
   * arguments it reads from the load state. As written, the svg and pdf
   * branches compare with "SVG" and "PDF", audio calls a method its class
   * lacks, and a state that was never set is fed to the setter; `fixed`
   * compares with the lower-case names, restores the audio url and leaves a
   * never-set state as the new section has it.
   */
  function RestoreCall(appType: string, state: Value, fixed: bool): (r: Restore)
    ensures appType !in AppNames && appType != "SVG" && appType != "PDF" ==> r == Skip
    ensures appType == "whiteboard" ==> r == Skip
    ensures appType == "audio" && !fixed ==> r == Raise
    ensures fixed && NeverSet(appType, state) ==> r == Skip
    ensures (appType in {"maps", "images", "html", "videos", "networks", "charts", "qrcodes"} &&
             !(fixed && NeverSet(appType, state))) ==> !r.Skip?
    ensures r.Call? ==> !r.call.Untouched?
    ensures r.Call? && r.call.SetPosition? ==> appType == "maps"
    ensures r.Call? && r.call.SetData? ==> appType == "networks"
    ensures r.Call? && r.call.SetSpecification? ==> appType == "charts"
    ensures r.Call? && r.call.SetUrl? ==>
              appType in {"images", "html", "videos", "qrcodes", "SVG", "PDF"} || (fixed && appType in {"svg", "pdf", "audio"})
    ensures r.Call? && r.call.SetUrl? ==> Lookup(state, "url") == Some(r.call.url) || appType == "images"
  {
    if fixed && NeverSet(appType, state) then Skip
    else if appType == "maps" then
      var center := Lookup(state, "center");
      var latitude := if center.Some? then At(center.value, 0) else None;
      var longitude := if center.Some? then At(center.value, 1) else None;
      var resolution := Lookup(state, "resolution");
      var zoom := Lookup(state, "zoom");
      if latitude.Some? && longitude.Some? && resolution.Some? && zoom.Some? then
        Call(SetPosition(latitude.value, longitude.value, resolution.value, zoom.value))
      else Raise
    else if appType == "images" then
      var url := Item(Item(Lookup(state, "config"), "tileSources"), "url");
      if url.Some? then Call(SetUrl(url.value)) else Raise
    else if appType == "html" then UrlCall(state)
    else if appType == "videos" then UrlCall(state)
    else if appType == "networks" then
      var settings := Lookup(state, "settings");
      var color := Item(settings, "defaultNodeColor");
      var rescale := Item(settings, "autoRescale");
      if color.Some? && rescale.Some? then
        Call(SetData(GetOr(state, "jsonURL", JStr("")).value, GetOr(state, "gexfURL", JStr("")).value, color.value, rescale.value))
      else Raise
    else if appType == "charts" then
      if state.JObj? then
        Call(SetSpecification(GetOr(state, "specURL", JBool(false)).value, GetOr(state, "spec", JBool(false)).value,
                              GetOr(state, "options", JBool(false)).value))
      else Raise
    else if appType == (if fixed then "svg" else "SVG") then UrlCall(state)
    else if appType == "whiteboard" then Skip
    else if appType == (if fixed then "pdf" else "PDF") then UrlCall(state)
    else if appType == "audio" then (if fixed then UrlCall(state) else Raise)
    else if appType == "qrcodes" then UrlCall(state)
    else Skip
  }

  /** The branch run on the section `add_section` returned: a setter on `False` raises. */
  function Finish(t: Target, placed: Step, restore: Restore): (r: Step)
    requires placed.ok
    ensures |placed.requests| <= |r.requests| && r.requests[..|placed.requests|] == placed.requests
    ensures r.view.Some? ==> placed.view.Some? && r.view.value.kind == placed.view.value.kind
    ensures restore.Skip? ==> r == placed
    ensures restore.Raise? ==> r == placed.(ok := false)
    ensures r.ok ==> r.view.Some? == placed.view.Some?
  {
    match restore
    case Skip => placed
    case Raise => placed.(ok := false)
    case Call(call) =>
      match placed.view
      case None => placed.(ok := false)
      case Some(v) =>
        match Apply(v, call)
        case None => placed.(ok := false)
        case Some(after) => Step(Some(after), placed.requests + CallRequests(BaseUrl(t.root, v.kind), v, call), true)
  }

  /** A setter call on a created section: the replay goes on exactly when the setter accepts the call, and then sends its requests. */
  lemma FinishCalled(t: Target, placed: Step, call: SetterCall)
    requires placed.ok && placed.view.Some?
    ensures var v, r := placed.view.value, Finish(t, placed, Call(call));
            (r.ok <==> Apply(v, call).Some?) &&
            (r.ok ==> r.view == Apply(v, call) && r.requests == placed.requests + CallRequests(BaseUrl(t.root, v.kind), v, call)) &&
            (!r.ok ==> r == placed.(ok := false))
  {
  }

  /**
   * What follows `add_section` in one iteration of the loop of `load_json`,
   * given the step it took and the record's load state. As written, a record
   * without a load state raises, and a setter runs even when `add_section`
   * returned `False`; `fixed` reads a missing load state as nothing and skips
   * the setter of a section that was not created.
   */
  function AfterPlacement(t: Target, placed: Step, appType: string, state: Option<Value>, fixed: bool): (r: Step)
    ensures |placed.requests| <= |r.requests| && r.requests[..|placed.requests|] == placed.requests
    ensures !placed.ok ==> r == placed
    ensures !fixed && placed.ok && state.None? ==> r == placed.(ok := false)
    ensures r.view.Some? ==> placed.view.Some? && r.view.value.kind == placed.view.value.kind
  {
    if !placed.ok then placed
    else if fixed && placed.view.None? then placed
    else
      match state
      case None => if fixed then Finish(t, placed, RestoreCall(appType, JNull, fixed)) else placed.(ok := false)
      case Some(s) => Finish(t, placed, RestoreCall(appType, s, fixed))
  }

  /** One iteration of the loop of `load_json`: a record's section is added, then its load state is restored. */
  function ReplayRecord(t: Target, rec: Value, offline: bool, uuid: string, reply: Option<string>, fixed: bool): (r: Step)
    ensures RecordAppType(rec).None? || RecordRect(rec).None? ==> r == Step(None, [], false)
    ensures r.view.Some? ==> Some(AppName(r.view.value.kind)) == RecordAppType(rec)
  {
    var appType, rect := RecordAppType(rec), RecordRect(rec);
    if appType.None? || rect.None? then Step(None, [], false)
    else AfterPlacement(t, PlaceRecord(t, appType.value, rect.value, offline, uuid, reply), appType.value, LoadState(rec), fixed)
  }

  // ---- reading a whole document ----

  /** The sections appended, the requests asked for, and whether the loop ran to its end. */
  datatype Replayed = Replayed(views: seq<SectionView>, requests: seq<Request>, ok: bool)

  function Appended(view: Option<SectionView>): seq<SectionView> {
    if view.Some? then [view.value] else []
  }

  /**
   * The first `n` iterations of the loop over records whose effects are
   * `steps`: it stops at the first record that raises.
   */
  function Accumulate(steps: seq<Step>, n: nat): (r: Replayed)
    requires n <= |steps|
    ensures |r.views| <= n
  {
    if n == 0 then Replayed([], [], true)
    else
      var before := Accumulate(steps, n - 1);
      if !before.ok then before
      else Replayed(before.views + Appended(steps[n - 1].view), before.requests + steps[n - 1].requests, steps[n - 1].ok)
  }

  /** What each record does on its own; the record with index `i` gets the id `uuids(i)` offline and `replies(i)` online. */
  function Steps(t: Target, recs: seq<Value>, offline: bool, uuids: nat -> string, replies: nat -> Option<string>, fixed: bool): (steps: seq<Step>)
    ensures |steps| == |recs|
  {
    seq(|recs|, i requires 0 <= i < |recs| => ReplayRecord(t, recs[i], offline, uuids(i), replies(i), fixed))
  }

  /** `load_json` on a parsed document. */
  function Replay(t: Target, doc: Value, offline: bool, uuids: nat -> string, replies: nat -> Option<string>, fixed: bool): (r: Replayed)
    ensures SectionRecords(doc).None? ==> r == Replayed([], [], false)
  {
    match SectionRecords(doc)
    case None => Replayed([], [], false)
    case Some(recs) => Accumulate(Steps(t, recs, offline, uuids, replies, fixed), |recs|)
  }

  /** Once a record raises, the later records change nothing: `load_json` has stopped. */
  lemma {:induction false} StoppedReplayStays(steps: seq<Step>, n: nat, m: nat)
    requires n <= m <= |steps|
    requires !Accumulate(steps, n).ok
    ensures Accumulate(steps, m) == Accumulate(steps, n)
    decreases m - n
  {
    if n < m {
      StoppedReplayStays(steps, n, m - 1);
    }
  }

  /** Where the loop of `load_json` stops, at the end or at the first record that raises, the replay is complete. */
  lemma ReplayStopped(steps: seq<Step>, i: nat)
    requires i <= |steps|
    requires i == |steps| || !Accumulate(steps, i).ok
    ensures Accumulate(steps, i) == Accumulate(steps, |steps|)
  {
    if i < |steps| {
      StoppedReplayStays(steps, i, |steps|);
    }
  }

  /** `b` continues `a`: its sections and requests start with those of `a`. */
  predicate Continues(a: Replayed, b: Replayed) {
    a.views <= b.views && a.requests <= b.requests
  }

  /** Replaying more records only appends: earlier sections and requests stay as they were. */
  lemma {:induction false} ReplayExtends(steps: seq<Step>, n: nat, m: nat)
    requires n <= m <= |steps|
    ensures Continues(Accumulate(steps, n), Accumulate(steps, m))
    decreases m - n
  {
    if n < m {
      ReplayExtends(steps, n, m - 1);
      var a := Accumulate(steps, n);
      var b := Accumulate(steps, m - 1);
      var c := Accumulate(steps, m);
      PrefixTransitive(a.views, b.views, c.views);
      PrefixTransitive(a.requests, b.requests, c.requests);
    }
  }

  lemma PrefixTransitive<T>(a: seq<T>, b: seq<T>, c: seq<T>)
    requires a <= b && b <= c
    ensures a <= c
  {
    assert c[..|a|] == b[..|a|];
  }
}
