/**
 * What survives a save and a load: a section written by `Space.to_json` and
 * replayed by `load_json` into a space with the same address, name and
 * canvas, given the same ids. The as-written replay restores maps, images,
 * HTML, QR codes, networks, charts and videos, and loses or aborts on the
 * others; the intended replay restores every class. A section is described
 * by its last setter call only: by `Sections.HistoryIsLastCall`, a history
 * of accepted calls leaves the section as its last call alone would.
 */
module RoundTrip {
  import opened Wrappers
  import opened Json
  import opened Text
  import opened Apps
  import opened Grid
  import opened Sections
  import opened Client
  import opened Placement
  import opened Document

  /** How a section came to be: `add_section` in the target space with this id, then its last setter call (or none). */
  datatype Made = Made(id: string, w: int, h: int, x: int, y: int, kind: AppKind, call: SetterCall)

  function MadeInitial(t: Target, m: Made): SectionView {
    InitialView(m.id, SectionData(t.spaceName, m.w, m.h, m.x, m.y, AppUrl(t.root, AppName(m.kind))), m.kind)
  }

  function MadeView(t: Target, m: Made): Option<SectionView> {
    Apply(MadeInitial(t, m), m.call)
  }

  /** The rectangle lies within the canvas, so `add_section` accepts it. */
  predicate Fits(t: Target, m: Made) {
    m.x + m.w <= t.geometry.width && m.y + m.h <= t.geometry.height
  }

  /**
   * The sections a replay restores exactly. As written: maps, networks and
   * charts after their setter, images and videos after `set_url`, HTML and QR
   * codes always, and svg and pdf only while their url was never set. Fixed:
   * also maps, networks, charts and videos whose setter was never called, svg
   * and pdf after `set_url`, audio, and the whiteboard.
   */
  predicate Restorable(m: Made, fixed: bool) {
    match m.kind
    case Maps => m.call.SetPosition? || (fixed && m.call.Untouched?)
    case Images => m.call.SetUrl?
    case Html => m.call.Untouched? || m.call.SetUrl?
    case QrCodes => m.call.Untouched? || m.call.SetUrl?
    case Videos => (m.call.SetUrl? && m.call.url.JStr?) || (fixed && m.call.Untouched?)
    case Networks => m.call.SetData? || (fixed && m.call.Untouched?)
    case Charts => m.call.SetSpecification? || (fixed && m.call.Untouched?)
    case Svg => m.call.Untouched? || (fixed && m.call.SetUrl?)
    case Pdf => m.call.Untouched? || (fixed && m.call.SetUrl?)
    case Audio => fixed && (m.call.Untouched? || m.call.SetUrl?)
    case Whiteboard => fixed && m.call.Untouched?
  }

  /** The load state a replay reads from a written section; `JNull` for a whiteboard, which writes none. */
  function LoadOf(v: SectionView): Value
    requires AppJson(v).Some?
  {
    var load := Item(Item(AppJson(v), "states"), "load");
    if load.Some? then load.value else JNull
  }

  /** A section as a replay branch leaves a freshly added one; None when the branch raises. */
  function Restored(v0: SectionView, restore: Restore): Option<SectionView> {
    match restore
    case Skip => Some(v0)
    case Raise => None
    case Call(call) => Apply(v0, call)
  }

  /** A written section record yields the app type, the rectangle and the load state it was written from. */
  lemma RecordFields(v: SectionView)
    requires SectionJson(v).Some?
    ensures var rec := SectionJson(v).value;
            RecordAppType(rec) == Some(AppName(v.kind)) &&
            RecordRect(rec) == Some(Rect(JInt(v.data.w), JInt(v.data.h), JInt(v.data.x), JInt(v.data.y))) &&
            LoadState(rec) == Item(Item(AppJson(v), "states"), "load")
  {
    TagRoundTrip(v.kind);
  }

  /** The branch for a restorable section's load state performs a call with the same effect as the original one. */
  lemma LoadRestores(t: Target, m: Made, fixed: bool)
    requires Restorable(m, fixed)
    ensures MadeView(t, m).Some? && AppJson(MadeView(t, m).value).Some?
    ensures Restored(MadeInitial(t, m), RestoreCall(AppName(m.kind), LoadOf(MadeView(t, m).value), fixed)) == MadeView(t, m)
  {
    if m.kind in {Maps, Images, Networks, Charts} {
      StateLoadRestores(t, m, fixed);
    } else {
      UrlLoadRestores(t, m, fixed);
    }
  }

  /** `LoadRestores` for the classes whose setter builds a state. */
  lemma StateLoadRestores(t: Target, m: Made, fixed: bool)
    requires Restorable(m, fixed) && m.kind in {Maps, Images, Networks, Charts}
    ensures MadeView(t, m).Some? && AppJson(MadeView(t, m).value).Some?
    ensures Restored(MadeInitial(t, m), RestoreCall(AppName(m.kind), LoadOf(MadeView(t, m).value), fixed)) == MadeView(t, m)
  {
    if m.call.Untouched? {
      NeverSetLoadRestores(t, m);
    } else if m.kind == Maps {
      MapLoadRestores(t, m, fixed);
    } else if m.kind == Images {
      ImageLoadRestores(t, m, fixed);
    } else if m.kind == Networks {
      NetworkStateReplays(m.call.jsonUrl, m.call.gexfUrl, m.call.defaultNodeColor, m.call.autoRescale);
      NetworkLoadRestores(t, m, fixed);
    } else {
      ChartStateReplays(m.call.specUrl, m.call.spec, m.call.options);
      ChartLoadRestores(t, m, fixed);
    }
  }

  /** As intended, a map, network or chart whose setter was never called is left as `add_section` recreates it. */
  lemma NeverSetLoadRestores(t: Target, m: Made)
    requires m.kind in {Maps, Networks, Charts} && m.call.Untouched?
    ensures MadeView(t, m).Some? && AppJson(MadeView(t, m).value).Some?
    ensures Restored(MadeInitial(t, m), RestoreCall(AppName(m.kind), LoadOf(MadeView(t, m).value), true)) == MadeView(t, m)
  {
  }

  lemma MapLoadRestores(t: Target, m: Made, fixed: bool)
    requires Restorable(m, fixed) && m.kind == Maps && !m.call.Untouched?
    ensures MadeView(t, m).Some? && AppJson(MadeView(t, m).value).Some?
    ensures Restored(MadeInitial(t, m), RestoreCall("maps", LoadOf(MadeView(t, m).value), fixed)) == MadeView(t, m)
  {
    var c := m.call;
    MapStateReplays(c.latitude, c.longitude, c.resolution, c.zoom);
  }

  lemma ImageLoadRestores(t: Target, m: Made, fixed: bool)
    requires Restorable(m, fixed) && m.kind == Images
    ensures MadeView(t, m).Some? && AppJson(MadeView(t, m).value).Some?
    ensures Restored(MadeInitial(t, m), RestoreCall("images", LoadOf(MadeView(t, m).value), fixed)) == MadeView(t, m)
  {
  }

  lemma NetworkLoadRestores(t: Target, m: Made, fixed: bool)
    requires Restorable(m, fixed) && m.kind == Networks && !m.call.Untouched?
    requires var s := SetDataEffect(m.call.jsonUrl, m.call.gexfUrl, m.call.defaultNodeColor, m.call.autoRescale).state;
             var settings := Lookup(s, "settings").value;
             SetDataEffect(GetOr(s, "jsonURL", JStr("")).value, GetOr(s, "gexfURL", JStr("")).value,
                           Lookup(settings, "defaultNodeColor").value, Lookup(settings, "autoRescale").value).state == s
    ensures MadeView(t, m).Some? && AppJson(MadeView(t, m).value).Some?
    ensures Restored(MadeInitial(t, m), RestoreCall("networks", LoadOf(MadeView(t, m).value), fixed)) == MadeView(t, m)
  {
  }

  lemma ChartLoadRestores(t: Target, m: Made, fixed: bool)
    requires Restorable(m, fixed) && m.kind == Charts && !m.call.Untouched?
    requires var s := ChartState(m.call.specUrl, m.call.spec, m.call.options);
             ChartState(GetOr(s, "specURL", JBool(false)).value, GetOr(s, "spec", JBool(false)).value,
                        GetOr(s, "options", JBool(false)).value) == s
    ensures MadeView(t, m).Some? && AppJson(MadeView(t, m).value).Some?
    ensures Restored(MadeInitial(t, m), RestoreCall("charts", LoadOf(MadeView(t, m).value), fixed)) == MadeView(t, m)
  {
  }

  /** `LoadRestores` for the classes that keep a url, and the whiteboard. */
  lemma UrlLoadRestores(t: Target, m: Made, fixed: bool)
    requires Restorable(m, fixed) && m.kind !in {Maps, Images, Networks, Charts}
    ensures MadeView(t, m).Some? && AppJson(MadeView(t, m).value).Some?
    ensures Restored(MadeInitial(t, m), RestoreCall(AppName(m.kind), LoadOf(MadeView(t, m).value), fixed)) == MadeView(t, m)
  {
    if m.kind == Videos {
      if m.call.SetUrl? {
        EmbedUrlIdempotent(m.call.url.s);
      }
      VideoLoadRestores(t, m, fixed);
    } else if m.kind == Whiteboard {
      WhiteboardLoadRestores(t, m);
    } else {
      PlainUrlLoadRestores(t, m, fixed);
    }
  }

  lemma VideoLoadRestores(t: Target, m: Made, fixed: bool)
    requires Restorable(m, fixed) && m.kind == Videos
    requires m.call.SetUrl? ==> EmbedUrl(EmbedUrl(m.call.url).value) == EmbedUrl(m.call.url)
    ensures MadeView(t, m).Some? && AppJson(MadeView(t, m).value).Some?
    ensures Restored(MadeInitial(t, m), RestoreCall("videos", LoadOf(MadeView(t, m).value), fixed)) == MadeView(t, m)
  {
    if m.call.SetUrl? {
      var stored := EmbedUrl(m.call.url).value;
      assert MadeView(t, m) == Some(MadeInitial(t, m).(url := stored));
      assert LoadOf(MadeView(t, m).value) == UrlLoad(stored);
      assert stored.JStr? && UrlLoad(stored).entries["url"] == stored != UrlLoad(EmptyObj).entries["url"];
    }
  }

  lemma WhiteboardLoadRestores(t: Target, m: Made)
    requires Restorable(m, true) && m.kind == Whiteboard
    ensures MadeView(t, m).Some? && AppJson(MadeView(t, m).value).Some?
    ensures Restored(MadeInitial(t, m), RestoreCall("whiteboard", LoadOf(MadeView(t, m).value), true)) == MadeView(t, m)
  {
  }

  /** The classes whose url a load state carries as it is: html, QR codes, svg, pdf and audio. */
  lemma PlainUrlLoadRestores(t: Target, m: Made, fixed: bool)
    requires Restorable(m, fixed) && m.kind in {Html, QrCodes, Svg, Pdf, Audio}
    ensures MadeView(t, m).Some? && AppJson(MadeView(t, m).value).Some?
    ensures Restored(MadeInitial(t, m), RestoreCall(AppName(m.kind), LoadOf(MadeView(t, m).value), fixed)) == MadeView(t, m)
  {
    var v0 := MadeInitial(t, m);
    var u := if m.call.SetUrl? then m.call.url else v0.url;
    assert MadeView(t, m) == Some(v0.(url := u));
    assert LoadOf(v0.(url := u)) == UrlLoad(u);
    if !fixed && m.kind in {Svg, Pdf} {
      SvgPdfSkipped(m.kind, UrlLoad(u));
    } else {
      UrlBranch(AppName(m.kind), u, fixed);
    }
  }

  /** The branch for a class that keeps its url passes the stored url back to `set_url`. */
  lemma UrlBranch(appType: string, u: Value, fixed: bool)
    requires appType in {"html", "qrcodes"} || (fixed && appType in {"svg", "pdf", "audio"})
    ensures RestoreCall(appType, UrlLoad(u), fixed) == Call(SetUrl(u))
  {
  }

  /** Feeding a network state's own fields back to `set_data` rebuilds the same state. */
  lemma NetworkStateReplays(jsonUrl: Value, gexfUrl: Value, color: Value, rescale: Value)
    ensures var s := SetDataEffect(jsonUrl, gexfUrl, color, rescale).state;
            var settings := Lookup(s, "settings").value;
            SetDataEffect(GetOr(s, "jsonURL", JStr("")).value, GetOr(s, "gexfURL", JStr("")).value,
                          Lookup(settings, "defaultNodeColor").value, Lookup(settings, "autoRescale").value).state == s
  {
  }

  /** Feeding a chart state's own fields back to `set_specification` rebuilds the same state. */
  lemma ChartStateReplays(specUrl: Value, spec: Value, options: Value)
    ensures var s := ChartState(specUrl, spec, options);
            ChartState(GetOr(s, "specURL", JBool(false)).value, GetOr(s, "spec", JBool(false)).value,
                       GetOr(s, "options", JBool(false)).value) == s
  {
  }

  /** `add_section` on a made section's own coordinates recreates it as it was before its setter call. */
  lemma PlaceMade(t: Target, m: Made, offline: bool, reply: Option<string>)
    requires Fits(t, m)
    requires offline || reply == Some(m.id)
    ensures var placed := PlaceRecord(t, AppName(m.kind), MadeRect(m), offline, m.id, reply);
            placed.ok && placed.view == Some(MadeInitial(t, m))
  {
    AdmitValuesOnInts(AppName(m.kind), m.w, m.h, m.x, m.y, t.geometry);
    AppNameAccepted(m.kind);
  }

  /** The rectangle a made section was added with, as its record carries it. */
  function MadeRect(m: Made): Rect {
    Rect(JInt(m.w), JInt(m.h), JInt(m.x), JInt(m.y))
  }

  /** A made section's record replays as the branch for its load state, run on what `add_section` does with its fields. */
  lemma MadeRecord(t: Target, m: Made, offline: bool, reply: Option<string>, fixed: bool)
    requires MadeView(t, m).Some? && SectionJson(MadeView(t, m).value).Some?
    ensures ReplayRecord(t, SectionJson(MadeView(t, m).value).value, offline, m.id, reply, fixed) ==
            AfterPlacement(t, PlaceRecord(t, AppName(m.kind), MadeRect(m), offline, m.id, reply),
                           AppName(m.kind), Item(Item(AppJson(MadeView(t, m).value), "states"), "load"), fixed)
  {
    RecordFields(MadeView(t, m).value);
  }

  /** When the section fits, that is the branch run on the section `add_section` recreates. */
  lemma MadeRecordReplays(t: Target, m: Made, offline: bool, reply: Option<string>, fixed: bool)
    requires Fits(t, m) && (offline || reply == Some(m.id))
    requires MadeView(t, m).Some? && SectionJson(MadeView(t, m).value).Some?
    ensures var placed := PlaceRecord(t, AppName(m.kind), MadeRect(m), offline, m.id, reply);
            placed.ok && placed.view == Some(MadeInitial(t, m)) &&
            ReplayRecord(t, SectionJson(MadeView(t, m).value).value, offline, m.id, reply, fixed) ==
            AfterPlacement(t, placed, AppName(m.kind), Item(Item(AppJson(MadeView(t, m).value), "states"), "load"), fixed)
  {
    MadeRecord(t, m, offline, reply, fixed);
    PlaceMade(t, m, offline, reply);
  }

  /** A section that does not fit the canvas is refused by `add_section`: no section, no request, and the replay goes on. */
  lemma PlaceOversized(t: Target, m: Made, offline: bool, reply: Option<string>)
    requires !Fits(t, m)
    ensures PlaceRecord(t, AppName(m.kind), MadeRect(m), offline, m.id, reply) == Step(None, [], true)
  {
    AppNameAccepted(m.kind);
  }

  /** The branch run on a created section leaves it as `Restored` says, and goes on exactly when that is defined. */
  lemma FinishRestored(t: Target, placed: Step, restore: Restore)
    requires placed.ok && placed.view.Some?
    ensures Finish(t, placed, restore).ok <==> Restored(placed.view.value, restore).Some?
    ensures Finish(t, placed, restore).ok ==> Finish(t, placed, restore).view == Restored(placed.view.value, restore)
  {
  }

  /** On a created section, the replay runs the branch for the load state it read (`JNull` when there is none, as intended). */
  lemma PlacedFinishes(t: Target, placed: Step, appType: string, state: Option<Value>, fixed: bool)
    requires placed.ok && placed.view.Some? && (state.Some? || fixed)
    ensures AfterPlacement(t, placed, appType, state, fixed) ==
            Finish(t, placed, RestoreCall(appType, if state.Some? then state.value else JNull, fixed))
  {
  }

  /** One restorable section survives being written and replayed, when the replay gives it the same id. */
  lemma RecordRoundTrip(t: Target, m: Made, offline: bool, reply: Option<string>, fixed: bool)
    requires Restorable(m, fixed) && Fits(t, m)
    requires offline || reply == Some(m.id)
    ensures MadeView(t, m).Some? && SectionJson(MadeView(t, m).value).Some?
    ensures var step := ReplayRecord(t, SectionJson(MadeView(t, m).value).value, offline, m.id, reply, fixed);
            step.ok && step.view == MadeView(t, m)
  {
    LoadRestores(t, m, fixed);
    var v := MadeView(t, m).value;
    MadeRecordReplays(t, m, offline, reply, fixed);
    var placed := PlaceRecord(t, AppName(m.kind), MadeRect(m), offline, m.id, reply);
    var state := Item(Item(AppJson(v), "states"), "load");
    var restore := RestoreCall(AppName(m.kind), LoadOf(v), fixed);
    PlacedFinishes(t, placed, AppName(m.kind), state, fixed);
    FinishRestored(t, placed, restore);
  }

  // ---- whole documents ----

  /** The sections of a space, as made. */
  function MadeViews(t: Target, ms: seq<Made>): (vs: seq<SectionView>)
    requires forall i :: 0 <= i < |ms| ==> MadeView(t, ms[i]).Some?
    ensures |vs| == |ms| && forall i :: 0 <= i < |ms| ==> vs[i] == MadeView(t, ms[i]).value
  {
    seq(|ms|, i requires 0 <= i < |ms| => MadeView(t, ms[i]).value)
  }

  /**
   * Every section restorable and within the canvas, and the replay handing
   * out the ids the sections had: `uuids` offline, the service's replies online.
   */
  predicate Reproducible(t: Target, ms: seq<Made>, offline: bool, uuids: nat -> string, replies: nat -> Option<string>, fixed: bool) {
    forall i :: 0 <= i < |ms| ==>
      Restorable(ms[i], fixed) && Fits(t, ms[i]) && uuids(i) == ms[i].id && (offline || replies(i) == Some(ms[i].id))
  }

  /** Records that each go on and append a given section make a replay that appends exactly those sections. */
  lemma {:induction false} AccumulateRestores(steps: seq<Step>, vs: seq<SectionView>, n: nat)
    requires n <= |steps| == |vs|
    requires forall i :: 0 <= i < |steps| ==> steps[i].ok && steps[i].view == Some(vs[i])
    ensures Accumulate(steps, n).ok && Accumulate(steps, n).views == vs[..n]
  {
    if n > 0 {
      AccumulateRestores(steps, vs, n - 1);
      assert vs[..n] == vs[..n - 1] + [vs[n - 1]];
    }
  }

  /**
   * A space whose sections are all restorable, written by `to_json` and
   * loaded by `load_json` into a space with the same address, name and canvas,
   * gets the same sections back in the same order.
   */
  lemma DocumentRoundTrip(t: Target, title: string, ms: seq<Made>, offline: bool,
                          uuids: nat -> string, replies: nat -> Option<string>, fixed: bool)
    requires Reproducible(t, ms, offline, uuids, replies, fixed)
    ensures forall i :: 0 <= i < |ms| ==> MadeView(t, ms[i]).Some?
    ensures SpaceJson(title, MadeViews(t, ms)).Some?
    ensures var r := Replay(t, SpaceJson(title, MadeViews(t, ms)).value, offline, uuids, replies, fixed);
            r.ok && r.views == MadeViews(t, ms)
  {
    forall i | 0 <= i < |ms| ensures MadeView(t, ms[i]).Some? && SectionJson(MadeView(t, ms[i]).value).Some? {
      RecordRoundTrip(t, ms[i], offline, replies(i), fixed);
    }
    var vs := MadeViews(t, ms);
    var recs := SectionsJson(vs).value;
    assert SectionRecords(SpaceJson(title, vs).value) == Some(recs);
    var steps := Steps(t, recs, offline, uuids, replies, fixed);
    forall i | 0 <= i < |recs| ensures steps[i].ok && steps[i].view == Some(vs[i]) {
      RecordRoundTrip(t, ms[i], offline, replies(i), fixed);
    }
    AccumulateRestores(steps, vs, |ms|);
    assert vs[..|ms|] == vs;
  }

  /**
   * As intended, a section is restored exactly when it exists (its setter
   * call was accepted) and `to_json` can write it.
   */
  lemma IntendedRestorable(t: Target, m: Made)
    ensures Restorable(m, true) <==> MadeView(t, m).Some? && SectionJson(MadeView(t, m).value).Some?
  {
  }

  /**
   * With the replay as intended, every space whose sections fit the canvas and
   * that `to_json` can write, replayed with the same ids, comes back whole:
   * every section of every class, whatever setter call made it.
   */
  lemma IntendedRoundTrip(t: Target, title: string, ms: seq<Made>, offline: bool,
                          uuids: nat -> string, replies: nat -> Option<string>)
    requires forall i :: 0 <= i < |ms| ==> Fits(t, ms[i]) && uuids(i) == ms[i].id && (offline || replies(i) == Some(ms[i].id))
    requires forall i :: 0 <= i < |ms| ==> MadeView(t, ms[i]).Some? && SectionJson(MadeView(t, ms[i]).value).Some?
    ensures SpaceJson(title, MadeViews(t, ms)).Some?
    ensures var r := Replay(t, SpaceJson(title, MadeViews(t, ms)).value, offline, uuids, replies, true);
            r.ok && r.views == MadeViews(t, ms)
  {
    forall i | 0 <= i < |ms| ensures Restorable(ms[i], true) {
      IntendedRestorable(t, ms[i]);
    }
    assert Reproducible(t, ms, offline, uuids, replies, true);
    DocumentRoundTrip(t, title, ms, offline, uuids, replies, true);
  }

  // ---- where the as-written replay departs from the written document ----

  /** A lower-cased app type is never "SVG" or "PDF", so those branches of `load_json` never run. */
  lemma UpperCaseBranchesDead(url: string)
    ensures TagAppType(url) != "SVG" && TagAppType(url) != "PDF"
  {
    var r := TagAppType(url);
    if |r| > 0 {
      assert !('A' <= r[0] <= 'Z');
    }
  }

  /** An svg or pdf section whose url was set comes back with the empty url. */
  lemma SvgPdfUrlLost(t: Target, m: Made, offline: bool, reply: Option<string>)
    requires m.kind == Svg || m.kind == Pdf
    requires m.call.SetUrl? && m.call.url != JStr("")
    requires Fits(t, m) && (offline || reply == Some(m.id))
    ensures MadeView(t, m).Some? && SectionJson(MadeView(t, m).value).Some?
    ensures var step := ReplayRecord(t, SectionJson(MadeView(t, m).value).value, offline, m.id, reply, false);
            step.ok && step.view == Some(MadeInitial(t, m)) && step.view != MadeView(t, m)
  {
    var v := MadeView(t, m).value;
    assert SectionJson(v).Some?;
    MadeRecordReplays(t, m, offline, reply, false);
    var placed := PlaceRecord(t, AppName(m.kind), MadeRect(m), offline, m.id, reply);
    var state := Item(Item(AppJson(v), "states"), "load");
    PlacedFinishes(t, placed, AppName(m.kind), state, false);
    SvgPdfSkipped(m.kind, state.value);
  }

  /**
   * As written, a map, network or video whose setter was never called makes
   * the replay raise once the section is added again: the map and network
   * branches look up keys its empty state lacks, and the video's `set_url`
   * gets the dictionary {} as its url.
   */
  lemma NeverSetRecordRaises(t: Target, m: Made, offline: bool, reply: Option<string>)
    requires m.kind in {Maps, Networks, Videos} && m.call.Untouched?
    requires Fits(t, m) && (offline || reply == Some(m.id))
    ensures MadeView(t, m).Some? && SectionJson(MadeView(t, m).value).Some?
    ensures var step := ReplayRecord(t, SectionJson(MadeView(t, m).value).value, offline, m.id, reply, false);
            !step.ok && step.view == Some(MadeInitial(t, m))
  {
    var v := MadeView(t, m).value;
    assert SectionJson(v).Some?;
    MadeRecordReplays(t, m, offline, reply, false);
    var placed := PlaceRecord(t, AppName(m.kind), MadeRect(m), offline, m.id, reply);
    NeverSetBranchRaises(t, placed, m.kind, LoadOf(v));
  }

  /** As written, the branch for a never-set map, network or video state raises once the section is created. */
  lemma NeverSetBranchRaises(t: Target, placed: Step, kind: AppKind, state: Value)
    requires kind in {Maps, Networks, Videos} && NeverSet(AppName(kind), state)
    requires placed.ok && placed.view.Some? && placed.view.value.kind == kind
    ensures AfterPlacement(t, placed, AppName(kind), Some(state), false) == placed.(ok := false)
  {
  }

  /**
   * As written, a chart whose specification was never set comes back with
   * the state `set_specification(False, False, False)` builds, {"options": {}},
   * and that state is pushed.
   */
  lemma NeverSetChartChanges(t: Target, m: Made, offline: bool, reply: Option<string>)
    requires m.kind == Charts && m.call.Untouched?
    requires Fits(t, m) && (offline || reply == Some(m.id))
    ensures MadeView(t, m).Some? && SectionJson(MadeView(t, m).value).Some?
    ensures var step := ReplayRecord(t, SectionJson(MadeView(t, m).value).value, offline, m.id, reply, false);
            var changed := MadeInitial(t, m).(state := ChartState(JBool(false), JBool(false), JBool(false)));
            step.ok && step.view == Some(changed) && step.view != MadeView(t, m) &&
            step.requests == PlaceRecord(t, "charts", MadeRect(m), offline, m.id, reply).requests +
                             PushRequests(BaseUrl(t.root, Charts), changed)
  {
    var v := MadeView(t, m).value;
    assert SectionJson(v).Some?;
    MadeRecordReplays(t, m, offline, reply, false);
    var placed := PlaceRecord(t, "charts", MadeRect(m), offline, m.id, reply);
    NeverSetChartBranch(t, placed);
    assert Lookup(ChartState(JBool(false), JBool(false), JBool(false)), "options").Some?;
  }

  /** As written, the branch for a never-set chart state calls `set_specification(False, False, False)`. */
  lemma NeverSetChartBranch(t: Target, placed: Step)
    requires placed.ok && placed.view.Some? && placed.view.value.kind == Charts
    ensures var changed := placed.view.value.(state := ChartState(JBool(false), JBool(false), JBool(false)));
            AfterPlacement(t, placed, "charts", Some(EmptyObj), false) ==
            Step(Some(changed), placed.requests + PushRequests(BaseUrl(t.root, Charts), changed), true)
  {
  }

  /** As written, no branch of the if-chain runs for svg and pdf. */
  lemma SvgPdfSkipped(kind: AppKind, state: Value)
    requires kind == Svg || kind == Pdf
    ensures RestoreCall(AppName(kind), state, false) == Skip
  {
  }

  /** An audio section makes the replay raise, after it has been added again with an empty url. */
  lemma AudioRecordRaises(t: Target, m: Made, offline: bool, reply: Option<string>)
    requires m.kind == Audio && (m.call.Untouched? || m.call.SetUrl?)
    requires Fits(t, m) && (offline || reply == Some(m.id))
    ensures MadeView(t, m).Some? && SectionJson(MadeView(t, m).value).Some?
    ensures var step := ReplayRecord(t, SectionJson(MadeView(t, m).value).value, offline, m.id, reply, false);
            !step.ok && step.view == Some(MadeInitial(t, m))
  {
    var v := MadeView(t, m).value;
    assert SectionJson(v).Some?;
    MadeRecordReplays(t, m, offline, reply, false);
    assert AppName(m.kind) == "audio";
    AudioBranchRaises(t, PlaceRecord(t, "audio", MadeRect(m), offline, m.id, reply), Item(Item(AppJson(v), "states"), "load"));
  }

  /** As written, the branch for an audio section raises once the section is created. */
  lemma AudioBranchRaises(t: Target, placed: Step, state: Option<Value>)
    requires placed.ok && placed.view.Some? && state.Some?
    ensures AfterPlacement(t, placed, "audio", state, false) == placed.(ok := false)
  {
  }

  /** A whiteboard section makes the replay raise: its record has no load state to read. */
  lemma WhiteboardRecordRaises(t: Target, m: Made, offline: bool, reply: Option<string>)
    requires m.kind == Whiteboard && m.call.Untouched?
    requires Fits(t, m) && (offline || reply == Some(m.id))
    ensures MadeView(t, m).Some? && SectionJson(MadeView(t, m).value).Some?
    ensures var step := ReplayRecord(t, SectionJson(MadeView(t, m).value).value, offline, m.id, reply, false);
            !step.ok && step.view == Some(MadeInitial(t, m))
  {
    assert SectionJson(MadeView(t, m).value).Some?;
    MadeRecordReplays(t, m, offline, reply, false);
  }

  /**
   * A section that does not fit the canvas (one added with
   * `allow_oversized_section`, say) is refused on replay; as written the
   * replay then calls the setter on `False` and raises, without a request.
   */
  lemma OversizedRecordRaises(t: Target, m: Made, offline: bool, reply: Option<string>)
    requires m.kind in {Maps, Images, Html, Videos, Networks, Charts, QrCodes} && Restorable(m, false)
    requires !Fits(t, m)
    ensures MadeView(t, m).Some? && SectionJson(MadeView(t, m).value).Some?
    ensures ReplayRecord(t, SectionJson(MadeView(t, m).value).value, offline, m.id, reply, false) == Step(None, [], false)
  {
    LoadRestores(t, m, false);
    MadeRecord(t, m, offline, reply, false);
    PlaceOversized(t, m, offline, reply);
    RefusedRaises(t, AppName(m.kind), LoadOf(MadeView(t, m).value));
  }

  /** The intended replay skips the record of a section that does not fit: nothing added, nothing requested, and it goes on. */
  lemma OversizedRecordSkipped(t: Target, m: Made, offline: bool, reply: Option<string>)
    requires Restorable(m, true) && !Fits(t, m)
    ensures MadeView(t, m).Some? && SectionJson(MadeView(t, m).value).Some?
    ensures ReplayRecord(t, SectionJson(MadeView(t, m).value).value, offline, m.id, reply, true) == Step(None, [], true)
  {
    LoadRestores(t, m, true);
    MadeRecord(t, m, offline, reply, true);
    PlaceOversized(t, m, offline, reply);
  }

  /** As written, the branch of a class whose branch never skips raises on a section that was not created. */
  lemma RefusedRaises(t: Target, appType: string, state: Value)
    requires appType in {"maps", "images", "html", "videos", "networks", "charts", "qrcodes"}
    ensures AfterPlacement(t, Step(None, [], true), appType, Some(state), false) == Step(None, [], false)
  {
  }
}
