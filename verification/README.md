# OVE SDK: the space, its sections and the layout document

This project models the core of the Python SDK for OVE (Open Visualisation
Environment). A `Space` stands for one OVE space, a wall of display clients
that together form one pixel canvas. A user of the SDK:

- lays out sections on the canvas, either in pixels or in cells of a grid the
  space derives from the canvas;
- hosts one app in each section: maps, images, html, videos, networks,
  charts, svg, whiteboard, pdf, audio or QR codes;
- sets each section's content through its class's setter;
- writes the whole layout as a JSON document and replays such a document
  into a space.

Every request goes through a `RestClient`. Offline it sends nothing, and it
opens a browser only when browser opening is enabled.

The model has these modules:

- `Json`: JSON values and the Python lookups the SDK performs on them, where a lookup that raises becomes `None`.
- `Text`: the string operations used: `lower`, `split(...)[-1]`, `replace` and `startswith`.
- `Apps`: the eleven app kinds, their names and their document tags.
- `Client`: the requests a `RestClient` lets through, and the class itself, whose `log` records every request sent and every page opened.
- `Grid`: the reduction of `get_geometry` over the display clients, and the cell size of `set_grid`.
- `Sections`: what each section class stores, what each setter does to a section, the requests each setter makes, and `get_app_json` and `to_json`.
- `Placement`: the checks, the addresses and the id that `add_section` and `add_section_by_grid` use.
- `Document`: `Space.to_json`, and `load_json` replayed record by record. The replay exists in two versions: as written (`fixed == false`) and as evidently intended (`fixed == true`).
- `RoundTrip`: what survives writing a space and loading the result back, under each version.
- `Ove`: the `Space` and `Section` classes. They change their grid, their section list and each section's `url` and `state` in place. Every method is proved against the functions above.

## Model

| member | source | states |
|---|---|---|
| Json.Lookup | python/ove/ove.py:154-158 | `d[key]` yields a value exactly when `d` is a dictionary holding the key; that value is the one stored under the key |
| Json.Item | python/ove/ove.py:154-158 | chained subscripts such as `section_data["app"]["states"]["load"]` yield a value exactly when every step does |
| Json.GetOr | python/ove/ove.py:174 | `state.get(key, default)` works only on a dictionary, and yields the stored value if there is one and the default otherwise |
| Json.At | python/ove/ove.py:161 | `state["center"][0]` indexes a list or a string within bounds; a list yields its element |
| Json.PyStrForms | python/ove/ove.py:558-560 | `str` of a value, as `set_position` and the `%s` of a control address use it: a string is itself; `None`, `True` and `False` are their names; an int is its digits; a list is bracketed and a dictionary braced |
| Json.FalsyValues | python/ove/ove.py:592-637 | the tests `if json_url`, `if not options` and `if spec_url` fail exactly on `None`, `False`, `0`, `""`, `[]` and `{}` |
| Json.IntToString | python/ove/ove.py:85 | the port formats as a non-empty string of digits, with a leading minus when it is negative |
| Text.Lower | python/ove/ove.py:154 | `lower()` keeps the length |
| Text.LowerHasNoUpper | python/ove/ove.py:154 | a lower-cased string holds no upper-case letter |
| Text.LastSegment | python/ove/ove.py:154 | `split("_")[-1]` is a suffix without `_`; when it is shorter than the string, a `_` precedes it |
| Text.LastSegmentAfter | python/ove/ove.py:154 | the last segment after a separator is exactly the tail that follows it |
| Text.ReplaceAll | python/ove/ove.py:521-522 | `replace` changes the length by the length difference once per non-overlapping occurrence; every character of the result comes from the string or from the replacement; a string that starts with the pattern starts with the replacement afterwards |
| Text.ReplaceAllKeepsPrefix | python/ove/ove.py:521-522 | `replace` copies a prefix that the pattern cannot begin in, and rewrites only what follows it |
| Text.ReplaceAllAbsent | python/ove/ove.py:521-525 | `replace` leaves a string without the pattern unchanged |
| Apps.KindOf | python/ove/ove.py:114-138 | the if-chain of `add_section` picks a class exactly for the names in `apps`, and the chosen class has that app name |
| Apps.AppNameAccepted | python/ove/ove.py:37 | every class's name from `get_base_url` is in `apps` and selects that class again |
| Apps.TagAppType | python/ove/ove.py:154 | the app type derived from a tag has no `_` and no upper-case letter |
| Apps.LoweredTagSplits | python/ove/ove.py:154 | a tag that lowers to `ove_app_` followed by a name yields that name |
| Apps.LoweredTag | python/ove/ove.py:354-358 | each class's tag lowers to `ove_app_` followed by its app name |
| Apps.TagRoundTrip | python/ove/ove.py:154 | the app type `load_json` derives from the tag a class writes is that class's name, and `add_section` maps it back to that class |
| Client.Issued | python/ove/ove.py:660-694 | an offline client sends nothing; a page is opened only when browser opening is on; online, every other request is sent as asked |
| Client.IssuedAll | python/ove/ove.py:660-694 | an offline client lets no request through, and no client sends more than it is asked for |
| Client.IssuedAllAppend | python/ove/ove.py:660-694 | the client gates each request on its own, so a sequence of requests is gated piece by piece |
| Client.RestClient.constructor | python/ove/ove.py:655-658 | the flags are taken as given, by default offline with browser opening on, and nothing has been sent yet |
| Client.RestClient.Get | python/ove/ove.py:660-668 | the log grows by the GET exactly when the client is online |
| Client.RestClient.Post | python/ove/ove.py:670-678 | the log grows by the POST and its body exactly when the client is online |
| Client.RestClient.Delete | python/ove/ove.py:680-687 | the log grows by the DELETE exactly when the client is online |
| Client.RestClient.OpenBrowser | python/ove/ove.py:689-694 | the page is opened only when the client is online and browser opening is on |
| Grid.MaxOf | python/ove/ove.py:57-58 | `max` of a non-empty list is one of its elements and bounds all of them |
| Grid.GetGeometry | python/ove/ove.py:51-61 | width and height are the furthest right and bottom edges, reached by some client; the column and row counts are the numbers of distinct x and y origins; an empty space raises |
| Grid.DistinctBounded | python/ove/ove.py:59-60 | a list has at most as many distinct values as entries |
| Grid.GeometryCounts | python/ove/ove.py:59-60 | a non-empty space has between one and as many columns and rows as clients |
| Grid.CellSize | python/ove/ove.py:66-67 | `floor(extent / max(count, 1))` is the largest cell size whose multiple fits the extent |
| Grid.GridSpanFitsCanvas | python/ove/ove.py:66-81 | a span of cells inside the grid fits inside the canvas |
| Sections.InitialView | python/ove/ove.py:297-301 | a new section keeps the id, the section data and the class it was created with |
| Sections.InitialAttributes | python/ove/ove.py:342-622 | each constructor's starting attributes: `url` is `{}` for audio and video and "" for the other url classes, which have no `state`; maps, images, networks and charts have no `url` and start with `state` `{}`; only an image cannot yet write its app json |
| Sections.EmbedUrl | python/ove/ove.py:521-525 | a video url is rewritten only when it is a string; anything else makes `replace` raise |
| Sections.WatchLinkEmbedded | python/ove/ove.py:521-525 | a YouTube watch link becomes the embedded-player link of the same video |
| Sections.EmbedUrlLength | python/ove/ove.py:521-522 | a stored video url is three characters shorter than the given one per watch link it held |
| Sections.EmbeddedHasNoWatchLink | python/ove/ove.py:521-522 | the url a video stores never contains a watch link |
| Sections.EmbedUrlIdempotent | python/ove/ove.py:521-522 | rewriting a stored video url again changes nothing, so a video url survives being set twice |
| Sections.BuildImageState | python/ove/ove.py:444-459 | the image state holds the url under `config.tileSources.url`, with visibility ratio 1 |
| Sections.SetUrlEffect | python/ove/ove.py:347-525 | `set_url` exists on exactly the html, QR code, svg, pdf, audio, image and video classes and raises for a video whose url is not a string; it keeps id, data and class; an image takes the image state of the url, a video the embedded-player rewrite of it, the others the url itself |
| Sections.MapState | python/ove/ove.py:554-566 | `set_position` stores the centre, resolution and zoom, each passed through `str` |
| Sections.MapStateReplays | python/ove/ove.py:160-162 | feeding a map state's own fields back to `set_position` rebuilds that state |
| Sections.SetDataEffect | python/ove/ove.py:581-609 | the json URL wins over the gexf URL; with both a message says the gexf URL is ignored, with neither a message says one is missing; the state is pushed exactly when exactly one is given |
| Sections.ChartState | python/ove/ove.py:624-644 | options default to `{}`, and the spec URL wins over the inline spec |
| Sections.Apply | python/ove/ove.py:347-651 | each setter succeeds only on the class that defines it and keeps the section's id, data and class; `set_url` acts as `SetUrlEffect` says; `set_position`, `set_data` and `set_specification` replace only the state, with the map, network and chart state of their arguments |
| Sections.SetterOverwrites | python/ove/ove.py:347-651 | each setter replaces the whole `url` or `state` it sets, so a later call leaves the section as that call alone would |
| Sections.HistoryIsLastCall | python/ove/ove.py:347-651 | a section that took any sequence of accepted setter calls is the section its last call alone makes |
| Sections.CallRequests | python/ove/ove.py:347-644 | a setter makes at most two requests, and none for a QR code; a state setter (and `set_url` on an image) posts the new state to the instance's state address and then opens the control page; `set_data` with a message asks for nothing; `set_url` on the html, svg, pdf, audio and video classes opens the control page with `&url=` and the stored url |
| Sections.AppJson | python/ove/ove.py:354-651 | each class writes its own tag; every class except the whiteboard writes a load state; the url classes store their url in it and maps, networks and charts their state; an image section whose state lacks `config` raises |
| Sections.SectionJson | python/ove/ove.py:331-339 | a section record carries the fixed space name `OVE_SPACE`, the rectangle of `section_data` and the app JSON, and raises exactly when `get_app_json` does |
| Placement.NormalHost | python/ove/ove.py:14-16 | the host always starts with "http", and "http://" is prepended only when it does not already |
| Placement.NormalHostIdempotent | python/ove/ove.py:14-16 | normalising a host twice changes nothing more |
| Placement.BaseUrlIsAppUrl | python/ove/ove.py:317-324 | `get_base_url` is the app address `/app/` followed by the class's app name, and with a trailing slash it is the app url `add_section` posts |
| Placement.BaseUrlDistinct | python/ove/ove.py:317-324 | different classes have different base urls |
| Placement.AppUrlIsBaseUrl | python/ove/ove.py:98 | the app url registered for a section is its class's `get_base_url` with a trailing slash |
| Placement.Admit | python/ove/ove.py:89-106 | a section is admitted exactly when its app type is known and, unless oversized sections are allowed, it lies within the canvas; an unknown app type is reported before the bounds |
| Placement.AdmitValues | python/ove/ove.py:100-106 | with coordinates from a document, admission needs ints and then agrees with `Admit`; an unknown app type is refused before any arithmetic |
| Placement.AdmitValuesOnInts | python/ove/ove.py:100-106 | on int coordinates, the document path decides exactly as a direct call does |
| Placement.NewId | python/ove/ove.py:109 | the id is a fresh uuid offline and the id in the service's reply online |
| Placement.AfterChecks | python/ove/ove.py:108-141 | once the checks pass, a section is created unless the client is online and the reply has no id; the section is fresh, of the chosen class and with the posted data |
| Placement.AddEffect | python/ove/ove.py:88-141 | no section exactly when a check fails, for that check's reason; a created section has the requested app type, the posted data and the new id, and starts empty |
| Placement.SectionRequests | python/ove/ove.py:395-401 | only a new whiteboard asks for anything: it opens its control page |
| Placement.AddRequests | python/ove/ove.py:88-141 | a refused call sends nothing; otherwise the post of `section_data` comes first, and a whiteboard adds a second request |
| Placement.AddRequestsIssued | python/ove/ove.py:108-135 | the client passes on the post followed by what the new section asks for |
| Placement.GridPlacing | python/ove/ove.py:72-82 | the grid check refuses cells outside the grid unless oversized sections are allowed; otherwise cells scale to pixels by the cell size |
| Placement.GridCheckImpliesPixelCheck | python/ove/ove.py:63-106 | on the grid `set_grid` derives from the canvas, cells that pass the grid check are never refused as out of bounds |
| Document.SectionsJson | python/ove/ove.py:146 | the list of section records exists exactly when every section can write itself, and keeps their order |
| Document.SpaceJson | python/ove/ove.py:143-147 | the document holds the title under `Attribution.Title` and the section records under `Sections` |
| Document.WrittenSectionsInOrder | python/ove/ove.py:143-147 | the i-th record carries the fixed space name and the rectangle of the i-th section |
| Document.SectionRecords | python/ove/ove.py:150-152 | iterating over `Sections` yields a list's items, a dictionary's keys or a string's characters; a document without `Sections` raises |
| Document.RecordAppType | python/ove/ove.py:154 | the app type is the lowered last segment of `app.url`, and raises when that url is missing or not a string |
| Document.RecordRect | python/ove/ove.py:155-156 | the four coordinates are read exactly when all four keys are present |
| Document.PlaceRecord | python/ove/ove.py:155-156 | a section is added with the record's own coordinates and app type; a refusal lets the loop go on |
| Document.RestoreCall | python/ove/ove.py:160-197 | the branch of the if-chain for each app type: unknown types and whiteboard skip; as written, svg and pdf are compared with "SVG"/"PDF" and audio raises; each setter is called only for its own app type, with the url read from the state; as intended, the load state of a map, network, chart or video whose setter never ran is skipped |
| Document.Finish | python/ove/ove.py:158-197 | the branch keeps earlier requests, never changes a section's class, and raises when the setter is called on `False` |
| Document.FinishCalled | python/ove/ove.py:160-194 | a setter call on a created section goes on exactly when the setter accepts it, and then appends the setter's requests |
| Document.AfterPlacement | python/ove/ove.py:155-197 | after `add_section` raised nothing more happens; as written, a record without a load state raises |
| Document.ReplayRecord | python/ove/ove.py:152-197 | a record without an app url or a coordinate raises before anything is added; a section that is added has the record's app type |
| Document.Accumulate | python/ove/ove.py:152-197 | the loop adds at most one section per record |
| Document.Steps | python/ove/ove.py:152 | one effect per record |
| Document.Replay | python/ove/ove.py:149-197 | a document without readable `Sections` raises before anything is added |
| Document.StoppedReplayStays | python/ove/ove.py:152-197 | once a record raises, the later records change nothing |
| Document.ReplayStopped | python/ove/ove.py:152-197 | the loop ends with the whole replay, whether it reached the end or stopped at the first record that raised |
| Document.ReplayExtends | python/ove/ove.py:152-197 | replaying more records only appends sections and requests |
| RoundTrip.RecordFields | python/ove/ove.py:154-158 | a written section record yields back the app type, the rectangle and the load state it was written from |
| RoundTrip.LoadRestores | python/ove/ove.py:160-197 | for a restorable section, the branch its load state selects has the same effect as the setter call that made it |
| RoundTrip.NeverSetLoadRestores | python/ove/ove.py:160-179 | as intended, a map, network or chart whose setter was never called is left as `add_section` recreates it |
| RoundTrip.StateLoadRestores | python/ove/ove.py:160-179 | the same, for maps, images, networks and charts |
| RoundTrip.MapLoadRestores | python/ove/ove.py:160-162 | the same, for a map |
| RoundTrip.ImageLoadRestores | python/ove/ove.py:163-164 | the same, for an image |
| RoundTrip.NetworkLoadRestores | python/ove/ove.py:172-175 | the same, for a network |
| RoundTrip.ChartLoadRestores | python/ove/ove.py:177-179 | the same, for a chart |
| RoundTrip.UrlLoadRestores | python/ove/ove.py:166-194 | the same, for the classes that keep a url, and for the whiteboard |
| RoundTrip.VideoLoadRestores | python/ove/ove.py:169-170 | the same, for a video, given that rewriting the stored url again changes nothing |
| RoundTrip.WhiteboardLoadRestores | python/ove/ove.py:184-185 | the same, for a whiteboard under the intended replay |
| RoundTrip.PlainUrlLoadRestores | python/ove/ove.py:166-194 | the same, for html, QR code, svg, pdf and audio |
| RoundTrip.UrlBranch | python/ove/ove.py:166-194 | the html and QR code branches, and as intended the svg, pdf and audio branches, call `set_url` with the url of the load state |
| RoundTrip.NetworkStateReplays | python/ove/ove.py:172-175 | feeding a network state's own fields back to `set_data` rebuilds that state |
| RoundTrip.ChartStateReplays | python/ove/ove.py:177-179 | feeding a chart state's own fields back to `set_specification` rebuilds that state |
| RoundTrip.PlaceMade | python/ove/ove.py:155-156 | `add_section` on a section's own record recreates it as it was before its setter call |
| RoundTrip.MadeRecord | python/ove/ove.py:152-158 | a written section's record replays as the branch for its load state, run on what `add_section` makes of the record |
| RoundTrip.MadeRecordReplays | python/ove/ove.py:152-158 | when the section fits, that branch runs on the recreated section |
| RoundTrip.PlaceOversized | python/ove/ove.py:100-106 | a section that does not fit the canvas is refused on replay with no request, and the loop goes on |
| RoundTrip.FinishRestored | python/ove/ove.py:160-197 | on a created section, the branch goes on exactly when `Restored` is defined, and leaves the section as `Restored` says |
| RoundTrip.PlacedFinishes | python/ove/ove.py:158-197 | on a created section with a load state, the replay runs the branch for that state |
| RoundTrip.RecordRoundTrip | python/ove/ove.py:143-197 | one restorable section that fits survives being written and replayed, when the replay gives it the same id |
| RoundTrip.MadeViews | python/ove/ove.py:146 | the made sections in list order |
| RoundTrip.AccumulateRestores | python/ove/ove.py:152-197 | records that each go on and add a given section make a replay that adds exactly those sections |
| RoundTrip.DocumentRoundTrip | python/ove/ove.py:143-197 | a space whose sections are all restorable and fit, written by `to_json` and loaded by `load_json` with the same ids, gets the same sections back in the same order |
| RoundTrip.IntendedRestorable | python/ove/ove.py:143-197 | as intended, a section is restored exactly when its setter call (if any) was accepted and `to_json` can write it |
| RoundTrip.IntendedRoundTrip | python/ove/ove.py:143-197 | with the intended replay, every space whose sections fit the canvas and that `to_json` can write, replayed with the same ids, comes back whole, sections of every class included, whether or not their setters were called |
| RoundTrip.UpperCaseBranchesDead | python/ove/ove.py:181-188 | a lowered app type is never "SVG" or "PDF" |
| RoundTrip.SvgPdfUrlLost | python/ove/ove.py:181-188 | as written, an svg or pdf section with a non-empty url comes back with the empty url |
| RoundTrip.SvgPdfSkipped | python/ove/ove.py:181-188 | as written, no branch runs for svg or pdf |
| RoundTrip.AudioRecordRaises | python/ove/ove.py:190-191 | as written, an audio record raises after its section has been added again |
| RoundTrip.AudioBranchRaises | python/ove/ove.py:190-191 | as written, the audio branch raises on a created section |
| RoundTrip.WhiteboardRecordRaises | python/ove/ove.py:158 | a whiteboard record has no load state, so the replay raises |
| RoundTrip.OversizedRecordRaises | python/ove/ove.py:155-194 | as written, an oversized section is refused on replay, then its setter runs on `False` and the replay raises, with no request |
| RoundTrip.OversizedRecordSkipped | python/ove/ove.py:155-156 | the intended replay skips an oversized section: nothing added, nothing requested, and it goes on |
| RoundTrip.NeverSetRecordRaises | python/ove/ove.py:158-175 | as written, a map, network or video whose setter was never called makes the replay raise after its section has been added again |
| RoundTrip.NeverSetBranchRaises | python/ove/ove.py:160-175 | as written, the map, network and video branches raise on the load state such a section writes |
| RoundTrip.NeverSetChartChanges | python/ove/ove.py:177-179 | as written, a chart whose setter was never called comes back changed: `set_specification(False, False, False)` stores `options`, pushes it and opens the control page |
| RoundTrip.NeverSetChartBranch | python/ove/ove.py:177-179 | as written, the chart branch on an empty load state calls `set_specification` with three `False`s |
| RoundTrip.RefusedRaises | python/ove/ove.py:160-194 | as written, every branch that calls a setter raises when the section was not created |
| Ove.IndexOf | python/ove/ove.py:306 | the position of the first occurrence |
| Ove.RemoveFirst | python/ove/ove.py:306 | `list.remove` takes out exactly one element |
| Ove.RemoveFirstDistinct | python/ove/ove.py:306 | in a list without repeats, `remove` takes out exactly that section and keeps all the others |
| Ove.IssuedAllPair | python/ove/ove.py:308-310 | a push is the state post followed by the control page |
| Ove.Section.constructor | python/ove/ove.py:298-301 | a new section starts empty, with `url` as "" (or `{}` for audio and video) and `state` as `{}`; a whiteboard opens its control page |
| Ove.Section.ToJson | python/ove/ove.py:331-339 | the record of the section's current state: space `OVE_SPACE`, its rectangle and its app json; it raises exactly for an image whose state has no `config` |
| Ove.Section.Delete | python/ove/ove.py:303-306 | sends the delete request; removes the section from the space's list if it is there, keeping the others, and raises otherwise |
| Ove.Section.SetState | python/ove/ove.py:308-310 | posts the state to the instance's state address |
| Ove.Section.GetState | python/ove/ove.py:312-315 | requests the state; the result is the reply's body online and `{}` otherwise |
| Ove.Section.Push | python/ove/ove.py:563-566 | posts the current state, then opens the control page |
| Ove.Section.SetPosition | python/ove/ove.py:554-566 | the section takes the map state, and the client gets the push |
| Ove.Section.SetUrl | python/ove/ove.py:347-525 | the section becomes what `SetUrlEffect` gives, with the matching requests; a video with a non-string url raises and changes nothing |
| Ove.Section.SetData | python/ove/ove.py:581-609 | returns the message of `SetDataEffect`, takes its state, and pushes only when there is no message |
| Ove.Section.SetSpecification | python/ove/ove.py:624-644 | the section takes the chart state, and the client gets the push |
| Ove.Space.Views | python/ove/ove.py:35 | the sections as values, in list order |
| Ove.Space.constructor | python/ove/ove.py:10-37 | normalised host, a client with the given flags, the grid of the geometry's screens, and no sections |
| Ove.Space.EnableOnlineMode | python/ove/ove.py:39-40 | the client is online |
| Ove.Space.EnableOfflineMode | python/ove/ove.py:42-43 | the client is offline |
| Ove.Space.EnableBrowserOpening | python/ove/ove.py:45-46 | browser opening is on |
| Ove.Space.DisableBrowserOpening | python/ove/ove.py:48-49 | browser opening is off |
| Ove.Space.SetGrid | python/ove/ove.py:63-67 | keeps the counts as given, and makes each cell the largest size whose multiple fits the canvas |
| Ove.Space.SetQuarterGrid | python/ove/ove.py:69-70 | twice the screen rows and columns, whatever the grid was before |
| Ove.Space.AddSection | python/ove/ove.py:88-141 | the outcome is `AddEffect`; a created section is fresh and appended, the other sections are untouched, and the client gets `AddRequests` |
| Ove.Space.CreateSection | python/ove/ove.py:108-141 | after the checks: the post, then the id and the new section as `AfterChecks` says |
| Ove.Space.AfterPost | python/ove/ove.py:109-141 | the id comes from the uuid or the reply; without one the call raises and nothing is appended |
| Ove.Space.AppendSection | python/ove/ove.py:114-141 | a fresh empty section of the class is appended, and a whiteboard opens its page |
| Ove.Space.AddSectionByGrid | python/ove/ove.py:72-82 | cells outside the grid are refused with no request; otherwise it acts as `add_section` on the cells' pixel rectangle |
| Ove.Space.DeleteSections | python/ove/ove.py:84-86 | one delete request for all sections, then an empty list; the space stays consistent |
| Ove.Space.PlaceValues | python/ove/ove.py:155-156 | `add_section` on a record's coordinates does what `PlaceRecord` says |
| Ove.Space.Perform | python/ove/ove.py:160-194 | a setter call on a section does what `Apply` says and makes `CallRequests`; a class without the setter raises and nothing changes |
| Ove.Space.PerformLast | python/ove/ove.py:160-194 | the same on the newest section; the other sections keep their state |
| Ove.Space.FinishPlaced | python/ove/ove.py:158-197 | the branch of the if-chain on what `add_section` returned does what `Finish` says |
| Ove.Space.FinishCall | python/ove/ove.py:160-194 | a setter call on the section just added: the replay goes on exactly when `Apply` accepts the call |
| Ove.Space.RestorePlaced | python/ove/ove.py:158-197 | the rest of one iteration after `add_section` does what `AfterPlacement` says |
| Ove.Space.LoadFields | python/ove/ove.py:155-197 | one iteration on the fields of a record |
| Ove.Space.LoadRecord | python/ove/ove.py:152-197 | one iteration of the loop does what `ReplayRecord` says |
| Ove.Space.LoadJson | python/ove/ove.py:149-197 | `load_json` appends the sections of `Replay` and sends its requests through the client |
| Ove.Space.LoadAll | python/ove/ove.py:152-197 | the loop stops at the first record that raises, and appends exactly the sections of `Accumulate` |
| Ove.Space.LoadNext | python/ove/ove.py:152-197 | the record with the next index extends the replay by its own effect |
| Ove.Space.ToJson | python/ove/ove.py:143-147 | the document of the space's current sections: the title under `Attribution`, and under `Sections` one record per section in list order; it raises exactly when some section cannot write itself |

## Left out

- The network, `webbrowser` and `print` are not modelled. Each request is a value appended to the client's ghost `log`. A request that fails is caught and printed by the client, so the model only records that it was sent.
- `get_geometry` fetches the space list from the service. The model takes the geometry as a constructor parameter, and `Grid.GetGeometry` models the reduction over the display clients.
- JSON text is not modelled: `to_json` returns a value, not `json.dumps` text, and `load_json` takes a parsed value, not the text `json.loads` reads. Floats are not modelled either; numbers are ints.
- `uuid.uuid4()` and the service's reply to the section post are parameters: `uuid` and `reply`, and in `load_json` a uuid and a reply for each record index. A reply whose `id` is not a string is not modelled.
- Exceptions are not typed. Every exception (KeyError, TypeError, AttributeError, NotImplementedError) becomes `ok == false`, or `None` for a function.
- The `Videos` and `Audio` controllers (`python/ove/ove.py:200-294`) and the play, pause, stop, seek, volume and buffer delegates of the audio and video sections are not part of this model. Each one sends a single request built from the section id.
- Section.GetState: the reply body is a parameter. A response that comes back but is falsy is not distinguished from a missing one.
- Text.Lower: only ASCII letters are lower-cased. Python's full Unicode case mapping is not modelled.
- Json.PyStr: `str` of a value follows Python's `repr` quoting, without escaping special characters inside strings.
- Placement.AdmitValues: coordinates from a document are treated as raising unless they are ints. Python also adds booleans and floats, and concatenates two strings before the comparison raises.
- The unused `name` parameters of the setters are left out.
- The default for `open_browsers` is `False` on a `Space` and `True` on a bare `RestClient`; the model keeps both defaults.
- RoundTrip.DocumentRoundTrip: the round trip is stated for a replay that hands out the same ids the sections had. Fresh ids would make the sections equal only up to their ids.
- RoundTrip.DocumentRoundTrip: the as-written replay is stated only for the sections it restores. Maps, networks, videos and charts whose setter was never called are excluded, because the replay raises on them or changes them (see Findings).
- RoundTrip.IntendedRoundTrip: the intended round trip needs two conditions besides `to_json` being able to write each section. First, every section must fit the canvas: `load_json` calls `add_section` without `allow_oversized_section` (python/ove/ove.py:155-156), so an oversized section that was written is skipped on replay (`RoundTrip.OversizedRecordSkipped`). Second, the replay must hand out the sections' own ids. An image whose url was never set is outside the round trip, because its `to_json` already raises (python/ove/ove.py:464).
- The host and port are constants fixed at construction. The Python code never reassigns them.

## Findings

| source | as written | input that shows it | evidently intended | confidence | as-written member | corrected member |
|---|---|---|---|---|---|---|
| python/ove/ove.py:181-188 | the svg and pdf branches compare the lower-cased app type with "SVG" and "PDF", so they never run | an svg section after `set_url("a.svg")`, written by `to_json` and loaded by `load_json`, comes back with url "" | compare with "svg" and "pdf" and restore the url | not executed | RoundTrip.SvgPdfUrlLost | RoundTrip.IntendedRoundTrip |
| python/ove/ove.py:190-191 | the audio branch calls `set_specification`, which `AudioSection` does not have | any audio section, written and loaded again, makes `load_json` raise AttributeError | call `set_url(state["url"])` | not executed | RoundTrip.AudioRecordRaises | RoundTrip.IntendedRoundTrip |
| python/ove/ove.py:158 | the load state is read before the branch; a whiteboard writes no `states` (lines 403-406) | any whiteboard section, written and loaded again, makes `load_json` raise KeyError | read the load state only in the branches that use it | not executed | RoundTrip.WhiteboardRecordRaises | RoundTrip.IntendedRoundTrip |
| python/ove/ove.py:160-175 | the map and network branches read `center` and `settings` from a load state that is `{}` when the setter never ran; the video branch passes the unset url `{}` to `set_url`, whose `replace` raises | a new map section, written by `to_json` and loaded by `load_json`, makes `load_json` raise KeyError (a new video: AttributeError) | leave such a section as `add_section` recreates it | not executed | RoundTrip.NeverSetRecordRaises | RoundTrip.IntendedRoundTrip |
| python/ove/ove.py:177-179 | the chart branch calls `set_specification` even on the empty state of a chart whose setter never ran | a new chart section, written and loaded again, comes back with state `{"options": {}}` and sends a state post | leave such a section as `add_section` recreates it | not executed | RoundTrip.NeverSetChartChanges | RoundTrip.IntendedRoundTrip |
| python/ove/ove.py:155-194 | the setter is called on the result of `add_section` even when that is `False` | a map section added with `allow_oversized_section=True` and wider than the canvas, written and loaded again, raises AttributeError | skip the record when no section was created | not executed | RoundTrip.OversizedRecordRaises | RoundTrip.OversizedRecordSkipped |
