/** editor-mapper.ts: the conversion between a local project and the snapshot the editor API
    stores (`EditorProjectState`), and the media ids a project's timeline refers to. */
module EditorMapper {
  import opened Wrappers
  import opened Json
  import opened Errors
  import opened Timeline
  import Text

  /** A scene as it travels: bookmarks as any JSON value, dates as ISO text or `null`. */
  datatype WireScene = WireScene(
    id: string,
    name: string,
    isMain: bool,
    bookmarks: Json,
    createdAt: Option<string>,
    updatedAt: Option<string>,
    tracks: seq<Track>)

  datatype WireMetadata = WireMetadata(id: string, name: string, duration: int, updatedAt: string)

  datatype EditorProjectState = EditorProjectState(
    schemaVersion: int,
    currentSceneId: string,
    metadata: WireMetadata,
    settings: Json,
    scenes: seq<WireScene>)

  // Dates. `toISOString` is abstracted as an injective rendering of the instant, and
  // `new Date(text)` as its inverse; text that is not such a rendering is the invalid date.

  function IsoText(ms: int): string {
    Text.IntToString(ms)
  }

  function ParseDate(text: string): (d: Date)
    ensures Text.ParseInt(text).None? <==> d.InvalidDate?
  {
    match Text.ParseInt(text)
    case Some(ms) => Instant(ms)
    case None => InvalidDate
  }

  /** `new Date(date.toISOString())` is the same instant. */
  lemma ParseIsoText(ms: int)
    ensures ParseDate(IsoText(ms)) == Instant(ms)
  {
    Text.ParseIntToString(ms);
  }

  /** What `JSON.stringify` writes for a `Date`: its ISO text, or `null` for the invalid date. */
  function DateToJson(d: Date): (r: Option<string>)
    ensures r.None? <==> d.InvalidDate?
  {
    match d
    case Instant(ms) => Some(IsoText(ms))
    case InvalidDate => None
  }

  function StripTrack(t: Track): Track {
    if t.trackType != "audio" then t
    else t.(elements := seq(|t.elements|, k requires 0 <= k < |t.elements| => t.elements[k].(buffer := None)))
  }

  /** `stripAudioBuffers`: non-audio tracks unchanged; an audio track keeps everything but each of
      its elements, in order, loses its buffer. */
  function StripAudioBuffers(tracks: seq<Track>): (r: seq<Track>)
    ensures |r| == |tracks|
    ensures forall i :: 0 <= i < |r| && tracks[i].trackType != "audio" ==> r[i] == tracks[i]
    ensures forall i :: 0 <= i < |r| && tracks[i].trackType == "audio" ==>
      r[i].(elements := tracks[i].elements) == tracks[i] &&
      |r[i].elements| == |tracks[i].elements| &&
      forall k :: 0 <= k < |r[i].elements| ==> r[i].elements[k] == tracks[i].elements[k].(buffer := None)
  {
    seq(|tracks|, i requires 0 <= i < |tracks| => StripTrack(tracks[i]))
  }

  /** After stripping, no audio element holds a buffer, and stripping again changes nothing. */
  lemma StripLeavesNoAudioBuffer(tracks: seq<Track>)
    ensures var r := StripAudioBuffers(tracks);
      forall i, k :: 0 <= i < |r| && r[i].trackType == "audio" && 0 <= k < |r[i].elements| ==> r[i].elements[k].buffer.None?
    ensures StripAudioBuffers(StripAudioBuffers(tracks)) == StripAudioBuffers(tracks)
  {
    var r := StripAudioBuffers(tracks);
    var rr := StripAudioBuffers(r);
    forall i | 0 <= i < |r|
      ensures rr[i] == r[i]
    {
      if r[i].trackType == "audio" {
        assert rr[i].elements == r[i].elements;
      }
    }
  }

  function WireSceneOf(scene: Scene): WireScene {
    WireScene(scene.id, scene.name, scene.isMain, JArr(scene.bookmarks),
              DateToJson(scene.createdAt), DateToJson(scene.updatedAt), StripAudioBuffers(scene.tracks))
  }

  /** `buildEditorProjectState`: `schemaVersion` is the project version, the metadata keeps id,
      name and duration and renders `updatedAt` (which throws `RangeError` on an invalid date),
      and the scenes keep their order with audio buffers stripped. */
  function BuildEditorProjectState(project: Project): (r: Result<EditorProjectState, Thrown>)
    ensures project.metadata.updatedAt.InvalidDate? <==> r.Failure?
    ensures r.Failure? ==> r.error.RangeError?
    ensures r.Success? ==>
      var state := r.value;
      state.schemaVersion == project.version &&
      state.currentSceneId == project.currentSceneId &&
      state.metadata == WireMetadata(project.metadata.id, project.metadata.name, project.metadata.duration,
                                     IsoText(project.metadata.updatedAt.ms)) &&
      state.settings == project.settings &&
      |state.scenes| == |project.scenes| &&
      forall i :: 0 <= i < |state.scenes| ==>
        state.scenes[i].id == project.scenes[i].id && state.scenes[i].name == project.scenes[i].name &&
        state.scenes[i].tracks == StripAudioBuffers(project.scenes[i].tracks)
  {
    if project.metadata.updatedAt.InvalidDate? then Failure(RangeError("Invalid time value"))
    else
      var metadata := WireMetadata(project.metadata.id, project.metadata.name, project.metadata.duration,
                                   IsoText(project.metadata.updatedAt.ms));
      var scenes := seq(|project.scenes|, i requires 0 <= i < |project.scenes| => WireSceneOf(project.scenes[i]));
      Success(EditorProjectState(project.version, project.currentSceneId, metadata, project.settings, scenes))
  }

  /** A scene date on restore: a `Date` from the text, or the restore time for `null`. */
  function RestoreDate(text: Option<string>, now: int): Date {
    match text
    case Some(t) => ParseDate(t)
    case None => Instant(now)
  }

  function SceneOf(wire: WireScene, now: int): Scene {
    Scene(wire.id, wire.name, wire.isMain,
          if wire.bookmarks.JArr? then wire.bookmarks.items else [],
          RestoreDate(wire.createdAt, now), RestoreDate(wire.updatedAt, now), wire.tracks)
  }

  function Max(a: int, b: int): int {
    if a < b then b else a
  }

  /** `buildLocalProjectFromCloudState` at restore time `now`: the id is the `projectId` argument,
      the dates come from the arguments, name, duration, scene and settings from the snapshot;
      each scene keeps an array of bookmarks (anything else becomes `[]`), and the version is
      clamped to at least 1. */
  function BuildLocalProjectFromCloudState(projectId: string, version: int, state: EditorProjectState,
                                           updatedAt: string, createdAt: string, now: int): (p: Project)
    ensures p.metadata.id == projectId
    ensures p.metadata.name == state.metadata.name && p.metadata.duration == state.metadata.duration
    ensures p.metadata.createdAt == ParseDate(createdAt) && p.metadata.updatedAt == ParseDate(updatedAt)
    ensures p.currentSceneId == state.currentSceneId && p.settings == state.settings
    ensures p.version >= 1 && (version >= 1 ==> p.version == version) && (version < 1 ==> p.version == 1)
    ensures |p.scenes| == |state.scenes|
    ensures forall i :: 0 <= i < |p.scenes| ==>
      p.scenes[i].id == state.scenes[i].id && p.scenes[i].tracks == state.scenes[i].tracks &&
      p.scenes[i].bookmarks == (if state.scenes[i].bookmarks.JArr? then state.scenes[i].bookmarks.items else [])
  {
    var metadata := Metadata(projectId, state.metadata.name, state.metadata.duration, ParseDate(createdAt), ParseDate(updatedAt));
    var scenes := seq(|state.scenes|, i requires 0 <= i < |state.scenes| => SceneOf(state.scenes[i], now));
    Project(metadata, state.currentSceneId, state.settings, scenes, Max(1, version))
  }

  /** A scene date after a round trip: the same instant, or the restore time if it was invalid. */
  function AfterRoundTrip(d: Date, now: int): Date {
    if d.Instant? then d else Instant(now)
  }

  /** Restoring a built snapshot, with the snapshot's own `updatedAt`, gives back the project's
      current scene, name, duration, settings and `updatedAt`; every scene comes back in place with
      its bookmarks, its valid dates and its tracks minus audio buffers; a version of at least 1
      is kept. */
  lemma {:induction false} RoundTrip(project: Project, projectId: string, createdAt: string, now: int)
    requires BuildEditorProjectState(project).Success?
    ensures var state := BuildEditorProjectState(project).value;
      var r := BuildLocalProjectFromCloudState(projectId, project.version, state, state.metadata.updatedAt, createdAt, now);
      r.currentSceneId == project.currentSceneId &&
      r.metadata.name == project.metadata.name && r.metadata.duration == project.metadata.duration &&
      r.metadata.updatedAt == project.metadata.updatedAt && r.settings == project.settings &&
      (project.version >= 1 ==> r.version == project.version) &&
      |r.scenes| == |project.scenes| &&
      forall i :: 0 <= i < |r.scenes| ==>
        r.scenes[i] == project.scenes[i].(tracks := StripAudioBuffers(project.scenes[i].tracks),
                                          createdAt := AfterRoundTrip(project.scenes[i].createdAt, now),
                                          updatedAt := AfterRoundTrip(project.scenes[i].updatedAt, now))
  {
    var state := BuildEditorProjectState(project).value;
    var r := BuildLocalProjectFromCloudState(projectId, project.version, state, state.metadata.updatedAt, createdAt, now);
    ParseIsoText(project.metadata.updatedAt.ms);
    forall i | 0 <= i < |r.scenes|
      ensures r.scenes[i] == project.scenes[i].(tracks := StripAudioBuffers(project.scenes[i].tracks),
                                                createdAt := AfterRoundTrip(project.scenes[i].createdAt, now),
                                                updatedAt := AfterRoundTrip(project.scenes[i].updatedAt, now))
    {
      var scene := project.scenes[i];
      assert state.scenes[i] == WireSceneOf(scene);
      if scene.createdAt.Instant? {
        ParseIsoText(scene.createdAt.ms);
      }
      if scene.updatedAt.Instant? {
        ParseIsoText(scene.updatedAt.ms);
      }
    }
  }

  // `extractAssetFileIds`: the media ids of the timeline, each once, in first-seen order.

  function ElementMediaIds(hasMediaId: MediaGuard, elements: seq<Element>): seq<string> {
    if elements == [] then []
    else
      var e := elements[|elements| - 1];
      ElementMediaIds(hasMediaId, elements[..|elements| - 1]) + (if hasMediaId(e) then [e.mediaId.value] else [])
  }

  function TrackMediaIds(hasMediaId: MediaGuard, tracks: seq<Track>): seq<string> {
    if tracks == [] then []
    else TrackMediaIds(hasMediaId, tracks[..|tracks| - 1]) + ElementMediaIds(hasMediaId, tracks[|tracks| - 1].elements)
  }

  function SceneMediaIds(hasMediaId: MediaGuard, scenes: seq<Scene>): seq<string> {
    if scenes == [] then []
    else SceneMediaIds(hasMediaId, scenes[..|scenes| - 1]) + TrackMediaIds(hasMediaId, scenes[|scenes| - 1].tracks)
  }

  /** Every media id the timeline refers to, scene by scene, track by track, with repeats. */
  function AllMediaIds(hasMediaId: MediaGuard, project: Project): seq<string> {
    SceneMediaIds(hasMediaId, project.scenes)
  }

  /** The first occurrence of each value, in order: what `Array.from(new Set(...))` gives. */
  function Distinct(s: seq<string>): seq<string> {
    if s == [] then []
    else
      var rest := Distinct(s[..|s| - 1]);
      if s[|s| - 1] in s[..|s| - 1] then rest else rest + [s[|s| - 1]]
  }

  lemma {:induction false} DistinctMembers(s: seq<string>)
    ensures forall x :: x in Distinct(s) <==> x in s
  {
    if s != [] {
      DistinctMembers(s[..|s| - 1]);
      assert s == s[..|s| - 1] + [s[|s| - 1]];
    }
  }

  /** No value occurs twice in `d`. */
  predicate NoRepeats(d: seq<string>) {
    forall i, j :: 0 <= i < j < |d| ==> d[i] != d[j]
  }

  lemma {:induction false} DistinctHasNoRepeats(s: seq<string>)
    ensures NoRepeats(Distinct(s))
  {
    if s != [] {
      var init := s[..|s| - 1];
      var last := s[|s| - 1];
      var rest := Distinct(init);
      var d := Distinct(s);
      DistinctHasNoRepeats(init);
      if last !in init {
        DistinctMembers(init);
        assert d == rest + [last];
        assert last !in rest;
        forall i, j | 0 <= i < j < |d|
          ensures d[i] != d[j]
        {
          assert d[i] == rest[i];
          if j < |rest| {
            assert d[j] == rest[j];
          } else {
            assert d[i] in rest;
          }
        }
      } else {
        assert d == rest;
      }
    }
  }

  /** The distinct values of a prefix come first, in the same order: the result is in
      first-seen order. */
  lemma {:induction false} DistinctOfPrefix(s: seq<string>, n: nat)
    requires n <= |s|
    ensures Distinct(s[..n]) <= Distinct(s)
    decreases |s|
  {
    if n < |s| {
      assert s[..|s| - 1][..n] == s[..n];
      DistinctOfPrefix(s[..|s| - 1], n);
    } else {
      assert s[..n] == s;
    }
  }

  lemma {:induction false} ElementMediaIdsMembers(hasMediaId: MediaGuard, elements: seq<Element>, x: string)
    ensures x in ElementMediaIds(hasMediaId, elements) <==> exists e :: e in elements && References(hasMediaId, e, x)
  {
    if elements != [] {
      var init := elements[..|elements| - 1];
      var last := elements[|elements| - 1];
      ElementMediaIdsMembers(hasMediaId, init, x);
      assert elements == init + [last];
      assert x in (if hasMediaId(last) then [last.mediaId.value] else []) <==> References(hasMediaId, last, x);
    }
  }

  lemma {:induction false} TrackMediaIdsMembers(hasMediaId: MediaGuard, tracks: seq<Track>, x: string)
    ensures x in TrackMediaIds(hasMediaId, tracks) <==>
      exists t, e :: t in tracks && e in t.elements && References(hasMediaId, e, x)
  {
    if tracks != [] {
      var init := tracks[..|tracks| - 1];
      var last := tracks[|tracks| - 1];
      TrackMediaIdsMembers(hasMediaId, init, x);
      ElementMediaIdsMembers(hasMediaId, last.elements, x);
      assert tracks == init + [last];
    }
  }

  lemma {:induction false} SceneMediaIdsMembers(hasMediaId: MediaGuard, scenes: seq<Scene>, x: string)
    ensures x in SceneMediaIds(hasMediaId, scenes) <==>
      exists s, t, e :: s in scenes && t in s.tracks && e in t.elements && References(hasMediaId, e, x)
  {
    if scenes != [] {
      var init := scenes[..|scenes| - 1];
      var last := scenes[|scenes| - 1];
      SceneMediaIdsMembers(hasMediaId, init, x);
      TrackMediaIdsMembers(hasMediaId, last.tracks, x);
      assert scenes == init + [last];
    }
  }

  /** The ids `extractAssetFileIds` returns are exactly the media ids of elements accepted by
      `hasMediaId`, anywhere in the project, each once. */
  lemma AssetFileIdsAreTheTimelinesMedia(hasMediaId: MediaGuard, project: Project)
    ensures var ids := Distinct(AllMediaIds(hasMediaId, project));
      (forall x :: x in ids <==>
        exists s, t, e :: s in project.scenes && t in s.tracks && e in t.elements && References(hasMediaId, e, x)) &&
      (forall i, j :: 0 <= i < j < |ids| ==> ids[i] != ids[j])
  {
    DistinctMembers(AllMediaIds(hasMediaId, project));
    DistinctHasNoRepeats(AllMediaIds(hasMediaId, project));
    forall x {
      SceneMediaIdsMembers(hasMediaId, project.scenes, x);
    }
  }

  /** One more media id seen: the set grows by it unless it was already there. */
  lemma DistinctSnoc(s: seq<string>, x: string)
    ensures Distinct(s + [x]) == if x in s then Distinct(s) else Distinct(s) + [x]
  {
    assert (s + [x])[..|s|] == s;
  }

  lemma ElementStep(hasMediaId: MediaGuard, before: seq<string>, elements: seq<Element>, k: nat)
    requires k < |elements|
    ensures hasMediaId(elements[k]) ==>
      before + ElementMediaIds(hasMediaId, elements[..k + 1]) ==
      (before + ElementMediaIds(hasMediaId, elements[..k])) + [elements[k].mediaId.value]
    ensures !hasMediaId(elements[k]) ==>
      before + ElementMediaIds(hasMediaId, elements[..k + 1]) == before + ElementMediaIds(hasMediaId, elements[..k])
  {
    assert elements[..k + 1][..k] == elements[..k];
  }

  lemma TrackStep(hasMediaId: MediaGuard, done: seq<string>, tracks: seq<Track>, j: nat)
    requires j < |tracks|
    ensures done + TrackMediaIds(hasMediaId, tracks[..j + 1]) ==
      done + TrackMediaIds(hasMediaId, tracks[..j]) + ElementMediaIds(hasMediaId, tracks[j].elements)
  {
    assert tracks[..j + 1][..j] == tracks[..j];
  }

  lemma SceneStep(hasMediaId: MediaGuard, scenes: seq<Scene>, i: nat)
    requires i < |scenes|
    ensures SceneMediaIds(hasMediaId, scenes[..i + 1]) ==
      SceneMediaIds(hasMediaId, scenes[..i]) + TrackMediaIds(hasMediaId, scenes[i].tracks)
  {
    assert scenes[..i + 1][..i] == scenes[..i];
  }

  /** The innermost loop of `extractAssetFileIds`: adds the media ids of one track's
      elements to the set `seen`, whose insertion order is `ids`. */
  method AddElementIds(hasMediaId: MediaGuard, elements: seq<Element>, ghost before: seq<string>,
                       ids0: seq<string>, seen0: set<string>)
    returns (ids: seq<string>, seen: set<string>)
    requires ids0 == Distinct(before)
    requires forall x :: x in seen0 <==> x in ids0
    ensures ids == Distinct(before + ElementMediaIds(hasMediaId, elements))
    ensures forall x :: x in seen <==> x in ids
  {
    ids, seen := ids0, seen0;
    var k := 0;
    assert before + ElementMediaIds(hasMediaId, elements[..0]) == before;
    while k < |elements|
      invariant 0 <= k <= |elements|
      invariant ids == Distinct(before + ElementMediaIds(hasMediaId, elements[..k]))
      invariant forall x :: x in seen <==> x in ids
    {
      var element := elements[k];
      ghost var prefix := before + ElementMediaIds(hasMediaId, elements[..k]);
      ElementStep(hasMediaId, before, elements, k);
      if hasMediaId(element) {
        var id := element.mediaId.value;
        DistinctSnoc(prefix, id);
        DistinctMembers(prefix);
        if id !in seen {
          ids := ids + [id];
          seen := seen + {id};
        }
      }
      k := k + 1;
    }
    assert elements[..k] == elements;
  }

  /** The middle loop of `extractAssetFileIds`: one scene's tracks. */
  method AddTrackIds(hasMediaId: MediaGuard, tracks: seq<Track>, ghost done: seq<string>,
                     ids0: seq<string>, seen0: set<string>)
    returns (ids: seq<string>, seen: set<string>)
    requires ids0 == Distinct(done)
    requires forall x :: x in seen0 <==> x in ids0
    ensures ids == Distinct(done + TrackMediaIds(hasMediaId, tracks))
    ensures forall x :: x in seen <==> x in ids
  {
    ids, seen := ids0, seen0;
    var j := 0;
    assert done + TrackMediaIds(hasMediaId, tracks[..0]) == done;
    while j < |tracks|
      invariant 0 <= j <= |tracks|
      invariant ids == Distinct(done + TrackMediaIds(hasMediaId, tracks[..j]))
      invariant forall x :: x in seen <==> x in ids
    {
      ids, seen := AddElementIds(hasMediaId, tracks[j].elements, done + TrackMediaIds(hasMediaId, tracks[..j]), ids, seen);
      TrackStep(hasMediaId, done, tracks, j);
      j := j + 1;
    }
    assert tracks[..j] == tracks;
  }

  /** `extractAssetFileIds`: a `Set` filled in nested loops over scenes, tracks and elements,
      returned as an array in insertion order. */
  method ExtractAssetFileIds(hasMediaId: MediaGuard, project: Project) returns (ids: seq<string>)
    ensures ids == Distinct(AllMediaIds(hasMediaId, project))
  {
    var seen: set<string> := {};
    ids := [];
    var scenes := project.scenes;
    var i := 0;
    while i < |scenes|
      invariant 0 <= i <= |scenes|
      invariant ids == Distinct(SceneMediaIds(hasMediaId, scenes[..i]))
      invariant forall x :: x in seen <==> x in ids
    {
      ids, seen := AddTrackIds(hasMediaId, scenes[i].tracks, SceneMediaIds(hasMediaId, scenes[..i]), ids, seen);
      SceneStep(hasMediaId, scenes, i);
      i := i + 1;
    }
    assert scenes[..i] == scenes;
  }
}
