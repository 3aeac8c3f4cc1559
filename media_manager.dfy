/** media-manager.ts: the editor's list of media assets. Adding is optimistic with a rollback,
    removing cascades to the timeline elements that use the asset, and a saved asset is uploaded
    to the cloud once, through the editor API, and merged back into the list. */
module Media {
  import opened Wrappers
  import opened Json
  import opened Errors
  import opened Http
  import opened Timeline
  import ApiClient
  import EditorApi
  import BackendApi
  import Session

  /** A media asset. Fields the manager never inspects (media type, dimensions, duration, ...)
      are left out; `cloudFileId` and `cloudFileKey` hold whatever the backend sent. */
  datatype MediaAsset = MediaAsset(
    id: string,
    name: string,
    file: BlobFile,
    url: Option<string>,
    thumbnailUrl: Option<string>,
    cloudFileId: Option<Json>,
    cloudFileKey: Option<Json>,
    cloudSyncedAt: Option<string>)

  /** `{ trackId, elementId }`, one element to delete from the timeline. */
  datatype ElementRef = ElementRef(trackId: string, elementId: string)

  // The asset list.

  /** `assets.find((asset) => asset.id === id)`. */
  function FindAsset(assets: seq<MediaAsset>, id: string): (r: Option<MediaAsset>)
    ensures r.Some? <==> exists i :: 0 <= i < |assets| && assets[i].id == id
    ensures r.Some? ==> r.value.id == id && r.value in assets
    ensures r.Some? ==> exists i :: 0 <= i < |assets| && assets[i] == r.value && forall j :: 0 <= j < i ==> assets[j].id != id
  {
    if |assets| == 0 then None
    else if assets[0].id == id then Some(assets[0])
    else
      var r := FindAsset(assets[1..], id);
      assert forall i :: 0 < i < |assets| ==> assets[i] == assets[1..][i - 1];
      r
  }

  /** `assets.filter((asset) => asset.id !== id)`. */
  function WithoutId(assets: seq<MediaAsset>, id: string): (r: seq<MediaAsset>)
    ensures |r| <= |assets|
    ensures forall a :: a in r <==> a in assets && a.id != id
  {
    if |assets| == 0 then []
    else
      assert assets == [assets[0]] + assets[1..];
      (if assets[0].id == id then [] else [assets[0]]) + WithoutId(assets[1..], id)
  }

  /** `assets.map((item) => item.id === id ? replacement : item)`. */
  function ReplaceById(assets: seq<MediaAsset>, id: string, replacement: MediaAsset): (r: seq<MediaAsset>)
    ensures |r| == |assets|
    ensures forall i :: 0 <= i < |assets| && assets[i].id != id ==> r[i] == assets[i]
    ensures forall i :: 0 <= i < |assets| && assets[i].id == id ==> r[i] == replacement
  {
    if |assets| == 0 then []
    else [if assets[0].id == id then replacement else assets[0]] + ReplaceById(assets[1..], id, replacement)
  }

  /** `assets.map((asset) => asset.id)`. */
  function AssetIds(assets: seq<MediaAsset>): (ids: seq<string>)
    ensures |ids| == |assets|
    ensures forall i :: 0 <= i < |assets| ==> ids[i] == assets[i].id
  {
    seq(|assets|, i requires 0 <= i < |assets| => assets[i].id)
  }

  /** Filtering distributes over concatenation and keeps the order of what it keeps. */
  lemma {:induction false} WithoutIdAppend(front: seq<MediaAsset>, back: seq<MediaAsset>, id: string)
    ensures WithoutId(front + back, id) == WithoutId(front, id) + WithoutId(back, id)
  {
    if |front| > 0 {
      assert (front + back)[0] == front[0];
      assert (front + back)[1..] == front[1..] + back;
      WithoutIdAppend(front[1..], back, id);
    } else {
      assert front + back == back;
    }
  }

  /** Filtering out an id no asset has leaves the list as it is. */
  lemma {:induction false} WithoutAbsentId(assets: seq<MediaAsset>, id: string)
    requires forall i :: 0 <= i < |assets| ==> assets[i].id != id
    ensures WithoutId(assets, id) == assets
  {
    if |assets| > 0 {
      WithoutAbsentId(assets[1..], id);
      assert assets == [assets[0]] + assets[1..];
    }
  }

  /** The rollback of a failed add: filtering the fresh id out of the list with the new asset
      appended gives back the list as it was before the add. */
  lemma {:induction false} RollbackRestores(assets: seq<MediaAsset>, added: MediaAsset)
    requires forall i :: 0 <= i < |assets| ==> assets[i].id != added.id
    ensures WithoutId(assets + [added], added.id) == assets
  {
    WithoutIdAppend(assets, [added], added.id);
    WithoutAbsentId(assets, added.id);
    assert WithoutId([added], added.id) == [] + WithoutId([], added.id);
  }

  /** After the merge, looking the id up finds the replacement. */
  lemma {:induction false} FindAfterReplace(assets: seq<MediaAsset>, id: string, replacement: MediaAsset)
    requires replacement.id == id
    requires FindAsset(assets, id).Some?
    ensures FindAsset(ReplaceById(assets, id, replacement), id) == Some(replacement)
  {
    if assets[0].id != id {
      assert FindAsset(assets[1..], id).Some?;
      FindAfterReplace(assets[1..], id, replacement);
    }
  }

  // The elements of the timeline that use a media id, in track order and element order.

  /** The references to `id` among a track's elements. */
  function TrackRefs(hasMediaId: MediaGuard, trackId: string, elements: seq<Element>, id: string): (refs: seq<ElementRef>)
    ensures |refs| <= |elements|
  {
    if |elements| == 0 then []
    else
      var last := elements[|elements| - 1];
      TrackRefs(hasMediaId, trackId, elements[..|elements| - 1], id) +
        (if References(hasMediaId, last, id) then [ElementRef(trackId, last.id)] else [])
  }

  /** `elementsToRemove` after the two loops over the tracks and their elements. */
  function ElementsReferencing(hasMediaId: MediaGuard, tracks: seq<Track>, id: string): seq<ElementRef> {
    if |tracks| == 0 then []
    else
      var last := tracks[|tracks| - 1];
      ElementsReferencing(hasMediaId, tracks[..|tracks| - 1], id) + TrackRefs(hasMediaId, last.id, last.elements, id)
  }

  lemma {:induction false} TrackRefsMembership(hasMediaId: MediaGuard, trackId: string, elements: seq<Element>, id: string, r: ElementRef)
    ensures r in TrackRefs(hasMediaId, trackId, elements, id) <==>
      exists j :: 0 <= j < |elements| && References(hasMediaId, elements[j], id) && r == ElementRef(trackId, elements[j].id)
  {
    if |elements| > 0 {
      var front := elements[..|elements| - 1];
      TrackRefsMembership(hasMediaId, trackId, front, id, r);
      assert forall j :: 0 <= j < |front| ==> front[j] == elements[j];
    }
  }

  /** An element is deleted exactly when it satisfies `hasMediaId` and carries the id, on any
      track: the reference to it is collected, and nothing else is. */
  lemma {:induction false} ElementsReferencingMembership(hasMediaId: MediaGuard, tracks: seq<Track>, id: string, r: ElementRef)
    ensures r in ElementsReferencing(hasMediaId, tracks, id) <==>
      exists t, j :: 0 <= t < |tracks| && 0 <= j < |tracks[t].elements| &&
        References(hasMediaId, tracks[t].elements[j], id) && r == ElementRef(tracks[t].id, tracks[t].elements[j].id)
  {
    if |tracks| > 0 {
      var front := tracks[..|tracks| - 1];
      var last := tracks[|tracks| - 1];
      ElementsReferencingMembership(hasMediaId, front, id, r);
      TrackRefsMembership(hasMediaId, last.id, last.elements, id, r);
      assert forall t :: 0 <= t < |front| ==> front[t] == tracks[t];
    }
  }

  /** No reference is collected, so `deleteElements` is not called, exactly when no element on
      any track uses the id. */
  lemma {:induction false} NothingToDelete(hasMediaId: MediaGuard, tracks: seq<Track>, id: string)
    ensures ElementsReferencing(hasMediaId, tracks, id) == [] <==>
      forall t, j :: 0 <= t < |tracks| && 0 <= j < |tracks[t].elements| ==> !References(hasMediaId, tracks[t].elements[j], id)
  {
    var refs := ElementsReferencing(hasMediaId, tracks, id);
    if refs != [] {
      ElementsReferencingMembership(hasMediaId, tracks, id, refs[0]);
    }
    forall t, j | 0 <= t < |tracks| && 0 <= j < |tracks[t].elements| && References(hasMediaId, tracks[t].elements[j], id)
      ensures refs != []
    {
      ElementsReferencingMembership(hasMediaId, tracks, id, ElementRef(tracks[t].id, tracks[t].elements[j].id));
    }
  }

  // Object URLs released by `URL.revokeObjectURL`.

  /** On remove: the url when it is set, and then the thumbnail only when it is set too;
      an asset without a url keeps its thumbnail URL alive. */
  function RevokedOnRemove(asset: Option<MediaAsset>): (urls: seq<string>)
    ensures asset.None? || !TruthyString(asset.value.url) ==> urls == []
    ensures asset.Some? && TruthyString(asset.value.url) ==> urls == RevokedOf(asset.value)
  {
    if asset.Some? && TruthyString(asset.value.url) then
      [asset.value.url.value] + (if TruthyString(asset.value.thumbnailUrl) then [asset.value.thumbnailUrl.value] else [])
    else []
  }

  /** On clear: the url and the thumbnail, each whenever it is set. */
  function RevokedOf(asset: MediaAsset): (urls: seq<string>)
    ensures forall u :: u in urls <==>
      (TruthyString(asset.url) && u == asset.url.value) || (TruthyString(asset.thumbnailUrl) && u == asset.thumbnailUrl.value)
  {
    (if TruthyString(asset.url) then [asset.url.value] else []) +
      (if TruthyString(asset.thumbnailUrl) then [asset.thumbnailUrl.value] else [])
  }

  /** `assets.forEach(...)` revoking each asset's URLs in list order. */
  function RevokedOnClear(assets: seq<MediaAsset>): seq<string> {
    if |assets| == 0 then [] else RevokedOnClear(assets[..|assets| - 1]) + RevokedOf(assets[|assets| - 1])
  }

  /** Clearing revokes exactly the URLs some asset holds. */
  lemma {:induction false} RevokedOnClearMembership(assets: seq<MediaAsset>, u: string)
    ensures u in RevokedOnClear(assets) <==> exists i :: 0 <= i < |assets| && u in RevokedOf(assets[i])
  {
    if |assets| > 0 {
      var front := assets[..|assets| - 1];
      RevokedOnClearMembership(front, u);
      assert forall i :: 0 <= i < |front| ==> front[i] == assets[i];
    }
  }

  /** The deletes `Promise.all` starts, one per id, in order. */
  function DeleteRequests(projectId: string, ids: seq<string>): (r: seq<(string, string)>)
    ensures |r| == |ids|
    ensures forall i :: 0 <= i < |ids| ==> r[i] == (projectId, ids[i])
  {
    if |ids| == 0 then [] else DeleteRequests(projectId, ids[..|ids| - 1]) + [(projectId, ids[|ids| - 1])]
  }

  // The cloud upload of `syncMediaAssetToCloud`.

  const OctetStream: string := "application/octet-stream"

  /** `` `${projectId}__${mediaId}__${asset.name}` ``. */
  function UploadFileName(projectId: string, mediaId: string, name: string): (fileName: string)
    ensures |fileName| == |projectId| + |mediaId| + |name| + 4
    ensures fileName[..|projectId| + 2] == projectId + "__"
    ensures fileName[|projectId| + 2..|projectId| + |mediaId| + 4] == mediaId + "__"
    ensures fileName[|projectId| + |mediaId| + 4..] == name
  {
    projectId + "__" + mediaId + "__" + name
  }

  /** `asset.file.type || "application/octet-stream"`. */
  function ContentType(file: BlobFile): (t: string)
    ensures t != ""
    ensures file.mimeType != "" ==> t == file.mimeType
    ensures file.mimeType == "" ==> t == OctetStream
  {
    if file.mimeType == "" then OctetStream else file.mimeType
  }

  /** The payload of `createFileUpload`. */
  function UploadPayload(projectId: string, mediaId: string, asset: MediaAsset): (payload: Json)
    ensures Truthy(payload)
    ensures Field(payload, "fileName") == Some(JStr(UploadFileName(projectId, mediaId, asset.name)))
    ensures Field(payload, "contentType") == Some(JStr(ContentType(asset.file)))
    ensures Field(payload, "size") == Some(JNum(asset.file.size))
  {
    JObj(map["fileName" := JStr(UploadFileName(projectId, mediaId, asset.name)),
             "contentType" := JStr(ContentType(asset.file)),
             "size" := JNum(asset.file.size)])
  }

  /** A property that is present and truthy. */
  predicate Present(value: Option<Json>) {
    value.Some? && Truthy(value.value)
  }

  /** `asset.cloudFileId || asset.cloudFileKey`: the asset was synced before. */
  predicate AlreadySynced(asset: MediaAsset) {
    Present(asset.cloudFileId) || Present(asset.cloudFileKey)
  }

  /** What `createFileUpload` answered: where to PUT the file, and the id and key of the new
      file when the backend sent them. */
  datatype UploadSlot = UploadSlot(uploadUrl: string, id: Option<Json>, key: Option<Json>)

  /** `uploadResponse.uploadUrl`, `.id` and `.key`. A null response throws on the property read;
      an upload URL that is not a string makes the PUT fail before it is sent. */
  function UploadSlotOf(response: Json): (r: Result<UploadSlot, Thrown>)
    ensures response == JNull ==> r.Failure? && r.error.TypeError?
    ensures r.Success? <==> StringField(response, "uploadUrl").Some?
    ensures r.Success? ==> (r.value.uploadUrl == StringField(response, "uploadUrl").value &&
                            r.value.id == Field(response, "id") && r.value.key == Field(response, "key"))
  {
    if response == JNull then Failure(TypeError("Cannot read properties of null (reading 'uploadUrl')"))
    else match StringField(response, "uploadUrl")
      case Some(url) => Success(UploadSlot(url, Field(response, "id"), Field(response, "key")))
      case None => Failure(TypeError("Failed to parse URL"))
  }

  /** `listResponse.items`, which must be an array for `.find` to exist. */
  function ListedItems(listResponse: Json): (r: Result<seq<Json>, Thrown>)
    ensures r.Success? <==> Field(listResponse, "items").Some? && Field(listResponse, "items").value.JArr?
    ensures r.Success? ==> Field(listResponse, "items") == Some(JArr(r.value))
  {
    match Field(listResponse, "items")
    case Some(JArr(items)) => Success(items)
    case _ => Failure(TypeError("listResponse.items.find is not a function"))
  }

  /** `listResponse.items.find((file) => file.key === uploadResponse.key)?.id ?? ""`. Reading
      `.key` of a null entry throws. */
  function MatchedFileId(items: seq<Json>, key: Option<Json>): (r: Result<Json, Thrown>)
    ensures r.Failure? ==> r.error.TypeError?
  {
    if |items| == 0 then Success(JStr(""))
    else if items[0] == JNull then Failure(TypeError("Cannot read properties of null (reading 'key')"))
    else if Field(items[0], "key") == key then Success(ApiClient.Coalesce(Field(items[0], "id"), JStr("")))
    else MatchedFileId(items[1..], key)
  }

  /** The first listed file whose key equals the upload key gives the id, `""` when it has none. */
  lemma {:induction false} MatchedFirst(items: seq<Json>, key: Option<Json>, i: nat)
    requires i < |items| && items[i] != JNull && Field(items[i], "key") == key
    requires forall j :: 0 <= j < i ==> items[j] != JNull && Field(items[j], "key") != key
    ensures MatchedFileId(items, key) == Success(ApiClient.Coalesce(Field(items[i], "id"), JStr("")))
  {
    if i > 0 {
      MatchedFirst(items[1..], key, i - 1);
    }
  }

  /** With no listed file of that key (and no null entry), the id is `""`. */
  lemma {:induction false} MatchedNone(items: seq<Json>, key: Option<Json>)
    requires forall j :: 0 <= j < |items| ==> items[j] != JNull && Field(items[j], "key") != key
    ensures MatchedFileId(items, key) == Success(JStr(""))
  {
    if |items| > 0 {
      MatchedNone(items[1..], key);
    }
  }

  /** A null entry reached before any match throws. */
  lemma {:induction false} MatchedHitsNull(items: seq<Json>, key: Option<Json>, i: nat)
    requires i < |items| && items[i] == JNull
    requires forall j :: 0 <= j < i ==> items[j] != JNull && Field(items[j], "key") != key
    ensures MatchedFileId(items, key).Failure?
  {
    if i > 0 {
      MatchedHitsNull(items[1..], key, i - 1);
    }
  }

  /** The cloud file of a finished upload: its id as found (possibly empty) and its key. */
  datatype CloudRef = CloudRef(cloudFileId: Json, cloudFileKey: Option<Json>)

  /** `let cloudFileId = uploadResponse.id`, recovered from `listFiles` by key when it is not
      truthy; the listing uses the token the sync started with. */
  function CloudIdSpec(env: EditorApi.Env, world: EditorApi.World, token: string, fileName: string, slot: UploadSlot)
    : (out: EditorApi.Outcome<Json>)
    ensures Present(slot.id) ==> out == EditorApi.Outcome(Success(slot.id.value), world)
    ensures world.log <= out.world.log
  {
    if Present(slot.id) then EditorApi.Outcome(Success(slot.id.value), world)
    else
      var listed := EditorApi.PipelineSpec(env, world, EditorApi.ListFilesCall(Some(100), Some(fileName)), token);
      if listed.result.Failure? then EditorApi.Outcome(Failure(listed.result.error), listed.world)
      else
        var items := ListedItems(listed.result.value);
        if items.Failure? then EditorApi.Outcome(Failure(items.error), listed.world)
        else EditorApi.Outcome(MatchedFileId(items.value, slot.key), listed.world)
  }

  /** After the upload slot: the PUT of the file, then the id recovery. */
  function PutAndRecoverSpec(env: EditorApi.Env, world: EditorApi.World, token: string, fileName: string,
                             asset: MediaAsset, slot: UploadSlot): (out: EditorApi.Outcome<CloudRef>)
    ensures world.log + [EditorApi.PresignedUploadRequest(slot.uploadUrl, asset.file, ContentType(asset.file))] <= out.world.log
  {
    var put := EditorApi.PresignedUploadRequest(slot.uploadUrl, asset.file, ContentType(asset.file));
    var putError := EditorApi.PresignedUploadOutcome(env.respond(|world.log|, put));
    var afterPut := world.(log := world.log + [put]);
    if putError.Some? then EditorApi.Outcome(Failure(putError.value), afterPut)
    else
      var cloudId := CloudIdSpec(env, afterPut, token, fileName, slot);
      if cloudId.result.Failure? then EditorApi.Outcome(Failure(cloudId.result.error), cloudId.world)
      else EditorApi.Outcome(Success(CloudRef(cloudId.result.value, slot.key)), cloudId.world)
  }

  /** The upload request, the PUT of the file, and the id recovery, in that order; any throw
      ends the transfer. */
  function TransferSpec(env: EditorApi.Env, world: EditorApi.World, token: string,
                        projectId: string, mediaId: string, asset: MediaAsset): (out: EditorApi.Outcome<CloudRef>)
    ensures world.log <= out.world.log
  {
    var up := EditorApi.PipelineSpec(env, world, EditorApi.CreateFileUploadCall(UploadPayload(projectId, mediaId, asset)), token);
    if up.result.Failure? then EditorApi.Outcome(Failure(up.result.error), up.world)
    else
      var slot := UploadSlotOf(up.result.value);
      if slot.Failure? then EditorApi.Outcome(Failure(slot.error), up.world)
      else PutAndRecoverSpec(env, up.world, token, UploadFileName(projectId, mediaId, asset.name), asset, slot.value)
  }

  /** `syncedAsset`: the latest copy with the three cloud fields set; an empty id is stored as
      `undefined`. */
  function SyncedAsset(latest: MediaAsset, cloud: CloudRef, nowIso: string): (synced: MediaAsset)
    ensures synced.id == latest.id && synced.name == latest.name && synced.file == latest.file
    ensures synced.url == latest.url && synced.thumbnailUrl == latest.thumbnailUrl
    ensures synced.cloudFileId.Some? <==> Truthy(cloud.cloudFileId)
    ensures synced.cloudFileId.Some? ==> synced.cloudFileId.value == cloud.cloudFileId
    ensures synced.cloudFileKey == cloud.cloudFileKey
    ensures synced.cloudSyncedAt == Some(nowIso)
  {
    latest.(cloudFileId := if Truthy(cloud.cloudFileId) then Some(cloud.cloudFileId) else None,
            cloudFileKey := cloud.cloudFileKey,
            cloudSyncedAt := Some(nowIso))
  }

  /** The synced asset when the sync got that far, and the world after the calls it made. */
  datatype SyncOutcome = SyncOutcome(synced: Option<MediaAsset>, world: EditorApi.World)

  /** `syncMediaAssetToCloud` up to the merge, on the session's token and the asset list. */
  function SyncSpec(env: EditorApi.Env, world: EditorApi.World, assets: seq<MediaAsset>,
                    projectId: string, mediaId: string, nowIso: string): (out: SyncOutcome)
    ensures !TruthyString(world.session) || FindAsset(assets, mediaId).None? || AlreadySynced(FindAsset(assets, mediaId).value) ==>
      out == SyncOutcome(None, world)
    ensures world.log <= out.world.log
    ensures out.synced.Some? ==> (FindAsset(assets, mediaId).Some? &&
      var asset := FindAsset(assets, mediaId).value;
      out.synced.value.id == mediaId && out.synced.value.name == asset.name && out.synced.value.file == asset.file &&
      out.synced.value.url == asset.url && out.synced.value.thumbnailUrl == asset.thumbnailUrl &&
      out.synced.value.cloudSyncedAt == Some(nowIso))
  {
    if !TruthyString(world.session) then SyncOutcome(None, world)
    else
      var found := FindAsset(assets, mediaId);
      if found.None? || AlreadySynced(found.value) then SyncOutcome(None, world)
      else
        var transfer := TransferSpec(env, world, world.session.value, projectId, mediaId, found.value);
        if transfer.result.Failure? then SyncOutcome(None, transfer.world)
        else SyncOutcome(Some(SyncedAsset(found.value, transfer.result.value, nowIso)), transfer.world)
  }

  /** A sync that yields an asset ran the transfer of the asset found, and ends in its world. */
  lemma SyncRanTransfer(env: EditorApi.Env, world: EditorApi.World, assets: seq<MediaAsset>,
                        projectId: string, mediaId: string, nowIso: string)
    requires SyncSpec(env, world, assets, projectId, mediaId, nowIso).synced.Some?
    ensures TruthyString(world.session) && FindAsset(assets, mediaId).Some?
    ensures var transfer := TransferSpec(env, world, world.session.value, projectId, mediaId, FindAsset(assets, mediaId).value);
      transfer.result.Success? && SyncSpec(env, world, assets, projectId, mediaId, nowIso).world == transfer.world
  {
  }

  /** The cloud fields of a synced asset come from the transfer: the key is the upload slot's
      key; the id is the slot's id when present, otherwise the one recovered by listing the
      files after the PUT succeeded, and it is stored only when truthy. */
  lemma {:induction false} SyncedCloudFields(env: EditorApi.Env, world: EditorApi.World, assets: seq<MediaAsset>,
                                             projectId: string, mediaId: string, nowIso: string)
    requires SyncSpec(env, world, assets, projectId, mediaId, nowIso).synced.Some?
    ensures var synced := SyncSpec(env, world, assets, projectId, mediaId, nowIso).synced.value;
      var asset := FindAsset(assets, mediaId).value;
      var token := world.session.value;
      var up := EditorApi.PipelineSpec(env, world, EditorApi.CreateFileUploadCall(UploadPayload(projectId, mediaId, asset)), token);
      up.result.Success? && UploadSlotOf(up.result.value).Success? &&
      var slot := UploadSlotOf(up.result.value).value;
      var put := EditorApi.PresignedUploadRequest(slot.uploadUrl, asset.file, ContentType(asset.file));
      var cloudId := CloudIdSpec(env, up.world.(log := up.world.log + [put]), token,
                                 UploadFileName(projectId, mediaId, asset.name), slot);
      EditorApi.PresignedUploadOutcome(env.respond(|up.world.log|, put)).None? &&
      cloudId.result.Success? &&
      synced.cloudFileKey == slot.key &&
      (Present(slot.id) ==> cloudId.result.value == slot.id.value) &&
      (synced.cloudFileId.Some? <==> Truthy(cloudId.result.value)) &&
      (synced.cloudFileId.Some? ==> synced.cloudFileId.value == cloudId.result.value)
  {
    SyncRanTransfer(env, world, assets, projectId, mediaId, nowIso);
  }

  /** A transfer that succeeds got its upload slot first, and only added to that log. */
  lemma TransferRanUpload(env: EditorApi.Env, world: EditorApi.World, token: string,
                          projectId: string, mediaId: string, asset: MediaAsset)
    requires TransferSpec(env, world, token, projectId, mediaId, asset).result.Success?
    ensures var up := EditorApi.PipelineSpec(env, world, EditorApi.CreateFileUploadCall(UploadPayload(projectId, mediaId, asset)), token);
      up.result.Success? && UploadSlotOf(up.result.value).Success? &&
      up.world.log <= TransferSpec(env, world, token, projectId, mediaId, asset).world.log &&
      up.world.log + [EditorApi.PresignedUploadRequest(UploadSlotOf(up.result.value).value.uploadUrl, asset.file, ContentType(asset.file))]
        <= TransferSpec(env, world, token, projectId, mediaId, asset).world.log
  {
  }

  /** The editor request a sync sends first is `createFileUpload` with the deterministic file
      name, the content type and the size, under the session's token. */
  lemma {:induction false} UploadRequestFirst(env: EditorApi.Env, world: EditorApi.World, assets: seq<MediaAsset>,
                                              projectId: string, mediaId: string, nowIso: string)
    requires SyncSpec(env, world, assets, projectId, mediaId, nowIso).synced.Some?
    ensures var asset := FindAsset(assets, mediaId).value;
      var n := |EditorApi.EditorRequests(world.log)|;
      var sent := EditorApi.EditorRequests(SyncSpec(env, world, assets, projectId, mediaId, nowIso).world.log);
      n < |sent| &&
      EditorApi.IsCallRequest(sent[n], env, EditorApi.CreateFileUploadCall(UploadPayload(projectId, mediaId, asset)), world.session.value)
  {
    SyncRanTransfer(env, world, assets, projectId, mediaId, nowIso);
    var asset := FindAsset(assets, mediaId).value;
    var token := world.session.value;
    var call := EditorApi.CreateFileUploadCall(UploadPayload(projectId, mediaId, asset));
    TransferRanUpload(env, world, token, projectId, mediaId, asset);
    var upLog := EditorApi.PipelineSpec(env, world, call, token).world.log;
    var log := TransferSpec(env, world, token, projectId, mediaId, asset).world.log;
    assert log == SyncSpec(env, world, assets, projectId, mediaId, nowIso).world.log;
    EditorApi.FirstRequestIsTheCall(env, world, call, token);
    EditorApi.EditorRequestsPrefix(upLog, log);
  }

  /** Right after the upload request come the PUT of the file itself to the upload URL, with the
      content type and no backend headers. */
  lemma {:induction false} PresignedPutFollows(env: EditorApi.Env, world: EditorApi.World, assets: seq<MediaAsset>,
                                               projectId: string, mediaId: string, nowIso: string)
    requires SyncSpec(env, world, assets, projectId, mediaId, nowIso).synced.Some?
    ensures var asset := FindAsset(assets, mediaId).value;
      var up := EditorApi.PipelineSpec(env, world, EditorApi.CreateFileUploadCall(UploadPayload(projectId, mediaId, asset)), world.session.value);
      var log := SyncSpec(env, world, assets, projectId, mediaId, nowIso).world.log;
      up.result.Success? && UploadSlotOf(up.result.value).Success? && |up.world.log| < |log| &&
      log[|up.world.log|] == EditorApi.PresignedUploadRequest(UploadSlotOf(up.result.value).value.uploadUrl, asset.file, ContentType(asset.file))
  {
    SyncRanTransfer(env, world, assets, projectId, mediaId, nowIso);
    var asset := FindAsset(assets, mediaId).value;
    TransferRanUpload(env, world, world.session.value, projectId, mediaId, asset);
    var up := EditorApi.PipelineSpec(env, world, EditorApi.CreateFileUploadCall(UploadPayload(projectId, mediaId, asset)), world.session.value);
    var put := EditorApi.PresignedUploadRequest(UploadSlotOf(up.result.value).value.uploadUrl, asset.file, ContentType(asset.file));
    assert (up.world.log + [put])[|up.world.log|] == put;
  }

  /** Without an id in the upload response, the id is recovered as that of the first listed file
      carrying the upload's key. */
  lemma {:induction false} IdRecoveredByKey(env: EditorApi.Env, world: EditorApi.World, token: string, fileName: string,
                                            slot: UploadSlot, i: nat)
    requires !Present(slot.id)
    requires var listed := EditorApi.PipelineSpec(env, world, EditorApi.ListFilesCall(Some(100), Some(fileName)), token);
      listed.result.Success? && ListedItems(listed.result.value).Success?
    requires var items := ListedItems(EditorApi.PipelineSpec(env, world, EditorApi.ListFilesCall(Some(100), Some(fileName)), token).result.value).value;
      i < |items| && items[i] != JNull && Field(items[i], "key") == slot.key &&
      forall j :: 0 <= j < i ==> items[j] != JNull && Field(items[j], "key") != slot.key
    ensures var items := ListedItems(EditorApi.PipelineSpec(env, world, EditorApi.ListFilesCall(Some(100), Some(fileName)), token).result.value).value;
      CloudIdSpec(env, world, token, fileName, slot).result == Success(ApiClient.Coalesce(Field(items[i], "id"), JStr("")))
  {
    var items := ListedItems(EditorApi.PipelineSpec(env, world, EditorApi.ListFilesCall(Some(100), Some(fileName)), token).result.value).value;
    MatchedFirst(items, slot.key, i);
  }

  /** Once synced with an id or a key, the asset is never uploaded again: a second sync of the
      merged list sends nothing and changes nothing. */
  lemma {:induction false} SecondSyncIsNoop(env: EditorApi.Env, world: EditorApi.World, assets: seq<MediaAsset>,
                                            projectId: string, mediaId: string, nowIso: string,
                                            later: EditorApi.World, laterIso: string)
    requires SyncSpec(env, world, assets, projectId, mediaId, nowIso).synced.Some?
    requires AlreadySynced(SyncSpec(env, world, assets, projectId, mediaId, nowIso).synced.value)
    ensures var synced := SyncSpec(env, world, assets, projectId, mediaId, nowIso).synced.value;
      SyncSpec(env, later, ReplaceById(assets, mediaId, synced), projectId, mediaId, laterIso) == SyncOutcome(None, later)
  {
    var synced := SyncSpec(env, world, assets, projectId, mediaId, nowIso).synced.value;
    FindAfterReplace(assets, mediaId, synced);
  }

  // The collaborators the manager calls into.

  /** `editor.save` and `editor.timeline` as the manager uses them: the tracks it reads, how
      often the project was marked dirty, and the deletions it asked for. */
  class EditorCore {
    var tracks: seq<Track>
    var dirtyMarks: nat
    var deletions: seq<seq<ElementRef>>

    constructor (tracks: seq<Track>)
      ensures this.tracks == tracks && dirtyMarks == 0 && deletions == []
    {
      this.tracks := tracks;
      dirtyMarks := 0;
      deletions := [];
    }

    method MarkDirty()
      modifies this
      ensures dirtyMarks == old(dirtyMarks) + 1
      ensures tracks == old(tracks) && deletions == old(deletions)
    {
      dirtyMarks := dirtyMarks + 1;
    }

    method DeleteElements(elements: seq<ElementRef>)
      modifies this
      ensures deletions == old(deletions) + [elements]
      ensures tracks == old(tracks) && dirtyMarks == old(dirtyMarks)
    {
      deletions := deletions + [elements];
    }
  }

  /** `storageService` for media: every save and delete is logged; whether the n-th one throws
      and what a load returns come from the caller. */
  class MediaStorage {
    const saveFails: nat -> bool
    const deleteFails: nat -> bool
    const loadAll: string -> Result<seq<MediaAsset>, Thrown>
    var saves: seq<(string, MediaAsset)>
    var deletes: seq<(string, string)>

    constructor (saveFails: nat -> bool, deleteFails: nat -> bool, loadAll: string -> Result<seq<MediaAsset>, Thrown>)
      ensures this.saveFails == saveFails && this.deleteFails == deleteFails && this.loadAll == loadAll
      ensures saves == [] && deletes == []
    {
      this.saveFails := saveFails;
      this.deleteFails := deleteFails;
      this.loadAll := loadAll;
      saves := [];
      deletes := [];
    }

    method SaveMediaAsset(projectId: string, asset: MediaAsset) returns (ok: bool)
      modifies this
      ensures saves == old(saves) + [(projectId, asset)] && deletes == old(deletes)
      ensures ok == !saveFails(|old(saves)|)
    {
      ok := !saveFails(|saves|);
      saves := saves + [(projectId, asset)];
    }

    method DeleteMediaAsset(projectId: string, id: string) returns (ok: bool)
      modifies this
      ensures deletes == old(deletes) + [(projectId, id)] && saves == old(saves)
      ensures ok == !deleteFails(|old(deletes)|)
    {
      ok := !deleteFails(|deletes|);
      deletes := deletes + [(projectId, id)];
    }

    method LoadAllMediaAssets(projectId: string) returns (r: Result<seq<MediaAsset>, Thrown>)
      ensures r == loadAll(projectId)
    {
      r := loadAll(projectId);
    }
  }

  /** The browser's object-URL registry, as far as releasing URLs goes. */
  class ObjectUrls {
    var revoked: seq<string>

    constructor ()
      ensures revoked == []
    {
      revoked := [];
    }

    method Revoke(url: string)
      modifies this
      ensures revoked == old(revoked) + [url]
    {
      revoked := revoked + [url];
    }
  }

  /** Collects `elementsToRemove` for one track. */
  method CollectTrackRefs(hasMediaId: MediaGuard, track: Track, id: string, refs0: seq<ElementRef>) returns (refs: seq<ElementRef>)
    ensures refs == refs0 + TrackRefs(hasMediaId, track.id, track.elements, id)
  {
    refs := refs0;
    var j := 0;
    while j < |track.elements|
      invariant 0 <= j <= |track.elements|
      invariant refs == refs0 + TrackRefs(hasMediaId, track.id, track.elements[..j], id)
    {
      var element := track.elements[j];
      assert track.elements[..j + 1][..j] == track.elements[..j];
      if hasMediaId(element) && element.mediaId == Some(id) {
        refs := refs + [ElementRef(track.id, element.id)];
      }
      j := j + 1;
    }
    assert track.elements[..j] == track.elements;
  }

  /** The two nested loops that collect `elementsToRemove`. */
  method CollectRefs(hasMediaId: MediaGuard, tracks: seq<Track>, id: string) returns (refs: seq<ElementRef>)
    ensures refs == ElementsReferencing(hasMediaId, tracks, id)
  {
    refs := [];
    var i := 0;
    while i < |tracks|
      invariant 0 <= i <= |tracks|
      invariant refs == ElementsReferencing(hasMediaId, tracks[..i], id)
    {
      assert tracks[..i + 1][..i] == tracks[..i];
      refs := CollectTrackRefs(hasMediaId, tracks[i], id, refs);
      i := i + 1;
    }
    assert tracks[..i] == tracks;
  }

  /** The URLs `removeMediaAsset` revokes. */
  method RevokeRemoved(urls: ObjectUrls, asset: Option<MediaAsset>)
    modifies urls
    ensures urls.revoked == old(urls.revoked) + RevokedOnRemove(asset)
  {
    if asset.Some? && TruthyString(asset.value.url) {
      urls.Revoke(asset.value.url.value);
      if TruthyString(asset.value.thumbnailUrl) {
        urls.Revoke(asset.value.thumbnailUrl.value);
      }
    }
  }

  /** The cascade of `removeMediaAsset`: collect the elements using the id, and ask the timeline
      to delete them unless there are none. */
  method DeleteReferencingElements(editor: EditorCore, hasMediaId: MediaGuard, id: string)
    modifies editor
    ensures var refs := ElementsReferencing(hasMediaId, old(editor.tracks), id);
      editor.deletions == old(editor.deletions) + (if refs == [] then [] else [refs])
    ensures editor.tracks == old(editor.tracks) && editor.dirtyMarks == old(editor.dirtyMarks)
  {
    var tracks := editor.tracks;
    var elementsToRemove := CollectRefs(hasMediaId, tracks, id);
    if |elementsToRemove| > 0 {
      editor.DeleteElements(elementsToRemove);
    }
  }

  /** The `forEach` that revokes every asset's URLs. */
  method RevokeAll(urls: ObjectUrls, assets: seq<MediaAsset>)
    modifies urls
    ensures urls.revoked == old(urls.revoked) + RevokedOnClear(assets)
  {
    var i := 0;
    while i < |assets|
      invariant 0 <= i <= |assets|
      invariant urls.revoked == old(urls.revoked) + RevokedOnClear(assets[..i])
    {
      assert assets[..i + 1][..i] == assets[..i];
      if TruthyString(assets[i].url) {
        urls.Revoke(assets[i].url.value);
      }
      if TruthyString(assets[i].thumbnailUrl) {
        urls.Revoke(assets[i].thumbnailUrl.value);
      }
      i := i + 1;
    }
    assert assets[..i] == assets;
  }

  /** `Promise.all(mediaIds.map(...deleteMediaAsset...))`: every delete is started, whichever
      of them throws. */
  method DeleteAll(store: MediaStorage, projectId: string, ids: seq<string>)
    modifies store
    ensures store.deletes == old(store.deletes) + DeleteRequests(projectId, ids)
    ensures store.saves == old(store.saves)
  {
    var i := 0;
    while i < |ids|
      invariant 0 <= i <= |ids|
      invariant store.deletes == old(store.deletes) + DeleteRequests(projectId, ids[..i])
      invariant store.saves == old(store.saves)
    {
      assert ids[..i + 1][..i] == ids[..i];
      var ok := store.DeleteMediaAsset(projectId, ids[i]);
      i := i + 1;
    }
    assert ids[..i] == ids;
  }

  /** The upload, the PUT and the id recovery against the network, as `TransferSpec` says. */
  method Transfer(net: Network, storage: BackendApi.WorkspaceStorage, session: Session.AuthSession,
                  configuredBase: Option<string>, token: string, projectId: string, mediaId: string, asset: MediaAsset)
    returns (r: Result<CloudRef, Thrown>)
    modifies net, storage, session
    ensures EditorApi.Outcome(r, EditorApi.World(net.log, storage.items, session.accessToken)) ==
      TransferSpec(EditorApi.Env(net.respond, configuredBase, storage.hasWindow),
                   EditorApi.World(old(net.log), old(storage.items), old(session.accessToken)), token, projectId, mediaId, asset)
  {
    var uploadResponse := EditorApi.RequestWithAuthRetry(net, storage, session, configuredBase,
      EditorApi.CreateFileUploadCall(UploadPayload(projectId, mediaId, asset)), token);
    if uploadResponse.Failure? {
      return Failure(uploadResponse.error);
    }
    var slot := UploadSlotOf(uploadResponse.value);
    if slot.Failure? {
      return Failure(slot.error);
    }
    r := PutAndRecover(net, storage, session, configuredBase, token, UploadFileName(projectId, mediaId, asset.name), asset, slot.value);
  }

  method PutAndRecover(net: Network, storage: BackendApi.WorkspaceStorage, session: Session.AuthSession,
                       configuredBase: Option<string>, token: string, fileName: string, asset: MediaAsset, slot: UploadSlot)
    returns (r: Result<CloudRef, Thrown>)
    modifies net, storage, session
    ensures EditorApi.Outcome(r, EditorApi.World(net.log, storage.items, session.accessToken)) ==
      PutAndRecoverSpec(EditorApi.Env(net.respond, configuredBase, storage.hasWindow),
                        EditorApi.World(old(net.log), old(storage.items), old(session.accessToken)), token, fileName, asset, slot)
  {
    var putError := EditorApi.UploadFileToPresignedUrl(net, slot.uploadUrl, asset.file, ContentType(asset.file));
    if putError.Some? {
      return Failure(putError.value);
    }
    var cloudFileId := RecoverCloudFileId(net, storage, session, configuredBase, token, fileName, slot);
    if cloudFileId.Failure? {
      return Failure(cloudFileId.error);
    }
    r := Success(CloudRef(cloudFileId.value, slot.key));
  }

  /** The `if (!cloudFileId)` branch: list the files named like the upload and match the key. */
  method RecoverCloudFileId(net: Network, storage: BackendApi.WorkspaceStorage, session: Session.AuthSession,
                            configuredBase: Option<string>, token: string, fileName: string, slot: UploadSlot)
    returns (r: Result<Json, Thrown>)
    modifies net, storage, session
    ensures EditorApi.Outcome(r, EditorApi.World(net.log, storage.items, session.accessToken)) ==
      CloudIdSpec(EditorApi.Env(net.respond, configuredBase, storage.hasWindow),
                  EditorApi.World(old(net.log), old(storage.items), old(session.accessToken)), token, fileName, slot)
  {
    if Present(slot.id) {
      return Success(slot.id.value);
    }
    var listResponse := EditorApi.RequestWithAuthRetry(net, storage, session, configuredBase,
      EditorApi.ListFilesCall(Some(100), Some(fileName)), token);
    if listResponse.Failure? {
      return Failure(listResponse.error);
    }
    var items := ListedItems(listResponse.value);
    if items.Failure? {
      return Failure(items.error);
    }
    r := MatchedFileId(items.value, slot.key);
  }

  /** The part of `syncMediaAssetToCloud` before the merge: the token and idempotence guards and
      the transfer, on the asset list as it stands. `None` when the sync stops or throws. */
  method SyncTransfer(net: Network, storage: BackendApi.WorkspaceStorage, session: Session.AuthSession,
                      configuredBase: Option<string>, assets: seq<MediaAsset>, projectId: string, mediaId: string,
                      nowIso: string)
    returns (cloud: Option<CloudRef>)
    modifies net, storage, session
    ensures var out := SyncSpec(EditorApi.Env(net.respond, configuredBase, storage.hasWindow),
                          EditorApi.World(old(net.log), old(storage.items), old(session.accessToken)),
                          assets, projectId, mediaId, nowIso);
      EditorApi.World(net.log, storage.items, session.accessToken) == out.world &&
      (out.synced.Some? <==> cloud.Some?) &&
      (cloud.Some? ==> FindAsset(assets, mediaId).Some? &&
                       out.synced.value == SyncedAsset(FindAsset(assets, mediaId).value, cloud.value, nowIso))
  {
    var token := session.GetToken();
    if !TruthyString(token) {
      return None;
    }
    var asset := FindAsset(assets, mediaId);
    if asset.None? || AlreadySynced(asset.value) {
      return None;
    }
    var transferred := Transfer(net, storage, session, configuredBase, token.value, projectId, mediaId, asset.value);
    if transferred.Failure? {
      return None;
    }
    cloud := Some(transferred.value);
  }

  /** `MediaManager`: the asset list, the loading flag, the listeners and how often they were
      notified. */
  class MediaManager {
    const editor: EditorCore
    var assets: seq<MediaAsset>
    var isLoading: bool
    var listeners: set<nat>
    var notifications: nat

    constructor (editor: EditorCore)
      ensures this.editor == editor && assets == [] && !isLoading && listeners == {} && notifications == 0
    {
      this.editor := editor;
      assets := [];
      isLoading := false;
      listeners := {};
      notifications := 0;
    }

    /** `notify`: every listener is called once; only the count is kept. */
    method Notify()
      modifies this
      ensures notifications == old(notifications) + 1
      ensures assets == old(assets) && isLoading == old(isLoading) && listeners == old(listeners)
    {
      notifications := notifications + 1;
    }

    /** `addMediaAsset` with `freshId` as the generated UUID. The asset is appended and the save
        attempted; a failed save filters the new id out again. `saved` says whether the sync
        would be started. */
    method AddMediaAsset(store: MediaStorage, projectId: string, asset: MediaAsset, freshId: string) returns (saved: bool)
      modifies this, store
      ensures var added := asset.(id := freshId);
        store.saves == old(store.saves) + [(projectId, added)] && store.deletes == old(store.deletes) &&
        saved == !store.saveFails(|old(store.saves)|) &&
        assets == (if saved then old(assets) + [added] else WithoutId(old(assets) + [added], freshId))
      ensures notifications == old(notifications) + (if saved then 1 else 2)
      ensures isLoading == old(isLoading) && listeners == old(listeners)
    {
      var added := asset.(id := freshId);
      assets := assets + [added];
      Notify();
      saved := store.SaveMediaAsset(projectId, added);
      if !saved {
        assets := WithoutId(assets, added.id);
        Notify();
      }
    }

    /** `removeMediaAsset`: revoke the asset's URLs, filter the id out, mark the project dirty,
        delete the timeline elements that use it (when there are any), and delete the stored
        asset, ignoring a failure. */
    method RemoveMediaAsset(store: MediaStorage, urls: ObjectUrls, hasMediaId: MediaGuard, projectId: string, id: string)
      modifies this, editor, store, urls
      ensures urls.revoked == old(urls.revoked) + RevokedOnRemove(FindAsset(old(assets), id))
      ensures assets == WithoutId(old(assets), id)
      ensures editor.tracks == old(editor.tracks) && editor.dirtyMarks == old(editor.dirtyMarks) + 1
      ensures var refs := ElementsReferencing(hasMediaId, old(editor.tracks), id);
        editor.deletions == old(editor.deletions) + (if refs == [] then [] else [refs])
      ensures store.deletes == old(store.deletes) + [(projectId, id)] && store.saves == old(store.saves)
      ensures notifications == old(notifications) + 1
      ensures isLoading == old(isLoading) && listeners == old(listeners)
    {
      var asset := FindAsset(assets, id);
      RevokeRemoved(urls, asset);
      assets := WithoutId(assets, id);
      Notify();
      editor.MarkDirty();
      DeleteReferencingElements(editor, hasMediaId, id);
      var ok := store.DeleteMediaAsset(projectId, id);
    }

    /** `loadProjectMedia`: the loaded list replaces the assets; a failed load keeps them. The
        loading flag is off again at the end either way. */
    method LoadProjectMedia(store: MediaStorage, projectId: string)
      modifies this
      ensures var loaded := store.loadAll(projectId);
        assets == (if loaded.Success? then loaded.value else old(assets)) &&
        notifications == old(notifications) + (if loaded.Success? then 3 else 2)
      ensures !isLoading && listeners == old(listeners)
    {
      isLoading := true;
      Notify();
      var loaded := store.LoadAllMediaAssets(projectId);
      if loaded.Success? {
        assets := loaded.value;
        Notify();
      }
      isLoading := false;
      Notify();
    }

    /** `clearProjectMedia`: revoke every URL, empty the list, and start the delete of every
        stored asset that was listed. */
    method ClearProjectMedia(store: MediaStorage, urls: ObjectUrls, projectId: string)
      modifies this, store, urls
      ensures urls.revoked == old(urls.revoked) + RevokedOnClear(old(assets))
      ensures assets == []
      ensures store.deletes == old(store.deletes) + DeleteRequests(projectId, AssetIds(old(assets)))
      ensures store.saves == old(store.saves)
      ensures notifications == old(notifications) + 1
      ensures isLoading == old(isLoading) && listeners == old(listeners)
    {
      RevokeAll(urls, assets);
      var mediaIds := AssetIds(assets);
      assets := [];
      Notify();
      DeleteAll(store, projectId, mediaIds);
    }

    /** `clearAllAssets`: revoke every URL and empty the list; storage is left alone. */
    method ClearAllAssets(urls: ObjectUrls)
      modifies this, urls
      ensures urls.revoked == old(urls.revoked) + RevokedOnClear(old(assets))
      ensures assets == [] && notifications == old(notifications) + 1
      ensures isLoading == old(isLoading) && listeners == old(listeners)
    {
      RevokeAll(urls, assets);
      assets := [];
      Notify();
    }

    method GetAssets() returns (r: seq<MediaAsset>)
      ensures r == assets
    {
      r := assets;
    }

    method SetAssets(newAssets: seq<MediaAsset>)
      modifies this
      ensures assets == newAssets && notifications == old(notifications) + 1
      ensures isLoading == old(isLoading) && listeners == old(listeners)
    {
      assets := newAssets;
      Notify();
    }

    method IsLoadingMedia() returns (r: bool)
      ensures r == isLoading
    {
      r := isLoading;
    }

    /** `subscribe(listener)`; the function it returns is `Unsubscribe(listener)`. */
    method Subscribe(listener: nat)
      modifies this
      ensures listeners == old(listeners) + {listener}
      ensures assets == old(assets) && isLoading == old(isLoading) && notifications == old(notifications)
    {
      listeners := listeners + {listener};
    }

    method Unsubscribe(listener: nat)
      modifies this
      ensures listeners == old(listeners) - {listener}
      ensures assets == old(assets) && isLoading == old(isLoading) && notifications == old(notifications)
    {
      listeners := listeners - {listener};
    }

    /** `syncMediaAssetToCloud`, run to completion on its own. The world moves as `SyncSpec`
        says; when it yields a synced asset, that one entry is replaced, the listeners are
        notified, the project is marked dirty and the synced asset is saved (a failed save is
        swallowed and leaves the merged list in place). A sync that stops early or throws
        leaves the list, the editor and storage alone. */
    method SyncMediaAssetToCloud(net: Network, storage: BackendApi.WorkspaceStorage, session: Session.AuthSession,
                                 configuredBase: Option<string>, store: MediaStorage,
                                 projectId: string, mediaId: string, nowIso: string)
      modifies this, editor, net, storage, session, store
      ensures var out := SyncSpec(EditorApi.Env(net.respond, configuredBase, storage.hasWindow),
                                  EditorApi.World(old(net.log), old(storage.items), old(session.accessToken)),
                                  old(assets), projectId, mediaId, nowIso);
        EditorApi.World(net.log, storage.items, session.accessToken) == out.world &&
        assets == (if out.synced.Some? then ReplaceById(old(assets), mediaId, out.synced.value) else old(assets)) &&
        store.saves == old(store.saves) + (if out.synced.Some? then [(projectId, out.synced.value)] else []) &&
        editor.dirtyMarks == old(editor.dirtyMarks) + (if out.synced.Some? then 1 else 0) &&
        notifications == old(notifications) + (if out.synced.Some? then 1 else 0)
      ensures store.deletes == old(store.deletes)
      ensures editor.tracks == old(editor.tracks) && editor.deletions == old(editor.deletions)
      ensures isLoading == old(isLoading) && listeners == old(listeners)
    {
      var cloud := SyncTransfer(net, storage, session, configuredBase, assets, projectId, mediaId, nowIso);
      if cloud.None? {
        return;
      }
      var latest := FindAsset(assets, mediaId);
      if latest.None? {
        return;
      }
      var synced := SyncedAsset(latest.value, cloud.value, nowIso);
      assets := ReplaceById(assets, mediaId, synced);
      Notify();
      editor.MarkDirty();
      var ok := store.SaveMediaAsset(projectId, synced);
    }
  }
}
