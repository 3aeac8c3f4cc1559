/** The project data the cloud-sync layer reads and writes: a project holds scenes, a scene holds
    tracks, a track holds elements. Fields this layer never inspects are kept as JSON values. */
module Timeline {
  import opened Wrappers
  import opened Json

  /** A JavaScript `Date`: an instant in milliseconds, or the invalid date. */
  datatype Date = Instant(ms: int) | InvalidDate

  /** A timeline element. `buffer` stands for the decoded audio an audio element may carry; the
      other fields (timing, transform, name, ...) are `props`. */
  datatype Element = Element(
    id: string,
    elementType: string,
    mediaId: Option<string>,
    buffer: Option<Json>,
    props: map<string, Json>)

  datatype Track = Track(id: string, trackType: string, elements: seq<Element>, props: map<string, Json>)

  datatype Scene = Scene(
    id: string,
    name: string,
    isMain: bool,
    bookmarks: seq<Json>,
    createdAt: Date,
    updatedAt: Date,
    tracks: seq<Track>)

  datatype Metadata = Metadata(id: string, name: string, duration: int, createdAt: Date, updatedAt: Date)

  datatype Project = Project(
    metadata: Metadata,
    currentSceneId: string,
    settings: Json,
    scenes: seq<Scene>,
    version: int)

  /** `hasMediaId(element)`: a type guard whose definition is not part of this model. Any guard
      will do, as long as an element it accepts does carry a media id. */
  type MediaGuard = hasMediaId: Element -> bool | forall e :: hasMediaId(e) ==> e.mediaId.Some?
    witness (e: Element) => false

  /** `hasMediaId(element) && element.mediaId === id`. */
  predicate References(hasMediaId: MediaGuard, e: Element, mediaId: string) {
    hasMediaId(e) && e.mediaId == Some(mediaId)
  }
}
