/** `stopCamera`: releasing the camera stream attached to the page's video
    element (src/camera/camera.js). The page is the video element (absent
    when the view is not showing it) plus every media track the page has
    created, by identity. */
module Media {
  import opened Wrappers

  datatype TrackKind = AudioTrack | VideoTrack

  /** A media track's `readyState`: `stop()` moves it to `Ended` for good. */
  datatype ReadyState = Live | Ended

  datatype Track = Track(kind: TrackKind, state: ReadyState)

  type TrackId = nat

  /** A media stream: the tracks it carries, by identity. */
  datatype Stream = Stream(trackIds: seq<TrackId>)

  /** The `.camera-video` element; `srcObject` is null or a stream. */
  datatype VideoElement = VideoElement(srcObject: Option<Stream>)

  datatype Page = Page(video: Option<VideoElement>, tracks: map<TrackId, Track>)

  /** `stream.getVideoTracks()`: the stream's tracks of video kind. */
  function VideoTracks(tracks: map<TrackId, Track>, ids: seq<TrackId>): (r: seq<TrackId>)
    ensures forall id :: id in r <==> id in ids && id in tracks && tracks[id].kind == VideoTrack
  {
    if |ids| == 0 then []
    else if ids[0] in tracks && tracks[ids[0]].kind == VideoTrack
    then [ids[0]] + VideoTracks(tracks, ids[1..])
    else VideoTracks(tracks, ids[1..])
  }

  /** `track.stop()` for one track. */
  function StopTrack(t: Track): Track
  {
    t.(state := Ended)
  }

  /** `ids.forEach(track => track.stop())`. */
  function StopAll(tracks: map<TrackId, Track>, ids: seq<TrackId>): (r: map<TrackId, Track>)
    ensures r.Keys == tracks.Keys
    ensures forall id :: id in ids && id in tracks ==> r[id] == StopTrack(tracks[id])
    ensures forall id :: id !in ids && id in tracks ==> r[id] == tracks[id]
  {
    if |ids| == 0 then tracks
    else
      var id := ids[0];
      var stopped := if id in tracks then tracks[id := StopTrack(tracks[id])] else tracks;
      StopAll(stopped, ids[1..])
  }

  /** `stopCamera()`. Under the Cypress test runner it does nothing. It
      throws when the page shows no video element, does nothing when no
      stream is attached, and otherwise stops every video track of the
      attached stream and detaches the stream. */
  function StopCamera(p: Page, cypress: bool): (r: Result<Page, JsError>)
    ensures cypress ==> r == Success(p)
    ensures !cypress && p.video.None? ==> r == Failure(TypeError)
    ensures r.Failure? ==> !cypress && p.video.None?
    ensures r.Success? ==> r.value.tracks.Keys == p.tracks.Keys
    ensures r.Success? && !cypress ==> r.value.video == Some(VideoElement(None))
    ensures r.Success? && !cypress && p.video.value.srcObject.Some? ==>
      forall id :: id in p.video.value.srcObject.value.trackIds && id in p.tracks ==>
        r.value.tracks[id].kind == p.tracks[id].kind &&
        (p.tracks[id].kind == VideoTrack ==> r.value.tracks[id].state == Ended) &&
        (p.tracks[id].kind == AudioTrack ==> r.value.tracks[id] == p.tracks[id])
    ensures r.Success? && !cypress && p.video.value.srcObject.Some? ==>
      forall id :: id in p.tracks && id !in p.video.value.srcObject.value.trackIds ==>
        r.value.tracks[id] == p.tracks[id]
    ensures r.Success? && p.video.Some? && p.video.value.srcObject.None? ==> r == Success(p)
  {
    if cypress then Success(p)
    else
      match p.video
      case None => Failure(TypeError)  // `null.srcObject`
      case Some(video) =>
        match video.srcObject
        case None => Success(p)
        case Some(stream) =>
          var tracks := StopAll(p.tracks, VideoTracks(p.tracks, stream.trackIds));
          Success(Page(Some(VideoElement(None)), tracks))
  }

  /** A second `stopCamera()` changes nothing: whatever the first call left
      behind, the second leaves as it is. */
  lemma StopCameraIdempotent(p: Page, cypress: bool)
    requires StopCamera(p, cypress).Success?
    ensures StopCamera(StopCamera(p, cypress).value, cypress) == StopCamera(p, cypress)
  {
  }

  /** After `stopCamera()` (outside Cypress) no track that was live on the
      attached stream's video side is still live. */
  lemma NoLiveVideoTrackRemains(p: Page, id: TrackId)
    requires p.video.Some? && p.video.value.srcObject.Some?
    requires id in p.video.value.srcObject.value.trackIds && id in p.tracks
    requires p.tracks[id].kind == VideoTrack
    ensures StopCamera(p, false).Success?
    ensures StopCamera(p, false).value.tracks[id].state != Live
  {
  }
}
