/**
 * The mood-and-songs endpoint (POST /api/song-recommender-agent): find the
 * mood (from the request, or by asking the model), ask the model for songs,
 * and reply with the mood's four fields and the song list.
 *
 * Both model calls are inputs, each the value its reply parses to or the
 * error thrown by the call, by reading its text or by `JSON.parse`. The
 * prompt texts are not modelled; the mood detection is made only when the
 * request carries no mood.
 */
module SongRecommenderRoute {
  import opened Wrappers
  import opened Errors

  /** The mood object a reply carries; fields a reply leaves out are None. */
  datatype MoodInfo = MoodInfo(
    primaryMood: Option<string>, secondaryMood: Option<string>,
    energyLevel: Option<string>, language: Option<string>)

  /**
   * `moodData`: the four mood fields, plus the `mood` key under which a
   * supplied mood is stored (and which nothing reads again).
   */
  datatype MoodData = MoodData(mood: Option<MoodInfo>, info: MoodInfo)

  datatype Song = Song(title: string, artist: string, reason: string, spotifyQuery: string, youtubeQuery: string)

  /** The parsed song reply; `songs` is None when the key is absent or null. */
  datatype SongsData = SongsData(songs: Option<seq<Song>>)

  /** The request's `{text, mood}`; a falsy `mood` is None. */
  datatype SongRequest = SongRequest(text: Option<string>, mood: Option<MoodInfo>)

  /** `{success:true, mood, songs}`, or the 500 reply `{success:false, message}` with the error's own message. */
  datatype SongResponse = Recommended(mood: MoodInfo, songs: seq<Song>) | Failed(message: Option<string>)

  /** The reply, and whether the mood-detection call was made. */
  datatype SongExchange = SongExchange(response: SongResponse, moodDetected: bool)

  const Medium := "medium"

  /** `{mood, energyLevel: "medium"}` for a supplied mood. */
  function SuppliedMoodData(mood: MoodInfo): (d: MoodData)
    ensures d.info == MoodInfo(None, None, Some(Medium), None)
  {
    MoodData(Some(mood), MoodInfo(None, None, Some(Medium), None))
  }

  /** The response's `mood`: the four fields of `moodData`, copied one by one. */
  function Projection(d: MoodData): (r: MoodInfo)
    ensures r == d.info
  {
    MoodInfo(d.info.primaryMood, d.info.secondaryMood, d.info.energyLevel, d.info.language)
  }

  /**
   * The POST handler. `detection` is the parsed mood-detection reply (as
   * `moodData`), `recommendation` the parsed song reply.
   */
  function Post(request: Request<SongRequest>, detection: Result<MoodData, Thrown>,
                recommendation: Result<SongsData, Thrown>): (r: SongExchange)
    ensures r.moodDetected <==> request.Readable? && request.fields.mood.None?
    ensures r.response.Failed? <==>
      (request.Unreadable? || (r.moodDetected && detection.Failure?) || recommendation.Failure?)
    ensures r.response.Recommended? ==> r.response.songs == recommendation.value.songs.GetOr([])
    ensures r.response.Recommended? && request.fields.mood.Some? ==>
      r.response.mood == MoodInfo(None, None, Some(Medium), None)
    ensures r.response.Recommended? && r.moodDetected ==> r.response.mood == detection.value.info
    ensures r.response.Failed? ==> (r.response.message ==
      if request.Unreadable? then request.error.message
      else if r.moodDetected && detection.Failure? then detection.error.message
      else recommendation.error.message)
  {
    match request
    case Unreadable(e) => SongExchange(Failed(e.message), false)
    case Readable(SongRequest(text, mood)) =>
      var detected := mood.None?;
      var moodData := if mood.Some? then Success(SuppliedMoodData(mood.value)) else detection;
      match moodData
      case Failure(e) => SongExchange(Failed(e.message), detected)
      case Success(data) =>
        match recommendation
        case Failure(e) => SongExchange(Failed(e.message), detected)
        case Success(songsData) =>
          SongExchange(Recommended(Projection(data), songsData.songs.GetOr([])), detected)
  }

  /**
   * A supplied mood never reaches the reply: whatever its fields, the reply's
   * mood has only `energyLevel` "medium", and primary mood, secondary mood and
   * language are absent.
   */
  lemma SuppliedMoodIsDropped(m: MoodInfo, text: Option<string>, detection: Result<MoodData, Thrown>, songs: SongsData)
    ensures Post(Readable(SongRequest(text, Some(m))), detection, Success(songs)).response
      == Recommended(MoodInfo(None, None, Some(Medium), None), songs.songs.GetOr([]))
  {
  }
}
