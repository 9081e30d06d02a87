/**
 * The static song lookup tool (lib/tools/SongRecommendation.js): a mood
 * keyword picks one of three fixed playlists, anything else a default one.
 */
module SongRecommendation {
  import opened Wrappers

  /** The tool's argument `{mood}`; `mood` is None when the key is absent. */
  datatype Params = Params(mood: Option<string>)

  /** The tool's result `{mood, songs}`. */
  datatype Recommendation = Recommendation(mood: Option<string>, songs: seq<string>)

  const Playlists: map<string, seq<string>> := map[
    "romantic" := ["Perfect - Ed Sheeran", "Raabta - Arijit Singh", "Tum Hi Ho"],
    "sad" := ["Fix You - Coldplay", "Let Her Go - Passenger"],
    "happy" := ["Happy - Pharrell Williams", "Can't Stop the Feeling"]
  ]

  const DefaultPlaylist := ["Believer - Imagine Dragons"]

  /** Whether a mood names one of the table's playlists. */
  predicate IsKnownMood(mood: Option<string>) {
    mood.Some? && mood.value in Playlists
  }

  /**
   * `tools.recommendSongs`: echoes the mood and returns its playlist, or the
   * default playlist for an absent or unknown mood.
   */
  function RecommendSongs(params: Params): (r: Recommendation)
    ensures r.mood == params.mood
    ensures r.songs != []
    ensures r.songs == DefaultPlaylist <==> !IsKnownMood(params.mood)
    ensures IsKnownMood(params.mood) ==> r.songs == Playlists[params.mood.value]
  {
    var songs := if IsKnownMood(params.mood) then Playlists[params.mood.value] else DefaultPlaylist;
    Recommendation(params.mood, songs)
  }

  /** The three table entries, each in its listed order. */
  lemma KnownPlaylists()
    ensures RecommendSongs(Params(Some("romantic"))).songs ==
      ["Perfect - Ed Sheeran", "Raabta - Arijit Singh", "Tum Hi Ho"]
    ensures RecommendSongs(Params(Some("sad"))).songs == ["Fix You - Coldplay", "Let Her Go - Passenger"]
    ensures RecommendSongs(Params(Some("happy"))).songs == ["Happy - Pharrell Williams", "Can't Stop the Feeling"]
    ensures RecommendSongs(Params(None)).songs == ["Believer - Imagine Dragons"]
  {
  }
}
