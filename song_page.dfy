/**
 * The song recommender page (app/song-recommender-app/page.jsx): the text
 * box, the current mood, the songs shown so far, the paging offset and the
 * `loading` flag, with the page's handlers as methods.
 *
 * `fetchSongs` is split at its `await`: `BeginFetch` sets `loading` and
 * returns the request body; `FinishFetch` applies what came back, given as
 * an input value.
 */
module SongPage {
  import opened Wrappers
  import opened Strings
  import opened Errors
  import opened SongRecommenderRoute
  import Uri

  /** Songs per page: the offset moves by this much per successful fetch. */
  const PageSize := 5

  const SpotifySearch := "https://open.spotify.com/search/"
  const YoutubeSearch := "https://www.youtube.com/results?search_query="

  /** The JSON body the page posts: `{text, mood, offset}`. */
  datatype FetchBody = FetchBody(text: string, mood: Option<MoodInfo>, offset: int)

  /** The fields of the parsed reply the page reads. */
  datatype Data = Data(success: bool, mood: Option<MoodInfo>, songs: Option<seq<Song>>)

  /** What the page's `await`s produce: an error thrown by `fetch` or `res.json()`, or the parsed reply. */
  datatype FetchReply = Threw | Received(data: Data)

  /** A reply the page applies: one that arrived and says `success`. */
  predicate Accepted(reply: FetchReply) {
    reply.Received? && reply.data.success
  }

  /** The route's reply as the page reads it. */
  function DataOf(r: SongResponse): (d: Data)
    ensures d.success <==> r.Recommended?
  {
    match r
    case Recommended(mood, songs) => Data(true, Some(mood), Some(songs))
    case Failed(_) => Data(false, None, None)
  }

  /** `getSpotifyLink`: the search prefix followed by the encoded query. */
  function SpotifyLink(query: string): (link: string)
    ensures link == SpotifySearch + Uri.EncodeUriComponent(query)
    ensures |SpotifySearch| <= |link| && link[..|SpotifySearch|] == SpotifySearch
    ensures forall i :: |SpotifySearch| <= i < |link| ==> Uri.IsEncodedChar(link[i])
  {
    SpotifySearch + Uri.EncodeUriComponent(query)
  }

  /** `getYoutubeLink`: the search prefix followed by the encoded query. */
  function YoutubeLink(query: string): (link: string)
    ensures link == YoutubeSearch + Uri.EncodeUriComponent(query)
    ensures |YoutubeSearch| <= |link| && link[..|YoutubeSearch|] == YoutubeSearch
    ensures forall i :: |YoutubeSearch| <= i < |link| ==> Uri.IsEncodedChar(link[i])
  {
    YoutubeSearch + Uri.EncodeUriComponent(query)
  }

  class SongPage {
    var text: string
    var mood: Option<MoodInfo>
    var songs: seq<Song>
    var loading: bool
    var offset: int

    /** The page's initial state. */
    constructor ()
      ensures text == "" && mood == None && songs == [] && !loading && offset == 0
    {
      text, mood, songs, loading, offset := "", None, [], false, 0;
    }

    /**
     * The part of fetchSongs before its first `await`: sets `loading` and
     * builds the body, `{text, mood: null, offset: 0}` for a fresh fetch and
     * `{text: "", mood, offset}` for load-more.
     */
    method BeginFetch(isLoadMore: bool) returns (body: FetchBody)
      modifies this
      ensures loading
      ensures body == if isLoadMore then FetchBody("", mood, offset) else FetchBody(text, None, 0)
      ensures text == old(text) && mood == old(mood) && songs == old(songs) && offset == old(offset)
    {
      loading := true;
      body := FetchBody(if isLoadMore then "" else text, if isLoadMore then mood else None,
                        if isLoadMore then offset else 0);
    }

    /**
     * The rest of fetchSongs: an accepted reply sets the mood and either
     * replaces the songs and sets the offset to 5, or (load-more) appends the
     * new songs and adds 5; any other outcome leaves mood, songs and offset
     * alone. `loading` ends false on every path.
     */
    method FinishFetch(isLoadMore: bool, reply: FetchReply)
      modifies this
      ensures !loading && text == old(text)
      ensures Accepted(reply) ==> mood == reply.data.mood
      ensures Accepted(reply) && isLoadMore ==>
        songs == old(songs) + reply.data.songs.GetOr([]) && offset == old(offset) + PageSize
      ensures Accepted(reply) && !isLoadMore ==> songs == reply.data.songs.GetOr([]) && offset == PageSize
      ensures !Accepted(reply) ==> mood == old(mood) && songs == old(songs) && offset == old(offset)
    {
      if Accepted(reply) {
        var data := reply.data;
        mood := data.mood;
        if isLoadMore {
          songs := songs + data.songs.GetOr([]);
          offset := offset + PageSize;
        } else {
          songs := data.songs.GetOr([]);
          offset := PageSize;
        }
      }
      loading := false;
    }

    /** fetchSongs: both halves, returning the body that was posted. */
    method FetchSongs(isLoadMore: bool, reply: FetchReply) returns (body: FetchBody)
      modifies this
      ensures body == if isLoadMore then FetchBody("", old(mood), old(offset)) else FetchBody(old(text), None, 0)
      ensures !loading && text == old(text)
      ensures Accepted(reply) ==> mood == reply.data.mood
      ensures Accepted(reply) && isLoadMore ==>
        songs == old(songs) + reply.data.songs.GetOr([]) && offset == old(offset) + PageSize
      ensures Accepted(reply) && !isLoadMore ==> songs == reply.data.songs.GetOr([]) && offset == PageSize
      ensures !Accepted(reply) ==> mood == old(mood) && songs == old(songs) && offset == old(offset)
    {
      body := BeginFetch(isLoadMore);
      FinishFetch(isLoadMore, reply);
    }

    /**
     * handleGenerate: nothing for a blank text; otherwise clears mood, songs
     * and offset, then makes a fresh fetch.
     */
    method Generate(reply: FetchReply) returns (body: Option<FetchBody>)
      modifies this
      ensures body.None? <==> IsBlank(old(text))
      ensures body.None? ==>
        mood == old(mood) && songs == old(songs) && offset == old(offset) && loading == old(loading)
      ensures body.Some? ==> body.value == FetchBody(old(text), None, 0) && !loading
      ensures body.Some? && Accepted(reply) ==>
        mood == reply.data.mood && songs == reply.data.songs.GetOr([]) && offset == PageSize
      ensures body.Some? && !Accepted(reply) ==> mood == None && songs == [] && offset == 0
      ensures text == old(text)
    {
      if IsBlank(text) {
        return None;
      }
      mood := None;
      songs := [];
      offset := 0;
      var posted := FetchSongs(false, reply);
      body := Some(posted);
    }

    /** handleLoadMore: a load-more fetch with the current mood and offset. */
    method LoadMore(reply: FetchReply) returns (body: FetchBody)
      modifies this
      ensures body == FetchBody("", old(mood), old(offset))
      ensures !loading && text == old(text)
      ensures Accepted(reply) ==>
        mood == reply.data.mood && songs == old(songs) + reply.data.songs.GetOr([]) &&
        offset == old(offset) + PageSize
      ensures !Accepted(reply) ==> mood == old(mood) && songs == old(songs) && offset == old(offset)
    {
      body := FetchSongs(true, reply);
    }

    /** handleReset: empty text, no mood, no songs, offset 0. */
    method Reset()
      modifies this
      ensures text == "" && mood == None && songs == [] && offset == 0
      ensures loading == old(loading)
    {
      text := "";
      mood := None;
      songs := [];
      offset := 0;
    }
  }

  /**
   * Load-more through the route: the page sends its current mood, the route
   * treats it as a supplied mood, and the page keeps the route's reply. After
   * one round the page's mood has lost its primary mood, secondary mood and
   * language, whatever they were, while the new songs are appended.
   */
  method LoadMoreRoundTrip(current: MoodInfo, shown: seq<Song>, more: seq<Song>, detection: Result<MoodData, Thrown>)
    returns (moodAfter: Option<MoodInfo>, songsAfter: seq<Song>)
    ensures moodAfter == Some(MoodInfo(None, None, Some(Medium), None))
    ensures songsAfter == shown + more
  {
    var page := new SongPage();
    page.mood, page.songs, page.offset := Some(current), shown, PageSize;
    var body := page.BeginFetch(true);
    var exchange := Post(Readable(SongRequest(Some(body.text), body.mood)), detection, Success(SongsData(Some(more))));
    page.FinishFetch(true, Received(DataOf(exchange.response)));
    moodAfter, songsAfter := page.mood, page.songs;
  }
}
