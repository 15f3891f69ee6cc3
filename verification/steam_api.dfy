/** The Steam Web API side of get.py: how a response body is classified, and
    how owned games, the friend list and friend profiles are turned into
    records. The HTTPS request is a parameter: `fetch` gives the classified
    response for a batch of IDs, and `parse` stands for `json.loads`. */
module SteamApi {
  import opened Wrappers
  import opened Text
  import opened Json
  import opened Dicts
  import Datetimes

  /** Every HTML page starts with this. */
  const HTML_START: string := "<html>"

  /** The exact body Steam sends for a rejected key. */
  const UNAUTHORIZED_BODY: string :=
    HTML_START + "<head><title>Unauthorized</title></head><body><h1>Unauthorized</h1>Access is denied. Retrying will not help. Please verify your <pre>key=</pre> parameter.</body></html>"

  /** The exact body Steam sends for missing parameters. */
  const BAD_REQUEST_BODY: string :=
    HTML_START + "<head><title>Bad Request</title></head><body><h1>Bad Request</h1>Please verify that all required parameters are being sent</body></html>"

  /** The avatar hash Steam reports for a profile without a picture. */
  const DEFAULT_AVATAR_HASH: string := "fef49e7fa7e1997310d705b2a6158ff8dc1cdfeb"

  /** Profiles are requested this many at a time. */
  const BATCH_SIZE: nat := 100

  /** The exceptions `_get_response_from_steam_api` raises: ValueError for the
      key, ValueError for the parameters, ConnectionError for any other HTML
      page, and the decoder's error for a body that is not JSON. */
  datatype ApiError = InvalidKey | InvalidParams | UnknownError(body: string) | NotJson

  /** `_get_response_from_steam_api` once the body has been read. */
  function ClassifyResponse(body: string, parse: string -> Option<Json>): (r: Result<Json, ApiError>)
    ensures r == Err(InvalidKey) <==> body == UNAUTHORIZED_BODY
    ensures r == Err(InvalidParams) <==> body == BAD_REQUEST_BODY
    ensures (r.Err? && r.error.UnknownError?) <==>
              body != UNAUTHORIZED_BODY && body != BAD_REQUEST_BODY && StartsWith(body, HTML_START)
    ensures r.Err? && r.error.UnknownError? ==> r.error.body == body
    ensures !StartsWith(body, HTML_START) ==> r == (if parse(body).Some? then Ok(parse(body).value) else Err(NotJson))
  {
    KnownBodiesAreHtml();
    if body == UNAUTHORIZED_BODY then Err(InvalidKey)
    else if body == BAD_REQUEST_BODY then Err(InvalidParams)
    else if StartsWith(body, HTML_START) then Err(UnknownError(body))
    else match parse(body)
      case None => Err(NotJson)
      case Some(j) => Ok(j)
  }

  /** Both bodies that name a cause are HTML pages, so they are caught before
      the generic HTML check. */
  lemma KnownBodiesAreHtml()
    ensures StartsWith(UNAUTHORIZED_BODY, HTML_START) && StartsWith(BAD_REQUEST_BODY, HTML_START)
  {
    assert UNAUTHORIZED_BODY[..|HTML_START|] == HTML_START;
    assert BAD_REQUEST_BODY[..|HTML_START|] == HTML_START;
  }

  function Lookup(j: Json, key: string): Option<Json> {
    if j.Obj? && key in j.fields then Some(j.fields[key]) else None
  }

  /** The list a `try` block takes from `response[outer][inner]` (an empty one
      when the request or either lookup raises), then how the `for` loop
      iterates it: a list gives its items, an empty dict or string gives none,
      anything else raises TypeError (None). */
  function ListAt(response: Result<Json, ApiError>, outer: string, inner: string): (r: Option<seq<Json>>)
    ensures response.Err? ==> r == Some([])
    ensures r.Some? && r.value != [] ==> response.Ok? && Lookup(response.value, outer).Some?
                                         && Lookup(Lookup(response.value, outer).value, inner) == Some(Arr(r.value))
  {
    if response.Err? then Some([])
    else match Lookup(response.value, outer)
      case None => Some([])
      case Some(o) => match Lookup(o, inner)
        case None => Some([])
        case Some(Arr(items)) => Some(items)
        case Some(Obj(fields)) => if fields == map[] then Some([]) else None
        case Some(Str(s)) => if s == "" then Some([]) else None
        case Some(_) => None
  }

  /** `int(x)` on a JSON value: the integer itself, a bool as 0 or 1, or
      decimal text. */
  function ToInt(j: Json): Option<int> {
    match j
    case Int(i) => Some(i)
    case Bool(b) => Some(if b then 1 else 0)
    case Str(s) => ParseInt(s)
    case _ => None
  }

  /** A JSON value used as an `int`-keyed dict key: an integer, or a bool,
      which Python hashes and compares as 0 or 1. */
  function IntKey(j: Json): (r: Option<int>)
    ensures j.Int? ==> r == Some(j.i)
    ensures j.Bool? ==> r == Some(if j.b then 1 else 0)
    ensures !j.Int? && !j.Bool? ==> r.None?
  {
    match j
    case Int(i) => Some(i)
    case Bool(b) => Some(if b then 1 else 0)
    case _ => None
  }

  // ---------------------------------------------------------------- owned games

  /** An owned app; `iconHash` is Null when Steam gives an empty hash. */
  datatype OwnedApp = OwnedApp(name: string, playtime: Json, iconHash: Json)

  /** One game of `GetOwnedGames`, or None where the loop body raises. */
  function OwnedEntry(game: Json): (r: Option<(int, OwnedApp)>)
    ensures r.Some? ==> Lookup(game, "appid").Some? && IntKey(Lookup(game, "appid").value) == Some(r.value.0)
    ensures r.Some? ==> Lookup(game, "name").Some? && Lookup(game, "name").value.Str?
                        && r.value.1.name == Strip(Lookup(game, "name").value.s)
    ensures r.Some? ==> Lookup(game, "playtime_forever") == Some(r.value.1.playtime)
    ensures r.Some? ==> r.value.1.iconHash != Str("")
                        && (Lookup(game, "img_icon_url") == Some(Str("")) || Lookup(game, "img_icon_url") == Some(r.value.1.iconHash))
    ensures r.None? <==> !(Lookup(game, "appid").Some? && IntKey(Lookup(game, "appid").value).Some?
                           && Lookup(game, "name").Some? && Lookup(game, "name").value.Str?
                           && Lookup(game, "playtime_forever").Some? && Lookup(game, "img_icon_url").Some?)
  {
    match (Lookup(game, "appid"), Lookup(game, "name"), Lookup(game, "playtime_forever"), Lookup(game, "img_icon_url"))
    case (Some(appid), Some(Str(name)), Some(playtime), Some(icon)) =>
      if IntKey(appid).None? then None
      else Some((IntKey(appid).value, OwnedApp(Strip(name), playtime, if icon == Str("") then Null else icon)))
    case _ => None
  }

  /** `get_owned_steam_apps` given the classified API response: every game in
      order, a later one with the same ID replacing an earlier one; None when
      a game raises inside the loop (outside the `try`). */
  function OwnedApps(response: Result<Json, ApiError>): Option<map<int, OwnedApp>> {
    match ListAt(response, "response", "games")
    case None => None
    case Some(games) => InsertEntries(map[], games, OwnedEntry)
  }

  /** The loop of `get_owned_steam_apps`. */
  method GetOwnedSteamApps(response: Result<Json, ApiError>) returns (r: Option<map<int, OwnedApp>>)
    ensures r == OwnedApps(response)
  {
    var games := ListAt(response, "response", "games");
    if games.None? {
      return None;
    }
    r := InsertEach(map[], games.value, OwnedEntry);
  }

  /** The owned IDs are exactly the IDs of the games, when none raises. */
  lemma OwnedAppsKeys(response: Result<Json, ApiError>, games: seq<Json>, id: int)
    requires ListAt(response, "response", "games") == Some(games)
    requires OwnedApps(response).Some?
    ensures id in OwnedApps(response).value <==>
              exists k :: 0 <= k < |games| && Lookup(games[k], "appid").Some? && IntKey(Lookup(games[k], "appid").value) == Some(id)
  {
    InsertEntriesKeys(map[], games, OwnedEntry, id);
    InsertEntriesFails(map[], games, OwnedEntry);
    forall k | 0 <= k < |games|
      ensures (Lookup(games[k], "appid").Some? && IntKey(Lookup(games[k], "appid").value) == Some(id)) <==>
              OwnedEntry(games[k]).value.0 == id
    {
      assert OwnedEntry(games[k]).Some?;
    }
  }

  // ---------------------------------------------------------------- friend list

  /** One friend of `GetFriendList`: its ID and the epoch second the
      friendship began, or None where the loop body raises (a missing or
      unreadable ID, or a `friend_since` that `datetime.fromtimestamp`
      refuses). */
  function FriendEntry(friend: Json): (r: Option<(int, int)>)
    ensures r.Some? <==> Lookup(friend, "steamid").Some? && ToInt(Lookup(friend, "steamid").value).Some?
                         && Lookup(friend, "friend_since").Some? && Datetimes.Seconds(Lookup(friend, "friend_since").value).Some?
    ensures r.Some? ==> ToInt(Lookup(friend, "steamid").value) == Some(r.value.0)
                        && Datetimes.Seconds(Lookup(friend, "friend_since").value) == Some(r.value.1)
    ensures r.Some? ==> Datetimes.InRange(r.value.1)
  {
    var id, since := Lookup(friend, "steamid"), Lookup(friend, "friend_since");
    if id.None? || ToInt(id.value).None? || since.None? || Datetimes.Seconds(since.value).None? then None
    else Some((ToInt(id.value).value, Datetimes.Seconds(since.value).value))
  }

  /** `get_steam_friends_list` given the classified API response. */
  function FriendsList(response: Result<Json, ApiError>): Option<map<int, int>> {
    match ListAt(response, "friendslist", "friends")
    case None => None
    case Some(friends) => InsertEntries(map[], friends, FriendEntry)
  }

  method GetSteamFriendsList(response: Result<Json, ApiError>) returns (r: Option<map<int, int>>)
    ensures r == FriendsList(response)
  {
    var friends := ListAt(response, "friendslist", "friends");
    if friends.None? {
      return None;
    }
    r := InsertEach(map[], friends.value, FriendEntry);
  }

  /** A failed request leaves an empty friend list rather than an error. */
  lemma FriendsListOnError(response: Result<Json, ApiError>)
    requires response.Err?
    ensures FriendsList(response) == Some(map[])
  {
    var empty: map<int, int> := map[];
    assert InsertAll(empty, []) == empty;
  }

  // ------------------------------------------------------------ friend profiles

  /** A friend's profile; JSON Null stands for Python's None, and times are
      epoch seconds. */
  datatype FriendInfo = FriendInfo(
    name: Json, iconHash: Json, updated: Option<int>, realName: Json,
    created: Option<int>, countryCode: Json, stateCode: Json, cityCode: Json)

  /** An optional key: its value, Null when absent. */
  function Optional(p: Json, key: string): Json {
    if Lookup(p, key).Some? then Lookup(p, key).value else Null
  }

  /** The fields only a public profile (visibility 3) gives: None where the
      body raises (no `timecreated`, or a time `datetime.fromtimestamp`
      refuses). */
  function PublicFields(p: Json): (r: Option<(Option<int>, Json, Option<int>, Json, Json, Json)>)
    ensures r.Some? <==> (Lookup(p, "lastlogoff").Some? ==> Datetimes.Seconds(Lookup(p, "lastlogoff").value).Some?) &&
                         Lookup(p, "timecreated").Some? && Datetimes.Seconds(Lookup(p, "timecreated").value).Some?
    ensures r.Some? ==> r.value.2.Some? && Datetimes.Seconds(Lookup(p, "timecreated").value) == r.value.2
    ensures r.Some? ==> (r.value.0.None? <==> Lookup(p, "lastlogoff").None?)
    ensures r.Some? && r.value.0.Some? ==> Datetimes.Seconds(Lookup(p, "lastlogoff").value) == r.value.0
    ensures r.Some? ==> r.value.1 == Optional(p, "realname") && r.value.3 == Optional(p, "loccountrycode")
                        && r.value.4 == Optional(p, "locstatecode") && r.value.5 == Optional(p, "loccityid")
  {
    var off, created := Lookup(p, "lastlogoff"), Lookup(p, "timecreated");
    if (off.Some? && Datetimes.Seconds(off.value).None?) || created.None? || Datetimes.Seconds(created.value).None? then None
    else
      var updated := if off.Some? then Datetimes.Seconds(off.value) else None;
      Some((updated, Optional(p, "realname"), Datetimes.Seconds(created.value), Optional(p, "loccountrycode"),
            Optional(p, "locstatecode"), Optional(p, "loccityid")))
  }

  /** One player of `GetPlayerSummaries`, or None where the loop body raises. */
  function FriendInfoEntry(p: Json): (r: Option<(int, FriendInfo)>)
    ensures r.Some? ==> Lookup(p, "steamid").Some? && ToInt(Lookup(p, "steamid").value) == Some(r.value.0)
    ensures r.Some? ==> Lookup(p, "personaname") == Some(r.value.1.name)
    ensures r.Some? ==> Lookup(p, "avatarhash").Some?
    ensures r.Some? && Lookup(p, "avatarhash") == Some(Str(DEFAULT_AVATAR_HASH)) ==> r.value.1.iconHash == Null
    ensures r.Some? && Lookup(p, "avatarhash") != Some(Str(DEFAULT_AVATAR_HASH)) ==> Lookup(p, "avatarhash") == Some(r.value.1.iconHash)
    ensures r.Some? && Lookup(p, "communityvisibilitystate") != Some(Int(3)) ==>
              r.value.1.updated.None? && r.value.1.realName == Null && r.value.1.created.None?
              && r.value.1.countryCode == Null && r.value.1.stateCode == Null && r.value.1.cityCode == Null
    ensures r.Some? && Lookup(p, "communityvisibilitystate") == Some(Int(3)) ==>
              r.value.1.created.Some? && Lookup(p, "timecreated").Some? &&
              Datetimes.Seconds(Lookup(p, "timecreated").value) == r.value.1.created
              && r.value.1.realName == Optional(p, "realname")
    ensures r.Some? && Lookup(p, "communityvisibilitystate") == Some(Int(3)) ==>
              PublicFields(p).Some? &&
              PublicFields(p).value == (r.value.1.updated, r.value.1.realName, r.value.1.created,
                                        r.value.1.countryCode, r.value.1.stateCode, r.value.1.cityCode)
    ensures r.Some? <==> Lookup(p, "steamid").Some? && ToInt(Lookup(p, "steamid").value).Some? &&
                         Lookup(p, "personaname").Some? && Lookup(p, "avatarhash").Some? &&
                         Lookup(p, "communityvisibilitystate").Some? &&
                         (Lookup(p, "communityvisibilitystate") == Some(Int(3)) ==> PublicFields(p).Some?)
    ensures Lookup(p, "communityvisibilitystate").None? ==> r.None?
  {
    var id, name, avatar, visibility :=
      Lookup(p, "steamid"), Lookup(p, "personaname"), Lookup(p, "avatarhash"), Lookup(p, "communityvisibilitystate");
    if id.None? || ToInt(id.value).None? || name.None? || avatar.None? || visibility.None? then None
    else
      var n := ToInt(id.value).value;
      var icon := if avatar.value == Str(DEFAULT_AVATAR_HASH) then Null else avatar.value;
      if visibility.value != Int(3) then
        Some((n, FriendInfo(name.value, icon, None, Null, None, Null, Null, Null)))
      else match PublicFields(p)
        case None => None
        case Some((updated, realName, created, country, state, city)) =>
          Some((n, FriendInfo(name.value, icon, updated, realName, created, country, state, city)))
  }

  /** The requests `range(0, len(ids), 100)` makes: consecutive slices of
      at most 100 IDs. */
  function Batches(ids: seq<int>): (r: seq<seq<int>>)
    ensures |r| == (|ids| + BATCH_SIZE - 1) / BATCH_SIZE
    decreases |ids|
  {
    if ids == [] then []
    else if |ids| <= BATCH_SIZE then [ids]
    else [ids[..BATCH_SIZE]] + Batches(ids[BATCH_SIZE..])
  }

  /** All batches one after another. */
  function Concat(batches: seq<seq<int>>): seq<int> {
    if batches == [] then [] else batches[0] + Concat(batches[1..])
  }

  /** The batches put back together are the IDs, in order, and each holds
      between 1 and 100 of them. */
  lemma {:induction false} BatchesCover(ids: seq<int>)
    ensures Concat(Batches(ids)) == ids
    ensures forall j :: 0 <= j < |Batches(ids)| ==> 0 < |Batches(ids)[j]| <= BATCH_SIZE
    decreases |ids|
  {
    if |ids| > BATCH_SIZE {
      var rest := ids[BATCH_SIZE..];
      BatchesCover(rest);
      assert Batches(ids)[1..] == Batches(rest);
      assert ids[..BATCH_SIZE] + rest == ids;
    }
  }

  /** The batches from `i` on: the slice up to `end`, then the batches from `end`. */
  lemma NextBatch(ids: seq<int>, i: int, end: int)
    requires 0 <= i < |ids| && end == if i + BATCH_SIZE < |ids| then i + BATCH_SIZE else |ids|
    ensures Batches(ids[i..]) == [ids[i..end]] + Batches(ids[end..])
  {
    var t := ids[i..];
    if |t| <= BATCH_SIZE {
      assert ids[end..] == [];
      assert t == ids[i..end];
    } else {
      assert t[..BATCH_SIZE] == ids[i..end];
      assert t[BATCH_SIZE..] == ids[end..];
    }
  }

  /** `infos` after every player of every batch's response, batch by batch;
      `fetch` gives the classified response to a batch. None when a player
      raises. */
  function InfoFold(infos: map<int, FriendInfo>, batches: seq<seq<int>>, fetch: seq<int> -> Result<Json, ApiError>)
    : Option<map<int, FriendInfo>>
    decreases |batches|
  {
    if batches == [] then Some(infos)
    else match ListAt(fetch(batches[0]), "response", "players")
      case None => None
      case Some(players) =>
        match InsertEntries(infos, players, FriendInfoEntry)
        case None => None
        case Some(next) => InfoFold(next, batches[1..], fetch)
  }

  /** `get_steam_friends_info`: one request per batch, in order, every player of
      every response stored as it comes. */
  method GetSteamFriendsInfo(ids: seq<int>, fetch: seq<int> -> Result<Json, ApiError>) returns (r: Option<map<int, FriendInfo>>)
    ensures r == InfoFold(map[], Batches(ids), fetch)
  {
    var infos: map<int, FriendInfo> := map[];
    var i := 0;
    while i < |ids|
      invariant 0 <= i <= |ids|
      invariant InfoFold(infos, Batches(ids[i..]), fetch) == InfoFold(map[], Batches(ids), fetch)
    {
      var end := if i + BATCH_SIZE < |ids| then i + BATCH_SIZE else |ids|;
      var batch := ids[i..end];
      NextBatch(ids, i, end);
      var players := ListAt(fetch(batch), "response", "players");
      if players.None? {
        return None;
      }
      var next := InsertEach(infos, players.value, FriendInfoEntry);
      if next.None? {
        return None;
      }
      infos := next.value;
      i := end;
    }
    assert ids[i..] == [];
    return Some(infos);
  }
}
