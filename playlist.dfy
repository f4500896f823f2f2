/** `createEmptyPlaylist` and `addURIsToPlaylist`: the two Spotify requests
    that build the playlist, each behind its credential and argument guards. */
module Playlist {
  import opened Effects
  import opened Text

  /** The text that closes every playlist description. */
  const Signature := " | Made with Pass the Aux by Megan Ong"

  /** The separator between participant names in the description. */
  const NameSeparator := " x "

  /** The playlist name for a mood. */
  function PlaylistName(genre: string): string {
    genre + " Mix"
  }

  /** The description: the usernames joined by " x ", then the signature. */
  function PlaylistDescription(usernames: seq<string>): string {
    Join(usernames, NameSeparator) + Signature
  }

  /** Both the user id and the access token are present and non-empty. */
  predicate HasCredentials(session: Session) {
    Truthy(session.sub) && Truthy(session.accessToken)
  }

  /** `createEmptyPlaylist(selectedGenre, usernames, session)`: without
      credentials, null and no request; otherwise exactly one private playlist
      creation request for the user, and the new id only when it succeeds. */
  function CreateEmptyPlaylist(genre: string, usernames: seq<string>, session: Session,
                               create: Request -> CreateReply): (r: Run<Option<string>>)
    ensures !HasCredentials(session) ==> r == Run(None, [])
    ensures HasCredentials(session) ==>
      r.sent == [SpotifyCreatePlaylist(session.sub.value, session.accessToken.value,
                                       PlaylistName(genre), PlaylistDescription(usernames), false)]
    ensures r.value.Some? <==> r.sent != [] && create(r.sent[0]).CreateOk?
    ensures r.value.Some? ==> r.value.value == create(r.sent[0]).id
  {
    if !HasCredentials(session) then Run(None, [])
    else
      var request := SpotifyCreatePlaylist(session.sub.value, session.accessToken.value,
                                           PlaylistName(genre), PlaylistDescription(usernames), false);
      match create(request)
      case CreateOk(id) => Run(Some(id), [request])
      case _ => Run(None, [request])
  }

  /** The alert `addURIsToPlaylist` ends with. */
  datatype AddStatus = MissingCredentials | MissingArguments | AddFailed | AddErrored | Added

  /** `addURIsToPlaylist(playlistId, spotifyURIs, session)`: a request is sent
      exactly when the credentials, a truthy playlist id and a non-empty uri
      list are all present, and it inserts the uris unchanged at position 0. */
  function AddURIsToPlaylist(playlistId: Option<string>, uris: seq<string>, session: Session,
                             add: Request -> AddReply): (r: Run<AddStatus>)
    ensures r.sent != [] <==> HasCredentials(session) && Truthy(playlistId) && uris != []
    ensures r.sent != [] ==>
      r.sent == [SpotifyAddTracks(playlistId.value, session.accessToken.value, 0, uris)]
    ensures r.value == Added <==> r.sent != [] && add(r.sent[0]) == AddOk
  {
    if !HasCredentials(session) then Run(MissingCredentials, [])
    else if !Truthy(playlistId) || uris == [] then Run(MissingArguments, [])
    else
      var request := SpotifyAddTracks(playlistId.value, session.accessToken.value, 0, uris);
      var status := match add(request)
        case AddOk => Added
        case AddNotOk => AddFailed
        case AddThrew => AddErrored;
      Run(status, [request])
  }

  /** The description starts with the first username and ends with the
      signature, and its name part is as long as the usernames together plus
      one " x " between each two. */
  lemma {:induction false} DescriptionListsUsers(usernames: seq<string>)
    requires usernames != []
    ensures StartsWith(PlaylistDescription(usernames), usernames[0])
    ensures |PlaylistDescription(usernames)| >= |Signature|
    ensures PlaylistDescription(usernames)[|PlaylistDescription(usernames)| - |Signature|..] == Signature
    ensures |Join(usernames, NameSeparator)| ==
      JoinedLength(usernames) + |NameSeparator| * (|usernames| - 1)
  {
    var joined := Join(usernames, NameSeparator);
    JoinLength(usernames, NameSeparator);
    if |usernames| > 1 {
      assert joined == usernames[0] + (NameSeparator + Join(usernames[1..], NameSeparator));
    }
    assert PlaylistDescription(usernames) == usernames[0] + (PlaylistDescription(usernames)[|usernames[0]|..]);
  }

  /** The total length of the strings. */
  function JoinedLength(xs: seq<string>): nat {
    if xs == [] then 0 else |xs[0]| + JoinedLength(xs[1..])
  }

  lemma {:induction false} JoinLength(xs: seq<string>, sep: string)
    requires xs != []
    ensures |Join(xs, sep)| == JoinedLength(xs) + |sep| * (|xs| - 1)
  {
    if |xs| > 1 {
      JoinLength(xs[1..], sep);
    }
  }
}
