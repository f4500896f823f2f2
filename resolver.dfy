/** `getSpotifyTrackIDs` and `getSpotifyURIS`: one Spotify request per item,
    keeping the result only when that item's request succeeds. */
module Resolver {
  import opened Effects
  import opened Seqs

  /** The id a search reply yields: that of the first hit of an ok search. */
  function FirstHitId(reply: SearchReply): Option<string> {
    match reply
    case SearchOk(Some(id)) => Some(id)
    case _ => None
  }

  /** The uri a lookup reply yields: a truthy `uri` of an ok lookup. */
  function UriOf(reply: LookupReply): Option<string> {
    match reply
    case LookupOk(uri) => if Truthy(uri) then uri else None
    case _ => None
  }

  /** One search request per descriptor, in order. */
  function SearchRequests(tracks: seq<string>, token: string): seq<Request>
  {
    seq(|tracks|, i requires 0 <= i < |tracks| => SpotifySearch(tracks[i], token))
  }

  /** The per-descriptor outcome of the searches. */
  function SearchHits(tracks: seq<string>, token: string, search: Request -> SearchReply): seq<Option<string>>
  {
    seq(|tracks|, i requires 0 <= i < |tracks| => FirstHitId(search(SpotifySearch(tracks[i], token))))
  }

  /** One track lookup per id, in order. */
  function LookupRequests(ids: seq<string>, token: string): seq<Request>
  {
    seq(|ids|, i requires 0 <= i < |ids| => SpotifyTrack(ids[i], token))
  }

  /** The per-id outcome of the lookups. */
  function LookupHits(ids: seq<string>, token: string, lookup: Request -> LookupReply): seq<Option<string>>
  {
    seq(|ids|, i requires 0 <= i < |ids| => UriOf(lookup(SpotifyTrack(ids[i], token))))
  }

  /** What `getSpotifyTrackIDs` computes: without an access token, nothing and
      no request; otherwise one search per descriptor and the ids of the hits,
      in descriptor order. */
  function ResolvedTrackIDs(tracks: seq<string>, session: Session, search: Request -> SearchReply): (r: Run<seq<string>>)
    ensures |r.value| <= |tracks|
    ensures !Truthy(session.accessToken) ==> r == Run([], [])
    ensures forall q :: q in r.sent ==> q.SpotifySearch?
  {
    if !Truthy(session.accessToken) then Run([], [])
    else
      var token := session.accessToken.value;
      Run(Somes(SearchHits(tracks, token, search)), SearchRequests(tracks, token))
  }

  /** What `getSpotifyURIS` computes: without an access token, nothing and no
      request; otherwise one lookup per id and the truthy uris, in id order. */
  function ResolvedURIs(ids: seq<string>, session: Session, lookup: Request -> LookupReply): (r: Run<seq<string>>)
    ensures |r.value| <= |ids|
    ensures !Truthy(session.accessToken) ==> r == Run([], [])
    ensures forall q :: q in r.sent ==> q.SpotifyTrack?
  {
    if !Truthy(session.accessToken) then Run([], [])
    else
      var token := session.accessToken.value;
      Run(Somes(LookupHits(ids, token, lookup)), LookupRequests(ids, token))
  }

  /** `getSpotifyTrackIDs`: search each descriptor in turn and push the id of
      the first hit; a failed, thrown or empty search skips the descriptor. */
  method GetSpotifyTrackIDs(tracks: seq<string>, session: Session, search: Request -> SearchReply)
    returns (ids: seq<string>, sent: seq<Request>)
    ensures Run(ids, sent) == ResolvedTrackIDs(tracks, session, search)
  {
    if !Truthy(session.accessToken) {
      return [], [];
    }
    var token := session.accessToken.value;
    ghost var hits := SearchHits(tracks, token, search);
    ids, sent := [], [];
    for i := 0 to |tracks|
      invariant ids == Somes(hits[..i])
      invariant sent == SearchRequests(tracks[..i], token)
    {
      var request := SpotifySearch(tracks[i], token);
      sent := sent + [request];
      var response := search(request);
      assert hits[..i + 1][..i] == hits[..i];
      if response.SearchOk? {
        var item := response.firstId;
        if item.Some? {
          ids := ids + [item.value];
        }
      }
      // A non-ok status continues, and a thrown fetch is caught per descriptor.
    }
    assert hits[..|tracks|] == hits;
    assert tracks[..|tracks|] == tracks;
  }

  /** `getSpotifyURIS`: look each id up in turn and push its uri when it is
      truthy. On a non-ok status the log line names an undeclared `track`; the
      resulting ReferenceError is caught per id, so that id is skipped too. */
  method GetSpotifyURIs(ids: seq<string>, session: Session, lookup: Request -> LookupReply)
    returns (uris: seq<string>, sent: seq<Request>)
    ensures Run(uris, sent) == ResolvedURIs(ids, session, lookup)
  {
    if !Truthy(session.accessToken) {
      return [], [];
    }
    var token := session.accessToken.value;
    ghost var hits := LookupHits(ids, token, lookup);
    uris, sent := [], [];
    for i := 0 to |ids|
      invariant uris == Somes(hits[..i])
      invariant sent == LookupRequests(ids[..i], token)
    {
      var request := SpotifyTrack(ids[i], token);
      sent := sent + [request];
      var response := lookup(request);
      assert hits[..i + 1][..i] == hits[..i];
      match response {
        case LookupNotOk =>
          // ReferenceError on the undeclared `track`, caught: skip this id.
        case LookupThrew =>
        case LookupOk(uri) =>
          if Truthy(uri) {
            uris := uris + [uri.value];
          }
      }
    }
    assert hits[..|ids|] == hits;
    assert ids[..|ids|] == ids;
  }

  /** The resolved ids are the ids of the successful searches, in
      descriptor order, and every successful search contributes its id. */
  lemma TrackIDsInOrder(tracks: seq<string>, session: Session, search: Request -> SearchReply)
    requires Truthy(session.accessToken)
    ensures PicksSomes(ResolvedTrackIDs(tracks, session, search).value,
                       SearchHits(tracks, session.accessToken.value, search),
                       SomeIndices(SearchHits(tracks, session.accessToken.value, search)))
  {
    SomesIndexed(SearchHits(tracks, session.accessToken.value, search));
  }

  /** The resolved uris are the truthy uris of the successful lookups, in id
      order, and every successful lookup contributes its uri. */
  lemma URIsInOrder(ids: seq<string>, session: Session, lookup: Request -> LookupReply)
    requires Truthy(session.accessToken)
    ensures PicksSomes(ResolvedURIs(ids, session, lookup).value,
                       LookupHits(ids, session.accessToken.value, lookup),
                       SomeIndices(LookupHits(ids, session.accessToken.value, lookup)))
  {
    SomesIndexed(LookupHits(ids, session.accessToken.value, lookup));
  }

  /** Three descriptors whose second search finds nothing resolve, through
      ids and uris, to the uris of the first and the third, in that order. */
  lemma SecondSearchMisses(t1: string, t2: string, t3: string, id1: string, id3: string, u1: string, u3: string,
                           session: Session, search: Request -> SearchReply, lookup: Request -> LookupReply)
    requires Truthy(session.accessToken) && u1 != "" && u3 != ""
    requires search(SpotifySearch(t1, session.accessToken.value)) == SearchOk(Some(id1))
    requires search(SpotifySearch(t2, session.accessToken.value)) == SearchOk(None)
    requires search(SpotifySearch(t3, session.accessToken.value)) == SearchOk(Some(id3))
    requires lookup(SpotifyTrack(id1, session.accessToken.value)) == LookupOk(Some(u1))
    requires lookup(SpotifyTrack(id3, session.accessToken.value)) == LookupOk(Some(u3))
    ensures ResolvedTrackIDs([t1, t2, t3], session, search).value == [id1, id3]
    ensures ResolvedURIs([id1, id3], session, lookup).value == [u1, u3]
  {
    var token := session.accessToken.value;
    var hits := SearchHits([t1, t2, t3], token, search);
    assert hits == [Some(id1), None, Some(id3)];
    assert hits[..2][..1] == [Some(id1)];
    assert Somes(hits[..2]) == [id1];
    var uriHits := LookupHits([id1, id3], token, lookup);
    assert uriHits == [Some(u1), Some(u3)];
    assert uriHits[..1] == [Some(u1)];
    assert Somes(uriHits[..1]) == [u1];
  }
}
