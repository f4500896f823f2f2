/** What the pipeline exchanges with the outside world: the signed-in session,
    the requests it sends to the three services, and the replies it can get.
    Each service is an oracle, a total function from the request sent to the
    reply received; every operation also returns the requests it sent, in
    order, as its effect trace. */
module Effects {

  datatype Option<+T> = None | Some(value: T)

  /** JavaScript truthiness of a value that is either missing (`null` or
      `undefined`) or a string: only a non-empty string is truthy. */
  predicate Truthy(o: Option<string>) {
    o.Some? && o.value != ""
  }

  /** The fields of the next-auth session the helpers read:
      `session.token.sub` and `session.token.access_token`. */
  datatype Session = Session(sub: Option<string>, accessToken: Option<string>)

  /** Every outbound request, with the parameters that decide its reply. */
  datatype Request =
    | LastFmHistory(apiMethod: string, user: string, limit: nat)
    | CohereChat(model: string, situation: string, candidates: seq<string>)
    | SpotifySearch(query: string, token: string)
    | SpotifyTrack(id: string, token: string)
    | SpotifyCreatePlaylist(userId: string, token: string, name: string, description: string, isPublic: bool)
    | SpotifyAddTracks(playlistId: string, token: string, position: nat, uris: seq<string>)

  /** One track of a Last.fm history listing: its `name`, which may be
      missing, and its `artist` object, whose keys differ between the
      listings. */
  datatype Scrobble = Scrobble(name: Option<string>, artist: map<string, string>)

  /** A Last.fm reply: the fetch or the JSON decoding threw, the status was not
      ok, or a decoded body, whose `<listing>.track` array may be missing. */
  datatype LastFmReply = LastFmThrew | LastFmNotOk | LastFmOk(tracks: Option<seq<Scrobble>>)

  /** A Cohere chat reply: the call threw, or a response whose `text` may be
      missing. */
  datatype ChatReply = ChatThrew | ChatReplied(text: Option<string>)

  /** A Spotify search reply; `firstId` is the `id` of `tracks.items[0]`, when
      there is such an item. */
  datatype SearchReply = SearchThrew | SearchNotOk | SearchOk(firstId: Option<string>)

  /** A Spotify track lookup reply; `uri` is the track's `uri` field. */
  datatype LookupReply = LookupThrew | LookupNotOk | LookupOk(uri: Option<string>)

  /** A Spotify playlist creation reply; `id` is the new playlist's id. */
  datatype CreateReply = CreateThrew | CreateNotOk | CreateOk(id: string)

  /** A Spotify add-items reply. */
  datatype AddReply = AddThrew | AddNotOk | AddOk

  /** The result of one operation together with the requests it sent. */
  datatype Run<T> = Run(value: T, sent: seq<Request>)
}

/** Keeping the successes of a sequence of per-item results. */
module Seqs {
  import opened Effects

  /** The values of the `Some` entries of `os`, in order. */
  function Somes<T>(os: seq<Option<T>>): (r: seq<T>)
    ensures |r| <= |os|
  {
    if os == [] then []
    else
      var last := os[|os| - 1];
      Somes(os[..|os| - 1]) + (if last.Some? then [last.value] else [])
  }

  /** The positions of the `Some` entries of `os`, in order. */
  function SomeIndices<T>(os: seq<Option<T>>): seq<nat>
  {
    if os == [] then []
    else SomeIndices(os[..|os| - 1]) + (if os[|os| - 1].Some? then [|os| - 1] else [])
  }

  /** `r` is an order-preserving subsequence of the per-item results `os`:
      its k-th value is the `Some` at position `at[k]`, the positions increase
      strictly, and every `Some` position of `os` is among them. */
  ghost predicate PicksSomes<T>(r: seq<T>, os: seq<Option<T>>, at: seq<nat>) {
    |at| == |r| &&
    (forall k :: 0 <= k < |at| ==> at[k] < |os| && os[at[k]] == Some(r[k])) &&
    (forall k, l :: 0 <= k < l < |at| ==> at[k] < at[l]) &&
    (forall i :: 0 <= i < |os| ==> (os[i].Some? <==> i in at))
  }

  /** `Somes(os)` keeps exactly the successes of `os`, in order. */
  lemma {:induction false} SomesIndexed<T>(os: seq<Option<T>>)
    ensures PicksSomes(Somes(os), os, SomeIndices(os))
  {
    if os != [] {
      var init := os[..|os| - 1];
      SomesIndexed(init);
      assert forall i :: 0 <= i < |init| ==> os[i] == init[i];
    }
  }

  /** Keeping the successes of `a + b` keeps those of `a`, then those of `b`. */
  lemma {:induction false} SomesAppend<T>(a: seq<Option<T>>, b: seq<Option<T>>)
    ensures Somes(a + b) == Somes(a) + Somes(b)
    decreases |b|
  {
    if b == [] {
      assert a + b == a;
    } else {
      var init := b[..|b| - 1];
      assert (a + b)[..|a + b| - 1] == a + init;
      SomesAppend(a, init);
    }
  }

  /** Keeping the successes of `os`: its first item's, then the rest's. */
  lemma SomesCons<T>(os: seq<Option<T>>)
    requires os != []
    ensures Somes(os) == (if os[0].Some? then [os[0].value] else []) + Somes(os[1..])
  {
    assert os == [os[0]] + os[1..];
    SomesAppend([os[0]], os[1..]);
    assert [os[0]][..0] == [];
  }

  /** Nothing is kept from a sequence of `None`s. */
  lemma {:induction false} SomesOfNones<T>(os: seq<Option<T>>)
    requires forall i :: 0 <= i < |os| ==> os[i].None?
    ensures Somes(os) == []
  {
    if os != [] {
      SomesOfNones(os[..|os| - 1]);
    }
  }
}
