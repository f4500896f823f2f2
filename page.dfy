/** The invite page: the access token read from the redirect fragment, the
    usernames read from the form, and `handleGeneratePlaylist`, which runs the
    helpers one after the other. */
module Page {
  import opened Effects
  import opened Text
  import opened Seqs
  import opened History
  import opened Curation
  import opened Resolver
  import opened Playlist

  // ---------------------------------------------------------------------
  // Token extraction

  /** The parameter that carries the token in the redirect fragment. */
  const TokenKey := "access_token"

  /** Reading the token either gives a value (possibly missing) or throws,
      when no fragment segment names the token. */
  datatype TokenParse = Parsed(token: Option<string>) | ParseThrew

  /** `segs.findIndex(s => s.startsWith(p))`, missing when there is none. */
  function FirstStartingWith(segs: seq<string>, p: string): (r: Option<nat>)
    ensures r.Some? ==> r.value < |segs| && StartsWith(segs[r.value], p)
    ensures r.Some? ==> forall j :: 0 <= j < r.value ==> !StartsWith(segs[j], p)
    ensures r.None? <==> forall j :: 0 <= j < |segs| ==> !StartsWith(segs[j], p)
  {
    if segs == [] then None
    else if StartsWith(segs[0], p) then Some(0)
    else
      match FirstStartingWith(segs[1..], p)
      case None => None
      case Some(k) => Some(k + 1)
  }

  /** The second `useEffect`: a stored token wins; otherwise, when there is a
      fragment, the text between the first and second `=` of the first
      `&`-separated segment (after the leading character) that starts with
      "access_token"; the parse throws when no segment does. */
  function ExtractToken(stored: Option<string>, hash: string): (r: TokenParse)
    ensures Truthy(stored) || hash == "" ==> r == Parsed(stored)
    ensures !Truthy(stored) && hash != "" ==>
      (r == ParseThrew <==> forall seg :: seg in Split(hash[1..], '&') ==> !StartsWith(seg, TokenKey))
  {
    if Truthy(stored) || hash == "" then Parsed(stored)
    else
      var segs := Split(hash[1..], '&');
      match FirstStartingWith(segs, TokenKey)
      case None => ParseThrew
      case Some(k) =>
        var parts := Split(segs[k], '=');
        if |parts| >= 2 then Parsed(Some(parts[1])) else Parsed(None)
  }

  /** The first segment that starts with the key is found past any earlier
      segments that do not. */
  lemma {:induction false} FirstAfter(pre: seq<string>, seg: string, post: seq<string>, p: string)
    requires forall s :: s in pre ==> !StartsWith(s, p)
    requires StartsWith(seg, p)
    ensures FirstStartingWith(pre + [seg] + post, p) == Some(|pre|)
  {
    var segs := pre + [seg] + post;
    assert segs[|pre|] == seg;
    forall j | 0 <= j < |pre| ensures !StartsWith(segs[j], p) {
      assert segs[j] == pre[j] && pre[j] in pre;
    }
  }

  /** The value of "<key>=<t><tail>" is `t` when `tail` is empty or starts
      with a further `=`. */
  lemma SegmentValue(key: string, t: string, tail: string)
    requires '=' !in key && '=' !in t
    requires tail == "" || tail[0] == '='
    ensures |Split(key + "=" + t + tail, '=')| >= 2
    ensures Split(key + "=" + t + tail, '=')[1] == t
  {
    assert key + "=" + t + tail == key + ['='] + (t + tail);
    SplitAfterWord(key, t + tail, '=');
    SplitPrefix(t, tail, '=');
    if tail != "" {
      SplitAfterWord("", tail[1..], '=');
      assert "" + ['='] + tail[1..] == tail;
    }
  }

  /** A redirect fragment whose first segment starting with "access_token"
      is "<key>=<t>..." (the key may extend "access_token") yields the token
      between its first and second `=`. */
  lemma TokenFromRedirect(pre: seq<string>, key: string, t: string, tail: string, post: seq<string>)
    requires forall s :: s in pre ==> '&' !in s && !StartsWith(s, TokenKey)
    requires forall s :: s in post ==> '&' !in s
    requires StartsWith(key, TokenKey) && '=' !in key && '&' !in key
    requires '&' !in t && '=' !in t && '&' !in tail
    requires tail == "" || tail[0] == '='
    ensures ExtractToken(None, "#" + Join(pre + [key + "=" + t + tail] + post, "&")) == Parsed(Some(t))
  {
    var seg := key + "=" + t + tail;
    var segs := pre + [seg] + post;
    var hash := "#" + Join(segs, "&");
    assert hash[1..] == Join(segs, "&");
    assert '&' !in seg by {
      assert '&' !in key + "=";
      assert seg == (key + "=") + t + tail;
    }
    assert forall s :: s in segs ==> s in pre || s == seg || s in post;
    SplitJoin(segs, '&');
    assert seg[..|TokenKey|] == key[..|TokenKey|];
    FirstAfter(pre, seg, post, TokenKey);
    SegmentValue(key, t, tail);
  }

  // ---------------------------------------------------------------------
  // The generate handler

  /** The three username fields; a field never typed into is missing. */
  datatype Form = Form(user1: Option<string>, user2: Option<string>, user3: Option<string>)

  /** A field's value when it is truthy. */
  function Filled(field: Option<string>): Option<string> {
    if Truthy(field) then field else None
  }

  /** The fields in form order. */
  function Fields(form: Form): seq<Option<string>> {
    [form.user1, form.user2, form.user3]
  }

  /** `[user1, user2, user3].filter(Boolean)`: the non-empty fields, in form
      order. */
  function Usernames(form: Form): (usernames: seq<string>)
    ensures |usernames| <= 3
    ensures forall u :: u in usernames <==> u != "" && Some(u) in Fields(form)
  {
    var filled := [Filled(form.user1), Filled(form.user2), Filled(form.user3)];
    SomesIndexed(filled);
    var r := Somes(filled);
    assert forall i :: 0 <= i < 3 ==> filled[i] == Filled(Fields(form)[i]);
    assert forall u :: u in r ==> exists k :: 0 <= k < |r| && r[k] == u;
    r
  }

  /** The usernames keep the form's order. */
  lemma UsernamesInFormOrder(form: Form)
    ensures PicksSomes(Usernames(form), [Filled(form.user1), Filled(form.user2), Filled(form.user3)],
                       SomeIndices([Filled(form.user1), Filled(form.user2), Filled(form.user3)]))
  {
    SomesIndexed([Filled(form.user1), Filled(form.user2), Filled(form.user3)]);
  }

  /** The six external services, each answering the requests sent to it. */
  datatype Services = Services(
    history: Request -> LastFmReply,
    chat: Request -> ChatReply,
    search: Request -> SearchReply,
    lookup: Request -> LookupReply,
    create: Request -> CreateReply,
    add: Request -> AddReply)

  /** How a click on "Generate Playlist!" ends: stopped by one of the two
      input checks, or having run the pipeline. */
  datatype Outcome =
    | NeedGenre
    | NeedUsername
    | Generated(playlistId: Option<string>, curated: seq<string>, uris: seq<string>)

  /** The result of every step of a run past the input checks; a step that
      does not run has no result and sends nothing. */
  datatype Steps = Steps(
    created: Run<Option<string>>,
    tracks: Run<seq<string>>,
    curated: Run<seq<string>>,
    ids: Run<seq<string>>,
    uris: Run<seq<string>>,
    appended: seq<Request>)
  {
    /** Every request of the run, in the order sent. */
    function Sent(): seq<Request> {
      created.sent + tracks.sent + curated.sent + ids.sent + uris.sent + appended
    }

    /** Each step sent only requests to its own service. */
    predicate Kinded() {
      (forall q :: q in created.sent ==> q.SpotifyCreatePlaylist?) &&
      (forall q :: q in tracks.sent ==> q.LastFmHistory?) &&
      (forall q :: q in curated.sent ==> q.CohereChat?) &&
      (forall q :: q in ids.sent ==> q.SpotifySearch?) &&
      (forall q :: q in uris.sent ==> q.SpotifyTrack?) &&
      (forall q :: q in appended ==> q.SpotifyAddTracks?)
    }
  }

  /** The steps after the input checks: create the playlist, aggregate the
      histories, curate, and, only when something was curated, resolve ids
      and uris and, only when some uri resolved, append them. A failed
      creation does not stop the later steps. Each step sends only requests
      to its own service. */
  function RunSteps(genre: string, usernames: seq<string>, session: Session, svc: Services): (s: Steps)
    ensures s.Kinded()
  {
    var created := CreateEmptyPlaylist(genre, usernames, session, svc.create);
    var tracks := GetTracks(usernames, svc.history);
    var curated := GetCuratedPlaylist(tracks.value, genre, svc.chat);
    var ids := if curated.value == [] then Run([], []) else ResolvedTrackIDs(curated.value, session, svc.search);
    var uris := if curated.value == [] then Run([], []) else ResolvedURIs(ids.value, session, svc.lookup);
    var appended := if uris.value == [] then [] else AddURIsToPlaylist(created.value, uris.value, session, svc.add).sent;
    Steps(created, tracks, curated, ids, uris, appended)
  }

  /** What `handleGeneratePlaylist` does: stop at a missing mood or when no
      username is filled in, otherwise run the steps. */
  function Generate(genre: Option<string>, form: Form, session: Session, svc: Services): (r: Run<Outcome>)
    ensures !Truthy(genre) ==> r == Run(NeedGenre, [])
    ensures Truthy(genre) && Usernames(form) == [] ==> r == Run(NeedUsername, [])
  {
    if !Truthy(genre) then Run(NeedGenre, [])
    else if Usernames(form) == [] then Run(NeedUsername, [])
    else
      var s := RunSteps(genre.value, Usernames(form), session, svc);
      Run(Generated(s.created.value, s.curated.value, s.uris.value), s.Sent())
  }

  /** `handleGeneratePlaylist`: the early returns of the two input checks, then
      each helper awaited in turn, the later ones only when the previous step
      yielded something. */
  method HandleGeneratePlaylist(genre: Option<string>, form: Form, session: Session, svc: Services)
    returns (outcome: Outcome, sent: seq<Request>)
    ensures Run(outcome, sent) == Generate(genre, form, session, svc)
  {
    if !Truthy(genre) {
      return NeedGenre, [];
    }
    var usernames := Usernames(form);
    if |usernames| == 0 {
      return NeedUsername, [];
    }
    var created := CreateEmptyPlaylist(genre.value, usernames, session, svc.create);
    sent := created.sent;
    var tracks := GetTracks(usernames, svc.history);
    sent := sent + tracks.sent;
    var curated := GetCuratedPlaylist(tracks.value, genre.value, svc.chat);
    sent := sent + curated.sent;
    var uris: seq<string> := [];
    if |curated.value| > 0 {
      var ids, idsSent := GetSpotifyTrackIDs(curated.value, session, svc.search);
      sent := sent + idsSent;
      var urisSent;
      uris, urisSent := GetSpotifyURIs(ids, session, svc.lookup);
      sent := sent + urisSent;
      if |uris| > 0 {
        var appended := AddURIsToPlaylist(created.value, uris, session, svc.add);
        sent := sent + appended.sent;
      }
    }
    outcome := Generated(created.value, curated.value, uris);
  }

  /** A run that generated something got past both input checks. */
  lemma PastInputChecks(genre: Option<string>, form: Form, session: Session, svc: Services)
    requires Generate(genre, form, session, svc).value.Generated?
    ensures Truthy(genre) && Usernames(form) != []
  {
  }

  /** Each step sends only its own kind of request, the creation step is
      `createEmptyPlaylist` and the history step `getTracks`. */
  lemma StepKinds(genre: string, usernames: seq<string>, session: Session, svc: Services)
    ensures RunSteps(genre, usernames, session, svc).Kinded()
    ensures RunSteps(genre, usernames, session, svc).created == CreateEmptyPlaylist(genre, usernames, session, svc.create)
    ensures RunSteps(genre, usernames, session, svc).tracks == GetTracks(usernames, svc.history)
  {
  }

  /** The curation step is `getCuratedPlaylist` on the aggregated tracks;
      on a non-empty curation the ids and uris are resolved in turn, and on
      non-empty uris the append step is `addURIsToPlaylist`. */
  lemma LaterSteps(genre: string, usernames: seq<string>, session: Session, svc: Services)
    ensures RunSteps(genre, usernames, session, svc).curated ==
      GetCuratedPlaylist(RunSteps(genre, usernames, session, svc).tracks.value, genre, svc.chat)
    ensures RunSteps(genre, usernames, session, svc).curated.value != [] ==>
      RunSteps(genre, usernames, session, svc).ids ==
        ResolvedTrackIDs(RunSteps(genre, usernames, session, svc).curated.value, session, svc.search) &&
      RunSteps(genre, usernames, session, svc).uris ==
        ResolvedURIs(RunSteps(genre, usernames, session, svc).ids.value, session, svc.lookup)
    ensures RunSteps(genre, usernames, session, svc).uris.value != [] ==>
      RunSteps(genre, usernames, session, svc).appended ==
        AddURIsToPlaylist(RunSteps(genre, usernames, session, svc).created.value,
                          RunSteps(genre, usernames, session, svc).uris.value, session, svc.add).sent
  {
  }

  /** Resolution and append run only on a non-empty curation. */
  lemma NothingCuratedStops(genre: string, usernames: seq<string>, session: Session, svc: Services)
    requires RunSteps(genre, usernames, session, svc).curated.value == []
    ensures RunSteps(genre, usernames, session, svc).ids.sent == []
    ensures RunSteps(genre, usernames, session, svc).uris.sent == []
    ensures RunSteps(genre, usernames, session, svc).appended == []
  {
  }

  /** An append happens only when some uri resolved and the playlist was
      created, and it carries those uris. */
  lemma AppendShape(genre: string, usernames: seq<string>, session: Session, svc: Services)
    requires RunSteps(genre, usernames, session, svc).appended != []
    ensures RunSteps(genre, usernames, session, svc).uris.value != []
    ensures RunSteps(genre, usernames, session, svc).created.value.Some?
    ensures RunSteps(genre, usernames, session, svc).appended ==
      [SpotifyAddTracks(RunSteps(genre, usernames, session, svc).created.value.value, session.accessToken.value,
                        0, RunSteps(genre, usernames, session, svc).uris.value)]
  {
  }

  /** A missing playlist id means no append. */
  lemma NoPlaylistNoAppend(genre: string, usernames: seq<string>, session: Session, svc: Services)
    requires RunSteps(genre, usernames, session, svc).created.value.None?
    ensures RunSteps(genre, usernames, session, svc).appended == []
  {
  }

  /** With one creation request, it is the first request of the run and the
      only one of its kind. */
  lemma CreationLeads(s: Steps)
    requires s.Kinded() && |s.created.sent| == 1
    ensures s.Sent() != [] && s.Sent()[0] == s.created.sent[0]
    ensures forall i :: 0 < i < |s.Sent()| ==> !s.Sent()[i].SpotifyCreatePlaylist?
  {
    var rest := s.tracks.sent + s.curated.sent + s.ids.sent + s.uris.sent + s.appended;
    assert s.Sent() == s.created.sent + rest;
    forall i | 0 < i < |s.Sent()| ensures !s.Sent()[i].SpotifyCreatePlaylist? {
      assert s.Sent()[i] == rest[i - 1];
      assert rest[i - 1] in rest;
    }
  }

  /** The history requests directly follow the creation requests. */
  lemma HistoryFollowsCreation(s: Steps)
    ensures |s.created.sent| + |s.tracks.sent| <= |s.Sent()|
    ensures s.Sent()[|s.created.sent|..|s.created.sent| + |s.tracks.sent|] == s.tracks.sent
  {
    var c, h := s.created.sent, s.tracks.sent;
    var rest := s.curated.sent + s.ids.sent + s.uris.sent + s.appended;
    assert s.Sent() == c + h + rest;
    assert (c + h + rest)[|c|..|c| + |h|] == h;
  }

  /** Without resolution and append, only creation, history and chat
      requests are sent. */
  lemma OnlyEarlyKinds(s: Steps)
    requires s.Kinded() && s.ids.sent == [] && s.uris.sent == [] && s.appended == []
    ensures forall q :: q in s.Sent() ==> q.SpotifyCreatePlaylist? || q.LastFmHistory? || q.CohereChat?
  {
    assert s.Sent() == s.created.sent + s.tracks.sent + s.curated.sent;
  }

  /** Without an append step, no append request is sent. */
  lemma NoAddKind(s: Steps)
    requires s.Kinded() && s.appended == []
    ensures forall q :: q in s.Sent() ==> !q.SpotifyAddTracks?
  {
  }

  /** An append request can only be one of the append step's. */
  lemma AddKindIsAppended(s: Steps, i: nat)
    requires s.Kinded() && i < |s.Sent()| && s.Sent()[i].SpotifyAddTracks?
    ensures |s.Sent()| - |s.appended| <= i
  {
    var before := s.created.sent + s.tracks.sent + s.curated.sent + s.ids.sent + s.uris.sent;
    assert s.Sent() == before + s.appended;
    forall j | 0 <= j < |before| ensures !s.Sent()[j].SpotifyAddTracks? {
      assert s.Sent()[j] == before[j] && before[j] in before;
    }
  }

  /** After the input checks, with credentials, the playlist creation request
      is the first one sent, and no other creation request follows. */
  lemma CreationRequestedFirst(genre: Option<string>, form: Form, session: Session, svc: Services)
    requires Truthy(genre) && Usernames(form) != [] && HasCredentials(session)
    ensures Generate(genre, form, session, svc).sent != []
    ensures Generate(genre, form, session, svc).sent[0] ==
      SpotifyCreatePlaylist(session.sub.value, session.accessToken.value,
                            PlaylistName(genre.value), PlaylistDescription(Usernames(form)), false)
    ensures forall i :: 0 < i < |Generate(genre, form, session, svc).sent| ==>
      !Generate(genre, form, session, svc).sent[i].SpotifyCreatePlaylist?
  {
    GenerateOnFilledForm(genre, form, session, svc);
    StepKinds(genre.value, Usernames(form), session, svc);
    CreationLeads(RunSteps(genre.value, Usernames(form), session, svc));
  }

  /** The histories are fetched whatever the creation step returned: the
      Last.fm requests of every username directly follow the creation
      request, if any. */
  lemma HistoryFetchedRegardless(genre: Option<string>, form: Form, session: Session, svc: Services)
    requires Truthy(genre) && Usernames(form) != []
    ensures |CreateEmptyPlaylist(genre.value, Usernames(form), session, svc.create).sent| +
            |GetTracks(Usernames(form), svc.history).sent| <= |Generate(genre, form, session, svc).sent|
    ensures Generate(genre, form, session, svc).sent[
              |CreateEmptyPlaylist(genre.value, Usernames(form), session, svc.create).sent|..
              |CreateEmptyPlaylist(genre.value, Usernames(form), session, svc.create).sent| +
              |GetTracks(Usernames(form), svc.history).sent|]
            == GetTracks(Usernames(form), svc.history).sent
  {
    GenerateOnFilledForm(genre, form, session, svc);
    HistoryAfterCreation(genre.value, Usernames(form), session, svc);
  }

  /** The history requests follow the creation requests in a run's steps. */
  lemma HistoryAfterCreation(genre: string, usernames: seq<string>, session: Session, svc: Services)
    ensures |CreateEmptyPlaylist(genre, usernames, session, svc.create).sent| +
            |GetTracks(usernames, svc.history).sent| <= |RunSteps(genre, usernames, session, svc).Sent()|
    ensures RunSteps(genre, usernames, session, svc).Sent()[
              |CreateEmptyPlaylist(genre, usernames, session, svc.create).sent|..
              |CreateEmptyPlaylist(genre, usernames, session, svc.create).sent| +
              |GetTracks(usernames, svc.history).sent|]
            == GetTracks(usernames, svc.history).sent
  {
    StepKinds(genre, usernames, session, svc);
    HistoryFollowsCreation(RunSteps(genre, usernames, session, svc));
  }

  /** When nothing is curated, no search, lookup or append request is sent. */
  lemma NoResolutionWithoutCuration(genre: Option<string>, form: Form, session: Session, svc: Services)
    requires Generate(genre, form, session, svc).value.Generated?
    requires Generate(genre, form, session, svc).value.curated == []
    ensures forall q :: q in Generate(genre, form, session, svc).sent ==>
      q.SpotifyCreatePlaylist? || q.LastFmHistory? || q.CohereChat?
  {
    PastInputChecks(genre, form, session, svc);
    GenerateOnFilledForm(genre, form, session, svc);
    StepKinds(genre.value, Usernames(form), session, svc);
    NothingCuratedStops(genre.value, Usernames(form), session, svc);
    OnlyEarlyKinds(RunSteps(genre.value, Usernames(form), session, svc));
  }

  /** A failed playlist creation (a missing id) means no append request is
      ever sent, though the other steps still run. */
  lemma NoAppendWithoutPlaylist(genre: Option<string>, form: Form, session: Session, svc: Services)
    requires Generate(genre, form, session, svc).value.Generated?
    requires Generate(genre, form, session, svc).value.playlistId.None?
    ensures forall q :: q in Generate(genre, form, session, svc).sent ==> !q.SpotifyAddTracks?
  {
    PastInputChecks(genre, form, session, svc);
    GenerateOnFilledForm(genre, form, session, svc);
    StepKinds(genre.value, Usernames(form), session, svc);
    NoPlaylistNoAppend(genre.value, Usernames(form), session, svc);
    NoAddKind(RunSteps(genre.value, Usernames(form), session, svc));
  }

  /** An append request, when there is one, is the last request, and it
      inserts exactly the resolved uris, non-empty, at position 0 of the
      created playlist. */
  lemma AppendCarriesResolvedURIs(genre: Option<string>, form: Form, session: Session, svc: Services, i: nat)
    requires Generate(genre, form, session, svc).value.Generated?
    requires i < |Generate(genre, form, session, svc).sent|
    requires Generate(genre, form, session, svc).sent[i].SpotifyAddTracks?
    ensures i == |Generate(genre, form, session, svc).sent| - 1
    ensures Generate(genre, form, session, svc).value.uris != []
    ensures Generate(genre, form, session, svc).value.playlistId.Some?
    ensures Generate(genre, form, session, svc).sent[i] ==
      SpotifyAddTracks(Generate(genre, form, session, svc).value.playlistId.value, session.accessToken.value,
                       0, Generate(genre, form, session, svc).value.uris)
  {
    PastInputChecks(genre, form, session, svc);
    GenerateOnFilledForm(genre, form, session, svc);
    StepKinds(genre.value, Usernames(form), session, svc);
    var s := RunSteps(genre.value, Usernames(form), session, svc);
    AddKindIsAppended(s, i);
    AppendShape(genre.value, Usernames(form), session, svc);
    assert s.Sent() == (s.created.sent + s.tracks.sent + s.curated.sent + s.ids.sent + s.uris.sent) + s.appended;
  }

  /** The form with only the first field filled in yields that one name. */
  lemma OneNameFilled(name: string)
    requires name != ""
    ensures Usernames(Form(Some(name), None, None)) == [name]
  {
    var filled := [Some(name), None, None];
    assert Filled(Some(name)) == Some(name) && Filled(None) == None;
    assert filled[..2] == [Some(name), None] && filled[..2][..1] == [Some(name)];
    assert [Some(name)][..0] == [];
    assert Somes([Some(name)]) == [name];
    assert Somes(filled[..2]) == [name];
  }

  /** A chat that always answers two songs curates those two songs from any
      non-empty track list. */
  lemma TwoSongCuration(tracks: seq<string>, genre: string, chat: Request -> ChatReply)
    requires tracks != []
    requires forall q :: chat(q) == ChatReplied(Some("Song B ArtistB*Song C ArtistC"))
    ensures GetCuratedPlaylist(tracks, genre, chat).value == ["Song B ArtistB", "Song C ArtistC"]
  {
    AnswerIsParse("Song B ArtistB*Song C ArtistC");
    TwoSongAnswer();
  }

  /** Two descriptors whose searches and lookups all succeed resolve to their
      two uris, in order. */
  lemma TwoResolve(t1: string, t2: string, session: Session, search: Request -> SearchReply,
                   lookup: Request -> LookupReply)
    requires Truthy(session.accessToken)
    requires search(SpotifySearch(t1, session.accessToken.value)) == SearchOk(Some("id1"))
    requires search(SpotifySearch(t2, session.accessToken.value)) == SearchOk(Some("id2"))
    requires lookup(SpotifyTrack("id1", session.accessToken.value)) == LookupOk(Some("uri1"))
    requires lookup(SpotifyTrack("id2", session.accessToken.value)) == LookupOk(Some("uri2"))
    ensures ResolvedTrackIDs([t1, t2], session, search).value == ["id1", "id2"]
    ensures ResolvedURIs(["id1", "id2"], session, lookup).value == ["uri1", "uri2"]
  {
    var token := session.accessToken.value;
    var idHits := SearchHits([t1, t2], token, search);
    assert idHits == [Some("id1"), Some("id2")];
    assert idHits[..1] == [Some("id1")] && idHits[..1][..0] == [];
    assert Somes(idHits[..1]) == ["id1"];
    var uriHits := LookupHits(["id1", "id2"], token, lookup);
    assert uriHits == [Some("uri1"), Some("uri2")];
    assert uriHits[..1] == [Some("uri1")] && uriHits[..1][..0] == [];
    assert Somes(uriHits[..1]) == ["uri1"];
  }

  /** Past the input checks, a run is its steps. */
  lemma GenerateOnFilledForm(genre: Option<string>, form: Form, session: Session, svc: Services)
    requires Truthy(genre) && Usernames(form) != []
    ensures Generate(genre, form, session, svc) ==
      Run(Generated(RunSteps(genre.value, Usernames(form), session, svc).created.value,
                    RunSteps(genre.value, Usernames(form), session, svc).curated.value,
                    RunSteps(genre.value, Usernames(form), session, svc).uris.value),
          RunSteps(genre.value, Usernames(form), session, svc).Sent())
  {
  }

  /** With one creation and one append request, they open and close the run. */
  lemma FirstAndLast(s: Steps)
    requires |s.created.sent| == 1 && |s.appended| == 1
    ensures s.Sent()[0] == s.created.sent[0]
    ensures s.Sent()[|s.Sent()| - 1] == s.appended[0]
  {
    assert s.Sent() == s.created.sent + (s.tracks.sent + s.curated.sent + s.ids.sent + s.uris.sent + s.appended);
    assert s.Sent() == (s.created.sent + s.tracks.sent + s.curated.sent + s.ids.sent + s.uris.sent) + s.appended;
  }

  /** The steps of the scenario below, for any mood and friend: the playlist
      is created, the two songs are curated, resolved and appended. */
  lemma TwoSongSteps(g: string, u: string, session: Session, svc: Services, song: Scrobble, pid: string)
    requires HasCredentials(session) && pid != ""
    requires svc.history(FacetRequest(u, TopTracks)) == LastFmOk(Some([song]))
    requires svc.history(FacetRequest(u, LovedTracks)) == LastFmOk(None)
    requires svc.history(FacetRequest(u, RecentTracks)) == LastFmNotOk
    requires forall q :: svc.chat(q) == ChatReplied(Some("Song B ArtistB*Song C ArtistC"))
    requires svc.search(SpotifySearch("Song B ArtistB", session.accessToken.value)) == SearchOk(Some("id1"))
    requires svc.search(SpotifySearch("Song C ArtistC", session.accessToken.value)) == SearchOk(Some("id2"))
    requires svc.lookup(SpotifyTrack("id1", session.accessToken.value)) == LookupOk(Some("uri1"))
    requires svc.lookup(SpotifyTrack("id2", session.accessToken.value)) == LookupOk(Some("uri2"))
    requires svc.create(SpotifyCreatePlaylist(session.sub.value, session.accessToken.value, PlaylistName(g),
                                              PlaylistDescription([u]), false)) == CreateOk(pid)
    ensures RunSteps(g, [u], session, svc).created ==
      Run(Some(pid), [SpotifyCreatePlaylist(session.sub.value, session.accessToken.value, PlaylistName(g),
                                            PlaylistDescription([u]), false)])
    ensures RunSteps(g, [u], session, svc).curated.value == ["Song B ArtistB", "Song C ArtistC"]
    ensures RunSteps(g, [u], session, svc).uris.value == ["uri1", "uri2"]
    ensures RunSteps(g, [u], session, svc).appended ==
      [SpotifyAddTracks(pid, session.accessToken.value, 0, ["uri1", "uri2"])]
  {
    var s := RunSteps(g, [u], session, svc);
    StepKinds(g, [u], session, svc);
    LaterSteps(g, [u], session, svc);
    SingleUser(u, svc.history);
    assert |s.tracks.value| == 1;
    TwoSongCuration(s.tracks.value, g, svc.chat);
    TwoResolve("Song B ArtistB", "Song C ArtistC", session, svc.search, svc.lookup);
  }

  /** The run of the scenario below, for any mood and friend. */
  lemma TwoSongRun(g: string, u: string, session: Session, svc: Services, song: Scrobble, pid: string)
    requires HasCredentials(session) && pid != "" && g != "" && u != ""
    requires svc.history(FacetRequest(u, TopTracks)) == LastFmOk(Some([song]))
    requires svc.history(FacetRequest(u, LovedTracks)) == LastFmOk(None)
    requires svc.history(FacetRequest(u, RecentTracks)) == LastFmNotOk
    requires forall q :: svc.chat(q) == ChatReplied(Some("Song B ArtistB*Song C ArtistC"))
    requires svc.search(SpotifySearch("Song B ArtistB", session.accessToken.value)) == SearchOk(Some("id1"))
    requires svc.search(SpotifySearch("Song C ArtistC", session.accessToken.value)) == SearchOk(Some("id2"))
    requires svc.lookup(SpotifyTrack("id1", session.accessToken.value)) == LookupOk(Some("uri1"))
    requires svc.lookup(SpotifyTrack("id2", session.accessToken.value)) == LookupOk(Some("uri2"))
    requires svc.create(SpotifyCreatePlaylist(session.sub.value, session.accessToken.value, PlaylistName(g),
                                              PlaylistDescription([u]), false)) == CreateOk(pid)
    ensures Generate(Some(g), Form(Some(u), None, None), session, svc).value ==
      Generated(Some(pid), ["Song B ArtistB", "Song C ArtistC"], ["uri1", "uri2"])
    ensures Generate(Some(g), Form(Some(u), None, None), session, svc).sent[0] ==
      SpotifyCreatePlaylist(session.sub.value, session.accessToken.value, PlaylistName(g),
                            PlaylistDescription([u]), false)
    ensures Generate(Some(g), Form(Some(u), None, None), session, svc).sent[
              |Generate(Some(g), Form(Some(u), None, None), session, svc).sent| - 1] ==
      SpotifyAddTracks(pid, session.accessToken.value, 0, ["uri1", "uri2"])
  {
    OneNameFilled(u);
    TwoSongSteps(g, u, session, svc, song, pid);
    GenerateOnFilledForm(Some(g), Form(Some(u), None, None), session, svc);
    FirstAndLast(RunSteps(g, [u], session, svc));
  }

  /** One friend, "alice", with one top track; the mood "Chill"; a chat
      answer of two songs that both resolve: the playlist "Chill Mix" is
      created first, the two songs are curated, and the last request appends
      their two uris, in order, at position 0 of the new playlist. */
  lemma AliceChillScenario(session: Session, svc: Services, song: Scrobble, pid: string)
    requires HasCredentials(session) && pid != ""
    requires svc.history(FacetRequest("alice", TopTracks)) == LastFmOk(Some([song]))
    requires svc.history(FacetRequest("alice", LovedTracks)) == LastFmOk(None)
    requires svc.history(FacetRequest("alice", RecentTracks)) == LastFmNotOk
    requires forall q :: svc.chat(q) == ChatReplied(Some("Song B ArtistB*Song C ArtistC"))
    requires svc.search(SpotifySearch("Song B ArtistB", session.accessToken.value)) == SearchOk(Some("id1"))
    requires svc.search(SpotifySearch("Song C ArtistC", session.accessToken.value)) == SearchOk(Some("id2"))
    requires svc.lookup(SpotifyTrack("id1", session.accessToken.value)) == LookupOk(Some("uri1"))
    requires svc.lookup(SpotifyTrack("id2", session.accessToken.value)) == LookupOk(Some("uri2"))
    requires svc.create(SpotifyCreatePlaylist(session.sub.value, session.accessToken.value, "Chill Mix",
                                              PlaylistDescription(["alice"]), false)) == CreateOk(pid)
    ensures Generate(Some("Chill"), Form(Some("alice"), None, None), session, svc).value ==
      Generated(Some(pid), ["Song B ArtistB", "Song C ArtistC"], ["uri1", "uri2"])
    ensures Generate(Some("Chill"), Form(Some("alice"), None, None), session, svc).sent[0] ==
      SpotifyCreatePlaylist(session.sub.value, session.accessToken.value, "Chill Mix",
                            PlaylistDescription(["alice"]), false)
    ensures Generate(Some("Chill"), Form(Some("alice"), None, None), session, svc).sent[
              |Generate(Some("Chill"), Form(Some("alice"), None, None), session, svc).sent| - 1] ==
      SpotifyAddTracks(pid, session.accessToken.value, 0, ["uri1", "uri2"])
  {
    assert PlaylistName("Chill") == "Chill Mix";
    TwoSongRun("Chill", "alice", session, svc, song, pid);
  }
}
