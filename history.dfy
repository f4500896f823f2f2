/** `getTracks`: each friend's Last.fm history (top, loved and recent tracks)
    formatted as "<name> by <artist> (from <user>)" and concatenated, user by
    user in the order given. */
module History {
  import opened Effects
  import opened Text

  /** The three listings read for every user, in the order they are fetched. */
  datatype Facet = TopTracks | LovedTracks | RecentTracks

  /** Page size asked of every listing. */
  const PageLimit: nat := 25

  /** The Last.fm API method that serves a listing. */
  function ApiMethod(f: Facet): string {
    match f
    case TopTracks => "user.getTopTracks"
    case LovedTracks => "user.getLovedTracks"
    case RecentTracks => "user.getRecentTracks"
  }

  /** The request that fetches one listing of one user. */
  function FacetRequest(user: string, f: Facet): Request {
    LastFmHistory(ApiMethod(f), user, PageLimit)
  }

  /** The key of the artist object that holds the artist's name: the recent
      listing names it `#text`, the other two `name`. */
  function ArtistKey(f: Facet): string {
    if f == RecentTracks then "#text" else "name"
  }

  /** A template-literal read of a field that may be missing: a missing
      field prints "undefined". */
  function Printed(o: Option<string>): string {
    if o.Some? then o.value else "undefined"
  }

  /** A template-literal read of `m[k]`. */
  function FieldText(m: map<string, string>, k: string): string {
    Printed(if k in m then Some(m[k]) else None)
  }

  /** The descriptor of one scrobble of `user`'s listing `f`: it opens with
      the track name and " by ", and ends with the user's tag. */
  function Describe(s: Scrobble, f: Facet, user: string): (d: string)
    ensures StartsWith(d, Printed(s.name) + " by ")
    ensures EndsWithTag(d, user)
  {
    var head := Printed(s.name) + " by " + FieldText(s.artist, ArtistKey(f));
    var tag := " (from " + user + ")";
    assert head + " (from " + user + ")" == head + tag;
    assert (head + tag)[|head|..] == tag;
    assert head[..|Printed(s.name) + " by "|] == Printed(s.name) + " by ";
    Printed(s.name) + " by " + FieldText(s.artist, ArtistKey(f)) + " (from " + user + ")"
  }

  /** The descriptors one listing reply contributes: one per track of a
      well-formed body, nothing for a non-ok status or a body without the
      track array. */
  function FacetEntries(reply: LastFmReply, f: Facet, user: string): seq<string>
  {
    match reply
    case LastFmOk(Some(tracks)) =>
      seq(|tracks|, i requires 0 <= i < |tracks| => Describe(tracks[i], f, user))
    case _ => []
  }

  /** What fetching one user's history gives: the user's descriptors, whether
      some fetch threw, and the requests sent. */
  datatype Fetched = Fetched(entries: seq<string>, threw: bool, sent: seq<Request>)

  /** `fetchUserTracks`: the three listings, one after the other; a fetch that
      throws ends this user's chain. The requests are a non-empty prefix of
      the top, loved and recent listings, all three exactly when the chain
      did not throw, and a chain throws exactly when one of its listings
      would. */
  function FetchUserTracks(user: string, history: Request -> LastFmReply): (r: Fetched)
    ensures 1 <= |r.sent| <= 3
    ensures forall k :: 0 <= k < |r.sent| ==> r.sent[k] == FacetRequest(user, FacetAt(k))
    ensures r.threw <==> !NoThrowFor(user, history)
    ensures !r.threw <==> |r.sent| == 3 && !history(r.sent[2]).LastFmThrew?
    ensures r.threw ==> r.entries == []
  {
    var q1 := FacetRequest(user, TopTracks);
    var r1 := history(q1);
    if r1.LastFmThrew? then Fetched([], true, [q1])
    else
      var q2 := FacetRequest(user, LovedTracks);
      var r2 := history(q2);
      if r2.LastFmThrew? then Fetched([], true, [q1, q2])
      else
        var q3 := FacetRequest(user, RecentTracks);
        var r3 := history(q3);
        if r3.LastFmThrew? then Fetched([], true, [q1, q2, q3])
        else
          Fetched(FacetEntries(r1, TopTracks, user) + FacetEntries(r2, LovedTracks, user)
                  + FacetEntries(r3, RecentTracks, user), false, [q1, q2, q3])
  }

  /** The per-user results merged in order, as `Promise.all` and `flat` do:
      descriptors and requests concatenated, and a throw in any user's chain
      marks the whole. */
  function Merge(fs: seq<Fetched>): Fetched
  {
    if fs == [] then Fetched([], false, [])
    else
      var rest := Merge(fs[1..]);
      Fetched(fs[0].entries + rest.entries, fs[0].threw || rest.threw, fs[0].sent + rest.sent)
  }

  /** `usernames.map(fetchUserTracks)`: each user's chain; all of them run. */
  function PerUser(usernames: seq<string>, history: Request -> LastFmReply): (fs: seq<Fetched>)
    ensures |fs| == |usernames|
    ensures forall i :: 0 <= i < |fs| ==> fs[i] == FetchUserTracks(usernames[i], history)
  {
    seq(|usernames|, i requires 0 <= i < |usernames| => FetchUserTracks(usernames[i], history))
  }

  /** The users' histories side by side, in username order. */
  function FetchAll(usernames: seq<string>, history: Request -> LastFmReply): Fetched
  {
    Merge(PerUser(usernames, history))
  }

  /** Merging two runs of results merges each and concatenates. */
  lemma {:induction false} MergeAppend(xs: seq<Fetched>, ys: seq<Fetched>)
    ensures Merge(xs + ys).entries == Merge(xs).entries + Merge(ys).entries
    ensures Merge(xs + ys).threw == (Merge(xs).threw || Merge(ys).threw)
    ensures Merge(xs + ys).sent == Merge(xs).sent + Merge(ys).sent
  {
    if xs == [] {
      assert xs + ys == ys;
    } else {
      assert (xs + ys)[0] == xs[0];
      assert (xs + ys)[1..] == xs[1..] + ys;
      MergeAppend(xs[1..], ys);
    }
  }

  /** The first user's chain, then the others'. */
  lemma FetchAllCons(usernames: seq<string>, history: Request -> LastFmReply)
    requires usernames != []
    ensures FetchAll(usernames, history).entries ==
      FetchUserTracks(usernames[0], history).entries + FetchAll(usernames[1..], history).entries
    ensures FetchAll(usernames, history).threw ==
      (FetchUserTracks(usernames[0], history).threw || FetchAll(usernames[1..], history).threw)
    ensures FetchAll(usernames, history).sent ==
      FetchUserTracks(usernames[0], history).sent + FetchAll(usernames[1..], history).sent
  {
    assert PerUser(usernames, history)[1..] == PerUser(usernames[1..], history);
  }

  /** `getTracks`: every user's descriptors concatenated; when any fetch threw,
      the combined promise rejects and the caught error yields no tracks. */
  function GetTracks(usernames: seq<string>, history: Request -> LastFmReply): (r: Run<seq<string>>)
    ensures forall q :: q in r.sent ==> q.LastFmHistory?
    ensures |r.sent| <= 3 * |usernames|
  {
    var all := FetchAll(usernames, history);
    FetchAllSent(usernames, history);
    Run(if all.threw then [] else all.entries, all.sent)
  }

  /** Listing replies that do not throw for `user`. */
  predicate NoThrowFor(user: string, history: Request -> LastFmReply) {
    !history(FacetRequest(user, TopTracks)).LastFmThrew? &&
    !history(FacetRequest(user, LovedTracks)).LastFmThrew? &&
    !history(FacetRequest(user, RecentTracks)).LastFmThrew?
  }

  /** The facets of one user, in fetch order. */
  function FacetAt(k: nat): Facet
    requires k < 3
  {
    if k == 0 then TopTracks else if k == 1 then LovedTracks else RecentTracks
  }

  /** A user whose listings do not throw contributes all three listings. */
  lemma UserNoThrow(user: string, history: Request -> LastFmReply)
    requires NoThrowFor(user, history)
    ensures !FetchUserTracks(user, history).threw
    ensures FetchUserTracks(user, history).sent ==
      [FacetRequest(user, TopTracks), FacetRequest(user, LovedTracks), FacetRequest(user, RecentTracks)]
    ensures FetchUserTracks(user, history).entries ==
      FacetEntries(history(FacetRequest(user, TopTracks)), TopTracks, user) +
      FacetEntries(history(FacetRequest(user, LovedTracks)), LovedTracks, user) +
      FacetEntries(history(FacetRequest(user, RecentTracks)), RecentTracks, user)
  {
  }

  /** Every history request goes to Last.fm, at most three per user. */
  lemma {:induction false} FetchAllSent(usernames: seq<string>, history: Request -> LastFmReply)
    ensures forall q :: q in FetchAll(usernames, history).sent ==> q.LastFmHistory?
    ensures |FetchAll(usernames, history).sent| <= 3 * |usernames|
    decreases |usernames|
  {
    if usernames != [] {
      FetchAllCons(usernames, history);
      FetchAllSent(usernames[1..], history);
    }
  }

  /** When no fetch throws, one user's contribution is the top listing, then
      the loved, then the recent one, and three requests are sent. */
  lemma SingleUser(user: string, history: Request -> LastFmReply)
    requires NoThrowFor(user, history)
    ensures GetTracks([user], history).value ==
      FacetEntries(history(FacetRequest(user, TopTracks)), TopTracks, user) +
      FacetEntries(history(FacetRequest(user, LovedTracks)), LovedTracks, user) +
      FacetEntries(history(FacetRequest(user, RecentTracks)), RecentTracks, user)
    ensures GetTracks([user], history).sent ==
      [FacetRequest(user, TopTracks), FacetRequest(user, LovedTracks), FacetRequest(user, RecentTracks)]
  {
    assert [user][1..] == [];
    FetchAllCons([user], history);
    UserNoThrow(user, history);
    var f := FetchUserTracks(user, history);
    assert f.entries + [] == f.entries;
    assert f.sent + [] == f.sent;
    assert FetchAll([user], history) == Fetched(f.entries, false, f.sent);
  }

  /** Users are aggregated in order: the tracks and the requests for `a + b`
      are those for `a` followed by those for `b`. */
  lemma FetchAllAppend(a: seq<string>, b: seq<string>, history: Request -> LastFmReply)
    ensures FetchAll(a + b, history).entries == FetchAll(a, history).entries + FetchAll(b, history).entries
    ensures FetchAll(a + b, history).threw == (FetchAll(a, history).threw || FetchAll(b, history).threw)
    ensures FetchAll(a + b, history).sent == FetchAll(a, history).sent + FetchAll(b, history).sent
  {
    var pa, pb, pab := PerUser(a, history), PerUser(b, history), PerUser(a + b, history);
    assert pab == pa + pb by {
      forall i | 0 <= i < |pab| ensures pab[i] == (pa + pb)[i] {
        if i < |a| {
          assert (a + b)[i] == a[i];
        } else {
          assert (a + b)[i] == b[i - |a|];
        }
      }
    }
    MergeAppend(pa, pb);
  }

  /** When no fetch throws, `getTracks` over `a + b` is `getTracks` over `a`
      followed by `getTracks` over `b`, in tracks and in requests. */
  lemma UsernameOrder(a: seq<string>, b: seq<string>, history: Request -> LastFmReply)
    requires forall u :: u in a + b ==> NoThrowFor(u, history)
    ensures GetTracks(a + b, history).value == GetTracks(a, history).value + GetTracks(b, history).value
    ensures GetTracks(a + b, history).sent == GetTracks(a, history).sent + GetTracks(b, history).sent
  {
    FetchAllAppend(a, b, history);
    NoThrowNoAbort(a, history);
    NoThrowNoAbort(b, history);
  }

  /** Without a throwing fetch, no user's chain is cut short. */
  lemma {:induction false} NoThrowNoAbort(usernames: seq<string>, history: Request -> LastFmReply)
    requires forall u :: u in usernames ==> NoThrowFor(u, history)
    ensures !FetchAll(usernames, history).threw
    ensures |FetchAll(usernames, history).sent| == 3 * |usernames|
    ensures forall i, k :: 0 <= i < |usernames| && 0 <= k < 3 ==>
      FetchAll(usernames, history).sent[3 * i + k] == FacetRequest(usernames[i], FacetAt(k))
    decreases |usernames|
  {
    if usernames != [] {
      var rest := usernames[1..];
      assert usernames[0] in usernames;
      assert forall u :: u in rest ==> u in usernames;
      NoThrowNoAbort(rest, history);
      UserNoThrow(usernames[0], history);
      FetchAllCons(usernames, history);
      var all := FetchAll(usernames, history);
      var head := FetchUserTracks(usernames[0], history);
      var tail := FetchAll(rest, history);
      assert all.sent == head.sent + tail.sent;
      forall i, k | 0 <= i < |usernames| && 0 <= k < 3
        ensures all.sent[3 * i + k] == FacetRequest(usernames[i], FacetAt(k))
      {
        if i > 0 {
          assert 3 * i + k == 3 + (3 * (i - 1) + k);
          assert all.sent[3 * i + k] == tail.sent[3 * (i - 1) + k];
          assert usernames[i] == rest[i - 1];
        }
      }
    }
  }

  /** A fetch that throws for any user empties the whole result, though the
      other users' requests are still sent. */
  lemma {:induction false} ThrowAbortsAll(usernames: seq<string>, history: Request -> LastFmReply, u: string)
    requires u in usernames && !NoThrowFor(u, history)
    ensures FetchAll(usernames, history).threw
    ensures GetTracks(usernames, history).value == []
    decreases |usernames|
  {
    FetchAllCons(usernames, history);
    if usernames[0] != u {
      ThrowAbortsAll(usernames[1..], history, u);
    }
  }

  /** Every descriptor is tagged with one of the requested users. */
  lemma {:induction false} EntriesTagged(usernames: seq<string>, history: Request -> LastFmReply, e: string)
    requires e in GetTracks(usernames, history).value
    ensures exists u :: u in usernames && EndsWithTag(e, u)
  {
    TaggedAll(usernames, history, e);
  }

  /** `e` ends in " (from <u>)". */
  predicate EndsWithTag(e: string, u: string) {
    var tag := " (from " + u + ")";
    |tag| <= |e| && e[|e| - |tag|..] == tag
  }

  lemma {:induction false} TaggedAll(usernames: seq<string>, history: Request -> LastFmReply, e: string)
    requires e in FetchAll(usernames, history).entries
    ensures exists u :: u in usernames && EndsWithTag(e, u)
    decreases |usernames|
  {
    FetchAllCons(usernames, history);
    var first := FetchUserTracks(usernames[0], history);
    if e in first.entries {
      var i :| 0 <= i < |first.entries| && first.entries[i] == e;
      TaggedOne(usernames[0], history, i);
    } else {
      TaggedAll(usernames[1..], history, e);
    }
  }

  lemma TaggedOne(user: string, history: Request -> LastFmReply, i: nat)
    requires i < |FetchUserTracks(user, history).entries|
    ensures EndsWithTag(FetchUserTracks(user, history).entries[i], user)
  {
    var e := FetchUserTracks(user, history).entries[i];
    forall f: Facet ensures forall x :: x in FacetEntries(history(FacetRequest(user, f)), f, user) ==> EndsWithTag(x, user) {
      FacetTagged(history(FacetRequest(user, f)), f, user);
    }
  }

  lemma FacetTagged(reply: LastFmReply, f: Facet, user: string)
    ensures forall x :: x in FacetEntries(reply, f, user) ==> EndsWithTag(x, user)
  {
    if reply.LastFmOk? && reply.tracks.Some? {
      var tracks := reply.tracks.value;
      forall i | 0 <= i < |tracks| ensures EndsWithTag(Describe(tracks[i], f, user), user) {
      }
    }
  }

  /** Two friends, the first with two top tracks and nothing else, the second
      with no history at all: exactly the first friend's two descriptors. */
  lemma OneFriendWithHistory(a: string, b: string, s1: Scrobble, s2: Scrobble, history: Request -> LastFmReply)
    requires history(FacetRequest(a, TopTracks)) == LastFmOk(Some([s1, s2]))
    requires history(FacetRequest(a, LovedTracks)) == LastFmOk(Some([]))
    requires history(FacetRequest(a, RecentTracks)) == LastFmNotOk
    requires forall f :: history(FacetRequest(b, f)) == LastFmNotOk
    ensures GetTracks([a, b], history).value ==
      [Printed(s1.name) + " by " + FieldText(s1.artist, "name") + " (from " + a + ")",
       Printed(s2.name) + " by " + FieldText(s2.artist, "name") + " (from " + a + ")"]
  {
    assert history(FacetRequest(b, TopTracks)) == LastFmNotOk;
    assert history(FacetRequest(b, LovedTracks)) == LastFmNotOk;
    assert history(FacetRequest(b, RecentTracks)) == LastFmNotOk;
    UsernameOrder([a], [b], history);
    SingleUser(a, history);
    SingleUser(b, history);
    assert [a] + [b] == [a, b];
  }
}
