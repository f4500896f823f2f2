# Pass the Aux — playlist pipeline model

Pass the Aux builds a shared Spotify playlist for a group of friends. On the
invite page a signed-in user picks a mood ("Party", "Driving" or "Chill") and
types up to three Last.fm usernames. "Generate Playlist!" then runs one
pipeline:

1. create an empty private Spotify playlist named "<mood> Mix";
2. collect every friend's Last.fm top, loved and recent tracks as
   "<name> by <artist> (from <user>)" descriptors;
3. send them, with the mood rewritten into a descriptive clause, in one Cohere
   chat request, and parse the `*`-separated answer into curated entries;
4. search Spotify for each entry, look up each found id's uri;
5. append the uris at position 0 of the new playlist.

This project models the helpers of `playlist-helpers.js` and the handler and
token parse of the invite page in Dafny, and proves properties of them.

Each external service (Last.fm, Cohere, the Spotify search, track, playlist
creation and add-items endpoints) is an oracle: a total function from the
request sent to the reply received, passed in as a parameter. Every operation
returns its value together with the requests it sent, in order (`Run`), so
the contracts can say which requests are sent, how many, in which order and
with which parameters. JavaScript truthiness of a possibly missing string is
`Truthy`: present and non-empty.

Modules, one file each:

- `Text` (text.dfy): `trim`, `split` on one character, `join`, `startsWith`.
- `Effects`, `Seqs` (effects.dfy): the session, requests, replies and `Run`;
  `Somes`, the keep-the-successes filter the resolver loops compute.
- `History` (history.dfy): `getTracks`.
- `Curation` (curation.dfy): `getCuratedPlaylist`, its mood table and parser.
- `Resolver` (resolver.dfy): `getSpotifyTrackIDs` and `getSpotifyURIS`, as
  methods with loops proved against specification functions.
- `Playlist` (playlist.dfy): `createEmptyPlaylist` and `addURIsToPlaylist`.
- `Page` (page.dfy): the token parse, the username filter and
  `handleGeneratePlaylist`, as a method proved against the function
  `Generate`, with lemmas about which steps run.

Behaviours of the code worth knowing, each proved below:

- `getTracks` (`playlist-helpers.js:257-271`): a listing with a non-ok
  status contributes nothing, but a fetch that throws makes `Promise.all`
  reject, and the outer `catch` then returns `[]`, dropping every user's
  tracks (`History.ThrowAbortsAll`).
- `handleGeneratePlaylist` (`page.jsx:92-112`): a null playlist id from a
  failed creation does not stop the handler. Histories are fetched, the
  model is asked and tracks are resolved anyway; only the append is skipped,
  by the `!playlistId` guard of `addURIsToPlaylist`
  (`Page.HistoryFetchedRegardless`, `Page.NoAppendWithoutPlaylist`).
- The "Driving" mood is rewritten to a clause that starts with "party"
  (`Curation.MoodTable`).
- `getSpotifyURIS` logs an undeclared `track` on a non-ok status; the
  ReferenceError is caught per id, so the id is skipped, as on any failure.

## Model

| member | source | states |
|---|---|---|
| Text.Trim | src/app/invite-friends/playlist-helpers.js:195 | the trim is the infix of the input that starts after its leading whitespace, with only whitespace after it, and has no whitespace at either end |
| Text.TrimKeepsOut | src/app/invite-friends/playlist-helpers.js:195 | a character absent from the input is absent from its trim |
| Text.TrimmedIsFixed | src/app/invite-friends/playlist-helpers.js:195 | a string with no whitespace at its ends is its own trim |
| Text.TrimIdempotent | src/app/invite-friends/playlist-helpers.js:195 | trimming twice is trimming once |
| Text.TrimPadded | src/app/invite-friends/playlist-helpers.js:195 | a non-empty text without whitespace at its ends, padded with whitespace on either side, trims back to itself |
| Text.Split | src/app/invite-friends/playlist-helpers.js:194 | splitting yields at least one piece and no piece contains the separator |
| Text.SplitJoin | src/app/invite-friends/playlist-helpers.js:193-196 | splitting a join of separator-free pieces gives exactly those pieces back |
| Text.JoinSplit | src/app/invite-friends/playlist-helpers.js:193-194 | joining the pieces of a split with the separator gives the text back |
| Seqs.Somes | src/app/invite-friends/playlist-helpers.js:113-149 | keeping the successes never lengthens the sequence |
| Seqs.SomesIndexed | src/app/invite-friends/playlist-helpers.js:113-149 | the kept values are exactly the successes, in their original order, each at a strictly later position |
| Seqs.SomesAppend | src/app/invite-friends/playlist-helpers.js:195-196 | keeping the successes of `a + b` keeps those of `a`, then those of `b` |
| Seqs.SomesOfNones | src/app/invite-friends/playlist-helpers.js:61-97 | nothing is kept when every item failed |
| History.FetchAllCons | src/app/invite-friends/playlist-helpers.js:257-262 | the aggregate is the first user's descriptors, requests and throw flag followed by the other users' |
| History.Describe | src/app/invite-friends/playlist-helpers.js:230-252 | a descriptor opens with the track name (or "undefined") and " by ", and ends with " (from <user>)" |
| History.FetchUserTracks | src/app/invite-friends/playlist-helpers.js:207-253 | a user's chain sends a non-empty prefix of the top, loved and recent requests, all three exactly when it does not throw; it throws exactly when one of the three listings would, and then yields nothing |
| History.MergeAppend | src/app/invite-friends/playlist-helpers.js:260-262 | merging two runs of per-user results concatenates their descriptors and requests |
| History.FetchAllAppend | src/app/invite-friends/playlist-helpers.js:257-262 | the aggregate over `a + b` is the aggregate over `a` followed by the one over `b` |
| History.GetTracks | src/app/invite-friends/playlist-helpers.js:206-272 | only Last.fm requests are sent, at most three per user |
| History.FetchAllSent | src/app/invite-friends/playlist-helpers.js:208-260 | every request of the aggregation goes to Last.fm, at most three per user |
| History.UserNoThrow | src/app/invite-friends/playlist-helpers.js:229-254 | without a throw, a user's chain sends the top, loved and recent requests in that order and yields those listings' descriptors in that order |
| History.SingleUser | src/app/invite-friends/playlist-helpers.js:229-254 | for one user, the tracks are the top, then loved, then recent descriptors, after exactly those three requests |
| History.UsernameOrder | src/app/invite-friends/playlist-helpers.js:257-262 | without a throw, tracks and requests for `a + b` are those for `a` followed by those for `b` |
| History.NoThrowNoAbort | src/app/invite-friends/playlist-helpers.js:229-260 | without a throw, exactly three requests per user are sent, request 3i+k being listing k of user i |
| History.ThrowAbortsAll | src/app/invite-friends/playlist-helpers.js:257-271 | a throw in any user's chain empties the whole result |
| History.FacetTagged | src/app/invite-friends/playlist-helpers.js:230-252 | every descriptor of a listing ends with " (from <user>)" |
| History.TaggedOne | src/app/invite-friends/playlist-helpers.js:229-254 | every descriptor of a user's chain ends with that user's tag |
| History.TaggedAll | src/app/invite-friends/playlist-helpers.js:257-262 | every aggregated descriptor carries the tag of one of the users |
| History.EntriesTagged | src/app/invite-friends/playlist-helpers.js:206-266 | every returned track is tagged with one of the requested usernames |
| History.OneFriendWithHistory | src/app/invite-friends/playlist-helpers.js:220-262 | two friends, one with two top tracks and nothing else, the other with every listing failing, give exactly the first friend's two descriptors |
| Curation.ExpandMood | src/app/invite-friends/playlist-helpers.js:163-174 | "Party", "Chill" and "Driving" become their fixed clauses; any other label is passed through unchanged |
| Curation.MoodTable | src/app/invite-friends/playlist-helpers.js:163-174 | each of the three moods the invite page offers (`page.jsx:36`) is rewritten to a non-empty clause different from it, and the "Driving" clause starts with "party" |
| Curation.TrimAndKeep | src/app/invite-friends/playlist-helpers.js:195-196 | the kept pieces are non-empty and trimmed, no more than the pieces, and free of `*` when the pieces are |
| Curation.TrimAndKeepKeepsTrims | src/app/invite-friends/playlist-helpers.js:195-196 | the kept pieces are exactly the non-empty trims of the pieces, in order |
| Curation.ParseCurated | src/app/invite-friends/playlist-helpers.js:193-196 | the entries are exactly the non-empty trims of the `*`-separated pieces, in order; each is non-empty, trimmed and free of `*`, and there are no more entries than pieces |
| Curation.ParseKeepsTrims | src/app/invite-friends/playlist-helpers.js:193-196 | the k-th entry is the trim of the piece at the k-th of strictly increasing positions, and every piece that does not trim to nothing contributes |
| Curation.SpacedSplit | src/app/invite-friends/playlist-helpers.js:194 | " * " between two `*`-free parts splits into the parts with their adjacent space |
| Curation.SpacedTrims | src/app/invite-friends/playlist-helpers.js:195 | those two spaced parts trim back to the entries |
| Curation.SpacedPair | src/app/invite-friends/playlist-helpers.js:193-196 | any two entries written with " * " between them parse to exactly those two entries |
| Curation.SpacedAnswer | src/app/invite-friends/playlist-helpers.js:193-196 | the answer "Song B ArtistB * Song C ArtistC" parses to its two songs without the surrounding spaces |
| Curation.KeepEntries | src/app/invite-friends/playlist-helpers.js:195-196 | pieces that are already entries survive the trim and filter unchanged |
| Curation.ParseJoinRoundTrip | src/app/invite-friends/playlist-helpers.js:193-196 | joining any list of entries with `*` and parsing gives that list back |
| Curation.EmptyParse | src/app/invite-friends/playlist-helpers.js:193-196 | an empty answer parses to no entries |
| Curation.ParseIdempotent | src/app/invite-friends/playlist-helpers.js:193-196 | re-joining and re-parsing a parse changes nothing |
| Curation.AnswerEntries | src/app/invite-friends/playlist-helpers.js:186-203 | a thrown call, or a reply whose `text` is missing or empty, gives no entries; any result consists of entries |
| Curation.AnswerIsParse | src/app/invite-friends/playlist-helpers.js:188-196 | any text reply, empty included, gives exactly the parse of its text |
| Curation.GetCuratedPlaylist | src/app/invite-friends/playlist-helpers.js:156-204 | no candidates: no request and no entries; otherwise exactly one chat request with the model name, the expanded mood and the candidates, and the entries of its reply |
| Curation.TwoSongAnswer | src/app/invite-friends/playlist-helpers.js:193-196 | the answer "Song B ArtistB*Song C ArtistC" parses into its two songs |
| Resolver.ResolvedTrackIDs | src/app/invite-friends/playlist-helpers.js:104-154 | without a token nothing is sent or returned; only searches are sent; no more ids than descriptors |
| Resolver.ResolvedURIs | src/app/invite-friends/playlist-helpers.js:53-102 | without a token nothing is sent or returned; only lookups are sent; no more uris than ids |
| Resolver.GetSpotifyTrackIDs | src/app/invite-friends/playlist-helpers.js:104-154 | the loop returns exactly the ids and requests of `ResolvedTrackIDs` |
| Resolver.GetSpotifyURIs | src/app/invite-friends/playlist-helpers.js:53-102 | the loop returns exactly the uris and requests of `ResolvedURIs` |
| Resolver.TrackIDsInOrder | src/app/invite-friends/playlist-helpers.js:113-149 | the ids are those of the successful searches, in descriptor order, and every successful search contributes |
| Resolver.URIsInOrder | src/app/invite-friends/playlist-helpers.js:61-97 | the uris are those of the successful lookups, in id order, and every successful lookup contributes |
| Resolver.SecondSearchMisses | src/app/invite-friends/playlist-helpers.js:104-149 | three descriptors whose second search finds nothing resolve to the uris of the first and third, in that order |
| Playlist.CreateEmptyPlaylist | src/app/invite-friends/playlist-helpers.js:274-329 | without user id or token: null and no request; otherwise one private creation request named "<genre> Mix" with the joined description, and an id exactly when it succeeds |
| Playlist.AddURIsToPlaylist | src/app/invite-friends/playlist-helpers.js:7-51 | a request is sent exactly when user id, token, a truthy playlist id and a non-empty uri list are present; it inserts the uris unchanged at position 0; success exactly when the reply is ok |
| Playlist.DescriptionListsUsers | src/app/invite-friends/playlist-helpers.js:288-291 | the description starts with the first username and ends with the signature, and its name part is as long as the usernames together plus one " x " between each two |
| Playlist.JoinLength | src/app/invite-friends/playlist-helpers.js:289-291 | a join is as long as its parts plus one separator between each two |
| Page.FirstStartingWith | src/app/invite-friends/page.jsx:55 | the index found is the first segment starting with the key; none is found exactly when no segment starts with it |
| Page.ExtractToken | src/app/invite-friends/page.jsx:46-65 | a stored token, or no fragment, keeps the stored value; otherwise the parse throws exactly when no fragment segment starts with "access_token" |
| Page.FirstAfter | src/app/invite-friends/page.jsx:55 | the token segment is found past earlier segments that do not start with the key |
| Page.SegmentValue | src/app/invite-friends/page.jsx:56 | the value read from "<key>=<t>..." is `t` |
| Page.TokenFromRedirect | src/app/invite-friends/page.jsx:51-57 | a redirect fragment whose first segment starting with "access_token" is "<key>=<t>..." yields `t`, for any such key |
| Page.Usernames | src/app/invite-friends/page.jsx:82-84 | at most three usernames, and a name is among them exactly when it is a non-empty field value |
| Page.UsernamesInFormOrder | src/app/invite-friends/page.jsx:82-84 | the usernames are the filled fields in form order |
| Page.OneNameFilled | src/app/invite-friends/page.jsx:82-84 | a form with only the first field filled yields that one name |
| Page.Generate | src/app/invite-friends/page.jsx:76-119 | no mood: stop with no request; no username: stop with no request |
| Page.RunSteps | src/app/invite-friends/page.jsx:91-114 | each step of the pipeline sends only requests to its own service |
| Page.HandleGeneratePlaylist | src/app/invite-friends/page.jsx:76-119 | the handler's outcome and requests are exactly those of `Generate` |
| Page.PastInputChecks | src/app/invite-friends/page.jsx:77-89 | a run that generated anything had a mood and at least one username |
| Page.StepKinds | src/app/invite-friends/page.jsx:92-112 | each step sends only its own service's requests; the first two steps are `createEmptyPlaylist` and `getTracks` |
| Page.NothingCuratedStops | src/app/invite-friends/page.jsx:103-114 | nothing curated: no search, lookup or append |
| Page.AppendShape | src/app/invite-friends/page.jsx:109-112 | an append happens only with resolved uris and a created playlist, and carries those uris at position 0 |
| Page.NoPlaylistNoAppend | src/app/invite-friends/page.jsx:110-112 | a missing playlist id means no append |
| Page.HistoryAfterCreation | src/app/invite-friends/page.jsx:92-97 | in a run's steps, the history requests directly follow the creation request |
| Page.CreationRequestedFirst | src/app/invite-friends/page.jsx:92-97 | with credentials, the first request is the creation of "<mood> Mix" with the usernames' description, and no other creation follows |
| Page.HistoryFetchedRegardless | src/app/invite-friends/page.jsx:92-97 | whatever the creation returned, all of `getTracks`' requests directly follow the creation request |
| Page.NoResolutionWithoutCuration | src/app/invite-friends/page.jsx:103-114 | with nothing curated, only creation, history and chat requests are sent |
| Page.NoAppendWithoutPlaylist | src/app/invite-friends/page.jsx:110-112 | a failed creation means no append request is ever sent |
| Page.AppendCarriesResolvedURIs | src/app/invite-friends/page.jsx:109-112 | an append request is the last request and inserts exactly the non-empty resolved uris at position 0 of the created playlist |
| Page.TwoSongCuration | src/app/invite-friends/page.jsx:100 | a chat that answers two songs curates those two from any non-empty candidate list |
| Page.TwoResolve | src/app/invite-friends/page.jsx:104-109 | two descriptors whose searches and lookups succeed resolve to their two uris in order |
| Page.TwoSongSteps | src/app/invite-friends/page.jsx:92-112 | for one friend with one top track and a two-song answer, the playlist is created, both songs are curated, resolved and appended |
| Page.TwoSongRun | src/app/invite-friends/page.jsx:76-119 | that run's outcome, first request (the creation) and last request (the append of both uris at position 0) |
| Page.AliceChillScenario | src/app/invite-friends/page.jsx:76-119 | friend "alice", mood "Chill": "Chill Mix" is created first, two songs curated, and the last request appends uri1 and uri2 at position 0 |

## Left out

- The user interface: React state and rendering, the mood buttons, the form inputs, the popover, fonts, the sign-in page `src/app/page.js`, the loading and redirect branches of the invite page.
- `alert` and `console` calls; the `AddStatus` values of `Playlist.AddURIsToPlaylist` stand for which alert is shown.
- The writes to `localStorage` and `window.location.hash` after the token parse, and the random `blendId`: side effects with no bearing on the pipeline.
- HTTP, JSON decoding, the Cohere SDK and URL construction: each service is an oracle from a request to a reply, and a reply carries only the fields the code reads. The search query is not URL-encoded by the code; the model passes the descriptor as the query.
- The prompt and preamble wording: the chat request carries the model name, the expanded mood and the candidates, which is what the code varies.
- Concurrency: `Promise.all` runs the users' chains concurrently; the model sends them in username order, which is the order `Promise.all` returns results in. The un-awaited `addURIsToPlaylist` call is modelled as the last request.
- History.FacetEntries: a track whose `artist` object is missing would make the template throw; the model assumes every track has an artist object. A missing `name`, or a missing key inside the artist object, prints "undefined", as the template does.
- Page.Usernames: field values are strings or missing; other JavaScript values are not modelled.
- Page.ExtractToken: when a segment such as "access_token" has no `=`, the code stores `undefined`; the model returns a missing token. The thrown TypeError of a fragment without a token segment is `ParseThrew`.
- `Text.Trim`: uses a fixed list of whitespace characters (ECMAScript WhiteSpace and LineTerminator) rather than the Unicode database.
- Playlist.DescriptionListsUsers: states the first username, the signature and the length of the name part, not where each later username sits in it.
