/** `getCuratedPlaylist`: the mood table, the one chat request that asks the
    language model for a playlist, and the parse of its `*`-separated answer. */
module Curation {
  import opened Effects
  import opened Text
  import opened Seqs

  /** The chat model the request names. */
  const ChatModel := "command-r-plus-08-2024"

  /** The separator the answer is split on. */
  const Star := '*'

  /** The word both party-style clauses open with. */
  const PartyWord := "party"

  const PartyClause := PartyWord + " (high danceability, high energy, high BPM/tempo. no low energy, low BPM/temp, low danceability songs allowed)"
  const ChillClause := "chill (low danceability, medium/low energy, medium/low BPM/temp. no high energy, high BPM, high danceability songs allowed)"
  /** The "Driving" clause begins with "party", as the source has it. */
  const DrivingClause := PartyWord + " (high danceability, high energy, no low energy and low danceability songs allowed)"

  /** The situation substituted into the prompt: the label is reassigned by
      three `if`s in turn, which together act as a lookup table, since no
      clause equals a mood tested after it. */
  function ExpandMood(mood: string): (situation: string)
    ensures mood == "Party" ==> situation == PartyClause
    ensures mood == "Chill" ==> situation == ChillClause
    ensures mood == "Driving" ==> situation == DrivingClause
    ensures mood != "Party" && mood != "Chill" && mood != "Driving" ==> situation == mood
  {
    assert |PartyClause| > 7 && |ChillClause| > 7;
    var afterParty := if mood == "Party" then PartyClause else mood;
    var afterChill := if afterParty == "Chill" then ChillClause else afterParty;
    if afterChill == "Driving" then DrivingClause else afterChill
  }

  /** The moods the invite page offers, in the order it shows them. */
  const Moods: seq<string> := ["Party", "Driving", "Chill"]

  /** The selectable moods are all rewritten, and "Driving" to a clause that
      starts with "party". */
  lemma MoodTable(mood: string)
    requires mood in Moods
    ensures ExpandMood(mood) != mood && ExpandMood(mood) != ""
    ensures mood == "Driving" ==> StartsWith(ExpandMood(mood), "party")
  {
    assert DrivingClause[..5] == PartyWord;
  }

  /** A curated entry as the parse produces it: non-empty, trimmed and without
      the separator. */
  predicate IsEntry(x: string) {
    x != "" && IsTrimmed(x) && Star !in x
  }

  /** Each piece's trim, or `None` where the piece trims to nothing. */
  function Trims(pieces: seq<string>): seq<Option<string>> {
    seq(|pieces|, i requires 0 <= i < |pieces| =>
      if Trim(pieces[i]) == "" then None else Some(Trim(pieces[i])))
  }

  /** Trim every piece and keep the non-empty ones. */
  function TrimAndKeep(pieces: seq<string>): (entries: seq<string>)
    ensures |entries| <= |pieces|
    ensures forall x :: x in entries ==> x != "" && IsTrimmed(x)
    ensures (forall p :: p in pieces ==> Star !in p) ==> forall x :: x in entries ==> IsEntry(x)
  {
    if pieces == [] then []
    else
      var t := Trim(pieces[0]);
      TrimKeepsOut(pieces[0], Star);
      (if t == "" then [] else [t]) + TrimAndKeep(pieces[1..])
  }

  /** The successes of `Trims(pieces)`: the first piece's, then the rest's. */
  lemma TrimsCons(pieces: seq<string>)
    requires pieces != []
    ensures Somes(Trims(pieces)) ==
      (if Trim(pieces[0]) == "" then [] else [Trim(pieces[0])]) + Somes(Trims(pieces[1..]))
  {
    assert Trims(pieces)[1..] == Trims(pieces[1..]);
    SomesCons(Trims(pieces));
  }

  /** The kept pieces are exactly the non-empty trims of the pieces, in
      order. */
  lemma {:induction false} TrimAndKeepKeepsTrims(pieces: seq<string>)
    ensures TrimAndKeep(pieces) == Somes(Trims(pieces))
  {
    if pieces == [] {
      assert Trims(pieces) == [];
    } else {
      TrimsCons(pieces);
      TrimAndKeepKeepsTrims(pieces[1..]);
    }
  }

  /** `text.split("*").map(trim).filter(non-empty)`: the non-empty trims of
      the `*`-separated pieces, in order. */
  function ParseCurated(text: string): (entries: seq<string>)
    ensures entries == Somes(Trims(Split(text, Star)))
    ensures forall x :: x in entries ==> IsEntry(x)
    ensures |entries| <= |Split(text, Star)|
  {
    TrimAndKeepKeepsTrims(Split(text, Star));
    TrimAndKeep(Split(text, Star))
  }

  /** The entries are the non-empty trims of the pieces: the k-th entry is
      the trim of the piece at a strictly increasing position, and every piece
      that does not trim to nothing contributes its trim. */
  lemma ParseKeepsTrims(text: string)
    ensures PicksSomes(ParseCurated(text), Trims(Split(text, Star)), SomeIndices(Trims(Split(text, Star))))
  {
    SomesIndexed(Trims(Split(text, Star)));
  }

  /** " * " between two separator-free parts splits into the parts with
      their space. */
  lemma SpacedSplit(a: string, b: string)
    requires Star !in a && Star !in b
    ensures Split(a + " * " + b, Star) == [a + " ", " " + b]
  {
    var pieces := [a + " ", " " + b];
    SplitJoin(pieces, Star);
    assert pieces[1..] == [" " + b];
    assert Join(pieces, [Star]) == a + " * " + b;
  }

  /** The two spaced parts trim back to their entries. */
  lemma SpacedTrims(a: string, b: string)
    requires IsEntry(a) && IsEntry(b)
    ensures Trims([a + " ", " " + b]) == [Some(a), Some(b)]
  {
    TrimPadded("", a, " ");
    assert "" + a + " " == a + " ";
    TrimPadded(" ", b, "");
    assert " " + b + "" == " " + b;
  }

  /** Two entries separated by the separator with a space on either side,
      as the model usually answers, parse to those two entries. */
  lemma SpacedPair(a: string, b: string)
    requires IsEntry(a) && IsEntry(b)
    ensures ParseCurated(a + " * " + b) == [a, b]
  {
    SpacedSplit(a, b);
    SpacedTrims(a, b);
    var ts: seq<Option<string>> := [Some(a), Some(b)];
    SomesCons(ts);
    SomesCons(ts[1..]);
    assert ts[1..][1..] == [];
  }

  /** The answer "Song B ArtistB * Song C ArtistC" parses to its two songs
      with the spaces around the separator removed. */
  lemma SpacedAnswer()
    ensures ParseCurated("Song B ArtistB * Song C ArtistC") == ["Song B ArtistB", "Song C ArtistC"]
  {
    var xs := ["Song B ArtistB", "Song C ArtistC"];
    assert xs[0] + " * " + xs[1] == "Song B ArtistB * Song C ArtistC";
    assert IsEntry(xs[0]) && IsEntry(xs[1]);
    SpacedPair(xs[0], xs[1]);
  }

  /** Pieces that are already entries survive trimming and filtering intact. */
  lemma {:induction false} KeepEntries(xs: seq<string>)
    requires forall x :: x in xs ==> IsEntry(x)
    ensures TrimAndKeep(xs) == xs
  {
    if xs != [] {
      assert xs[0] in xs;
      TrimmedIsFixed(xs[0]);
      KeepEntries(xs[1..]);
    }
  }

  /** Joining entries with `*` and parsing gives the same list back. */
  lemma ParseJoinRoundTrip(xs: seq<string>)
    requires forall x :: x in xs ==> IsEntry(x)
    ensures ParseCurated(Join(xs, [Star])) == xs
  {
    if xs != [] {
      SplitJoin(xs, Star);
      KeepEntries(xs);
    } else {
      EmptyParse();
    }
  }

  /** An empty answer parses to no entries. */
  lemma EmptyParse()
    ensures ParseCurated("") == []
  {
    assert Split("", Star) == [""];
    assert Trim("") == "";
    assert TrimAndKeep([""]) == [] + TrimAndKeep([]);
  }

  /** Parsing is stable: re-joining and re-parsing a parse changes nothing. */
  lemma ParseIdempotent(text: string)
    ensures ParseCurated(Join(ParseCurated(text), [Star])) == ParseCurated(text)
  {
    ParseJoinRoundTrip(ParseCurated(text));
  }

  /** The entries of a chat reply: none when the call threw or the reply has
      no (or an empty) `text`, the parse of the text otherwise. */
  function AnswerEntries(reply: ChatReply): (entries: seq<string>)
    ensures reply.ChatThrew? || (reply.ChatReplied? && !Truthy(reply.text)) ==> entries == []
    ensures forall x :: x in entries ==> IsEntry(x)
  {
    match reply
    case ChatThrew => []
    case ChatReplied(text) => if !Truthy(text) then [] else ParseCurated(text.value)
  }

  /** The empty-text exit agrees with the parse: any text reply gives exactly
      the parse of its text. */
  lemma AnswerIsParse(text: string)
    ensures AnswerEntries(ChatReplied(Some(text))) == ParseCurated(text)
  {
    if text == "" {
      EmptyParse();
    } else {
      assert Truthy(Some(text));
    }
  }

  /** `getCuratedPlaylist(tracks, selectedGenre)`. No candidate tracks: no
      request and no entries. Otherwise one chat request carrying the expanded
      mood and the candidates, and the entries of its reply. */
  function GetCuratedPlaylist(tracks: seq<string>, genre: string, chat: Request -> ChatReply): (r: Run<seq<string>>)
    ensures tracks == [] ==> r == Run([], [])
    ensures tracks != [] ==> r.sent == [CohereChat(ChatModel, ExpandMood(genre), tracks)]
    ensures tracks != [] ==> r.value == AnswerEntries(chat(r.sent[0]))
    ensures forall x :: x in r.value ==> IsEntry(x)
  {
    if tracks == [] then Run([], [])
    else
      var request := CohereChat(ChatModel, ExpandMood(genre), tracks);
      Run(AnswerEntries(chat(request)), [request])
  }

  /** The answer "Song B ArtistB*Song C ArtistC" parses into its two entries. */
  lemma TwoSongAnswer()
    ensures ParseCurated("Song B ArtistB*Song C ArtistC") == ["Song B ArtistB", "Song C ArtistC"]
  {
    var xs := ["Song B ArtistB", "Song C ArtistC"];
    assert Join(xs, [Star]) == "Song B ArtistB*Song C ArtistC";
    ParseJoinRoundTrip(xs);
  }
}
