/** One pass of the scan over the team standings table: colour each member's
    name by their own rating, aggregate the members' ratings into a team
    rating, draw the badge beside the team name, and say what runs next.

    The page is a sequence of row records. What the pass reads of a row, and
    what it writes back, are fields of the record: whether the row holds the
    team marker (`span.gray.small50`), the member links, and the team link with
    its name span. The tooltip wrapper that tells a decorated row apart is not
    a separate flag: it is present exactly when the team link holds the badge
    that Decorate produces. */
module Standings {
  import opened Tiers
  import opened Aggregate

  datatype Option<T> = None | Some(value: T)

  /** The ratings table: user name to rating. */
  type Ratings = map<string, real>

  /** A member link: its text content, and the class of the span the scan
      wrapped the name in, if it did. */
  datatype MemberLink = MemberLink(text: string, colorClass: Option<string>)

  /** The team link (`a.username`): either as the page draws it, with the inner
      HTML of its first span (if it has one), or as Decorate rewrites it. */
  datatype TeamAnchor =
    | HostName(nameSpan: Option<string>)
    | Badge(circle: Circle, tooltip: int, nameClass: string, name: string)

  /** One `td.standings-username` cell of the table. */
  datatype Row = Row(hasTeamMarker: bool, members: seq<MemberLink>, team: Option<TeamAnchor>)

  /** What the script schedules when a pass ends. */
  datatype Action =
    | RunMain(delayMs: nat)
    | RunHeuristic(delayMs: nat, ratings: Ratings)

  // ---------------------------------------------------------------------------
  // String.prototype.trim

  /** The characters JavaScript's trim removes: white space and line
      terminators. */
  predicate IsJsWhitespace(c: char) {
    || c == '\t' || c == '\n' || c == '\U{B}' || c == '\U{C}' || c == '\r' || c == ' '
    || c == '\U{A0}' || c == '\U{1680}' || ('\U{2000}' <= c <= '\U{200A}')
    || c == '\U{2028}' || c == '\U{2029}' || c == '\U{202F}' || c == '\U{205F}'
    || c == '\U{3000}' || c == '\U{FEFF}'
  }

  /** The length of the run of white space that starts s. */
  function LeadingSpace(s: string): (k: nat)
    ensures k <= |s|
  {
    if s == [] || !IsJsWhitespace(s[0]) then 0 else 1 + LeadingSpace(s[1..])
  }

  /** The length of the run of white space that ends s. */
  function TrailingSpace(s: string): (k: nat)
    ensures k <= |s|
  {
    if s == [] || !IsJsWhitespace(s[|s| - 1]) then 0 else 1 + TrailingSpace(s[..|s| - 1])
  }

  /** s without its leading and trailing white space. */
  function Trim(s: string): string {
    var a := s[LeadingSpace(s)..];
    a[..|a| - TrailingSpace(a)]
  }

  /** LeadingSpace counts exactly the white space before the first other
      character. */
  lemma {:induction false} LeadingSpaceIsMaximal(s: string)
    ensures forall i :: 0 <= i < LeadingSpace(s) ==> IsJsWhitespace(s[i])
    ensures LeadingSpace(s) < |s| ==> !IsJsWhitespace(s[LeadingSpace(s)])
  {
    if s != [] && IsJsWhitespace(s[0]) {
      LeadingSpaceIsMaximal(s[1..]);
      forall i | 1 <= i < LeadingSpace(s)
        ensures IsJsWhitespace(s[i])
      {
        assert s[i] == s[1..][i - 1];
      }
    }
  }

  /** TrailingSpace counts exactly the white space after the last other
      character. */
  lemma {:induction false} TrailingSpaceIsMaximal(s: string)
    ensures forall i :: |s| - TrailingSpace(s) <= i < |s| ==> IsJsWhitespace(s[i])
    ensures TrailingSpace(s) < |s| ==> !IsJsWhitespace(s[|s| - 1 - TrailingSpace(s)])
  {
    if s != [] && IsJsWhitespace(s[|s| - 1]) {
      var init := s[..|s| - 1];
      TrailingSpaceIsMaximal(init);
      forall i | |s| - TrailingSpace(s) <= i < |s| - 1
        ensures IsJsWhitespace(s[i])
      {
        assert s[i] == init[i];
      }
    }
  }

  /** Trim removes white space at the two ends and nothing else: what it
      keeps is a slice of s that starts and ends with other characters. */
  lemma TrimCutsOnlySpace(s: string)
    ensures exists i, j ::
      && 0 <= i <= j <= |s| && Trim(s) == s[i..j]
      && (forall k :: 0 <= k < i ==> IsJsWhitespace(s[k]))
      && (forall k :: j <= k < |s| ==> IsJsWhitespace(s[k]))
    ensures Trim(s) != [] ==> !IsJsWhitespace(Trim(s)[0]) && !IsJsWhitespace(Trim(s)[|Trim(s)| - 1])
  {
    var lead := LeadingSpace(s);
    var a := s[lead..];
    var trail := TrailingSpace(a);
    LeadingSpaceIsMaximal(s);
    TrailingSpaceIsMaximal(a);
    forall k | lead + |a| - trail <= k < |s|
      ensures IsJsWhitespace(s[k])
    {
      assert s[k] == a[k - lead];
    }
    assert Trim(s) == s[lead..lead + |a| - trail];
  }

  /** A name trims to nothing exactly when it is white space only. */
  lemma TrimBlank(s: string)
    ensures Trim(s) == [] <==> forall i :: 0 <= i < |s| ==> IsJsWhitespace(s[i])
  {
    var lead := LeadingSpace(s);
    var a := s[lead..];
    LeadingSpaceIsMaximal(s);
    TrailingSpaceIsMaximal(a);
    if lead < |s| {
      assert a[0] == s[lead];
    }
  }

  /** A name that neither starts nor ends with white space is left as it is. */
  lemma TrimKeepsPlain(s: string)
    requires s != [] ==> !IsJsWhitespace(s[0]) && !IsJsWhitespace(s[|s| - 1])
    ensures Trim(s) == s
  {
    if s != [] {
      assert LeadingSpace(s) == 0;
      assert s[0..] == s;
      assert TrailingSpace(s) == 0;
    }
  }

  lemma TrimIdempotent(s: string)
    ensures Trim(Trim(s)) == Trim(s)
  {
    TrimCutsOnlySpace(s);
    TrimKeepsPlain(Trim(s));
  }

  // ---------------------------------------------------------------------------
  // Members

  /** A user's rating, 0 for a user the table does not know. */
  function RatingOf(ratings: Ratings, username: string): real {
    if username in ratings then ratings[username] else 0.0
  }

  /** The rewrite of one member link: a blank name is left alone, any other
      is trimmed and wrapped in the class of its owner's rating. */
  function Recolor(ratings: Ratings, m: MemberLink): MemberLink {
    var username := Trim(m.text);
    if username == "" then m
    else MemberLink(username, Some(SpanClass(RatingOf(ratings, username))))
  }

  function RecolorAll(ratings: Ratings, members: seq<MemberLink>): (ms: seq<MemberLink>)
    ensures |ms| == |members|
    ensures forall k :: 0 <= k < |ms| ==> ms[k] == Recolor(ratings, members[k])
  {
    seq(|members|, k requires 0 <= k < |members| => Recolor(ratings, members[k]))
  }

  /** The ratings the member loop pushes, in order: one per member whose
      trimmed name is not empty. */
  function MemberRatings(ratings: Ratings, members: seq<MemberLink>): seq<real> {
    if members == [] then []
    else
      var init, last := members[..|members| - 1], members[|members| - 1];
      var username := Trim(last.text);
      MemberRatings(ratings, init) + (if username == "" then [] else [RatingOf(ratings, username)])
  }

  lemma MemberRatingsPrefix(ratings: Ratings, members: seq<MemberLink>, i: nat)
    requires i < |members|
    ensures var username := Trim(members[i].text);
      MemberRatings(ratings, members[..i + 1]) ==
        MemberRatings(ratings, members[..i]) + (if username == "" then [] else [RatingOf(ratings, username)])
  {
    assert members[..i + 1][..i] == members[..i];
  }

  /** Rewriting a member link twice gives what rewriting it once gives, so the
      rows the scan visits again keep their member names as they are. */
  lemma RecolorIdempotent(ratings: Ratings, m: MemberLink)
    ensures Recolor(ratings, Recolor(ratings, m)) == Recolor(ratings, m)
  {
    TrimIdempotent(m.text);
  }

  /** A member the table does not know counts as 0 and is coloured unrated. */
  lemma UnknownMemberIsUnrated(ratings: Ratings, members: seq<MemberLink>, m: MemberLink)
    requires Trim(m.text) != "" && Trim(m.text) !in ratings
    ensures Recolor(ratings, m) == MemberLink(Trim(m.text), Some("user-unrated"))
    ensures MemberRatings(ratings, members + [m]) == MemberRatings(ratings, members) + [0.0]
  {
    assert (members + [m])[..|members|] == members;
  }

  /** A member known to the table counts with its rating and is coloured by it. */
  lemma KnownMemberIsRated(ratings: Ratings, members: seq<MemberLink>, m: MemberLink)
    requires Trim(m.text) != "" && Trim(m.text) in ratings
    ensures Recolor(ratings, m) == MemberLink(Trim(m.text), Some(SpanClass(ratings[Trim(m.text)])))
    ensures MemberRatings(ratings, members + [m]) == MemberRatings(ratings, members) + [ratings[Trim(m.text)]]
  {
    assert (members + [m])[..|members|] == members;
  }

  /** A member whose name is empty or white space only is skipped: its link is
      left as it is and it adds no rating. */
  lemma BlankMemberIsSkipped(ratings: Ratings, members: seq<MemberLink>, m: MemberLink)
    requires forall i :: 0 <= i < |m.text| ==> IsJsWhitespace(m.text[i])
    ensures Recolor(ratings, m) == m
    ensures MemberRatings(ratings, members + [m]) == MemberRatings(ratings, members)
  {
    TrimBlank(m.text);
    assert (members + [m])[..|members|] == members;
  }

  /** At most one rating per member link. */
  lemma {:induction false} MemberRatingsLength(ratings: Ratings, members: seq<MemberLink>)
    ensures |MemberRatings(ratings, members)| <= |members|
  {
    if members != [] {
      MemberRatingsLength(ratings, members[..|members| - 1]);
    }
  }

  /** Links whose names are all blank push no rating at all. */
  lemma {:induction false} BlankMembersPushNothing(ratings: Ratings, members: seq<MemberLink>)
    requires forall k :: 0 <= k < |members| ==> Trim(members[k].text) == ""
    ensures MemberRatings(ratings, members) == []
  {
    if members != [] {
      BlankMembersPushNothing(ratings, members[..|members| - 1]);
    }
  }

  // ---------------------------------------------------------------------------
  // Rows

  /** decorate: the badge with the team rating in its tooltip, followed by the
      team name in the class of that rating. */
  function Decorate(tname: string, trating: int): (a: TeamAnchor)
    ensures a.Badge? && a.tooltip == trating && a.name == tname
    ensures a.nameClass == BandClass(BandOf(trating as real))
    ensures a.circle == TopcoderLikeCircle(trating as real)
  {
    Badge(TopcoderLikeCircle(trating as real), trating, SpanClass(trating as real), tname)
  }

  /** The row already holds a `span.tooltip1`. */
  predicate HasTooltip(row: Row) {
    row.team.Some? && row.team.value.Badge?
  }

  /** The row passes the three guards of the loop: team marker present, no
      tooltip yet, at least one member link. */
  predicate Eligible(row: Row) {
    row.hasTeamMarker && !HasTooltip(row) && |row.members| > 0
  }

  /** The row has a team link with a span inside, so the badge is written. */
  predicate Decoratable(row: Row) {
    row.team.Some? && row.team.value.HostName? && row.team.value.nameSpan.Some?
  }

  /** The effect of one pass on one row. */
  function ScanRow(p: WinProbability, ratings: Ratings, row: Row): Row {
    if !Eligible(row) then row
    else
      var recolored := row.(members := RecolorAll(ratings, row.members));
      if Decoratable(row) then
        var agg := AggregateRating(p, MemberRatings(ratings, row.members));
        recolored.(team := Some(Decorate(row.team.value.nameSpan.value, agg)))
      else recolored
  }

  /** One turn of the member loop: trim the name, skip it when blank,
      otherwise look up the rating and wrap the name in its class. */
  method RewriteMember(ratings: Ratings, m: MemberLink) returns (link: MemberLink, pushed: seq<real>)
    ensures link == Recolor(ratings, m)
    ensures pushed == if Trim(m.text) == "" then [] else [RatingOf(ratings, Trim(m.text))]
  {
    var username := Trim(m.text);
    if username == "" {
      return m, [];
    }
    var rating := if username in ratings then ratings[username] else 0.0;
    link := MemberLink(username, Some(SpanClass(rating)));
    pushed := [rating];
  }

  /** The member loop: rewrite each link in place and push its owner's
      rating, skipping blank names. */
  method ColorMembers(ratings: Ratings, members: seq<MemberLink>)
    returns (colored: seq<MemberLink>, teamRatings: seq<real>)
    ensures colored == RecolorAll(ratings, members)
    ensures teamRatings == MemberRatings(ratings, members)
  {
    teamRatings := [];
    colored := members;
    for i := 0 to |members|
      invariant teamRatings == MemberRatings(ratings, members[..i])
      invariant |colored| == |members|
      invariant forall k :: 0 <= k < i ==> colored[k] == Recolor(ratings, members[k])
      invariant forall k :: i <= k < |members| ==> colored[k] == members[k]
    {
      MemberRatingsPrefix(ratings, members, i);
      var link, pushed := RewriteMember(ratings, members[i]);
      teamRatings := teamRatings + pushed;
      colored := colored[i := link];
    }
    assert members[..|members|] == members;
  }

  /** The body of the row loop: the three guards, the member loop (which
      rewrites the links and pushes the ratings), the aggregation, and then
      the two checks on the team link. */
  method ScanCell(p: WinProbability, ratings: Ratings, row: Row) returns (updated: Row)
    ensures updated == ScanRow(p, ratings, row)
  {
    if !row.hasTeamMarker {
      return row;
    }
    if HasTooltip(row) {
      return row;
    }
    var members := row.members;
    if |members| == 0 {
      return row;
    }
    var colored, teamRatings := ColorMembers(ratings, members);
    var aggRating := AggregateRatings(p, teamRatings);
    updated := row.(members := colored);
    if updated.team.None? {
      return;
    }
    var team := updated.team.value;
    if !team.HostName? || team.nameSpan.None? {
      return;
    }
    updated := updated.(team := Some(Decorate(team.nameSpan.value, aggRating)));
  }

  /** A row that fails a guard is left as it is. */
  lemma ScanSkipsIneligible(p: WinProbability, ratings: Ratings, row: Row)
    requires !row.hasTeamMarker || HasTooltip(row) || row.members == []
    ensures ScanRow(p, ratings, row) == row
  {
  }

  /** A pass changes a row exactly when the row passes the guards and either
      gets its badge or has a member link the rewrite changes. */
  lemma ScanChangesRow(p: WinProbability, ratings: Ratings, row: Row)
    ensures ScanRow(p, ratings, row) != row <==>
      Eligible(row) && (Decoratable(row) || RecolorAll(ratings, row.members) != row.members)
  {
    if Eligible(row) && Decoratable(row) {
      assert ScanRow(p, ratings, row).team.value.Badge?;
    }
  }

  /** A decoratable row gets its badge, carrying the team rating of its
      members, and from then on fails the tooltip guard. */
  lemma ScanDecorates(p: WinProbability, ratings: Ratings, row: Row)
    requires Eligible(row) && Decoratable(row)
    ensures var row' := ScanRow(p, ratings, row);
      && HasTooltip(row') && !Eligible(row')
      && row'.members == RecolorAll(ratings, row.members)
      && row'.team == Some(Decorate(row.team.value.nameSpan.value,
                                    AggregateRating(p, MemberRatings(ratings, row.members))))
      && row'.hasTeamMarker == row.hasTeamMarker
  {
  }

  /** The member links are rewritten before the team link is looked at: a row
      whose team link is missing or has no span gets its members recoloured, no
      badge, and still passes the guards, so every later pass visits it again. */
  lemma ScanRevisitsUndecoratable(p: WinProbability, ratings: Ratings, row: Row)
    requires Eligible(row) && !Decoratable(row)
    ensures var row' := ScanRow(p, ratings, row);
      && row'.members == RecolorAll(ratings, row.members)
      && row'.team == row.team
      && Eligible(row')
  {
  }

  /** A team whose member names are all blank still reaches the aggregation,
      with no ratings, and is decorated with a team rating of 0. */
  lemma BlankTeamScoresZero(p: WinProbability, ratings: Ratings, row: Row)
    requires Eligible(row) && Decoratable(row)
    requires forall k :: 0 <= k < |row.members| ==> Trim(row.members[k].text) == ""
    ensures ScanRow(p, ratings, row).team == Some(Decorate(row.team.value.nameSpan.value, 0))
  {
    BlankMembersPushNothing(ratings, row.members);
    EmptyTeam(p);
  }

  /** What the member loop leaves in each link: a blank name as it was, any
      other name trimmed and classed by the band of its owner's rating (0 for
      a name the table does not know). */
  lemma RecolorAllClassifies(ratings: Ratings, members: seq<MemberLink>)
    ensures forall k :: 0 <= k < |members| && Trim(members[k].text) == "" ==>
      RecolorAll(ratings, members)[k] == members[k]
    ensures forall k :: 0 <= k < |members| && Trim(members[k].text) in ratings && Trim(members[k].text) != "" ==>
      RecolorAll(ratings, members)[k] ==
        MemberLink(Trim(members[k].text), Some(BandClass(BandOf(ratings[Trim(members[k].text)]))))
    ensures forall k :: 0 <= k < |members| && Trim(members[k].text) !in ratings && Trim(members[k].text) != "" ==>
      RecolorAll(ratings, members)[k] == MemberLink(Trim(members[k].text), Some("user-unrated"))
  {
  }

  lemma RecolorAllIdempotent(ratings: Ratings, members: seq<MemberLink>)
    ensures RecolorAll(ratings, RecolorAll(ratings, members)) == RecolorAll(ratings, members)
  {
    forall k | 0 <= k < |members|
      ensures RecolorAll(ratings, RecolorAll(ratings, members))[k] == RecolorAll(ratings, members)[k]
    {
      RecolorIdempotent(ratings, members[k]);
    }
  }

  /** A second pass over the same rows changes nothing. */
  lemma ScanRowIdempotent(p: WinProbability, ratings: Ratings, row: Row)
    ensures ScanRow(p, ratings, ScanRow(p, ratings, row)) == ScanRow(p, ratings, row)
  {
    if Eligible(row) && !Decoratable(row) {
      RecolorAllIdempotent(ratings, row.members);
    }
  }

  /** The effect of one pass on all rows. */
  function ScanAll(p: WinProbability, ratings: Ratings, rows: seq<Row>): (rows': seq<Row>)
    ensures |rows'| == |rows|
    ensures forall k :: 0 <= k < |rows| ==> rows'[k] == ScanRow(p, ratings, rows[k])
  {
    seq(|rows|, k requires 0 <= k < |rows| => ScanRow(p, ratings, rows[k]))
  }

  /** What one pass does to each row of the table: a row that fails a guard
      is kept; any other row gets its member links rewritten, and then either
      the badge, after which it fails the tooltip guard, or (missing team
      link or span) no badge, in which case it still passes the guards. */
  lemma ScanAllEffect(p: WinProbability, ratings: Ratings, rows: seq<Row>)
    ensures forall k :: 0 <= k < |rows| && !Eligible(rows[k]) ==> ScanAll(p, ratings, rows)[k] == rows[k]
    ensures forall k :: 0 <= k < |rows| && Eligible(rows[k]) ==>
      ScanAll(p, ratings, rows)[k].members == RecolorAll(ratings, rows[k].members)
    ensures forall k :: 0 <= k < |rows| && Eligible(rows[k]) && Decoratable(rows[k]) ==>
      HasTooltip(ScanAll(p, ratings, rows)[k]) && !Eligible(ScanAll(p, ratings, rows)[k])
    ensures forall k :: 0 <= k < |rows| && Eligible(rows[k]) && !Decoratable(rows[k]) ==>
      Eligible(ScanAll(p, ratings, rows)[k]) && ScanAll(p, ratings, rows)[k].team == rows[k].team
  {
    forall k | 0 <= k < |rows| && Eligible(rows[k]) && Decoratable(rows[k])
      ensures HasTooltip(ScanAll(p, ratings, rows)[k]) && !Eligible(ScanAll(p, ratings, rows)[k])
    {
      ScanDecorates(p, ratings, rows[k]);
    }
  }

  lemma ScanAllIdempotent(p: WinProbability, ratings: Ratings, rows: seq<Row>)
    ensures ScanAll(p, ratings, ScanAll(p, ratings, rows)) == ScanAll(p, ratings, rows)
  {
    forall k | 0 <= k < |rows|
      ensures ScanAll(p, ratings, ScanAll(p, ratings, rows))[k] == ScanAll(p, ratings, rows)[k]
    {
      ScanRowIdempotent(p, ratings, rows[k]);
    }
  }

  /** The row loop of heuristic: scan every `td.standings-username` cell in
      place, in order. */
  method ScanRows(p: WinProbability, ratings: Ratings, rows: array<Row>)
    modifies rows
    ensures rows[..] == ScanAll(p, ratings, old(rows[..]))
  {
    for i := 0 to rows.Length
      invariant forall k :: 0 <= k < i ==> rows[k] == ScanRow(p, ratings, old(rows[k]))
      invariant forall k :: i <= k < rows.Length ==> rows[k] == old(rows[k])
    {
      var updated := ScanCell(p, ratings, rows[i]);
      rows[i] := updated;
    }
  }

  /** heuristic: with no table yet, fetch again after 2 s; with no rows yet,
      scan again after 3 s; otherwise scan every row in place and scan again
      after 2 s, with the same table each time. */
  method Heuristic(p: WinProbability, ratings: Option<Ratings>, rows: array<Row>) returns (next: Action)
    modifies rows
    ensures ratings.None? ==> next == RunMain(2000) && rows[..] == old(rows[..])
    ensures ratings.Some? && rows.Length == 0 ==> next == RunHeuristic(3000, ratings.value)
    ensures ratings.Some? && rows.Length > 0 ==> next == RunHeuristic(2000, ratings.value)
    ensures ratings.Some? ==> rows[..] == ScanAll(p, ratings.value, old(rows[..]))
  {
    if ratings.None? {
      return RunMain(2000);
    }
    if rows.Length == 0 {
      return RunHeuristic(3000, ratings.value);
    }
    ScanRows(p, ratings.value, rows);
    next := RunHeuristic(2000, ratings.value);
  }

  /** The member half of the scenario below: both links are recoloured and
      both ratings pushed, in order. */
  lemma TwoMembersColored()
    ensures var ratings := map["alice" := 1500.0, "bob" := 900.0];
      var members := [MemberLink("alice", None), MemberLink("bob", None)];
      && RecolorAll(ratings, members) == [MemberLink("alice", Some("user-cyan")), MemberLink("bob", Some("user-green"))]
      && MemberRatings(ratings, members) == [1500.0, 900.0]
  {
    var ratings := map["alice" := 1500.0, "bob" := 900.0];
    var alice, bob := MemberLink("alice", None), MemberLink("bob", None);
    var members := [alice, bob];
    TrimKeepsPlain("alice");
    TrimKeepsPlain("bob");
    assert Recolor(ratings, alice) == MemberLink("alice", Some("user-cyan"));
    assert Recolor(ratings, bob) == MemberLink("bob", Some("user-green"));
    assert members[..1] == [alice];
    assert [alice][..0] == [];
    assert MemberRatings(ratings, [alice]) == [1500.0];
  }

  /** One team of two known members, alice (1500) and bob (900), not yet
      decorated: after a pass alice is cyan, bob is green, and the single
      tooltip shows the team rating of [1500, 900]. */
  lemma TwoMemberScenario(p: WinProbability)
    ensures var ratings := map["alice" := 1500.0, "bob" := 900.0];
      var row := Row(true, [MemberLink("alice", None), MemberLink("bob", None)], Some(HostName(Some("team"))));
      ScanRow(p, ratings, row) ==
        Row(true, [MemberLink("alice", Some("user-cyan")), MemberLink("bob", Some("user-green"))],
            Some(Decorate("team", AggregateRating(p, [1500.0, 900.0]))))
  {
    var ratings := map["alice" := 1500.0, "bob" := 900.0];
    var row := Row(true, [MemberLink("alice", None), MemberLink("bob", None)], Some(HostName(Some("team"))));
    TwoMembersColored();
    ScanDecorates(p, ratings, row);
  }
}
