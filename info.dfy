/** The read-only commands of `Modules/Info.cs`: the rank listing, the
    player profile with its rank, and the paged leaderboard. Database rows
    are given as sequences in the order the query returns them; `Find` by a
    composite key is a lookup in a map. */
module Info {
  import opened Models
  import opened Collections

  function RankPoints(r: Rank): int { r.points }

  function PlayerPoints(p: Player): int { p.points }

  /** `db.Ranks.Where(x => x.GuildId == guild)`. */
  function GuildRanks(ranks: seq<Rank>, guild: GuildId): (r: seq<Rank>)
    ensures forall i :: 0 <= i < |r| ==> r[i] in ranks && r[i].guildId == guild
    ensures forall i :: 0 <= i < |ranks| && ranks[i].guildId == guild ==> ranks[i] in r
    ensures forall q :: multiset(r)[q] == if q.guildId == guild then multiset(ranks)[q] else 0
  {
    Where(ranks, (q: Rank) => q.guildId == guild)
  }

  /** `db.Players.Where(x => x.GuildId == guild)`. */
  function GuildPlayers(players: seq<Player>, guild: GuildId): (r: seq<Player>)
    ensures forall i :: 0 <= i < |r| ==> r[i] in players && r[i].guildId == guild
    ensures forall i :: 0 <= i < |players| && players[i].guildId == guild ==> players[i] in r
    ensures forall p :: multiset(r)[p] == if p.guildId == guild then multiset(players)[p] else 0
  {
    Where(players, (p: Player) => p.guildId == guild)
  }

  // ---------------------------------------------------------------------
  // Profile rank (InfoAsync)

  /** `rank` is the rank with the largest threshold strictly below `points`,
      and is missing exactly when no threshold is below `points`. */
  ghost predicate HighestBelow(rank: Option<Rank>, ranks: seq<Rank>, points: int) {
    && (rank.Some? ==>
          && rank.value in ranks
          && rank.value.points < points
          && forall i :: 0 <= i < |ranks| && ranks[i].points < points ==> ranks[i].points <= rank.value.points)
    && (rank.None? <==> forall i :: 0 <= i < |ranks| ==> ranks[i].points >= points)
  }

  /** `ranks.Where(x => x.Points < points).OrderByDescending(x => x.Points).FirstOrDefault()`. */
  function ProfileRank(ranks: seq<Rank>, points: int): (r: Option<Rank>)
    ensures HighestBelow(r, ranks, points)
  {
    var filtered := Where(ranks, (x: Rank) => x.points < points);
    var below := SortDesc(filtered, RankPoints);
    FirstOfSortedIsHighestBelow(ranks, points, filtered, below);
    if |below| == 0 then None else Some(below[0])
  }

  /** The first of the sorted ranks below `points` is the highest below. */
  lemma FirstOfSortedIsHighestBelow(ranks: seq<Rank>, points: int, filtered: seq<Rank>, below: seq<Rank>)
    requires forall i :: 0 <= i < |filtered| ==> filtered[i] in ranks && filtered[i].points < points
    requires forall i :: 0 <= i < |ranks| && ranks[i].points < points ==> ranks[i] in filtered
    requires multiset(below) == multiset(filtered) && SortedDesc(below, RankPoints)
    ensures HighestBelow(if |below| == 0 then None else Some(below[0]), ranks, points)
  {
    if |below| > 0 {
      assert below[0] in multiset(filtered);
      forall i | 0 <= i < |ranks| && ranks[i].points < points
        ensures ranks[i].points <= below[0].points
      {
        assert ranks[i] in multiset(below);
        var j :| 0 <= j < |below| && below[j] == ranks[i];
      }
    }
  }

  /** A higher score never shows a lower rank: when a lower score shows a
      rank, the higher score shows one with at least that threshold. */
  lemma ProfileRankMonotone(ranks: seq<Rank>, low: int, high: int)
    requires low <= high
    ensures ProfileRank(ranks, low).Some? ==>
              ProfileRank(ranks, high).Some? &&
              ProfileRank(ranks, low).value.points <= ProfileRank(ranks, high).value.points
  {
  }

  /** Thresholds 0, 50 and 100: a player with exactly 50 points is shown the
      rank at 0, because the comparison is strict. */
  lemma ExactThresholdIsNotHeld()
    ensures var r0, r50, r100 := Rank(1, 10, 0, None, None), Rank(1, 11, 50, None, None), Rank(1, 12, 100, None, None);
            ProfileRank([r0, r50, r100], 50) == Some(r0)
  {
  }

  datatype ProfileOutcome =
    | SelfNotRegistered            // "You are not registered."
    | UserNotRegistered            // "That user is not registered."
    | Stats(player: Player, rank: Option<Rank>)  // rank line shown iff rank.Some?

  /** `InfoAsync(user)`: the target defaults to the caller; a missing player
      row yields one of two not-registered replies, otherwise the stats with
      the profile rank of the guild's ranks. */
  function Profile(players: map<PlayerKey, Player>, ranks: seq<Rank>, guild: GuildId,
                   caller: UserId, target: Option<UserId>): (r: ProfileOutcome)
    ensures var user := if target.Some? then target.value else caller;
            && (r.SelfNotRegistered? <==> PlayerKey(guild, user) !in players && user == caller)
            && (r.UserNotRegistered? <==> PlayerKey(guild, user) !in players && user != caller)
            && (r.Stats? ==>
                  && PlayerKey(guild, user) in players
                  && r.player == players[PlayerKey(guild, user)]
                  && HighestBelow(r.rank, GuildRanks(ranks, guild), r.player.points))
  {
    var user := if target.Some? then target.value else caller;
    var key := PlayerKey(guild, user);
    if key !in players then
      if user == caller then SelfNotRegistered else UserNotRegistered
    else
      var player := players[key];
      Stats(player, ProfileRank(GuildRanks(ranks, guild), player.points))
  }

  // ---------------------------------------------------------------------
  // Rank listing (ShowRanksAsync)

  /** `WinModifier ?? comp.DefaultWinModifier`. */
  function ShownWinModifier(r: Rank, comp: Competition): (m: int)
    ensures r.winModifier.Some? ==> m == r.winModifier.value
    ensures r.winModifier.None? ==> m == comp.defaultWinModifier
  {
    match r.winModifier
    case Some(m) => m
    case None => comp.defaultWinModifier
  }

  /** `LossModifier ?? comp.DefaultLossModifier`. */
  function ShownLossModifier(r: Rank, comp: Competition): (m: int)
    ensures r.lossModifier.Some? ==> m == r.lossModifier.value
    ensures r.lossModifier.None? ==> m == comp.defaultLossModifier
  {
    match r.lossModifier
    case Some(m) => m
    case None => comp.defaultLossModifier
  }

  /** One line of the listing: the role, its threshold and its modifiers. */
  datatype RankLine = RankLine(roleId: RoleId, points: int, win: int, loss: int)

  function LineOf(r: Rank, comp: Competition): (l: RankLine)
    ensures l.roleId == r.roleId && l.points == r.points
    ensures l.win == (if r.winModifier.Some? then r.winModifier.value else comp.defaultWinModifier)
    ensures l.loss == (if r.lossModifier.Some? then r.lossModifier.value else comp.defaultLossModifier)
  {
    RankLine(r.roleId, r.points, ShownWinModifier(r, comp), ShownLossModifier(r, comp))
  }

  /** The `Select` of the listing: line i is the line of rank i. */
  function RankLines(s: seq<Rank>, comp: Competition): (r: seq<RankLine>)
    ensures |r| == |s|
    ensures forall i :: 0 <= i < |s| ==> r[i] == LineOf(s[i], comp)
  {
    if |s| == 0 then [] else [LineOf(s[0], comp)] + RankLines(s[1..], comp)
  }

  /** Lines of two permutations of the same ranks are permutations too. */
  lemma {:induction false} RankLinesPermutation(a: seq<Rank>, b: seq<Rank>, comp: Competition)
    requires multiset(a) == multiset(b)
    ensures multiset(RankLines(a, comp)) == multiset(RankLines(b, comp))
    decreases |a|
  {
    if |a| > 0 {
      assert a[0] in multiset(b);
      var i :| 0 <= i < |b| && b[i] == a[0];
      MultisetRemove(b, i);
      RankLinesCons(a, comp);
      RankLinesPermutation(a[1..], b[..i] + b[i + 1..], comp);
      RankLinesRemove(b, i, comp);
    }
  }

  /** Taking off the first rank takes off its line. */
  lemma RankLinesCons(a: seq<Rank>, comp: Competition)
    requires |a| > 0
    ensures multiset(a[1..]) == multiset(a) - multiset{a[0]}
    ensures multiset(RankLines(a, comp)) == multiset(RankLines(a[1..], comp)) + multiset{LineOf(a[0], comp)}
  {
    assert a == [a[0]] + a[1..];
  }

  /** Taking out the rank at `i` takes out its line. */
  lemma RankLinesRemove(b: seq<Rank>, i: nat, comp: Competition)
    requires i < |b|
    ensures multiset(RankLines(b, comp)) ==
            multiset(RankLines(b[..i] + b[i + 1..], comp)) + multiset{LineOf(b[i], comp)}
  {
    var l := RankLines(b, comp);
    assert RankLines(b[..i] + b[i + 1..], comp) == l[..i] + l[i + 1..];
    MultisetRemove(l, i);
  }

  datatype RanksOutcome =
    | NoRanks                      // "There are currently no ranks set up."
    | Listing(lines: seq<RankLine>)

  /** `lines` lists the guild's ranks: one line per rank (a permutation of
      the ranks' lines), highest threshold first, each line that of one of
      the guild's ranks. */
  ghost predicate IsListing(lines: seq<RankLine>, comp: Competition, ranks: seq<Rank>, guild: GuildId) {
    && |lines| == |GuildRanks(ranks, guild)|
    && multiset(lines) == multiset(RankLines(GuildRanks(ranks, guild), comp))
    && (forall i, j :: 0 <= i < j < |lines| ==> lines[i].points >= lines[j].points)
    && (forall i :: 0 <= i < |lines| ==>
          exists q :: q in ranks && q.guildId == guild && lines[i] == LineOf(q, comp))
  }

  /** `ShowRanksAsync`: the guild's ranks, highest threshold first, each
      with the modifiers that apply to it. */
  function ShowRanks(comp: Competition, ranks: seq<Rank>, guild: GuildId): (r: RanksOutcome)
    ensures r.NoRanks? <==> |GuildRanks(ranks, guild)| == 0
    ensures r.Listing? ==> IsListing(r.lines, comp, ranks, guild)
  {
    var g := GuildRanks(ranks, guild);
    if |g| == 0 then NoRanks
    else
      var sorted := SortDesc(g, RankPoints);
      SortedListing(comp, ranks, guild, sorted);
      Listing(RankLines(sorted, comp))
  }

  /** The lines of any ordering by threshold of the guild's ranks are a
      listing of them. */
  lemma SortedListing(comp: Competition, ranks: seq<Rank>, guild: GuildId, sorted: seq<Rank>)
    requires multiset(sorted) == multiset(GuildRanks(ranks, guild))
    requires SortedDesc(sorted, RankPoints)
    ensures IsListing(RankLines(sorted, comp), comp, ranks, guild)
  {
    var lines := RankLines(sorted, comp);
    RankLinesPermutation(sorted, GuildRanks(ranks, guild), comp);
    ListedRanksAreGuildRanks(sorted, ranks, guild);
    forall i, j | 0 <= i < j < |lines| ensures lines[i].points >= lines[j].points {
      assert RankPoints(sorted[i]) >= RankPoints(sorted[j]);
    }
    forall i | 0 <= i < |lines|
      ensures exists q :: q in ranks && q.guildId == guild && lines[i] == LineOf(q, comp)
    {
      assert sorted[i] in ranks && sorted[i].guildId == guild && lines[i] == LineOf(sorted[i], comp);
    }
  }

  lemma ListedRanksAreGuildRanks(sorted: seq<Rank>, ranks: seq<Rank>, guild: GuildId)
    requires multiset(sorted) == multiset(GuildRanks(ranks, guild))
    ensures forall i :: 0 <= i < |sorted| ==> sorted[i] in ranks && sorted[i].guildId == guild
  {
    var g := GuildRanks(ranks, guild);
    forall i | 0 <= i < |sorted| ensures sorted[i] in ranks && sorted[i].guildId == guild {
      assert sorted[i] in multiset(g);
      var k :| 0 <= k < |g| && g[k] == sorted[i];
    }
  }

  // ---------------------------------------------------------------------
  // Leaderboard (LeaderboardAsync, GetPages, GetPlayerLines)

  /** Players per leaderboard page. */
  const PageSize: nat := 20

  /** One leaderboard line: place, display name and points. */
  datatype PlayerLine = PlayerLine(place: int, name: string, points: int)

  datatype Page = Page(title: string, lines: seq<PlayerLine>)

  /** The lines for `players` numbered consecutively from `start`. */
  function Numbered(players: seq<Player>, start: int): (r: seq<PlayerLine>)
    ensures |r| == |players|
    ensures forall i :: 0 <= i < |players| ==>
              r[i] == PlayerLine(start + i, players[i].displayName, players[i].points)
    decreases |players|
  {
    if |players| == 0 then []
    else [PlayerLine(start, players[0].displayName, players[0].points)] + Numbered(players[1..], start + 1)
  }

  lemma NumberedAppend(a: seq<Player>, b: seq<Player>, start: int)
    ensures Numbered(a + b, start) == Numbered(a, start) + Numbered(b, start + |a|)
  {
  }

  /** `GetPlayerLines(players, startValue)`: one line per player, numbered
      from `startValue`, and the number after the last one. */
  method GetPlayerLines(players: seq<Player>, startValue: int) returns (next: int, lines: seq<PlayerLine>)
    ensures next == startValue + |players|
    ensures lines == Numbered(players, startValue)
  {
    next := startValue;
    lines := [];
    for i := 0 to |players|
      invariant next == startValue + i
      invariant |lines| == i
      invariant forall k :: 0 <= k < i ==>
                  lines[k] == PlayerLine(startValue + k, players[k].displayName, players[k].points)
    {
      lines := lines + [PlayerLine(next, players[i].displayName, players[i].points)];
      next := next + 1;
    }
  }

  /** The line lists of the pages, page by page. */
  function PageLines(pages: seq<Page>): seq<seq<PlayerLine>> {
    seq(|pages|, k requires 0 <= k < |pages| => pages[k].lines)
  }

  function LeaderboardTitle(guildName: string): string {
    guildName + " - Leaderboard"
  }

  /** Appending the page of one more group keeps the numbering of all pages
      equal to the numbering of all groups so far. */
  lemma NumberingStep(done: seq<seq<Player>>, group: seq<Player>, pages: seq<Page>, page: Page)
    requires Flatten(PageLines(pages)) == Numbered(Flatten(done), 1)
    requires page.lines == Numbered(group, 1 + |Flatten(done)|)
    ensures Flatten(PageLines(pages + [page])) == Numbered(Flatten(done + [group]), 1)
  {
    FlattenSnoc(done, group);
    FlattenSnoc(PageLines(pages), page.lines);
    NumberedAppend(Flatten(done), group, 1);
    assert PageLines(pages + [page]) == PageLines(pages) + [page.lines];
  }

  /** Appending the page of group `k` extends both the page-by-page formula
      and the numbering of all pages to the first `k + 1` groups. */
  lemma PageStep(groups: seq<seq<Player>>, k: nat, pages: seq<Page>, page: Page)
    requires k < |groups| && |pages| == k
    requires forall j :: 0 <= j < k ==>
               pages[j] == Page(page.title, Numbered(groups[j], 1 + |Flatten(groups[..j])|))
    requires Flatten(PageLines(pages)) == Numbered(Flatten(groups[..k]), 1)
    requires page.lines == Numbered(groups[k], 1 + |Flatten(groups[..k])|)
    ensures |Flatten(groups[..k + 1])| == |Flatten(groups[..k])| + |groups[k]|
    ensures forall j :: 0 <= j < k + 1 ==>
              (pages + [page])[j] == Page(page.title, Numbered(groups[j], 1 + |Flatten(groups[..j])|))
    ensures Flatten(PageLines(pages + [page])) == Numbered(Flatten(groups[..k + 1]), 1)
  {
    assert groups[..k + 1] == groups[..k] + [groups[k]];
    FlattenSnoc(groups[..k], groups[k]);
    NumberingStep(groups[..k], groups[k], pages, page);
  }

  /** `GetPages(groups)`: one page per group, in order; places start at 1 and
      run on from page to page, so that all pages together number the
      players of all groups 1, 2, 3, ... without gap or repeat. */
  method GetPages(groups: seq<seq<Player>>, guildName: string) returns (pages: seq<Page>)
    ensures |pages| == |groups|
    ensures forall k :: 0 <= k < |groups| ==>
              pages[k] == Page(LeaderboardTitle(guildName), Numbered(groups[k], 1 + |Flatten(groups[..k])|))
    ensures Flatten(PageLines(pages)) == Numbered(Flatten(groups), 1)
  {
    var index := 1;
    pages := [];
    for k := 0 to |groups|
      invariant |pages| == k
      invariant index == 1 + |Flatten(groups[..k])|
      invariant forall j :: 0 <= j < k ==>
                  pages[j] == Page(LeaderboardTitle(guildName), Numbered(groups[j], 1 + |Flatten(groups[..j])|))
      invariant Flatten(PageLines(pages)) == Numbered(Flatten(groups[..k]), 1)
    {
      var next, lines := GetPlayerLines(groups[k], index);
      var page := Page(LeaderboardTitle(guildName), lines);
      PageStep(groups, k, pages, page);
      index := next;
      pages := pages + [page];
    }
    assert groups[..|groups|] == groups;
  }

  datatype LeaderboardOutcome =
    | NoRegisteredUsers            // "There are no registered users in this server yet."
    | Paged(pages: seq<Page>)

  /** The guild's players, highest points first. */
  function Ranked(players: seq<Player>, guild: GuildId): (r: seq<Player>)
    ensures |r| == |GuildPlayers(players, guild)|
    ensures multiset(r) == multiset(GuildPlayers(players, guild))
    ensures forall i, j :: 0 <= i < j < |r| ==> r[i].points >= r[j].points
  {
    SortDesc(GuildPlayers(players, guild), PlayerPoints)
  }

  /** The leaderboard reply once the players are ordered: split into groups
      of 20; no groups, the "no registered users" reply; otherwise the pages
      of `GetPages`, numbered from first place on. */
  method PagedReply(ranked: seq<Player>, guildName: string) returns (outcome: LeaderboardOutcome)
    ensures outcome.NoRegisteredUsers? <==> |ranked| == 0
    ensures outcome.Paged? ==>
              && Flatten(PageLines(outcome.pages)) == Numbered(ranked, 1)
              && (forall k :: 0 <= k < |outcome.pages| ==> 0 < |outcome.pages[k].lines| <= PageSize)
              && (forall k :: 0 <= k < |outcome.pages| - 1 ==> |outcome.pages[k].lines| == PageSize)
              && (forall k :: 0 <= k < |outcome.pages| ==> outcome.pages[k].title == LeaderboardTitle(guildName))
  {
    var userGroups := Chunk(ranked, PageSize);
    if |userGroups| == 0 {
      return NoRegisteredUsers;
    }
    var pages := GetPages(userGroups, guildName);
    outcome := Paged(pages);
  }

  /** `LeaderboardAsync`: the guild's players by points descending, in pages
      of 20 numbered from first place on; no players, no pages. */
  method Leaderboard(players: seq<Player>, guild: GuildId, guildName: string) returns (outcome: LeaderboardOutcome)
    ensures outcome.NoRegisteredUsers? <==> |GuildPlayers(players, guild)| == 0
    ensures outcome.Paged? ==>
              && Flatten(PageLines(outcome.pages)) == Numbered(Ranked(players, guild), 1)
              && (forall k :: 0 <= k < |outcome.pages| ==> 0 < |outcome.pages[k].lines| <= PageSize)
              && (forall k :: 0 <= k < |outcome.pages| - 1 ==> |outcome.pages[k].lines| == PageSize)
              && (forall k :: 0 <= k < |outcome.pages| ==> outcome.pages[k].title == LeaderboardTitle(guildName))
  {
    var ranked := Ranked(players, guild);
    outcome := PagedReply(ranked, guildName);
  }
}
