/**
 * Stats merge (`getPlayerInfo` and its inner `gameStats`): join the profile
 * with the cs2 and csgo lifetime statistics into one six-field record,
 * cs2 first, collapsing every failure into "player not found".
 */
module Stats {
  import opened Js
  import opened Locale

  /** The primary variant and the legacy one, in the order they are tried. */
  const Cs2: string := "cs2"
  const Csgo: string := "csgo"

  /** One entry of the profile's `games` object. */
  datatype GameEntry = GameEntry(skillLevel: Value, faceitElo: Value)

  /**
   * The profile response. `games` is None when reading `userInfo.games[game]`
   * raises a TypeError whatever `game` is (no `games` object, or no profile).
   */
  datatype Profile = Profile(games: Option<map<string, GameEntry>>)

  /**
   * A lifetime-stats response. `lifetime` is None when `stats && stats.lifetime`
   * is falsy; otherwise it holds the section's fields by key.
   */
  datatype StatsBody = StatsBody(lifetime: Option<map<string, Value>>)

  /** The record `getPlayerInfo` resolves with, field by field as the script names them. */
  datatype PlayerInfo = PlayerInfo(
    cs2SkillLevel: Value,
    cs2Elo: Value,
    matches: Value,
    winRate: Value,
    averageKillDeathRatio: Value,
    averageHeadshots: Value)

  /** How one call of `gameStats` ends: it returns undefined, returns a record, or throws. */
  datatype Built = Skipped | Record(info: PlayerInfo) | Faulted

  /** The record built from the variant `game`'s profile entry and lifetime section. */
  ghost predicate FromVariant(info: PlayerInfo, profile: Profile, stats: StatsBody, game: string)
  {
    && stats.lifetime.Some? && profile.games.Some? && game in profile.games.value
    && info.cs2SkillLevel == profile.games.value[game].skillLevel
    && info.cs2Elo == profile.games.value[game].faceitElo
    && info.matches == Get(stats.lifetime.value, "Matches")
    && info.winRate == Get(stats.lifetime.value, "Win Rate %")
    && info.averageKillDeathRatio == Get(stats.lifetime.value, "Average K/D Ratio")
    && info.averageHeadshots == Get(stats.lifetime.value, "Average Headshots %")
  }

  /**
   * `gameStats(stats, game)`: no lifetime section gives undefined; otherwise
   * skill level and elo come from `userInfo.games[game]` (a missing entry
   * throws) and the four statistics from the lifetime section verbatim.
   */
  function GameStats(profile: Profile, stats: StatsBody, game: string): (r: Built)
    ensures r.Skipped? <==> stats.lifetime.None?
    ensures r.Faulted? <==> stats.lifetime.Some? && (profile.games.None? || game !in profile.games.value)
    ensures r.Record? ==> FromVariant(r.info, profile, stats, game)
  {
    match stats.lifetime
    case None => Skipped
    case Some(lifetime) =>
      match profile.games
      case None => Faulted
      case Some(games) =>
        if game !in games then Faulted
        else
          Record(PlayerInfo(
            games[game].skillLevel,
            games[game].faceitElo,
            Get(lifetime, "Matches"),
            Get(lifetime, "Win Rate %"),
            Get(lifetime, "Average K/D Ratio"),
            Get(lifetime, "Average Headshots %")))
  }

  /** A record exists exactly when the lifetime section and the profile entry both do. */
  lemma GameStatsRecordIff(profile: Profile, stats: StatsBody, game: string)
    ensures GameStats(profile, stats, game).Record? <==>
      stats.lifetime.Some? && profile.games.Some? && game in profile.games.value
  {
  }

  /**
   * `getPlayerInfo` given how the three joined requests ended: any rejection,
   * or either variant's `gameStats` throwing, fails with "player not found";
   * otherwise the cs2 record, else the csgo record, else null (None).
   */
  function GetPlayerInfo(l: Lang, profile: Outcome<Profile>, cs2: Outcome<StatsBody>, csgo: Outcome<StatsBody>): (r: Outcome<Option<PlayerInfo>>)
    ensures r.Throws? ==> r.message == PlayerNotFound(l)
    ensures r.Returns? <==>
      && profile.Returns? && cs2.Returns? && csgo.Returns?
      && !GameStats(profile.value, cs2.value, Cs2).Faulted?
      && !GameStats(profile.value, csgo.value, Csgo).Faulted?
    ensures r.Returns? ==> (r.value.None? <==> cs2.value.lifetime.None? && csgo.value.lifetime.None?)
    ensures r.Returns? && r.value.Some? ==>
      || FromVariant(r.value.value, profile.value, cs2.value, Cs2)
      || (cs2.value.lifetime.None? && FromVariant(r.value.value, profile.value, csgo.value, Csgo))
  {
    if profile.Throws? || cs2.Throws? || csgo.Throws? then Throws(PlayerNotFound(l))
    else
      var cs2Info := GameStats(profile.value, cs2.value, Cs2);
      var csgoInfo := GameStats(profile.value, csgo.value, Csgo);
      if cs2Info.Faulted? || csgoInfo.Faulted? then Throws(PlayerNotFound(l))
      else if cs2Info.Record? then Returns(Some(cs2Info.info))
      else if csgoInfo.Record? then Returns(Some(csgoInfo.info))
      else Returns(None)
  }

  /** A rejected fetch fails the whole join, whatever the other two return. */
  lemma GetPlayerInfoFetchFailure(l: Lang, profile: Outcome<Profile>, cs2: Outcome<StatsBody>, csgo: Outcome<StatsBody>)
    requires profile.Throws? || cs2.Throws? || csgo.Throws?
    ensures GetPlayerInfo(l, profile, cs2, csgo) == Throws(PlayerNotFound(l))
  {
  }

  /** When cs2 yields a record and nothing throws, the result is cs2's, even if csgo has one too. */
  lemma GetPlayerInfoPrefersCs2(l: Lang, profile: Profile, cs2: StatsBody, csgo: StatsBody)
    requires GameStats(profile, cs2, Cs2).Record?
    requires !GameStats(profile, csgo, Csgo).Faulted?
    ensures GetPlayerInfo(l, Returns(profile), Returns(cs2), Returns(csgo)) == Returns(Some(GameStats(profile, cs2, Cs2).info))
    ensures FromVariant(GetPlayerInfo(l, Returns(profile), Returns(cs2), Returns(csgo)).value.value, profile, cs2, Cs2)
  {
  }

  /** Without a cs2 lifetime section, the csgo record is the fallback. */
  lemma GetPlayerInfoFallsBackToCsgo(l: Lang, profile: Profile, cs2: StatsBody, csgo: StatsBody)
    requires cs2.lifetime.None?
    requires GameStats(profile, csgo, Csgo).Record?
    ensures GetPlayerInfo(l, Returns(profile), Returns(cs2), Returns(csgo)) == Returns(Some(GameStats(profile, csgo, Csgo).info))
    ensures FromVariant(GetPlayerInfo(l, Returns(profile), Returns(cs2), Returns(csgo)).value.value, profile, csgo, Csgo)
  {
  }

  /** With neither lifetime section, the merge resolves with null rather than failing. */
  lemma GetPlayerInfoNull(l: Lang, profile: Outcome<Profile>, cs2: Outcome<StatsBody>, csgo: Outcome<StatsBody>)
    requires profile.Returns? && cs2.Returns? && csgo.Returns?
    ensures GetPlayerInfo(l, profile, cs2, csgo) == Returns(None) <==>
      cs2.value.lifetime.None? && csgo.value.lifetime.None?
  {
  }

  /**
   * The missing-entry quirk: a csgo lifetime section without a csgo profile
   * entry throws, so the merge fails even though the cs2 record was usable.
   */
  lemma GetPlayerInfoMissingEntryFails(l: Lang, games: map<string, GameEntry>, cs2: StatsBody, csgo: StatsBody)
    requires Cs2 in games && cs2.lifetime.Some?
    requires Csgo !in games && csgo.lifetime.Some?
    ensures GameStats(Profile(Some(games)), cs2, Cs2).Record?
    ensures GetPlayerInfo(l, Returns(Profile(Some(games))), Returns(cs2), Returns(csgo)) == Throws(PlayerNotFound(l))
  {
  }
}
