/**
 * The orchestration of `start`: read the Steam id, resolve it to a guid,
 * merge the statistics, then show either the statistics block or the
 * error block. Requests are answered by an abstract service keyed by URL.
 */
module Pipeline {
  import opened Js
  import opened Locale
  import opened Resolver
  import opened Stats
  import opened Presentation

  const ApiSearchUrl: string := "https://api.faceit.com/search/v1/?limit=5&query="
  const ApiPlayerUrl: string := "https://open.faceit.com/data/v4/players/"

  /** The search request for a Steam id. */
  function SearchUrl(steamId: string): string { ApiSearchUrl + steamId }

  /** The profile request for a guid. */
  function ProfileUrl(guid: string): string { ApiPlayerUrl + guid }

  /** The lifetime-stats request for a guid and a game variant. */
  function StatsUrl(guid: string, game: string): string { ApiPlayerUrl + guid + "/stats/" + game }

  /**
   * What each endpoint answers for a request URL: the parsed body, or the
   * rejection message of the transport.
   */
  datatype Service = Service(
    search: string -> Outcome<SearchBody>,
    profile: string -> Outcome<Profile>,
    stats: string -> Outcome<StatsBody>)

  /**
   * What the page and the script engine contribute: the browser language,
   * how reading the Steam id from the page ended, and the message of the
   * TypeError raised by reading a field of null.
   */
  datatype Host = Host(language: string, steamId: Outcome<string>, nullAccessError: string)

  /** What `start` leaves on the page. */
  datatype Shown = StatsBlock(info: PlayerInfo, icon: string) | ErrorBlock(text: string)

  /**
   * The merge for a resolved guid: `getPlayerInfo` joined over the profile
   * request and the cs2 and csgo stats requests for that guid.
   */
  function Merge(host: Host, svc: Service, guid: string): (r: Outcome<Option<PlayerInfo>>)
    ensures r.Throws? ==> r.message == PlayerNotFound(GetLocale(host.language))
    ensures
      var profile, cs2, csgo := svc.profile(ProfileUrl(guid)), svc.stats(StatsUrl(guid, Cs2)), svc.stats(StatsUrl(guid, Csgo));
      r.Returns? <==>
        && profile.Returns? && cs2.Returns? && csgo.Returns?
        && !GameStats(profile.value, cs2.value, Cs2).Faulted?
        && !GameStats(profile.value, csgo.value, Csgo).Faulted?
    ensures r.Returns? ==>
      (r.value.None? <==> svc.stats(StatsUrl(guid, Cs2)).value.lifetime.None? && svc.stats(StatsUrl(guid, Csgo)).value.lifetime.None?)
    ensures r.Returns? && r.value.Some? ==>
      var profile, cs2, csgo := svc.profile(ProfileUrl(guid)).value, svc.stats(StatsUrl(guid, Cs2)).value, svc.stats(StatsUrl(guid, Csgo)).value;
      || FromVariant(r.value.value, profile, cs2, Cs2)
      || (cs2.lifetime.None? && FromVariant(r.value.value, profile, csgo, Csgo))
  {
    GetPlayerInfo(GetLocale(host.language),
      svc.profile(ProfileUrl(guid)), svc.stats(StatsUrl(guid, Cs2)), svc.stats(StatsUrl(guid, Csgo)))
  }

  /**
   * The body of `start`'s try block: each step runs only when the previous
   * one succeeded, and the first error is the one caught. A null merge
   * result fails at the first field read.
   */
  function Run(host: Host, svc: Service): (r: Outcome<PlayerInfo>)
    ensures r.Returns? <==>
      && host.steamId.Returns?
      && GetGuid(GetLocale(host.language), svc.search(SearchUrl(host.steamId.value))).Returns?
      && var guid := GetGuid(GetLocale(host.language), svc.search(SearchUrl(host.steamId.value))).value;
         Merge(host, svc, guid).Returns? && Merge(host, svc, guid).value.Some?
    ensures r.Returns? ==>
      var guid := GetGuid(GetLocale(host.language), svc.search(SearchUrl(host.steamId.value))).value;
      r.value == Merge(host, svc, guid).value.value
    ensures host.steamId.Throws? ==> r == Throws(host.steamId.message)
    ensures host.steamId.Returns? && GetGuid(GetLocale(host.language), svc.search(SearchUrl(host.steamId.value))).Throws? ==>
      r == Throws(GetGuid(GetLocale(host.language), svc.search(SearchUrl(host.steamId.value))).message)
    ensures host.steamId.Returns? && GetGuid(GetLocale(host.language), svc.search(SearchUrl(host.steamId.value))).Returns? ==>
      var guid := GetGuid(GetLocale(host.language), svc.search(SearchUrl(host.steamId.value))).value;
      Merge(host, svc, guid).Throws? ==> r == Throws(PlayerNotFound(GetLocale(host.language)))
    ensures host.steamId.Returns? && GetGuid(GetLocale(host.language), svc.search(SearchUrl(host.steamId.value))).Returns? ==>
      var guid := GetGuid(GetLocale(host.language), svc.search(SearchUrl(host.steamId.value))).value;
      Merge(host, svc, guid) == Returns(None) ==> r == Throws(host.nullAccessError)
  {
    var l := GetLocale(host.language);
    match host.steamId
    case Throws(m) => Throws(m)
    case Returns(id) =>
      match GetGuid(l, svc.search(SearchUrl(id)))
      case Throws(m) => Throws(m)
      case Returns(guid) =>
        match Merge(host, svc, guid)
        case Throws(m) => Throws(m)
        case Returns(None) => Throws(host.nullAccessError)
        case Returns(Some(info)) => Returns(info)
  }

  /** `start`: the statistics block with its level icon, or the error block for the caught message. */
  function Start(host: Host, svc: Service): (r: Shown)
    ensures Run(host, svc).Returns? <==> r.StatsBlock?
    ensures r.StatsBlock? ==> r.info == Run(host, svc).value
    ensures r.StatsBlock? ==> r.icon == IconBasePath + Show(r.info.cs2SkillLevel) + IconSuffix
    ensures r.ErrorBlock? ==> r.text == ErrorText(GetLocale(host.language), Run(host, svc).message)
  {
    match Run(host, svc)
    case Returns(info) =>
      StatsBlock(info, SkillLevelIconPath(info.cs2SkillLevel).value)
    case Throws(m) => ErrorBlock(ErrorText(GetLocale(host.language), m))
  }

  /** An empty search list shows "player not found", whatever the profile and stats endpoints would answer. */
  lemma EmptySearchShowsNotFound(host: Host, svc: Service)
    requires host.steamId.Returns?
    requires svc.search(SearchUrl(host.steamId.value)) == Returns(Results([]))
    ensures Run(host, svc) == Throws(PlayerNotFound(GetLocale(host.language)))
    ensures Start(host, svc) == ErrorBlock(PlayerNotFound(GetLocale(host.language)))
  {
  }

  /** A failed merge for the resolved guid shows "player not found", whichever request or variant failed. */
  lemma MergeFailureShowsNotFound(host: Host, svc: Service, guid: string)
    requires host.steamId.Returns?
    requires GetGuid(GetLocale(host.language), svc.search(SearchUrl(host.steamId.value))) == Returns(guid)
    requires Merge(host, svc, guid).Throws?
    ensures Start(host, svc) == ErrorBlock(PlayerNotFound(GetLocale(host.language)))
  {
  }

  /**
   * An empty merge is not reported as "player not found": the block shows
   * the prefixed TypeError message instead, unless that message happens to
   * equal the localized text itself.
   */
  lemma NullMergeShowsTypeError(host: Host, svc: Service, guid: string)
    requires host.steamId.Returns?
    requires GetGuid(GetLocale(host.language), svc.search(SearchUrl(host.steamId.value))) == Returns(guid)
    requires Merge(host, svc, guid) == Returns(None)
    requires host.nullAccessError != PlayerNotFound(GetLocale(host.language))
    ensures Start(host, svc) == ErrorBlock(ErrorPrefix + host.nullAccessError)
    ensures Start(host, svc) != ErrorBlock(PlayerNotFound(GetLocale(host.language)))
  {
    PrefixedIsNotNotFound(host.nullAccessError);
  }

  /** A rejected search request shows the prefixed request-API error with the transport's cause. */
  lemma SearchFailureShowsApiError(host: Host, svc: Service, cause: string)
    requires host.steamId.Returns?
    requires svc.search(SearchUrl(host.steamId.value)) == Throws(cause)
    ensures Start(host, svc) ==
      ErrorBlock(ErrorPrefix + (RequestApiError(GetLocale(host.language)) + ": " + cause))
  {
    var l := GetLocale(host.language);
    var m := RequestApiError(l) + ": " + cause;
    assert GetGuid(l, svc.search(SearchUrl(host.steamId.value))) == Throws(m);
    assert Run(host, svc) == Throws(m);
    MessagesDistinct(l, cause);
    assert ErrorText(l, m) == ErrorPrefix + m;
  }

  /**
   * Whatever goes wrong, the error block shows either exactly the localized
   * "player not found" text or a message behind the fixed prefix.
   */
  lemma ErrorBlockKinds(host: Host, svc: Service)
    requires Start(host, svc).ErrorBlock?
    ensures var t := Start(host, svc).text;
      t == PlayerNotFound(GetLocale(host.language)) ||
      (|t| >= |ErrorPrefix| && t[..|ErrorPrefix|] == ErrorPrefix)
  {
  }

  /** The lifetime section of the first end-to-end scenario. */
  function ScenarioLifetime(): map<string, Value>
  {
    map["Matches" := Scalar("120"), "Win Rate %" := Scalar("55"),
        "Average K/D Ratio" := Scalar("1.12"), "Average Headshots %" := Scalar("48")]
  }

  /** The service of the first end-to-end scenario: one AVAILABLE candidate with cs2 statistics only. */
  function ScenarioService(): Service
  {
    Service(
      u => Returns(Results([Candidate("g1", "AVAILABLE")])),
      u => Returns(Profile(Some(map["cs2" := GameEntry(Scalar("5"), Scalar("1800"))]))),
      u => if u == StatsUrl("g1", Cs2) then Returns(StatsBody(Some(ScenarioLifetime()))) else Returns(StatsBody(None)))
  }

  /** The record the first end-to-end scenario must show. */
  function ScenarioInfo(): PlayerInfo
  {
    PlayerInfo(Scalar("5"), Scalar("1800"), Scalar("120"), Scalar("55"), Scalar("1.12"), Scalar("48"))
  }

  /** In the first scenario the merge for "g1" yields the cs2 record. */
  lemma ScenarioMerge(host: Host)
    ensures Merge(host, ScenarioService(), "g1") == Returns(Some(ScenarioInfo()))
  {
    var svc := ScenarioService();
    var profile := Profile(Some(map["cs2" := GameEntry(Scalar("5"), Scalar("1800"))]));
    var cs2Url, csgoUrl := StatsUrl("g1", Cs2), StatsUrl("g1", Csgo);
    assert cs2Url != csgoUrl by {
      assert cs2Url[|cs2Url| - 1] == '2';
      assert csgoUrl[|csgoUrl| - 1] == 'o';
    }
    assert svc.profile(ProfileUrl("g1")) == Returns(profile);
    assert svc.stats(cs2Url) == Returns(StatsBody(Some(ScenarioLifetime())));
    assert svc.stats(csgoUrl) == Returns(StatsBody(None));
    assert GameStats(profile, StatsBody(Some(ScenarioLifetime())), Cs2) == Record(ScenarioInfo());
  }

  /** End to end: the cs2 figures of "g1" are shown, with the level-5 icon. */
  lemma ScenarioStatsShown(host: Host)
    requires host.steamId == Returns("76561198000000000")
    ensures Start(host, ScenarioService()) ==
      StatsBlock(
        PlayerInfo(Scalar("5"), Scalar("1800"), Scalar("120"), Scalar("55"), Scalar("1.12"), Scalar("48")),
        "https://raw.githubusercontent.com/raizano/FACEIT-Statistics/master/icons/5-level.svg")
  {
    var svc := ScenarioService();
    var l := GetLocale(host.language);
    assert GetGuid(l, svc.search(SearchUrl("76561198000000000"))) == Returns("g1");
    ScenarioMerge(host);
    assert Run(host, svc) == Returns(ScenarioInfo());
  }

  /** End to end: a profile without a cs2 or csgo entry shows "player not found" once the cs2 response has a lifetime section. */
  lemma ScenarioNoEntries(host: Host, cs2: StatsBody, csgo: StatsBody)
    requires host.steamId.Returns?
    requires cs2.lifetime.Some?
    ensures
      var svc := Service(
        u => Returns(Results([Candidate("g1", "AVAILABLE")])),
        u => Returns(Profile(Some(map[]))),
        u => if u == StatsUrl("g1", Cs2) then Returns(cs2) else Returns(csgo));
      Start(host, svc) == ErrorBlock(PlayerNotFound(GetLocale(host.language)))
  {
  }
}
