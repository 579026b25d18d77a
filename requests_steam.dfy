/** The Steam request models: the rub amount, the gift price query and the
    gift order with its profile-URL check, and the payloads the Steam
    methods dump from them. */
module SteamRequests {
  import opened Text
  import opened JsonData
  import opened Schema

  /** `Region`: the three store regions by their values. */
  datatype Region = RU | KZ | UA {
    function Value(): string {
      match this
      case RU => "ru"
      case KZ => "kz"
      case UA => "ua"
    }
  }

  /** `Region(value)`: a region from its value, or None for any other text. */
  function ParseRegion(s: string): (r: Option<Region>)
    ensures r.Some? ==> r.value.Value() == s
  {
    if s == "ru" then Some(RU) else if s == "kz" then Some(KZ) else if s == "ua" then Some(UA) else None
  }

  /** Every region reads back from its value, and only the three values
      name a region. */
  lemma RegionRoundTrip(g: Region, s: string)
    ensures ParseRegion(g.Value()) == Some(g)
    ensures ParseRegion(s).Some? <==> s in {"ru", "kz", "ua"}
  {
  }

  datatype SteamRubCalculate = SteamRubCalculate(amount: int)
  datatype SteamGiftOrderCalculate = SteamGiftOrderCalculate(subId: int, region: Region)
  datatype SteamGiftOrder = SteamGiftOrder(
    friendLink: string, subId: int, region: Region, giftName: Option<string>, giftDescription: Option<string>)

  /** `SteamRubCalculate(amount=...)` */
  function RubCalculateSchema(amount: int): (r: Checked<SteamRubCalculate>)
    ensures r.Valid? <==> amount > 0
    ensures r.Valid? ==> r.value.amount == amount
    ensures r.Invalid? ==> r.fields == ["amount"]
  {
    var checks := [Check("amount", amount > 0)];
    assert checks[0].ok == (amount > 0);
    assert Failing(checks) == (if checks[0].ok then [] else ["amount"]) + Failing([]);
    Construct(checks, SteamRubCalculate(amount))
  }

  /** `SteamGiftOrderCalculate(sub_id=..., region=...)`: a region given as
      text must be one of the three values. */
  function GiftCalculateSchema(subId: int, region: string): (r: Checked<SteamGiftOrderCalculate>)
    ensures r.Valid? <==> subId > 0 && region in {"ru", "kz", "ua"}
    ensures r.Valid? ==> r.value.subId == subId && r.value.region.Value() == region
  {
    var p := ParseRegion(region);
    var checks := [Check("subId", subId > 0), Check("region", p.Some?)];
    assert checks[0].ok == (subId > 0) && checks[1].ok == p.Some?;
    Construct(checks, SteamGiftOrderCalculate(subId, if p.Some? then p.value else RU))
  }

  /** `model_dump(by_alias=True)`: the package id goes out as "subId". */
  function GiftCalculatePayload(c: SteamGiftOrderCalculate): (m: Object)
    ensures m.Keys == {"subId", "region"}
    ensures m["subId"] == JInt(c.subId) && m["region"] == JStr(c.region.Value())
  {
    map["subId" := JInt(c.subId), "region" := JStr(c.region.Value())]
  }

  // --- The profile URL check `https?://s\.team/p/[^\s]*` with `re.match` ---

  const HTTP_PREFIX: string := "http://s.team/p/"
  const HTTPS_PREFIX: string := "https://s.team/p/"

  predicate IsSpace(c: char) {
    c == ' ' || 9 <= c as int <= 13
  }

  /** The pattern's language: the scheme, the host and path, then a run of
      non-space characters. */
  ghost predicate InUrlLanguage(t: string) {
    exists tail :: (t == HTTP_PREFIX + tail || t == HTTPS_PREFIX + tail)
                   && forall i :: 0 <= i < |tail| ==> !IsSpace(tail[i])
  }

  /** `re.match` succeeds when some prefix of the text is in the language. */
  ghost predicate UrlMatches(v: string) {
    exists n :: 0 <= n <= |v| && InUrlLanguage(v[..n])
  }

  /** The recogniser: one of the two fixed prefixes. */
  predicate SteamUrl(v: string) {
    StartsWith(v, HTTP_PREFIX) || StartsWith(v, HTTPS_PREFIX)
  }

  /** The trailing run may be empty, so the match needs just the prefix and
      whatever follows it does not matter. */
  lemma SteamUrlIff(v: string)
    ensures SteamUrl(v) <==> UrlMatches(v)
  {
    if StartsWith(v, HTTP_PREFIX) {
      assert v[..|HTTP_PREFIX|] == HTTP_PREFIX + [];
    } else if StartsWith(v, HTTPS_PREFIX) {
      assert v[..|HTTPS_PREFIX|] == HTTPS_PREFIX + [];
    }
    if UrlMatches(v) {
      var n :| 0 <= n <= |v| && InUrlLanguage(v[..n]);
      var tail :| (v[..n] == HTTP_PREFIX + tail || v[..n] == HTTPS_PREFIX + tail)
                  && forall i :: 0 <= i < |tail| ==> !IsSpace(tail[i]);
      if v[..n] == HTTP_PREFIX + tail {
        assert v[..|HTTP_PREFIX|] == v[..n][..|HTTP_PREFIX|] == HTTP_PREFIX;
      } else {
        assert v[..|HTTPS_PREFIX|] == v[..n][..|HTTPS_PREFIX|] == HTTPS_PREFIX;
      }
    }
  }

  /** `SteamGiftOrder(friend_link=..., sub_id=..., region=..., gift_name=...,
      gift_description=...)` */
  function GiftOrderSchema(friendLink: string, subId: int, region: string,
                           giftName: Option<string>, giftDescription: Option<string>): (r: Checked<SteamGiftOrder>)
    ensures r.Valid? <==>
      && 1 <= |friendLink| <= 500 && SteamUrl(friendLink)
      && subId > 0
      && region in {"ru", "kz", "ua"}
      && (giftName.None? || |giftName.value| <= 100)
      && (giftDescription.None? || |giftDescription.value| <= 500)
    ensures r.Valid? ==> r.value.friendLink == friendLink && r.value.subId == subId
                         && r.value.region.Value() == region
                         && r.value.giftName == giftName && r.value.giftDescription == giftDescription
  {
    var p := ParseRegion(region);
    var checks := [Check("friendLink", LengthWithin(friendLink, 1, 500) && SteamUrl(friendLink)),
                   Check("sub_id", subId > 0),
                   Check("region", p.Some?),
                   Check("giftName", giftName.None? || |giftName.value| <= 100),
                   Check("giftDescription", giftDescription.None? || |giftDescription.value| <= 500)];
    assert checks[0].ok == (LengthWithin(friendLink, 1, 500) && SteamUrl(friendLink));
    assert checks[1].ok == (subId > 0) && checks[2].ok == p.Some?;
    assert checks[3].ok == (giftName.None? || |giftName.value| <= 100);
    assert checks[4].ok == (giftDescription.None? || |giftDescription.value| <= 500);
    Construct(checks, SteamGiftOrder(friendLink, subId, if p.Some? then p.value else RU, giftName, giftDescription))
  }

  /** `model_dump(exclude_none=True, by_alias=True)`: the aliased keys, with
      the two optional texts left out when they are None. */
  function GiftOrderPayload(o: SteamGiftOrder): (m: Object)
    ensures m.Keys - {"giftName", "giftDescription"} == {"friendLink", "sub_id", "region"}
    ensures "giftName" in m <==> o.giftName.Some?
    ensures "giftDescription" in m <==> o.giftDescription.Some?
  {
    var base := map["friendLink" := JStr(o.friendLink), "sub_id" := JInt(o.subId), "region" := JStr(o.region.Value())];
    var named := if o.giftName.Some? then base["giftName" := JStr(o.giftName.value)] else base;
    if o.giftDescription.Some? then named["giftDescription" := JStr(o.giftDescription.value)] else named
  }

  function ParseGiftOrder(m: Object): Option<SteamGiftOrder> {
    if "friendLink" in m && "sub_id" in m && "region" in m
       && m["friendLink"].JStr? && m["sub_id"].JInt? && m["region"].JStr?
       && ParseRegion(m["region"].s).Some?
       && ("giftName" in m ==> m["giftName"].JStr?)
       && ("giftDescription" in m ==> m["giftDescription"].JStr?) then
      Some(SteamGiftOrder(m["friendLink"].s, m["sub_id"].i, ParseRegion(m["region"].s).value,
                          if "giftName" in m then Some(m["giftName"].s) else None,
                          if "giftDescription" in m then Some(m["giftDescription"].s) else None))
    else None
  }

  /** The gift-order payload determines the order it was dumped from. */
  lemma GiftOrderPayloadRoundTrip(o: SteamGiftOrder)
    ensures ParseGiftOrder(GiftOrderPayload(o)) == Some(o)
  {
    RegionRoundTrip(o.region, "");
  }

  /** Both schemes are accepted with any tail, including an empty one or
      one with spaces; another host is not. */
  lemma SteamUrlExamples()
    ensures SteamUrl("https://s.team/p/abcd-efgh")
    ensures SteamUrl("http://s.team/p/")
    ensures SteamUrl("https://s.team/p/a b")
    ensures !SteamUrl("https://steamcommunity.com/id/x")
    ensures !SteamUrl("s.team/p/abc")
  {
    assert "https://s.team/p/abcd-efgh"[..|HTTPS_PREFIX|] == HTTPS_PREFIX;
    assert "https://s.team/p/a b"[..|HTTPS_PREFIX|] == HTTPS_PREFIX;
    assert "https://steamcommunity.com/id/x"[9] != HTTPS_PREFIX[9];
    assert "https://steamcommunity.com/id/x"[..|HTTP_PREFIX|][4] != HTTP_PREFIX[4];
  }
}
