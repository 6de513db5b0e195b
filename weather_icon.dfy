/** Weather-condition-code to icon lookup of the wearable's utility class.
    The source maps an OpenWeatherMap weather-condition code (a Java `int`)
    to the resource id of an `art_*` drawable, or to -1 when the code is in
    none of the listed ranges. */
module WeatherIcon {

  /** Java's 32-bit `int`, the type of the `weatherId` parameter. */
  newtype int32 = x: int | -0x8000_0000 <= x < 0x8000_0000

  /** The eight `R.drawable.art_*` icons. Their generated integer ids are
      not modelled; they are distinct tags, and distinct from -1. */
  datatype Icon = Storm | LightRain | Rain | Snow | Fog | Clear | LightClouds | Clouds

  /** The lookup result: the icon found, or `NotFound` for the sentinel -1. */
  datatype ArtResource = Found(icon: Icon) | NotFound

  /** The chain's code ranges grouped by icon, as a relation between codes
      and icons, with 761 under Fog only (where the chain as written puts
      it). "The table" below means this relation. */
  predicate ConditionIcon(code: int32, icon: Icon)
  {
    match icon
    case Storm => (200 <= code <= 232) || code == 781
    case LightRain => 300 <= code <= 321
    case Rain => (500 <= code <= 504) || (520 <= code <= 531)
    case Snow => code == 511 || (600 <= code <= 622)
    case Fog => 701 <= code <= 761
    case Clear => code == 800
    case LightClouds => code == 801
    case Clouds => 802 <= code <= 804
  }

  /** True when the table lists the code under some icon. */
  predicate Listed(code: int32)
  {
    exists icon :: ConditionIcon(code, icon)
  }

  /** The table gives each code at most one icon. */
  lemma TableIsFunctional(code: int32, i: Icon, j: Icon)
    requires ConditionIcon(code, i) && ConditionIcon(code, j)
    ensures i == j
  {
  }

  /** `getArtResourceForWeatherCondition`: the ordered if/else chain of
      range tests; the first test that holds decides the result. */
  function ArtResourceForWeatherCondition(weatherId: int32): (r: ArtResource)
    ensures forall icon :: r == Found(icon) <==> ConditionIcon(weatherId, icon)
    ensures r == NotFound <==> !Listed(weatherId)
  {
    if weatherId >= 200 && weatherId <= 232 then Found(Storm)
    else if weatherId >= 300 && weatherId <= 321 then Found(LightRain)
    else if weatherId >= 500 && weatherId <= 504 then Found(Rain)
    else if weatherId == 511 then Found(Snow)
    else if weatherId >= 520 && weatherId <= 531 then Found(Rain)
    else if weatherId >= 600 && weatherId <= 622 then Found(Snow)
    else if weatherId >= 701 && weatherId <= 761 then Found(Fog)
    else if weatherId == 761 || weatherId == 781 then Found(Storm)
    else if weatherId == 800 then Found(Clear)
    else if weatherId == 801 then Found(LightClouds)
    else if weatherId >= 802 && weatherId <= 804 then Found(Clouds)
    else NotFound
  }

  // ---------------------------------------------------------------------
  // The chain as a list of tests, for statements about its order.

  /** Number of tests in the if/else chain. */
  const BranchCount: nat := 11

  /** The k-th test of the chain, exactly as written (k counts from 0);
      false for k beyond the chain. */
  predicate BranchTest(k: nat, weatherId: int32)
  {
    match k
    case 0 => weatherId >= 200 && weatherId <= 232
    case 1 => weatherId >= 300 && weatherId <= 321
    case 2 => weatherId >= 500 && weatherId <= 504
    case 3 => weatherId == 511
    case 4 => weatherId >= 520 && weatherId <= 531
    case 5 => weatherId >= 600 && weatherId <= 622
    case 6 => weatherId >= 701 && weatherId <= 761
    case 7 => weatherId == 761 || weatherId == 781
    case 8 => weatherId == 800
    case 9 => weatherId == 801
    case 10 => weatherId >= 802 && weatherId <= 804
    case _ => false
  }

  /** The icon returned by the k-th branch of the chain. */
  function BranchIcon(k: nat): Icon
    requires k < BranchCount
  {
    [Storm, LightRain, Rain, Snow, Rain, Snow, Fog, Storm, Clear, LightClouds, Clouds][k]
  }

  /** First match wins: the branch whose test is the first to hold decides. */
  lemma FirstMatchWins(weatherId: int32, k: nat)
    requires k < BranchCount && BranchTest(k, weatherId)
    requires forall j :: 0 <= j < k ==> !BranchTest(j, weatherId)
    ensures ArtResourceForWeatherCondition(weatherId) == Found(BranchIcon(k))
  {
    if k > 0 { assert !BranchTest(0, weatherId); }
    if k > 1 { assert !BranchTest(1, weatherId); }
    if k > 2 { assert !BranchTest(2, weatherId); }
    if k > 3 { assert !BranchTest(3, weatherId); }
    if k > 4 { assert !BranchTest(4, weatherId); }
    if k > 5 { assert !BranchTest(5, weatherId); }
    if k > 6 { assert !BranchTest(6, weatherId); }
    if k > 7 { assert !BranchTest(7, weatherId); }
    if k > 8 { assert !BranchTest(8, weatherId); }
    if k > 9 { assert !BranchTest(9, weatherId); }
  }

  /** The function falls through to -1 exactly when no test of the chain holds. */
  lemma NotFoundIffNoTestHolds(weatherId: int32)
    ensures ArtResourceForWeatherCondition(weatherId) == NotFound
        <==> forall j :: 0 <= j < BranchCount ==> !BranchTest(j, weatherId)
  {
    if ArtResourceForWeatherCondition(weatherId) == NotFound {
      forall j | 0 <= j < BranchCount ensures !BranchTest(j, weatherId) {
      }
    } else {
      var c := weatherId;
      assert BranchTest(0, c) || BranchTest(1, c) || BranchTest(2, c) || BranchTest(3, c)
          || BranchTest(4, c) || BranchTest(5, c) || BranchTest(6, c) || BranchTest(7, c)
          || BranchTest(8, c) || BranchTest(9, c) || BranchTest(10, c);
    }
  }

  /** The tests of the chain are pairwise disjoint, except for one pair:
      the fog range (branch 6) and the storm test (branch 7) share 761. */
  lemma OnlyOverlapIs761(weatherId: int32, i: nat, j: nat)
    requires i < j < BranchCount
    requires BranchTest(i, weatherId) && BranchTest(j, weatherId)
    ensures i == 6 && j == 7 && weatherId == 761
  {
  }

  /** The storm test `weatherId == 761 || weatherId == 781` is reached only
      when the fog test has failed, so its first half can never be the one
      that holds: the storm branch is taken for 781 alone. */
  lemma StormTestReachedOnlyFor781(weatherId: int32)
    requires forall j :: 0 <= j < 7 ==> !BranchTest(j, weatherId)
    requires BranchTest(7, weatherId)
    ensures weatherId == 781
  {
    assert !BranchTest(6, weatherId);
  }

  // ---------------------------------------------------------------------
  // The table, range by range.

  lemma StormCodes(weatherId: int32)
    requires (200 <= weatherId <= 232) || weatherId == 781
    ensures ArtResourceForWeatherCondition(weatherId) == Found(Storm)
  {
  }

  lemma LightRainCodes(weatherId: int32)
    requires 300 <= weatherId <= 321
    ensures ArtResourceForWeatherCondition(weatherId) == Found(LightRain)
  {
  }

  lemma RainCodes(weatherId: int32)
    requires (500 <= weatherId <= 504) || (520 <= weatherId <= 531)
    ensures ArtResourceForWeatherCondition(weatherId) == Found(Rain)
  {
  }

  lemma SnowCodes(weatherId: int32)
    requires weatherId == 511 || (600 <= weatherId <= 622)
    ensures ArtResourceForWeatherCondition(weatherId) == Found(Snow)
  {
  }

  /** 701..761 is fog, 761 included, although the storm test also names 761. */
  lemma FogCodes(weatherId: int32)
    requires 701 <= weatherId <= 761
    ensures ArtResourceForWeatherCondition(weatherId) == Found(Fog)
  {
  }

  lemma CloudCodes(weatherId: int32)
    requires 800 <= weatherId <= 804
    ensures weatherId == 800 ==> ArtResourceForWeatherCondition(weatherId) == Found(Clear)
    ensures weatherId == 801 ==> ArtResourceForWeatherCondition(weatherId) == Found(LightClouds)
    ensures weatherId >= 802 ==> ArtResourceForWeatherCondition(weatherId) == Found(Clouds)
  {
  }

  /** Codes between and around the listed ranges give -1. */
  lemma UnlistedCodes(weatherId: int32)
    requires weatherId < 200 || weatherId in {233, 505, 762, 780} || weatherId > 804
    ensures ArtResourceForWeatherCondition(weatherId) == NotFound
  {
  }
}
