/** The cities trips happen in. */
module Cities {
  const CITY_IDS: seq<string> := ["nyc", "chi", "sfo", "lax", "bos", "sea", "aus", "mia"]

  lemma CityIdsDiffer(i: nat, j: nat)
    requires i < j < |CITY_IDS|
    ensures CITY_IDS[i] != CITY_IDS[j]
  {
    assert |CITY_IDS[i]| == 3 == |CITY_IDS[j]|;
    assert CITY_IDS[i][0] != CITY_IDS[j][0] || CITY_IDS[i][1] != CITY_IDS[j][1] || CITY_IDS[i][2] != CITY_IDS[j][2];
  }
}
