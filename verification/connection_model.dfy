/**
 * `CustomConnectionModel`: the stored connection settings and the `region`
 * derived from the identity pool id, the text before its first ':'.
 */
module ConnectionModel {
  import opened SwiftText

  datatype CustomConnection = CustomConnection(
    apiKey: string,
    apiKeyRegion: string,
    identityPoolId: string,
    userPoolClientId: string,
    userPoolId: string,
    userDomain: string,
    webSocketUrl: string)

  const RegionDivider: char := ':'

  /** `identityPoolId.prefix(while: { $0 != ":" })`. */
  function Region(c: CustomConnection): (r: string)
    ensures r <= c.identityPoolId && RegionDivider !in r
    ensures |r| < |c.identityPoolId| ==> c.identityPoolId[|r|] == RegionDivider
  {
    PrefixBefore(c.identityPoolId, RegionDivider)
  }

  /** The region is the one prefix of the pool id that has no ':' and ends at a ':' or at
      the end of the id. */
  lemma RegionCharacterization(c: CustomConnection, r: string)
    ensures r == Region(c) <==>
      && r <= c.identityPoolId && RegionDivider !in r
      && (|r| == |c.identityPoolId| || c.identityPoolId[|r|] == RegionDivider)
  {
    var id := c.identityPoolId;
    if r <= id && RegionDivider !in r && (|r| == |id| || id[|r|] == RegionDivider) {
      if |r| == |id| {
        assert r == id;
        PrefixBeforeWhole(id, RegionDivider);
      } else {
        var rest := id[|r| + 1..];
        assert id == r + [RegionDivider] + rest;
        PrefixBeforeFirstSeparator(r, RegionDivider, rest);
      }
    }
  }

  /** A pool id written as `<region>:<rest>` yields `<region>`. */
  lemma RegionOfPoolId(c: CustomConnection, region: string, rest: string)
    requires RegionDivider !in region
    requires c.identityPoolId == region + [RegionDivider] + rest
    ensures Region(c) == region
  {
    RegionCharacterization(c, region);
    assert c.identityPoolId[|region|] == RegionDivider;
  }

  /** With no ':' at all, the region is the whole pool id; with a leading ':' it is empty. */
  lemma RegionEdgeCases(c: CustomConnection)
    ensures RegionDivider !in c.identityPoolId ==> Region(c) == c.identityPoolId
    ensures |c.identityPoolId| > 0 && c.identityPoolId[0] == RegionDivider ==> Region(c) == ""
  {
    if RegionDivider !in c.identityPoolId {
      PrefixBeforeWhole(c.identityPoolId, RegionDivider);
    }
  }

  /** A typical pool id. */
  lemma RegionExample(c: CustomConnection)
    requires c.identityPoolId == "us-east-1:abc"
    ensures Region(c) == "us-east-1"
  {
    RegionOfPoolId(c, "us-east-1", "abc");
  }

  /** The region depends on the pool id only. */
  lemma RegionIgnoresOtherFields(c: CustomConnection, d: CustomConnection)
    requires c.identityPoolId == d.identityPoolId
    ensures Region(c) == Region(d)
  {
  }
}
