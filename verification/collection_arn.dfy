/**
 * Resolving the geofence collection's short name from its ARN, as
 * `AuthViewModel.getGeofenceCollectionName` does: split on ':', keep the last
 * piece, split that on '/', and accept its last piece only when there are at
 * least two. Both splits drop empty pieces, as Swift's `split` does.
 */
module CollectionArn {
  import opened Optional
  import opened SwiftText

  function GeofenceCollectionName(arn: string): (r: Option<string>)
    ensures r.Some? ==> IsPiece(r.value, ':') && IsPiece(r.value, '/')
    ensures r.Some? ==> forall c :: c in r.value ==> c in arn
  {
    var components := Split(arn, ':');
    if |components| == 0 then None
    else
      var nameComponents := Split(components[|components| - 1], '/');
      if |nameComponents| > 1 then Some(nameComponents[|nameComponents| - 1]) else None
  }

  /** The two ways the lookup fails: the ARN is nothing but ':' characters, or its last
      ':'-piece does not hold two '/'-separated runs. */
  lemma CollectionNameNoneIff(arn: string)
    ensures |Split(arn, ':')| == 0 <==> OnlySeparators(arn, ':')
    ensures GeofenceCollectionName(arn).None? <==>
      |Split(arn, ':')| == 0 || !HasTwoPieces(Split(arn, ':')[|Split(arn, ':')| - 1], '/')
  {
    SplitEmptyIff(arn, ':');
    var components := Split(arn, ':');
    if |components| > 0 {
      SplitTwoPiecesIff(components[|components| - 1], '/');
    }
  }

  /** Resolution depends on the ARN only through its ':'-pieces. */
  lemma SamePiecesSameName(x: string, y: string)
    requires Split(x, ':') == Split(y, ':')
    ensures GeofenceCollectionName(x) == GeofenceCollectionName(y)
  {
  }

  /** The last ':'-piece of a resolvable ARN is its last run of non-':' characters. */
  lemma LastComponentIsLastRun(arn: string) returns (i: int, j: int)
    requires Split(arn, ':') != []
    ensures LastRun(arn, ':', i, j) && Split(arn, ':')[|Split(arn, ':')| - 1] == arn[i..j]
    ensures forall i2, j2 :: LastRun(arn, ':', i2, j2) ==> i2 == i && j2 == j
  {
    SplitLastPiece(arn, ':');
    i, j :| LastRun(arn, ':', i, j) && Split(arn, ':')[|Split(arn, ':')| - 1] == arn[i..j];
    forall i2, j2 | LastRun(arn, ':', i2, j2) ensures i2 == i && j2 == j {
      LastRunUnique(arn, ':', i, j, i2, j2);
    }
  }

  /** Resolution in terms of the ARN itself: it succeeds exactly when the last run of
      non-':' characters holds two runs of non-'/' characters divided by a '/'. */
  lemma CollectionNameSomeIff(arn: string)
    ensures GeofenceCollectionName(arn).Some? <==>
      exists i, j :: LastRun(arn, ':', i, j) && HasTwoPieces(arn[i..j], '/')
  {
    CollectionNameNoneIff(arn);
    if Split(arn, ':') != [] {
      var i, j := LastComponentIsLastRun(arn);
    }
  }

  /** A resolved name is the last run of non-'/' characters inside the last run of non-':'
      characters of the ARN. */
  lemma CollectionNameIsLastRuns(arn: string)
    requires GeofenceCollectionName(arn).Some?
    ensures exists i, j, a, b ::
      && LastRun(arn, ':', i, j) && LastRun(arn[i..j], '/', a, b)
      && GeofenceCollectionName(arn).value == arn[i..j][a..b]
  {
    var i, j := LastComponentIsLastRun(arn);
    var name := arn[i..j];
    NameOfLastComponent(arn, name);
    var a, b := LastNameIsLastRun(name);
    assert LastRun(arn, ':', i, j) && LastRun(name, '/', a, b)
      && GeofenceCollectionName(arn).value == name[a..b];
  }

  /** A resolved name is the last '/'-piece of the last ':'-piece. */
  lemma NameOfLastComponent(arn: string, name: string)
    requires GeofenceCollectionName(arn).Some?
    requires Split(arn, ':') != [] && Split(arn, ':')[|Split(arn, ':')| - 1] == name
    ensures Split(name, '/') != []
    ensures GeofenceCollectionName(arn).value == Split(name, '/')[|Split(name, '/')| - 1]
  {
  }

  /** The last '/'-piece of a resource part is its last run of non-'/' characters. */
  lemma LastNameIsLastRun(name: string) returns (a: int, b: int)
    requires Split(name, '/') != []
    ensures LastRun(name, '/', a, b) && Split(name, '/')[|Split(name, '/')| - 1] == name[a..b]
  {
    SplitLastPiece(name, '/');
    a, b :| LastRun(name, '/', a, b) && Split(name, '/')[|Split(name, '/')| - 1] == name[a..b];
  }

  /** Leading, trailing and doubled ':' characters do not change the result, since `split`
      drops the empty pieces they would make. */
  lemma CollectionNameIgnoresEmptyPieces(a: string, b: string)
    ensures GeofenceCollectionName([':'] + a) == GeofenceCollectionName(a)
    ensures GeofenceCollectionName(a + [':']) == GeofenceCollectionName(a)
    ensures GeofenceCollectionName(a + [':', ':'] + b) == GeofenceCollectionName(a + [':'] + b)
  {
    SplitLeadingSeparator(a, ':');
    SamePiecesSameName([':'] + a, a);
    SplitTrailingSeparator(a, ':');
    SamePiecesSameName(a + [':'], a);
    SplitDoubledSeparator(a, ':', b);
    SamePiecesSameName(a + [':', ':'] + b, a + [':'] + b);
  }

  /** An ARN with no '/' at all never resolves. */
  lemma NoSlashNoCollection(arn: string)
    requires '/' !in arn
    ensures GeofenceCollectionName(arn).None?
  {
    CollectionNameNoneIff(arn);
    var components := Split(arn, ':');
    if |components| > 0 {
      var last := components[|components| - 1];
      assert forall c :: c in last ==> c in arn;
      assert forall m :: 0 <= m < |last| ==> last[m] in last;
    }
  }

  /** Building an ARN from well-formed pieces and resolving it gives back the last piece
      of its resource part: ARN construction and `getGeofenceCollectionName` round-trip. */
  lemma CollectionNameOfArn(prefix: seq<string>, resource: seq<string>)
    requires forall k :: 0 <= k < |prefix| ==> IsPiece(prefix[k], ':')
    requires |resource| >= 2
    requires forall k :: 0 <= k < |resource| ==> IsPiece(resource[k], ':') && IsPiece(resource[k], '/')
    ensures GeofenceCollectionName(Join(prefix + [Join(resource, '/')], ':'))
      == Some(resource[|resource| - 1])
  {
    var name := Join(resource, '/');
    ResourceIsPiece(resource);
    var parts := prefix + [name];
    assert forall k :: 0 <= k < |parts| ==> IsPiece(parts[k], ':');
    SplitJoin(parts, ':');
    SplitJoin(resource, '/');
    LastOfSplit(Join(parts, ':'), parts, name, resource);
  }

  /** The resource part, joined with '/', is a single ':'-piece. */
  lemma ResourceIsPiece(resource: seq<string>)
    requires |resource| >= 2
    requires forall k :: 0 <= k < |resource| ==> IsPiece(resource[k], ':') && IsPiece(resource[k], '/')
    ensures IsPiece(Join(resource, '/'), ':')
  {
    assert Join(resource, '/') == resource[0] + ['/'] + Join(resource[1..], '/');
    JoinAvoids(resource, '/', ':');
  }

  /** Resolution in terms of the two splits. */
  lemma LastOfSplit(arn: string, parts: seq<string>, name: string, resource: seq<string>)
    requires Split(arn, ':') == parts && |parts| > 0 && parts[|parts| - 1] == name
    requires Split(name, '/') == resource && |resource| >= 2
    ensures GeofenceCollectionName(arn) == Some(resource[|resource| - 1])
  {
  }

  /** The worked example: a typical geofence collection ARN. */
  lemma ExampleArn()
    ensures GeofenceCollectionName("arn:aws:geo:us-east-1:123456789012:geofence-collection/MyCollection")
      == Some("MyCollection")
  {
    var prefix := ["arn", "aws", "geo", "us-east-1", "123456789012"];
    var resource := ["geofence-collection", "MyCollection"];
    ExamplePieces(prefix, resource);
    CollectionNameOfArn(prefix, resource);
    ExampleJoin(prefix, resource);
  }

  // The lemmas below only help the verifier evaluate the literal of `ExampleArn`; they
  // model nothing of their own.

  lemma ExamplePieces(prefix: seq<string>, resource: seq<string>)
    requires prefix == ["arn", "aws", "geo", "us-east-1", "123456789012"]
    requires resource == ["geofence-collection", "MyCollection"]
    ensures forall k :: 0 <= k < |prefix| ==> IsPiece(prefix[k], ':')
    ensures forall k :: 0 <= k < |resource| ==> IsPiece(resource[k], ':') && IsPiece(resource[k], '/')
  {
  }

  lemma ExampleJoin(prefix: seq<string>, resource: seq<string>)
    requires prefix == ["arn", "aws", "geo", "us-east-1", "123456789012"]
    requires resource == ["geofence-collection", "MyCollection"]
    ensures Join(prefix + [Join(resource, '/')], ':')
      == "arn:aws:geo:us-east-1:123456789012:geofence-collection/MyCollection"
  {
    var name := "geofence-collection/MyCollection";
    assert Join(resource, '/') == resource[0] + "/" + resource[1] == name;
    assert prefix + [name] == ["arn", "aws", "geo", "us-east-1", "123456789012", name];
    JoinSix("arn", "aws", "geo", "us-east-1", "123456789012", name, ':');
    ExampleLiteral(name);
  }

  lemma JoinSix(a: string, b: string, c: string, d: string, e: string, f: string, sep: char)
    ensures Join([a, b, c, d, e, f], sep)
      == a + [sep] + (b + [sep] + (c + [sep] + (d + [sep] + (e + [sep] + f))))
  {
    var parts := [a, b, c, d, e, f];
    assert parts[5..] == [f];
    assert parts[4..][1..] == parts[5..];
    assert parts[3..][1..] == parts[4..];
    assert parts[2..][1..] == parts[3..];
    assert parts[1..][1..] == parts[2..];
    assert Join(parts[4..], sep) == e + [sep] + f;
    assert Join(parts[3..], sep) == d + [sep] + Join(parts[4..], sep);
    assert Join(parts[2..], sep) == c + [sep] + Join(parts[3..], sep);
    assert Join(parts[1..], sep) == b + [sep] + Join(parts[2..], sep);
  }

  lemma ExampleLiteral(name: string)
    requires name == "geofence-collection/MyCollection"
    ensures "arn" + [':'] + ("aws" + [':'] + ("geo" + [':'] + ("us-east-1" + [':'] + ("123456789012" + [':'] + name))))
      == "arn:aws:geo:us-east-1:123456789012:geofence-collection/MyCollection"
  {
    ExampleLiteralPrefix(name);
    ExampleLiteralWhole(name);
  }

  lemma ExampleLiteralPrefix(name: string)
    ensures "arn" + [':'] + ("aws" + [':'] + ("geo" + [':'] + ("us-east-1" + [':'] + ("123456789012" + [':'] + name))))
      == "arn:aws:geo:us-east-1:123456789012:" + name
  {
  }

  lemma ExampleLiteralWhole(name: string)
    requires name == "geofence-collection/MyCollection"
    ensures "arn:aws:geo:us-east-1:123456789012:" + name
      == "arn:aws:geo:us-east-1:123456789012:geofence-collection/MyCollection"
  {
  }
}
