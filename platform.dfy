/** The store a build is distributed through, and the tag the ad server knows it by. */
module Platforms {

  datatype Platform = None | Itunes | Amazon | GooglePlay | Windows | Blackberry

  /** The `Description` attribute of each variant: the store tag sent to the server. */
  function Description(p: Platform): (tag: string)
    ensures |tag| >= 3
    ensures forall i :: 0 <= i < |tag| ==> 'a' <= tag[i] <= 'z'
  {
    match p
    case None => "development"
    case Itunes => "ios"
    case Amazon => "amazon"
    case GooglePlay => "android"
    case Windows => "windows"
    case Blackberry => "blackberry"
  }

  /** The numeric value of each variant. */
  function Value(p: Platform): (n: nat)
    ensures n <= 5
    ensures n == 0 <==> p == None
  {
    match p
    case None => 0
    case Itunes => 1
    case Amazon => 2
    case GooglePlay => 3
    case Windows => 4
    case Blackberry => 5
  }

  /** The default of the enum (the value a field holds before it is assigned) is `None`. */
  const Default: Platform := None

  /** Distinct variants have distinct numeric values. */
  lemma ValueIsInjective(p: Platform, q: Platform)
    ensures Value(p) == Value(q) <==> p == q
  {
  }

  /**
   * The last two characters of a tag already tell the variants apart. This is
   * what makes the tag recoverable from the end of a request URL.
   */
  lemma TagEndingDeterminesPlatform(p: Platform, q: Platform)
    requires Description(p)[|Description(p)| - 2..] == Description(q)[|Description(q)| - 2..]
    ensures p == q
  {
    var a, b := Description(p), Description(q);
    assert a[|a| - 1] == b[|b| - 1] by {
      assert a[|a| - 2..][1] == a[|a| - 1] && b[|b| - 2..][1] == b[|b| - 1];
    }
    assert a[|a| - 2] == b[|b| - 2] by {
      assert a[|a| - 2..][0] == a[|a| - 2] && b[|b| - 2..][0] == b[|b| - 2];
    }
  }

  /** Distinct variants have distinct tags. */
  lemma DescriptionIsInjective(p: Platform, q: Platform)
    ensures Description(p) == Description(q) <==> p == q
  {
    if Description(p) == Description(q) {
      TagEndingDeterminesPlatform(p, q);
    }
  }
}
