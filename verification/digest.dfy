/** Reading the content digest out of a registry inspection: the plugin takes the
    `Digest` entry (default `":"`) and keeps the piece after the first colon. */
module Digest {
  import opened Results
  import opened Text

  /** Key under which the registry inspection reports the manifest digest. */
  const DigestKey: string := "Digest"

  /** Value used when the inspection has no `Digest` entry. */
  const MissingDigest: string := ":"

  /** `inspection.get('Digest', ':')`: the reported digest, or a default that
      contains a colon. */
  function DigestField(fields: map<string, string>): (v: string)
    ensures DigestKey in fields ==> v == fields[DigestKey]
    ensures DigestKey !in fields ==> ':' in v
  {
    if DigestKey in fields then fields[DigestKey] else MissingDigest
  }

  /** `value.split(':')[1]`; `None` stands for the IndexError raised when
      the value holds no colon at all. */
  function SecondSegment(value: string): (r: Option<string>)
    ensures r.None? <==> ':' !in value
    ensures r.Some? ==> ':' !in r.value
  {
    OccurrencesZero(value, ':');
    var parts := Split(value, ':');
    if |parts| < 2 then None else Some(parts[1])
  }

  /** The remote digest the plugin compares against the installed one. Only a
      reported digest without a colon makes the extraction raise; a missing
      `Digest` entry never does. */
  function RemoteDigest(fields: map<string, string>): (r: Option<string>)
    ensures r.None? <==> DigestKey in fields && ':' !in fields[DigestKey]
    ensures r.Some? ==> ':' !in r.value
  {
    SecondSegment(DigestField(fields))
  }

  /** A value without a colon splits into itself alone, so `[1]` raises IndexError. */
  lemma NoColonRaises(value: string)
    requires ':' !in value
    ensures Split(value, ':') == [value]
    ensures SecondSegment(value).None?
  {
    SplitNoSeparator(value, ':');
  }

  /** The result is exactly the text between the first colon and the next one
      (or the end of the value). Every value containing a colon has this shape
      for exactly one choice of `a`, `r` and `b`. */
  lemma {:induction false} SecondSegmentBetweenColons(a: string, r: string, b: string)
    requires ':' !in a && ':' !in r
    requires b == [] || b[0] == ':'
    ensures SecondSegment(a + [':'] + r + b) == Some(r)
  {
    var t := [':'] + r + b;
    assert a + [':'] + r + b == a + t;
    SplitPlainPrefix(a, t, ':');
    assert t[1..] == r + b;
    assert Split(t, ':') == [[]] + Split(r + b, ':');
    SplitPlainPrefix(r, b, ':');
    SplitEmptyHead(b, ':');
    assert r + [] == r;
  }

  /** A registry digest `algorithm:hex` yields its hex part. */
  lemma AlgorithmAndHex(algorithm: string, hex: string)
    requires ':' !in algorithm && ':' !in hex
    ensures SecondSegment(algorithm + [':'] + hex) == Some(hex)
  {
    SecondSegmentBetweenColons(algorithm, hex, []);
    assert algorithm + [':'] + hex + [] == algorithm + [':'] + hex;
  }

  /** The example `sha256:def456` yields `def456`. */
  lemma ShaExample()
    ensures SecondSegment("sha256:def456") == Some("def456")
  {
    AlgorithmAndHex("sha256", "def456");
    assert "sha256" + [':'] + "def456" == "sha256:def456";
  }

  /** With no `Digest` entry the default `":"` yields the empty digest. */
  lemma MissingKeyGivesEmpty(fields: map<string, string>)
    requires DigestKey !in fields
    ensures RemoteDigest(fields) == Some("")
  {
    SecondSegmentBetweenColons([], [], []);
    assert [] + [':'] + [] + [] == MissingDigest;
  }

  /** Further colons are cut off: only the second piece is kept. */
  lemma ExtraColonsDropped()
    ensures SecondSegment("sha256:abc:def") == Some("abc")
  {
    SecondSegmentBetweenColons("sha256", "abc", ":def");
    assert "sha256" + [':'] + "abc" + ":def" == "sha256:abc:def";
  }
}
