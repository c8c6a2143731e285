/** The file-name helpers of pkg/utils: left-trimming of blank characters,
    the `.tf` suffix test, random template names and `GetName`. */
module Utils {
  import opened Common
  import Base64Url

  /** The cutset "\n\r \t" of `RemoveBlankLinesFromString`. */
  const BlankCutset: set<char> := {'\n', '\r', ' ', '\t'}

  /** `strings.TrimLeft(input, "\n\r \t")`: the result is what is left of the
      input after its longest blank prefix. */
  function RemoveBlankLinesFromString(input: string): (r: string)
    ensures |r| <= |input| && r == input[|input| - |r|..]
    ensures forall k :: 0 <= k < |input| - |r| ==> input[k] in BlankCutset
    ensures r == [] || r[0] !in BlankCutset
  {
    TrimLeftSet(input, BlankCutset)
  }

  /** Trimming a second time changes nothing. */
  lemma RemoveBlankLinesIdempotent(input: string)
    ensures RemoveBlankLinesFromString(RemoveBlankLinesFromString(input))
         == RemoveBlankLinesFromString(input)
  {
    var r := RemoveBlankLinesFromString(input);
    TrimLeftSetUnique(r, BlankCutset, r);
  }

  /** An input that does not start with a blank is returned as it is. */
  lemma RemoveBlankLinesKeepsUnblankInput(input: string)
    requires input == [] || input[0] !in BlankCutset
    ensures RemoveBlankLinesFromString(input) == input
  {
    TrimLeftSetUnique(input, BlankCutset, input);
  }

  /** Only the left end is touched: whatever follows a non-blank character,
      trailing blanks included, is kept. */
  lemma {:induction false} RemoveBlankLinesKeepsTail(input: string, tail: string)
    requires exists k :: 0 <= k < |input| && input[k] !in BlankCutset
    ensures RemoveBlankLinesFromString(input + tail) == RemoveBlankLinesFromString(input) + tail
  {
    var r := RemoveBlankLinesFromString(input);
    var s := input + tail;
    var k :| 0 <= k < |input| && input[k] !in BlankCutset;
    assert |input| - |r| <= k;
    assert s[|s| - |r + tail|..] == r + tail;
    TrimLeftSetUnique(s, BlankCutset, r + tail);
  }

  /** `strings.HasSuffix(str, ".tf")`. */
  predicate EndsWithTf(str: string)
  {
    HasSuffix(str, ".tf")
  }

  /** The suffix test holds exactly of the names of the form `p + ".tf"`. */
  lemma EndsWithTfExactly(str: string)
    ensures EndsWithTf(str) <==> exists p :: str == p + ".tf"
  {
    if EndsWithTf(str) {
      assert str == str[..|str| - 3] + ".tf";
    }
    if exists p :: str == p + ".tf" {
      var p :| str == p + ".tf";
      assert str[|str| - 3..] == ".tf";
    }
  }

  /** `RandomName`, with the five bytes `crypto/rand` would fill given as
      `random`: "terraform-", the unpadded base64url encoding of the bytes,
      ".tf". The name is 20 characters long, its middle 7 characters are
      symbols of the base64url alphabet and decode back to `random`. */
  function RandomName(random: seq<byte>): (r: string)
    requires |random| == 5
    ensures |r| == 20
    ensures HasPrefix(r, "terraform-") && EndsWithTf(r)
    ensures forall i :: 10 <= i < 17 ==> Base64Url.IsSymbol(r[i])
    ensures Base64Url.Decode(r[10..17]) == Some(random)
  {
    var encoded := Base64Url.Encode(random);
    Base64Url.DecodeEncode(random);
    var r := "terraform-" + encoded + ".tf";
    assert r[10..17] == encoded;
    assert r[..10] == "terraform-";
    assert r[17..] == ".tf";
    r
  }

  /** The contract of `RandomName` fixes the name: it is "terraform-", then
      the RFC 4648 encoding of the bytes, then ".tf". */
  lemma RandomNameIsEncoding(random: seq<byte>)
    requires |random| == 5
    ensures RandomName(random) == "terraform-" + Base64Url.Encode(random) + ".tf"
  {
    var r := RandomName(random);
    Base64Url.EncodeDecode(r[10..17], random);
    assert r == r[..10] + r[10..17] + r[17..];
  }

  /** Different bytes give different names. */
  lemma RandomNameInjective(a: seq<byte>, b: seq<byte>)
    requires |a| == 5 && |b| == 5 && a != b
    ensures RandomName(a) != RandomName(b)
  {
    assert RandomName(a)[10..17] != RandomName(b)[10..17];
  }

  /** `GetName`: the left-trimmed name when it ends in ".tf", a random name
      otherwise; either way the result ends in ".tf". */
  function GetName(name: string, random: seq<byte>): (r: string)
    requires |random| == 5
    ensures EndsWithTf(r)
    ensures EndsWithTf(RemoveBlankLinesFromString(name)) ==> r == RemoveBlankLinesFromString(name)
    ensures !EndsWithTf(RemoveBlankLinesFromString(name)) ==> r == RandomName(random)
  {
    var trimmed := RemoveBlankLinesFromString(name);
    if EndsWithTf(trimmed) then trimmed else RandomName(random)
  }

  /** Only leading blanks are trimmed, so a name with a trailing newline is
      replaced by a random one. */
  lemma TrailingNewlineGetsRandomName(random: seq<byte>)
    requires |random| == 5
    ensures GetName("x.tf\n", random) == RandomName(random)
  {
    RemoveBlankLinesKeepsUnblankInput("x.tf\n");
  }

  /** Leading blank lines in front of a ".tf" name are dropped and the rest is
      kept. */
  lemma LeadingBlankLinesDropped(random: seq<byte>)
    requires |random| == 5
    ensures GetName("\n\t main.tf", random) == "main.tf"
  {
    var s := "\n\t main.tf";
    assert s[|s| - 7..] == "main.tf";
    TrimLeftSetUnique(s, BlankCutset, "main.tf");
  }
}
