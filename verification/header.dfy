/** Reading the bearer credential out of the `Authorization` header (index.js:50):
    the header is split on single spaces and the second field is taken. */
module Header {
  import opened Wrappers

  const Space: char := ' '

  /** Joins fields with single spaces; the inverse of `SplitOnSpace`. */
  function JoinWithSpace(parts: seq<string>): string
  {
    if parts == [] then ""
    else if |parts| == 1 then parts[0]
    else parts[0] + [Space] + JoinWithSpace(parts[1..])
  }

  /** Position of the first space in `s`. */
  function FirstSpace(s: string): (k: nat)
    requires Space in s
    ensures k < |s| && s[k] == Space
    ensures forall j :: 0 <= j < k ==> s[j] != Space
  {
    if s[0] == Space then 0
    else
      assert Space in s[1..] by {
        var i :| 0 <= i < |s| && s[i] == Space;
        assert s[1..][i - 1] == Space;
      }
      1 + FirstSpace(s[1..])
  }

  /** JavaScript's `s.split(" ")`: the maximal space-free fields between single spaces.
      An empty string gives one empty field; two adjacent spaces give an empty field. */
  function SplitOnSpace(s: string): (parts: seq<string>)
    ensures |parts| >= 1
    ensures |parts| == 1 <==> Space !in s
    ensures forall i :: 0 <= i < |parts| ==> Space !in parts[i]
    ensures JoinWithSpace(parts) == s
    decreases |s|
  {
    if Space !in s then [s]
    else
      var k := FirstSpace(s);
      var rest := SplitOnSpace(s[k + 1..]);
      assert s == s[..k] + [Space] + s[k + 1..];
      [s[..k]] + rest
  }

  /** `authorization.split(" ")[1]`: the second field, or `None` (`undefined`)
      when the header holds no space. The first field (the scheme word) is never looked at. */
  function BearerToken(header: string): (token: Option<string>)
    ensures token.Some? <==> Space in header
    ensures token.Some? ==> Space !in token.value
  {
    var parts := SplitOnSpace(header);
    if |parts| >= 2 then Some(parts[1]) else None
  }

  /** Splitting undoes joining: space-free fields are recovered exactly. */
  lemma {:induction false} SplitJoin(parts: seq<string>)
    requires |parts| >= 1
    requires forall i :: 0 <= i < |parts| ==> Space !in parts[i]
    ensures SplitOnSpace(JoinWithSpace(parts)) == parts
    decreases |parts|
  {
    if |parts| > 1 {
      var s := JoinWithSpace(parts);
      var p := parts[0];
      assert s == p + [Space] + JoinWithSpace(parts[1..]);
      assert s[|p|] == Space;
      assert Space in s;
      var k := FirstSpace(s);
      assert k == |p|;
      assert s[..k] == p;
      assert s[k + 1..] == JoinWithSpace(parts[1..]);
      SplitJoin(parts[1..]);
    }
  }

  /** Whatever the first word is, the field after the first space is the token. */
  lemma BearerTokenOf(parts: seq<string>)
    requires |parts| >= 2
    requires forall i :: 0 <= i < |parts| ==> Space !in parts[i]
    ensures BearerToken(JoinWithSpace(parts)) == Some(parts[1])
  {
    SplitJoin(parts);
  }

  /** `"Bearer <token>"` yields the token; so does any other scheme word in its place. */
  lemma BearerHeader(scheme: string, token: string)
    requires Space !in scheme && Space !in token
    ensures BearerToken(scheme + [Space] + token) == Some(token)
  {
    var parts := [scheme, token];
    BearerTokenOf(parts);
    assert JoinWithSpace([scheme, token]) == scheme + [Space] + token;
  }
}
