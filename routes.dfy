/**
 * Token extraction from the request headers:
 * `headers.get("Authorization", "").lstrip("Bearer").strip()`.
 * `lstrip` with an argument removes a leading run of characters from that
 * set, here {B, e, a, r}; it does not remove the word "Bearer" as a prefix.
 */
module Routes {

  /** The characters of the string "Bearer", the set `lstrip("Bearer")` removes. */
  predicate InBearer(c: char)
  {
    c == 'B' || c == 'e' || c == 'a' || c == 'r'
  }

  /** Python's `str.isspace`, whose characters `strip()` removes. */
  predicate IsSpace(c: char)
  {
    || '\t' <= c <= '\r'
    || '\U{1C}' <= c <= ' '
    || c == '\U{85}' || c == '\U{A0}' || c == '\U{1680}'
    || '\U{2000}' <= c <= '\U{200A}'
    || c == '\U{2028}' || c == '\U{2029}' || c == '\U{202F}' || c == '\U{205F}' || c == '\U{3000}'
  }

  /** Neither starts nor ends with whitespace. */
  predicate Trimmed(s: string)
  {
    s == [] || (!IsSpace(s[0]) && !IsSpace(s[|s| - 1]))
  }

  /** The length of the longest leading run of characters satisfying `chars`. */
  function LeadingRun(s: string, chars: char -> bool): (n: nat)
    ensures n <= |s|
    ensures forall i :: 0 <= i < n ==> chars(s[i])
    ensures n < |s| ==> !chars(s[n])
  {
    if s != [] && chars(s[0]) then 1 + LeadingRun(s[1..], chars) else 0
  }

  /** The length of the longest trailing run of characters satisfying `chars`. */
  function TrailingRun(s: string, chars: char -> bool): (n: nat)
    ensures n <= |s|
    ensures forall i :: |s| - n <= i < |s| ==> chars(s[i])
    ensures n < |s| ==> !chars(s[|s| - n - 1])
  {
    if s != [] && chars(s[|s| - 1]) then 1 + TrailingRun(s[..|s| - 1], chars) else 0
  }

  /** `s.lstrip(chars)`: the leading run is removed. */
  function LStrip(s: string, chars: char -> bool): string
  {
    s[LeadingRun(s, chars)..]
  }

  /** `s.rstrip(chars)`: the trailing run is removed. */
  function RStrip(s: string, chars: char -> bool): string
  {
    s[..|s| - TrailingRun(s, chars)]
  }

  /** `s.strip()`: surrounding whitespace removed at both ends. */
  function Strip(s: string): (r: string)
    ensures Trimmed(r)
  {
    var left := LStrip(s, IsSpace);
    assert left != [] ==> !IsSpace(left[0]);
    RStrip(left, IsSpace)
  }

  /**
   * `strip()` returns a slice of its input, and everything it cut off on
   * either side is whitespace.
   */
  lemma StripResult(s: string)
    ensures var r, k := Strip(s), LeadingRun(s, IsSpace);
      && k + |r| <= |s|
      && (forall i :: 0 <= i < |r| ==> r[i] == s[k + i])
      && (forall i :: 0 <= i < k ==> IsSpace(s[i]))
      && (forall i :: k + |r| <= i < |s| ==> IsSpace(s[i]))
  {
    var k := LeadingRun(s, IsSpace);
    var left := s[k..];
    var t := TrailingRun(left, IsSpace);
    var r := left[..|left| - t];
    assert Strip(s) == r;
    forall i | k + |r| <= i < |s|
      ensures IsSpace(s[i])
    {
      assert s[i] == left[i - k];
    }
  }

  /** `lstrip` removes a whole run of characters in the set and stops at the first one outside it. */
  lemma LStripPastRun(run: string, rest: string, chars: char -> bool)
    requires forall i :: 0 <= i < |run| ==> chars(run[i])
    requires rest == [] || !chars(rest[0])
    ensures LStrip(run + rest, chars) == rest
  {
    var s := run + rest;
    assert forall i :: 0 <= i < |run| ==> s[i] == run[i];
    assert rest != [] ==> s[|run|] == rest[0];
    assert LeadingRun(s, chars) == |run|;
    assert s[|run|..] == rest;
  }

  /** `strip()` leaves a string without surrounding whitespace as it is. */
  lemma StripKeepsTrimmed(s: string)
    requires Trimmed(s)
    ensures Strip(s) == s
  {
  }

  /** `get_token_from_header`. A missing Authorization header reads as "". */
  function GetTokenFromHeader(headers: map<string, string>): (token: string)
    ensures "Authorization" !in headers ==> token == ""
    ensures Trimmed(token)
  {
    var header := if "Authorization" in headers then headers["Authorization"] else "";
    Strip(LStrip(header, InBearer))
  }

  /**
   * The usual header "Bearer <token>" yields the token, whatever its first
   * character: the space after "Bearer" ends the run that `lstrip` removes.
   */
  lemma BearerSchemeRemoved(token: string)
    requires Trimmed(token)
    ensures GetTokenFromHeader(map["Authorization" := "Bearer " + token]) == token
  {
    assert "Bearer " + token == "Bearer" + (" " + token);
    LStripPastRun("Bearer", " " + token, InBearer);
    assert token == [] || !IsSpace(token[0]);
    LStripPastRun(" ", token, IsSpace);
    StripKeepsTrimmed(token);
  }

  /**
   * `lstrip` is not a prefix removal: a header value that starts with one
   * of B, e, a, r loses that character, as if it had never been there.
   */
  lemma LeadingBearerCharLost(c: char, rest: string)
    requires InBearer(c)
    ensures GetTokenFromHeader(map["Authorization" := [c] + rest]) == GetTokenFromHeader(map["Authorization" := rest])
  {
    assert ([c] + rest)[1..] == rest;
  }

  /** A bare token such as "eyJ0" loses its leading 'e'. */
  lemma BareTokenDamaged()
    ensures GetTokenFromHeader(map["Authorization" := "eyJ0"]) == "yJ0"
  {
    assert "eyJ0" == "e" + "yJ0";
    LStripPastRun("e", "yJ0", InBearer);
    StripKeepsTrimmed("yJ0");
  }

  /** Without the space, "Bearer" and the token's leading 'a' go together. */
  lemma SchemeWithoutSpaceDamaged()
    ensures GetTokenFromHeader(map["Authorization" := "Bearerabc"]) == "bc"
  {
    assert "Bearerabc" == "Bearera" + "bc";
    LStripPastRun("Bearera", "bc", InBearer);
    StripKeepsTrimmed("bc");
  }

  /** A lowercase "bearer" scheme is not stripped at all. */
  lemma LowercaseSchemeKept()
    ensures GetTokenFromHeader(map["Authorization" := "bearer xyz"]) == "bearer xyz"
  {
    assert "bearer xyz" == "" + "bearer xyz";
    LStripPastRun("", "bearer xyz", InBearer);
    StripKeepsTrimmed("bearer xyz");
  }
}
