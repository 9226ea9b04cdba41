/**
 * `verify_antibot`: a request must carry a browser-like User-Agent and a
 * client fingerprint of at least 16 characters, or it is refused with 403.
 */
module Antibot {
  import opened Wrappers
  import opened Strings

  const MIN_FINGERPRINT_LENGTH := 16
  const BAD_CLIENT := HttpError(403, "Acceso denegado (cliente no válido)")
  const BAD_FINGERPRINT := HttpError(403, "Acceso denegado (fingerprint inválido)")

  /** The alternatives of the User-Agent pattern, lower-cased. */
  const BROWSER_WORDS: seq<string> := ["mozilla", "chrome", "safari", "firefox", "edge"]

  /**
   * Whether `c` matches the lower-case pattern letter `p` under `re.I`: equal
   * after lower-casing, plus the dotted and dotless i and the long s, which
   * Python's case-insensitive matching treats as `i` and `s`.
   */
  predicate MatchesIgnoreCase(c: char, p: char) {
    || LowerChar(c) == p
    || (p == 'i' && (c == '\U{130}' || c == '\U{131}'))
    || (p == 's' && c == '\U{17F}')
  }

  /** `w` occurs in `s` at position `i`, ignoring case. */
  predicate OccursAt(s: string, i: int, w: string) {
    0 <= i && i + |w| <= |s| && forall k :: 0 <= k < |w| ==> MatchesIgnoreCase(s[i + k], w[k])
  }

  /** The scan of `re.search` for one literal alternative. */
  function Search(s: string, w: string): (found: bool)
    decreases |s|
  {
    if |s| < |w| then false
    else if OccursAt(s, 0, w) then true
    else Search(s[1..], w)
  }

  /** The scan finds `w` exactly when `w` occurs somewhere in `s`. */
  lemma {:induction false} SearchFindsOccurrence(s: string, w: string)
    ensures Search(s, w) <==> exists i :: OccursAt(s, i, w)
    decreases |s|
  {
    if |s| >= |w| && !OccursAt(s, 0, w) {
      SearchFindsOccurrence(s[1..], w);
      if exists i :: OccursAt(s, i, w) {
        var i :| OccursAt(s, i, w);
        assert i > 0;
        assert OccursAt(s[1..], i - 1, w);
      }
      if exists i :: OccursAt(s[1..], i, w) {
        var i :| OccursAt(s[1..], i, w);
        assert OccursAt(s, i + 1, w);
      }
    }
  }

  /** `UA_PATTERN.search(ua)`: one of the browser words occurs in the User-Agent, ignoring case. */
  predicate BrowserLike(ua: string) {
    exists j :: 0 <= j < |BROWSER_WORDS| && Search(ua, BROWSER_WORDS[j])
  }

  /**
   * `verify_antibot`: the User-Agent is checked first (missing, empty or not
   * browser-like: 403), then the fingerprint (missing, empty or shorter than
   * 16 characters: 403); it passes exactly when both checks do.
   */
  function VerifyAntibot(ua: Option<string>, fingerprint: Option<string>): (r: Outcome<HttpError>)
    ensures r == Pass <==> Present(ua) && BrowserLike(ua.value)
                           && fingerprint.Some? && |fingerprint.value| >= MIN_FINGERPRINT_LENGTH
    ensures !(Present(ua) && BrowserLike(ua.value)) ==> r == Fail(BAD_CLIENT)
    ensures Present(ua) && BrowserLike(ua.value) && r.Fail? ==> r == Fail(BAD_FINGERPRINT)
    ensures r.Fail? ==> r.error.status == 403
  {
    if !Present(ua) || !BrowserLike(ua.value) then Fail(BAD_CLIENT)
    else if !Present(fingerprint) || |fingerprint.value| < MIN_FINGERPRINT_LENGTH then Fail(BAD_FINGERPRINT)
    else Pass
  }

  /** Any User-Agent that contains a browser word, in any letter case, passes the first check. */
  lemma BrowserWordAccepted(before: string, word: string, after: string, j: nat)
    requires j < |BROWSER_WORDS|
    requires |word| == |BROWSER_WORDS[j]|
    requires forall k :: 0 <= k < |word| ==> LowerChar(word[k]) == BROWSER_WORDS[j][k]
    ensures BrowserLike(before + word + after)
  {
    var s := before + word + after;
    assert OccursAt(s, |before|, BROWSER_WORDS[j]) by {
      forall k | 0 <= k < |word|
        ensures MatchesIgnoreCase(s[|before| + k], BROWSER_WORDS[j][k])
      {
        assert s[|before| + k] == word[k];
      }
    }
    SearchFindsOccurrence(s, BROWSER_WORDS[j]);
  }

  /** A typical browser User-Agent with a long enough fingerprint is let through. */
  lemma TypicalBrowserPasses(rest: string, fingerprint: string)
    requires |fingerprint| >= MIN_FINGERPRINT_LENGTH
    ensures VerifyAntibot(Some("Mozilla/5.0 " + rest), Some(fingerprint)) == Pass
  {
    assert "Mozilla/5.0 " + rest == "" + "Mozilla" + ("/5.0 " + rest);
    BrowserWordAccepted("", "Mozilla", "/5.0 " + rest, 0);
  }

  /** A User-Agent with no letter at all, such as a bare version string, is refused as a client. */
  lemma LetterlessAgentRefused(ua: string, fingerprint: Option<string>)
    requires forall k :: 0 <= k < |ua| ==> !('a' <= ua[k] <= 'z') && !('A' <= ua[k] <= 'Z') && ua[k] as int < 128
    ensures VerifyAntibot(Some(ua), fingerprint) == Fail(BAD_CLIENT)
  {
    forall j | 0 <= j < |BROWSER_WORDS|
      ensures !Search(ua, BROWSER_WORDS[j])
    {
      var w := BROWSER_WORDS[j];
      assert |w| > 0 && 'a' <= w[0] <= 'z';
      forall i | 0 <= i && i + |w| <= |ua|
        ensures !OccursAt(ua, i, w)
      {
        assert !MatchesIgnoreCase(ua[i], w[0]);
      }
      SearchFindsOccurrence(ua, w);
    }
  }
}
