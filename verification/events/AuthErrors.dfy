/** Which failed turns the Go client takes for authentication failures. */
module AuthErrors {
  const ANTHROPIC := "anthropic-messages"
  const CODES := ["auth_required", "auth_expired", "auth_refresh_failed"]
  const MARKERS := ["authentication required", "401", "403", "unauthorized", "forbidden"]
  const ANTHROPIC_MARKERS := ["authentication_error", "permission_error", "invalid api key"]

  /** Lower case, as far as it can matter: apart from the capitals, the dotted capital I and the
      Kelvin sign are the only characters whose lower case is one of the letters searched for. */
  function LowerChar(c: char): char {
    if 'A' <= c <= 'Z' then (c as int + 32) as char
    else if c == '\U{0130}' then 'i'
    else if c == '\U{212A}' then 'k'
    else c
  }

  function Lower(s: string): (l: string)
    ensures |l| == |s| && forall i :: 0 <= i < |s| ==> l[i] == LowerChar(s[i])
  {
    seq(|s|, i requires 0 <= i < |s| => LowerChar(s[i]))
  }

  predicate Occurs(needle: string, s: string, i: nat) {
    i + |needle| <= |s| && s[i..i + |needle|] == needle
  }

  predicate Contains(s: string, needle: string) {
    exists i :: 0 <= i <= |s| && Occurs(needle, s, i)
  }

  predicate ContainsAny(s: string, needles: seq<string>) {
    exists k :: 0 <= k < |needles| && Contains(s, needles[k])
  }

  /** The message alone tells. */
  predicate IsMarked(message: string) {
    Lower(message) in CODES || ContainsAny(Lower(message), MARKERS)
  }

  /** The message tells if it comes from Anthropic's interface. */
  predicate IsAnthropicMarked(message: string) {
    ContainsAny(Lower(message), ANTHROPIC_MARKERS)
  }

  predicate IsAuthFailureMessage(message: string, api: string) {
    message != "" && (IsMarked(message) || (api == ANTHROPIC && IsAnthropicMarked(message)))
  }

  /** A failed turn whose failure is one of authentication. */
  predicate IsAuthFailure(stop: string, message: string, api: string) {
    stop == "error" && IsAuthFailureMessage(message, api)
  }

  lemma LacksFirst(s: string, needle: string)
    requires needle != "" && forall i :: 0 <= i < |s| ==> s[i] != needle[0]
    ensures !Contains(s, needle)
  {
    forall i | 0 <= i <= |s| ensures !Occurs(needle, s, i) {
      if i + |needle| <= |s| {
        assert s[i..i + |needle|][0] == s[i];
      }
    }
  }

  const DENIED := "permission_error"

  /** A message that tells of Anthropic's interface only. */
  lemma DeniedIsAnthropics()
    ensures DENIED != "" && IsAnthropicMarked(DENIED) && !IsMarked(DENIED)
  {
    assert Lower(DENIED) == DENIED;
    assert Occurs(ANTHROPIC_MARKERS[1], DENIED, 0);
    assert Contains(DENIED, ANTHROPIC_MARKERS[1]);
    forall k | 0 <= k < |MARKERS| ensures !Contains(DENIED, MARKERS[k]) {
      LacksFirst(DENIED, MARKERS[k]);
    }
  }
}
