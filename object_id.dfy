/**
 The identifier check made by the update and the delete handler before they touch the store:
 the request's `_id` must match the anchored regular expression `^[0-9a-fA-F]{24}$`, the text
 form of a MongoDB ObjectId.
 */
module ObjectId {

  /** Number of hex digits in the text form of an ObjectId. */
  const IdLength: nat := 24

  /** The character class `[0-9a-fA-F]`. */
  predicate IsHexDigit(c: char) {
    ('0' <= c <= '9') || ('a' <= c <= 'f') || ('A' <= c <= 'F')
  }

  /** What the pattern means: exactly 24 characters, every one of them a hex digit. */
  predicate IsObjectId(s: string) {
    |s| == IdLength && forall i :: 0 <= i < |s| ==> IsHexDigit(s[i])
  }

  /** The pattern `[0-9a-fA-F]{n}$` matched at the front of `s` one class at a time,
      the way a backtracking engine runs the repetition and then the end anchor. */
  predicate MatchesHexRun(s: string, n: nat)
    decreases n
  {
    if n == 0 then s == []
    else |s| > 0 && IsHexDigit(s[0]) && MatchesHexRun(s[1..], n - 1)
  }

  /** `s.match(/^[0-9a-fA-F]{24}$/)` is truthy. */
  predicate MatchesPattern(s: string) {
    MatchesHexRun(s, IdLength)
  }

  /** Running the repetition n times accepts exactly the n-digit hex strings. */
  lemma {:induction false} HexRunIff(s: string, n: nat)
    ensures MatchesHexRun(s, n) <==> |s| == n && forall i :: 0 <= i < |s| ==> IsHexDigit(s[i])
    decreases n
  {
    if n > 0 && |s| > 0 {
      HexRunIff(s[1..], n - 1);
      if |s| == n && forall i :: 0 <= i < |s| ==> IsHexDigit(s[i]) {
        assert forall i :: 0 <= i < |s[1..]| ==> IsHexDigit(s[1..][i]) by {
          forall i | 0 <= i < |s[1..]| ensures IsHexDigit(s[1..][i]) {
            assert s[1..][i] == s[i + 1];
          }
        }
      }
      if MatchesHexRun(s, n) {
        forall i | 0 <= i < |s| ensures IsHexDigit(s[i]) {
          if i > 0 {
            assert s[i] == s[1..][i - 1];
          }
        }
      }
    }
  }

  /** The regular expression accepts a string iff it is 24 characters long and all of them are hex digits. */
  lemma PatternIsObjectId(s: string)
    ensures MatchesPattern(s) <==> IsObjectId(s)
  {
    HexRunIff(s, IdLength);
  }
}
