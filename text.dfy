/** The string operations the search boxes use: `toLowerCase`, taken over the
    ASCII letters only, and `includes`. */
module Text {

  /** Maps 'A'..'Z' to 'a'..'z' and leaves every other character alone. */
  function LowerChar(c: char): char
  {
    if 'A' <= c <= 'Z' then (c as int - 'A' as int + 'a' as int) as char else c
  }

  /** `toLowerCase`, character by character. */
  function Lower(s: string): (r: string)
    ensures |r| == |s|
    ensures forall i :: 0 <= i < |s| ==> r[i] == LowerChar(s[i])
  {
    seq(|s|, i requires 0 <= i < |s| => LowerChar(s[i]))
  }

  /** `query` occurs in `text` starting at position `k`. */
  predicate OccursAt(text: string, query: string, k: int)
  {
    0 <= k && k + |query| <= |text| && text[k..k + |query|] == query
  }

  /** `includes`: `query` occurs in `text` as a contiguous block. The empty
      query occurs in every text, so an empty search box hides nothing; a
      text contains itself; a query longer than the text never occurs. */
  function Includes(text: string, query: string): (r: bool)
    ensures |query| == 0 ==> r
    ensures text == query ==> r
    ensures r ==> |query| <= |text|
  {
    assert |query| == 0 ==> OccursAt(text, query, 0);
    assert text == query ==> OccursAt(text, query, 0);
    exists k :: 0 <= k <= |text| - |query| && OccursAt(text, query, k)
  }
}
