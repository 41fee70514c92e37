/** The rolling conversation summary: the tail of the previous summary
    followed by the latest user and assistant lines, kept bounded. */
module Summarizer {
  import opened PyValues

  const KeepPrevious := 600
  const MaxSummary := 800

  /** `s[-n:]` */
  function LastN(s: string, n: nat): (r: string)
    ensures |r| == if |s| <= n then |s| else n
    ensures r == s[|s| - |r|..]
  {
    if |s| <= n then s else s[|s| - n..]
  }

  predicate IsSuffix(t: string, s: string) {
    |t| <= |s| && s[|s| - |t|..] == t
  }

  /** The summary before truncation. */
  function Appended(prev: Option<string>, user: string, assistant: string): string {
    var keep := LastN(if prev.Some? then prev.value else "", KeepPrevious);
    keep + "\nU:" + user + "\nA:" + assistant
  }

  /** `update_summary`; a missing previous summary counts as "". */
  function UpdateSummary(prev: Option<string>, user: string, assistant: string): (r: string)
    ensures |r| <= MaxSummary
    ensures IsSuffix(r, Appended(prev, user, assistant))
  {
    var a := Appended(prev, user, assistant);
    var r := LastN(a, MaxSummary);
    assert r == a[|a| - |r|..];
    r
  }

  lemma AppendedEndsWith(prev: Option<string>, user: string, assistant: string)
    ensures IsSuffix("\nA:" + assistant, Appended(prev, user, assistant))
  {
    var keep := LastN(if prev.Some? then prev.value else "", KeepPrevious);
    var front := keep + "\nU:" + user;
    var t := "\nA:" + assistant;
    assert Appended(prev, user, assistant) == front + t;
  }

  /** The latest assistant line survives whenever it fits. */
  lemma EndsWithAssistant(prev: Option<string>, user: string, assistant: string)
    requires |assistant| + 3 <= MaxSummary
    ensures IsSuffix("\nA:" + assistant, UpdateSummary(prev, user, assistant))
  {
    var t := "\nA:" + assistant;
    AppendedEndsWith(prev, user, assistant);
    SummaryIsTail(prev, user, assistant);
    SuffixKept(t, Appended(prev, user, assistant), MaxSummary);
  }

  lemma SummaryIsTail(prev: Option<string>, user: string, assistant: string)
    ensures UpdateSummary(prev, user, assistant) == LastN(Appended(prev, user, assistant), MaxSummary)
  {
  }

  /** A suffix no longer than `n` survives keeping the last `n`. */
  lemma SuffixKept(t: string, a: string, n: nat)
    requires IsSuffix(t, a) && |t| <= n
    ensures IsSuffix(t, LastN(a, n))
  {
    var r := LastN(a, n);
    assert r[|r| - |t|..] == a[|a| - |t|..];
  }

  /** Nothing older than the last 600 characters of the previous summary
      survives: whatever of it is kept is a suffix of those 600 characters. */
  lemma OldTextBounded(prev: string, user: string, assistant: string)
    ensures var r := UpdateSummary(Some(prev), user, assistant);
      var tail := "\nU:" + user + "\nA:" + assistant;
      |r| <= |tail| ==> IsSuffix(r, tail)
    ensures var r := UpdateSummary(Some(prev), user, assistant);
      var tail := "\nU:" + user + "\nA:" + assistant;
      |r| > |tail| ==> r == r[..|r| - |tail|] + tail && IsSuffix(r[..|r| - |tail|], LastN(prev, KeepPrevious))
  {
    var keep := LastN(prev, KeepPrevious);
    var tail := "\nU:" + user + "\nA:" + assistant;
    var a := Appended(Some(prev), user, assistant);
    var r := UpdateSummary(Some(prev), user, assistant);
    assert a == keep + tail;
    assert r == a[|a| - |r|..];
    SuffixSplit(keep, tail, r);
  }

  /** A suffix of `keep + tail` is a suffix of `tail`, or a suffix of
      `keep` followed by all of `tail`. */
  lemma SuffixSplit(keep: string, tail: string, r: string)
    requires |r| <= |keep + tail| && r == (keep + tail)[|keep + tail| - |r|..]
    ensures |r| <= |tail| ==> IsSuffix(r, tail)
    ensures |r| > |tail| ==> r == r[..|r| - |tail|] + tail && IsSuffix(r[..|r| - |tail|], keep)
  {
    var a := keep + tail;
    if |r| <= |tail| {
      assert a[|a| - |r|..] == tail[|tail| - |r|..];
    } else {
      var m := |r| - |tail|;
      assert r[..m] == keep[|keep| - m..];
      assert r[m..] == tail;
    }
  }

  /** When everything fits nothing is cut. */
  lemma ShortSummaryKept(prev: Option<string>, user: string, assistant: string)
    requires |Appended(prev, user, assistant)| <= MaxSummary
    ensures UpdateSummary(prev, user, assistant) == Appended(prev, user, assistant)
  {
  }

  /** A missing previous summary behaves as an empty one. */
  lemma MissingPrevIsEmpty(user: string, assistant: string)
    ensures UpdateSummary(None, user, assistant) == UpdateSummary(Some(""), user, assistant)
  {
  }
}
