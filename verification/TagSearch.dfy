/** Finding a tag in a text, and a tag that may have begun at the end of a text. */
module TagSearch {
  /** The tag stands at position `i`. */
  predicate OccursAt(s: string, tag: string, i: int) {
    0 <= i && i + |tag| <= |s| && s[i..i + |tag|] == tag
  }

  /** The first position of the tag, or -1. */
  function IndexOf(s: string, tag: string): (i: int)
    ensures i < 0 ==> i == -1 && forall j :: !OccursAt(s, tag, j)
    ensures i >= 0 ==> OccursAt(s, tag, i) && forall j :: 0 <= j < i ==> !OccursAt(s, tag, j)
  {
    if |s| < |tag| then -1
    else if s[..|tag|] == tag then 0
    else if s == [] then -1
    else
      var r := IndexOf(s[1..], tag);
      assert forall j :: OccursAt(s, tag, j) ==> j > 0 && OccursAt(s[1..], tag, j - 1);
      if r < 0 then -1 else r + 1
  }

  predicate Contains(s: string, tag: string) { IndexOf(s, tag) >= 0 }

  /** The last `i` characters of the text are the first `i` of the tag. */
  predicate EndsWithStart(s: string, tag: string, i: int) {
    0 <= i <= |tag| && i <= |s| && s[|s| - i..] == tag[..i]
  }

  /** The longest overlap between a suffix of the text and a prefix of the tag. */
  function Overlap(s: string, tag: string): (n: nat)
    ensures EndsWithStart(s, tag, n) && forall k :: n < k ==> !EndsWithStart(s, tag, k)
  {
    OverlapFrom(s, tag, if |tag| < |s| then |tag| else |s|)
  }

  function OverlapFrom(s: string, tag: string, i: nat): (n: nat)
    requires i <= |tag| && i <= |s|
    ensures n <= i && EndsWithStart(s, tag, n) && forall k :: n < k <= i ==> !EndsWithStart(s, tag, k)
  {
    if i == 0 || s[|s| - i..] == tag[..i] then i else OverlapFrom(s, tag, i - 1)
  }

  lemma {:induction false} InsideText(s: string, tag: string, more: string, j: int)
    requires j + |tag| <= |s|
    ensures OccursAt(s + more, tag, j) <==> OccursAt(s, tag, j)
  {
    if 0 <= j { assert (s + more)[j..j + |tag|] == s[j..j + |tag|]; }
  }

  /** More text does not move the first occurrence. */
  lemma {:induction false} IndexStays(s: string, tag: string, more: string)
    requires Contains(s, tag)
    ensures IndexOf(s + more, tag) == IndexOf(s, tag)
  {
    var i := IndexOf(s, tag);
    InsideText(s, tag, more, i);
    forall j | 0 <= j < i ensures !OccursAt(s + more, tag, j) {
      InsideText(s, tag, more, j);
    }
  }

  lemma {:induction false} StraddlingTag(s: string, tag: string, more: string, j: int)
    requires OccursAt(s + more, tag, j) && j < |s| < j + |tag|
    ensures EndsWithStart(s, tag, |s| - j)
  {
    assert s[j..] == (s + more)[j..j + |tag|][..|s| - j] == tag[..|s| - j];
  }

  lemma {:induction false} StraddlingStart(s: string, tag: string, more: string, j: int)
    requires 0 <= j < |s| && EndsWithStart(s + more, tag, |s + more| - j)
    ensures EndsWithStart(s, tag, |s| - j)
  {
    assert s[j..] == (s + more)[j..][..|s| - j] == tag[..|s + more| - j][..|s| - j] == tag[..|s| - j];
  }

  /** The text before the longest overlap can never begin the tag, whatever follows. */
  lemma {:induction false} BeforeOverlap(s: string, tag: string, more: string, j: int)
    requires !Contains(s, tag) && tag != [] && 0 <= j < |s| - Overlap(s, tag)
    ensures !OccursAt(s + more, tag, j)
    ensures !EndsWithStart(s + more, tag, |s + more| - j)
  {
    if j + |tag| <= |s| {
      InsideText(s, tag, more, j);
    } else if OccursAt(s + more, tag, j) {
      StraddlingTag(s, tag, more, j);
    }
    if EndsWithStart(s + more, tag, |s + more| - j) {
      StraddlingStart(s, tag, more, j);
    }
  }

  /** What stays in the buffer when the text before the longest overlap is given away. */
  function Kept(s: string, tag: string): string { s[|s| - Overlap(s, tag)..] }

  function Given(s: string, tag: string): string { s[..|s| - Overlap(s, tag)] }

  lemma {:induction false} KeptOccurs(s: string, tag: string, more: string, j: int)
    requires !Contains(s, tag) && tag != []
    ensures OccursAt(s + more, tag, j) <==> OccursAt(Kept(s, tag) + more, tag, j - |Given(s, tag)|)
  {
    var p, z, kept := |Given(s, tag)|, s + more, Kept(s, tag) + more;
    if 0 <= j < p {
      BeforeOverlap(s, tag, more, j);
    } else if j >= p && j + |tag| <= |z| {
      assert z[j..j + |tag|] == kept[j - p..j - p + |tag|];
    }
  }

  lemma {:induction false} KeptStarts(s: string, tag: string, more: string, k: int)
    requires !Contains(s, tag) && tag != []
    ensures EndsWithStart(s + more, tag, k) <==> EndsWithStart(Kept(s, tag) + more, tag, k)
  {
    var z, kept := s + more, Kept(s, tag) + more;
    if 0 <= k <= |kept| {
      assert z[|z| - k..] == kept[|kept| - k..];
    } else if |kept| < k <= |z| {
      BeforeOverlap(s, tag, more, |z| - k);
    }
  }

  /** So text can be given away: the search goes on in what is kept, with the same result. */
  lemma {:induction false} KeptIndex(s: string, tag: string, more: string)
    requires !Contains(s, tag) && tag != []
    ensures Contains(s + more, tag) <==> Contains(Kept(s, tag) + more, tag)
    ensures Contains(s + more, tag) ==> IndexOf(s + more, tag) == |Given(s, tag)| + IndexOf(Kept(s, tag) + more, tag)
  {
    var p, kept := |Given(s, tag)|, Kept(s, tag) + more;
    KeptOccurs(s, tag, more, IndexOf(s + more, tag));
    KeptOccurs(s, tag, more, p + IndexOf(kept, tag));
  }

  lemma {:induction false} KeptOverlap(s: string, tag: string, more: string)
    requires !Contains(s, tag) && tag != []
    ensures Overlap(s + more, tag) == Overlap(Kept(s, tag) + more, tag)
  {
    KeptStarts(s, tag, more, Overlap(s + more, tag));
    KeptStarts(s, tag, more, Overlap(Kept(s, tag) + more, tag));
  }

  // ---- tags without borders ----

  /** No proper prefix of the tag is also a suffix of it. */
  ghost predicate Borderless(tag: string) {
    forall d :: 0 < d < |tag| ==> tag[d..] != tag[..|tag| - d]
  }

  lemma {:induction false} FirstCharOnce(tag: string)
    requires forall i :: 0 < i < |tag| ==> tag[i] != tag[0]
    ensures Borderless(tag)
  {
    forall d | 0 < d < |tag| ensures tag[d..] != tag[..|tag| - d] {
      assert tag[d..][0] == tag[d];
    }
  }

  lemma {:induction false} BorderAt(text: string, tag: string, rest: string, j: int)
    requires OccursAt(text + tag + rest, tag, j) && j < |text| < j + |tag|
    ensures var d := |text| - j; tag[d..] == tag[..|tag| - d]
  {
    var s, d := text + tag + rest, |text| - j;
    assert tag[d..] == s[j..j + |tag|][d..] == s[|text|..j + |tag|] == tag[..|tag| - d];
  }

  /** A text without the tag, then the tag: the tag is found right after the text. */
  lemma {:induction false} FoundAfter(text: string, tag: string, rest: string)
    requires Borderless(tag) && tag != [] && !Contains(text, tag)
    ensures IndexOf(text + tag + rest, tag) == |text|
  {
    var s := text + tag + rest;
    assert s[|text|..|text| + |tag|] == tag;
    assert OccursAt(s, tag, |text|);
    forall j | 0 <= j < |text| ensures !OccursAt(s, tag, j) {
      if j + |tag| <= |text| {
        assert s == text + (tag + rest);
        InsideText(text, tag, tag + rest, j);
      } else if OccursAt(s, tag, j) {
        BorderAt(text, tag, rest, j);
      }
    }
  }
}
