/** Order and uniqueness facts about sequences that the protocol proofs rest on. */
module Sequences {
  ghost predicate NoDup<T(!new)>(s: seq<T>) {
    forall i, j :: 0 <= i < j < |s| ==> s[i] != s[j]
  }

  lemma NoDupAppend<T(!new)>(s: seq<T>, x: T)
    requires NoDup(s) && x !in s
    ensures NoDup(s + [x])
  {
  }

  lemma NoDupTail<T(!new)>(s: seq<T>, x: T)
    requires NoDup([x] + s)
    ensures NoDup(s) && x !in s
  {
    var whole := [x] + s;
    assert whole[0] == x;
    assert forall i :: 0 <= i < |s| ==> s[i] == whole[i + 1];
  }

  /** `at` lists, in increasing order, the positions of `t` at which the items of `s` occur. */
  ghost predicate Embeds<T(!new)>(s: seq<T>, t: seq<T>, at: seq<nat>) {
    && |at| == |s|
    && (forall i :: 0 <= i < |at| ==> at[i] < |t| && t[at[i]] == s[i])
    && (forall i, j :: 0 <= i < j < |at| ==> at[i] < at[j])
  }

  ghost predicate Subsequence<T(!new)>(s: seq<T>, t: seq<T>) {
    exists at :: Embeds(s, t, at)
  }

  lemma SubsequenceEmpty<T(!new)>(t: seq<T>)
    ensures Subsequence([], t)
  {
    assert Embeds([], t, []);
  }

  lemma SubsequenceGrow<T(!new)>(s: seq<T>, t: seq<T>, x: T)
    requires Subsequence(s, t)
    ensures Subsequence(s, t + [x])
  {
    var at :| Embeds(s, t, at);
    assert Embeds(s, t + [x], at);
  }

  lemma SubsequenceBoth<T(!new)>(s: seq<T>, t: seq<T>, x: T)
    requires Subsequence(s, t)
    ensures Subsequence(s + [x], t + [x])
  {
    var at: seq<nat> :| Embeds(s, t, at);
    assert Embeds(s + [x], t + [x], at + [|t|]);
  }

  lemma SubsequenceMember<T(!new)>(s: seq<T>, t: seq<T>, x: T)
    requires Subsequence(s, t) && x in s
    ensures x in t
  {
    var at :| Embeds(s, t, at);
    var i :| 0 <= i < |s| && s[i] == x;
    assert t[at[i]] == x;
  }

  /** Two views of one duplicate-free log never disagree about the order of two items. */
  lemma SubsequencesAgree<T(!new)>(s: seq<T>, s': seq<T>, t: seq<T>, i: nat, j: nat, i': nat, j': nat)
    requires Subsequence(s, t) && Subsequence(s', t) && NoDup(t)
    requires i < j < |s| && i' < |s'| && j' < |s'|
    requires s[i] == s'[i'] && s[j] == s'[j']
    ensures i' < j'
  {
    var at :| Embeds(s, t, at);
    var at' :| Embeds(s', t, at');
    assert at[i] == at'[i'] by { assert t[at[i]] == t[at'[i']]; }
    assert at[j] == at'[j'] by { assert t[at[j]] == t[at'[j']]; }
    assert at[i] < at[j];
  }

  ghost predicate Suffix<T(!new)>(s: seq<T>, t: seq<T>) {
    |s| <= |t| && t[|t| - |s|..] == s
  }

  lemma SuffixAppend<T(!new)>(s: seq<T>, t: seq<T>, x: seq<T>)
    requires Suffix(s, t)
    ensures Suffix(s + x, t + x)
  {
  }

  lemma SuffixDrop<T(!new)>(x: seq<T>, s: seq<T>, t: seq<T>)
    requires Suffix(x + s, t)
    ensures Suffix(s, t)
  {
    var n := |t| - |x + s|;
    assert t[n + |x|..] == t[n..][|x|..];
  }

  ghost predicate StretchAt<T(!new)>(s: seq<T>, t: seq<T>, i: int) {
    0 <= i <= |t| - |s| && t[i..i + |s|] == s
  }

  /** `s` is an unbroken stretch of `t`. */
  ghost predicate Infix<T(!new)>(s: seq<T>, t: seq<T>) {
    exists i :: StretchAt(s, t, i)
  }

  lemma SuffixInfix<T(!new)>(s: seq<T>, x: seq<T>, t: seq<T>)
    requires Suffix(s + x, t)
    ensures Infix(s, t)
  {
    var n := |t| - |s + x|;
    assert t[n..n + |s|] == t[n..][..|s|];
    assert StretchAt(s, t, n);
  }
}
