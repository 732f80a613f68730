/** Small vocabulary shared by every component: optional values and the outcome of a
    remote write. */
module Common {

  datatype Option<+T> = None | Some(value: T)

  /** What a remote write reports against what it did. A client that sees an error cannot
      tell whether the write took effect, so a failed write may or may not have landed. */
  datatype Io = Acked | LostReply | Dropped
  {
    /** The write took effect. */
    predicate Landed() { Acked? || LostReply? }
  }

  /** No value occurs twice. */
  ghost predicate NoDup<T>(s: seq<T>) {
    forall i, j :: 0 <= i < j < |s| ==> s[i] != s[j]
  }

  /** A value at two places of a list occurs at least twice. */
  lemma TwiceCounts<T>(s: seq<T>, i: nat, j: nat)
    requires i < j < |s| && s[i] == s[j]
    ensures multiset(s)[s[i]] >= 2
  {
    assert s == s[..j] + s[j..];
    assert s[i] in s[..j] && s[j] in s[j..];
  }
}
