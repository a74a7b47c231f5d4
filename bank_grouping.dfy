// The channel-to-bank assignment that PIOS_Servo_Init computes, as a pure
// specification: channels that share a timer form one bank, and banks are
// numbered from 0 in the order in which their timer first appears.

module BankGrouping {

  ghost predicate Distinct<T>(s: seq<T>) {
    forall i, j :: 0 <= i < j < |s| ==> s[i] != s[j]
  }

  /** The distinct elements among the first `k` of `s`, in the order of their first occurrence. */
  function Seen<T(==)>(s: seq<T>, k: nat): (r: seq<T>)
    requires k <= |s|
    ensures |r| <= k
  {
    if k == 0 then []
    else
      var p := Seen(s, k - 1);
      if s[k - 1] in p then p else p + [s[k - 1]]
  }

  lemma {:induction false} SeenDistinct<T>(s: seq<T>, k: nat)
    requires k <= |s|
    ensures Distinct(Seen(s, k))
  {
    if k > 0 {
      SeenDistinct(s, k - 1);
    }
  }

  /** Each of the first `k` elements is among the distinct ones. */
  lemma {:induction false} SeenCovers<T>(s: seq<T>, k: nat)
    requires k <= |s|
    ensures forall j :: 0 <= j < k ==> s[j] in Seen(s, k)
  {
    if k > 0 {
      SeenCovers(s, k - 1);
    }
  }

  /** Each distinct element is one of the first `k`. */
  lemma {:induction false} SeenOccurs<T>(s: seq<T>, k: nat, b: nat)
    requires k <= |s| && b < |Seen(s, k)|
    ensures Seen(s, k)[b] in s[..k]
  {
    var p := Seen(s, k - 1);
    if b < |p| {
      SeenOccurs(s, k - 1, b);
      var j :| 0 <= j < k - 1 && s[..k - 1][j] == p[b];
      assert s[..k][j] == p[b];
    } else {
      assert s[..k][k - 1] == s[k - 1];
    }
  }

  lemma SeenMembers<T>(s: seq<T>, k: nat, x: T)
    requires k <= |s|
    ensures x in Seen(s, k) <==> x in s[..k]
  {
    if x in Seen(s, k) {
      SeenOccurs(s, k, IndexOf(Seen(s, k), x));
    }
    if x in s[..k] {
      SeenCovers(s, k);
      var j :| 0 <= j < k && s[..k][j] == x;
      assert s[j] == x;
    }
  }

  /** Looking at more elements never loses a distinct one. */
  lemma {:induction false} SeenGrows<T>(s: seq<T>, k: nat, m: nat)
    requires k <= m <= |s|
    ensures |Seen(s, k)| <= |Seen(s, m)|
  {
    if k < m {
      SeenGrows(s, k, m - 1);
    }
  }

  /** The distinct elements of a shorter prefix come first, in the same order. */
  lemma {:induction false} SeenPrefix<T>(s: seq<T>, k: nat, m: nat)
    requires k <= m <= |s|
    ensures |Seen(s, k)| <= |Seen(s, m)|
    ensures Seen(s, m)[..|Seen(s, k)|] == Seen(s, k)
  {
    if k < m {
      SeenPrefix(s, k, m - 1);
      var p := Seen(s, m - 1);
      assert (p + [s[m - 1]])[..|Seen(s, k)|] == p[..|Seen(s, k)|];
    }
  }

  /** The distinct elements of `s`, in the order of their first occurrence. */
  function FirstSeen<T(==)>(s: seq<T>): (r: seq<T>)
    ensures forall i :: 0 <= i < |s| ==> s[i] in r
    ensures |r| <= |s|
  {
    SeenCovers(s, |s|);
    Seen(s, |s|)
  }

  /** No element is listed twice. */
  lemma FirstSeenDistinct<T>(s: seq<T>)
    ensures Distinct(FirstSeen(s))
  {
    SeenDistinct(s, |s|);
  }

  /** Every distinct element is the element of some position. */
  lemma FirstSeenOccurs<T>(s: seq<T>, k: nat)
    requires k < |FirstSeen(s)|
    ensures FirstSeen(s)[k] in s
  {
    SeenOccurs(s, |s|, k);
    assert s[..|s|] == s;
  }

  lemma FirstSeenMembers<T>(s: seq<T>, x: T)
    ensures x in FirstSeen(s) <==> x in s
  {
    if x in FirstSeen(s) {
      FirstSeenOccurs(s, IndexOf(FirstSeen(s), x));
    }
  }

  /** The position of the first `x` in `r`. */
  function IndexOf<T(==)>(r: seq<T>, x: T): (k: nat)
    requires x in r
    ensures k < |r| && r[k] == x
    ensures forall j :: 0 <= j < k ==> r[j] != x
  {
    IndexFrom(r, x, 0)
  }

  /** The position of the first `x` in `r`, searching from `i` on (no `x` comes before `i`). */
  function IndexFrom<T(==)>(r: seq<T>, x: T, i: nat): (k: nat)
    requires i <= |r| && x in r
    requires forall j :: 0 <= j < i ==> r[j] != x
    ensures i <= k < |r| && r[k] == x
    ensures forall j :: 0 <= j < k ==> r[j] != x
    decreases |r| - i
  {
    if r[i] == x then i else IndexFrom(r, x, i + 1)
  }

  /** The bank of channel `i`: the rank of its timer among the distinct timers, by first occurrence. */
  function BankOf<T(==)>(s: seq<T>, i: nat): (b: nat)
    requires i < |s|
    ensures b < |FirstSeen(s)| && FirstSeen(s)[b] == s[i]
  {
    IndexOf(FirstSeen(s), s[i])
  }

  /** The first position of `x` is the only position with `x` and no `x` before it. */
  lemma IndexOfUnique<T>(r: seq<T>, x: T, k: nat)
    requires k < |r| && r[k] == x
    requires forall j :: 0 <= j < k ==> r[j] != x
    ensures IndexOf(r, x) == k
  {
  }

  /** Appending an element leaves the positions of the elements already present unchanged. */
  lemma IndexOfAppend<T>(p: seq<T>, y: T, x: T)
    requires x in p + [y]
    ensures x in p ==> IndexOf(p + [y], x) == IndexOf(p, x)
    ensures x !in p ==> IndexOf(p + [y], x) == |p|
  {
    var q := p + [y];
    if x in p {
      IndexOfUnique(q, x, IndexOf(p, x));
    } else {
      IndexOfUnique(q, x, |p|);
    }
  }

  /**
   * Banks are numbered consecutively from 0 in first-seen order: the first channel on
   * a timer gets the next unused bank id, a later channel on it an id already issued.
   */
  lemma {:induction false} BankAssignment<T>(s: seq<T>, i: nat)
    requires i < |s|
    ensures s[i] !in s[..i] ==> BankOf(s, i) == |Seen(s, i)|
    ensures s[i] in s[..i] ==> BankOf(s, i) < |Seen(s, i)|
  {
    var p := Seen(s, i);
    SeenMembers(s, i, s[i]);
    SeenPrefix(s, i + 1, |s|);
    var q := Seen(s, i + 1);
    var r := FirstSeen(s);
    assert r[..|q|] == q;
    if s[i] in s[..i] {
      var k := IndexOf(p, s[i]);
      assert r[k] == s[i];
      IndexOfUnique(r, s[i], k);
    } else {
      assert q == p + [s[i]];
      assert r[|p|] == s[i];
      IndexOfUnique(r, s[i], |p|);
    }
  }

  /** Two channels share a bank exactly when they share a timer. */
  lemma SameBankIffSameTimer<T>(s: seq<T>, i: nat, j: nat)
    requires i < |s| && j < |s|
    ensures BankOf(s, i) == BankOf(s, j) <==> s[i] == s[j]
  {
  }

  /** Every bank id below the number of distinct timers is the bank of some channel. */
  lemma EveryBankUsed<T>(s: seq<T>, b: nat)
    requires b < |FirstSeen(s)|
    ensures exists i :: 0 <= i < |s| && BankOf(s, i) == b
  {
    var x := FirstSeen(s)[b];
    FirstSeenOccurs(s, b);
    var i :| 0 <= i < |s| && s[i] == x;
    FirstSeenDistinct(s);
    IndexOfUnique(FirstSeen(s), x, b);
    assert BankOf(s, i) == b;
  }
}
