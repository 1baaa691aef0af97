/**
 * The address space: how the writer builds addresses by concatenating a
 * prefix, a 1-based slot number and a leaf name, and the facts that make
 * distinct entities land on distinct addresses.
 */
module OscAddress {
  import opened Decimal
  import opened OscValues

  /** Puts `p` in front of every address: the source's `prefix + "leaf"`. */
  function Prefixed(p: string, ms: seq<Message>): (r: seq<Message>)
    ensures |r| == |ms|
    ensures forall k :: 0 <= k < |ms| ==> r[k].address == p + ms[k].address && r[k].value == ms[k].value
  {
    seq(|ms|, k requires 0 <= k < |ms| => Message(p + ms[k].address, ms[k].value))
  }

  /** The prefix of slot `n` under `base`: `base + n + "/"`, as in `"/track/" + (i + 1) + "/"`. */
  function Slot(base: string, n: nat): string {
    base + NatToString(n) + "/"
  }

  /**
   * An indexed family (the tracks of a bank, the sends of a track, ...):
   * group i is published under Slot(base, first + i), in index order.
   */
  function Indexed(base: string, groups: seq<seq<Message>>, first: nat): seq<Message>
    decreases |groups|
  {
    if groups == [] then []
    else
      var n := |groups| - 1;
      Indexed(base, groups[..n], first) + Prefixed(Slot(base, first + n), groups[n])
  }

  /** Indexed, with its last group taken off. */
  lemma IndexedSnoc(base: string, groups: seq<seq<Message>>, first: nat)
    requires groups != []
    ensures Indexed(base, groups, first)
      == Indexed(base, groups[..|groups| - 1], first) + Prefixed(Slot(base, first + |groups| - 1), groups[|groups| - 1])
  {
  }

  /** No address occurs twice. */
  predicate Unique(ms: seq<Message>) {
    forall i, j :: 0 <= i < j < |ms| ==> ms[i].address != ms[j].address
  }

  /** No address of `a` occurs in `b`. */
  predicate Disjoint(a: seq<Message>, b: seq<Message>) {
    forall i, j :: 0 <= i < |a| && 0 <= j < |b| ==> a[i].address != b[j].address
  }

  /** Every address of `ms` starts with `p`. */
  predicate Under(p: string, ms: seq<Message>) {
    forall i :: 0 <= i < |ms| ==> p <= ms[i].address
  }

  /** The character at position k, or NUL past the end. */
  function At(a: string, k: nat): char {
    if k < |a| then a[k] else '\0'
  }

  /** The three characters of `a` from position k on: enough to tell the address domains apart. */
  function Head(a: string, k: nat): (char, char, char) {
    (At(a, k), At(a, k + 1), At(a, k + 2))
  }

  /** Every address of `ms` carries, from position k on, one of the heads in `hs`. */
  predicate HeadsIn(ms: seq<Message>, k: nat, hs: set<(char, char, char)>) {
    forall i :: 0 <= i < |ms| ==> Head(ms[i].address, k) in hs
  }

  /** Every address of `ms` carries a digit at position k. */
  predicate DigitAt(ms: seq<Message>, k: nat) {
    forall i :: 0 <= i < |ms| ==> IsDigit(At(ms[i].address, k))
  }

  /** The addresses of a message list, in order. */
  function Addresses(ms: seq<Message>): (r: seq<string>)
    ensures |r| == |ms|
    ensures forall i :: 0 <= i < |ms| ==> r[i] == ms[i].address
  {
    seq(|ms|, i requires 0 <= i < |ms| => ms[i].address)
  }

  predicate Distinct(xs: seq<string>) {
    forall i, j :: 0 <= i < j < |xs| ==> xs[i] != xs[j]
  }

  predicate StringHeadsIn(xs: seq<string>, k: nat, hs: set<(char, char, char)>) {
    forall i :: 0 <= i < |xs| ==> Head(xs[i], k) in hs
  }

  /** A list with a fixed, distinct address list is unique and carries that list's heads. */
  lemma FixedAddresses(ms: seq<Message>, xs: seq<string>, k: nat, hs: set<(char, char, char)>)
    requires Addresses(ms) == xs && Distinct(xs) && StringHeadsIn(xs, k, hs)
    ensures Unique(ms) && HeadsIn(ms, k, hs)
  {
  }

  // ---------------------------------------------------------------------
  // Concatenation

  lemma UniqueAppend(a: seq<Message>, b: seq<Message>)
    requires Unique(a) && Unique(b) && Disjoint(a, b)
    ensures Unique(a + b)
  {
    var c := a + b;
    forall i, j | 0 <= i < j < |c| ensures c[i].address != c[j].address {
      if j < |a| {
        assert c[i] == a[i] && c[j] == a[j];
      } else if i < |a| {
        assert c[i] == a[i] && c[j] == b[j - |a|];
      } else {
        assert c[i] == b[i - |a|] && c[j] == b[j - |a|];
      }
    }
  }

  lemma DisjointAppendLeft(a: seq<Message>, b: seq<Message>, c: seq<Message>)
    requires Disjoint(a, c) && Disjoint(b, c)
    ensures Disjoint(a + b, c)
  {
    var ab := a + b;
    forall i, j | 0 <= i < |ab| && 0 <= j < |c| ensures ab[i].address != c[j].address {
      if i < |a| { assert ab[i] == a[i]; } else { assert ab[i] == b[i - |a|]; }
    }
  }

  lemma HeadsAppend(a: seq<Message>, b: seq<Message>, k: nat, s: set<(char, char, char)>, t: set<(char, char, char)>)
    requires HeadsIn(a, k, s) && HeadsIn(b, k, t)
    ensures HeadsIn(a + b, k, s + t)
  {
    var ab := a + b;
    forall i | 0 <= i < |ab| ensures Head(ab[i].address, k) in s + t {
      if i < |a| { assert ab[i] == a[i]; } else { assert ab[i] == b[i - |a|]; }
    }
  }

  /** Two lists whose heads at position k come from disjoint sets share no address. */
  lemma HeadsDisjoint(a: seq<Message>, b: seq<Message>, k: nat, s: set<(char, char, char)>, t: set<(char, char, char)>)
    requires HeadsIn(a, k, s) && HeadsIn(b, k, t) && s !! t
    ensures Disjoint(a, b)
  {
    forall i, j | 0 <= i < |a| && 0 <= j < |b| ensures a[i].address != b[j].address {
      assert Head(a[i].address, k) in s;
      assert Head(b[j].address, k) in t;
    }
  }

  /**
   * Joins two address-unique lists whose heads at k come from disjoint sets:
   * the result is address-unique, with heads from the union.
   */
  lemma JoinUnique(a: seq<Message>, b: seq<Message>, k: nat, s: set<(char, char, char)>, t: set<(char, char, char)>)
    requires Unique(a) && Unique(b) && HeadsIn(a, k, s) && HeadsIn(b, k, t) && s !! t
    ensures Unique(a + b) && HeadsIn(a + b, k, s + t)
  {
    HeadsDisjoint(a, b, k, s, t);
    UniqueAppend(a, b);
    HeadsAppend(a, b, k, s, t);
  }

  /** A list with a digit at k shares no address with a list whose heads at k start with a non-digit. */
  lemma DigitDisjoint(a: seq<Message>, b: seq<Message>, k: nat, t: set<(char, char, char)>)
    requires DigitAt(a, k) && HeadsIn(b, k, t)
    requires forall h :: h in t ==> !IsDigit(h.0)
    ensures Disjoint(a, b)
  {
    forall i, j | 0 <= i < |a| && 0 <= j < |b| ensures a[i].address != b[j].address {
      assert IsDigit(At(a[i].address, k));
      assert Head(b[j].address, k) in t;
    }
  }

  // ---------------------------------------------------------------------
  // Prefixes

  lemma UniquePrefixed(p: string, ms: seq<Message>)
    requires Unique(ms)
    ensures Unique(Prefixed(p, ms))
  {
    var r := Prefixed(p, ms);
    forall i, j | 0 <= i < j < |r| ensures r[i].address != r[j].address {
      assert (p + ms[i].address)[|p|..] == ms[i].address;
      assert (p + ms[j].address)[|p|..] == ms[j].address;
    }
  }

  lemma DisjointPrefixed(p: string, a: seq<Message>, b: seq<Message>)
    requires Disjoint(a, b)
    ensures Disjoint(Prefixed(p, a), Prefixed(p, b))
  {
    var ra, rb := Prefixed(p, a), Prefixed(p, b);
    forall i, j | 0 <= i < |ra| && 0 <= j < |rb| ensures ra[i].address != rb[j].address {
      assert (p + a[i].address)[|p|..] == a[i].address;
      assert (p + b[j].address)[|p|..] == b[j].address;
    }
  }

  lemma PrefixedAppend(p: string, a: seq<Message>, b: seq<Message>)
    ensures Prefixed(p, a + b) == Prefixed(p, a) + Prefixed(p, b)
  {
  }

  lemma PrefixedTwice(p: string, q: string, ms: seq<Message>)
    ensures Prefixed(p, Prefixed(q, ms)) == Prefixed(p + q, ms)
  {
    var l, r := Prefixed(p, Prefixed(q, ms)), Prefixed(p + q, ms);
    forall k | 0 <= k < |ms| ensures l[k] == r[k] {
      assert p + (q + ms[k].address) == (p + q) + ms[k].address;
    }
  }

  lemma UnderPrefixed(p: string, ms: seq<Message>)
    ensures Under(p, Prefixed(p, ms))
  {
  }

  lemma HeadOfPrefixed(p: string, s: string, k: nat)
    requires k + 3 <= |p|
    ensures Head(p + s, k) == Head(p, k)
  {
  }

  /** The heads a relative list carries at 0 reappear right after any prefix. */
  lemma HeadsInPrefixed(p: string, ms: seq<Message>, hs: set<(char, char, char)>)
    requires HeadsIn(ms, 0, hs)
    ensures HeadsIn(Prefixed(p, ms), |p|, hs)
  {
    var r := Prefixed(p, ms);
    forall i | 0 <= i < |r| ensures Head(r[i].address, |p|) in hs {
      assert Head(r[i].address, |p|) == Head(ms[i].address, 0);
    }
  }

  /** A list whose addresses all start with `p` carries p's own head at any k inside `p`. */
  lemma UnderHeads(p: string, ms: seq<Message>, k: nat)
    requires Under(p, ms) && k + 3 <= |p|
    ensures HeadsIn(ms, k, {Head(p, k)})
  {
    forall i | 0 <= i < |ms| ensures Head(ms[i].address, k) == Head(p, k) {
      assert ms[i].address == p + ms[i].address[|p|..];
      HeadOfPrefixed(p, ms[i].address[|p|..], k);
    }
  }

  // ---------------------------------------------------------------------
  // Indexed families

  /** Two slot prefixes under one base never both start the same address. */
  lemma SlotPrefixFree(base: string, m: nat, n: nat, a: string)
    requires Slot(base, m) <= a && Slot(base, n) <= a
    ensures m == n
  {
    var x, y := NatToString(m), NatToString(n);
    var b := |base|;
    DigitsThenSlash(base, x, a);
    DigitsThenSlash(base, y, a);
    assert |x| == |y|;
    assert x == a[b..b + |x|] == y;
    NatToStringInjective(m, n);
  }

  /** After `base`, an address under `base + digits + "/"` holds those digits and then the slash. */
  lemma DigitsThenSlash(base: string, x: string, a: string)
    requires AllDigits(x) && base + x + "/" <= a
    ensures a[|base|..|base| + |x|] == x
    ensures forall k :: |base| <= k < |base| + |x| ==> IsDigit(At(a, k))
    ensures At(a, |base| + |x|) == '/'
  {
    var p := base + x + "/";
    assert a[..|p|] == p;
    forall k | |base| <= k < |base| + |x| ensures IsDigit(At(a, k)) {
      assert a[k] == p[k] == x[k - |base|];
    }
    assert a[|base| + |x|] == p[|base| + |x|];
    assert a[|base|..|base| + |x|] == p[|base|..|base| + |x|];
  }

  lemma {:induction false} IndexedUnder(base: string, groups: seq<seq<Message>>, first: nat)
    ensures Under(base, Indexed(base, groups, first))
    decreases |groups|
  {
    if groups != [] {
      var n := |groups| - 1;
      var l := Indexed(base, groups[..n], first);
      var r := Prefixed(Slot(base, first + n), groups[n]);
      IndexedUnder(base, groups[..n], first);
      IndexedSnoc(base, groups, first);
      forall i | 0 <= i < |r| ensures base <= r[i].address {
        assert r[i].address == base + (NatToString(first + n) + "/" + groups[n][i].address);
      }
    }
  }

  /** Right after `base`, every address of an indexed family carries a digit. */
  lemma {:induction false} IndexedDigit(base: string, groups: seq<seq<Message>>, first: nat)
    ensures DigitAt(Indexed(base, groups, first), |base|)
    decreases |groups|
  {
    if groups != [] {
      var n := |groups| - 1;
      var l := Indexed(base, groups[..n], first);
      var r := Prefixed(Slot(base, first + n), groups[n]);
      IndexedDigit(base, groups[..n], first);
      var all := Indexed(base, groups, first);
      IndexedSnoc(base, groups, first);
      forall i | 0 <= i < |all| ensures IsDigit(At(all[i].address, |base|)) {
        if i >= |l| {
          var a := all[i].address;
          assert a == base + NatToString(first + n) + "/" + groups[n][i - |l|].address;
          assert a[|base|] == NatToString(first + n)[0];
        }
      }
    }
  }

  /**
   * No address of an indexed family starts with the prefix of a slot that is
   * outside the family or whose group is empty (a null layer).
   */
  lemma {:induction false} IndexedOutsideSlot(base: string, groups: seq<seq<Message>>, first: nat, m: nat)
    requires m < first || m >= first + |groups| || groups[m - first] == []
    ensures forall i :: 0 <= i < |Indexed(base, groups, first)| ==>
      !(Slot(base, m) <= Indexed(base, groups, first)[i].address)
    decreases |groups|
  {
    if groups != [] {
      var n := |groups| - 1;
      var l := Indexed(base, groups[..n], first);
      var r := Prefixed(Slot(base, first + n), groups[n]);
      IndexedOutsideSlot(base, groups[..n], first, m);
      var all := Indexed(base, groups, first);
      IndexedSnoc(base, groups, first);
      forall i | 0 <= i < |all| ensures !(Slot(base, m) <= all[i].address) {
        if i >= |l| {
          var a := all[i].address;
          assert a == r[i - |l|].address;
          assert a == Slot(base, first + n) + groups[n][i - |l|].address;
          if Slot(base, m) <= a {
            SlotPrefixFree(base, m, first + n, a);
          }
        }
      }
    }
  }

  lemma {:induction false} IndexedUnique(base: string, groups: seq<seq<Message>>, first: nat)
    requires forall i :: 0 <= i < |groups| ==> Unique(groups[i])
    ensures Unique(Indexed(base, groups, first))
    decreases |groups|
  {
    if groups != [] {
      var n := |groups| - 1;
      var p := Slot(base, first + n);
      var l := Indexed(base, groups[..n], first);
      var r := Prefixed(p, groups[n]);
      IndexedUnique(base, groups[..n], first);
      UniquePrefixed(p, groups[n]);
      IndexedOutsideSlot(base, groups[..n], first, first + n);
      forall i, j | 0 <= i < |l| && 0 <= j < |r| ensures l[i].address != r[j].address {
        assert r[j].address == p + groups[n][j].address;
      }
      UniqueAppend(l, r);
    }
  }

  lemma {:induction false} IndexedLength(base: string, groups: seq<seq<Message>>, first: nat, size: nat)
    requires forall i :: 0 <= i < |groups| ==> |groups[i]| == size
    ensures |Indexed(base, groups, first)| == size * |groups|
    decreases |groups|
  {
    if groups != [] {
      var n := |groups| - 1;
      var init := groups[..n];
      assert forall i :: 0 <= i < |init| ==> init[i] == groups[i];
      IndexedLength(base, init, first, size);
      var l := Indexed(base, init, first);
      var r := Prefixed(Slot(base, first + n), groups[n]);
      IndexedSnoc(base, groups, first);
      assert |r| == size;
      MulStep(size, n);
    }
  }

  lemma MulStep(a: nat, n: nat)
    ensures a * n + a == a * (n + 1)
  {
  }

  lemma {:induction false} IndexedPrefixed(p: string, base: string, groups: seq<seq<Message>>, first: nat)
    ensures Prefixed(p, Indexed(base, groups, first)) == Indexed(p + base, groups, first)
    decreases |groups|
  {
    if groups != [] {
      var n := |groups| - 1;
      IndexedPrefixed(p, base, groups[..n], first);
      PrefixedAppend(p, Indexed(base, groups[..n], first), Prefixed(Slot(base, first + n), groups[n]));
      PrefixedTwice(p, Slot(base, first + n), groups[n]);
      assert p + Slot(base, first + n) == Slot(p + base, first + n);
    }
  }

  /** Field j of group i is published at slot first + i. */
  lemma {:induction false} IndexedMember(base: string, groups: seq<seq<Message>>, first: nat, i: nat, j: nat)
    requires i < |groups| && j < |groups[i]|
    ensures Message(Slot(base, first + i) + groups[i][j].address, groups[i][j].value) in Indexed(base, groups, first)
    decreases |groups|
  {
    var n := |groups| - 1;
    var l := Indexed(base, groups[..n], first);
    var r := Prefixed(Slot(base, first + n), groups[n]);
    IndexedSnoc(base, groups, first);
    if i == n {
      assert r[j] == Message(Slot(base, first + i) + groups[i][j].address, groups[i][j].value);
    } else {
      assert groups[..n][i] == groups[i];
      IndexedMember(base, groups[..n], first, i, j);
    }
  }

  /** A family of one-message groups publishes group i as its i-th message. */
  lemma {:induction false} IndexedSingletons(base: string, groups: seq<seq<Message>>, first: nat)
    requires forall i :: 0 <= i < |groups| ==> |groups[i]| == 1
    ensures |Indexed(base, groups, first)| == |groups|
    ensures forall i :: 0 <= i < |groups| ==>
      Indexed(base, groups, first)[i] == Message(Slot(base, first + i) + groups[i][0].address, groups[i][0].value)
  {
    IndexedLength(base, groups, first, 1);
    forall i | 0 <= i < |groups|
      ensures Indexed(base, groups, first)[i] == Message(Slot(base, first + i) + groups[i][0].address, groups[i][0].value)
    {
      IndexedSingletonAt(base, groups, first, i);
    }
  }

  /** Message i of a family of one-message groups is group i's message under its slot. */
  lemma {:induction false} IndexedSingletonAt(base: string, groups: seq<seq<Message>>, first: nat, i: nat)
    requires forall j :: 0 <= j < |groups| ==> |groups[j]| == 1
    requires i < |groups|
    ensures |Indexed(base, groups, first)| == |groups|
    ensures Indexed(base, groups, first)[i] == Message(Slot(base, first + i) + groups[i][0].address, groups[i][0].value)
    decreases |groups|
  {
    var n := |groups| - 1;
    var init := groups[..n];
    IndexedSnoc(base, groups, first);
    IndexedLength(base, groups, first, 1);
    var front, last := Indexed(base, init, first), Prefixed(Slot(base, first + n), groups[n]);
    if i < n {
      assert forall j :: 0 <= j < n ==> init[j] == groups[j];
      IndexedSingletonAt(base, init, first, i);
      assert (front + last)[i] == front[i];
    } else {
      assert (front + last)[i] == last[0];
    }
  }

  /** No address of `ms` starts with `p`. */
  predicate NoneUnder(p: string, ms: seq<Message>) {
    forall i :: 0 <= i < |ms| ==> !(p <= ms[i].address)
  }

  /** A list whose heads at k all differ from p's head at k has no address under `p`. */
  lemma HeadsExclude(p: string, ms: seq<Message>, k: nat, hs: set<(char, char, char)>)
    requires HeadsIn(ms, k, hs) && k + 3 <= |p| && Head(p, k) !in hs
    ensures NoneUnder(p, ms)
  {
    forall i | 0 <= i < |ms| ensures !(p <= ms[i].address) {
      HeadOfExtension(p, ms[i].address, k);
    }
  }

  lemma HeadOfExtension(p: string, a: string, k: nat)
    requires k + 3 <= |p|
    ensures p <= a ==> Head(a, k) == Head(p, k)
  {
    if p <= a {
      assert a == p + a[|p|..];
      HeadOfPrefixed(p, a[|p|..], k);
    }
  }

  lemma NoneUnderAppend(p: string, a: seq<Message>, b: seq<Message>)
    requires NoneUnder(p, a) && NoneUnder(p, b)
    ensures NoneUnder(p, a + b)
  {
    var ab := a + b;
    forall i | 0 <= i < |ab| ensures !(p <= ab[i].address) {
      if i < |a| { assert ab[i] == a[i]; } else { assert ab[i] == b[i - |a|]; }
    }
  }
}
