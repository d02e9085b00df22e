/** Sequence helpers: duplicate-freedom, first-occurrence deduplication (the model's stand-in for
    Python's list(set(...))), and sequences kept in a fixed rule order. */
module Seqs {

  datatype Option<+T> = None | Some(value: T)

  predicate NoDuplicates<T(==)>(s: seq<T>) {
    forall i, j | 0 <= i < j < |s| :: s[i] != s[j]
  }

  /** Removes repeated elements, keeping each element's first occurrence. */
  function Dedup<T(==,!new)>(s: seq<T>): (r: seq<T>)
    ensures NoDuplicates(r)
    ensures forall x :: x in r <==> x in s
    ensures |r| <= |s|
  {
    if s == [] then []
    else
      var r := Dedup(s[..|s| - 1]);
      assert forall x :: x in s <==> x in s[..|s| - 1] || x == s[|s| - 1];
      if s[|s| - 1] in r then r else r + [s[|s| - 1]]
  }

  /** Keys strictly increase along the sequence: it follows a fixed order without repeats. */
  predicate StrictlyOrdered<T>(s: seq<T>, key: T -> int) {
    forall i, j | 0 <= i < j < |s| :: key(s[i]) < key(s[j])
  }

  /** Appending an item whose key exceeds every key so far keeps a list in rule order. */
  lemma AppendInOrder<T>(prefix: seq<T>, x: T, key: T -> int)
    requires StrictlyOrdered(prefix, key)
    requires forall i | 0 <= i < |prefix| :: key(prefix[i]) < key(x)
    ensures StrictlyOrdered(prefix + [x], key)
    ensures forall i | 0 <= i < |prefix + [x]| :: key((prefix + [x])[i]) <= key(x)
  {
  }

  /** [x] when the condition holds, otherwise nothing. */
  function When<T>(condition: bool, x: T): seq<T> {
    if condition then [x] else []
  }

  /** The items of the rules whose condition holds, in rule order. */
  function Fired<T>(rules: seq<(bool, T)>): (r: seq<T>)
    ensures |r| <= |rules|
  {
    if rules == [] then []
    else Fired(rules[..|rules| - 1]) + When(rules[|rules| - 1].0, rules[|rules| - 1].1)
  }

  /** An item is fired exactly when some rule carrying it has a true condition. */
  lemma {:induction false} FiredMembers<T>(rules: seq<(bool, T)>)
    ensures forall x :: x in Fired(rules) <==> (true, x) in rules
  {
    if rules != [] {
      var init := rules[..|rules| - 1];
      FiredMembers(init);
      assert rules == init + [rules[|rules| - 1]];
    }
  }

  /** Adding a rule at the end appends its item when its condition holds. */
  lemma FiredSnoc<T>(rules: seq<(bool, T)>, rule: (bool, T))
    ensures Fired(rules + [rule]) == Fired(rules) + When(rule.0, rule.1)
  {
    assert (rules + [rule])[..|rules|] == rules;
  }

  /** A rule whose condition fails keeps the fired list shorter than the rule table. */
  lemma {:induction false} FiredShorter<T>(rules: seq<(bool, T)>, i: nat)
    requires i < |rules| && !rules[i].0
    ensures |Fired(rules)| < |rules|
  {
    var init := rules[..|rules| - 1];
    if i < |init| {
      assert init[i] == rules[i];
      FiredShorter(init, i);
    }
  }

  /** Every fired item comes from a rule whose condition holds. */
  lemma FiredOrigin<T>(rules: seq<(bool, T)>, k: nat) returns (i: nat)
    requires k < |Fired(rules)|
    ensures i < |rules| && rules[i].0 && rules[i].1 == Fired(rules)[k]
    decreases |rules|
  {
    var init := rules[..|rules| - 1];
    if k < |Fired(init)| {
      i := FiredOrigin(init, k);
      assert init[i] == rules[i];
    } else {
      i := |rules| - 1;
    }
  }

  /** Rules listed in increasing key order fire in that order. */
  lemma {:induction false} FiredInOrder<T>(rules: seq<(bool, T)>, key: T -> int)
    requires forall i, j | 0 <= i < j < |rules| :: key(rules[i].1) < key(rules[j].1)
    ensures StrictlyOrdered(Fired(rules), key)
  {
    if rules != [] {
      var init, last := rules[..|rules| - 1], rules[|rules| - 1];
      FiredInOrder(init, key);
      forall k | 0 <= k < |Fired(init)| ensures key(Fired(init)[k]) < key(last.1) {
        var i := FiredOrigin(init, k);
        assert init[i] == rules[i];
      }
      if last.0 {
        AppendInOrder(Fired(init), last.1, key);
      }
    }
  }

  lemma AppendAssoc<T>(p: seq<T>, q: seq<T>, r: seq<T>)
    ensures (p + q) + r == p + (q + r)
  {
  }

  lemma TakeAll<T>(s: seq<T>)
    ensures s[..|s|] == s
  {
  }

  lemma {:induction false} SubsetCard<T>(a: set<T>, b: set<T>)
    requires a <= b
    ensures |a| <= |b|
    decreases a
  {
    if a != {} {
      var x :| x in a;
      SubsetCard(a - {x}, b - {x});
    }
  }

  lemma StrictSubsetCard<T>(a: set<T>, b: set<T>, x: T)
    requires a <= b && x in b && x !in a
    ensures |a| < |b|
  {
    SubsetCard(a, b - {x});
  }

  /** Number of true entries. */
  function CountTrue(bs: seq<bool>): (n: nat)
    ensures n <= |bs|
    ensures n == |bs| <==> forall i | 0 <= i < |bs| :: bs[i]
    ensures n == 0 <==> forall i | 0 <= i < |bs| :: !bs[i]
  {
    if bs == [] then 0 else (if bs[0] then 1 else 0) + CountTrue(bs[1..])
  }

  /** Concatenation of a sequence of sequences, in order. */
  function Flatten<T(!new)>(xss: seq<seq<T>>): (r: seq<T>)
    ensures forall x :: x in r <==> exists p | 0 <= p < |xss| :: x in xss[p]
  {
    if xss == [] then []
    else
      var init := xss[..|xss| - 1];
      var r := Flatten(init) + xss[|xss| - 1];
      assert forall p | 0 <= p < |init| :: init[p] == xss[p];
      r
  }
}
