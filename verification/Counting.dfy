/** Grouping records by a key and counting them, as the program does with dictionaries of lists. */
module Counting {
  import opened Text

  /** How many records satisfy `p`. */
  function Count<T>(p: T -> bool, records: seq<T>): (n: nat)
    ensures n <= |records|
  {
    if records == [] then 0 else Count(p, records[..|records| - 1]) + if p(records[|records| - 1]) then 1 else 0
  }

  /** The records with key `k`, in order. */
  function Group<T, K(==)>(records: seq<T>, key: T -> K, k: K): seq<T> {
    if records == [] then []
    else
      var last := records[|records| - 1];
      Group(records[..|records| - 1], key, k) + (if key(last) == k then [last] else [])
  }

  /** The keys in order of first occurrence: the iteration order of the dictionary. */
  function Keys<T, K(==)>(records: seq<T>, key: T -> K): seq<K> {
    if records == [] then []
    else
      var before := Keys(records[..|records| - 1], key);
      var last := key(records[|records| - 1]);
      if last in before then before else before + [last]
  }

  function Lookup<T, K(==)>(grouped: map<K, seq<T>>, k: K): seq<T> { if k in grouped then grouped[k] else [] }

  /** A `defaultdict(list)` filled from the records; a key without records has no entry. */
  method GroupBy<T, K(==, !new)>(records: seq<T>, key: T -> K) returns (grouped: map<K, seq<T>>, order: seq<K>)
    ensures order == Keys(records, key) && forall k :: k in grouped <==> k in order
    ensures forall k :: Lookup(grouped, k) == Group(records, key, k)
  {
    grouped, order := map[], [];
    for i := 0 to |records|
      invariant order == Keys(records[..i], key) && forall k :: k in grouped <==> k in order
      invariant forall k :: Lookup(grouped, k) == Group(records[..i], key, k)
    {
      assert records[..i + 1][..i] == records[..i];
      var k := key(records[i]);
      if k !in grouped {
        order := order + [k];
      }
      grouped := grouped[k := Lookup(grouped, k) + [records[i]]];
    }
    assert records[..|records|] == records;
  }

  predicate Distinct<K(==)>(keys: seq<K>) { forall i, j :: 0 <= i < j < |keys| ==> keys[i] != keys[j] }

  /** `set(names)` */
  function AsSet(names: seq<string>): set<string> { set name | name in names }

  lemma {:induction false} KeysMeaning<T, K(!new)>(records: seq<T>, key: T -> K)
    ensures Distinct(Keys(records, key))
    ensures forall k :: k in Keys(records, key) <==> exists r :: r in records && key(r) == k
  {
    if records != [] {
      var n := |records| - 1;
      KeysMeaning(records[..n], key);
      assert records == records[..n] + [records[n]];
    }
  }

  lemma {:induction false} GroupMeaning<T(!new), K>(records: seq<T>, key: T -> K, k: K)
    ensures forall r :: r in Group(records, key, k) <==> r in records && key(r) == k
  {
    if records != [] {
      var n := |records| - 1;
      GroupMeaning(records[..n], key, k);
      assert records == records[..n] + [records[n]];
    }
  }

  // ---------------------------------------------------------------- conservation

  /** A count added up over a list of keys. */
  function Total<K>(counts: K -> nat, keys: seq<K>): nat {
    if keys == [] then 0 else Total(counts, keys[..|keys| - 1]) + counts(keys[|keys| - 1])
  }

  lemma {:induction false} TotalZero<K(!new)>(counts: K -> nat, keys: seq<K>)
    requires forall k :: counts(k) == 0
    ensures Total(counts, keys) == 0
  {
    if keys != [] {
      TotalZero(counts, keys[..|keys| - 1]);
    }
  }

  lemma {:induction false} TotalAgrees<K(!new)>(a: K -> nat, b: K -> nat, keys: seq<K>)
    requires forall k :: k in keys ==> a(k) == b(k)
    ensures Total(a, keys) == Total(b, keys)
  {
    if keys != [] {
      assert keys[|keys| - 1] in keys;
      TotalAgrees(a, b, keys[..|keys| - 1]);
    }
  }

  /** Two counts that differ by `extra` at one key only differ by `extra` in total. */
  lemma {:induction false} TotalStep<K(!new)>(a: K -> nat, b: K -> nat, key: K, extra: nat, keys: seq<K>)
    requires Distinct(keys) && forall k :: b(k) == a(k) + if k == key then extra else 0
    ensures Total(b, keys) == Total(a, keys) + if key in keys then extra else 0
  {
    if keys != [] {
      var before := keys[..|keys| - 1];
      TotalStep(a, b, key, extra, before);
      assert keys == before + [keys[|keys| - 1]];
    }
  }

  /** For every key, how many records of its group satisfy `p`. */
  function GroupCounts<T, K(==)>(p: T -> bool, records: seq<T>, key: T -> K): K -> nat {
    k => Count(p, Group(records, key, k))
  }

  lemma CountSnoc<T>(p: T -> bool, before: seq<T>, last: T)
    ensures Count(p, before + [last]) == Count(p, before) + if p(last) then 1 else 0
  {
    assert (before + [last])[..|before|] == before;
  }

  lemma GroupSnoc<T, K>(before: seq<T>, last: T, key: T -> K, k: K)
    ensures Group(before + [last], key, k) == Group(before, key, k) + if key(last) == k then [last] else []
  {
    assert (before + [last])[..|before|] == before;
  }

  lemma GroupCountStep<T, K>(p: T -> bool, before: seq<T>, last: T, key: T -> K, k: K)
    ensures GroupCounts(p, before + [last], key)(k) == GroupCounts(p, before, key)(k) + if k == key(last) && p(last) then 1 else 0
  {
    GroupSnoc(before, last, key, k);
    hide Group;
    CountSnoc(p, Group(before, key, k), last);
    assert Group(before, key, k) + [] == Group(before, key, k);
  }

  /** Counted group by group over some keys, exactly the records with other keys are missing, and nothing is counted twice. */
  lemma {:induction false} GroupsAddUpWithin<T(!new), K(!new)>(p: T -> bool, rest: T -> bool, records: seq<T>, key: T -> K,
                                                              keys: seq<K>)
    requires Distinct(keys) && forall r :: rest(r) <==> p(r) && key(r) !in keys
    ensures Total(GroupCounts(p, records, key), keys) + Count(rest, records) == Count(p, records)
  {
    hide Total;
    if records == [] {
      TotalZero(GroupCounts(p, records, key), keys);
    } else {
      var before, last := records[..|records| - 1], records[|records| - 1];
      assert records == before + [last];
      GroupsAddUpWithin(p, rest, before, key, keys);
      forall k
        ensures GroupCounts(p, records, key)(k) == GroupCounts(p, before, key)(k) + if k == key(last) && p(last) then 1 else 0
      {
        GroupCountStep(p, before, last, key, k);
      }
      hide GroupCounts;
      TotalStep(GroupCounts(p, before, key), GroupCounts(p, records, key), key(last), if p(last) then 1 else 0, keys);
    }
  }

  /** Groups partition the records: over all keys that occur, nothing is lost and nothing is counted twice. */
  lemma GroupsAddUp<T(!new), K(!new)>(p: T -> bool, records: seq<T>, key: T -> K, keys: seq<K>)
    requires Distinct(keys) && forall r :: r in records ==> key(r) in keys
    ensures Total(GroupCounts(p, records, key), keys) == Count(p, records)
  {
    var rest := (r: T) => p(r) && key(r) !in keys;
    hide Total, Count, GroupCounts;
    GroupsAddUpWithin(p, rest, records, key, keys);
    CountNone(rest, records);
  }

  lemma {:induction false} CountAll<T>(p: T -> bool, records: seq<T>)
    requires forall r :: r in records ==> p(r)
    ensures Count(p, records) == |records|
  {
    if records != [] {
      CountAll(p, records[..|records| - 1]);
    }
  }

  lemma {:induction false} CountNone<T>(p: T -> bool, records: seq<T>)
    ensures Count(p, records) == 0 <==> forall r :: r in records ==> !p(r)
  {
    if records != [] {
      var n := |records| - 1;
      CountNone(p, records[..n]);
      assert records == records[..n] + [records[n]];
    }
  }

  function Positions<T>(p: T -> bool, records: seq<T>): set<int> { set i | 0 <= i < |records| && p(records[i]) }

  /** The count is the number of positions whose record satisfies `p`. */
  lemma {:induction false} CountIsSize<T>(p: T -> bool, records: seq<T>)
    ensures Count(p, records) == |Positions(p, records)|
  {
    if records != [] {
      var n := |records| - 1;
      CountIsSize(p, records[..n]);
      assert Positions(p, records) == Positions(p, records[..n]) + if p(records[n]) then {n} else {};
    }
  }

  /** Counting in one key's group is counting the records with that key. */
  lemma {:induction false} CountInGroup<T(!new), K>(p: T -> bool, both: T -> bool, records: seq<T>, key: T -> K, k: K)
    requires forall r :: both(r) <==> p(r) && key(r) == k
    ensures Count(p, Group(records, key, k)) == Count(both, records)
  {
    if records != [] {
      var before, last := records[..|records| - 1], records[|records| - 1];
      CountInGroup(p, both, before, key, k);
      assert records == before + [last];
      hide *;
      GroupSnoc(before, last, key, k);
      CountAppended(p, Group(before, key, k), if key(last) == k then [last] else []);
      CountAppended(both, before, [last]);
    }
  }

  lemma CountAppended<T>(p: T -> bool, before: seq<T>, more: seq<T>)
    requires |more| <= 1
    ensures Count(p, before + more) == Count(p, before) + if more != [] && p(more[0]) then 1 else 0
  {
    if more == [] {
      assert before + more == before;
    } else {
      assert more == [more[0]];
      CountSnoc(p, before, more[0]);
    }
  }

  /** Lists that agree position by position have the same counts. */
  lemma {:induction false} CountSame<T, U>(p: T -> bool, a: seq<T>, r: U -> bool, b: seq<U>)
    requires |a| == |b| && forall i :: 0 <= i < |a| ==> (p(a[i]) <==> r(b[i]))
    ensures Count(p, a) == Count(r, b)
  {
    if a != [] {
      CountSame(p, a[..|a| - 1], r, b[..|b| - 1]);
    }
  }

  // ---------------------------------------------------------------- averages

  function Sum(values: seq<real>): real {
    if values == [] then 0.0 else Sum(values[..|values| - 1]) + values[|values| - 1]
  }

  lemma SumSnoc(values: seq<real>, last: real)
    ensures Sum(values + [last]) == Sum(values) + last
  {
    assert (values + [last])[..|values|] == values;
  }

  /** `sum(values) / len(values) if values else None` */
  function Mean(values: seq<real>): Option<real> {
    if values == [] then None else Some(Sum(values) / |values| as real)
  }

  /** There is a mean exactly of some values, and it is their sum spread evenly. */
  lemma MeanExactly(values: seq<real>)
    ensures Mean(values).Some? <==> values != []
    ensures values != [] ==> Mean(values).value * |values| as real == Sum(values)
  {
  }

  lemma {:induction false} SumOfSame(values: seq<real>, v: real)
    requires forall x :: x in values ==> x == v
    ensures Sum(values) == v * |values| as real
  {
    if values != [] {
      var n := |values| - 1;
      assert values[n] in values;
      forall x | x in values[..n] ensures x == v { assert x in values; }
      SumOfSame(values[..n], v);
    }
  }

  /** Equal values have that mean. */
  lemma MeanOfSame(values: seq<real>, v: real)
    requires values != [] && forall x :: x in values ==> x == v
    ensures Mean(values) == Some(v)
  {
    SumOfSame(values, v);
    MeanExactly(values);
    hide Sum, Mean;
    Cancel(Mean(values).value, v, |values| as real);
  }

  lemma Cancel(x: real, y: real, n: real)
    requires n != 0.0 && x * n == y * n
    ensures x == y
  {
    assert (x - y) * n == 0.0;
  }

  // ---------------------------------------------------------------- sorting by name

  /** Python's order on strings. */
  predicate Less(a: string, b: string) {
    if b == "" then false
    else if a == "" then true
    else a[0] < b[0] || (a[0] == b[0] && Less(a[1..], b[1..]))
  }

  lemma {:induction false} LessIsTotal(a: string, b: string)
    ensures Less(a, b) || a == b || Less(b, a)
    ensures !(Less(a, b) && Less(b, a)) && (Less(a, b) ==> a != b)
  {
    if a != "" && b != "" && a[0] == b[0] {
      LessIsTotal(a[1..], b[1..]);
      assert a == [a[0]] + a[1..] && b == [b[0]] + b[1..];
    }
  }

  lemma {:induction false} LessIsTransitive(a: string, b: string, c: string)
    requires Less(a, b) && Less(b, c)
    ensures Less(a, c)
  {
    if a != "" && a[0] == b[0] == c[0] {
      LessIsTransitive(a[1..], b[1..], c[1..]);
    }
  }

  function Insert(name: string, sorted: seq<string>): seq<string> {
    if sorted == [] || Less(name, sorted[0]) then [name] + sorted
    else if name == sorted[0] then sorted
    else [sorted[0]] + Insert(name, sorted[1..])
  }

  /** `sorted(...)` of distinct names. */
  function Sorted(names: seq<string>): seq<string> {
    if names == [] then [] else Insert(names[|names| - 1], Sorted(names[..|names| - 1]))
  }

  ghost predicate Increasing(names: seq<string>) { forall i, j :: 0 <= i < j < |names| ==> Less(names[i], names[j]) }

  lemma {:induction false} InsertKeeps(name: string, sorted: seq<string>)
    requires Increasing(sorted)
    ensures Increasing(Insert(name, sorted))
    ensures forall x :: x in Insert(name, sorted) <==> x == name || x in sorted
  {
    hide Less;
    if sorted == [] {
    } else if Less(name, sorted[0]) {
      forall j | 0 < j < |sorted| ensures Less(name, sorted[j]) {
        LessIsTransitive(name, sorted[0], sorted[j]);
      }
    } else if name != sorted[0] {
      LessIsTotal(name, sorted[0]);
      InsertKeeps(name, sorted[1..]);
      assert sorted == [sorted[0]] + sorted[1..];
      var rest := Insert(name, sorted[1..]);
      forall j | 0 <= j < |rest| ensures Less(sorted[0], rest[j]) {
        assert rest[j] in rest;
      }
    }
  }

  /** Sorting keeps the names and puts them in strictly increasing order, so each occurs once. */
  lemma {:induction false} SortedMeaning(names: seq<string>)
    ensures Increasing(Sorted(names)) && Distinct(Sorted(names))
    ensures forall x :: x in Sorted(names) <==> x in names
  {
    hide Less, Insert;
    if names != [] {
      var n := |names| - 1;
      SortedMeaning(names[..n]);
      InsertKeeps(names[n], Sorted(names[..n]));
      assert names == names[..n] + [names[n]];
    }
    IncreasingIsDistinct(Sorted(names));
  }

  lemma IncreasingIsDistinct(names: seq<string>)
    requires Increasing(names)
    ensures Distinct(names)
  {
    forall i, j | 0 <= i < j < |names| ensures names[i] != names[j] {
      LessIsTotal(names[i], names[j]);
    }
  }
}
