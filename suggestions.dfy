/**
 * `collect_suggestions`: counts the improvement suggestions of every result's
 * reflection and gathers what worked and what did not into sets; the
 * suggestions come out most frequent first, the sets sorted.
 *
 * A `Counter` is kept as its items in insertion order; `most_common()` sorts
 * them by count, largest first, with a stable sort, so equal counts stay in
 * insertion order.
 */
module Suggestions {
  import opened Wrappers
  import opened JsonValues
  import opened Text
  import opened Ordering
  import opened Reflections

  /** A `Counter[str]`: its (key, count) items in insertion order. */
  type Tally = seq<(string, nat)>

  /** The keys of a counter, in its order. */
  function KeysOf(t: Tally): seq<string> {
    seq(|t|, i requires 0 <= i < |t| => t[i].0)
  }

  /** No key occurs twice. */
  predicate DistinctKeys(t: Tally) {
    forall i, j :: 0 <= i < j < |t| ==> t[i].0 != t[j].0
  }

  /** `counter[key]`, 0 for a key never counted. */
  function Count(t: Tally, key: string): nat
    decreases |t|
  {
    if t == [] then 0 else if t[0].0 == key then t[0].1 else Count(t[1..], key)
  }

  /** `counter[key] += 1`: a new key goes to the end with count 1. */
  function Bump(t: Tally, key: string): Tally
    decreases |t|
  {
    if t == [] then [(key, 1)]
    else if t[0].0 == key then [(key, t[0].1 + 1)] + t[1..]
    else [t[0]] + Bump(t[1..], key)
  }

  /** `counter[x] += 1` for each `x` of `xs` in turn. */
  function BumpAll(t: Tally, xs: seq<string>): Tally
    decreases |xs|
  {
    if xs == [] then t else Bump(BumpAll(t, xs[..|xs| - 1]), xs[|xs| - 1])
  }

  /** The counter of `xs`, starting from an empty one. */
  function TallyOf(xs: seq<string>): Tally {
    BumpAll([], xs)
  }

  /** Each string once, at its first occurrence. */
  function FirstOccurrences(xs: seq<string>): (r: seq<string>)
    ensures Distinct(r)
    ensures forall x :: x in r <==> x in xs
    decreases |xs|
  {
    if xs == [] then []
    else
      var front := FirstOccurrences(xs[..|xs| - 1]);
      assert forall x :: x in xs <==> x in xs[..|xs| - 1] || x == xs[|xs| - 1] by {
        assert xs == xs[..|xs| - 1] + [xs[|xs| - 1]];
      }
      if xs[|xs| - 1] in front then front else front + [xs[|xs| - 1]]
  }

  lemma {:induction false} BumpCount(t: Tally, key: string, k: string)
    ensures Count(Bump(t, key), k) == Count(t, k) + (if k == key then 1 else 0)
    decreases |t|
  {
    if t != [] && t[0].0 != key {
      BumpCount(t[1..], key, k);
      assert Bump(t, key)[1..] == Bump(t[1..], key);
    }
  }

  lemma {:induction false} BumpKeys(t: Tally, key: string)
    ensures KeysOf(Bump(t, key)) == if key in KeysOf(t) then KeysOf(t) else KeysOf(t) + [key]
    decreases |t|
  {
    if t != [] {
      assert KeysOf(t) == [t[0].0] + KeysOf(t[1..]);
      if t[0].0 != key {
        BumpKeys(t[1..], key);
        assert KeysOf(Bump(t, key)) == [t[0].0] + KeysOf(Bump(t[1..], key));
      } else {
        assert KeysOf(Bump(t, key)) == [key] + KeysOf(t[1..]);
      }
    }
  }

  /** The counter holds, for each string, how often it occurs. */
  lemma {:induction false} TallyCounts(xs: seq<string>, k: string)
    ensures Count(TallyOf(xs), k) == multiset(xs)[k]
    decreases |xs|
  {
    if xs != [] {
      var front := xs[..|xs| - 1];
      TallyCounts(front, k);
      BumpCount(TallyOf(front), xs[|xs| - 1], k);
      assert xs == front + [xs[|xs| - 1]];
    }
  }

  /** The counter's keys are the strings at their first occurrences. */
  lemma {:induction false} TallyKeys(xs: seq<string>)
    ensures KeysOf(TallyOf(xs)) == FirstOccurrences(xs)
    decreases |xs|
  {
    if xs != [] {
      var front := xs[..|xs| - 1];
      TallyKeys(front);
      BumpKeys(TallyOf(front), xs[|xs| - 1]);
    }
  }

  lemma {:induction false} BumpAllAppend(t: Tally, a: seq<string>, b: seq<string>)
    ensures BumpAll(t, a + b) == BumpAll(BumpAll(t, a), b)
    decreases |b|
  {
    if b == [] {
      assert a + b == a;
    } else {
      assert (a + b)[..|a + b| - 1] == a + b[..|b| - 1];
      BumpAllAppend(t, a, b[..|b| - 1]);
    }
  }

  /** Counts never rise from one item to the next. */
  predicate NonIncreasing(t: Tally) {
    forall i, j :: 0 <= i < j < |t| ==> t[i].1 >= t[j].1
  }

  /** The items with count `c`, in order. */
  function WithCount(t: Tally, c: nat): Tally
    decreases |t|
  {
    if t == [] then [] else (if t[0].1 == c then [t[0]] else []) + WithCount(t[1..], c)
  }

  lemma {:induction false} WithCountAppend(a: Tally, b: Tally, c: nat)
    ensures WithCount(a + b, c) == WithCount(a, c) + WithCount(b, c)
    decreases |a|
  {
    if a == [] {
      assert a + b == b;
    } else {
      assert (a + b)[0] == a[0] && (a + b)[1..] == a[1..] + b;
      WithCountAppend(a[1..], b, c);
    }
  }

  lemma {:induction false} WithCountNone(t: Tally, c: nat)
    requires forall i :: 0 <= i < |t| ==> t[i].1 < c
    ensures WithCount(t, c) == []
    decreases |t|
  {
    if t != [] {
      WithCountNone(t[1..], c);
    }
  }

  /** Puts `x` after every item whose count is at least its own. */
  function Insert(x: (string, nat), s: Tally): Tally
    decreases |s|
  {
    if s == [] then [x]
    else if s[0].1 >= x.1 then [s[0]] + Insert(x, s[1..])
    else [x] + s
  }

  lemma {:induction false} InsertMembers(x: (string, nat), s: Tally)
    ensures forall p :: p in Insert(x, s) <==> p == x || p in s
    ensures |Insert(x, s)| == |s| + 1
    decreases |s|
  {
    if s != [] && s[0].1 >= x.1 {
      InsertMembers(x, s[1..]);
      assert forall p :: p in s <==> p == s[0] || p in s[1..] by {
        assert s == [s[0]] + s[1..];
      }
    }
  }

  lemma {:induction false} InsertNonIncreasing(x: (string, nat), s: Tally)
    requires NonIncreasing(s)
    ensures NonIncreasing(Insert(x, s))
    ensures Insert(x, s)[0].1 == (if s != [] && s[0].1 >= x.1 then s[0].1 else x.1)
    decreases |s|
  {
    if s != [] && s[0].1 >= x.1 {
      InsertNonIncreasing(x, s[1..]);
      InsertMembers(x, s[1..]);
      var r := Insert(x, s);
      forall i, j | 0 <= i < j < |r|
        ensures r[i].1 >= r[j].1
      {
        if i == 0 {
          assert r[j] in Insert(x, s[1..]) by {
            assert r[j] == Insert(x, s[1..])[j - 1];
          }
          if r[j] != x {
            var k :| 0 <= k < |s[1..]| && s[1..][k] == r[j];
            assert s[0].1 >= s[k + 1].1;
          }
        } else {
          assert r[i] == Insert(x, s[1..])[i - 1] && r[j] == Insert(x, s[1..])[j - 1];
        }
      }
    }
  }

  /** The items with any one count keep their order, with `x` after those like it. */
  lemma {:induction false} InsertWithCount(x: (string, nat), s: Tally, c: nat)
    requires NonIncreasing(s)
    ensures WithCount(Insert(x, s), c) == WithCount(s, c) + WithCount([x], c)
    decreases |s|
  {
    if s == [] {
    } else if s[0].1 >= x.1 {
      InsertWithCount(x, s[1..], c);
      assert WithCount(Insert(x, s), c) == WithCount([s[0]], c) + WithCount(Insert(x, s[1..]), c) by {
        WithCountAppend([s[0]], Insert(x, s[1..]), c);
      }
      assert WithCount(s, c) == WithCount([s[0]], c) + WithCount(s[1..], c) by {
        assert s == [s[0]] + s[1..];
        WithCountAppend([s[0]], s[1..], c);
      }
    } else {
      WithCountAppend([x], s, c);
      if c == x.1 {
        WithCountNone(s, c);
      } else {
        assert WithCount([x], c) == [];
      }
    }
  }

  lemma {:induction false} InsertDistinct(x: (string, nat), s: Tally)
    requires DistinctKeys(s) && forall p :: p in s ==> p.0 != x.0
    ensures DistinctKeys(Insert(x, s))
    decreases |s|
  {
    var r := Insert(x, s);
    if s != [] && s[0].1 >= x.1 {
      InsertDistinct(x, s[1..]);
      InsertMembers(x, s[1..]);
      forall i, j | 0 <= i < j < |r|
        ensures r[i].0 != r[j].0
      {
        if i == 0 {
          assert r[j] == Insert(x, s[1..])[j - 1];
          assert r[j] in Insert(x, s[1..]);
          if r[j] != x {
            var k :| 0 <= k < |s[1..]| && s[1..][k] == r[j];
            assert s[0].0 != s[k + 1].0;
          }
        } else {
          assert r[i] == Insert(x, s[1..])[i - 1] && r[j] == Insert(x, s[1..])[j - 1];
        }
      }
    } else if s != [] {
      forall i, j | 0 <= i < j < |r|
        ensures r[i].0 != r[j].0
      {
        if i == 0 {
          assert r[j] == s[j - 1];
        } else {
          assert r[i] == s[i - 1] && r[j] == s[j - 1];
        }
      }
    }
  }

  /** Dropping the last item keeps the keys distinct, and none of them is the last key. */
  lemma LastKeyFresh(t: Tally)
    requires t != [] && DistinctKeys(t)
    ensures DistinctKeys(t[..|t| - 1])
    ensures forall p :: p in t[..|t| - 1] ==> p.0 != t[|t| - 1].0
  {
    var front := t[..|t| - 1];
    forall p | p in front
      ensures p.0 != t[|t| - 1].0
    {
      var k :| 0 <= k < |front| && front[k] == p;
      assert t[k] == p;
    }
    forall i, j | 0 <= i < j < |front|
      ensures front[i].0 != front[j].0
    {
      assert front[i] == t[i] && front[j] == t[j];
    }
  }

  /**
   * `counter.most_common()`: the items by count, largest first; items with
   * equal counts keep the order they have in the counter.
   */
  function MostCommon(t: Tally): (r: Tally)
    ensures NonIncreasing(r)
    ensures forall c :: WithCount(r, c) == WithCount(t, c)
    ensures forall p :: p in r <==> p in t
    ensures DistinctKeys(t) ==> DistinctKeys(r)
    decreases |t|
  {
    if t == [] then []
    else
      var front := t[..|t| - 1];
      var last := t[|t| - 1];
      var sorted := MostCommon(front);
      InsertNonIncreasing(last, sorted);
      InsertMembers(last, sorted);
      assert t == front + [last];
      assert forall c :: WithCount(Insert(last, sorted), c) == WithCount(t, c) by {
        forall c
          ensures WithCount(Insert(last, sorted), c) == WithCount(t, c)
        {
          InsertWithCount(last, sorted, c);
          WithCountAppend(front, [last], c);
        }
      }
      assert DistinctKeys(t) ==> DistinctKeys(Insert(last, sorted)) by {
        if DistinctKeys(t) {
          LastKeyFresh(t);
          InsertDistinct(last, sorted);
        }
      }
      Insert(last, sorted)
  }

  /** Under distinct keys, the count of a key is the count on its item. */
  lemma {:induction false} CountMember(t: Tally, p: (string, nat))
    requires DistinctKeys(t) && p in t
    ensures Count(t, p.0) == p.1
    decreases |t|
  {
    if t[0] != p {
      assert p in t[1..] by {
        assert t == [t[0]] + t[1..];
      }
      var k :| 0 <= k < |t[1..]| && t[1..][k] == p;
      assert t[0].0 != t[k + 1].0;
      CountMember(t[1..], p);
    }
  }

  lemma DistinctKeysOf(t: Tally)
    ensures DistinctKeys(t) <==> Distinct(KeysOf(t))
  {
    assert forall i :: 0 <= i < |t| ==> KeysOf(t)[i] == t[i].0;
  }

  /** The order `most_common()` gives the counted strings. */
  function ByFrequency(xs: seq<string>): seq<string> {
    KeysOf(MostCommon(TallyOf(xs)))
  }

  /**
   * The suggestions come out once each, all of them, and most frequent
   * first.
   */
  lemma ByFrequencyOrder(xs: seq<string>)
    ensures Distinct(ByFrequency(xs))
    ensures forall x :: x in ByFrequency(xs) <==> x in xs
    ensures forall i, j :: 0 <= i < j < |ByFrequency(xs)| ==>
              multiset(xs)[ByFrequency(xs)[i]] >= multiset(xs)[ByFrequency(xs)[j]]
  {
    var t := TallyOf(xs);
    var r := MostCommon(t);
    TallyKeys(xs);
    DistinctKeysOf(t);
    DistinctKeysOf(r);
    forall x
      ensures x in KeysOf(r) <==> x in xs
    {
      if x in KeysOf(r) {
        var i :| 0 <= i < |r| && KeysOf(r)[i] == x;
        assert r[i] in t;
        var k :| 0 <= k < |t| && t[k] == r[i];
        assert KeysOf(t)[k] == x;
      }
      if x in xs {
        assert x in KeysOf(t);
        var k :| 0 <= k < |t| && KeysOf(t)[k] == x;
        assert t[k] in r;
        var i :| 0 <= i < |r| && r[i] == t[k];
        assert KeysOf(r)[i] == x;
      }
    }
    forall i, j | 0 <= i < j < |r|
      ensures multiset(xs)[r[i].0] >= multiset(xs)[r[j].0]
    {
      CountMember(t, r[i]);
      CountMember(t, r[j]);
      TallyCounts(xs, r[i].0);
      TallyCounts(xs, r[j].0);
    }
  }

  /** `item.strip()` for an item the loops keep (`if item and isinstance(item, str)`). */
  function KeptItem(item: Json): seq<string> {
    if item.JStr? && item.s != [] then [Strip(item.s)] else []
  }

  /** The strings a list of reflection items contributes, in order. */
  function Kept(items: seq<Json>): seq<string>
    decreases |items|
  {
    if items == [] then [] else Kept(items[..|items| - 1]) + KeptItem(items[|items| - 1])
  }

  /** `item` is an item the loops keep, and it strips to `x`. */
  predicate StripsTo(item: Json, x: string) {
    item.JStr? && item.s != [] && Strip(item.s) == x
  }

  /**
   * A string is kept exactly when some item is a non-empty string that strips
   * to it; other items are ignored, and a blank string is kept as "".
   */
  lemma {:induction false} KeptMembers(items: seq<Json>, x: string)
    ensures x in Kept(items) <==> exists i :: 0 <= i < |items| && StripsTo(items[i], x)
    decreases |items|
  {
    if items != [] {
      var front := items[..|items| - 1];
      var last := items[|items| - 1];
      KeptMembers(front, x);
      assert x in Kept(items) <==> x in Kept(front) || StripsTo(last, x) by {
        assert Kept(items) == Kept(front) + KeptItem(last);
      }
      SnocWitness(items, front, x);
    }
  }

  /** An item strips to `x` exactly when one before the last does, or the last does. */
  lemma SnocWitness(items: seq<Json>, front: seq<Json>, x: string)
    requires items != [] && front == items[..|items| - 1]
    ensures (exists i :: 0 <= i < |items| && StripsTo(items[i], x)) <==>
            (exists i :: 0 <= i < |front| && StripsTo(front[i], x)) || StripsTo(items[|items| - 1], x)
  {
    if exists i :: 0 <= i < |items| && StripsTo(items[i], x) {
      var i :| 0 <= i < |items| && StripsTo(items[i], x);
      if i < |front| {
        assert front[i] == items[i];
      }
    }
    if exists i :: 0 <= i < |front| && StripsTo(front[i], x) {
      var i :| 0 <= i < |front| && StripsTo(front[i], x);
      assert items[i] == front[i];
    }
  }

  /**
   * Appending a blank but non-empty string to the items adds one "", and
   * appending a non-string (or the empty string) adds nothing.
   */
  lemma BlankKeptAsEmpty(items: seq<Json>, item: Json)
    ensures item.JStr? && item.s != "" && Strip(item.s) == "" ==> Kept(items + [item]) == Kept(items) + [""]
    ensures !item.JStr? || item.s == "" ==> Kept(items + [item]) == Kept(items)
  {
    assert (items + [item])[..|items|] == items;
  }

  /** The set of a sequence's elements. */
  function Elements(s: seq<string>): set<string> {
    set x | x in s
  }

  /** What one result contributes: its kept suggestions, worked items and didn't-work items. */
  datatype Contribution = Contribution(suggestions: seq<string>, worked: seq<string>, didnt: seq<string>)

  /**
   * One turn of the loop over results: `result.get("turn2_reflection")`, the
   * reflection parsed, and each of the three lists iterated in turn.
   */
  function Contribute(rt: Runtime, result: Json): Result<Contribution, Fault> {
    if !result.JObj? then Err(Fault(AttributeError, result))
    else
      var parsed :- ParseReflection(rt, Get(result.fields, "turn2_reflection", JNull));
      var s :- Iterate(parsed.improvementSuggestions);
      var w :- Iterate(parsed.whatWorked);
      var d :- Iterate(parsed.whatDidntWork);
      Ok(Contribution(Kept(s), Kept(w), Kept(d)))
  }

  /** All suggestions in order, and the two sets, over a list of results. */
  datatype Gathered = Gathered(suggestions: seq<string>, worked: set<string>, didnt: set<string>)

  /** The loop over results; the first result that raises ends it. */
  function Gather(rt: Runtime, results: seq<Json>): Result<Gathered, Fault>
    decreases |results|
  {
    if results == [] then Ok(Gathered([], {}, {}))
    else
      var g :- Gather(rt, results[..|results| - 1]);
      var c :- Contribute(rt, results[|results| - 1]);
      Ok(Gathered(g.suggestions + c.suggestions, g.worked + Elements(c.worked), g.didnt + Elements(c.didnt)))
  }

  lemma GatherErrStep(rt: Runtime, results: seq<Json>)
    requires results != [] && Gather(rt, results[..|results| - 1]).Err?
    ensures Gather(rt, results) == Gather(rt, results[..|results| - 1])
  {
  }

  /** Once a prefix of the results raises, the whole loop raises the same. */
  lemma {:induction false} GatherStops(rt: Runtime, results: seq<Json>, i: nat)
    requires i <= |results| && Gather(rt, results[..i]).Err?
    ensures Gather(rt, results) == Gather(rt, results[..i])
    decreases |results| - i
  {
    if i < |results| {
      assert results[..i + 1][..i] == results[..i];
      GatherErrStep(rt, results[..i + 1]);
      GatherStops(rt, results, i + 1);
    } else {
      assert results[..i] == results;
    }
  }

  /** The dict `collect_suggestions` returns. */
  datatype Collected = Collected(
    improvementSuggestions: seq<string>,
    whatWorked: seq<string>,
    whatDidntWork: seq<string>,
    suggestionCounts: Tally)

  /** What `collect_suggestions(results)` returns, or the exception it raises. */
  ghost function Collect(rt: Runtime, results: seq<Json>): Result<Collected, Fault> {
    var g :- Gather(rt, results);
    Ok(Collected(ByFrequency(g.suggestions), SortedSeq(g.worked), SortedSeq(g.didnt), TallyOf(g.suggestions)))
  }

  /**
   * The output lists: suggestions once each, most frequent first, with the
   * counts of the strings as kept; the two other lists sorted and holding
   * exactly the kept items.
   */
  lemma CollectedShape(rt: Runtime, results: seq<Json>)
    requires Collect(rt, results).Ok?
    ensures var c := Collect(rt, results).value;
            var g := Gather(rt, results).value;
            && Distinct(c.improvementSuggestions)
            && (forall x :: x in c.improvementSuggestions <==> x in g.suggestions)
            && (forall i, j :: 0 <= i < j < |c.improvementSuggestions| ==>
                  multiset(g.suggestions)[c.improvementSuggestions[i]] >= multiset(g.suggestions)[c.improvementSuggestions[j]])
            && (forall k :: Count(c.suggestionCounts, k) == multiset(g.suggestions)[k])
            && StrictlyIncreasing(c.whatWorked) && (forall x :: x in c.whatWorked <==> x in g.worked)
            && StrictlyIncreasing(c.whatDidntWork) && (forall x :: x in c.whatDidntWork <==> x in g.didnt)
  {
    var g := Gather(rt, results).value;
    ByFrequencyOrder(g.suggestions);
    forall k
      ensures Count(TallyOf(g.suggestions), k) == multiset(g.suggestions)[k]
    {
      TallyCounts(g.suggestions, k);
    }
  }

  /** `for suggestion in items: if suggestion and isinstance(suggestion, str): counter[suggestion.strip()] += 1` */
  method CountSuggestions(counter: Tally, items: seq<Json>) returns (r: Tally)
    ensures r == BumpAll(counter, Kept(items))
  {
    r := counter;
    var i := 0;
    while i < |items|
      invariant 0 <= i <= |items|
      invariant r == BumpAll(counter, Kept(items[..i]))
    {
      KeptStep(items, i);
      var item := items[i];
      if item.JStr? && item.s != [] {
        BumpSnoc(counter, Kept(items[..i]), Strip(item.s));
        r := Bump(r, Strip(item.s));
      } else {
        assert Kept(items[..i]) + [] == Kept(items[..i]);
      }
      i := i + 1;
    }
    assert items[..i] == items;
  }

  /** One more item adds what it keeps to the end. */
  lemma KeptStep(items: seq<Json>, i: nat)
    requires i < |items|
    ensures Kept(items[..i + 1]) == Kept(items[..i]) + KeptItem(items[i])
  {
    assert items[..i + 1][..i] == items[..i];
  }

  /** Counting one more string bumps the counter once more. */
  lemma BumpSnoc(t: Tally, xs: seq<string>, x: string)
    ensures BumpAll(t, xs + [x]) == Bump(BumpAll(t, xs), x)
  {
    assert (xs + [x])[..|xs|] == xs;
  }

  /** `for item in items: if item and isinstance(item, str): found.add(item.strip())` */
  method AddItems(found: set<string>, items: seq<Json>) returns (r: set<string>)
    ensures r == found + Elements(Kept(items))
  {
    r := found;
    var i := 0;
    while i < |items|
      invariant 0 <= i <= |items|
      invariant r == found + Elements(Kept(items[..i]))
    {
      KeptStep(items, i);
      var item := items[i];
      if item.JStr? && item.s != [] {
        r := r + {Strip(item.s)};
      }
      i := i + 1;
    }
    assert items[..i] == items;
  }

  /** `collect_suggestions(results)` */
  method CollectSuggestions(rt: Runtime, results: seq<Json>) returns (r: Result<Collected, Fault>)
    ensures r == Collect(rt, results)
  {
    var counter: Tally := [];
    var worked: set<string> := {};
    var didnt: set<string> := {};
    var i := 0;
    while i < |results|
      invariant 0 <= i <= |results|
      invariant Gather(rt, results[..i]).Ok?
      invariant counter == TallyOf(Gather(rt, results[..i]).value.suggestions)
      invariant worked == Gather(rt, results[..i]).value.worked
      invariant didnt == Gather(rt, results[..i]).value.didnt
    {
      ghost var g := Gather(rt, results[..i]).value;
      assert results[..i + 1][..i] == results[..i];
      var result := results[i];
      if !result.JObj? {
        GatherStops(rt, results, i + 1);
        return Err(Fault(AttributeError, result));
      }
      var parsed := ParseReflection(rt, Get(result.fields, "turn2_reflection", JNull));
      if parsed.Err? {
        GatherStops(rt, results, i + 1);
        return Err(parsed.error);
      }
      var s := Iterate(parsed.value.improvementSuggestions);
      if s.Err? {
        GatherStops(rt, results, i + 1);
        return Err(s.error);
      }
      var w := Iterate(parsed.value.whatWorked);
      if w.Err? {
        GatherStops(rt, results, i + 1);
        return Err(w.error);
      }
      var d := Iterate(parsed.value.whatDidntWork);
      if d.Err? {
        GatherStops(rt, results, i + 1);
        return Err(d.error);
      }
      BumpAllAppend([], g.suggestions, Kept(s.value));
      counter := CountSuggestions(counter, s.value);
      worked := AddItems(worked, w.value);
      didnt := AddItems(didnt, d.value);
      i := i + 1;
    }
    assert results[..i] == results;
    var sortedSuggestions := ByFrequency(Gather(rt, results).value.suggestions);
    assert sortedSuggestions == KeysOf(MostCommon(counter));
    var sortedWorked := SortStrings(worked);
    var sortedDidnt := SortStrings(didnt);
    r := Ok(Collected(KeysOf(MostCommon(counter)), sortedWorked, sortedDidnt, counter));
  }
}
