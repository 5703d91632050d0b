/**
 * The repository records returned by the GitHub REST API (only the fields the
 * dashboard reads) and the per-language repository count that both
 * `src/hooks/useGithub.ts` and `src/hooks/useGitHubCompare.ts` compute.
 *
 * A JavaScript object used as a dictionary is modelled as an association list
 * of entries in insertion order: that is the order `Object.entries` returns for
 * keys that are not integer-like, and it decides how the later stable sort
 * breaks ties.
 */
module Repos {
  import opened JsText

  datatype Repo = Repo(language: Option<string>, stargazersCount: int, forksCount: int)

  /** One `{ name, value }` entry; here `value` is a number of repositories. */
  datatype LanguageCount = LanguageCount(name: string, value: int)

  /** `if (repo.language)`: null and the empty string are both skipped. */
  predicate HasLanguage(r: Repo) {
    Truthy(r.language)
  }

  predicate NamesDistinct(entries: seq<LanguageCount>) {
    forall i, j :: 0 <= i < j < |entries| ==> entries[i].name != entries[j].name
  }

  /** Position of the entry for `name`, or -1 when the dictionary has no such key. */
  function IndexOf(entries: seq<LanguageCount>, name: string): (i: int)
    ensures -1 <= i < |entries|
    ensures i >= 0 ==> entries[i].name == name
    ensures i == -1 ==> forall j :: 0 <= j < |entries| ==> entries[j].name != name
  {
    if |entries| == 0 then -1
    else if entries[0].name == name then 0
    else
      var j := IndexOf(entries[1..], name);
      if j < 0 then -1 else j + 1
  }

  /** `dict[name] = (dict[name] || 0) + 1` */
  function Increment(entries: seq<LanguageCount>, name: string): seq<LanguageCount> {
    var i := IndexOf(entries, name);
    if i >= 0 then entries[i := LanguageCount(name, entries[i].value + 1)]
    else entries + [LanguageCount(name, 1)]
  }

  /** The dictionary after visiting every repository in order. */
  function LanguageCounts(repos: seq<Repo>): seq<LanguageCount> {
    if |repos| == 0 then []
    else
      var prev := LanguageCounts(repos[..|repos| - 1]);
      var r := repos[|repos| - 1];
      if HasLanguage(r) then Increment(prev, r.language.value) else prev
  }

  // ---------------------------------------------------------------------
  // Reference definitions

  /** How many repositories have `name` as their primary language. */
  function CountOf(repos: seq<Repo>, name: string): nat {
    if |repos| == 0 then 0
    else
      var r := repos[|repos| - 1];
      CountOf(repos[..|repos| - 1], name) + (if HasLanguage(r) && r.language.value == name then 1 else 0)
  }

  /** How many repositories have a primary language at all. */
  function WithLanguageCount(repos: seq<Repo>): (n: nat)
    ensures n <= |repos|
  {
    if |repos| == 0 then 0
    else WithLanguageCount(repos[..|repos| - 1]) + (if HasLanguage(repos[|repos| - 1]) then 1 else 0)
  }

  function SumValues(entries: seq<LanguageCount>): int {
    if |entries| == 0 then 0 else SumValues(entries[..|entries| - 1]) + entries[|entries| - 1].value
  }

  function SumStars(repos: seq<Repo>): int {
    if |repos| == 0 then 0 else SumStars(repos[..|repos| - 1]) + repos[|repos| - 1].stargazersCount
  }

  function SumForks(repos: seq<Repo>): int {
    if |repos| == 0 then 0 else SumForks(repos[..|repos| - 1]) + repos[|repos| - 1].forksCount
  }

  // ---------------------------------------------------------------------
  // Properties of the count

  lemma IncrementDistinct(entries: seq<LanguageCount>, name: string)
    requires NamesDistinct(entries)
    ensures NamesDistinct(Increment(entries, name))
  {
  }

  lemma {:induction false} LanguageCountsDistinct(repos: seq<Repo>)
    ensures NamesDistinct(LanguageCounts(repos))
  {
    if |repos| > 0 {
      var prev := repos[..|repos| - 1];
      LanguageCountsDistinct(prev);
      var r := repos[|repos| - 1];
      if HasLanguage(r) {
        IncrementDistinct(LanguageCounts(prev), r.language.value);
      }
    }
  }

  /** Replacing an entry by one with the same key keeps every lookup. */
  lemma {:induction false} IndexOfUpdate(entries: seq<LanguageCount>, i: nat, e: LanguageCount, name: string)
    requires i < |entries| && e.name == entries[i].name
    ensures IndexOf(entries[i := e], name) == IndexOf(entries, name)
  {
    if i > 0 {
      assert entries[i := e][1..] == entries[1..][i - 1 := e];
      IndexOfUpdate(entries[1..], i - 1, e, name);
    }
  }

  /** A new key at the end is found only when no earlier entry has it. */
  lemma {:induction false} IndexOfAppend(entries: seq<LanguageCount>, e: LanguageCount, name: string)
    ensures IndexOf(entries + [e], name)
         == if IndexOf(entries, name) >= 0 then IndexOf(entries, name)
            else if e.name == name then |entries| else -1
  {
    if |entries| > 0 {
      assert (entries + [e])[1..] == entries[1..] + [e];
      IndexOfAppend(entries[1..], e, name);
    } else {
      assert [] + [e] == [e];
      assert IndexOf([e][1..], name) == -1;
    }
  }

  /** The count stored for `name`, 0 when the dictionary has no such key. */
  function ValueOf(entries: seq<LanguageCount>, name: string): int {
    var i := IndexOf(entries, name);
    if i >= 0 then entries[i].value else 0
  }

  lemma IncrementValueOf(entries: seq<LanguageCount>, key: string, name: string)
    ensures IndexOf(Increment(entries, key), name) >= 0 <==> IndexOf(entries, name) >= 0 || key == name
    ensures ValueOf(Increment(entries, key), name) == ValueOf(entries, name) + (if key == name then 1 else 0)
  {
    var i := IndexOf(entries, key);
    if i >= 0 {
      var e := LanguageCount(key, entries[i].value + 1);
      assert Increment(entries, key) == entries[i := e];
      IndexOfUpdate(entries, i, e, name);
    } else {
      var e := LanguageCount(key, 1);
      assert Increment(entries, key) == entries + [e];
      IndexOfAppend(entries, e, name);
    }
  }

  lemma {:induction false} LanguageCountsValueOf(repos: seq<Repo>, name: string)
    ensures IndexOf(LanguageCounts(repos), name) >= 0 <==> CountOf(repos, name) > 0
    ensures ValueOf(LanguageCounts(repos), name) == CountOf(repos, name)
  {
    if |repos| > 0 {
      var prefix := repos[..|repos| - 1];
      var r := repos[|repos| - 1];
      LanguageCountsValueOf(prefix, name);
      if HasLanguage(r) {
        assert LanguageCounts(repos) == Increment(LanguageCounts(prefix), r.language.value);
        IncrementValueOf(LanguageCounts(prefix), r.language.value, name);
      } else {
        assert LanguageCounts(repos) == LanguageCounts(prefix);
      }
    }
  }

  /**
   * The dictionary has an entry for a language exactly when some repository
   * has it, and that entry holds the number of such repositories.
   */
  lemma LanguageCountsValues(repos: seq<Repo>, name: string)
    ensures var entries := LanguageCounts(repos);
      && (IndexOf(entries, name) >= 0 <==> CountOf(repos, name) > 0)
      && (IndexOf(entries, name) >= 0 ==> entries[IndexOf(entries, name)].value == CountOf(repos, name))
  {
    LanguageCountsValueOf(repos, name);
  }

  /** Every entry holds a positive count that matches its language. */
  lemma LanguageCountsEntries(repos: seq<Repo>)
    ensures forall e :: e in LanguageCounts(repos) ==> e.value == CountOf(repos, e.name) >= 1
  {
    var entries := LanguageCounts(repos);
    LanguageCountsDistinct(repos);
    forall e | e in entries ensures e.value == CountOf(repos, e.name) >= 1 {
      var k :| 0 <= k < |entries| && entries[k] == e;
      LanguageCountsValues(repos, e.name);
      assert IndexOf(entries, e.name) == k;
    }
  }

  lemma {:induction false} SumValuesUpdate(entries: seq<LanguageCount>, i: nat, e: LanguageCount)
    requires i < |entries|
    ensures SumValues(entries[i := e]) == SumValues(entries) - entries[i].value + e.value
    decreases |entries|
  {
    var n := |entries|;
    var updated := entries[i := e];
    if i < n - 1 {
      assert updated[..n - 1] == entries[..n - 1][i := e];
      SumValuesUpdate(entries[..n - 1], i, e);
    } else {
      assert updated[..n - 1] == entries[..n - 1];
    }
  }

  /** One more repository of a language adds one to the sum of the counts. */
  lemma SumValuesIncrement(entries: seq<LanguageCount>, name: string)
    ensures SumValues(Increment(entries, name)) == SumValues(entries) + 1
  {
    var i := IndexOf(entries, name);
    if i >= 0 {
      SumValuesUpdate(entries, i, LanguageCount(name, entries[i].value + 1));
    } else {
      var next := entries + [LanguageCount(name, 1)];
      assert next[..|next| - 1] == entries;
    }
  }

  /**
   * The counts add up to the number of repositories that have a language,
   * which is at most the number of repositories.
   */
  lemma {:induction false} LanguageCountsSum(repos: seq<Repo>)
    ensures SumValues(LanguageCounts(repos)) == WithLanguageCount(repos) <= |repos|
  {
    if |repos| > 0 {
      var prefix := repos[..|repos| - 1];
      var r := repos[|repos| - 1];
      LanguageCountsSum(prefix);
      if HasLanguage(r) {
        assert LanguageCounts(repos) == Increment(LanguageCounts(prefix), r.language.value);
        assert WithLanguageCount(repos) == WithLanguageCount(prefix) + 1;
        SumValuesIncrement(LanguageCounts(prefix), r.language.value);
      } else {
        assert LanguageCounts(repos) == LanguageCounts(prefix);
        assert WithLanguageCount(repos) == WithLanguageCount(prefix);
      }
    }
  }

  // ---------------------------------------------------------------------
  // Order independence

  /** The sum of `f` over the repositories, taken from the last one back. */
  function SumOf(repos: seq<Repo>, f: Repo -> int): int {
    if |repos| == 0 then 0 else SumOf(repos[..|repos| - 1], f) + f(repos[|repos| - 1])
  }

  function Stars(r: Repo): int { r.stargazersCount }

  function Forks(r: Repo): int { r.forksCount }

  function HasAnyLanguage(r: Repo): int { if HasLanguage(r) then 1 else 0 }

  /** 1 for a repository whose language is `name`, 0 for any other. */
  function IsOfLanguage(name: string): Repo -> int {
    r => if HasLanguage(r) && r.language.value == name then 1 else 0
  }

  lemma {:induction false} SumOfConcat(xs: seq<Repo>, ys: seq<Repo>, f: Repo -> int)
    ensures SumOf(xs + ys, f) == SumOf(xs, f) + SumOf(ys, f)
    decreases |ys|
  {
    var zs := xs + ys;
    if |ys| > 0 {
      assert zs[..|zs| - 1] == xs + ys[..|ys| - 1];
      assert zs[|zs| - 1] == ys[|ys| - 1];
      SumOfConcat(xs, ys[..|ys| - 1], f);
    } else {
      assert zs == xs;
    }
  }

  /** A sum over the repositories does not depend on their order. */
  lemma {:induction false} SumOfPermutation(xs: seq<Repo>, ys: seq<Repo>, f: Repo -> int)
    requires multiset(xs) == multiset(ys)
    ensures SumOf(xs, f) == SumOf(ys, f)
    decreases |xs|
  {
    if |xs| == 0 {
      assert |multiset(ys)| == |ys| == 0;
    } else {
      var n := |xs| - 1;
      var x := xs[n];
      assert x in multiset(ys);
      var j :| 0 <= j < |ys| && ys[j] == x;
      var front, back := ys[..j], ys[j + 1..];
      assert ys == front + [x] + back;
      assert xs == xs[..n] + [x];
      assert multiset(xs) == multiset(xs[..n]) + multiset{x};
      assert multiset(ys) == multiset(front) + multiset{x} + multiset(back);
      assert multiset(front + back) == multiset(front) + multiset(back);
      assert multiset(xs[..n]) == multiset(xs) - multiset{x};
      assert multiset(front + back) == multiset(ys) - multiset{x};
      SumOfPermutation(xs[..n], front + back, f);
      SumOfConcat(front + [x], back, f);
      SumOfConcat(front, [x], f);
      SumOfConcat(front, back, f);
      assert [x][..0] == [];
    }
  }

  lemma {:induction false} SumStarsForks(repos: seq<Repo>)
    ensures SumStars(repos) == SumOf(repos, Stars)
    ensures SumForks(repos) == SumOf(repos, Forks)
  {
    if |repos| > 0 {
      SumStarsForks(repos[..|repos| - 1]);
    }
  }

  lemma {:induction false} CountsAsSums(repos: seq<Repo>, name: string)
    ensures CountOf(repos, name) == SumOf(repos, IsOfLanguage(name))
    ensures WithLanguageCount(repos) == SumOf(repos, HasAnyLanguage)
  {
    if |repos| > 0 {
      CountsAsSums(repos[..|repos| - 1], name);
    }
  }

  /** With the same count for every language, an entry of one dictionary is an entry of the other. */
  lemma EntryOfEqualCounts(xs: seq<Repo>, ys: seq<Repo>, e: LanguageCount)
    requires forall name :: CountOf(xs, name) == CountOf(ys, name)
    requires e in LanguageCounts(xs)
    ensures e in LanguageCounts(ys)
  {
    LanguageCountsEntries(xs);
    LanguageCountsValues(ys, e.name);
    var entries := LanguageCounts(ys);
    var i := IndexOf(entries, e.name);
    assert entries[i] == e;
  }

  /**
   * Reordering the repositories changes neither the star and fork totals nor
   * the count of any language: the dictionary holds the same entries, and
   * only their order can differ.
   */
  lemma AggregationOrderIndependent(xs: seq<Repo>, ys: seq<Repo>)
    requires multiset(xs) == multiset(ys)
    ensures SumStars(xs) == SumStars(ys) && SumForks(xs) == SumForks(ys)
    ensures WithLanguageCount(xs) == WithLanguageCount(ys)
    ensures forall name :: CountOf(xs, name) == CountOf(ys, name)
    ensures forall name :: ValueOf(LanguageCounts(xs), name) == ValueOf(LanguageCounts(ys), name)
    ensures forall e :: e in LanguageCounts(xs) <==> e in LanguageCounts(ys)
  {
    SumStarsForks(xs);
    SumStarsForks(ys);
    SumOfPermutation(xs, ys, Stars);
    SumOfPermutation(xs, ys, Forks);
    forall name ensures CountOf(xs, name) == CountOf(ys, name) {
      CountsAsSums(xs, name);
      CountsAsSums(ys, name);
      SumOfPermutation(xs, ys, IsOfLanguage(name));
    }
    CountsAsSums(xs, "");
    CountsAsSums(ys, "");
    SumOfPermutation(xs, ys, HasAnyLanguage);
    forall name ensures ValueOf(LanguageCounts(xs), name) == ValueOf(LanguageCounts(ys), name) {
      LanguageCountsValueOf(xs, name);
      LanguageCountsValueOf(ys, name);
    }
    forall e ensures e in LanguageCounts(xs) <==> e in LanguageCounts(ys) {
      if e in LanguageCounts(xs) {
        EntryOfEqualCounts(xs, ys, e);
      }
      if e in LanguageCounts(ys) {
        EntryOfEqualCounts(ys, xs, e);
      }
    }
  }
}
