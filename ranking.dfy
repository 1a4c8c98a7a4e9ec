/** Ordering ranked entries: each entry is a name with the position at which the judge's text
    first mentions it; an insertion sort puts the entries in order of that position. */
module Ranking {
  type Entry = (nat, string)

  predicate Sorted(es: seq<Entry>) {
    forall i, j :: 0 <= i < j < |es| ==> es[i].0 <= es[j].0
  }

  function Names(es: seq<Entry>): (ns: seq<string>)
    ensures |ns| == |es|
    ensures forall i :: 0 <= i < |es| ==> ns[i] == es[i].1
  {
    seq(|es|, i requires 0 <= i < |es| => es[i].1)
  }

  /** Put `e` after every entry whose position is not larger than its own. */
  function Insert(e: Entry, es: seq<Entry>): (r: seq<Entry>)
    ensures |r| == |es| + 1
  {
    if es == [] then [e]
    else if e.0 < es[0].0 then [e] + es
    else [es[0]] + Insert(e, es[1..])
  }

  function Sort(es: seq<Entry>): (r: seq<Entry>)
    ensures |r| == |es|
  {
    if es == [] then [] else Insert(es[|es| - 1], Sort(es[..|es| - 1]))
  }

  /** Two entries out of order are swapped. */
  lemma SortSwapsPair(a: Entry, b: Entry)
    requires b.0 < a.0
    ensures Sort([a, b]) == [b, a]
  {
    assert [a, b][..1] == [a];
    assert Sort([a]) == [a];
  }

  lemma {:induction false} InsertSorted(e: Entry, es: seq<Entry>)
    requires Sorted(es)
    ensures Sorted(Insert(e, es))
    ensures forall i :: 0 <= i < |Insert(e, es)| ==> Insert(e, es)[i] == e || Insert(e, es)[i] in es
    decreases |es|
  {
    if es != [] && e.0 >= es[0].0 {
      InsertSorted(e, es[1..]);
      var r := Insert(e, es);
      assert r == [es[0]] + Insert(e, es[1..]);
      forall i | 1 <= i < |r|
        ensures es[0].0 <= r[i].0
      {
        assert r[i] == e || r[i] in es[1..];
      }
    }
  }

  lemma {:induction false} InsertPermutes(e: Entry, es: seq<Entry>)
    ensures multiset(Insert(e, es)) == multiset(es) + multiset{e}
    decreases |es|
  {
    if es != [] && e.0 >= es[0].0 {
      InsertPermutes(e, es[1..]);
      assert es == [es[0]] + es[1..];
    }
  }

  lemma NamesCons(x: Entry, es: seq<Entry>)
    ensures Names([x] + es) == [x.1] + Names(es)
  {
  }

  lemma {:induction false} InsertPermutesNames(e: Entry, es: seq<Entry>)
    ensures multiset(Names(Insert(e, es))) == multiset(Names(es)) + multiset{e.1}
    decreases |es|
  {
    if es == [] {
      NamesCons(e, []);
    } else if e.0 < es[0].0 {
      NamesCons(e, es);
    } else {
      InsertPermutesNames(e, es[1..]);
      assert es == [es[0]] + es[1..];
      NamesCons(es[0], es[1..]);
      NamesCons(es[0], Insert(e, es[1..]));
    }
  }

  /** The sorted entries are in order of position and are the same entries (and so the same
      names, with the same multiplicities) as the input. */
  lemma {:induction false} SortSpec(es: seq<Entry>)
    ensures Sorted(Sort(es))
    ensures multiset(Sort(es)) == multiset(es)
    ensures multiset(Names(Sort(es))) == multiset(Names(es))
    decreases |es|
  {
    if es != [] {
      var init, last := es[..|es| - 1], es[|es| - 1];
      SortSpec(init);
      InsertSorted(last, Sort(init));
      InsertPermutes(last, Sort(init));
      InsertPermutesNames(last, Sort(init));
      assert es == init + [last];
      assert Names(es) == Names(init) + [last.1];
    }
  }

  /** Entries whose positions already increase are left as they are. */
  lemma {:induction false} SortOfSorted(es: seq<Entry>)
    requires forall i, j :: 0 <= i < j < |es| ==> es[i].0 < es[j].0
    ensures Sort(es) == es
    decreases |es|
  {
    if es != [] {
      var init, last := es[..|es| - 1], es[|es| - 1];
      SortOfSorted(init);
      InsertLast(last, init);
      assert init + [last] == es;
    }
  }

  lemma {:induction false} InsertLast(e: Entry, es: seq<Entry>)
    requires forall i :: 0 <= i < |es| ==> es[i].0 < e.0
    ensures Insert(e, es) == es + [e]
    decreases |es|
  {
    if es != [] {
      InsertLast(e, es[1..]);
      assert es == [es[0]] + es[1..];
    }
  }
}
