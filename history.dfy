/** The bounded, most-recent-first history that `addToHistory` maintains. */
module History {
  import opened Basics

  /** `CONFIG.MAX_HISTORY_ITEMS`. */
  const MaxHistoryItems: nat := 5

  /** `currentResult` as `showResult` builds it; the timestamp is the caller's
      clock reading, in milliseconds. */
  datatype Result = Result(prediction: int, confidence: Option<real>, text: string, timestamp: int)

  /** A history item: `{ id, ...result }`, the id being the caller's `Date.now()` string. */
  datatype Entry = Entry(id: string, result: Result)

  /** One `addToHistory` step: `unshift` then `slice(0, MAX_HISTORY_ITEMS)`. */
  function Record(h: seq<Entry>, e: Entry): (r: seq<Entry>)
    ensures |r| == Min(|h| + 1, MaxHistoryItems)
    ensures r[0] == e
    ensures r[1..] == Take(h, MaxHistoryItems - 1)
  {
    var r := Take([e] + h, MaxHistoryItems);
    assert r[1..] == ([e] + h)[1..|r|];
    assert ([e] + h)[1..] == h;
    r
  }

  /** The history after recording `es`, oldest first. */
  function RecordAll(h: seq<Entry>, es: seq<Entry>): seq<Entry> {
    if es == [] then h else Record(RecordAll(h, es[..|es| - 1]), es[|es| - 1])
  }

  function Reverse<T>(s: seq<T>): (r: seq<T>)
    ensures |r| == |s|
  {
    if s == [] then [] else [s[|s| - 1]] + Reverse(s[..|s| - 1])
  }

  lemma {:induction false} ReverseAt<T>(s: seq<T>, i: nat)
    requires i < |s|
    ensures Reverse(s)[i] == s[|s| - 1 - i]
  {
    if i > 0 {
      ReverseAt(s[..|s| - 1], i - 1);
    }
  }

  lemma TakeConsTake(x: Entry, s: seq<Entry>, n: nat)
    requires n >= 1
    ensures Take([x] + Take(s, n), n) == Take([x] + s, n)
  {
    var a, b := [x] + Take(s, n), [x] + s;
    assert |Take(a, n)| == |Take(b, n)|;
    forall i | 0 <= i < |Take(a, n)|
      ensures Take(a, n)[i] == Take(b, n)[i]
    {
      if i > 0 {
        assert a[i] == Take(s, n)[i - 1] == s[i - 1] == b[i];
      }
    }
  }

  /** Any run of recordings leaves the newest `MaxHistoryItems` entries of
      everything seen, newest first, whatever the history held before. */
  lemma {:induction false} RecordAllKeepsNewest(h: seq<Entry>, es: seq<Entry>)
    requires es != []
    ensures RecordAll(h, es) == Take(Reverse(es) + h, MaxHistoryItems)
  {
    var init, x := es[..|es| - 1], es[|es| - 1];
    assert Reverse(es) == [x] + Reverse(init);
    if init == [] {
      assert RecordAll(h, init) == h;
      assert Reverse(es) + h == [x] + h;
    } else {
      RecordAllKeepsNewest(h, init);
      TakeConsTake(x, Reverse(init) + h, MaxHistoryItems);
      assert [x] + (Reverse(init) + h) == Reverse(es) + h;
    }
  }

  /** Consequences for callers: never more than the capacity, and position
      `i` holds the `i`-th most recent recording. */
  lemma RecordAllBoundedAndOrdered(h: seq<Entry>, es: seq<Entry>, i: nat)
    requires es != [] && i < Min(|es|, MaxHistoryItems)
    ensures |RecordAll(h, es)| <= MaxHistoryItems
    ensures i < |RecordAll(h, es)| && RecordAll(h, es)[i] == es[|es| - 1 - i]
  {
    RecordAllKeepsNewest(h, es);
    ReverseAt(es, i);
    assert (Reverse(es) + h)[i] == Reverse(es)[i];
  }
}
