/**
 * The candidate list of `MonitorEngine.process_message`
 * (core/monitor_engine.py): one entry per registered monitor, keyed by its
 * class name and position, then sorted by priority with Python's stable
 * `list.sort`.
 */
module EngineOrder {
  import opened PyStr
  import opened Config

  /** One monitor of the account, as the dispatch loop sees it. */
  datatype Candidate = Candidate(priority: int, key: string, index: nat, mode: string)

  /** `monitor.__class__.__name__` for the monitor built from each kind of configuration. */
  function ClassName(c: TypedConfig): string
  {
    match c
    case KeywordCfg(_) => "KeywordMonitor"
    case FileCfg(_) => "FileMonitor"
    case ButtonCfg(_) => "ButtonMonitor"
    case AllMessagesCfg(_) => "AllMessagesMonitor"
    case ImageButtonCfg(_) => "ImageButtonMonitor"
    case AIMonitorCfg(_) => "AIMonitor"
  }

  /** `f"{monitor.__class__.__name__}_{i}"` */
  function MonitorKey(c: TypedConfig, i: nat): string
  {
    ClassName(c) + "_" + IntToString(i)
  }

  /** The candidate tuple for the monitor at position `i`. */
  function CandidateAt(ms: seq<TypedConfig>, i: nat): Candidate
    requires i < |ms|
  {
    Candidate(ms[i].Base().priority, MonitorKey(ms[i], i), i, ms[i].Base().executionMode)
  }

  /** The unsorted candidate list: registration order. */
  function CandidatesOf(ms: seq<TypedConfig>): (r: seq<Candidate>)
    ensures |r| == |ms|
    ensures forall i :: 0 <= i < |ms| ==> r[i] == CandidateAt(ms, i)
  {
    seq(|ms|, i requires 0 <= i < |ms| => CandidateAt(ms, i))
  }

  /** `a` comes before `b`: a lower priority, or the same priority and an earlier registration. */
  predicate Before(a: Candidate, b: Candidate)
  {
    a.priority < b.priority || (a.priority == b.priority && a.index < b.index)
  }

  /** Sorted by priority, ties in registration order: what a stable sort by priority produces. */
  predicate StablySorted(s: seq<Candidate>)
  {
    forall i, j :: 0 <= i < j < |s| ==> Before(s[i], s[j])
  }

  /** Positions strictly increase along the list (true of registration order). */
  predicate IndicesIncrease(s: seq<Candidate>)
  {
    forall i, j :: 0 <= i < j < |s| ==> s[i].index < s[j].index
  }

  /** Insert `x` before the first entry whose priority is not smaller. */
  function Insert(x: Candidate, s: seq<Candidate>): (r: seq<Candidate>)
    ensures |r| == |s| + 1
    ensures forall y :: y in r <==> y == x || y in s
  {
    if s == [] || x.priority <= s[0].priority then [x] + s
    else [s[0]] + Insert(x, s[1..])
  }

  /** `monitors_list.sort(key=lambda x: x[0])`, written as an insertion sort. */
  function SortByPriority(s: seq<Candidate>): (r: seq<Candidate>)
    ensures |r| == |s|
    ensures forall y :: y in r <==> y in s
  {
    if s == [] then [] else Insert(s[0], SortByPriority(s[1..]))
  }

  lemma {:induction false} InsertPermutes(x: Candidate, s: seq<Candidate>)
    ensures multiset(Insert(x, s)) == multiset(s) + multiset{x}
  {
    if !(s == [] || x.priority <= s[0].priority) {
      InsertPermutes(x, s[1..]);
      assert s == [s[0]] + s[1..];
    }
  }

  /** Sorting permutes: every monitor stays, with its multiplicity. */
  lemma {:induction false} SortPermutes(s: seq<Candidate>)
    ensures multiset(SortByPriority(s)) == multiset(s)
  {
    if s != [] {
      SortPermutes(s[1..]);
      InsertPermutes(s[0], SortByPriority(s[1..]));
      assert s == [s[0]] + s[1..];
    }
  }

  /** A head that comes before every entry of a sorted tail keeps the list sorted. */
  lemma ConsSorted(h: Candidate, t: seq<Candidate>)
    requires StablySorted(t)
    requires forall k :: 0 <= k < |t| ==> Before(h, t[k])
    ensures StablySorted([h] + t)
  {
    var r := [h] + t;
    forall i, j | 0 <= i < j < |r| ensures Before(r[i], r[j]) {
      if i == 0 {
        assert r[j] == t[j - 1];
      } else {
        assert r[i] == t[i - 1] && r[j] == t[j - 1];
      }
    }
  }

  lemma TailSorted(s: seq<Candidate>)
    requires s != [] && StablySorted(s)
    ensures StablySorted(s[1..])
    ensures forall k :: 0 <= k < |s| - 1 ==> Before(s[0], s[1..][k])
  {
    var t := s[1..];
    forall i, j | 0 <= i < j < |t| ensures Before(t[i], t[j]) {
      assert t[i] == s[i + 1] && t[j] == s[j + 1];
    }
  }

  lemma {:induction false} InsertKeepsOrder(x: Candidate, s: seq<Candidate>)
    requires StablySorted(s)
    requires forall k :: 0 <= k < |s| ==> x.index < s[k].index
    ensures StablySorted(Insert(x, s))
  {
    if s == [] || x.priority <= s[0].priority {
      forall k | 0 <= k < |s| ensures Before(x, s[k]) {
        if k > 0 {
          assert Before(s[0], s[k]);
        }
      }
      ConsSorted(x, s);
    } else {
      var t := s[1..];
      TailSorted(s);
      forall k | 0 <= k < |t| ensures x.index < t[k].index {
        assert t[k] == s[k + 1];
      }
      InsertKeepsOrder(x, t);
      var it := Insert(x, t);
      forall k | 0 <= k < |it| ensures Before(s[0], it[k]) {
        assert it[k] in it;
        if it[k] != x {
          var m :| 0 <= m < |t| && t[m] == it[k];
        }
      }
      ConsSorted(s[0], it);
    }
  }

  /**
   * Sorting a list given in registration order puts lower priorities first
   * and keeps registration order among equal priorities.
   */
  lemma {:induction false} SortIsStable(s: seq<Candidate>)
    requires IndicesIncrease(s)
    ensures StablySorted(SortByPriority(s))
  {
    if s != [] {
      var t := s[1..];
      assert IndicesIncrease(t) by {
        forall i, j | 0 <= i < j < |t| ensures t[i].index < t[j].index {
          assert t[i] == s[i + 1] && t[j] == s[j + 1];
        }
      }
      SortIsStable(t);
      var st := SortByPriority(t);
      forall k | 0 <= k < |st| ensures s[0].index < st[k].index {
        assert st[k] in st;
        var m :| 0 <= m < |t| && t[m] == st[k];
        assert t[m] == s[m + 1];
      }
      InsertKeepsOrder(s[0], st);
    }
  }

  /** The registration-order candidate list has increasing positions. */
  lemma CandidatesInOrder(ms: seq<TypedConfig>)
    ensures IndicesIncrease(CandidatesOf(ms))
  {
  }

  /**
   * The sorted candidates of `process_message`, the dispatch order: every
   * monitor exactly once, lower priorities first, registration order among
   * equal priorities.
   */
  function SortedCandidates(ms: seq<TypedConfig>): (r: seq<Candidate>)
    ensures multiset(r) == multiset(CandidatesOf(ms))
    ensures |r| == |ms|
    ensures StablySorted(r)
    ensures forall k :: 0 <= k < |r| ==> r[k].index < |ms|
  {
    CandidatesInOrder(ms);
    SortIsStable(CandidatesOf(ms));
    SortPermutes(CandidatesOf(ms));
    var s := SortByPriority(CandidatesOf(ms));
    assert forall k :: 0 <= k < |s| ==> s[k].index < |ms| by {
      forall k | 0 <= k < |s| ensures s[k].index < |ms| {
        assert s[k] in s;
        var m :| 0 <= m < |ms| && CandidatesOf(ms)[m] == s[k];
      }
    }
    s
  }

  /** Sorting keeps each candidate's link to its monitor. */
  lemma SortedLinksBack(ms: seq<TypedConfig>, k: nat)
    requires k < |SortedCandidates(ms)|
    ensures var c := SortedCandidates(ms)[k];
      c.index < |ms| && c == CandidateAt(ms, c.index)
  {
    var s := SortedCandidates(ms);
    assert s[k] in s;
    var m :| 0 <= m < |ms| && CandidatesOf(ms)[m] == s[k];
  }
}
