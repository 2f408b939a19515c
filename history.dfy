/** The bounded history lists of the two GUIs: a list that already holds `MAX_HISTORY` items
    drops its oldest item (`pop(0)`) before the new one is appended. */
module History {

  /** The local constant `MAX_HISTORY` of both GUIs' update loops (not the settings field). */
  const MAX_HISTORY: nat := 60

  /** The last `MAX_HISTORY` items of `t` (all of them when there are fewer): the reference
      definition of what a bounded history holds. */
  function Window<T>(t: seq<T>): seq<T>
  {
    if |t| <= MAX_HISTORY then t else t[|t| - MAX_HISTORY..]
  }

  /** One `if len(h) >= MAX_HISTORY: h.pop(0)` followed by `h.append(x)`. */
  function Push<T>(s: seq<T>, x: T): (r: seq<T>)
    ensures |s| <= MAX_HISTORY ==> |r| <= MAX_HISTORY
    ensures |r| > 0 && r[|r| - 1] == x
    ensures |r| == if |s| >= MAX_HISTORY then |s| else |s| + 1
  {
    if |s| >= MAX_HISTORY then s[1..] + [x] else s + [x]
  }

  /** On a history of at most `MAX_HISTORY` items, a push keeps the last `MAX_HISTORY` items
      of the history followed by the new one. */
  lemma PushIsWindow<T>(s: seq<T>, x: T)
    requires |s| <= MAX_HISTORY
    ensures Push(s, x) == Window(s + [x])
  {
    if |s| == MAX_HISTORY {
      assert (s + [x])[|s + [x]| - MAX_HISTORY..] == s[1..] + [x];
    }
  }

  /** Concatenation regroups; stated once so that callers with large contexts need not
      re-derive it. */
  lemma AppendAssoc<T>(a: seq<T>, b: seq<T>, c: seq<T>)
    ensures a + (b + c) == (a + b) + c
  {
  }

  /** The result of pushing the items of `xs` one after the other, oldest first. */
  function PushAll<T>(s: seq<T>, xs: seq<T>): seq<T>
    decreases |xs|
  {
    if xs == [] then s else PushAll(Push(s, xs[0]), xs[1..])
  }

  lemma WindowOfWindow<T>(t: seq<T>, u: seq<T>)
    ensures Window(Window(t) + u) == Window(t + u)
  {
    if |t| > MAX_HISTORY {
      var w := t[|t| - MAX_HISTORY..];
      if |w + u| > MAX_HISTORY {
        assert (w + u)[|w + u| - MAX_HISTORY..] == (t + u)[|t + u| - MAX_HISTORY..];
      }
    }
  }

  /** Pushing any number of items leaves the last `MAX_HISTORY` items of the old history
      followed by the new items, in push order. */
  lemma {:induction false} PushAllIsWindow<T>(s: seq<T>, xs: seq<T>)
    requires |s| <= MAX_HISTORY
    ensures PushAll(s, xs) == Window(s + xs)
    decreases |xs|
  {
    if xs == [] {
      assert s + xs == s;
    } else {
      var s' := Push(s, xs[0]);
      PushIsWindow(s, xs[0]);
      PushAllIsWindow(s', xs[1..]);
      WindowOfWindow(s + [xs[0]], xs[1..]);
      assert s + [xs[0]] + xs[1..] == s + xs;
    }
  }

  /** Pushing `MAX_HISTORY + k` items (k >= 0) leaves exactly `MAX_HISTORY` items, the last
      ones pushed, in push order. */
  lemma OverflowKeepsLastPushed<T>(s: seq<T>, xs: seq<T>)
    requires |s| <= MAX_HISTORY && |xs| >= MAX_HISTORY
    ensures PushAll(s, xs) == xs[|xs| - MAX_HISTORY..]
    ensures |PushAll(s, xs)| == MAX_HISTORY
  {
    PushAllIsWindow(s, xs);
    assert (s + xs)[|s + xs| - MAX_HISTORY..] == xs[|xs| - MAX_HISTORY..];
  }

  /** The network pair: both lists lose their oldest item when the SENT list is full, then
      both are appended. Popping the received list fails when it is empty, which the caller
      must rule out. */
  function PushPair(sent: seq<real>, recv: seq<real>, a: real, b: real): (r: (seq<real>, seq<real>))
    requires |sent| >= MAX_HISTORY ==> recv != []
    ensures |sent| == |recv| ==> |r.0| == |r.1|
    ensures r.0 == Push(sent, a)
    ensures |sent| == |recv| ==> r.1 == Push(recv, b)
  {
    if |sent| >= MAX_HISTORY then (sent[1..] + [a], recv[1..] + [b]) else (sent + [a], recv + [b])
  }

  /** The per-core loop over `enumerate(cpu_usage)`: core `i` is pushed for every `i` that
      both lists have; a core past the end of `hist` raises, which the caller reports. */
  function PushCores(hist: seq<seq<real>>, usage: seq<real>): seq<seq<real>>
  {
    seq(|hist|, i requires 0 <= i < |hist| => if i < |usage| then Push(hist[i], usage[i]) else hist[i])
  }

  /** `for i, usage in enumerate(cpu_usage)`, pushing onto `cpu_history[i]`; `ok` is false when
      an index past the last core list is reached (an IndexError), after the earlier cores were
      pushed. */
  method AppendCoreUsage(cpuHistory: seq<seq<real>>, usage: seq<real>) returns (updated: seq<seq<real>>, ok: bool)
    ensures ok <==> |usage| <= |cpuHistory|
    ensures |updated| == |cpuHistory|
    ensures forall i :: 0 <= i < |cpuHistory| && i < |usage| ==> updated[i] == Push(cpuHistory[i], usage[i])
    ensures forall i :: |usage| <= i < |cpuHistory| ==> updated[i] == cpuHistory[i]
    ensures updated == PushCores(cpuHistory, usage)
  {
    updated := cpuHistory;
    var i := 0;
    while i < |usage|
      invariant 0 <= i <= |usage| && i <= |cpuHistory|
      invariant |updated| == |cpuHistory|
      invariant forall j :: 0 <= j < i ==> updated[j] == Push(cpuHistory[j], usage[j])
      invariant forall j :: i <= j < |cpuHistory| ==> updated[j] == cpuHistory[j]
    {
      if i >= |cpuHistory| {
        ok := false;
        assert updated == PushCores(cpuHistory, usage);
        return;
      }
      var core := updated[i];
      if |core| >= MAX_HISTORY {
        core := core[1..];
      }
      updated := updated[i := core + [usage[i]]];
      i := i + 1;
    }
    ok := true;
    assert updated == PushCores(cpuHistory, usage);
  }
}
