/**
 * The vocabulary both async detectors share: the name pattern, the known
 * async thread names, the async class name fragments, and the tests built
 * on them. The legacy and the new detector declare the same three lists.
 */
module AsyncNames {
  import opened Common
  import opened Management

  /** The alternatives of the case-insensitive name pattern. */
  const PATTERNS: seq<string> := [
    "async", "completable", "future", "reactive", "reactor", "rx",
    "stream", "pool", "executor", "scheduled", "timer", "worker"]

  /** Names of well-known async thread families, matched case-sensitively. */
  const KNOWN_NAMES: seq<string> := [
    "ForkJoinPool", "CompletableFuture", "Reactor", "RxJava", "AsyncHttpClient",
    "Netty", "Tomcat", "Jetty", "Undertow", "Reactive", "WebFlux"]

  /** Fragments of class names that mark async work in a stack frame. */
  const ASYNC_CLASSES: seq<string> := [
    "CompletableFuture", "Future", "Executor", "ThreadPool", "Scheduled",
    "Reactor", "Flux", "Mono", "Observable", "Single", "Maybe", "WebFlux",
    "Reactive", "Async", "NonBlocking"]

  /** `subs.stream().anyMatch(s::contains)`, tried from the left. */
  predicate ContainsAny(s: string, subs: seq<string>)
    decreases |subs|
  {
    |subs| > 0 && (Contains(s, subs[0]) || ContainsAny(s, subs[1..]))
  }

  /** `ContainsAny` holds exactly when one of the candidates occurs. */
  lemma {:induction false} ContainsAnyIff(s: string, subs: seq<string>)
    ensures ContainsAny(s, subs) <==> exists i :: 0 <= i < |subs| && Contains(s, subs[i])
    decreases |subs|
  {
    if |subs| > 0 {
      ContainsAnyIff(s, subs[1..]);
      if exists i :: 0 <= i < |subs| && Contains(s, subs[i]) {
        var i :| 0 <= i < |subs| && Contains(s, subs[i]);
        if i > 0 {
          assert subs[1..][i - 1] == subs[i];
        }
      }
      if ContainsAny(s, subs[1..]) {
        var i :| 0 <= i < |subs[1..]| && Contains(s, subs[1..][i]);
        assert Contains(s, subs[i + 1]);
      }
    }
  }

  /** An occurrence at one index is enough. */
  lemma ContainsAtIndex(s: string, sub: string, i: nat)
    requires OccursAt(s, sub, i)
    ensures Contains(s, sub)
  {
    ContainsIff(s, sub);
  }

  /** One candidate that occurs is enough. */
  lemma ContainsAnyAt(s: string, subs: seq<string>, i: nat)
    requires i < |subs| && Contains(s, subs[i])
    ensures ContainsAny(s, subs)
  {
    ContainsAnyIff(s, subs);
  }

  /**
   * `ASYNC_PATTERNS.matcher(name).find()`: one alternative of the pattern
   * occurs in the name, letters compared without regard to ASCII case
   * (the flag `(?i)` without Unicode case folding).
   */
  predicate PatternMatch(name: string)
  {
    ContainsAny(ToLowerAscii(name), PATTERNS)
  }

  /** Two names that differ only in the case of ASCII letters match alike. */
  lemma PatternMatchIgnoresCase(a: string, b: string)
    requires EqualsIgnoreCase(a, b)
    ensures PatternMatch(a) == PatternMatch(b)
  {
    assert ToLowerAscii(a) == ToLowerAscii(b);
  }

  /** The name contains one of the known async thread names. */
  predicate KnownName(name: string)
  {
    ContainsAny(name, KNOWN_NAMES)
  }

  /** Legacy `isAsyncClass`: the class name contains one of the async fragments. */
  predicate IsAsyncClass(className: string)
  {
    ContainsAny(className, ASYNC_CLASSES)
  }

  /** How many of the candidates occur in `s`, each counted once. */
  function CountContained(s: string, subs: seq<string>): (n: nat)
    decreases |subs|
  {
    if |subs| == 0 then 0
    else (if Contains(s, subs[0]) then 1 else 0) + CountContained(s, subs[1..])
  }

  /** When exactly one candidate occurs, the count is one. */
  lemma {:induction false} CountOnly(s: string, subs: seq<string>, k: nat)
    requires k < |subs|
    requires forall i :: 0 <= i < |subs| ==> (Contains(s, subs[i]) <==> i == k)
    ensures CountContained(s, subs) == 1
    decreases |subs|
  {
    if k == 0 {
      CountNone(s, subs[1..]);
    } else {
      assert !Contains(s, subs[0]);
      assert forall i :: 0 <= i < |subs[1..]| ==> (Contains(s, subs[1..][i]) <==> i == k - 1) by {
        forall i | 0 <= i < |subs[1..]| ensures subs[1..][i] == subs[i + 1] { }
      }
      CountOnly(s, subs[1..], k - 1);
    }
  }

  /** When no candidate occurs, the count is zero. */
  lemma {:induction false} CountNone(s: string, subs: seq<string>)
    requires forall i :: 0 <= i < |subs| ==> !Contains(s, subs[i])
    ensures CountContained(s, subs) == 0
    decreases |subs|
  {
    if |subs| > 0 {
      assert forall i :: 0 <= i < |subs[1..]| ==> !Contains(s, subs[1..][i]) by {
        forall i | 0 <= i < |subs[1..]| ensures subs[1..][i] == subs[i + 1] { }
      }
      CountNone(s, subs[1..]);
    }
  }

  /** The count is at most the number of candidates and is positive exactly when one occurs. */
  lemma {:induction false} CountContainedBounds(s: string, subs: seq<string>)
    ensures CountContained(s, subs) <= |subs|
    ensures CountContained(s, subs) > 0 <==> ContainsAny(s, subs)
    decreases |subs|
  {
    if |subs| > 0 {
      CountContainedBounds(s, subs[1..]);
    }
  }

  /**
   * For each frame, the number of `frags` its class name contains, summed
   * over the stack.
   */
  function TraceCount(trace: seq<StackFrame>, frags: seq<string>): (n: nat)
    decreases |trace|
  {
    if |trace| == 0 then 0
    else CountContained(trace[0].className, frags) + TraceCount(trace[1..], frags)
  }

  /** The number the new detector sums over the stack, with the async fragments. */
  function TraceMatches(trace: seq<StackFrame>): (n: nat)
  {
    TraceCount(trace, ASYNC_CLASSES)
  }

  /** The stack sum is positive exactly when some frame contains one of the fragments. */
  lemma {:induction false} TraceCountPositive(trace: seq<StackFrame>, frags: seq<string>)
    ensures TraceCount(trace, frags) > 0 <==> exists i :: 0 <= i < |trace| && ContainsAny(trace[i].className, frags)
    decreases |trace|
  {
    if |trace| > 0 {
      CountContainedBounds(trace[0].className, frags);
      TraceCountPositive(trace[1..], frags);
      if exists i :: 0 <= i < |trace| && ContainsAny(trace[i].className, frags) {
        var i :| 0 <= i < |trace| && ContainsAny(trace[i].className, frags);
        if i > 0 {
          assert trace[1..][i - 1] == trace[i];
        }
      }
      if TraceCount(trace[1..], frags) > 0 {
        var i :| 0 <= i < |trace[1..]| && ContainsAny(trace[1..][i].className, frags);
        assert trace[i + 1] == trace[1..][i];
      }
    }
  }

  /** The new detector's stack sum is positive exactly when some frame is an async class. */
  lemma TraceMatchesPositive(trace: seq<StackFrame>)
    ensures TraceMatches(trace) > 0 <==> exists i :: 0 <= i < |trace| && IsAsyncClass(trace[i].className)
  {
    TraceCountPositive(trace, ASYNC_CLASSES);
  }

  /** The stack sum of two stacks one after the other is the sum of the two. */
  lemma {:induction false} TraceCountAppend(trace: seq<StackFrame>, more: seq<StackFrame>, frags: seq<string>)
    ensures TraceCount(trace + more, frags) == TraceCount(trace, frags) + TraceCount(more, frags)
    decreases |trace|
  {
    if |trace| == 0 {
      assert trace + more == more;
    } else {
      assert (trace + more)[1..] == trace[1..] + more;
      TraceCountAppend(trace[1..], more, frags);
    }
  }

  /** A string never contains a longer one. */
  lemma {:induction false} NotContainsLonger(s: string, sub: string)
    requires |sub| > |s|
    ensures !Contains(s, sub)
    decreases |s|
  {
    if |s| > 0 {
      NotContainsLonger(s[1..], sub);
    }
  }

  /** A string never contains a text whose first character it lacks. */
  lemma FirstCharAbsent(s: string, sub: string)
    requires |sub| > 0 && sub[0] !in s
    ensures !Contains(s, sub)
  {
    forall i | 0 <= i <= |s| - |sub|
      ensures !OccursAt(s, sub, i)
    {
      assert s[i..i + |sub|][0] == s[i];
      assert s[i] in s;
    }
    ContainsIff(s, sub);
  }

  /** A string containing `a` contains everything `a` contains. */
  lemma ContainsTransitive(s: string, a: string, b: string)
    requires Contains(s, a) && Contains(a, b)
    ensures Contains(s, b)
  {
    ContainsIff(s, a);
    ContainsIff(a, b);
    var i :| OccursAt(s, a, i);
    var j :| OccursAt(a, b, j);
    assert s[i..i + |a|] == a;
    forall k | 0 <= k < |b|
      ensures s[i + j..i + j + |b|][k] == b[k]
    {
      assert s[i + j + k] == s[i..i + |a|][j + k];
      assert a[j..j + |b|][k] == a[j + k];
    }
    assert s[i + j..i + j + |b|] == b;
    assert OccursAt(s, b, i + j);
    ContainsIff(s, b);
  }

  /**
   * A frame of a `CompletableFuture` class counts twice: its name contains
   * the fragment "Future" as well.
   */
  lemma CompletableFutureCountsTwice(className: string)
    requires Contains(className, "CompletableFuture")
    ensures CountContained(className, ASYNC_CLASSES) >= 2
  {
    assert StartsWith("CompletableFuture"[11..], "Future");
    assert Contains("CompletableFuture", "Future") by {
      assert OccursAt("CompletableFuture", "Future", 11);
      ContainsIff("CompletableFuture", "Future");
    }
    ContainsTransitive(className, "CompletableFuture", "Future");
    assert ASYNC_CLASSES[1..][0] == "Future";
  }

  /** `containsAsyncClass` / `containsClass`: some frame's class name contains `fragment`. */
  predicate AnyFrame(trace: seq<StackFrame>, fragment: string)
  {
    exists i :: 0 <= i < |trace| && Contains(trace[i].className, fragment)
  }

  /** One condition of a categoriser: a text in the thread name, or in a frame's class name. */
  datatype Marker = InName(text: string) | InFrame(text: string)

  predicate Holds(m: Marker, name: string, trace: seq<StackFrame>)
  {
    match m
    case InName(text) => Contains(name, text)
    case InFrame(text) => AnyFrame(trace, text)
  }

  /** One of the markers holds; the markers of a rule are joined by `||`. */
  predicate AnyHolds(ms: seq<Marker>, name: string, trace: seq<StackFrame>)
    decreases |ms|
  {
    |ms| > 0 && (Holds(ms[0], name, trace) || AnyHolds(ms[1..], name, trace))
  }

  lemma AnyHolds2(a: Marker, b: Marker, name: string, trace: seq<StackFrame>)
    ensures AnyHolds([a, b], name, trace) == (Holds(a, name, trace) || Holds(b, name, trace))
  {
    assert [a, b][1..] == [b];
    assert [b][1..] == [];
    assert !AnyHolds([b][1..], name, trace);
    assert AnyHolds([b], name, trace) == Holds(b, name, trace);
  }

  lemma AnyHolds3(a: Marker, b: Marker, c: Marker, name: string, trace: seq<StackFrame>)
    ensures AnyHolds([a, b, c], name, trace) == (Holds(a, name, trace) || AnyHolds([b, c], name, trace))
  {
    assert [a, b, c][1..] == [b, c];
  }

  lemma AnyHolds4(a: Marker, b: Marker, c: Marker, d: Marker, name: string, trace: seq<StackFrame>)
    ensures AnyHolds([a, b, c, d], name, trace) == (Holds(a, name, trace) || AnyHolds([b, c, d], name, trace))
  {
    assert [a, b, c, d][1..] == [b, c, d];
  }

  lemma AnyHolds5(a: Marker, b: Marker, c: Marker, d: Marker, e: Marker, name: string, trace: seq<StackFrame>)
    ensures AnyHolds([a, b, c, d, e], name, trace) == (Holds(a, name, trace) || AnyHolds([b, c, d, e], name, trace))
  {
    assert [a, b, c, d, e][1..] == [b, c, d, e];
  }

  /** A line of a categoriser: the category it returns when one of its markers holds. */
  datatype Rule<C> = Rule(category: C, markers: seq<Marker>)

  /** The category of the first rule whose markers hold, or `fallback` when none does. */
  function FirstMatch<C>(rules: seq<Rule<C>>, name: string, trace: seq<StackFrame>, fallback: C): (c: C)
    decreases |rules|
  {
    if |rules| == 0 then fallback
    else if AnyHolds(rules[0].markers, name, trace) then rules[0].category
    else FirstMatch(rules[1..], name, trace, fallback)
  }

  /** The first rule that holds decides, whatever the later ones say. */
  lemma {:induction false} FirstMatchFirst<C>(rules: seq<Rule<C>>, name: string, trace: seq<StackFrame>, fallback: C, i: nat)
    requires i < |rules| && AnyHolds(rules[i].markers, name, trace)
    requires forall j :: 0 <= j < i ==> !AnyHolds(rules[j].markers, name, trace)
    ensures FirstMatch(rules, name, trace, fallback) == rules[i].category
    decreases i
  {
    if i > 0 {
      assert !AnyHolds(rules[0].markers, name, trace);
      forall j | 0 <= j < i - 1
        ensures !AnyHolds(rules[1..][j].markers, name, trace)
      {
        assert rules[1..][j] == rules[j + 1];
      }
      FirstMatchFirst(rules[1..], name, trace, fallback, i - 1);
    }
  }

  /** When no rule holds, the fallback is returned. */
  lemma {:induction false} FirstMatchNone<C>(rules: seq<Rule<C>>, name: string, trace: seq<StackFrame>, fallback: C)
    requires forall j :: 0 <= j < |rules| ==> !AnyHolds(rules[j].markers, name, trace)
    ensures FirstMatch(rules, name, trace, fallback) == fallback
    decreases |rules|
  {
    if |rules| > 0 {
      forall j | 0 <= j < |rules| - 1
        ensures !AnyHolds(rules[1..][j].markers, name, trace)
      {
        assert rules[1..][j] == rules[j + 1];
      }
      FirstMatchNone(rules[1..], name, trace, fallback);
    }
  }
}
