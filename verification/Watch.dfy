/**
 The watch loop: every tick runs the tool on every host, and a host's log says what changed. Hosts finish in
 any order; neither the log of a host nor what the loop remembers of it depends on that order.
 */
module Watch {
  import opened Wrappers
  import opened Text
  import HostFile

  datatype Snapshot = Snapshot(status: nat, stdout: Bytes, stderr: Bytes)

  /** One attempt on one host: the tool ran, or the host could not be reached. */
  datatype Answer = Ran(snapshot: Snapshot) | Unreachable

  datatype Kind = INITIAL | RECOVERED | UNCHANGED | CLEARED | CHANGED | OFFLINE

  datatype Event = Event(host: string, kind: Kind, snapshot: Option<Snapshot>)

  /** What the loop remembers of a host. */
  datatype Memory = Memory(last: Option<Snapshot>, online: bool, attempted: bool)

  const NEW := Memory(None, false, false)

  predicate Silent(s: Snapshot) {
    s.stdout == "" && s.stderr == ""
  }

  // ---------------------------------------------------------------- One host

  function Classify(m: Memory, s: Snapshot): Kind {
    if m.attempted && !m.online then RECOVERED
    else if m.last == None then INITIAL
    else if m.last == Some(s) then UNCHANGED
    else if Silent(s) && !Silent(m.last.value) then CLEARED
    else CHANGED
  }

  function Next(m: Memory, a: Answer): Memory {
    match a
    case Ran(s) => Memory(Some(s), true, true)
    case Unreachable => Memory(m.last, false, true)
  }

  /** What is printed for one attempt; `all` is the flag that prints unchanged snapshots too. */
  function Emitted(host: string, m: Memory, a: Answer, all: bool): seq<Event> {
    match a
    case Ran(s) =>
      if Classify(m, s) != UNCHANGED || all then [Event(host, Classify(m, s), Some(s))] else []
    case Unreachable =>
      if m.online || !m.attempted || all then [Event(host, OFFLINE, None)] else []
  }

  function MemoryAfter(answers: seq<Answer>): Memory {
    if answers == [] then NEW else Next(MemoryAfter(answers[..|answers| - 1]), answers[|answers| - 1])
  }

  /** A host's log after a run. */
  function LogOf(host: string, answers: seq<Answer>, all: bool): seq<Event> {
    if answers == [] then []
    else
      var before := answers[..|answers| - 1];
      LogOf(host, before, all) + Emitted(host, MemoryAfter(before), answers[|answers| - 1], all)
  }

  /** What a reader of the log knows: whether the host is up, and its last snapshot. */
  datatype Known = Known(online: bool, last: Option<Snapshot>)

  function Read(k: Known, e: Event): Known {
    if e.kind == OFFLINE then k.(online := false) else Known(true, e.snapshot)
  }

  function Fold(log: seq<Event>): Known {
    if log == [] then Known(false, None) else Read(Fold(log[..|log| - 1]), log[|log| - 1])
  }

  lemma FoldSnoc(log: seq<Event>, e: Event)
    ensures Fold(log + [e]) == Read(Fold(log), e)
  {
    assert (log + [e])[..|log|] == log;
  }

  /** What the loop remembers is consistent. */
  predicate Sensible(m: Memory) {
    (m.online ==> m.last.Some?) && (m.attempted || m == NEW)
  }

  lemma ReadEmitted(host: string, m: Memory, a: Answer, all: bool)
    requires Sensible(m)
    ensures Sensible(Next(m, a)) && |Emitted(host, m, a, all)| <= 1
    ensures var e, now := Emitted(host, m, a, all), Known(Next(m, a).online, Next(m, a).last);
            now == if e == [] then Known(m.online, m.last) else Read(Known(m.online, m.last), e[0])
  {
  }

  /** The log is enough: reading it gives exactly what the loop itself remembers, at every point of a run. */
  lemma {:induction false} LogIsFaithful(host: string, answers: seq<Answer>, all: bool)
    ensures Fold(LogOf(host, answers, all)) == Known(MemoryAfter(answers).online, MemoryAfter(answers).last)
    ensures Sensible(MemoryAfter(answers))
  {
    if answers != [] {
      var before := answers[..|answers| - 1];
      var a := answers[|answers| - 1];
      hide Emitted, Next, Fold, Read, Sensible;
      LogIsFaithful(host, before, all);
      ReadEmitted(host, MemoryAfter(before), a, all);
      var log := LogOf(host, before, all);
      var emitted := Emitted(host, MemoryAfter(before), a, all);
      if emitted == [] {
        assert log + emitted == log;
      } else {
        assert emitted == [emitted[0]];
        FoldSnoc(log, emitted[0]);
      }
    }
  }

  /** Which event may follow which, without `--all`. */
  predicate Follows(first: Event, second: Event) {
    && second.kind != INITIAL
    && (first.kind == OFFLINE <==> second.kind == RECOVERED)
    && (second.kind == CLEARED ==>
        first.snapshot.Some? && second.snapshot.Some? && !Silent(first.snapshot.value) && Silent(second.snapshot.value))
    && (second.kind in [CLEARED, CHANGED] ==> first.snapshot != second.snapshot)
    && second.kind != UNCHANGED
  }

  ghost predicate WellOrdered(log: seq<Event>) {
    && (log != [] ==> log[0].kind in [INITIAL, OFFLINE])
    && forall i, j :: 0 <= i < j < |log| && j == i + 1 ==> Follows(log[i], log[j])
  }

  /** The last event shows the state a host is in. */
  predicate Shows(log: seq<Event>, m: Memory) {
    if log == [] then !m.attempted && m == NEW
    else
      var last := log[|log| - 1];
      && m.attempted && m.online == (last.kind != OFFLINE)
      && (last.kind != OFFLINE ==> last.snapshot.Some? && last.snapshot == m.last)
  }

  lemma OrderedSnoc(log: seq<Event>, e: Event)
    requires WellOrdered(log)
    requires if log == [] then e.kind in [INITIAL, OFFLINE] else Follows(log[|log| - 1], e)
    ensures WellOrdered(log + [e])
  {
    hide Follows;
    var all := log + [e];
    forall i, j | 0 <= i < j < |all| && j == i + 1 ensures Follows(all[i], all[j]) {
      if j < |log| { assert all[i] == log[i] && all[j] == log[j]; }
    }
  }

  /**
   Without `--all` a log starts with INITIAL or OFFLINE, has INITIAL nowhere else, goes from OFFLINE to
   RECOVERED and to nothing else, and never repeats a snapshot it has just shown.
   */
  lemma {:induction false} LogIsOrdered(host: string, answers: seq<Answer>)
    ensures WellOrdered(LogOf(host, answers, false)) && Shows(LogOf(host, answers, false), MemoryAfter(answers))
  {
    if answers != [] {
      var before := answers[..|answers| - 1];
      var a := answers[|answers| - 1];
      LogIsOrdered(host, before);
      var log, m := LogOf(host, before, false), MemoryAfter(before);
      var emitted := Emitted(host, m, a, false);
      if emitted == [] {
        assert log + emitted == log;
      } else {
        OrderedSnoc(log, emitted[0]);
      }
      hide WellOrdered;
    }
  }

  lemma LaterIsNotInitial(log: seq<Event>, i: nat)
    requires WellOrdered(log) && 0 < i < |log|
    ensures log[i].kind != INITIAL
  {
    assert Follows(log[i - 1], log[i]);
  }

  /** INITIAL at most once, and only at the front. */
  lemma InitialComesFirst(host: string, answers: seq<Answer>, i: nat)
    requires i < |LogOf(host, answers, false)| && LogOf(host, answers, false)[i].kind == INITIAL
    ensures i == 0
  {
    LogIsOrdered(host, answers);
    var log := LogOf(host, answers, false);
    if i > 0 { LaterIsNotInitial(log, i); }
  }

  // ---------------------------------------------------------------- One tick

  datatype Target = Target(host: string, memory: Memory)

  /** The answer of a host among those of a tick. */
  function Of(answer: map<string, Answer>, host: string): Answer {
    if host in answer then answer[host] else Unreachable
  }

  function Moved(t: Target, answer: map<string, Answer>): Target {
    t.(memory := Next(t.memory, Of(answer, t.host)))
  }

  function MovedAll(targets: seq<Target>, answer: map<string, Answer>): (r: seq<Target>)
    ensures |r| == |targets| && forall i :: 0 <= i < |r| ==>
        r[i] == Moved(targets[i], answer) && r[i].host == targets[i].host
  {
    seq(|targets|, i requires 0 <= i < |targets| => Moved(targets[i], answer))
  }

  /** Sorted by host, strictly: every host is there once. */
  predicate ByHost(targets: seq<Target>) {
    forall i, j :: 0 <= i < j < |targets| ==> HostFile.Less(targets[i].host, targets[j].host)
  }

  /** The events of one host in a log. */
  function EventsOf(log: seq<Event>, host: string): seq<Event> {
    if log == [] then []
    else
      var last := log[|log| - 1];
      EventsOf(log[..|log| - 1], host) + if last.host == host then [last] else []
  }

  lemma EventsAppend(log: seq<Event>, more: seq<Event>, host: string)
    requires |more| <= 1
    ensures EventsOf(log + more, host)
         == EventsOf(log, host) + if more != [] && more[0].host == host then more else []
  {
    if more == [] {
      assert log + more == log;
    } else {
      assert (log + more)[..|log|] == log;
      assert more == [more[0]];
    }
  }

  lemma DistinctHosts(targets: seq<Target>, i: nat, j: nat)
    requires ByHost(targets) && i < |targets| && j < |targets| && i != j
    ensures targets[i].host != targets[j].host
  {
    HostFile.LessTotal(targets[i].host, targets[i].host);
  }

  lemma FirstIsLeast(a: seq<Target>, b: seq<Target>)
    requires ByHost(a) && ByHost(b) && a != [] && b != [] && a[0] in b && b[0] in a
    ensures a[0] == b[0]
  {
    var i :| 0 <= i < |b| && b[i] == a[0];
    var j :| 0 <= j < |a| && a[j] == b[0];
    if i > 0 && j > 0 { HostFile.LessTotal(a[0].host, b[0].host); }
  }

  lemma TailOf(s: seq<Target>, t: Target)
    requires s != [] && ByHost(s)
    ensures ByHost(s[1..]) && (t in s[1..] <==> t in s && t != s[0])
  {
    assert s == [s[0]] + s[1..];
    if k :| 0 <= k < |s| - 1 && s[1..][k] == s[0] { DistinctHosts(s, 0, k + 1); }
  }

  /** Strictly sorted arrangements of the same targets are equal. */
  lemma {:induction false} SortedUnique(a: seq<Target>, b: seq<Target>)
    requires ByHost(a) && ByHost(b) && |a| == |b| && forall t :: t in a <==> t in b
    ensures a == b
  {
    if a != [] {
      assert a[0] in a && b[0] in b;
      FirstIsLeast(a, b);
      hide ByHost;
      forall t ensures t in a[1..] <==> t in b[1..] {
        TailOf(a, t);
        TailOf(b, t);
      }
      TailOf(a, a[0]);
      TailOf(b, b[0]);
      SortedUnique(a[1..], b[1..]);
      assert a == [a[0]] + a[1..] && b == [b[0]] + b[1..];
    }
  }

  /** The first position whose host comes after a given one. */
  method Place(targets: seq<Target>, t: Target) returns (at: nat)
    requires ByHost(targets) && forall i :: 0 <= i < |targets| ==> targets[i].host != t.host
    ensures at <= |targets| && ByHost(targets[..at] + [t] + targets[at..])
  {
    at := 0;
    while at < |targets| && HostFile.Less(targets[at].host, t.host)
      invariant at <= |targets| && forall i :: 0 <= i < at ==> HostFile.Less(targets[i].host, t.host)
    {
      at := at + 1;
    }
    PlacedByHost(targets, t, at);
  }

  lemma PlacedByHost(targets: seq<Target>, t: Target, at: nat)
    requires ByHost(targets) && at <= |targets|
    requires forall i :: 0 <= i < at ==> HostFile.Less(targets[i].host, t.host)
    requires at < |targets| ==> !HostFile.Less(targets[at].host, t.host) && targets[at].host != t.host
    ensures ByHost(targets[..at] + [t] + targets[at..])
  {
    var s := targets[..at] + [t] + targets[at..];
    if at < |targets| { HostFile.LessTotal(targets[at].host, t.host); }
    hide HostFile.Less;
    forall j | at <= j < |targets| ensures HostFile.Less(t.host, targets[j].host) {
      if j > at { HostFile.LessTransitive(t.host, targets[at].host, targets[j].host); }
    }
    forall i, j | 0 <= i < j < |s| ensures HostFile.Less(s[i].host, s[j].host) {
      if i < at && j > at { assert HostFile.Less(targets[i].host, targets[j - 1].host); }
    }
  }

  /** An order of finishing, by position. */
  predicate IsOrder(order: seq<nat>, n: nat) {
    && |order| == n && (forall i :: 0 <= i < n ==> order[i] < n) && (forall i :: 0 <= i < n ==> i in order)
    && (forall i, j :: 0 <= i < j < n ==> order[i] != order[j])
  }

  predicate Succeeds(a: Answer) {
    a.Ran? && a.snapshot.status == 0
  }

  /** A memory as it comes: before the first attempt there is nothing in it. */
  predicate Plausible(m: Memory) {
    m.attempted || (m.last == None && !m.online)
  }

  /**
   One finished attempt: print what is to be printed, then remember it. Without `--all` something is printed
   exactly when what is remembered changes, and what is printed tells the new state.
   */
  method Observe(target: Target, a: Answer, all: bool) returns (t: Target, emitted: seq<Event>)
    ensures t == target.(memory := Next(target.memory, a))
    ensures emitted == Emitted(target.host, target.memory, a, all)
    ensures Plausible(target.memory) ==>
        Plausible(t.memory) && (!all ==> (emitted == [] <==> t.memory == target.memory))
    ensures |emitted| <= 1 && forall e :: e in emitted ==>
        e.host == t.host && (e.snapshot.Some? ==> t.memory.online && e.snapshot == t.memory.last)
  {
    var last, online, attempted := target.memory.last, target.memory.online, target.memory.attempted;
    emitted := [];
    match a
    case Ran(snapshot) =>
      var kind;
      if attempted && !online {
        kind := RECOVERED;
      } else if last == None {
        kind := INITIAL;
      } else if last == Some(snapshot) {
        kind := UNCHANGED;
      } else if snapshot.stdout == "" && snapshot.stderr == "" && (last.value.stdout != "" || last.value.stderr != "") {
        kind := CLEARED;
      } else {
        kind := CHANGED;
      }
      if kind != UNCHANGED || all { emitted := [Event(target.host, kind, Some(snapshot))]; }
      last, online, attempted := Some(snapshot), true, true;
      t := target.(memory := Memory(last, online, attempted));
    case Unreachable =>
      if online || !attempted || all { emitted := [Event(target.host, OFFLINE, None)]; }
      online, attempted := false, true;
      t := target.(memory := Memory(last, online, attempted));
  }

  /** A log in which the hosts at the given positions have their events, and the others none. */
  predicate Logged(targets: seq<Target>, done: set<nat>, log: seq<Event>, answer: map<string, Answer>, all: bool) {
    forall i :: 0 <= i < |targets| ==>
        EventsOf(log, targets[i].host) == if i in done then EmittedBy(targets[i], answer, all) else []
  }

  function EmittedBy(t: Target, answer: map<string, Answer>, all: bool): (e: seq<Event>)
    ensures |e| <= 1 && (e != [] ==> e[0].host == t.host)
  {
    Emitted(t.host, t.memory, Of(answer, t.host), all)
  }

  lemma LoggedNext(targets: seq<Target>, done: set<nat>, k: nat, log: seq<Event>, answer: map<string, Answer>,
      all: bool)
    requires ByHost(targets) && k < |targets| && k !in done && Logged(targets, done, log, answer, all)
    ensures Logged(targets, done + {k}, log + EmittedBy(targets[k], answer, all), answer, all)
  {
    hide EmittedBy, EventsOf, ByHost;
    forall i | 0 <= i < |targets|
      ensures EventsOf(log + EmittedBy(targets[k], answer, all), targets[i].host)
           == if i in done + {k} then EmittedBy(targets[i], answer, all) else []
    {
      EventsAppend(log, EmittedBy(targets[k], answer, all), targets[i].host);
      if i != k { DistinctHosts(targets, i, k); }
    }
  }

  /** The targets that were put back: those at the given positions, moved on. */
  ghost predicate PutBack(targets: seq<Target>, done: set<nat>, next: seq<Target>, answer: map<string, Answer>) {
    && ByHost(next) && |next| == |done|
    && (forall k :: k in done ==> k < |targets| && Moved(targets[k], answer) in next)
    && (forall t :: t in next ==> exists k :: k in done && k < |targets| && t == Moved(targets[k], answer))
  }

  /** A finished target goes to its place among those that finished before. */
  method Insert(targets: seq<Target>, ghost done: set<nat>, ghost k: nat, t: Target, before: seq<Target>,
      ghost answer: map<string, Answer>)
    returns (next: seq<Target>)
    requires ByHost(targets) && k < |targets| && k !in done && PutBack(targets, done, before, answer)
    requires t == Moved(targets[k], answer)
    ensures PutBack(targets, done + {k}, next, answer)
  {
    forall i | 0 <= i < |before| ensures before[i].host != t.host {
      assert before[i] in before;
      var a :| a in done && a < |targets| && before[i] == Moved(targets[a], answer);
      DistinctHosts(targets, a, k);
    }
    hide Moved;
    var at := Place(before, t);
    next := before[..at] + [t] + before[at..];
    PutBackNext(targets, done, k, before, next, at, answer);
  }

  lemma PutBackNext(
    targets: seq<Target>, done: set<nat>, k: nat, before: seq<Target>, next: seq<Target>, at: nat, answer: map<string,
        Answer>)
    requires k < |targets| && k !in done && PutBack(targets, done, before, answer) && at <= |before|
    requires next == before[..at] + [Moved(targets[k], answer)] + before[at..] && ByHost(next)
    ensures PutBack(targets, done + {k}, next, answer)
  {
    hide ByHost, Moved;
    assert before == before[..at] + before[at..];
    forall t | t in next ensures exists i :: i in done + {k} && i < |targets| && t == Moved(targets[i], answer) {
      if t in before {
        var i :| i in done && i < |targets| && t == Moved(targets[i], answer);
        assert i in done + {k};
      } else {
        assert k in done + {k};
      }
    }
  }

  /** When everybody is back, the targets are what they were, each moved on. */
  lemma AllPutBack(targets: seq<Target>, done: set<nat>, next: seq<Target>, answer: map<string, Answer>)
    requires ByHost(targets) && PutBack(targets, done, next, answer) && |done| == |targets|
    requires forall k :: 0 <= k < |targets| ==> k in done
    ensures next == MovedAll(targets, answer)
  {
    var all := MovedAll(targets, answer);
    assert ByHost(all);
    hide Moved, ByHost;
    forall t ensures t in next <==> t in all {
      if t in next {
        var k :| k in done && k < |targets| && t == Moved(targets[k], answer);
        assert all[k] == t;
      }
    }
    SortedUnique(next, all);
  }

  /** Some host was not reached, or its command failed. */
  predicate SomeFails(targets: seq<Target>, answer: map<string, Answer>) {
    exists i :: 0 <= i < |targets| && !Succeeds(Of(answer, targets[i].host))
  }

  /** How the ticks of the finished hosts went. */
  predicate Tallied(targets: seq<Target>, done: set<nat>, answer: map<string, Answer>, successful: nat, failed: bool) {
    && successful <= |done| && (successful == |done| <==> !failed)
    && (failed <==> exists k :: k in done && k < |targets| && !Succeeds(Of(answer, targets[k].host)))
  }

  lemma TalliedNext(targets: seq<Target>, done: set<nat>, k: nat, answer: map<string, Answer>, successful: nat,
      failed: bool)
    requires k < |targets| && k !in done && Tallied(targets, done, answer, successful, failed)
    ensures var ok := Succeeds(Of(answer, targets[k].host));
            Tallied(targets, done + {k}, answer, if ok then successful + 1 else successful, failed || !ok)
  {
    hide Succeeds, Of;
    var ok := Succeeds(Of(answer, targets[k].host));
    var now := done + {k};
    assert |now| == |done| + 1;
    if failed {
      var i :| i in done && i < |targets| && !Succeeds(Of(answer, targets[i].host));
      assert i in now;
    } else if !ok {
      assert k in now;
    }
  }

  lemma TalliedAll(targets: seq<Target>, done: set<nat>, answer: map<string, Answer>, successful: nat, failed: bool)
    requires Tallied(targets, done, answer, successful, failed) && |done| == |targets|
    requires forall k :: 0 <= k < |targets| ==> k in done
    ensures failed <==> SomeFails(targets, answer)
    ensures successful == |targets| <==> !failed
  {
    hide Succeeds, Of;
  }

  lemma NobodyBack(targets: seq<Target>, answer: map<string, Answer>, all: bool)
    ensures Logged(targets, {}, [], answer, all) && PutBack(targets, {}, [], answer) &&
        Tallied(targets, {}, answer, 0, false)
  {
  }

  /** The positions that finished, as a set. */
  predicate Finished(order: seq<nat>, j: nat, done: set<nat>) {
    && j <= |order| && |done| == j
    && (forall i :: 0 <= i < j ==> order[i] in done) && (forall i :: j <= i < |order| ==> order[i] !in done)
  }

  lemma FinishedNext(order: seq<nat>, j: nat, done: set<nat>, n: nat)
    requires IsOrder(order, n) && j < |order| && Finished(order, j, done)
    ensures order[j] < n && order[j] !in done && Finished(order, j + 1, done + {order[j]})
  {
  }

  lemma FinishedAll(order: seq<nat>, done: set<nat>, n: nat)
    requires IsOrder(order, n) && Finished(order, n, done)
    ensures |done| == n && forall k :: 0 <= k < n ==> k in done
  {
    forall k | 0 <= k < n ensures k in done {
      assert k in order;
    }
  }

  /** Where a tick stands when the hosts at some positions have finished. */
  ghost predicate InTick(
    targets: seq<Target>, done: set<nat>, next: seq<Target>, log: seq<Event>, successful: nat, failed: bool,
    answer: map<string, Answer>, all: bool)
  {
    && Logged(targets, done, log, answer, all) && PutBack(targets, done, next, answer)
    && Tallied(targets, done, answer, successful, failed)
  }

  /** One host finishes. */
  method Join(targets: seq<Target>, k: nat, next0: seq<Target>, log0: seq<Event>, successful0: nat, failed0: bool,
              answer: map<string, Answer>, all: bool, ghost done: set<nat>)
    returns (next: seq<Target>, log: seq<Event>, successful: nat, failed: bool)
    requires ByHost(targets) && k < |targets| && k !in done
    requires InTick(targets, done, next0, log0, successful0, failed0, answer, all)
    ensures InTick(targets, done + {k}, next, log, successful, failed, answer, all)
  {
    hide Logged, PutBack, Tallied, ByHost, Succeeds, Next, Emitted;
    LoggedNext(targets, done, k, log0, answer, all);
    TalliedNext(targets, done, k, answer, successful0, failed0);
    next, log, successful, failed := next0, log0, successful0, failed0;
    var a := Of(answer, targets[k].host);
    var t, emitted := Observe(targets[k], a, all);
    log := log + emitted;
    if Succeeds(a) { successful := successful + 1; } else { failed := true; }
    next := Insert(targets, done, k, t, next, answer);
  }

  /**
   One tick, the hosts finishing in the given order. Whatever the order, every host moves on by its own answer,
   its part of the log is what it emits, and the targets are back in the order they had.
   */
  method Tick(targets: seq<Target>, order: seq<nat>, answer: map<string, Answer>, all: bool)
    returns (next: seq<Target>, log: seq<Event>, successful: nat, failed: bool)
    requires ByHost(targets) && IsOrder(order, |targets|)
    ensures next == MovedAll(targets, answer)
    ensures forall t :: t in targets ==> EventsOf(log, t.host) == EmittedBy(t, answer, all)
    ensures failed <==> SomeFails(targets, answer)
    ensures successful == |targets| <==> !failed
  {
    next, log, successful, failed := [], [], 0, false;
    ghost var done: set<nat> := {};
    NobodyBack(targets, answer, all);
    assert InTick(targets, done, next, log, successful, failed, answer, all) && Finished(order, 0, done);
    hide InTick, Finished, ByHost, IsOrder;
    var j := 0;
    while j < |order|
      invariant j <= |order| && Finished(order, j, done)
      invariant InTick(targets, done, next, log, successful, failed, answer, all)
    {
      FinishedNext(order, j, done, |targets|);
      next, log, successful, failed := Join(targets, order[j], next, log, successful, failed, answer, all, done);
      done := done + {order[j]};
      j := j + 1;
    }
    TickDone(targets, order, done, next, log, successful, failed, answer, all);
  }

  lemma TickDone(
    targets: seq<Target>, order: seq<nat>, done: set<nat>, next: seq<Target>, log: seq<Event>, successful: nat,
        failed: bool,
    answer: map<string, Answer>, all: bool)
    requires ByHost(targets) && IsOrder(order, |targets|) && Finished(order, |order|, done)
    requires InTick(targets, done, next, log, successful, failed, answer, all)
    ensures next == MovedAll(targets, answer)
    ensures forall t :: t in targets ==> EventsOf(log, t.host) == EmittedBy(t, answer, all)
    ensures failed <==> SomeFails(targets, answer)
    ensures successful == |targets| <==> !failed
  {
    assert |order| == |targets|;
    hide Logged, PutBack, Tallied, ByHost, Succeeds, MovedAll, SomeFails, Finished, EmittedBy, EventsOf, IsOrder;
    FinishedAll(order, done, |targets|);
    AllPutBack(targets, done, next, answer);
    TalliedAll(targets, done, answer, successful, failed);
    LoggedAll(targets, done, log, answer, all);
  }

  lemma LoggedAll(targets: seq<Target>, done: set<nat>, log: seq<Event>, answer: map<string, Answer>, all: bool)
    requires Logged(targets, done, log, answer, all) && forall k :: 0 <= k < |targets| ==> k in done
    ensures forall t :: t in targets ==> EventsOf(log, t.host) == EmittedBy(t, answer, all)
  {
    hide EventsOf, EmittedBy;
  }

  // ---------------------------------------------------------------- The loop

  lemma {:induction false} EventsConcat(log: seq<Event>, more: seq<Event>, host: string)
    ensures EventsOf(log + more, host) == EventsOf(log, host) + EventsOf(more, host)
  {
    if more == [] {
      assert log + more == log;
    } else {
      var n := |more| - 1;
      EventsConcat(log, more[..n], host);
      assert (log + more)[..|log + more| - 1] == log + more[..n];
    }
  }

  /** A host's answers over the first ticks. */
  function Answers(answers: seq<map<string, Answer>>, host: string, n: nat): (r: seq<Answer>)
    requires n <= |answers|
    ensures |r| == n && forall k :: 0 <= k < n ==> r[k] == Of(answers[k], host)
  {
    seq(n, k requires 0 <= k < n => Of(answers[k], host))
  }

  /** What is remembered of a host and what was printed of it are what its own answers make them. */
  predicate HostInStep(t: Target, log: seq<Event>, answers: seq<map<string, Answer>>, n: nat, all: bool)
    requires n <= |answers|
  {
    && t.memory == MemoryAfter(Answers(answers, t.host, n))
    && EventsOf(log, t.host) == LogOf(t.host, Answers(answers, t.host, n), all)
  }

  predicate InStep(targets: seq<Target>, log: seq<Event>, answers: seq<map<string, Answer>>, n: nat, all: bool)
    requires n <= |answers|
  {
    forall i :: 0 <= i < |targets| ==> HostInStep(targets[i], log, answers, n, all)
  }

  lemma HostNext(t: Target, log: seq<Event>, more: seq<Event>, answers: seq<map<string, Answer>>, n: nat, all: bool)
    requires n < |answers| && HostInStep(t, log, answers, n, all) &&
        EventsOf(more, t.host) == EmittedBy(t, answers[n], all)
    ensures HostInStep(Moved(t, answers[n]), log + more, answers, n + 1, all)
  {
    assert Answers(answers, t.host, n + 1)[..n] == Answers(answers, t.host, n);
    EventsConcat(log, more, t.host);
    hide Next, Emitted, EventsOf;
  }

  lemma StepNext(targets: seq<Target>, log: seq<Event>, more: seq<Event>, answers: seq<map<string, Answer>>, n: nat,
      all: bool)
    requires n < |answers| && InStep(targets, log, answers, n, all)
    requires forall t :: t in targets ==> EventsOf(more, t.host) == EmittedBy(t, answers[n], all)
    ensures InStep(MovedAll(targets, answers[n]), log + more, answers, n + 1, all)
  {
    hide HostInStep, EventsOf, EmittedBy, Moved;
    forall i | 0 <= i < |targets| ensures HostInStep(Moved(targets[i], answers[n]), log + more, answers, n + 1, all) {
      assert targets[i] in targets;
      HostNext(targets[i], log, more, answers, n, all);
    }
  }

  /** The hosts of the targets stay, in their order. */
  predicate SameHosts(a: seq<Target>, b: seq<Target>) {
    |a| == |b| && forall i :: 0 <= i < |a| ==> a[i].host == b[i].host
  }

  lemma MovedSame(start: seq<Target>, targets: seq<Target>, answer: map<string, Answer>)
    requires SameHosts(start, targets) && ByHost(start)
    ensures SameHosts(start, MovedAll(targets, answer)) && ByHost(targets)
    ensures SomeFails(targets, answer) == SomeFails(start, answer)
  {
    hide Succeeds, Of, HostFile.Less;
    if SomeFails(targets, answer) {
      var i :| 0 <= i < |targets| && !Succeeds(Of(answer, targets[i].host));
      assert !Succeeds(Of(answer, start[i].host));
    }
  }

  /** The last of the first n ticks failed somewhere. */
  predicate LastFails(start: seq<Target>, answers: seq<map<string, Answer>>, n: nat)
    requires n <= |answers|
  {
    n > 0 && SomeFails(start, answers[n - 1])
  }

  /** The loop ends after n ticks: the count is reached, or full success was awaited and the last tick brought it. */
  predicate Stops(start: seq<Target>, answers: seq<map<string, Answer>>, n: nat, count: Option<nat>, untilSuccess: bool)
    requires n <= |answers|
  {
    n > 0 && ((untilSuccess && !LastFails(start, answers, n)) || (count.Some? && n >= count.value))
  }

  /** One turn of the loop. */
  method Turn(start: seq<Target>, targets: seq<Target>, log0: seq<Event>, answers: seq<map<string, Answer>>,
      order: seq<nat>, n: nat,
              count: Option<nat>, untilSuccess: bool, all: bool)
    returns (next: seq<Target>, log: seq<Event>, code: nat, stop: bool)
    requires n < |answers| && ByHost(start) && SameHosts(start, targets) && InStep(targets, log0, answers, n, all)
    requires IsOrder(order, |start|)
    ensures SameHosts(start, next) && InStep(next, log, answers, n + 1, all)
    ensures code == if LastFails(start, answers, n + 1) then 1 else 0
    ensures stop <==> Stops(start, answers, n + 1, count, untilSuccess)
  {
    MovedSame(start, targets, answers[n]);
    hide InStep, ByHost, IsOrder, SomeFails, MovedAll, EventsOf, EmittedBy;
    var more, successful, failed;
    next, more, successful, failed := Tick(targets, order, answers[n], all);
    StepNext(targets, log0, more, answers, n, all);
    log := log0 + more;
    code := if failed then 1 else 0;
    stop := false;
    if untilSuccess && successful == |start| {
      code := 0;
      stop := true;
    } else if count.Some? && n + 1 >= count.value {
      stop := true;
    }
  }

  lemma StartInStep(start: seq<Target>, answers: seq<map<string, Answer>>, all: bool)
    requires forall i :: 0 <= i < |start| ==> start[i].memory == NEW
    ensures InStep(start, [], answers, 0, all)
  {
  }

  /**
   `watch_async`, until the signal comes after the last of the given ticks, the count is reached, or every host
   succeeds. Over any answers and any finishing orders, what is remembered and printed of a host is a function of
   that host's own answers, and the exit code says whether the last tick failed anywhere.
   */
  method WatchLoop(start: seq<Target>, answers: seq<map<string, Answer>>, orders: seq<seq<nat>>, count: Option<nat>,
                   untilSuccess: bool, all: bool)
    returns (targets: seq<Target>, code: nat, log: seq<Event>, iteration: nat)
    requires ByHost(start) && forall i :: 0 <= i < |start| ==> start[i].memory == NEW
    requires |orders| == |answers| && forall k :: 0 <= k < |orders| ==> IsOrder(orders[k], |start|)
    requires count != Some(0)
    ensures iteration <= |answers| && SameHosts(start, targets) && InStep(targets, log, answers, iteration, all)
    ensures code == if LastFails(start, answers, iteration) then 1 else 0
    ensures iteration == |answers| || Stops(start, answers, iteration, count, untilSuccess)
    ensures forall k :: 0 <= k < iteration ==> !Stops(start, answers, k, count, untilSuccess)
  {
    targets, code, log, iteration := start, 0, [], 0;
    var stop := false;
    StartRunning(start, answers, count, untilSuccess, all);
    hide Running, ByHost, IsOrder;
    while iteration < |answers| && !stop
      invariant iteration <= |answers|
      invariant Running(start, targets, log, code, stop, answers, iteration, count, untilSuccess, all)
      decreases |answers| - iteration
    {
      targets, log, code, stop := Continue(start, targets, log, code, answers, orders[iteration], iteration, count,
          untilSuccess, all);
      iteration := iteration + 1;
    }
    StoppedRunning(start, targets, log, code, stop, answers, iteration, count, untilSuccess, all);
  }

  /** What holds after every turn. */
  ghost predicate Running(
    start: seq<Target>, targets: seq<Target>, log: seq<Event>, code: nat, stop: bool, answers: seq<map<string, Answer>>,
        n: nat,
    count: Option<nat>, untilSuccess: bool, all: bool)
    requires n <= |answers|
  {
    && SameHosts(start, targets) && InStep(targets, log, answers, n, all)
    && code == (if LastFails(start, answers, n) then 1 else 0)
    && (stop <==> Stops(start, answers, n, count, untilSuccess))
    && forall k :: 0 <= k < n ==> !Stops(start, answers, k, count, untilSuccess)
  }

  lemma StartRunning(start: seq<Target>, answers: seq<map<string, Answer>>, count: Option<nat>, untilSuccess: bool,
      all: bool)
    requires forall i :: 0 <= i < |start| ==> start[i].memory == NEW
    ensures Running(start, start, [], 0, false, answers, 0, count, untilSuccess, all)
  {
    StartInStep(start, answers, all);
  }

  lemma StoppedRunning(
    start: seq<Target>, targets: seq<Target>, log: seq<Event>, code: nat, stop: bool, answers: seq<map<string, Answer>>,
        n: nat,
    count: Option<nat>, untilSuccess: bool, all: bool)
    requires n <= |answers| && Running(start, targets, log, code, stop, answers, n, count, untilSuccess, all)
    ensures SameHosts(start, targets) && InStep(targets, log, answers, n, all)
    ensures code == if LastFails(start, answers, n) then 1 else 0
    ensures stop ==> Stops(start, answers, n, count, untilSuccess)
    ensures forall k :: 0 <= k < n ==> !Stops(start, answers, k, count, untilSuccess)
  {
    hide SameHosts, InStep, LastFails, Stops;
  }

  method Continue(
    start: seq<Target>, targets: seq<Target>, log0: seq<Event>, code0: nat, answers: seq<map<string, Answer>>,
        order: seq<nat>, n: nat,
    count: Option<nat>, untilSuccess: bool, all: bool)
    returns (next: seq<Target>, log: seq<Event>, code: nat, stop: bool)
    requires n < |answers| && ByHost(start) && IsOrder(order, |start|)
    requires Running(start, targets, log0, code0, false, answers, n, count, untilSuccess, all)
    ensures Running(start, next, log, code, stop, answers, n + 1, count, untilSuccess, all)
  {
    hide SameHosts, InStep, LastFails, Stops, ByHost, IsOrder;
    next, log, code, stop := Turn(start, targets, log0, answers, order, n, count, untilSuccess, all);
  }
}
