/**
 The hub's event bus: bounded queues per subscriber, filled by session, the
 oldest event making room for the newest.
 */
module EventBus {
  import opened Wrappers

  const MAX_SUBSCRIBERS: nat := 1000
  const QUEUE_SIZE: nat := 500

  /** An event, with "" for a session that concerns everyone. */
  datatype Event = Event(id: string, session: string, content: string)

  /** A subscription to `session`, or to everything if that is "", wants an event of its session or of no session. */
  predicate Wants(session: string, e: Event) {
    session == "" || e.session == "" || e.session == session
  }

  /** The events a subscription wants, in order. */
  function Matching(events: seq<Event>, session: string): seq<Event> {
    if |events| == 0 then []
    else
      var rest, e := Matching(events[..|events| - 1], session), events[|events| - 1];
      if Wants(session, e) then rest + [e] else rest
  }

  ghost predicate IsSuffix(items: seq<Event>, all: seq<Event>) {
    |items| <= |all| && items == all[|all| - |items|..]
  }

  /** A queue after an event is put into it: the oldest event leaves a full one. */
  function Offered(items: seq<Event>, e: Event): seq<Event> {
    if |items| < QUEUE_SIZE then items + [e] else items[1..] + [e]
  }

  class Queue {
    const session: string
    ghost const since: nat   // how many events had been published when it was subscribed

    var items: seq<Event>

    constructor (session: string, ghost since: nat)
      ensures this.session == session && this.since == since && items == []
    {
      this.session, this.since, items := session, since, [];
    }

    method Put(e: Event) returns (ok: bool)
      modifies this
      ensures ok <==> |old(items)| < QUEUE_SIZE
      ensures items == if ok then old(items) + [e] else old(items)
    {
      ok := |items| < QUEUE_SIZE;
      if ok {
        items := items + [e];
      }
    }

    method Get() returns (e: Option<Event>)
      modifies this
      ensures e == if old(items) == [] then None else Some(old(items)[0])
      ensures items == if old(items) == [] then [] else old(items)[1..]
    {
      if items == [] { return None; }
      e := Some(items[0]);
      items := items[1..];
    }

    /** It holds the newest of the events it wants since it was subscribed, in order, and no more than fit. */
    ghost predicate UpToDate(log: seq<Event>)
      reads this
    {
      since <= |log| && |items| <= QUEUE_SIZE && IsSuffix(items, Matching(log[since..], session))
    }
  }

  // ---------------------------------------------------------------- what events do to one queue

  lemma OfferedStaysSuffix(items: seq<Event>, all: seq<Event>, e: Event)
    requires IsSuffix(items, all) && |items| <= QUEUE_SIZE
    ensures IsSuffix(Offered(items, e), all + [e]) && |Offered(items, e)| <= QUEUE_SIZE
  {
  }

  /** A queue loses nothing until it is full, and then only its oldest event. */
  lemma OfferedLosesOldest(items: seq<Event>, e: Event)
    requires |items| <= QUEUE_SIZE
    ensures IsSuffix(Offered(items, e), items + [e])
    ensures |Offered(items, e)| == if |items| < QUEUE_SIZE then |items| + 1 else QUEUE_SIZE
  {
  }

  lemma MatchingNext(log: seq<Event>, since: nat, session: string, e: Event)
    requires since <= |log|
    ensures Matching((log + [e])[since..], session) ==
      if Wants(session, e) then Matching(log[since..], session) + [e] else Matching(log[since..], session)
  {
    assert (log + [e])[since..] == log[since..] + [e];
    assert (log[since..] + [e])[..|log| - since] == log[since..];
  }

  // ---------------------------------------------------------------- lists of distinct queues

  ghost function Members(queues: seq<Queue>): set<Queue> {
    set q | q in queues
  }

  ghost predicate Distinct(queues: seq<Queue>) {
    |queues| > 0 ==> Distinct(queues[..|queues| - 1]) && queues[|queues| - 1] !in queues[..|queues| - 1]
  }

  /** The list holds exactly these queues, each once. */
  ghost predicate Lists(queues: seq<Queue>, s: set<Queue>) {
    Members(queues) == s && Distinct(queues)
  }

  lemma {:induction false} ListLength(queues: seq<Queue>, s: set<Queue>)
    requires Lists(queues, s)
    ensures |queues| == |s|
  {
    if |queues| > 0 {
      var front, last := queues[..|queues| - 1], queues[|queues| - 1];
      assert queues == front + [last];
      ListLength(front, Members(front));
      assert s == Members(front) + {last};
    }
  }

  lemma {:induction false} ListedOnce(queues: seq<Queue>, i: nat, j: nat)
    requires Distinct(queues) && i < j < |queues|
    ensures queues[i] != queues[j]
  {
    var front := queues[..|queues| - 1];
    if j < |front| {
      ListedOnce(front, i, j);
    } else {
      assert front[i] in front;
    }
  }

  lemma {:induction false} ListsTogether(a: seq<Queue>, s: set<Queue>, b: seq<Queue>, t: set<Queue>)
    requires Lists(a, s) && Lists(b, t) && s !! t
    ensures Lists(a + b, s + t)
    decreases |b|
  {
    if |b| == 0 {
      assert a + b == a;
    } else {
      var front, last := b[..|b| - 1], b[|b| - 1];
      assert b == front + [last];
      ListsTogether(a, s, front, Members(front));
      assert (a + b)[..|a + b| - 1] == a + front && a + b == a + front + [last];
      assert last in Members(b);
      forall q | q in a ensures q != last {
        assert q in Members(a);
      }
      assert Members(a + b) == s + t;
    }
  }

  /** The queues of a set that are subscribed to a session. */
  ghost function Of(subs: set<Queue>, session: string): set<Queue> {
    set q | q in subs && q.session == session
  }

  ghost function OfAny(subs: set<Queue>, sessions: set<string>): set<Queue> {
    set q | q in subs && q.session in sessions
  }

  lemma OfNext(subs: set<Queue>, sessions: set<string>, session: string)
    requires session !in sessions
    ensures OfAny(subs, sessions + {session}) == OfAny(subs, sessions) + Of(subs, session)
    ensures OfAny(subs, sessions) !! Of(subs, session)
  {
  }

  /** `queues` without the first occurrence of `q`. */
  function Without(queues: seq<Queue>, q: Queue): seq<Queue> {
    if |queues| == 0 then []
    else if queues[|queues| - 1] == q && q !in queues[..|queues| - 1] then queues[..|queues| - 1]
    else Without(queues[..|queues| - 1], q) + [queues[|queues| - 1]]
  }

  lemma {:induction false} WithoutLists(queues: seq<Queue>, s: set<Queue>, q: Queue)
    requires Lists(queues, s)
    ensures Lists(Without(queues, q), s - {q})
  {
    if |queues| > 0 {
      var front, last := queues[..|queues| - 1], queues[|queues| - 1];
      assert queues == front + [last];
      if last == q {
        assert Members(front) == s - {q};
      } else {
        WithoutLists(front, Members(front), q);
        var rest := Without(front, q);
        assert (rest + [last])[..|rest|] == rest;
        forall x | x in rest ensures x != last {
          assert x in Members(rest);
        }
        assert s == Members(front) + {last};
        assert Members(rest + [last]) == Members(rest) + {last};
      }
    }
  }

  /** The lists hold exactly the subscribed queues, each once and under its own session. */
  ghost predicate Filed(bySession: map<string, seq<Queue>>, everywhere: seq<Queue>, subs: set<Queue>) {
    && Lists(everywhere, Of(subs, ""))
    && (forall s :: s in bySession ==> s != "" && bySession[s] != [] && Lists(bySession[s], Of(subs, s)))
    && (forall q :: q in subs ==> q.session == "" || q.session in bySession)
  }

  function Listed(bySession: map<string, seq<Queue>>, session: string): seq<Queue> {
    if session in bySession then bySession[session] else []
  }

  lemma ListedIs(bySession: map<string, seq<Queue>>, everywhere: seq<Queue>, subs: set<Queue>, session: string)
    requires Filed(bySession, everywhere, subs) && session != ""
    ensures Lists(Listed(bySession, session), Of(subs, session))
  {
    if session !in bySession {
      assert Of(subs, session) == {};
    }
  }

  lemma OfOthers(subs: set<Queue>, q: Queue, session: string)
    requires session != q.session
    ensures Of(subs + {q}, session) == Of(subs, session) == Of(subs - {q}, session)
  {
  }

  lemma OfAdded(subs: set<Queue>, q: Queue)
    requires q !in subs
    ensures Of(subs + {q}, q.session) == Of(subs, q.session) + {q} && q !in Of(subs, q.session)
  {
  }

  /** Adding a queue to its session's list. */
  lemma FiledAfterAdding(bySession: map<string, seq<Queue>>, everywhere: seq<Queue>, subs: set<Queue>, q: Queue)
    requires Filed(bySession, everywhere, subs) && q !in subs && q.session != ""
    ensures Filed(bySession[q.session := Listed(bySession, q.session) + [q]], everywhere, subs + {q})
  {
    OfAdded(subs, q);
    ListedIs(bySession, everywhere, subs, q.session);
    ListsTogether(Listed(bySession, q.session), Of(subs, q.session), [q], {q});
    forall s | s != q.session ensures Of(subs + {q}, s) == Of(subs, s) {
      OfOthers(subs, q, s);
    }
  }

  lemma FiledAfterAddingGlobally(bySession: map<string, seq<Queue>>, everywhere: seq<Queue>, subs: set<Queue>, q: Queue)
    requires Filed(bySession, everywhere, subs) && q !in subs && q.session == ""
    ensures Filed(bySession, everywhere + [q], subs + {q})
  {
    OfAdded(subs, q);
    ListsTogether(everywhere, Of(subs, ""), [q], {q});
    forall s | s != "" ensures Of(subs + {q}, s) == Of(subs, s) {
      OfOthers(subs, q, s);
    }
  }

  /** Taking a queue off a session's list, and dropping a list that becomes empty. */
  lemma FiledAfterRemoving(
    bySession: map<string, seq<Queue>>, everywhere: seq<Queue>, subs: set<Queue>, q: Queue, session: string)
    requires Filed(bySession, everywhere, subs) && session in bySession
    ensures var rest, fewer := Without(bySession[session], q), if q.session == session then subs - {q} else subs;
      Filed(if rest == [] then bySession - {session} else bySession[session := rest], everywhere, fewer)
  {
    var rest, fewer := Without(bySession[session], q), if q.session == session then subs - {q} else subs;
    WithoutLists(bySession[session], Of(subs, session), q);
    assert Of(fewer, session) == Of(subs, session) - {q};
    forall s | s != session ensures Of(fewer, s) == Of(subs, s) {
      if q.session == session {
        OfOthers(subs, q, s);
      }
    }
    if rest == [] {
      assert Of(fewer, session) == {};
    }
  }

  lemma FiledAfterRemovingGlobally(bySession: map<string, seq<Queue>>, everywhere: seq<Queue>, subs: set<Queue>, q: Queue)
    requires Filed(bySession, everywhere, subs)
    ensures Filed(bySession, Without(everywhere, q), if q.session == "" then subs - {q} else subs)
  {
    var fewer := if q.session == "" then subs - {q} else subs;
    WithoutLists(everywhere, Of(subs, ""), q);
    assert Of(fewer, "") == Of(subs, "") - {q};
    forall s | s != "" ensures Of(fewer, s) == Of(subs, s) {
      if q.session == "" {
        OfOthers(subs, q, s);
      }
    }
  }

  // ---------------------------------------------------------------- the bus

  class Bus {
    var sessionSubs: map<string, seq<Queue>>
    var globalSubs: seq<Queue>

    ghost var subs: set<Queue>   // every subscribed queue
    ghost var log: seq<Event>    // every event published so far

    constructor ()
      ensures Valid() && subs == {} && log == []
    {
      sessionSubs, globalSubs, subs, log := map[], [], {}, [];
    }

    ghost predicate Valid()
      reads this, subs
    {
      && Filed(sessionSubs, globalSubs, subs) && |subs| <= MAX_SUBSCRIBERS
      && (forall q :: q in subs ==> q.UpToDate(log))
    }

    /** How many queues are subscribed. */
    method SubscriberCount() returns (total: nat)
      requires Filed(sessionSubs, globalSubs, subs)
      ensures total == |subs|
    {
      ListLength(globalSubs, Of(subs, ""));
      total := |globalSubs|;
      var todo := sessionSubs.Keys;
      ghost var done: set<string> := {""};
      assert OfAny(subs, {""}) == Of(subs, "");
      while todo != {}
        invariant todo <= sessionSubs.Keys && done == sessionSubs.Keys - todo + {""}
        invariant total == |OfAny(subs, done)|
        decreases |todo|
      {
        var s :| s in todo;
        ListLength(sessionSubs[s], Of(subs, s));
        OfNext(subs, done, s);
        total := total + |sessionSubs[s]|;
        todo, done := todo - {s}, done + {s};
      }
      assert OfAny(subs, done) == subs;
    }

    /** A new, empty queue, unless the bus is full. */
    method Subscribe(session: string) returns (queue: Option<Queue>)
      requires Valid()
      modifies this`sessionSubs, this`globalSubs, this`subs
      ensures Valid()
      ensures queue.None? <==> |old(subs)| >= MAX_SUBSCRIBERS
      ensures queue.None? ==> subs == old(subs)
      ensures queue.Some? ==>
        && fresh(queue.value) && queue.value.session == session && queue.value.items == []
        && subs == old(subs) + {queue.value}
    {
      var total := SubscriberCount();
      if total >= MAX_SUBSCRIBERS {
        return None;
      }
      var q := new Queue(session, |log|);
      File(q);
      return Some(q);
    }

    /** Put a new queue on the list of its session, or on the global one. */
    method File(q: Queue)
      requires Valid() && |subs| < MAX_SUBSCRIBERS && q !in subs && q.UpToDate(log)
      modifies this`sessionSubs, this`globalSubs, this`subs
      ensures Valid() && subs == old(subs) + {q}
    {
      if q.session != "" {
        FiledAfterAdding(sessionSubs, globalSubs, subs, q);
        sessionSubs := sessionSubs[q.session := Listed(sessionSubs, q.session) + [q]];
      } else {
        FiledAfterAddingGlobally(sessionSubs, globalSubs, subs, q);
        globalSubs := globalSubs + [q];
      }
      subs := subs + {q};
    }

    /**
     Take a queue off the list the call points at: that of the session if there is
     one, and otherwise the global one. A queue that is not on it stays where it is.
     */
    method Unsubscribe(q: Queue, session: string)
      requires Valid()
      modifies this`sessionSubs, this`globalSubs, this`subs
      ensures Valid()
      ensures subs == if q.session == (if session in old(sessionSubs) then session else "") then old(subs) - {q}
                      else old(subs)
    {
      if session != "" && session in sessionSubs {
        FiledAfterRemoving(sessionSubs, globalSubs, subs, q, session);
        var rest := Without(sessionSubs[session], q);
        sessionSubs := if rest == [] then sessionSubs - {session} else sessionSubs[session := rest];
        subs := if q.session == session then subs - {q} else subs;
      } else {
        FiledAfterRemovingGlobally(sessionSubs, globalSubs, subs, q);
        globalSubs := Without(globalSubs, q);
        subs := if q.session == "" then subs - {q} else subs;
      }
    }

    /** The queues an event is for, each once. */
    method Targets(e: Event) returns (targets: seq<Queue>)
      requires Filed(sessionSubs, globalSubs, subs)
      ensures Lists(targets, set q | q in subs && Wants(q.session, e))
    {
      if e.session != "" {
        var own := Listed(sessionSubs, e.session);
        ListedIs(sessionSubs, globalSubs, subs, e.session);
        ListsTogether(own, Of(subs, e.session), globalSubs, Of(subs, ""));
        targets := own + globalSubs;
        assert Of(subs, e.session) + Of(subs, "") == set q | q in subs && Wants(q.session, e);
      } else {
        targets := globalSubs;
        var todo := sessionSubs.Keys;
        ghost var done: set<string> := {""};
        assert OfAny(subs, {""}) == Of(subs, "");
        while todo != {}
          invariant todo <= sessionSubs.Keys && done == sessionSubs.Keys - todo + {""}
          invariant Lists(targets, OfAny(subs, done))
          decreases |todo|
        {
          var s :| s in todo;
          OfNext(subs, done, s);
          ListsTogether(targets, OfAny(subs, done), sessionSubs[s], Of(subs, s));
          targets := targets + sessionSubs[s];
          todo, done := todo - {s}, done + {s};
        }
        assert OfAny(subs, done) == set q | q in subs && Wants(q.session, e);
      }
    }

    /** Put an event into a queue, its oldest event making room if it must: this cannot fail. */
    method Deliver(q: Queue, e: Event) returns (ok: bool)
      requires |q.items| <= QUEUE_SIZE
      modifies q
      ensures ok && q.items == Offered(old(q.items), e)
    {
      ok := q.Put(e);
      if !ok {
        var oldest := q.Get();
        ok := oldest.Some?;
        if ok {
          ok := q.Put(e);
        }
      }
    }

    /** Publishing reaches exactly the queues that want the event, and drops no subscriber. */
    method Publish(e: Event)
      requires Valid()
      modifies this, subs
      ensures Valid() && subs == old(subs) && log == old(log) + [e]
      ensures forall q :: q in subs ==>
        q.items == if Wants(q.session, e) then Offered(old(q.items), e) else old(q.items)
    {
      var targets := Targets(e);
      forall q | q in targets ensures q in subs && |q.items| <= QUEUE_SIZE {
        assert q in Members(targets);
      }
      var dead := DeliverAll(targets, e);
      assert dead == [];   // so there is nobody to unsubscribe
      log := log + [e];
      forall q | q in subs
        ensures q.items == (if Wants(q.session, e) then Offered(old(q.items), e) else old(q.items)) && q.UpToDate(log)
      {
        assert old(q.UpToDate(log));
        assert q in Members(targets) <==> Wants(q.session, e);
        MatchingNext(old(log), q.since, q.session, e);
        OfferedStaysSuffix(old(q.items), Matching(old(log)[q.since..], q.session), e);
      }
    }

    /** Deliver to each of several distinct queues; none turns out dead. */
    method DeliverAll(targets: seq<Queue>, e: Event) returns (dead: seq<Queue>)
      requires Distinct(targets) && forall q :: q in targets ==> |q.items| <= QUEUE_SIZE
      modifies Members(targets)
      ensures dead == []
      ensures forall q :: q in targets ==> q.items == Offered(old(q.items), e)
    {
      dead := [];
      for i := 0 to |targets|
        invariant dead == []
        invariant forall j :: 0 <= j < i ==> targets[j].items == Offered(old(targets[j].items), e)
        invariant forall j :: i <= j < |targets| ==> targets[j].items == old(targets[j].items)
      {
        forall j | 0 <= j < |targets| && j != i ensures targets[j] != targets[i] {
          ListedOnce(targets, if i < j then i else j, if i < j then j else i);
        }
        var q := targets[i];
        assert q in targets && q in Members(targets);
        var ok := Deliver(q, e);
        if !ok {
          dead := dead + [q];
        }
      }
    }

    /** A subscriber takes the next event it has not seen; what remains is still up to date. */
    method Consume(q: Queue) returns (e: Option<Event>)
      requires Valid() && q in subs
      modifies q
      ensures Valid()
      ensures e == if old(q.items) == [] then None else Some(old(q.items)[0])
      ensures q.items == if old(q.items) == [] then [] else old(q.items)[1..]
    {
      assert q.UpToDate(log);
      e := q.Get();
      assert IsSuffix(q.items, Matching(log[q.since..], q.session));
    }
  }
}
