/** The registry of entities mentioned in sessions: two maps that are each other's inverse. */
module SemanticRegistry {
  type Links = map<string, set<string>>

  /** What a map of sets holds under a key. */
  function Under(m: Links, key: string): set<string> {
    if key in m then m[key] else {}
  }

  predicate Linked(m: Links, a: string, b: string) {
    b in Under(m, a)
  }

  function Link(m: Links, a: string, b: string): (m': Links)
    ensures forall x, y :: Linked(m', x, y) <==> Linked(m, x, y) || (x == a && y == b)
  {
    m[a := Under(m, a) + {b}]
  }

  /** How many of these entities a session mentions. */
  function Score(sessions: Links, entities: set<string>, session: string): nat {
    |entities * Under(sessions, session)|
  }

  lemma ScoreNext(sessions: Links, entities: set<string>, e: string, session: string)
    requires e !in entities
    ensures Score(sessions, entities + {e}, session) ==
      Score(sessions, entities, session) + if Linked(sessions, session, e) then 1 else 0
  {
    var mine := Under(sessions, session);
    assert (entities + {e}) * mine == if e in mine then entities * mine + {e} else entities * mine;
  }

  /** `related` is `before` with one more for every other session among `seen`. */
  ghost predicate Counted(before: map<string, nat>, related: map<string, nat>, session: string, seen: set<string>) {
    && (forall s :: s in related <==> s in before || (s != session && s in seen))
    && (forall s :: s in related ==> related[s] == (if s in before then before[s] else 0) + if s in seen then 1 else 0)
  }

  lemma CountedNext(
    before: map<string, nat>, was: map<string, nat>, related: map<string, nat>, session: string,
    others: set<string>, todo: set<string>, s: string)
    requires Counted(before, was, session, others - todo) && s in todo && todo <= others && session !in before
    requires related == if s == session then was else was[s := (if s in was then was[s] else 0) + 1]
    ensures Counted(before, related, session, others - (todo - {s}))
  {
    assert others - (todo - {s}) == (others - todo) + {s};
  }

  class Registry {
    var entityMap: Links
    var sessionMap: Links

    constructor ()
      ensures Inverse() && sessionMap == map[]
    {
      entityMap, sessionMap := map[], map[];
    }

    ghost predicate Inverse()
      reads this
    {
      forall s, e :: Linked(sessionMap, s, e) <==> Linked(entityMap, e, s)
    }

    /** Link a session to the entities of a message. */
    method RegisterEvent(session: string, entities: set<string>)
      requires Inverse()
      modifies this
      ensures Inverse()
      ensures forall s, e :: Linked(sessionMap, s, e) <==> Linked(old(sessionMap), s, e) || (s == session && e in entities)
    {
      var todo := entities;
      while todo != {}
        invariant todo <= entities && Inverse()
        invariant forall s, e :: Linked(sessionMap, s, e) <==>
          Linked(old(sessionMap), s, e) || (s == session && e in entities && e !in todo)
        decreases |todo|
      {
        var e :| e in todo;
        entityMap := Link(entityMap, e, session);
        sessionMap := Link(sessionMap, session, e);
        todo := todo - {e};
      }
    }

    /** Every other session sharing an entity, with how many it shares. */
    method GetRelatedSessions(session: string) returns (related: map<string, nat>)
      requires Inverse()
      ensures forall s :: s in related <==> s != session && Score(sessionMap, Under(sessionMap, session), s) > 0
      ensures forall s :: s in related ==> related[s] == Score(sessionMap, Under(sessionMap, session), s)
    {
      related := map[];
      var todo := Under(sessionMap, session);
      ghost var done: set<string> := {};
      while todo != {}
        invariant todo + done == Under(sessionMap, session) && todo !! done
        invariant forall s :: s in related <==> s != session && Score(sessionMap, done, s) > 0
        invariant forall s :: s in related ==> related[s] == Score(sessionMap, done, s)
        decreases |todo|
      {
        var e :| e in todo;
        related := CountEntity(session, e, done, related);
        todo, done := todo - {e}, done + {e};
      }
      assert done == Under(sessionMap, session);
    }

    /** Count one more entity for every other session that mentions it. */
    method CountEntity(session: string, e: string, ghost done: set<string>, before: map<string, nat>)
      returns (related: map<string, nat>)
      requires Inverse() && e !in done
      requires forall s :: s in before <==> s != session && Score(sessionMap, done, s) > 0
      requires forall s :: s in before ==> before[s] == Score(sessionMap, done, s)
      ensures forall s :: s in related <==> s != session && Score(sessionMap, done + {e}, s) > 0
      ensures forall s :: s in related ==> related[s] == Score(sessionMap, done + {e}, s)
    {
      related := before;
      var others := Under(entityMap, e);
      var todo := others;
      while todo != {}
        invariant todo <= others
        invariant Counted(before, related, session, others - todo)
        decreases |todo|
      {
        var s :| s in todo;
        ghost var was := related;
        if s != session {
          related := related[s := (if s in related then related[s] else 0) + 1];
        }
        CountedNext(before, was, related, session, others, todo, s);
        todo := todo - {s};
      }
      forall s ensures Score(sessionMap, done + {e}, s) == Score(sessionMap, done, s) + if s in others then 1 else 0 {
        ScoreNext(sessionMap, done, e, s);
        assert Linked(sessionMap, s, e) <==> Linked(entityMap, e, s);
      }
    }

    /** Events in any number and order. */
    method RegisterAll(events: seq<(string, set<string>)>)
      requires Inverse()
      modifies this
      ensures Inverse()
    {
      for i := 0 to |events|
        invariant Inverse()
      {
        RegisterEvent(events[i].0, events[i].1);
      }
    }
  }

  /** Two sessions share as much one way as the other, so being related is symmetric. */
  lemma ScoreIsSymmetric(sessions: Links, a: string, b: string)
    ensures Score(sessions, Under(sessions, a), b) == Score(sessions, Under(sessions, b), a)
  {
    assert Under(sessions, a) * Under(sessions, b) == Under(sessions, b) * Under(sessions, a);
  }
}
