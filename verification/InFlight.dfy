/** The table of requests in progress, which keeps two handlers from working on one resource at once. */
module InFlight {

  /** The table itself. Its mutex makes each method one indivisible step. */
  class InFlight {
    var inFlight: map<string, bool>

    function Keys(): set<string>
      reads this
    {
      inFlight.Keys
    }

    constructor ()
      ensures Keys() == {}
    {
      inFlight := map[];
    }

    method Insert(key: string) returns (ok: bool)
      modifies this
      ensures ok <==> key !in old(Keys())
      ensures Keys() == old(Keys()) + {key}
    {
      if key in inFlight {
        return false;
      }
      inFlight := inFlight[key := true];
      return true;
    }

    method Delete(key: string)
      modifies this
      ensures Keys() == old(Keys()) - {key}
    {
      inFlight := inFlight - {key};
    }
  }

  // ---------- Handlers running side by side ----------

  /** The table, and the key that each handler now running has inserted. */
  datatype State = State(table: set<string>, running: map<nat, string>)

  /** A handler inserts its key or is refused, and a handler that got in deletes its key when it returns. */
  datatype Event = Enter(handler: nat, key: string) | Return(handler: nat)

  const IDLE := State({}, map[])

  /** Whether the handler of this event is turned away. */
  predicate Refused(s: State, e: Event) {
    e.Enter? && e.key in s.table
  }

  predicate Possible(s: State, e: Event) {
    if e.Enter? then e.handler !in s.running else e.handler in s.running
  }

  function Step(s: State, e: Event): State {
    if !Possible(s, e) || Refused(s, e) then s
    else match e
      case Enter(h, key) => State(s.table + {key}, s.running[h := key])
      case Return(h) => State(s.table - {s.running[h]}, s.running - {h})
  }

  function Run(s: State, events: seq<Event>): State {
    if events == [] then s else Step(Run(s, events[..|events| - 1]), events[|events| - 1])
  }

  /** The table holds the keys of the running handlers, and no key has two of them. */
  ghost predicate Exact(s: State) {
    && s.table == s.running.Values
    && forall a, b | a in s.running && b in s.running && s.running[a] == s.running[b] :: a == b
  }

  lemma StepKeepsExact(s: State, e: Event)
    requires Exact(s)
    ensures Exact(Step(s, e))
  {
    if Possible(s, e) && !Refused(s, e) {
      var t := Step(s, e);
      match e
      case Enter(h, key) =>
        assert t.running[h] == key;
        forall k ensures k in t.table <==> k in t.running.Values {
          if k in s.table {
            var g :| g in s.running && s.running[g] == k;
            assert t.running[g] == k;
          }
        }
      case Return(h) =>
        forall k ensures k in t.table <==> k in t.running.Values {
          if k in t.table {
            var g :| g in s.running && s.running[g] == k;
            assert g != h && t.running[g] == k;
          }
        }
    }
  }

  /** In every reachable state the table is exactly the keys of the handlers that are running. */
  lemma {:induction false} TableIsExact(events: seq<Event>)
    ensures Exact(Run(IDLE, events))
  {
    if events != [] {
      TableIsExact(events[..|events| - 1]);
      StepKeepsExact(Run(IDLE, events[..|events| - 1]), events[|events| - 1]);
    }
  }

  /** A handler is refused only on account of another handler that is running with the same key, whose hold
      the refusal leaves alone; and once all have returned the table is empty. */
  lemma RefusalAndQuiescence(events: seq<Event>, e: Event)
    ensures var s := Run(IDLE, events);
            && (Possible(s, e) && Refused(s, e) <==>
                  e.Enter? && e.handler !in s.running && exists h :: h in s.running && s.running[h] == e.key)
            && (Refused(s, e) ==> Step(s, e) == s)
            && (s.running == map[] <==> s.table == {})
  {
    TableIsExact(events);
    var s := Run(IDLE, events);
    assert forall h | h in s.running :: s.running[h] in s.running.Values;
    if e.Enter? && e.key in s.table {
      var h :| h in s.running && s.running[h] == e.key;
    }
    if h :| h in s.running && e.Enter? && s.running[h] == e.key {
      assert e.key in s.running.Values;
    }
  }
}
