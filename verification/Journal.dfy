/**
 The runner's SQLite journal: the lifecycle tables `jobs` and `events`, and the
 completion outbox. Tables are maps and sequences, a statement is atomic, and
 any statement may fail.
 */
module Journal {
  import opened Prelude
  import opened Protocol
  import opened States

  datatype Event = Event(key: JobKey, state: State)

  /** Serialized results; only text the runner did not write itself fails to parse. */
  datatype Payload = Encoded(result: JobResult) | Garbled(text: string)

  function Parse(p: Payload): Option<JobResult> {
    match p
    case Encoded(r) => Some(r)
    case Garbled(_) => None
  }

  datatype Row = Row(
    lease: string, idempotencyKey: string, payload: Payload, attempts: nat, delivered: bool, updatedAt: nat)
  type Outbox = map<JobKey, Row>

  function Enqueued(o: Outbox, key: JobKey, lease: string, idempotencyKey: string, payload: Payload, now: nat): Outbox {
    if key in o then o else o[key := Row(lease, idempotencyKey, payload, 0, false, now)]
  }

  function Attempted(o: Outbox, key: JobKey, now: nat): Outbox {
    if key in o then o[key := o[key].(attempts := o[key].attempts + 1, updatedAt := now)] else o
  }

  function Delivered(o: Outbox, key: JobKey, now: nat): Outbox {
    if key in o then o[key := o[key].(delivered := true, updatedAt := now)] else o
  }

  function PendingKeys(o: Outbox): set<JobKey> {
    set k | k in o && !o[k].delivered
  }

  /** Where a transition call can fail: before its first statement, or between its two. */
  datatype Fate = Done | LostBefore | LostBetween

  datatype Tables = Tables(jobs: map<JobKey, State>, events: seq<Event>)

  /** One transition call: the upsert into `jobs`, then the insert into `events`. */
  function Transitioned(t: Tables, key: JobKey, state: State, fate: Fate): Tables {
    match fate
    case LostBefore => t
    case LostBetween => t.(jobs := t.jobs[key := state])
    case Done => Tables(t.jobs[key := state], t.events + [Event(key, state)])
  }

  function LastState(events: seq<Event>, key: JobKey): Option<State> {
    if events == [] then None
    else if events[|events| - 1].key == key then Some(events[|events| - 1].state)
    else LastState(events[..|events| - 1], key)
  }

  /** The `jobs` row of `key` is the last event recorded for it. */
  predicate InStep(t: Tables, key: JobKey) {
    LastState(t.events, key) == if key in t.jobs then Some(t.jobs[key]) else None
  }

  datatype Call = Call(key: JobKey, state: State, fate: Fate)

  function AfterCalls(calls: seq<Call>): Tables {
    if calls == [] then Tables(map[], [])
    else
      var c := calls[|calls| - 1];
      Transitioned(AfterCalls(calls[..|calls| - 1]), c.key, c.state, c.fate)
  }

  /** Call `i` changed `jobs` but not `events`, and no later call reached `jobs` for that key. */
  predicate LastWasTorn(calls: seq<Call>, key: JobKey, i: nat)
    requires i < |calls|
  {
    && calls[i].key == key
    && calls[i].fate.LostBetween?
    && forall j | i < j < |calls| :: calls[j].key == key ==> calls[j].fate.LostBefore?
  }

  predicate Untorn(calls: seq<Call>, key: JobKey) {
    forall i | 0 <= i < |calls| :: !LastWasTorn(calls, key, i)
  }

  lemma LastStateGrows(events: seq<Event>, e: Event, key: JobKey)
    ensures LastState(events + [e], key) == if e.key == key then Some(e.state) else LastState(events, key)
  {
    assert (events + [e])[..|events|] == events;
  }

  /** What one call does to the two tables' view of a key. */
  lemma CallShows(t: Tables, c: Call, key: JobKey)
    ensures var u := Transitioned(t, c.key, c.state, c.fate);
      && (c.key == key && !c.fate.LostBefore? ==> key in u.jobs && u.jobs[key] == c.state)
      && (c.key == key && c.fate.Done? ==> LastState(u.events, key) == Some(c.state))
      && (c.key == key && !c.fate.Done? ==> LastState(u.events, key) == LastState(t.events, key))
      && (c.key != key || c.fate.LostBefore? ==>
          && LastState(u.events, key) == LastState(t.events, key)
          && (key in u.jobs <==> key in t.jobs)
          && (key in t.jobs ==> u.jobs[key] == t.jobs[key]))
  {
    LastStateGrows(t.events, Event(c.key, c.state), key);
    hide LastState;
  }

  /** A torn last call leaves its state in `jobs` and the older state in `events`. */
  lemma {:induction false} TornCallShows(calls: seq<Call>, key: JobKey, i: nat)
    requires i < |calls| && LastWasTorn(calls, key, i)
    ensures key in AfterCalls(calls).jobs && AfterCalls(calls).jobs[key] == calls[i].state
    ensures LastState(AfterCalls(calls).events, key) == LastState(AfterCalls(calls[..i]).events, key)
  {
    var n := |calls| - 1;
    CallShows(AfterCalls(calls[..n]), calls[n], key);
    hide LastState, Transitioned;
    if i == n {
    } else {
      var before := calls[..n];
      assert before[..i] == calls[..i] && forall j | 0 <= j < n :: before[j] == calls[j];
      TornCallShows(before, key, i);
    }
  }

  /** A call that did not reach `jobs` for `key` does not decide whether the last one that did was torn. */
  lemma PrefixStaysUntorn(calls: seq<Call>, key: JobKey)
    requires calls != [] && Untorn(calls, key)
    requires var c := calls[|calls| - 1]; c.key == key ==> c.fate.LostBefore?
    ensures Untorn(calls[..|calls| - 1], key)
  {
    var n := |calls| - 1;
    forall i: nat | i < n
      ensures !LastWasTorn(calls[..n], key, i)
    {
      assert !LastWasTorn(calls, key, i);
      assert forall j | 0 <= j < n :: calls[..n][j] == calls[j];
    }
  }

  /** Without a torn last call the tables agree. */
  lemma {:induction false} UntornAgrees(calls: seq<Call>, key: JobKey)
    requires Untorn(calls, key)
    ensures InStep(AfterCalls(calls), key)
  {
    if calls == [] {
    } else {
      var n := |calls| - 1;
      var c := calls[n];
      assert !LastWasTorn(calls, key, n);
      assert c.key == key ==> !c.fate.LostBetween?;
      CallShows(AfterCalls(calls[..n]), c, key);
      if c.key == key ==> c.fate.LostBefore? {
        PrefixStaysUntorn(calls, key);
        UntornAgrees(calls[..n], key);
      }
      hide LastState, Transitioned, LastWasTorn;
    }
  }

  /**
   After any sequence of transition calls, `jobs` and `events` agree on a key unless the last call
   that reached `jobs` for it was torn between its statements and meant a real change of state.
   */
  lemma TablesAgreeExactly(calls: seq<Call>, key: JobKey)
    ensures InStep(AfterCalls(calls), key) <==>
      forall i: nat | i < |calls| && LastWasTorn(calls, key, i) ::
        LastState(AfterCalls(calls[..i]).events, key) == Some(calls[i].state)
  {
    if i: nat :| i < |calls| && LastWasTorn(calls, key, i) {
      TornCallShows(calls, key, i);
      forall j: nat | j < |calls| && LastWasTorn(calls, key, j)
        ensures j == i
      {}
    } else {
      UntornAgrees(calls, key);
    }
  }

  datatype Pending = Pending(key: JobKey, row: Row)

  /** States after which nothing is left to clean up. */
  predicate Finished(s: State) {
    Terminal(s) || s.Destroyed?
  }

  lemma Oldest(o: Outbox, keys: set<JobKey>) returns (k: JobKey)
    requires keys != {} && keys <= o.Keys
    ensures k in keys && forall j | j in keys :: o[k].updatedAt <= o[j].updatedAt
  {
    k :| k in keys;
    if keys != {k} {
      assert keys - {k} != {} by {
        assert keys == {k} + (keys - {k});
      }
      var other := Oldest(o, keys - {k});
      if o[other].updatedAt < o[k].updatedAt {
        k := other;
      }
    }
  }

  /** `pending` lists the pending rows but those in `left`, each once, oldest first and none newer than `left`. */
  predicate Listed(o: Outbox, left: set<JobKey>, pending: seq<Pending>) {
    && left <= PendingKeys(o)
    && (forall k | k in PendingKeys(o) - left :: Pending(k, o[k]) in pending)
    && (forall p | p in pending :: p.key in PendingKeys(o) - left && p.row == o[p.key])
    && (forall i, j | 0 <= i < j < |pending| ::
          pending[i].key != pending[j].key && pending[i].row.updatedAt <= pending[j].row.updatedAt)
    && (forall p, k | p in pending && k in left :: p.row.updatedAt <= o[k].updatedAt)
  }

  lemma ListedStep(o: Outbox, left: set<JobKey>, pending: seq<Pending>, k: JobKey)
    requires Listed(o, left, pending) && k in left && forall j | j in left :: o[k].updatedAt <= o[j].updatedAt
    ensures Listed(o, left - {k}, pending + [Pending(k, o[k])])
  {
    assert forall p | p in pending :: p.key != k;
    assert forall i | 0 <= i < |pending| :: pending[i] in pending;
    hide PendingKeys;
  }

  /** The events recorded while the jobs of `order` are finished off one after another. */
  function FinishingOff(order: seq<JobKey>): seq<Event> {
    if order == [] then []
    else
      var k := order[|order| - 1];
      FinishingOff(order[..|order| - 1]) + [Event(k, Destroying), Event(k, Destroyed)]
  }

  lemma NothingFinishedOff(events: seq<Event>)
    ensures events + FinishingOff([]) == events
  {}

  lemma FinishingOffGrows(order: seq<JobKey>, k: JobKey)
    ensures FinishingOff(order + [k]) == FinishingOff(order) + [Event(k, Destroying), Event(k, Destroyed)]
  {
    assert (order + [k])[..|order|] == order;
  }

  /** The unfinished jobs are those of `order`, destroyed by now, and those in `left`; the rest is untouched. */
  ghost predicate CleanedSoFar(
    before: map<JobKey, State>, jobs: map<JobKey, State>, left: set<JobKey>, order: seq<JobKey>)
  {
    && jobs.Keys == before.Keys
    && (forall k | k in before :: !Finished(before[k]) <==> k in left || k in order)
    && (forall k | k in left :: k in before && k !in order)
    && (forall k | k in order :: k in before)
    && (forall i, j | 0 <= i < j < |order| :: order[i] != order[j])
    && (forall k | k in before :: jobs[k] == if k in order then Destroyed else before[k])
  }

  /** No job is added or removed, and finished ones keep their state. */
  ghost predicate FinishedStay(before: map<JobKey, State>, jobs: map<JobKey, State>) {
    jobs.Keys == before.Keys && forall k | k in before && Finished(before[k]) :: jobs[k] == before[k]
  }

  lemma CleanedOne(
    before: map<JobKey, State>, jobs: map<JobKey, State>, left: set<JobKey>, order: seq<JobKey>, k: JobKey)
    requires CleanedSoFar(before, jobs, left, order) && k in left
    ensures CleanedSoFar(before, jobs[k := Destroyed], left - {k}, order + [k])
    ensures FinishedStay(before, jobs)
    ensures FinishedStay(before, jobs[k := Destroying]) && FinishedStay(before, jobs[k := Destroyed])
  {}

  lemma CleanedAll(before: map<JobKey, State>, jobs: map<JobKey, State>, order: seq<JobKey>)
    requires CleanedSoFar(before, jobs, {}, order)
    ensures FinishedStay(before, jobs)
    ensures forall k | k in jobs :: Finished(jobs[k])
    ensures forall k | k in before :: k in order <==> !Finished(before[k])
    ensures forall i, j | 0 <= i < j < |order| :: order[i] != order[j]
    ensures forall k | k in before && k in order :: k in jobs && jobs[k] == Destroyed
  {}

  class Store {
    var jobs: map<JobKey, State>
    var events: seq<Event>
    var outbox: Outbox

    /** A fresh database file. */
    constructor ()
      ensures jobs == map[] && events == [] && outbox == map[]
    {
      jobs, events, outbox := map[], [], map[];
    }

    method Transition(key: JobKey, state: State, fate: Fate) returns (ok: bool)
      modifies this`jobs, this`events
      ensures ok <==> fate.Done?
      ensures Tables(jobs, events) == Transitioned(old(Tables(jobs, events)), key, state, fate)
    {
      if fate.LostBefore? {
        return false;
      }
      jobs := jobs[key := state];
      if fate.LostBetween? {
        return false;
      }
      events := events + [Event(key, state)];
      return true;
    }

    /** The attempt number a local run gets: one more than any this job has used. */
    method NextAttempt(id: string) returns (next: nat)
      ensures JobKey(id, next) !in jobs && next >= 1
      ensures forall k | k in jobs && k.id == id :: k.attempt < next
      ensures next == 1 || exists k :: k in jobs && k.id == id && k.attempt + 1 == next
    {
      next := 1;
      var left := jobs.Keys;
      while left != {}
        invariant left <= jobs.Keys && next >= 1
        invariant forall k | k in jobs && k !in left && k.id == id :: k.attempt < next
        invariant next == 1 || exists k :: k in jobs && k.id == id && k.attempt + 1 == next
        decreases |left|
      {
        var k :| k in left;
        if k.id == id && k.attempt >= next {
          next := k.attempt + 1;
        }
        left := left - {k};
      }
    }

    function Unfinished(): (keys: set<JobKey>)
      reads this
      ensures forall k :: k in keys <==>
        k in jobs && jobs[k] in {Received, Preparing, Running, Collecting, Destroying}
    {
      set k | k in jobs && !Finished(jobs[k])
    }

    method EnqueueCompletion(
      key: JobKey, lease: string, idempotencyKey: string, payload: Payload, now: nat, works: bool)
      returns (ok: bool)
      modifies this`outbox
      ensures ok <==> works
      ensures outbox == if works then Enqueued(old(outbox), key, lease, idempotencyKey, payload, now) else old(outbox)
      ensures outbox ==
        if works && key !in old(outbox) then old(outbox)[key := Row(lease, idempotencyKey, payload, 0, false, now)]
        else old(outbox)
    {
      if works && key !in outbox {
        outbox := outbox[key := Row(lease, idempotencyKey, payload, 0, false, now)];
      }
      ok := works;
    }

    method RecordCompletionAttempt(key: JobKey, now: nat, works: bool) returns (ok: bool)
      modifies this`outbox
      ensures ok <==> works
      ensures outbox == if works then Attempted(old(outbox), key, now) else old(outbox)
      ensures outbox ==
        if works && key in old(outbox) then
          old(outbox)[key := old(outbox)[key].(attempts := old(outbox)[key].attempts + 1, updatedAt := now)]
        else old(outbox)
    {
      if works && key in outbox {
        outbox := outbox[key := outbox[key].(attempts := outbox[key].attempts + 1, updatedAt := now)];
      }
      ok := works;
    }

    method MarkCompletionDelivered(key: JobKey, now: nat, works: bool) returns (ok: bool)
      modifies this`outbox
      ensures ok <==> works
      ensures outbox == if works then Delivered(old(outbox), key, now) else old(outbox)
      ensures outbox ==
        if works && key in old(outbox) then
          old(outbox)[key := old(outbox)[key].(delivered := true, updatedAt := now)]
        else old(outbox)
    {
      if works && key in outbox {
        outbox := outbox[key := outbox[key].(delivered := true, updatedAt := now)];
      }
      ok := works;
    }

    /** All undelivered rows, each once, least recently touched first. */
    method PendingCompletions() returns (pending: seq<Pending>)
      ensures forall k | k in outbox :: !outbox[k].delivered <==> Pending(k, outbox[k]) in pending
      ensures forall k | k in PendingKeys(outbox) :: Pending(k, outbox[k]) in pending
      ensures forall p | p in pending :: p.key in PendingKeys(outbox) && p.row == outbox[p.key]
      ensures forall i, j | 0 <= i < j < |pending| ::
        pending[i].key != pending[j].key && pending[i].row.updatedAt <= pending[j].row.updatedAt
    {
      pending := [];
      var left := PendingKeys(outbox);
      while left != {}
        invariant Listed(outbox, left, pending)
        decreases |left|
      {
        ghost var oldest := Oldest(outbox, left);
        hide PendingKeys, Listed;
        var k :| k in left && forall j | j in left :: outbox[k].updatedAt <= outbox[j].updatedAt;
        ListedStep(outbox, left, pending, k);
        left := left - {k};
        pending := pending + [Pending(k, outbox[k])];
      }
    }

    method FinishOne(k: JobKey, first: Fate, second: Fate) returns (ok: bool)
      modifies this`jobs, this`events
      ensures ok ==>
        jobs == old(jobs)[k := Destroyed] && events == old(events) + [Event(k, Destroying), Event(k, Destroyed)]
      ensures jobs == old(jobs) || jobs == old(jobs)[k := Destroying] || jobs == old(jobs)[k := Destroyed]
    {
      ok := Transition(k, Destroying, first);
      if !ok {
        return;
      }
      ok := Transition(k, Destroyed, second);
    }

    /** Finishes off the jobs in `left`, one after another in any order. */
    method FinishOff(jobsLeft: set<JobKey>, fates: nat -> Fate) returns (ok: bool, ghost order: seq<JobKey>)
      requires CleanedSoFar(jobs, jobs, jobsLeft, [])
      modifies this`jobs, this`events
      ensures FinishedStay(old(jobs), jobs)
      ensures ok ==> CleanedSoFar(old(jobs), jobs, {}, order) && events == old(events) + FinishingOff(order)
    {
      var left, i := jobsLeft, 0;
      order := [];
      hide CleanedSoFar, FinishingOff, FinishedStay;
      ghost var before := jobs;
      NothingFinishedOff(events);
      while left != {}
        invariant CleanedSoFar(before, jobs, left, order)
        invariant events == old(events) + FinishingOff(order)
        decreases |left|
      {
        var k :| k in left;
        CleanedOne(before, jobs, left, order, k);
        FinishingOffGrows(order, k);
        ok := FinishOne(k, fates(i), fates(i + 1));
        if !ok {
          return;
        }
        assert old(events) + FinishingOff(order) + [Event(k, Destroying), Event(k, Destroyed)]
          == old(events) + (FinishingOff(order) + [Event(k, Destroying), Event(k, Destroyed)]);
        order := order + [k];
        i, left := i + 2, left - {k};
      }
      CleanedAll(before, jobs, order);
      ok := true;
    }

    /**
     Manual cleanup: `removes` tells whether everything unused could be removed, `active` whether some
     container or network of this runner is still in use. Then the journal is left alone, and all is well.
     Otherwise `order` are the jobs that were finished off, in the order in which that was done.
     */
    method Cleanup(removes: bool, active: bool, fates: nat -> Fate) returns (ok: bool, ghost order: seq<JobKey>)
      modifies this`jobs, this`events
      ensures !removes || active ==> jobs == old(jobs) && events == old(events) && (ok <==> removes)
      ensures ok ==> (Unfinished() == {} <==> !active || old(Unfinished()) == {})
      ensures ok && !active ==>
        && (forall k | k in old(jobs) :: k in order <==> !Finished(old(jobs)[k]))
        && (forall i, j | 0 <= i < j < |order| :: order[i] != order[j])
        && (forall k | k in old(jobs) && k in order :: k in jobs && jobs[k] == Destroyed)
        && events == old(events) + FinishingOff(order)
      ensures FinishedStay(old(jobs), jobs)
    {
      order := [];
      if !removes || active {
        return removes, order;
      }
      ghost var before := jobs;
      var left := Unfinished();
      ok, order := FinishOff(left, fates);
      if ok {
        hide FinishingOff;
        CleanedAll(before, jobs, order);
      }
    }
  }
}
